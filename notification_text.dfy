/** The message texts the notification services build from a notification
    type (a ring key, possibly prefixed with `prediction_`), a serial and a
    sonde type, and the prefix test that picks between them. */
module NotificationText {
  import opened Common
  import opened RangeRings

  /** The full prefix of a prediction notification type. */
  const PredictionRingPrefix := "prediction_range_ring_"
  const ErrorText := "ERROR"

  /** The text for a live hit. */
  function LiveText(sondeType: string, ringLabel: string, serial: string): string
  {
    "An " + sondeType + " sonde has triggered range ring " + ringLabel + ". (Serial: " + serial + ")"
  }

  /** The text for a landing-prediction hit. */
  function PredictionText(sondeType: string, ringLabel: string, serial: string): string
  {
    "A landing prediction for an " + sondeType + " sonde has triggered range ring " + ringLabel + ". (Serial: " + serial + ")"
  }

  /** The if/elif/else text choice shared by the Gotify and Discord
      services: live prefix, then prediction prefix, else "ERROR"; the ring
      label is the last character of the type. */
  function SelectText(notificationType: string, serial: string, sondeType: string): (text: string)
    ensures StartsWith(notificationType, RangeRingPrefix) ==>
      text == LiveText(sondeType, LastChar(notificationType), serial)
    ensures StartsWith(notificationType, PredictionRingPrefix) ==>
      text == PredictionText(sondeType, LastChar(notificationType), serial)
    ensures !StartsWith(notificationType, RangeRingPrefix) && !StartsWith(notificationType, PredictionRingPrefix) ==>
      text == ErrorText
  {
    PrefixesDisjoint(notificationType);
    if StartsWith(notificationType, RangeRingPrefix) then LiveText(sondeType, LastChar(notificationType), serial)
    else if StartsWith(notificationType, PredictionRingPrefix) then PredictionText(sondeType, LastChar(notificationType), serial)
    else ErrorText
  }

  /** No type starts with both prefixes, so at most one branch applies. */
  lemma PrefixesDisjoint(notificationType: string)
    ensures !(StartsWith(notificationType, RangeRingPrefix) && StartsWith(notificationType, PredictionRingPrefix))
  {
    if StartsWith(notificationType, RangeRingPrefix) && StartsWith(notificationType, PredictionRingPrefix) {
      DistinctPrefixes(notificationType, notificationType, RangeRingPrefix, PredictionRingPrefix, 0);
    }
  }

  /** The three texts are told apart by their first characters. */
  lemma TextsDistinct(sondeType: string, ringLabel: string, serial: string,
                      sondeType': string, ringLabel': string, serial': string)
    ensures LiveText(sondeType, ringLabel, serial) != PredictionText(sondeType', ringLabel', serial')
    ensures LiveText(sondeType, ringLabel, serial) != ErrorText
    ensures PredictionText(sondeType, ringLabel, serial) != ErrorText
  {
    assert LiveText(sondeType, ringLabel, serial)[1] == 'n';
    assert PredictionText(sondeType', ringLabel', serial')[1] == ' ';
    assert ErrorText[1] == 'R';
    assert LiveText(sondeType, ringLabel, serial)[0] == 'A';
  }

  /** The types the notifier sends for a registry ring: its key for a live
      hit, `prediction_` + key for a predicted one. */
  function EngineType(ring: Ring, prediction: bool): string
  {
    (if prediction then PredictionPrefix else LivePrefix) + ring.key
  }

  /** Every type the notifier sends gets the matching text, never "ERROR",
      and the label is the ring key's last character (its id digit). */
  lemma EngineTypesSelectText(ring: Ring, prediction: bool, serial: string, sondeType: string)
    requires StartsWith(ring.key, RangeRingPrefix)
    ensures LastChar(EngineType(ring, prediction)) == LastChar(ring.key)
    ensures SelectText(EngineType(ring, prediction), serial, sondeType) ==
      if prediction then PredictionText(sondeType, LastChar(ring.key), serial)
      else LiveText(sondeType, LastChar(ring.key), serial)
    ensures SelectText(EngineType(ring, prediction), serial, sondeType) != ErrorText
  {
    var t := EngineType(ring, prediction);
    if prediction {
      assert t == PredictionPrefix + ring.key;
      assert t[..|PredictionRingPrefix|] == PredictionPrefix + ring.key[..|RangeRingPrefix|];
      assert StartsWith(t, PredictionRingPrefix);
      assert t[|t| - 1] == ring.key[|ring.key| - 1];
    } else {
      assert t == ring.key;
    }
    TextsDistinct(sondeType, LastChar(ring.key), serial, sondeType, LastChar(ring.key), serial);
  }
}
