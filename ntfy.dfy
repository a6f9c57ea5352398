/** The ntfy service: the Authorization header chosen once from the
    configured credentials, and the message text of a notification. */
module Ntfy {
  import opened Common
  import opened RangeRings
  import opened NotificationText
  import opened Base64

  const BearerScheme := "Bearer "
  const BasicScheme := "Basic "

  /** The user-pass of section 2 of RFC 7617: user, ':', password. */
  function UserPass(user: string, password: string): string
  {
    user + ":" + password
  }

  /** `NtfyNotifier.__init__`: a token wins; otherwise a user or password
      gives HTTP Basic credentials, the base64 of the ASCII bytes of
      "user:password"; otherwise no header. `None` is the
      UnicodeEncodeError that a non-ASCII user or password raises. */
  function AuthHeader(user: string, password: string, token: string): (r: Option<string>)
    ensures token != "" ==> r == Some(BearerScheme + token)
    ensures token == "" && user == "" && password == "" ==> r == Some("")
    ensures token == "" && (user != "" || password != "") ==>
      (r.None? <==> AsciiBytes(UserPass(user, password)).None?)
    ensures r.Some? && token == "" && (user != "" || password != "") ==>
      r.value == BasicScheme + Encode(AsciiBytes(UserPass(user, password)).value)
    ensures r.Some? && token == "" && (user != "" || password != "") ==>
      StartsWith(r.value, BasicScheme)
      && Decode(r.value[|BasicScheme|..]) == AsciiBytes(UserPass(user, password))
  {
    if token != "" then Some(BearerScheme + token)
    else if user != "" || password != "" then
      match AsciiBytes(UserPass(user, password))
      case None => None
      case Some(bytes) =>
        var header := BasicScheme + Encode(bytes);
        DecodeEncode(bytes);
        assert header[..|BasicScheme|] == BasicScheme && header[|BasicScheme|..] == Encode(bytes);
        Some(header)
    else Some("")
  }

  /** `notify` as written: only the live prefix has a text; every other
      type, the prediction types included, gives "ERROR". */
  function Message(notificationType: string, serial: string, sondeType: string): (text: string)
    ensures StartsWith(notificationType, RangeRingPrefix) ==>
      text == LiveText(sondeType, LastChar(notificationType), serial)
    ensures !StartsWith(notificationType, RangeRingPrefix) ==> text == ErrorText
  {
    if StartsWith(notificationType, RangeRingPrefix) then LiveText(sondeType, LastChar(notificationType), serial)
    else ErrorText
  }

  /** The notifier does send prediction types (`prediction_` + ring key),
      and for every one of them ntfy posts "ERROR". */
  lemma PredictionMessageIsError(ring: Ring, serial: string, sondeType: string)
    requires StartsWith(ring.key, RangeRingPrefix)
    ensures Message(EngineType(ring, true), serial, sondeType) == ErrorText
  {
    var t := EngineType(ring, true);
    assert t[0] == 'p';
    assert !StartsWith(t, RangeRingPrefix);
  }

  /** The text as the other services choose it, with the prediction branch. */
  function CorrectedMessage(notificationType: string, serial: string, sondeType: string): (text: string)
    ensures StartsWith(notificationType, RangeRingPrefix) ==>
      text == Message(notificationType, serial, sondeType)
  {
    SelectText(notificationType, serial, sondeType)
  }

  /** With the prediction branch, every type the notifier sends gets its
      text and none gets "ERROR". */
  lemma CorrectedMessageCoversEngineTypes(ring: Ring, prediction: bool, serial: string, sondeType: string)
    requires StartsWith(ring.key, RangeRingPrefix)
    ensures CorrectedMessage(EngineType(ring, prediction), serial, sondeType) ==
      if prediction then PredictionText(sondeType, LastChar(ring.key), serial)
      else LiveText(sondeType, LastChar(ring.key), serial)
    ensures CorrectedMessage(EngineType(ring, prediction), serial, sondeType) != ErrorText
  {
    EngineTypesSelectText(ring, prediction, serial, sondeType);
  }
}
