/** The Discord webhook service: the posted content is the chosen text, a
    newline and the configured mentions. */
module DiscordWebhook {
  import opened Common
  import opened NotificationText

  /** `notify`: the prefix-chosen text, then "\n" and the mentions. */
  function Content(notificationType: string, serial: string, sondeType: string, mentions: string): (text: string)
    ensures |text| == |SelectText(notificationType, serial, sondeType)| + 1 + |mentions|
    ensures text[..|text| - |mentions| - 1] == SelectText(notificationType, serial, sondeType)
    ensures text[|text| - |mentions| - 1] == '\n' && text[|text| - |mentions|..] == mentions
  {
    var chosen := SelectText(notificationType, serial, sondeType);
    var text := chosen + "\n" + mentions;
    assert text[..|chosen|] == chosen && text[|chosen| + 1..] == mentions;
    text
  }
}
