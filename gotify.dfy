/** The Gotify service: the message URL built once from the configured
    server URL and application token, and the title and text of a message. */
module Gotify {
  import opened Common
  import opened RangeRings
  import opened NotificationText
  import opened Uri

  const Title := "Sonde Notifier"
  const MessagePath := "/message"

  /** The reference `"/message?" + token` parses as an absolute path whose
      query is the token up to its first '#'; the rest of the token, past
      that '#', is the fragment. */
  lemma ParseMessageReference(appToken: string)
    ensures var r := Parse(MessagePath + "?" + appToken);
      && r.scheme.None? && r.authority.None? && r.path == MessagePath
      && Recompose(r) == MessagePath + "?" + appToken
    ensures var r := Parse(MessagePath + "?" + appToken);
      var i := IndexOfAny(appToken, {'#'});
      && r.query == Some(appToken[..i])
      && r.fragment == (if i < |appToken| then Some(appToken[i + 1..]) else None)
  {
    MessageReferenceComponents(appToken);
    RecomposeParse(MessagePath + "?" + appToken);
  }

  /** The five components of "/message?" + token. */
  lemma MessageReferenceComponents(appToken: string)
    ensures var i := IndexOfAny(appToken, {'#'});
      Parse(MessagePath + "?" + appToken) ==
        Uri(None, None, MessagePath, Some(appToken[..i]), if i < |appToken| then Some(appToken[i + 1..]) else None)
  {
    MessageReferenceHead(appToken);
    TokenQuery(appToken);
    TokenFragment(appToken);
  }

  /** A token without '#' is the whole query, and there is no fragment. */
  lemma TokenIsQuery(appToken: string)
    requires forall j :: 0 <= j < |appToken| ==> appToken[j] != '#'
    ensures Parse(MessagePath + "?" + appToken).query == Some(appToken)
    ensures Parse(MessagePath + "?" + appToken).fragment.None?
  {
    var i := IndexOfAny(appToken, {'#'});
    MessageReferenceComponents(appToken);
    assert i == |appToken| && appToken[..i] == appToken;
  }

  /** "/message?" + token has no scheme and no authority, and its path ends
      at the '?'. */
  lemma MessageReferenceHead(appToken: string)
    ensures var s := MessagePath + "?" + appToken;
      SplitScheme(s) == (None, s) && SplitAuthority(s) == (None, s)
      && SplitPath(s) == (MessagePath, "?" + appToken)
  {
    var s := MessagePath + "?" + appToken;
    assert s[0] == '/' && s[1] == 'm';
    assert s[..2] != "//";
    assert s[8] == '?';
    assert IndexOfAny(s, {'?', '#'}) == 8;
    assert s[..8] == MessagePath && s[8..] == "?" + appToken;
  }

  /** After the '?', the query is the token up to its first '#'. */
  lemma TokenQuery(appToken: string)
    ensures var i := IndexOfAny(appToken, {'#'});
      SplitQuery("?" + appToken) == (Some(appToken[..i]), appToken[i..])
  {
    var t := "?" + appToken;
    var i := IndexOfAny(appToken, {'#'});
    assert t[1..] == appToken;
    assert t[1..1 + i] == appToken[..i] && t[1 + i..] == appToken[i..];
  }

  /** The fragment is what follows the token's first '#'. */
  lemma TokenFragment(appToken: string)
    ensures var i := IndexOfAny(appToken, {'#'});
      SplitFragment(appToken[i..]) == (if i < |appToken| then Some(appToken[i + 1..]) else None)
  {
    var i := IndexOfAny(appToken, {'#'});
    if i < |appToken| {
      assert appToken[i..][1..] == appToken[i + 1..];
    }
  }

  lemma MessagePathIsAbsolute()
    ensures StartsWith(MessagePath, "/") && NoDots(MessagePath)
  {
  }

  /** `urljoin(url, "/message?" + app_token)`, resolved as section 5.2.2 of
      RFC 3986 resolves an absolute-path reference. */
  function MessageUrl(url: string, appToken: string): string
  {
    ParseMessageReference(appToken);
    MessagePathIsAbsolute();
    var reference := Parse(MessagePath + "?" + appToken);
    Recompose(ResolveAbsolutePath(Parse(url), reference))
  }

  /** The message URL is the configured URL's scheme and authority, which
      start that URL, followed by "/message?" and the token; the configured
      path, query and fragment are dropped. */
  lemma MessageUrlShape(url: string, appToken: string)
    ensures MessageUrl(url, appToken) == Origin(Parse(url)) + (MessagePath + "?" + appToken)
    ensures StartsWith(url, Origin(Parse(url)))
  {
    ParseMessageReference(appToken);
    MessagePathIsAbsolute();
    var r := Parse(MessagePath + "?" + appToken);
    var base := Parse(url);
    var t := ResolveAbsolutePath(base, r);
    assert MessageUrl(url, appToken) == Recompose(t);
    assert Origin(t) == Origin(base);
    assert PathOnward(t) == PathOnward(r);
    assert Origin(r) == "";
    assert PathOnward(r) == MessagePath + "?" + appToken;
    OriginStartsReference(url);
  }

  datatype Message = Message(title: string, text: string)

  /** `notify`: a fixed title and the text chosen by the type's prefix. */
  function Notify(notificationType: string, serial: string, sondeType: string): (m: Message)
    ensures m.title == Title
    ensures StartsWith(notificationType, RangeRingPrefix) ==>
      m.text == LiveText(sondeType, LastChar(notificationType), serial)
    ensures StartsWith(notificationType, PredictionRingPrefix) ==>
      m.text == PredictionText(sondeType, LastChar(notificationType), serial)
    ensures !StartsWith(notificationType, RangeRingPrefix) && !StartsWith(notificationType, PredictionRingPrefix) ==>
      m.text == ErrorText
  {
    Message(Title, SelectText(notificationType, serial, sondeType))
  }
}
