/** URI references as RFC 3986 splits them: the component parse of
    Appendix B, the recomposition of section 5.3, and the resolution of
    section 5.2.2 for a reference that is an absolute path. */
module Uri {
  import opened Common

  /** The five components of section 3; an absent component is `None`,
      which differs from a present empty one. */
  datatype Uri = Uri(scheme: Option<string>, authority: Option<string>, path: string,
                     query: Option<string>, fragment: Option<string>)

  /** `^(([^:/?#]+):)?`: a scheme is a non-empty run before the first ':'
      with none of '/', '?', '#' before it. */
  function SplitScheme(s: string): (r: (Option<string>, string))
    ensures (if r.0.Some? then r.0.value + ":" else "") + r.1 == s
    ensures r.0.Some? ==> |r.0.value| > 0 && forall j :: 0 <= j < |r.0.value| ==> r.0.value[j] !in {':', '/', '?', '#'}
  {
    var i := IndexOfAny(s, {':', '/', '?', '#'});
    if 0 < i < |s| && s[i] == ':' then
      assert s[..i] + ":" + s[i + 1..] == s;
      (Some(s[..i]), s[i + 1..])
    else (None, s)
  }

  /** `(//([^/?#]*))?`: an authority follows "//" up to the next '/', '?'
      or '#'. */
  function SplitAuthority(s: string): (r: (Option<string>, string))
    ensures (if r.0.Some? then "//" + r.0.value else "") + r.1 == s
    ensures r.0.Some? ==> forall j :: 0 <= j < |r.0.value| ==> r.0.value[j] !in {'/', '?', '#'}
    ensures r.0.Some? ==> |r.1| == 0 || r.1[0] in {'/', '?', '#'}
  {
    if |s| >= 2 && s[..2] == "//" then
      var i := 2 + IndexOfAny(s[2..], {'/', '?', '#'});
      assert "//" + s[2..i] + s[i..] == s;
      (Some(s[2..i]), s[i..])
    else (None, s)
  }

  /** `([^?#]*)`: the path runs up to the first '?' or '#'. */
  function SplitPath(s: string): (r: (string, string))
    ensures r.0 + r.1 == s
    ensures forall j :: 0 <= j < |r.0| ==> r.0[j] !in {'?', '#'}
    ensures |r.1| == 0 || r.1[0] in {'?', '#'}
  {
    var i := IndexOfAny(s, {'?', '#'});
    assert s[..i] + s[i..] == s;
    (s[..i], s[i..])
  }

  /** `(\?([^#]*))?`: a query follows '?' up to the first '#'. */
  function SplitQuery(s: string): (r: (Option<string>, string))
    requires |s| == 0 || s[0] in {'?', '#'}
    ensures (if r.0.Some? then "?" + r.0.value else "") + r.1 == s
    ensures r.0.Some? ==> forall j :: 0 <= j < |r.0.value| ==> r.0.value[j] != '#'
    ensures |r.1| == 0 || r.1[0] == '#'
  {
    if |s| > 0 && s[0] == '?' then
      var i := 1 + IndexOfAny(s[1..], {'#'});
      assert "?" + s[1..i] + s[i..] == s;
      (Some(s[1..i]), s[i..])
    else (None, s)
  }

  /** `(#(.*))?`: the fragment is everything after '#'. */
  function SplitFragment(s: string): (f: Option<string>)
    requires |s| == 0 || s[0] == '#'
    ensures (if f.Some? then "#" + f.value else "") == s
  {
    if |s| > 0 then
      assert "#" + s[1..] == s;
      Some(s[1..])
    else None
  }

  /** The component parse of Appendix B. */
  function Parse(s: string): Uri
  {
    var (scheme, afterScheme) := SplitScheme(s);
    var (authority, afterAuthority) := SplitAuthority(afterScheme);
    var (path, afterPath) := SplitPath(afterAuthority);
    var (query, afterQuery) := SplitQuery(afterPath);
    Uri(scheme, authority, path, query, SplitFragment(afterQuery))
  }

  /** The scheme and authority part of a recomposed reference. */
  function Origin(u: Uri): string
  {
    (if u.scheme.Some? then u.scheme.value + ":" else "")
    + (if u.authority.Some? then "//" + u.authority.value else "")
  }

  /** The path, query and fragment part of a recomposed reference. */
  function PathOnward(u: Uri): string
  {
    u.path
    + (if u.query.Some? then "?" + u.query.value else "")
    + (if u.fragment.Some? then "#" + u.fragment.value else "")
  }

  /** Section 5.3: put the components back together. */
  function Recompose(u: Uri): string
  {
    Origin(u) + PathOnward(u)
  }

  lemma ConcatAssoc(a: string, b: string, c: string)
    ensures a + b + c == a + (b + c)
  {
  }

  /** Every reference is the recomposition of its parse. */
  lemma RecomposeParse(s: string)
    ensures Recompose(Parse(s)) == s
  {
    var sch := SplitScheme(s);
    var aut := SplitAuthority(sch.1);
    var pat := SplitPath(aut.1);
    var que := SplitQuery(pat.1);
    var fragment := SplitFragment(que.1);
    var u := Parse(s);
    assert u == Uri(sch.0, aut.0, pat.0, que.0, fragment);
    var sc := if sch.0.Some? then sch.0.value + ":" else "";
    var au := if aut.0.Some? then "//" + aut.0.value else "";
    var qu := if que.0.Some? then "?" + que.0.value else "";
    var fr := if fragment.Some? then "#" + fragment.value else "";
    assert Origin(u) == sc + au;
    assert PathOnward(u) == pat.0 + qu + fr;
    ConcatAssoc(pat.0, qu, fr);
    assert PathOnward(u) == aut.1;
    ConcatAssoc(sc, au, aut.1);
  }

  /** The scheme and authority of a reference are a prefix of it. */
  lemma OriginStartsReference(s: string)
    ensures StartsWith(s, Origin(Parse(s)))
  {
    RecomposeParse(s);
    var u := Parse(s);
    assert s[..|Origin(u)|] == (Origin(u) + PathOnward(u))[..|Origin(u)|];
  }

  /** A path with no '.' at all: none of its segments is "." or "..", so
      the remove_dot_segments step of section 5.2.4 leaves it unchanged. */
  predicate NoDots(path: string)
  {
    forall i :: 0 <= i < |path| ==> path[i] != '.'
  }

  /** Section 5.2.2 for a reference with no scheme and no authority whose
      path starts with "/": the target keeps the base scheme and authority
      and takes the reference's path, query and fragment. */
  function ResolveAbsolutePath(base: Uri, reference: Uri): (t: Uri)
    requires reference.scheme.None? && reference.authority.None?
    requires StartsWith(reference.path, "/") && NoDots(reference.path)
    ensures t.scheme == base.scheme && t.authority == base.authority
    ensures t.path == reference.path && t.query == reference.query && t.fragment == reference.fragment
  {
    Uri(base.scheme, base.authority, reference.path, reference.query, reference.fragment)
  }
}
