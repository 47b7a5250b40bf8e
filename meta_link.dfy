// The canonical link of the schema markup: `window.location.origin`
// followed by `getLink()` with `replace(/\?.*/, '')` applied. The `?` is
// the query delimiter of RFC 3986 section 3.4; whatever follows it on the
// same line, a fragment included, goes too. A regular-expression `.` does
// not match a line terminator, so the removed run ends before the first
// line terminator after the `?`.
module MetaLink {

  const QueryDelimiter: char := '?'

  /** ECMAScript's LineTerminator characters. */
  const LineTerminators: set<char> := {'\n', '\r', '\U{2028}', '\U{2029}'}

  /** The index of the first character of `s` in `targets`, or `|s|`. */
  function FirstIndexIn(s: string, targets: set<char>): (i: nat)
    ensures i <= |s|
    ensures i < |s| ==> s[i] in targets
    ensures forall j :: 0 <= j < i ==> s[j] !in targets
    decreases |s|
  {
    if s == [] then 0
    else if s[0] in targets then 0
    else 1 + FirstIndexIn(s[1..], targets)
  }

  /** The first index is the unique one with the three properties above. */
  lemma FirstIndexInIs(s: string, targets: set<char>, k: nat)
    requires k <= |s|
    requires k < |s| ==> s[k] in targets
    requires forall j :: 0 <= j < k ==> s[j] !in targets
    ensures FirstIndexIn(s, targets) == k
  {
  }

  predicate HasNoLineTerminator(s: string) {
    forall k :: 0 <= k < |s| ==> s[k] !in LineTerminators
  }

  /** The part of `link` before its first `?`: the longest prefix without a
      `?`, which is the whole link when it has none. */
  function QueryPrefix(link: string): (p: string)
    ensures p <= link
    ensures QueryDelimiter !in p
    ensures |p| < |link| ==> link[|p|] == QueryDelimiter
  {
    link[..FirstIndexIn(link, {QueryDelimiter})]
  }

  // `link.replace(/\?.*/, '')`: the first match starts at the first `?` and
  // runs up to, not including, the next line terminator; only that match
  // is removed.
  function ReplaceQueryMatch(link: string): (r: string)
    ensures QueryDelimiter !in link ==> r == link
    ensures QueryDelimiter in link ==> |r| < |link|
    ensures QueryPrefix(link) <= r
    ensures |r| <= |link| && r[|QueryPrefix(link)|..] == link[|link| - (|r| - |QueryPrefix(link)|)..]
    ensures |r| > |QueryPrefix(link)| ==> r[|QueryPrefix(link)|] in LineTerminators
    ensures forall j :: |QueryPrefix(link)| <= j < |QueryPrefix(link)| + (|link| - |r|) ==> link[j] !in LineTerminators
    ensures HasNoLineTerminator(link) ==> r == QueryPrefix(link)
  {
    var q := FirstIndexIn(link, {QueryDelimiter});
    if q == |link| then link
    else
      var e := q + FirstIndexIn(link[q..], LineTerminators);
      assert link[q..][0] == link[q] && link[q] !in LineTerminators;
      assert forall j :: q <= j < e ==> link[j] == link[q..][j - q];
      link[..q] + link[e..]
  }

  /** `getMetaLink`. */
  function MetaLinkOf(origin: string, link: string): (url: string)
    ensures origin <= url
    ensures |url| <= |origin| + |link|
    ensures QueryDelimiter !in link ==> url == origin + link
  {
    origin + ReplaceQueryMatch(link)
  }

  /** Stripping the query prefix a second time changes nothing. */
  lemma QueryPrefixIdempotent(link: string)
    ensures QueryPrefix(QueryPrefix(link)) == QueryPrefix(link)
  {
    var p := QueryPrefix(link);
    assert QueryDelimiter !in p;
    assert FirstIndexIn(p, {QueryDelimiter}) == |p|;
  }

  /** For a link on one line (every URL), the meta link is the origin
      followed by the part of the link before its first `?`: that part has
      no `?`, is a prefix of the link, is the whole link when there is no
      `?`, and is left unchanged by a second application. */
  lemma MetaLinkStripsQuery(origin: string, link: string)
    requires HasNoLineTerminator(link)
    ensures MetaLinkOf(origin, link) == origin + QueryPrefix(link)
    ensures QueryDelimiter !in MetaLinkOf(origin, link)[|origin|..]
    ensures MetaLinkOf(origin, link)[|origin|..] <= link
    ensures QueryDelimiter !in link ==> MetaLinkOf(origin, link)[|origin|..] == link
    ensures ReplaceQueryMatch(MetaLinkOf(origin, link)[|origin|..]) == MetaLinkOf(origin, link)[|origin|..]
  {
    var p := QueryPrefix(link);
    assert (origin + p)[|origin|..] == p;
  }

  /** Everything after the first `?` goes, a fragment included, when the
      link has no line break: `path?query#fragment` becomes `path`. */
  lemma QueryAndFragmentRemoved(path: string, rest: string)
    requires QueryDelimiter !in path
    requires HasNoLineTerminator(rest)
    ensures ReplaceQueryMatch(path + [QueryDelimiter] + rest) == path
  {
    var s := path + [QueryDelimiter] + rest;
    FirstIndexInIs(s, {QueryDelimiter}, |path|);
    assert s[|path|..] == [QueryDelimiter] + rest;
    FirstIndexInIs(s[|path|..], LineTerminators, |s| - |path|);
    assert s[..|path|] == path;
  }

  /** With a line break after the `?`, the text from the line break on
      survives, a second `?` included. */
  lemma LineBreakEndsMatch()
    ensures ReplaceQueryMatch("/p?a\n?b") == "/p\n?b"
    ensures QueryDelimiter in ReplaceQueryMatch("/p?a\n?b")
  {
    var s := "/p?a\n?b";
    FirstIndexInIs(s, {QueryDelimiter}, 2);
    FirstIndexInIs(s[2..], LineTerminators, 2);
    assert s[..2] + s[4..] == "/p\n?b";
    assert "/p\n?b"[3] == QueryDelimiter;
  }
}
