/**
 * strings.SplitN(s, sep, 2) for a one-character separator, as the hop
 * descriptor parser uses it: one piece when the separator does not occur,
 * otherwise the text before its FIRST occurrence and everything after it.
 */
module Splitting {
  import opened Wrappers

  function SplitFirst(s: string, sep: char): (r: Option<(string, string)>)
    ensures r.None? <==> sep !in s
    ensures r.Some? ==> r.value.0 + [sep] + r.value.1 == s && sep !in r.value.0
  {
    if s == [] then None
    else if s[0] == sep then Some(([], s[1..]))
    else
      match SplitFirst(s[1..], sep)
      case None => None
      case Some((before, after)) => Some(([s[0]] + before, after))
  }

  /** The split is determined by where the first separator stands. */
  lemma {:induction false} SplitFirstAt(before: string, sep: char, after: string)
    requires sep !in before
    ensures SplitFirst(before + [sep] + after, sep) == Some((before, after))
  {
    var s := before + [sep] + after;
    if before == [] {
      assert s[1..] == after;
    } else {
      assert s[0] == before[0];
      assert s[1..] == before[1..] + [sep] + after;
      SplitFirstAt(before[1..], sep, after);
      assert [before[0]] + before[1..] == before;
    }
  }
}
