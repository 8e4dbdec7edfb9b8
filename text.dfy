/** String operations the source takes from Python's `str` and `os.path`. */
module Text {
  import opened Wrappers
  import Seqs

  /** `s.endswith(c)` for a one-character suffix. */
  predicate EndsWithChar(s: string, c: char)
  {
    |s| > 0 && s[|s| - 1] == c
  }

  /** `s` contains `pat` starting at index `i`. */
  predicate OccursAt(s: string, pat: string, i: nat)
  {
    i + |pat| <= |s| && s[i..i + |pat|] == pat
  }

  /** `pat in s`. */
  predicate Contains(s: string, pat: string)
  {
    exists i: nat | i <= |s| :: OccursAt(s, pat, i)
  }

  /** `s.replace(pat, rep)`: every non-overlapping occurrence of `pat`,
      scanning left to right, is replaced by `rep`. */
  function ReplaceAll(s: string, pat: string, rep: string): string
    requires pat != []
    decreases |s|
  {
    if |s| < |pat| then s
    else if s[..|pat|] == pat then rep + ReplaceAll(s[|pat|..], pat, rep)
    else [s[0]] + ReplaceAll(s[1..], pat, rep)
  }

  /** A string without `pat` is left as it is. */
  lemma {:induction false} ReplaceAllAbsent(s: string, pat: string, rep: string)
    requires pat != []
    requires !Contains(s, pat)
    ensures ReplaceAll(s, pat, rep) == s
  {
    if |s| >= |pat| {
      assert !OccursAt(s, pat, 0);
      assert s[..|pat|] != pat;
      forall i: nat ensures !OccursAt(s[1..], pat, i) {
        if OccursAt(s[1..], pat, i) {
          assert s[1..][i..i + |pat|] == s[i + 1..i + 1 + |pat|];
          assert OccursAt(s, pat, i + 1);
        }
      }
      ReplaceAllAbsent(s[1..], pat, rep);
    }
  }

  /** A leading occurrence is replaced and the scan resumes after it. */
  lemma ReplaceAllLeading(pat: string, rest: string, rep: string)
    requires pat != []
    ensures ReplaceAll(pat + rest, pat, rep) == rep + ReplaceAll(rest, pat, rep)
  {
    assert (pat + rest)[..|pat|] == pat;
    assert (pat + rest)[|pat|..] == rest;
  }

  /** `sep.join(items)`. */
  function Join(items: seq<string>, sep: string): string
  {
    if items == [] then ""
    else if |items| == 1 then items[0]
    else items[0] + sep + Join(items[1..], sep)
  }

  /** A join is empty exactly when there is nothing to join or only one
      empty item, whatever the separator. */
  lemma {:induction false} JoinEmpty(items: seq<string>, sep: string)
    requires sep != ""
    ensures Join(items, sep) == "" <==> items == [] || items == [""]
  {
    if |items| > 1 {
      assert |Join(items, sep)| >= |sep|;
    }
  }

  /** `os.path.join(a, b)` for a relative `b`. */
  function PathJoin(a: string, b: string): (r: string)
    requires b == [] || b[0] != '/'
    ensures |r| >= |a| + |b| && r[..|a|] == a && r[|r| - |b|..] == b
    ensures |r| <= |a| + |b| + 1
  {
    if a == [] || EndsWithChar(a, '/') then a + b else a + "/" + b
  }

  /** Index of the first `c` in `s`. */
  function IndexOf(s: string, c: char): (r: Option<nat>)
    ensures r.Some? ==> r.value < |s| && s[r.value] == c && c !in s[..r.value]
    ensures r.None? <==> c !in s
  {
    var p := (i: nat) => i < |s| && s[i] == c;
    var r := Seqs.FirstWhere(p, 0, |s|);
    assert r.None? ==> c !in s by {
      if r.None? {
        forall j | 0 <= j < |s| ensures s[j] != c { assert !p(j); }
      }
    }
    assert r.Some? ==> c !in s[..r.value] by {
      if r.Some? {
        forall j | 0 <= j < r.value ensures s[..r.value][j] != c { assert !p(j); }
      }
    }
    r
  }

  /** `s.split(c, 1)[1]`: the text after the first `c`; Python raises
      IndexError when there is no `c`. */
  function AfterFirst(s: string, c: char): (r: Option<string>)
    ensures r.None? <==> c !in s
    ensures r.Some? ==> exists i :: 0 <= i < |s| && c !in s[..i] && s == s[..i] + [c] + r.value
  {
    match IndexOf(s, c)
    case None => None
    case Some(i) =>
      assert s == s[..i] + [c] + s[i + 1..];
      Some(s[i + 1..])
  }

  /** The text after the first `c` of `pre + [c] + post`, when `pre` has no
      `c`, is `post`. */
  lemma AfterFirstSplit(pre: string, post: string, c: char)
    requires c !in pre
    ensures AfterFirst(pre + [c] + post, c) == Some(post)
  {
    var s := pre + [c] + post;
    assert s[|pre|] == c;
    var r := AfterFirst(s, c);
    var i :| 0 <= i < |s| && c !in s[..i] && s == s[..i] + [c] + r.value;
    assert s[i + 1..] == post;
    assert s[i + 1..] == r.value by { assert |s| == i + 1 + |r.value|; }
  }
}
