/** The Python `str` operations the splitter and the header stripper rely on,
    modelled on `string` (`seq<char>`): the substring test `pat in s`,
    `s.find(pat)`, `s.count(sep)`, `s.split(sep)`, `sep.join(pieces)` and
    `s.replace(pat, "")`. All of them scan left to right and match
    non-overlapping occurrences, as CPython does. */
module PyStr {

  datatype Option<+T> = None | Some(value: T)

  /** `pat` occurs in `s` starting at index `i`. */
  predicate OccursAt(s: string, pat: string, i: nat) {
    i + |pat| <= |s| && s[i..i + |pat|] == pat
  }

  /** `s.find(pat)`: the index of the leftmost occurrence of `pat` in `s`,
      `None` where Python answers -1. */
  function Find(s: string, pat: string): (r: Option<nat>)
    ensures r.Some? ==> r.value + |pat| <= |s|
    decreases |s|
  {
    if |s| < |pat| then None
    else if s[..|pat|] == pat then Some(0)
    else
      var r := Find(s[1..], pat);
      if r.None? then None else Some(r.value + 1)
  }

  /** `Find` answers the leftmost occurrence, and `None` only when there is none. */
  lemma {:induction false} FindSpec(s: string, pat: string)
    ensures Find(s, pat).Some? ==> OccursAt(s, pat, Find(s, pat).value)
    ensures Find(s, pat).Some? ==> forall j: nat :: j < Find(s, pat).value ==> !OccursAt(s, pat, j)
    ensures Find(s, pat).None? ==> forall j: nat :: !OccursAt(s, pat, j)
    decreases |s|
  {
    if |s| < |pat| {
    } else {
      assert s[0..|pat|] == s[..|pat|];
      if s[..|pat|] != pat {
        FindSpec(s[1..], pat);
        OccursAtTail(s, pat);
      }
    }
  }

  /** An occurrence past index 0 is an occurrence in the tail, one place earlier. */
  lemma OccursAtTail(s: string, pat: string)
    requires |s| > 0
    ensures forall j: nat :: 0 < j ==> (OccursAt(s, pat, j) <==> OccursAt(s[1..], pat, j - 1))
  {
    forall j: nat | 0 < j
      ensures OccursAt(s, pat, j) <==> OccursAt(s[1..], pat, j - 1)
    {
      if j + |pat| <= |s| {
        var k: nat := j - 1;
        assert s[1..][k..k + |pat|] == s[j..j + |pat|];
      }
    }
  }

  /** An occurrence that ends within the first `n` characters is one of `s[..n]`. */
  lemma OccursInPrefix(s: string, pat: string, n: nat, j: nat)
    requires n <= |s|
    requires j + |pat| <= n
    ensures OccursAt(s[..n], pat, j) <==> OccursAt(s, pat, j)
  {
    assert s[..n][j..j + |pat|] == s[j..j + |pat|];
  }

  /** `pat in s`. */
  predicate Contains(s: string, pat: string) {
    Find(s, pat).Some?
  }

  /** `pat in s` holds exactly when `pat` occurs somewhere in `s`. */
  lemma ContainsAt(s: string, pat: string, i: nat)
    requires OccursAt(s, pat, i)
    ensures Contains(s, pat)
  {
    FindSpec(s, pat);
  }

  /** `pat` occurs right after `x` in `x + pat + y`. */
  lemma OccursBetween(x: string, pat: string, y: string)
    ensures OccursAt(x + pat + y, pat, |x|)
    ensures Contains(x + pat + y, pat)
  {
    assert (x + pat + y)[|x|..|x| + |pat|] == pat;
    ContainsAt(x + pat + y, pat, |x|);
  }

  /** Text found in `s` is found in anything that has `s` inside it. */
  lemma ContainsInfix(x: string, s: string, y: string, pat: string)
    requires Contains(s, pat)
    ensures Contains(x + s + y, pat)
  {
    FindSpec(s, pat);
    var i := Find(s, pat).value;
    assert (x + s + y)[|x| + i..|x| + i + |pat|] == s[i..i + |pat|];
    ContainsAt(x + s + y, pat, |x| + i);
  }

  /** `pat` is found at the end of `x + pat`. */
  lemma ContainsAtEnd(x: string, pat: string)
    ensures Contains(x + pat, pat)
  {
    OccursBetween(x, pat, "");
    assert x + pat + "" == x + pat;
  }

  /** Text found in `x` is still found once more text follows. */
  lemma ContainsExtend(x: string, y: string, pat: string)
    requires Contains(x, pat)
    ensures Contains(x + y, pat)
  {
    ContainsInfix("", x, y, pat);
    assert "" + x + y == x + y;
  }

  /** `s.startswith(prefix)`. */
  predicate StartsWith(s: string, prefix: string) {
    |prefix| <= |s| && s[..|prefix|] == prefix
  }

  lemma StartsWithAppend(x: string, y: string)
    ensures StartsWith(x + y, x)
  {
    assert (x + y)[..|x|] == x;
  }

  /** `s.count(sep)` for a non-empty `sep`: the number of non-overlapping
      occurrences. A helper for stating properties; the app does not call it. */
  function Count(s: string, sep: string): (n: nat)
    requires |sep| > 0
    ensures n == 0 <==> !Contains(s, sep)
    decreases |s|
  {
    match Find(s, sep)
    case None => 0
    case Some(i) => 1 + Count(s[i + |sep|..], sep)
  }

  /** `sep.join(ps)`. */
  function Join(ps: seq<string>, sep: string): string
    decreases |ps|
  {
    if |ps| == 0 then ""
    else if |ps| == 1 then ps[0]
    else ps[0] + sep + Join(ps[1..], sep)
  }

  /** A piece that `s.split(sep)` can produce before a separator: no occurrence
      of `sep` starts inside it, not even one that runs on into the separator
      that follows it. */
  predicate Clean(p: string, sep: string)
    requires |sep| > 0
  {
    !Contains(p + sep[..|sep| - 1], sep)
  }

  /** A list of pieces that `s.split(sep)` can return: at least one piece, every
      piece but the last clean, the last one free of `sep`. */
  predicate WellFormed(ps: seq<string>, sep: string)
    requires |sep| > 0
  {
    && |ps| >= 1
    && (forall k :: 0 <= k < |ps| - 1 ==> Clean(ps[k], sep))
    && !Contains(ps[|ps| - 1], sep)
  }

  /** The empty piece is clean: nothing shorter than `sep` contains it. */
  lemma CleanEmpty(sep: string)
    requires |sep| > 0
    ensures Clean("", sep)
  {
    assert "" + sep[..|sep| - 1] == sep[..|sep| - 1];
  }

  lemma CleanHasNoSeparator(p: string, sep: string)
    requires |sep| > 0
    requires Clean(p, sep)
    ensures !Contains(p, sep)
  {
    if Contains(p, sep) {
      FindSpec(p, sep);
      var i := Find(p, sep).value;
      assert (p + sep[..|sep| - 1])[i..i + |sep|] == p[i..i + |sep|];
      ContainsAt(p + sep[..|sep| - 1], sep, i);
    }
  }

  /** The text before the leftmost separator is clean, and the separator follows it. */
  lemma FindGivesCleanPrefix(s: string, sep: string, i: nat)
    requires |sep| > 0
    requires Find(s, sep) == Some(i)
    ensures Clean(s[..i], sep)
    ensures s == s[..i] + sep + s[i + |sep|..]
  {
    NothingBeforeFind(s, sep, i);
    FindSpec(s, sep);
    SliceAround(s, i, |sep|);
  }

  lemma SliceAround(s: string, i: nat, k: nat)
    requires i + k <= |s|
    ensures s == s[..i] + s[i..i + k] + s[i + k..]
  {
  }

  lemma NothingBeforeFind(s: string, sep: string, i: nat)
    requires |sep| > 0
    requires Find(s, sep) == Some(i)
    ensures Clean(s[..i], sep)
  {
    FindSpec(s, sep);
    PrefixThroughMatch(s, sep, i);
    NoMatchInPrefix(s, sep, i + |sep| - 1);
  }

  /** Where `sep` occurs at `i`, the text before it and all but the last
      character of `sep` is a prefix of `s`. */
  lemma PrefixThroughMatch(s: string, sep: string, i: nat)
    requires |sep| > 0
    requires OccursAt(s, sep, i)
    ensures s[..i] + sep[..|sep| - 1] == s[..i + |sep| - 1]
  {
  }

  /** A prefix of length `n` has no occurrence when `s` has none starting
      early enough to fit in it. */
  lemma NoMatchInPrefix(s: string, sep: string, n: nat)
    requires n <= |s|
    requires forall j: nat :: j + |sep| <= n ==> !OccursAt(s, sep, j)
    ensures !Contains(s[..n], sep)
  {
    FindSpec(s[..n], sep);
    if Find(s[..n], sep).Some? {
      var j := Find(s[..n], sep).value;
      OccursInPrefix(s, sep, n, j);
      assert false;
    }
  }

  /** A clean piece followed by the separator: the leftmost separator is that one. */
  lemma FindAfterClean(a: string, sep: string, rest: string)
    requires |sep| > 0
    requires Clean(a, sep)
    ensures Find(a + sep + rest, sep) == Some(|a|)
  {
    var s := a + sep + rest;
    FindSpec(s, sep);
    OccursBetween(a, sep, rest);
    assert a + sep[..|sep| - 1] == s[..|a| + |sep| - 1];
    FindSpec(a + sep[..|sep| - 1], sep);
    forall j: nat | j < |a|
      ensures !OccursAt(s, sep, j)
    {
      if OccursAt(s, sep, j) {
        OccursInPrefix(s, sep, |a| + |sep| - 1, j);
        assert false;
      }
    }
  }

  lemma JoinCons(p: string, ps: seq<string>, sep: string)
    requires |ps| >= 1
    ensures Join([p] + ps, sep) == p + sep + Join(ps, sep)
  {
    assert ([p] + ps)[1..] == ps;
  }

  /** Joining two non-empty lists is joining each and putting `sep` between. */
  lemma {:induction false} JoinAppend(a: seq<string>, b: seq<string>, sep: string)
    requires |a| > 0 && |b| > 0
    ensures Join(a + b, sep) == Join(a, sep) + sep + Join(b, sep)
    decreases |a|
  {
    if |a| == 1 {
      JoinCons(a[0], b, sep);
      assert [a[0]] + b == a + b;
    } else {
      JoinAppend(a[1..], b, sep);
      JoinCons(a[0], a[1..] + b, sep);
      assert [a[0]] + (a[1..] + b) == a + b;
      AppendAssoc(a[0] + sep, Join(a[1..], sep) + sep, Join(b, sep));
    }
  }

  /** `sep.join` of two pieces, written out. */
  lemma JoinTwo(ps: seq<string>, sep: string)
    requires |ps| == 2
    ensures Join(ps, sep) == ps[0] + sep + ps[1]
  {
    assert Join(ps[1..], sep) == ps[1];
  }

  /** `sep.join` of three pieces, written out. */
  lemma JoinThree(ps: seq<string>, sep: string)
    requires |ps| == 3
    ensures Join(ps, sep) == ps[0] + sep + ps[1] + sep + ps[2]
  {
    var t := ps[1..];
    JoinTwo(t, sep);
    assert Join(ps, sep) == ps[0] + sep + (ps[1] + sep + ps[2]);
  }

  /** `sep.join` of more than three pieces: the first three, then the rest. */
  lemma JoinMore(ps: seq<string>, sep: string)
    requires |ps| > 3
    ensures Join(ps, sep) == ps[0] + sep + ps[1] + sep + ps[2] + sep + Join(ps[3..], sep)
  {
    var t := ps[1..];
    var u := t[1..];
    assert u[1..] == ps[3..];
    assert Join(u, sep) == ps[2] + sep + Join(ps[3..], sep);
    assert Join(t, sep) == ps[1] + sep + (ps[2] + sep + Join(ps[3..], sep));
    assert Join(ps, sep) == ps[0] + sep + (ps[1] + sep + (ps[2] + sep + Join(ps[3..], sep)));
  }

  /** Putting a clean piece in front of a list `split` can produce. */
  lemma ConsWellFormed(p: string, ps: seq<string>, sep: string)
    requires |sep| > 0
    requires Clean(p, sep)
    requires WellFormed(ps, sep)
    ensures WellFormed([p] + ps, sep)
    ensures Join([p] + ps, sep) == p + sep + Join(ps, sep)
  {
    assert ([p] + ps)[1..] == ps;
  }

  lemma TailWellFormed(ps: seq<string>, sep: string)
    requires |sep| > 0
    requires WellFormed(ps, sep)
    requires |ps| >= 2
    ensures WellFormed(ps[1..], sep)
  {
    forall k | 0 <= k < |ps| - 2
      ensures Clean(ps[1..][k], sep)
    {
      assert ps[1..][k] == ps[k + 1];
    }
  }

  /** `s.split(sep)`. Python refuses an empty separator (ValueError). */
  function Split(s: string, sep: string): (ps: seq<string>)
    requires |sep| > 0
    decreases |s|
  {
    match Find(s, sep)
    case None => [s]
    case Some(i) => [s[..i]] + Split(s[i + |sep|..], sep)
  }

  /** One more piece than there are separators: at least one piece always,
      and at least two when the separator occurs. */
  lemma {:induction false} SplitLength(s: string, sep: string)
    requires |sep| > 0
    ensures |Split(s, sep)| == Count(s, sep) + 1
    decreases |s|
  {
    match Find(s, sep)
    case None =>
    case Some(i) =>
      SplitLength(s[i + |sep|..], sep);
  }

  lemma SplitAtFind(s: string, sep: string, i: nat)
    requires |sep| > 0
    requires Find(s, sep) == Some(i)
    ensures Split(s, sep) == [s[..i]] + Split(s[i + |sep|..], sep)
  {
  }

  /** Splitting loses nothing: joining the pieces back gives the text. */
  lemma {:induction false} JoinSplit(s: string, sep: string)
    requires |sep| > 0
    ensures Join(Split(s, sep), sep) == s
    decreases |s|
  {
    match Find(s, sep)
    case None =>
    case Some(i) =>
      var rest := s[i + |sep|..];
      JoinSplit(rest, sep);
      FindGivesCleanPrefix(s, sep, i);
      JoinCons(s[..i], Split(rest, sep), sep);
  }

  /** Every list of pieces `split` returns is well formed. */
  lemma {:induction false} SplitWellFormed(s: string, sep: string)
    requires |sep| > 0
    ensures WellFormed(Split(s, sep), sep)
    decreases |s|
  {
    match Find(s, sep)
    case None =>
    case Some(i) =>
      var rest := s[i + |sep|..];
      SplitWellFormed(rest, sep);
      FindGivesCleanPrefix(s, sep, i);
      ConsWellFormed(s[..i], Split(rest, sep), sep);
  }

  /** Splitting a clean piece off the front. */
  lemma {:induction false} SplitCons(a: string, sep: string, rest: string)
    requires |sep| > 0
    requires Clean(a, sep)
    ensures Split(a + sep + rest, sep) == [a] + Split(rest, sep)
  {
    var s := a + sep + rest;
    FindAfterClean(a, sep, rest);
    assert s[..|a|] == a;
    assert s[|a| + |sep|..] == rest;
  }

  /** `split` undoes `join` on every list of pieces `split` can produce. */
  lemma {:induction false} SplitJoin(ps: seq<string>, sep: string)
    requires |sep| > 0
    requires WellFormed(ps, sep)
    ensures Split(Join(ps, sep), sep) == ps
    decreases |ps|
  {
    if |ps| == 1 {
      assert Find(ps[0], sep).None?;
    } else {
      var tail := ps[1..];
      TailWellFormed(ps, sep);
      SplitJoin(tail, sep);
      assert Join(ps, sep) == ps[0] + sep + Join(tail, sep);
      SplitCons(ps[0], sep, Join(tail, sep));
      assert [ps[0]] + tail == ps;
    }
  }

  /** `s.replace(pat, "")`, as CPython computes it: find the leftmost
      occurrence of `pat`, keep the text before it and carry on after it.
      Python leaves `s` alone when `pat` is empty. */
  function Remove(s: string, pat: string): (r: string)
    decreases |s|
  {
    if |pat| == 0 then s
    else
      match Find(s, pat)
      case None => s
      case Some(i) => s[..i] + Remove(s[i + |pat|..], pat)
  }

  lemma AppendAssoc(a: string, b: string, c: string)
    ensures a + (b + c) == (a + b) + c
  {
  }

  /** Three pieces, each followed by `s`, then `t`: grouped from the right or from the left. */
  lemma Regroup(a: string, s: string, b: string, c: string, t: string)
    ensures a + s + (b + s + (c + s + t)) == a + s + b + s + c + s + t
  {
    var z := c + s + t;
    AppendAssoc(a + s, b + s, z);
    AppendAssoc(a + s, b, s);
    var w := a + s + b + s;
    AppendAssoc(w, c + s, t);
    AppendAssoc(w, c, s);
  }

  /** `s.replace(pat, "") == "".join(s.split(pat))`: removing keeps exactly
      the pieces between the occurrences. */
  lemma {:induction false} RemoveKeepsPieces(s: string, pat: string)
    requires |pat| > 0
    ensures Remove(s, pat) == Join(Split(s, pat), "")
    decreases |s|
  {
    match Find(s, pat)
    case None =>
    case Some(i) =>
      var rest := s[i + |pat|..];
      SplitAtFind(s, pat, i);
      JoinCons(s[..i], Split(rest, pat), "");
      assert s[..i] + "" == s[..i];
      RemoveKeepsPieces(rest, pat);
  }

  /** Deleting a single occurrence: the text around it is kept. */
  lemma {:induction false} RemoveOne(x: string, pat: string, y: string)
    requires |pat| > 0
    requires Clean(x, pat)
    requires !Contains(y, pat)
    ensures Remove(x + pat + y, pat) == x + y
  {
    var s := x + pat + y;
    FindAfterClean(x, pat, y);
    assert s[..|x|] == x;
    assert s[|x| + |pat|..] == y;
  }

  /** Each deleted occurrence takes exactly `|pat|` characters away. */
  lemma {:induction false} RemoveLength(s: string, pat: string)
    requires |pat| > 0
    ensures |Remove(s, pat)| + Count(s, pat) * |pat| == |s|
    decreases |s|
  {
    match Find(s, pat)
    case None =>
    case Some(i) =>
      var rest := s[i + |pat|..];
      RemoveLength(rest, pat);
      LengthStep(|Remove(rest, pat)|, i, |pat|, Count(rest, pat), |s|, |Remove(s, pat)|, Count(s, pat));
  }

  lemma LengthStep(kept: int, i: int, k: int, n: int, total: int, whole: int, count: int)
    requires kept + n * k + i + k == total
    requires whole == i + kept
    requires count == n + 1
    ensures whole + count * k == total
  {
    assert count * k == n * k + k;
  }

  /** `replace(pat, "")` only deletes: the result is never longer, and it is
      the text unchanged exactly when `pat` does not occur in it. */
  lemma {:induction false} RemoveShrinks(s: string, pat: string)
    requires |pat| > 0
    ensures |Remove(s, pat)| <= |s|
    ensures Remove(s, pat) == s <==> !Contains(s, pat)
  {
    RemoveLength(s, pat);
  }
}
