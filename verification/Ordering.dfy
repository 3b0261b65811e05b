/** The stable sort behind every bounded, ordered cache of the client. `Array.prototype.sort` is stable, so on a
    consistent comparator its result is the one computed here by insertion. */
module Ordering {

  /** The strict weak order induced by a consistent comparator (`before(x, y)` is `compare(x, y) < 0`). */
  ghost predicate StrictWeak<T(!new)>(before: (T, T) -> bool) {
    && (forall x :: !before(x, x))
    && (forall x, y, z :: before(x, y) && before(y, z) ==> before(x, z))
    && (forall x, y, z :: before(x, z) ==> before(x, y) || before(y, z))
  }

  /** A strict weak order in which different elements never tie. */
  ghost predicate StrictTotal<T(!new)>(before: (T, T) -> bool) {
    && StrictWeak(before)
    && (forall x, y :: x != y ==> before(x, y) || before(y, x))
  }

  ghost predicate Sorted<T>(s: seq<T>, before: (T, T) -> bool) {
    forall i, j :: 0 <= i < j < |s| ==> !before(s[j], s[i])
  }

  /** No two positions of `s` tie. */
  ghost predicate TieFree<T>(s: seq<T>, before: (T, T) -> bool) {
    forall i, j :: 0 <= i < j < |s| ==> before(s[i], s[j]) || before(s[j], s[i])
  }

  function Take<T>(s: seq<T>, k: nat): seq<T> {
    if |s| <= k then s else s[..k]
  }

  /** Places `x` behind everything that does not come strictly after it. */
  function Insert<T>(x: T, s: seq<T>, before: (T, T) -> bool): seq<T> {
    if s == [] then [x]
    else if before(x, s[0]) then [x] + s
    else [s[0]] + Insert(x, s[1..], before)
  }

  function Sort<T>(s: seq<T>, before: (T, T) -> bool): seq<T> {
    if s == [] then [] else Insert(s[|s| - 1], Sort(s[..|s| - 1], before), before)
  }

  lemma {:induction false} InsertContents<T>(x: T, s: seq<T>, before: (T, T) -> bool)
    ensures multiset(Insert(x, s, before)) == multiset(s) + multiset{x}
    ensures |Insert(x, s, before)| == |s| + 1
    ensures forall y :: y in Insert(x, s, before) <==> y == x || y in s
  {
    if s != [] && !before(x, s[0]) {
      InsertContents(x, s[1..], before);
      assert s == [s[0]] + s[1..];
    }
  }

  /** Inserting moves nothing else. */
  lemma {:induction false} InsertSplits<T>(x: T, s: seq<T>, before: (T, T) -> bool) returns (p: nat)
    ensures p <= |s| && Insert(x, s, before) == s[..p] + [x] + s[p..]
  {
    if s == [] || before(x, s[0]) {
      p := 0;
    } else {
      var q := InsertSplits(x, s[1..], before);
      p := q + 1;
      assert s[..p] == [s[0]] + s[1..][..q];
    }
  }

  lemma {:induction false} InsertSorted<T(!new)>(x: T, s: seq<T>, before: (T, T) -> bool)
    requires StrictWeak(before) && Sorted(s, before)
    ensures Sorted(Insert(x, s, before), before)
  {
    if s != [] && !before(x, s[0]) {
      InsertSorted(x, s[1..], before);
      InsertContents(x, s[1..], before);
      var r := Insert(x, s[1..], before);
      forall j | 0 <= j < |r| ensures !before(r[j], s[0]) {
        assert r[j] in r;
      }
    }
  }

  /** Sorting yields a sorted permutation of its input. */
  lemma {:induction false} SortIsSortedPermutation<T(!new)>(s: seq<T>, before: (T, T) -> bool)
    requires StrictWeak(before)
    ensures Sorted(Sort(s, before), before)
    ensures multiset(Sort(s, before)) == multiset(s)
    ensures |Sort(s, before)| == |s|
    ensures forall y :: y in Sort(s, before) <==> y in s
  {
    if s != [] {
      var init := s[..|s| - 1];
      assert s == init + [s[|s| - 1]];
      SortIsSortedPermutation(init, before);
      InsertSorted(s[|s| - 1], Sort(init, before), before);
      InsertContents(s[|s| - 1], Sort(init, before), before);
    }
  }

  lemma SameHead<T(!new)>(s: seq<T>, t: seq<T>, i: nat, j: nat, before: (T, T) -> bool)
    requires Sorted(s, before) && Sorted(t, before) && TieFree(s, before)
    requires i < |s| && j < |t| && s[i] == t[0] && t[j] == s[0]
    ensures s[0] == t[0]
  {
  }

  lemma SamePermutation<T>(s: seq<T>, t: seq<T>)
    requires multiset(s) == multiset(t)
    ensures |s| == |t|
    ensures s != [] ==> t[0] in s && s[0] in t
  {
    assert |s| == |multiset(s)| == |multiset(t)| == |t|;
    if s != [] {
      assert t[0] in multiset(s) && s[0] in multiset(t);
    }
  }

  lemma TailMultiset<T>(s: seq<T>)
    requires s != []
    ensures multiset(s[1..]) == multiset(s) - multiset{s[0]}
  {
    assert s == [s[0]] + s[1..];
  }

  /** Without ties there is only one sorted permutation, so any correct sort returns this one. */
  lemma {:induction false} SortedPermutationIsUnique<T(!new)>(s: seq<T>, t: seq<T>, before: (T, T) -> bool)
    requires Sorted(s, before) && Sorted(t, before) && TieFree(s, before)
    requires multiset(s) == multiset(t)
    ensures s == t
  {
    SamePermutation(s, t);
    if s != [] {
      var i :| 0 <= i < |s| && s[i] == t[0];
      var j :| 0 <= j < |t| && t[j] == s[0];
      SameHead(s, t, i, j, before);
      TailMultiset(s);
      TailMultiset(t);
      SortedPermutationIsUnique(s[1..], t[1..], before);
    }
  }

  /** Truncating to `k` before an insertion is invisible after truncating again. */
  lemma {:induction false} TakeInsert<T>(x: T, s: seq<T>, k: nat, before: (T, T) -> bool)
    ensures Take(Insert(x, Take(s, k), before), k) == Take(Insert(x, s, before), k)
  {
    InsertContents(x, s, before);
    if 0 < k < |s| {
      var tail := s[1..];
      assert s[..k] == [s[0]] + tail[..k - 1];
      if !before(x, s[0]) {
        TakeInsert(x, tail, k - 1, before);
        InsertContents(x, tail, before);
        InsertContents(x, tail[..k - 1], before);
        assert s[..k][1..] == tail[..k - 1];
      }
    }
  }

  lemma {:induction false} InsertCommutes<T(!new)>(a: T, b: T, s: seq<T>, before: (T, T) -> bool)
    requires StrictWeak(before)
    requires before(a, b) || before(b, a)
    ensures Insert(a, Insert(b, s, before), before) == Insert(b, Insert(a, s, before), before)
  {
    if s != [] {
      var tail := s[1..];
      assert s == [s[0]] + tail;
      if before(a, s[0]) && before(b, s[0]) {
      } else if before(a, s[0]) {
        assert before(a, b);
        assert ([s[0]] + Insert(b, tail, before))[1..] == Insert(b, tail, before);
        assert ([a] + s)[1..] == s;
      } else if before(b, s[0]) {
        assert before(b, a);
        assert ([s[0]] + Insert(a, tail, before))[1..] == Insert(a, tail, before);
        assert ([b] + s)[1..] == s;
      } else {
        InsertCommutes(a, b, tail, before);
        assert ([s[0]] + Insert(b, tail, before))[1..] == Insert(b, tail, before);
        assert ([s[0]] + Insert(a, tail, before))[1..] == Insert(a, tail, before);
      }
    }
  }

  /** An element that ties with nothing behind it may be inserted last. */
  lemma {:induction false} SortInsertAnywhere<T(!new)>(p: seq<T>, x: T, q: seq<T>, before: (T, T) -> bool)
    requires StrictWeak(before)
    requires forall i :: 0 <= i < |q| ==> before(x, q[i]) || before(q[i], x)
    ensures Sort(p + [x] + q, before) == Insert(x, Sort(p + q, before), before)
  {
    if q == [] {
      assert p + [x] + q == p + [x] && p + q == p;
      assert (p + [x])[..|p|] == p;
    } else {
      var init, y := q[..|q| - 1], q[|q| - 1];
      SortInsertAnywhere(p, x, init, before);
      assert (p + [x] + q)[..|p + [x] + q| - 1] == p + [x] + init;
      assert (p + q)[..|p + q| - 1] == p + init;
      InsertCommutes(y, x, Sort(p + init, before), before);
    }
  }

  lemma {:induction false} InsertLast<T>(x: T, s: seq<T>, before: (T, T) -> bool)
    requires forall i :: 0 <= i < |s| ==> !before(x, s[i])
    ensures Insert(x, s, before) == s + [x]
  {
    if s != [] {
      InsertLast(x, s[1..], before);
      assert s + [x] == [s[0]] + (s[1..] + [x]);
    }
  }

  lemma {:induction false} SortOfSorted<T>(s: seq<T>, before: (T, T) -> bool)
    requires Sorted(s, before)
    ensures Sort(s, before) == s
  {
    if s != [] {
      var init := s[..|s| - 1];
      SortOfSorted(init, before);
      InsertLast(s[|s| - 1], init, before);
      assert s == init + [s[|s| - 1]];
    }
  }

  /** What truncation keeps comes no later than what it drops. */
  lemma TakeKeepsFirst<T(!new)>(s: seq<T>, k: nat, before: (T, T) -> bool)
    requires StrictWeak(before)
    ensures var kept := Take(Sort(s, before), k);
            forall x, y :: x in s && x !in kept && y in kept ==> !before(x, y)
    ensures |Take(Sort(s, before), k)| == if |s| <= k then |s| else k
    ensures forall y :: y in Take(Sort(s, before), k) ==> y in s
  {
    SortIsSortedPermutation(s, before);
    var t := Sort(s, before);
    var kept := Take(t, k);
    forall x, y | x in s && x !in kept && y in kept ensures !before(x, y) {
      assert x in t;
      var i :| 0 <= i < |t| && t[i] == x;
      var j :| 0 <= j < |kept| && kept[j] == y;
      assert kept[j] == t[j];
    }
    forall y | y in kept ensures y in s {
      var j :| 0 <= j < |kept| && kept[j] == y;
      assert t[j] == y;
    }
  }

  ghost predicate NoRepeats<T>(s: seq<T>) {
    forall i, j :: 0 <= i < j < |s| ==> s[i] != s[j]
  }

  lemma {:induction false} CountsOnce<T>(s: seq<T>, x: T)
    requires NoRepeats(s)
    ensures multiset(s)[x] <= 1
  {
    if s != [] {
      CountsOnce(s[..|s| - 1], x);
      assert s == s[..|s| - 1] + [s[|s| - 1]];
    }
  }

  lemma CountsTwice<T>(s: seq<T>, i: nat, j: nat)
    requires i < j < |s| && s[i] == s[j]
    ensures multiset(s)[s[i]] >= 2
  {
    assert s == s[..i] + [s[i]] + s[i + 1..j] + [s[j]] + s[j + 1..];
  }

  lemma PermutationHasNoRepeats<T>(s: seq<T>, t: seq<T>)
    requires NoRepeats(s) && multiset(s) == multiset(t)
    ensures NoRepeats(t)
  {
    forall i, j | 0 <= i < j < |t| ensures t[i] != t[j] {
      CountsOnce(s, t[i]);
      if t[i] == t[j] { CountsTwice(t, i, j); }
    }
  }

  // ----- Ranks ----------------------------------------------------------------------------------------------------------

  function Count<T>(s: seq<T>, p: T -> bool): (n: nat)
    ensures n <= |s|
  {
    if s == [] then 0 else Count(s[..|s| - 1], p) + (if p(s[|s| - 1]) then 1 else 0)
  }

  /** How many elements a stable sort puts ahead of `s[i]`: the earlier ones it does not strictly precede and the later ones that
      strictly precede it. */
  function Rank<T>(s: seq<T>, i: nat, before: (T, T) -> bool): nat
    requires i < |s|
  {
    Count(s[..i], y => !before(s[i], y)) + Count(s[i + 1..], y => before(y, s[i]))
  }

  lemma {:induction false} CountAdds<T>(s: seq<T>, t: seq<T>, p: T -> bool)
    ensures Count(s + t, p) == Count(s, p) + Count(t, p)
  {
    if t == [] {
      assert s + t == s;
    } else {
      CountAdds(s, t[..|t| - 1], p);
      assert (s + t)[..|s + t| - 1] == s + t[..|t| - 1];
    }
  }

  lemma {:induction false} CountAll<T>(s: seq<T>, p: T -> bool, all: bool)
    requires forall i :: 0 <= i < |s| ==> p(s[i]) == all
    ensures Count(s, p) == if all then |s| else 0
  {
    if s != [] { CountAll(s[..|s| - 1], p, all); }
  }

  lemma {:induction false} CountSorted<T>(s: seq<T>, before: (T, T) -> bool, p: T -> bool)
    ensures Count(Sort(s, before), p) == Count(s, p)
  {
    if s != [] {
      var init, x := s[..|s| - 1], s[|s| - 1];
      CountSorted(init, before, p);
      var t := Sort(init, before);
      var q := InsertSplits(x, t, before);
      CountAdds(t[..q], [x], p);
      CountAdds(t[..q] + [x], t[q..], p);
      CountAdds(t[..q], t[q..], p);
      assert t == t[..q] + t[q..];
      assert [x][..0] == [];
    }
  }

  /** In a sorted list, inserting splits what stays ahead from what comes after. */
  lemma {:induction false} InsertPlace<T(!new)>(x: T, s: seq<T>, before: (T, T) -> bool) returns (p: nat)
    requires StrictWeak(before) && Sorted(s, before)
    ensures p <= |s| && Insert(x, s, before) == s[..p] + [x] + s[p..]
    ensures forall i :: 0 <= i < |s| ==> before(x, s[i]) == (i >= p)
  {
    if s == [] || before(x, s[0]) {
      p := 0;
      forall i | 0 <= i < |s| ensures before(x, s[i]) {
        if i > 0 { assert !before(s[i], s[0]); }
      }
    } else {
      var q := InsertPlace(x, s[1..], before);
      p := q + 1;
      assert s[..p] == [s[0]] + s[1..][..q];
      assert forall i :: 0 < i < |s| ==> s[i] == s[1..][i - 1];
    }
  }

  /** Inserting behind a sorted list puts `x` at the number of elements it does not strictly precede. */
  lemma PlaceIsCount<T(!new)>(x: T, t: seq<T>, p: nat, before: (T, T) -> bool, ahead: T -> bool)
    requires p <= |t| && forall i :: 0 <= i < |t| ==> before(x, t[i]) == (i >= p) && ahead(t[i]) == !before(x, t[i])
    ensures Count(t, ahead) == p
  {
    CountAll(t[..p], ahead, true);
    CountAll(t[p..], ahead, false);
    CountAdds(t[..p], t[p..], ahead);
    assert t == t[..p] + t[p..];
  }

  /** A stable sort puts every element at its rank. */
  lemma {:induction false} RankIsPosition<T(!new)>(s: seq<T>, i: nat, before: (T, T) -> bool)
    requires StrictWeak(before) && i < |s|
    ensures Rank(s, i, before) < |Sort(s, before)| && Sort(s, before)[Rank(s, i, before)] == s[i]
  {
    var init, x := s[..|s| - 1], s[|s| - 1];
    var t := Sort(init, before);
    SortIsSortedPermutation(init, before);
    var p := InsertPlace(x, t, before);
    assert Sort(s, before) == t[..p] + [x] + t[p..];
    hide Rank, Sorted, Sort, Insert;
    if i == |s| - 1 {
      var ahead := (y: T) => !before(x, y);
      RankOfLast(s, before, ahead);
      CountSorted(init, before, ahead);
      PlaceIsCount(x, t, p, before, ahead);
    } else {
      hide StrictWeak;
      RankIsPosition(init, i, before);
      RankGrows(s, i, before);
    }
  }

  lemma {:induction false} SameCount<T>(s: seq<T>, p: T -> bool, q: T -> bool)
    requires forall i :: 0 <= i < |s| ==> p(s[i]) == q(s[i])
    ensures Count(s, p) == Count(s, q)
  {
    if s != [] { SameCount(s[..|s| - 1], p, q); }
  }

  /** An element that comes last has the rank of the elements it does not strictly precede. */
  lemma RankOfLast<T>(s: seq<T>, before: (T, T) -> bool, ahead: T -> bool)
    requires s != [] && forall i :: 0 <= i < |s| - 1 ==> ahead(s[i]) == !before(s[|s| - 1], s[i])
    ensures Rank(s, |s| - 1, before) == Count(s[..|s| - 1], ahead)
  {
    var init, i := s[..|s| - 1], |s| - 1;
    assert s[..i] == init && s[i + 1..] == [];
    SameCount(init, ahead, y => !before(s[i], y));
  }

  lemma RankGrows<T>(s: seq<T>, i: nat, before: (T, T) -> bool)
    requires i < |s| - 1
    ensures Rank(s, i, before) == Rank(s[..|s| - 1], i, before) + (if before(s[|s| - 1], s[i]) then 1 else 0)
  {
    var init, x := s[..|s| - 1], s[|s| - 1];
    var ahead := y => before(y, s[i]);
    assert init[..i] == s[..i] && s[i + 1..] == init[i + 1..] + [x];
    assert s[i + 1..][..|s[i + 1..]| - 1] == init[i + 1..];
    SameCount(s[..i], y => !before(s[i], y), y => !before(init[i], y));
    SameCount(init[i + 1..], ahead, y => before(y, init[i]));
    SameCount(s[i + 1..], ahead, y => before(y, s[i]));
  }

  /** The cut keeps exactly the elements of rank below `k`. */
  lemma TakeByRank<T(!new)>(s: seq<T>, k: nat, i: nat, before: (T, T) -> bool)
    requires StrictWeak(before) && NoRepeats(s) && i < |s|
    ensures s[i] in Take(Sort(s, before), k) <==> Rank(s, i, before) < k
  {
    RankIsPosition(s, i, before);
    SortIsSortedPermutation(s, before);
    PermutationHasNoRepeats(s, Sort(s, before));
    var t, r := Sort(s, before), Rank(s, i, before);
    if r < k { assert Take(t, k)[r] == s[i]; }
  }

  // ----- Sizes ----------------------------------------------------------------------------------------------------------

  ghost function SetOf<T>(s: seq<T>): set<T> {
    set x | x in s
  }

  lemma {:induction false} SubsetSize<T>(a: set<T>, b: set<T>)
    requires a <= b
    ensures |a| <= |b|
    ensures |a| == |b| ==> a == b
  {
    if a != {} {
      var x :| x in a;
      SubsetSize(a - {x}, b - {x});
    }
  }
}
