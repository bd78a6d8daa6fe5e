// Sorting of host names: a specification function, its characterisation, and
// an in-place sort of a shared array that computes it.
module StringSort {
  // Byte-wise lexicographic order.
  predicate Le(a: string, b: string) {
    a == [] || (b != [] && (a[0] < b[0] || (a[0] == b[0] && Le(a[1..], b[1..]))))
  }

  // They agree up to `k`, and `a` has the smaller character there.
  predicate SmallerAt(a: string, b: string, k: nat) {
    k < |a| && k < |b| && a[..k] == b[..k] && a[k] < b[k]
  }

  lemma SmallerInTail(a: string, b: string, k: nat)
    requires a != [] && b != [] && a[0] == b[0]
    ensures SmallerAt(a, b, k + 1) <==> SmallerAt(a[1..], b[1..], k)
  {
    if k < |a[1..]| && k < |b[1..]| {
      assert a[..k + 1] == [a[0]] + a[1..][..k] && b[..k + 1] == [b[0]] + b[1..][..k];
      assert a[1..][..k] == a[..k + 1][1..] && b[1..][..k] == b[..k + 1][1..];
    }
  }

  // One comes before another if it is a prefix of it, or has the smaller
  // character where they first differ.
  lemma {:induction false} LeIff(a: string, b: string)
    ensures Le(a, b) <==> a <= b || exists k: nat :: SmallerAt(a, b, k)
  {
    if a == [] || b == [] {
    } else if a[0] != b[0] {
      assert SmallerAt(a, b, 0) <==> a[0] < b[0];
    } else {
      var s, t := a[1..], b[1..];
      LeIff(s, t);
      assert a == [a[0]] + s && b == [b[0]] + t;
      assert a <= b <==> s <= t;
      forall k: nat ensures SmallerAt(a, b, k + 1) <==> SmallerAt(s, t, k) {
        SmallerInTail(a, b, k);
      }
      assert !SmallerAt(a, b, 0);
      assert (exists k: nat :: SmallerAt(a, b, k)) <==> (exists k: nat :: SmallerAt(s, t, k)) by {
        if k: nat :| SmallerAt(a, b, k) { assert SmallerAt(s, t, k - 1); }
        if k: nat :| SmallerAt(s, t, k) { assert SmallerAt(a, b, k + 1); }
      }
    }
  }

  lemma LeTotal(a: string, b: string)
    ensures Le(a, b) || Le(b, a)
  {
  }

  lemma LeAntisymmetric(a: string, b: string)
    requires Le(a, b) && Le(b, a)
    ensures a == b
  {
    if a == [] {
    } else {
      LeAntisymmetric(a[1..], b[1..]);
      assert a == [a[0]] + a[1..] && b == [b[0]] + b[1..];
    }
  }

  lemma LeTransitive(a: string, b: string, c: string)
    requires Le(a, b) && Le(b, c)
    ensures Le(a, c)
  {
    if a == [] {
    } else if a[0] == b[0] == c[0] {
      LeTransitive(a[1..], b[1..], c[1..]);
    }
  }

  ghost predicate Ordered(s: seq<string>) {
    forall i, j :: 0 <= i < j < |s| ==> Le(s[i], s[j])
  }

  // Inserts `x` after every element that is not above it, looking from the end.
  function Insert(x: string, s: seq<string>): seq<string> {
    if s == [] || Le(s[|s| - 1], x) then s + [x] else Insert(x, s[..|s| - 1]) + [s[|s| - 1]]
  }

  function Sorted(s: seq<string>): seq<string> {
    if s == [] then [] else Insert(s[|s| - 1], Sorted(s[..|s| - 1]))
  }

  lemma {:induction false} InsertKeeps(x: string, s: seq<string>)
    requires Ordered(s)
    ensures Ordered(Insert(x, s))
    ensures multiset(Insert(x, s)) == multiset(s) + multiset{x}
  {
    if s == [] {
    } else if Le(s[|s| - 1], x) {
      forall i | 0 <= i < |s| ensures Le(s[i], x) {
        if i < |s| - 1 { LeTransitive(s[i], s[|s| - 1], x); }
      }
    } else {
      var init, last := s[..|s| - 1], s[|s| - 1];
      assert s == init + [last];
      InsertKeeps(x, init);
      LeTotal(x, last);
      var r := Insert(x, init);
      forall i | 0 <= i < |r| ensures Le(r[i], last) {
        assert r[i] in multiset(r);
        if r[i] != x { assert r[i] in init; }
      }
    }
  }

  // The result is ordered and is a rearrangement of the input.
  lemma {:induction false} SortedIsSort(s: seq<string>)
    ensures Ordered(Sorted(s)) && multiset(Sorted(s)) == multiset(s)
  {
    if s == [] {
    } else {
      var init, last := s[..|s| - 1], s[|s| - 1];
      assert s == init + [last];
      SortedIsSort(init);
      InsertKeeps(last, Sorted(init));
    }
  }

  lemma SameHead(a: seq<string>, b: seq<string>)
    requires Ordered(a) && Ordered(b) && multiset(a) == multiset(b) && a != [] && b != []
    ensures a[0] == b[0]
  {
    assert a[0] in multiset(b) && b[0] in multiset(a);
    var i :| 0 <= i < |b| && b[i] == a[0];
    var j :| 0 <= j < |a| && a[j] == b[0];
    if i != 0 && j != 0 { LeAntisymmetric(a[0], b[0]); }
  }

  lemma TailOrdered(a: seq<string>)
    requires Ordered(a) && a != []
    ensures Ordered(a[1..])
  {
    var s := a[1..];
    assert forall i :: 0 <= i < |s| ==> s[i] == a[i + 1];
  }

  lemma TailElements(a: seq<string>)
    requires a != []
    ensures multiset(a[1..]) == multiset(a) - multiset{a[0]}
  {
    assert a == [a[0]] + a[1..];
  }

  // Ordered sequences with the same elements are the same sequence.
  lemma {:induction false} OrderedUnique(a: seq<string>, b: seq<string>)
    requires Ordered(a) && Ordered(b) && multiset(a) == multiset(b)
    ensures a == b
  {
    if a == [] || b == [] {
      assert |multiset(a)| == |a| && |multiset(b)| == |b|;
    } else {
      SameHead(a, b);
      TailElements(a);
      TailElements(b);
      TailOrdered(a);
      TailOrdered(b);
      OrderedUnique(a[1..], b[1..]);
      assert a == [a[0]] + a[1..] && b == [b[0]] + b[1..];
    }
  }

  // Comparing sorted lists compares the lists up to order.
  lemma SortedEqualIffPermutation(a: seq<string>, b: seq<string>)
    ensures Sorted(a) == Sorted(b) <==> multiset(a) == multiset(b)
  {
    SortedIsSort(a);
    SortedIsSort(b);
    if multiset(a) == multiset(b) { OrderedUnique(Sorted(a), Sorted(b)); }
  }

  lemma {:induction false} InsertSplit(x: string, s: seq<string>, j: nat)
    requires j <= |s|
    requires j == 0 || Le(s[j - 1], x)
    requires forall k :: j <= k < |s| ==> !Le(s[k], x)
    ensures Insert(x, s) == s[..j] + [x] + s[j..]
  {
    if j == |s| {
      assert s[..j] == s && s[j..] == [];
    } else {
      var init, last := s[..|s| - 1], s[|s| - 1];
      assert forall k :: j <= k < |init| ==> init[k] == s[k];
      assert j > 0 ==> init[j - 1] == s[j - 1];
      InsertSplit(x, init, j);
      assert init[..j] == s[..j] && s[j..] == init[j..] + [last];
    }
  }

  lemma SwapDown(s: seq<string>, x: string, rest: seq<string>, j: nat)
    requires 0 < j <= |s|
    ensures var t := s[..j] + [x] + s[j..] + rest;
      t[j - 1 := t[j]][j := t[j - 1]] == s[..j - 1] + [x] + s[j - 1..] + rest
  {
  }

  // Moves the element at `i` down to its place among the sorted ones below it.
  method InsertInPlace(a: array<string>, i: nat, ghost s: seq<string>, ghost rest: seq<string>)
    requires i < a.Length && |s| == i && a[..] == s + [a[i]] + rest
    modifies a
    ensures a[..] == Insert(old(a[i]), s) + rest
  {
    var x := a[i];
    var j := i;
    while j > 0 && !Le(a[j - 1], x)
      invariant 0 <= j <= i
      invariant a[..] == s[..j] + [x] + s[j..] + rest
      invariant forall k :: j <= k < i ==> !Le(s[k], x)
    {
      ghost var before := a[..];
      assert a[j - 1] == before[j - 1] == s[j - 1];
      a[j - 1], a[j] := a[j], a[j - 1];
      assert a[..] == before[j - 1 := before[j]][j := before[j - 1]];
      SwapDown(s, x, rest, j);
      j := j - 1;
    }
    assert j > 0 ==> a[j - 1] == a[..][j - 1] == s[j - 1];
    InsertSplit(x, s, j);
  }

  // The array contents when the first `i` elements are sorted.
  ghost function SortedUpTo(s: seq<string>, i: nat): seq<string>
    requires i <= |s|
  {
    Sorted(s[..i]) + s[i..]
  }

  lemma SortedLength(s: seq<string>)
    ensures |Sorted(s)| == |s|
  {
    SortedIsSort(s);
    assert |multiset(s)| == |multiset(Sorted(s))|;
  }

  lemma SortedStep(s: seq<string>, i: nat)
    requires i < |s|
    ensures |Sorted(s[..i])| == i
    ensures SortedUpTo(s, i) == Sorted(s[..i]) + [s[i]] + s[i + 1..]
    ensures SortedUpTo(s, i + 1) == Insert(s[i], Sorted(s[..i])) + s[i + 1..]
  {
    SortedLength(s[..i]);
    assert s[i..] == [s[i]] + s[i + 1..];
    assert s[..i + 1][..i] == s[..i];
  }

  lemma SortedUpToEnds(s: seq<string>)
    ensures SortedUpTo(s, 0) == s && SortedUpTo(s, |s|) == Sorted(s)
  {
    assert s[..0] == [] && s[..|s|] == s;
    assert Sorted(s) + s[|s|..] == Sorted(s);
  }

  // Sorts the array every holder of the slice shares.
  method SortInPlace(a: array<string>)
    modifies a
    ensures a[..] == Sorted(old(a[..]))
  {
    ghost var was := a[..];
    SortedUpToEnds(was);
    var i := 0;
    while i < a.Length
      invariant 0 <= i <= a.Length
      invariant a[..] == SortedUpTo(was, i)
    {
      SortedStep(was, i);
      assert a[i] == a[..][i] == was[i];
      InsertInPlace(a, i, Sorted(was[..i]), was[i + 1..]);
      i := i + 1;
    }
  }
}
