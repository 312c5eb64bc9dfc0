/** Byte order on strings, as Go compares and sorts them, and the sorted, duplicate-free lists built with it. */
module ByteOrder {

  predicate Less(a: string, b: string) {
    if b == "" then false
    else if a == "" then true
    else a[0] < b[0] || (a[0] == b[0] && Less(a[1..], b[1..]))
  }

  lemma {:induction false} LessIrreflexive(a: string)
    ensures !Less(a, a)
  {
    if a != "" {
      LessIrreflexive(a[1..]);
    }
  }

  lemma {:induction false} LessIsStrict(a: string, b: string)
    ensures !(Less(a, b) && Less(b, a))
    ensures !Less(a, a)
    ensures Less(a, b) || Less(b, a) || a == b
  {
    LessIrreflexive(a);
    if a != "" && b != "" {
      LessIsStrict(a[1..], b[1..]);
      assert a == [a[0]] + a[1..] && b == [b[0]] + b[1..];
    }
  }

  lemma {:induction false} LessTransitive(a: string, b: string, c: string)
    requires Less(a, b) && Less(b, c)
    ensures Less(a, c)
    decreases |a|
  {
    if a != "" && a[0] == b[0] == c[0] {
      LessTransitive(a[1..], b[1..], c[1..]);
    }
  }

  /** The decoder's test: every element is greater than the one before it. */
  predicate Ascending(s: seq<string>) {
    forall i | 0 < i < |s| :: Less(s[i - 1], s[i])
  }

  lemma {:induction false} AscendingPairs(s: seq<string>, i: nat, j: nat)
    requires Ascending(s) && i < j < |s|
    ensures Less(s[i], s[j])
    decreases j
  {
    if i + 1 < j {
      AscendingPairs(s, i, j - 1);
      LessTransitive(s[i], s[j - 1], s[j]);
    }
  }

  lemma AscendingDistinct(s: seq<string>)
    requires Ascending(s)
    ensures forall i, j | 0 <= i < j < |s| :: s[i] != s[j]
  {
    forall i, j | 0 <= i < j < |s| ensures s[i] != s[j] {
      AscendingPairs(s, i, j);
      LessIsStrict(s[i], s[j]);
    }
  }

  lemma AscendingSlice(s: seq<string>, lo: nat, hi: nat)
    requires Ascending(s) && lo <= hi <= |s|
    ensures Ascending(s[lo..hi])
  {
  }

  ghost predicate SameElements(a: seq<string>, b: seq<string>) {
    forall x :: x in a <==> x in b
  }

  /** Two strictly ascending lists of the same strings are the same list. */
  lemma {:induction false} AscendingUnique(a: seq<string>, b: seq<string>)
    requires Ascending(a) && Ascending(b) && SameElements(a, b)
    ensures a == b
    decreases |a|
  {
    if b != [] {
      assert b[0] in b;
    }
    if a != [] {
      var last := |a| - 1;
      assert a[last] in b;
      assert b[|b| - 1] in a;
      SameMaximum(a, b);
      AscendingDistinct(a);
      AscendingDistinct(b);
      var a0, b0 := a[..last], b[..|b| - 1];
      assert a == a0 + [a[last]] && b == b0 + [b[|b| - 1]];
      forall x ensures x in a0 <==> x in b0 {
        assert x in a <==> x in b;
      }
      AscendingUnique(a0, b0);
    }
  }

  lemma SameMaximum(a: seq<string>, b: seq<string>)
    requires Ascending(a) && Ascending(b) && |a| > 0 && |b| > 0
    requires a[|a| - 1] in b && b[|b| - 1] in a
    ensures a[|a| - 1] == b[|b| - 1]
  {
    var i :| 0 <= i < |b| && b[i] == a[|a| - 1];
    var j :| 0 <= j < |a| && a[j] == b[|b| - 1];
    if i < |b| - 1 && j < |a| - 1 {
      AscendingPairs(b, i, |b| - 1);
      AscendingPairs(a, j, |a| - 1);
      LessIsStrict(a[|a| - 1], b[|b| - 1]);
    }
  }

  // ----- sortedUnique -----

  predicate Sorted(s: seq<string>) {
    forall i | 0 < i < |s| :: !Less(s[i], s[i - 1])
  }

  /** Sorting by insertion stands for the library's sort: sorted, and the same strings as often. */
  function Insert(x: string, s: seq<string>): (r: seq<string>)
    ensures multiset(r) == multiset(s) + multiset{x}
  {
    if s == [] then [x]
    else
      var last := |s| - 1;
      assert s == s[..last] + [s[last]];
      if !Less(x, s[last]) then s + [x]
      else Insert(x, s[..last]) + [s[last]]
  }

  function Sort(s: seq<string>): (r: seq<string>)
    ensures multiset(r) == multiset(s)
  {
    if s == [] then []
    else
      assert s == s[..|s| - 1] + [s[|s| - 1]];
      Insert(s[|s| - 1], Sort(s[..|s| - 1]))
  }

  lemma {:induction false} InsertSorted(x: string, s: seq<string>)
    requires Sorted(s)
    ensures Sorted(Insert(x, s))
    ensures var r := Insert(x, s);
            |r| == |s| + 1 && (r[|s|] == x || (s != [] && Less(x, r[|s|]) && r[|s|] == s[|s| - 1]))
  {
    if s != [] {
      var last := |s| - 1;
      if Less(x, s[last]) {
        InsertSorted(x, s[..last]);
        LessIsStrict(x, s[last]);
      }
    }
  }

  lemma {:induction false} SortSorted(s: seq<string>)
    ensures Sorted(Sort(s))
  {
    if s != [] {
      SortSorted(s[..|s| - 1]);
      InsertSorted(s[|s| - 1], Sort(s[..|s| - 1]));
    }
  }

  lemma SortElements(s: seq<string>)
    ensures SameElements(Sort(s), s)
  {
    forall x ensures x in Sort(s) <==> x in s {
      assert x in Sort(s) <==> x in multiset(Sort(s));
      assert x in s <==> x in multiset(s);
    }
  }

  /** Keeps the first of equal neighbours. */
  function Compacted(s: seq<string>): seq<string> {
    if s == [] then []
    else
      var last := |s| - 1;
      var front := Compacted(s[..last]);
      if last > 0 && s[last] == s[last - 1] then front else front + [s[last]]
  }

  /** The strings of `ids`, each once, in byte order. */
  function SortedSet(ids: seq<string>): seq<string> {
    Compacted(Sort(ids))
  }

  lemma {:induction false} CompactedShape(s: seq<string>)
    requires Sorted(s)
    ensures Ascending(Compacted(s)) && SameElements(Compacted(s), s)
    ensures s != [] ==> Compacted(s) != [] && Compacted(s)[|Compacted(s)| - 1] == s[|s| - 1]
  {
    if s != [] {
      var last := |s| - 1;
      CompactedShape(s[..last]);
      assert s == s[..last] + [s[last]];
      if last > 0 {
        LessIsStrict(s[last - 1], s[last]);
      }
    }
  }

  lemma SortedSetShape(ids: seq<string>)
    ensures Ascending(SortedSet(ids)) && SameElements(SortedSet(ids), ids)
  {
    SortSorted(ids);
    SortElements(ids);
    CompactedShape(Sort(ids));
  }

  /** Only the strictly ascending lists are left as they are. */
  lemma SortedSetFixpoint(ids: seq<string>)
    ensures SortedSet(ids) == ids <==> Ascending(ids)
  {
    SortedSetShape(ids);
    if Ascending(ids) {
      AscendingUnique(SortedSet(ids), ids);
    }
  }

  /** Sorts a copy, then compacts it in place: position `n` is where the next new string goes. */
  method SortedUnique(ids: seq<string>) returns (r: seq<string>)
    ensures r == SortedSet(ids)
    ensures Ascending(r) && SameElements(r, ids)
  {
    var sorted := Sort(ids);
    SortedSetShape(ids);
    assert Compacted(sorted[..0]) == [];
    hide Sort, Insert, Sorted, Ascending, SameElements, Less, Compacted;
    var result := new string[|sorted|](i requires 0 <= i < |sorted| => sorted[i]);
    var n := 0;
    for i := 0 to |sorted|
      invariant 0 <= n <= i
      invariant forall k | i <= k < |sorted| :: result[k] == sorted[k]
      invariant result[..n] == Compacted(sorted[..i])
      invariant i > 0 ==> n > 0 && result[n - 1] == sorted[i - 1]
    {
      var id := result[i];
      CompactedStep(sorted, i);
      if n == 0 || id != result[n - 1] {
        ghost var before := result[..n];
        result[n] := id;
        assert result[..n] == before;
        n := n + 1;
        assert result[..n] == before + [id];
      }
    }
    assert sorted[..|sorted|] == sorted;
    r := result[..n];
  }

  lemma CompactedStep(s: seq<string>, i: nat)
    requires i < |s|
    ensures Compacted(s[..i + 1])
         == if i > 0 && s[i] == s[i - 1] then Compacted(s[..i]) else Compacted(s[..i]) + [s[i]]
  {
    assert s[..i + 1][..i] == s[..i];
  }
}
