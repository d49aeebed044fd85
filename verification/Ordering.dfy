/**
 Library sorting and adjacent-duplicate removal, as the placement code uses
 them, the lexicographic order on strings it sorts by, and the sizes of sets.
 */
module Ordering {
  /** Lexicographic order, character by character. */
  predicate StringLe(a: string, b: string)
  {
    a == [] || (b != [] && (a[0] < b[0] || (a[0] == b[0] && StringLe(a[1..], b[1..]))))
  }

  lemma {:induction false} StringLeTotal(a: string, b: string)
    ensures StringLe(a, b) || StringLe(b, a)
  {
    if a != [] && b != [] && a[0] == b[0] { StringLeTotal(a[1..], b[1..]); }
  }

  lemma {:induction false} StringLeTransitive(a: string, b: string, c: string)
    requires StringLe(a, b) && StringLe(b, c)
    ensures StringLe(a, c)
  {
    if a != [] && a[0] == b[0] && b[0] == c[0] { StringLeTransitive(a[1..], b[1..], c[1..]); }
  }

  lemma {:induction false} StringLeAntisymmetric(a: string, b: string)
    requires StringLe(a, b) && StringLe(b, a)
    ensures a == b
  {
    if a != [] {
      StringLeAntisymmetric(a[1..], b[1..]);
      assert a == [a[0]] + a[1..] && b == [b[0]] + b[1..];
    }
  }

  ghost predicate IsOrder<T(!new)>(le: (T, T) -> bool)
  {
    && (forall x, y :: le(x, y) || le(y, x))
    && (forall x, y, z :: le(x, y) && le(y, z) ==> le(x, z))
  }

  ghost predicate InOrder<T>(xs: seq<T>, le: (T, T) -> bool)
  {
    forall i, j :: 0 <= i < j < |xs| ==> le(xs[i], xs[j])
  }

  function Insert<T>(x: T, xs: seq<T>, le: (T, T) -> bool): seq<T>
  {
    if xs == [] then [x] else if le(x, xs[0]) then [x] + xs else [xs[0]] + Insert(x, xs[1..], le)
  }

  /** A stable sort. */
  function Sorted<T>(xs: seq<T>, le: (T, T) -> bool): seq<T>
  {
    if xs == [] then [] else Insert(xs[0], Sorted(xs[1..], le), le)
  }

  lemma {:induction false} InsertHolds<T>(x: T, xs: seq<T>, le: (T, T) -> bool, y: T)
    ensures y in Insert(x, xs, le) <==> y == x || y in xs
  {
    if xs != [] && !le(x, xs[0]) {
      InsertHolds(x, xs[1..], le, y);
      assert y in xs <==> y == xs[0] || y in xs[1..];
    }
  }

  lemma {:induction false} SortedHolds<T>(xs: seq<T>, le: (T, T) -> bool, y: T)
    ensures y in Sorted(xs, le) <==> y in xs
  {
    if xs != [] {
      SortedHolds(xs[1..], le, y);
      InsertHolds(xs[0], Sorted(xs[1..], le), le, y);
      assert y in xs <==> y == xs[0] || y in xs[1..];
    }
  }

  lemma {:induction false} InsertInOrder<T(!new)>(x: T, xs: seq<T>, le: (T, T) -> bool)
    requires IsOrder(le) && InOrder(xs, le)
    ensures InOrder(Insert(x, xs, le), le)
  {
    if xs != [] && !le(x, xs[0]) {
      var rest := Insert(x, xs[1..], le);
      InsertInOrder(x, xs[1..], le);
      forall k | 0 <= k < |rest| ensures le(xs[0], rest[k]) {
        InsertHolds(x, xs[1..], le, rest[k]);
      }
    }
  }

  lemma {:induction false} SortedInOrder<T(!new)>(xs: seq<T>, le: (T, T) -> bool)
    requires IsOrder(le)
    ensures InOrder(Sorted(xs, le), le)
  {
    if xs != [] {
      SortedInOrder(xs[1..], le);
      InsertInOrder(xs[0], Sorted(xs[1..], le), le);
    }
  }

  /** `xs[i]` is a least element, and the first such. */
  ghost predicate FirstLeast<T>(xs: seq<T>, le: (T, T) -> bool, i: nat)
  {
    i < |xs| && (forall j :: 0 <= j < |xs| ==> le(xs[i], xs[j])) && (forall j :: 0 <= j < i ==> !le(xs[j], xs[i]))
  }

  lemma {:induction false} SortedHead<T(!new)>(xs: seq<T>, le: (T, T) -> bool) returns (i: nat)
    requires IsOrder(le) && xs != []
    ensures FirstLeast(xs, le, i) && Sorted(xs, le) != [] && Sorted(xs, le)[0] == xs[i]
  {
    var rest := xs[1..];
    if rest == [] { return 0; }
    var k := SortedHead(rest, le);
    assert forall j :: 0 <= j < |rest| ==> xs[j + 1] == rest[j];
    assert forall j :: 0 <= j < |rest| ==> le(rest[k], rest[j]);
    if le(xs[0], rest[k]) {
      i := 0;
      forall j | 0 <= j < |xs| ensures le(xs[0], xs[j]) { if j > 0 { assert xs[j] == rest[j - 1]; } }
    } else {
      i := k + 1;
      forall j | 0 <= j < |xs| ensures le(xs[i], xs[j]) { if j > 0 { assert xs[j] == rest[j - 1]; } }
      forall j | 0 <= j < i ensures !le(xs[j], xs[i]) { if j > 0 { assert xs[j] == rest[j - 1]; } }
    }
  }

  lemma Larger<T>(a: set<T>, b: set<T>)
    requires a <= b
    ensures |a| <= |b| && (|a| == |b| ==> a == b)
  {
    assert b == a + (b - a);
  }

  /** Keeps the first of each run of elements with the same key. */
  function Dedup<T>(xs: seq<T>, key: T -> string): seq<T>
    decreases |xs|
  {
    if |xs| <= 1 then xs
    else if key(xs[0]) == key(xs[1]) then Dedup([xs[0]] + xs[2..], key)
    else [xs[0]] + Dedup(xs[1..], key)
  }

  lemma {:induction false} DedupHolds<T>(xs: seq<T>, key: T -> string, y: T)
    requires y in Dedup(xs, key)
    ensures y in xs
    decreases |xs|
  {
    if |xs| > 1 {
      if key(xs[0]) == key(xs[1]) { DedupHolds([xs[0]] + xs[2..], key, y); } else if y != xs[0] {
        DedupHolds(xs[1..], key, y);
      }
    }
  }

  /** Every key is kept. */
  lemma {:induction false} DedupKeeps<T>(xs: seq<T>, key: T -> string, y: T)
    requires y in xs
    ensures exists z :: z in Dedup(xs, key) && key(z) == key(y)
    decreases |xs|
  {
    if |xs| <= 1 {
      assert y in Dedup(xs, key);
    } else if key(xs[0]) == key(xs[1]) {
      var ys := [xs[0]] + xs[2..];
      assert xs == [xs[0]] + [xs[1]] + xs[2..];
      var w := if y == xs[1] then xs[0] else y;
      assert w in ys;
      DedupKeeps(ys, key, w);
    } else if y == xs[0] {
      assert Dedup(xs, key)[0] == y;
    } else {
      DedupKeeps(xs[1..], key, y);
    }
  }

  /** In a list sorted by the key, no key is left twice. */
  lemma {:induction false} DedupDistinct<T>(xs: seq<T>, key: T -> string)
    requires forall i, j :: 0 <= i < j < |xs| ==> StringLe(key(xs[i]), key(xs[j]))
    ensures forall i, j :: 0 <= i < j < |Dedup(xs, key)| ==> key(Dedup(xs, key)[i]) != key(Dedup(xs, key)[j])
    decreases |xs|
  {
    if |xs| > 1 {
      if key(xs[0]) == key(xs[1]) {
        DedupDistinct([xs[0]] + xs[2..], key);
      } else {
        DedupDistinct(xs[1..], key);
        var rest := Dedup(xs[1..], key);
        forall k | 0 <= k < |rest| ensures key(rest[k]) != key(xs[0]) {
          DedupHolds(xs[1..], key, rest[k]);
          var j :| 0 <= j < |xs[1..]| && xs[1..][j] == rest[k];
          assert j > 0 ==> StringLe(key(xs[1]), key(xs[j + 1]));
          if key(rest[k]) == key(xs[0]) { StringLeAntisymmetric(key(xs[0]), key(xs[1])); }
        }
      }
    }
  }
}
