/**
 * Python's `sorted(s, key=...)`, which is stable, as an insertion sort by an
 * integer key. `sorted(..., reverse=True)` is also stable, so it is the same
 * sort by the negated key.
 */
module StableSort {
  predicate SortedBy<T>(s: seq<T>, key: T -> int)
  {
    forall i, j | 0 <= i < j < |s| :: key(s[i]) <= key(s[j])
  }

  /** Puts `x` after every element of `s` whose key is at most `key(x)`. */
  function Insert<T>(s: seq<T>, x: T, key: T -> int): (r: seq<T>)
    ensures |r| == |s| + 1
    ensures multiset(r) == multiset(s) + multiset{x}
  {
    if s == [] || key(x) < key(s[0]) then [x] + s
    else
      assert s == [s[0]] + s[1..];
      [s[0]] + Insert(s[1..], x, key)
  }

  function Sort<T>(s: seq<T>, key: T -> int): (r: seq<T>)
    ensures |r| == |s|
    ensures multiset(r) == multiset(s)
  {
    if s == [] then []
    else
      assert s == s[..|s| - 1] + [s[|s| - 1]];
      Insert(Sort(s[..|s| - 1], key), s[|s| - 1], key)
  }

  /** `sorted(s, key=key, reverse=True)`. */
  function SortDescending<T>(s: seq<T>, key: T -> int): seq<T>
  {
    Sort(s, Negated(key))
  }

  function Negated<T>(key: T -> int): T -> int
  {
    x => -key(x)
  }

  lemma {:induction false} InsertSorted<T>(s: seq<T>, x: T, key: T -> int)
    requires SortedBy(s, key)
    ensures SortedBy(Insert(s, x, key), key)
  {
    if s != [] && key(x) >= key(s[0]) {
      InsertSorted(s[1..], x, key);
      var r := Insert(s, x, key);
      forall i, j | 0 <= i < j < |r| ensures key(r[i]) <= key(r[j]) {
        if i == 0 {
          assert r[j] in multiset(Insert(s[1..], x, key));
          assert r[j] in multiset(s[1..]) + multiset{x};
        }
      }
    }
  }

  /** The result of `Sort` is ordered by key. */
  lemma {:induction false} SortSorted<T>(s: seq<T>, key: T -> int)
    ensures SortedBy(Sort(s, key), key)
  {
    if s != [] {
      SortSorted(s[..|s| - 1], key);
      InsertSorted(Sort(s[..|s| - 1], key), s[|s| - 1], key);
    }
  }

  /** The first element of `s` whose key is minimal. */
  function FirstMin<T>(s: seq<T>, key: T -> int): T
    requires |s| > 0
  {
    if |s| == 1 then s[0]
    else
      var m := FirstMin(s[..|s| - 1], key);
      if key(s[|s| - 1]) < key(m) then s[|s| - 1] else m
  }

  /** The last element of `s` whose key is maximal. */
  function LastMax<T>(s: seq<T>, key: T -> int): T
    requires |s| > 0
  {
    if |s| == 1 then s[0]
    else
      var m := LastMax(s[..|s| - 1], key);
      if key(s[|s| - 1]) >= key(m) then s[|s| - 1] else m
  }

  /** `FirstMin` sits at the first position holding the least key. */
  lemma {:induction false} FirstMinAt<T>(s: seq<T>, key: T -> int) returns (k: nat)
    requires |s| > 0
    ensures k < |s| && s[k] == FirstMin(s, key)
    ensures forall j | 0 <= j < |s| :: key(s[k]) <= key(s[j])
    ensures forall j | 0 <= j < k :: key(s[j]) > key(s[k])
  {
    if |s| == 1 {
      k := 0;
    } else {
      k := FirstMinAt(s[..|s| - 1], key);
      if key(s[|s| - 1]) < key(s[k]) {
        k := |s| - 1;
      }
    }
  }

  /** `LastMax` sits at the last position holding the greatest key. */
  lemma {:induction false} LastMaxAt<T>(s: seq<T>, key: T -> int) returns (k: nat)
    requires |s| > 0
    ensures k < |s| && s[k] == LastMax(s, key)
    ensures forall j | 0 <= j < |s| :: key(s[j]) <= key(s[k])
    ensures forall j | k < j < |s| :: key(s[j]) < key(s[k])
  {
    if |s| == 1 {
      k := 0;
    } else {
      k := LastMaxAt(s[..|s| - 1], key);
      if key(s[|s| - 1]) >= key(s[k]) {
        k := |s| - 1;
      }
    }
  }

  /** The head of the sorted sequence is the first element with the least key. */
  lemma {:induction false} SortFirst<T>(s: seq<T>, key: T -> int)
    requires |s| > 0
    ensures Sort(s, key)[0] == FirstMin(s, key)
  {
    if |s| > 1 {
      SortFirst(s[..|s| - 1], key);
    }
  }

  lemma {:induction false} InsertLast<T>(s: seq<T>, x: T, key: T -> int)
    requires |s| > 0 && SortedBy(s, key)
    ensures var r := Insert(s, x, key);
      r[|r| - 1] == if key(x) >= key(s[|s| - 1]) then x else s[|s| - 1]
  {
    var r := Insert(s, x, key);
    if key(x) < key(s[0]) {
      assert r == [x] + s;
      assert key(s[0]) <= key(s[|s| - 1]);
    } else if |s| == 1 {
      assert r == [s[0], x];
    } else {
      var t := s[1..];
      assert SortedBy(t, key) by {
        forall i, j | 0 <= i < j < |t| ensures key(t[i]) <= key(t[j]) {
          assert t[i] == s[i + 1] && t[j] == s[j + 1];
        }
      }
      InsertLast(t, x, key);
      assert r == [s[0]] + Insert(t, x, key);
      assert t[|t| - 1] == s[|s| - 1];
    }
  }

  /** The tail of the sorted sequence is the last element with the greatest key. */
  lemma {:induction false} SortLast<T>(s: seq<T>, key: T -> int)
    requires |s| > 0
    ensures Sort(s, key)[|s| - 1] == LastMax(s, key)
  {
    if |s| > 1 {
      SortLast(s[..|s| - 1], key);
      SortSorted(s[..|s| - 1], key);
      InsertLast(Sort(s[..|s| - 1], key), s[|s| - 1], key);
    }
  }

  /** The descending sort keeps every element and orders them by key from greatest to least. */
  lemma SortDescendingSpec<T>(s: seq<T>, key: T -> int)
    ensures |SortDescending(s, key)| == |s| && multiset(SortDescending(s, key)) == multiset(s)
    ensures forall i, j | 0 <= i < j < |SortDescending(s, key)| :: key(SortDescending(s, key)[i]) >= key(SortDescending(s, key)[j])
  {
    var r := SortDescending(s, key);
    SortSorted(s, Negated(key));
    forall i, j | 0 <= i < j < |r| ensures key(r[i]) >= key(r[j]) {
      assert Negated(key)(r[i]) <= Negated(key)(r[j]);
    }
  }

  /** A prefix of the descending sort holds the greatest keys: nothing left out has a greater key than anything kept. */
  lemma DescendingPrefix<T>(s: seq<T>, key: T -> int, k: nat)
    requires k <= |s|
    ensures forall i, j | 0 <= i < j < k :: key(SortDescending(s, key)[i]) >= key(SortDescending(s, key)[j])
    ensures forall a | a in SortDescending(s, key)[..k] :: a in s
    ensures forall a, b | a in SortDescending(s, key)[..k] && b in s && b !in SortDescending(s, key)[..k] :: key(b) <= key(a)
  {
    var r := SortDescending(s, key);
    SortDescendingSpec(s, key);
    forall a | a in r[..k] ensures a in s {
      assert a in multiset(r);
    }
    forall a, b | a in r[..k] && b in s && b !in r[..k] ensures key(b) <= key(a) {
      var i :| 0 <= i < k && r[i] == a;
      assert b in multiset(r);
      var j :| 0 <= j < |r| && r[j] == b;
      assert forall m | 0 <= m < k :: r[m] in r[..k];
    }
  }
}
