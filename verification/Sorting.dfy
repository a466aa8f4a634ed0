/** Stable sorting by an integer key, the behaviour of Python's `sorted` and `list.sort`.
    A descending sort (`reverse=True`) keeps the order of equal elements as well, so it is the
    ascending sort by the negated key. */
module Sorting {

  function Insert<T>(x: T, s: seq<T>, key: T -> int): seq<T> {
    if s == [] || key(x) <= key(s[0]) then [x] + s
    else [s[0]] + Insert(x, s[1..], key)
  }

  function StableSort<T>(s: seq<T>, key: T -> int): seq<T> {
    if s == [] then [] else Insert(s[0], StableSort(s[1..], key), key)
  }

  ghost predicate Sorted<T>(s: seq<T>, key: T -> int) {
    forall i, j :: 0 <= i < j < |s| ==> key(s[i]) <= key(s[j])
  }

  /** The elements of `s` with key `k`, in order. */
  function WithKey<T>(s: seq<T>, key: T -> int, k: int): seq<T> {
    if s == [] then []
    else if key(s[0]) == k then [s[0]] + WithKey(s[1..], key, k)
    else WithKey(s[1..], key, k)
  }

  /** `t` rearranges `s` without changing the order of elements that share a key. */
  ghost predicate StableRearrangement<T>(s: seq<T>, t: seq<T>, key: T -> int) {
    forall k: int :: WithKey(t, key, k) == WithKey(s, key, k)
  }

  lemma {:induction false} InsertPermutes<T>(x: T, s: seq<T>, key: T -> int)
    ensures multiset(Insert(x, s, key)) == multiset{x} + multiset(s)
    ensures |Insert(x, s, key)| == |s| + 1
  {
    if s == [] || key(x) <= key(s[0]) {
    } else {
      InsertPermutes(x, s[1..], key);
      assert s == [s[0]] + s[1..];
    }
  }

  lemma {:induction false} InsertKeeps<T>(x: T, s: seq<T>, key: T -> int)
    requires Sorted(s, key)
    ensures Sorted(Insert(x, s, key), key)
  {
    if s == [] || key(x) <= key(s[0]) {
    } else {
      var r := Insert(x, s[1..], key);
      InsertKeeps(x, s[1..], key);
      InsertPermutes(x, s[1..], key);
      forall i | 0 <= i < |r| ensures key(s[0]) <= key(r[i]) {
        assert r[i] in multiset(r);
        if r[i] != x {
          assert r[i] in s[1..];
        }
      }
    }
  }

  lemma {:induction false} InsertStable<T>(x: T, s: seq<T>, key: T -> int, k: int)
    requires Sorted(s, key)
    ensures WithKey(Insert(x, s, key), key, k) == WithKey([x] + s, key, k)
  {
    if s == [] || key(x) <= key(s[0]) {
    } else {
      InsertStable(x, s[1..], key, k);
      assert ([x] + s)[1..] == s;
      assert ([x] + s[1..])[1..] == s[1..];
      var r := Insert(x, s, key);
      assert r[1..] == Insert(x, s[1..], key);
    }
  }

  lemma {:induction false} SortSorts<T>(s: seq<T>, key: T -> int)
    ensures Sorted(StableSort(s, key), key)
    ensures multiset(StableSort(s, key)) == multiset(s)
    ensures |StableSort(s, key)| == |s|
  {
    if s == [] {
    } else {
      SortSorts(s[1..], key);
      InsertKeeps(s[0], StableSort(s[1..], key), key);
      InsertPermutes(s[0], StableSort(s[1..], key), key);
      assert s == [s[0]] + s[1..];
    }
  }

  lemma {:induction false} SortStable<T>(s: seq<T>, key: T -> int)
    ensures StableRearrangement(s, StableSort(s, key), key)
  {
    if s == [] {
    } else {
      var t := StableSort(s[1..], key);
      SortStable(s[1..], key);
      SortSorts(s[1..], key);
      forall k: int
        ensures WithKey(StableSort(s, key), key, k) == WithKey(s, key, k)
      {
        InsertStable(s[0], t, key, k);
        assert ([s[0]] + t)[1..] == t;
        assert WithKey(t, key, k) == WithKey(s[1..], key, k);
      }
    }
  }

  lemma {:induction false} WithKeyNonempty<T>(s: seq<T>, key: T -> int, x: T)
    requires x in s
    ensures WithKey(s, key, key(x)) != []
  {
    if s[0] != x {
      WithKeyNonempty(s[1..], key, x);
    }
  }

  lemma {:induction false} WithKeyFrom<T>(s: seq<T>, key: T -> int, k: int, i: nat)
    requires i < |WithKey(s, key, k)|
    ensures WithKey(s, key, k)[i] in s && key(WithKey(s, key, k)[i]) == k
  {
    if key(s[0]) != k {
      WithKeyFrom(s[1..], key, k, i);
    } else if i > 0 {
      WithKeyFrom(s[1..], key, k, i - 1);
    }
  }

  lemma {:induction false} WithKeyFirst<T>(s: seq<T>, key: T -> int)
    requires s != []
    ensures WithKey(s, key, key(s[0])) == [s[0]] + WithKey(s[1..], key, key(s[0]))
  {
  }

  /** Two sorted lists with the same stable classes agree on their first element. */
  lemma {:induction false} SameFirst<T>(s: seq<T>, t: seq<T>, key: T -> int)
    requires Sorted(s, key) && Sorted(t, key) && StableRearrangement(s, t, key)
    requires s != []
    ensures t != [] && t[0] == s[0]
  {
    var k := key(s[0]);
    WithKeyFirst(s, key);
    assert WithKey(t, key, k) == WithKey(s, key, k);
    WithKeyFrom(t, key, k, 0);
    assert s[0] in t;
    var m := key(t[0]);
    WithKeyFirst(t, key);
    assert WithKey(t, key, m) == WithKey(s, key, m);
    WithKeyFrom(s, key, m, 0);
    assert t[0] in s;
    assert m <= k && k <= m;
  }

  /** Being sorted and a stable rearrangement determines the result: any stable sort, whatever
      its algorithm, returns the same list. */
  lemma {:induction false} StableSortUnique<T>(s: seq<T>, t: seq<T>, key: T -> int)
    requires Sorted(s, key) && Sorted(t, key) && StableRearrangement(s, t, key)
    ensures s == t
    decreases |s|
  {
    if s == [] {
      if t != [] {
        WithKeyNonempty(t, key, t[0]);
      }
    } else {
      SameFirst(s, t, key);
      forall k: int ensures WithKey(t[1..], key, k) == WithKey(s[1..], key, k) {
        assert WithKey(t, key, k) == WithKey(s, key, k);
        if key(s[0]) == k {
          assert WithKey(t[1..], key, k) == WithKey(t, key, k)[1..];
          assert WithKey(s[1..], key, k) == WithKey(s, key, k)[1..];
        }
      }
      StableSortUnique(s[1..], t[1..], key);
      assert s == [s[0]] + s[1..] && t == [t[0]] + t[1..];
    }
  }

  /** Sorting an already sorted list changes nothing. */
  lemma SortOfSorted<T>(s: seq<T>, key: T -> int)
    requires Sorted(s, key)
    ensures StableSort(s, key) == s
  {
    SortSorts(s, key);
    SortStable(s, key);
    StableSortUnique(s, StableSort(s, key), key);
  }

  /** The total of `f` over `s`. */
  function Total<T>(s: seq<T>, f: T -> int): int {
    if s == [] then 0 else f(s[0]) + Total(s[1..], f)
  }

  lemma {:induction false} InsertTotal<T>(x: T, s: seq<T>, key: T -> int, f: T -> int)
    ensures Total(Insert(x, s, key), f) == f(x) + Total(s, f)
  {
    if s == [] || key(x) <= key(s[0]) {
      assert ([x] + s)[1..] == s;
    } else {
      InsertTotal(x, s[1..], key, f);
      assert Insert(x, s, key)[1..] == Insert(x, s[1..], key);
    }
  }

  /** Sorting does not change any total taken over the elements. */
  lemma {:induction false} SortTotal<T>(s: seq<T>, key: T -> int, f: T -> int)
    ensures Total(StableSort(s, key), f) == Total(s, f)
  {
    if s == [] {
    } else {
      SortTotal(s[1..], key, f);
      InsertTotal(s[0], StableSort(s[1..], key), key, f);
    }
  }

  // ---- Order of equal elements ----

  /** Inserting moves what was there, but not past each other. */
  lemma {:induction false} InsertKeepsOrder<T>(x: T, s: seq<T>, key: T -> int, p: nat, q: nat)
    returns (p': nat, q': nat)
    requires p < q < |s|
    ensures p' < q' < |Insert(x, s, key)|
    ensures Insert(x, s, key)[p'] == s[p] && Insert(x, s, key)[q'] == s[q]
  {
    if key(x) <= key(s[0]) {
      p', q' := p + 1, q + 1;
    } else if p > 0 {
      p', q' := InsertKeepsOrder(x, s[1..], key, p - 1, q - 1);
      p', q' := p' + 1, q' + 1;
    } else {
      q' := InsertKeepsElement(x, s[1..], key, q - 1);
      p', q' := 0, q' + 1;
    }
  }

  lemma {:induction false} InsertKeepsElement<T>(x: T, s: seq<T>, key: T -> int, q: nat) returns (q': nat)
    requires q < |s|
    ensures q' < |Insert(x, s, key)| && Insert(x, s, key)[q'] == s[q]
  {
    if key(x) <= key(s[0]) {
      q' := q + 1;
    } else if q == 0 {
      q' := 0;
    } else {
      q' := InsertKeepsElement(x, s[1..], key, q - 1);
      q' := q' + 1;
    }
  }

  /** An element goes before everything that does not sort below it. */
  lemma {:induction false} InsertGoesBefore<T>(x: T, s: seq<T>, key: T -> int, q: nat) returns (p': nat, q': nat)
    requires q < |s| && key(x) <= key(s[q])
    ensures p' < q' < |Insert(x, s, key)|
    ensures Insert(x, s, key)[p'] == x && Insert(x, s, key)[q'] == s[q]
  {
    if key(x) <= key(s[0]) {
      p', q' := 0, q + 1;
    } else {
      p', q' := InsertGoesBefore(x, s[1..], key, q - 1);
      p', q' := p' + 1, q' + 1;
    }
  }

  /** An element that comes first and does not sort above another still comes first. */
  lemma {:induction false} SortKeepsOrder<T>(s: seq<T>, key: T -> int, i: nat, j: nat) returns (p: nat, q: nat)
    requires i < j < |s| && key(s[i]) <= key(s[j])
    ensures p < q < |StableSort(s, key)|
    ensures StableSort(s, key)[p] == s[i] && StableSort(s, key)[q] == s[j]
  {
    var rest := StableSort(s[1..], key);
    if i > 0 {
      p, q := SortKeepsOrder(s[1..], key, i - 1, j - 1);
      p, q := InsertKeepsOrder(s[0], rest, key, p, q);
    } else {
      SortSorts(s[1..], key);
      assert s[j] in multiset(rest) by {
        assert s[j] == s[1..][j - 1];
        assert s[1..][j - 1] in multiset(s[1..]);
      }
      q :| 0 <= q < |rest| && rest[q] == s[j];
      p, q := InsertGoesBefore(s[0], rest, key, q);
    }
  }
}
