/** Stable sorting by an integer key, as Python's `sorted` and JavaScript's `sort` do it. */
module StableSort {

  function Insert<T>(key: T -> int, x: T, s: seq<T>): seq<T> {
    if s == [] || key(x) <= key(s[0]) then [x] + s else [s[0]] + Insert(key, x, s[1..])
  }

  function Sort<T>(key: T -> int, s: seq<T>): seq<T> {
    if s == [] then [] else Insert(key, s[0], Sort(key, s[1..]))
  }

  predicate Sorted<T>(key: T -> int, s: seq<T>) {
    forall i, j | 0 <= i < j < |s| :: key(s[i]) <= key(s[j])
  }

  /** A list that is in order already is left alone. */
  lemma {:induction false} SortSorted<T>(key: T -> int, s: seq<T>)
    requires Sorted(key, s)
    ensures Sort(key, s) == s
  {
    if s != [] {
      SortSorted(key, s[1..]);
      assert s == [s[0]] + s[1..];
      if |s| > 1 {
        assert key(s[0]) <= key(s[1]);
      }
    }
  }

  lemma {:induction false} InsertMultiset<T>(key: T -> int, x: T, s: seq<T>)
    ensures multiset(Insert(key, x, s)) == multiset(s) + multiset{x}
  {
    if s != [] && key(x) > key(s[0]) {
      InsertMultiset(key, x, s[1..]);
      assert s == [s[0]] + s[1..];
    }
  }

  lemma {:induction false} SortMultiset<T>(key: T -> int, s: seq<T>)
    ensures multiset(Sort(key, s)) == multiset(s)
  {
    if s != [] {
      SortMultiset(key, s[1..]);
      InsertMultiset(key, s[0], Sort(key, s[1..]));
      assert s == [s[0]] + s[1..];
    }
  }

  lemma {:induction false} InsertSorted<T>(key: T -> int, x: T, s: seq<T>)
    requires Sorted(key, s)
    ensures Sorted(key, Insert(key, x, s))
  {
    if s != [] && key(x) > key(s[0]) {
      InsertSorted(key, x, s[1..]);
      InsertMultiset(key, x, s[1..]);
      var rest := Insert(key, x, s[1..]);
      forall j | 0 <= j < |rest|
        ensures key(s[0]) <= key(rest[j])
      {
        assert rest[j] in multiset(rest);
        assert rest[j] == x || rest[j] in s[1..];
      }
    }
  }

  lemma {:induction false} SortSorts<T>(key: T -> int, s: seq<T>)
    ensures Sorted(key, Sort(key, s))
  {
    if s != [] {
      SortSorts(key, s[1..]);
      InsertSorted(key, s[0], Sort(key, s[1..]));
    }
  }

  // ---- Sorting by parts --------------------------------------------------------------------

  /** The elements whose key is at most `t`, in their order. */
  function UpTo<T>(key: T -> int, s: seq<T>, t: int): (r: seq<T>)
    ensures forall x | x in r :: x in s && key(x) <= t
  {
    if s == [] then [] else (if key(s[0]) <= t then [s[0]] else []) + UpTo(key, s[1..], t)
  }

  function After<T>(key: T -> int, s: seq<T>, t: int): (r: seq<T>)
    ensures forall x | x in r :: x in s && key(x) > t
  {
    if s == [] then [] else (if key(s[0]) > t then [s[0]] else []) + After(key, s[1..], t)
  }

  lemma {:induction false} InsertLeft<T>(key: T -> int, x: T, a: seq<T>, b: seq<T>)
    requires forall i | 0 <= i < |b| :: key(x) <= key(b[i])
    ensures Insert(key, x, a + b) == Insert(key, x, a) + b
  {
    if a == [] {
      assert a + b == b;
    } else if key(x) > key(a[0]) {
      assert (a + b)[1..] == a[1..] + b;
      InsertLeft(key, x, a[1..], b);
    }
  }

  lemma {:induction false} InsertRight<T>(key: T -> int, x: T, a: seq<T>, b: seq<T>)
    requires forall i | 0 <= i < |a| :: key(x) > key(a[i])
    ensures Insert(key, x, a + b) == a + Insert(key, x, b)
  {
    if a == [] {
      assert a + b == b;
    } else {
      assert (a + b)[1..] == a[1..] + b;
      InsertRight(key, x, a[1..], b);
    }
  }

  /** Sorting puts the elements up to `t` first, sorted by themselves: later ones cannot disturb them. */
  lemma {:induction false} SortSplits<T>(key: T -> int, s: seq<T>, t: int)
    ensures Sort(key, s) == Sort(key, UpTo(key, s, t)) + Sort(key, After(key, s, t))
  {
    if s != [] {
      SortSplits(key, s[1..], t);
      if key(s[0]) <= t {
        InsertLow(key, s[0], UpTo(key, s[1..], t), After(key, s[1..], t), t);
      } else {
        InsertHigh(key, s[0], UpTo(key, s[1..], t), After(key, s[1..], t), t);
      }
    }
  }

  lemma SortElements<T>(key: T -> int, s: seq<T>, i: nat)
    requires i < |Sort(key, s)|
    ensures Sort(key, s)[i] in s
  {
    SortMultiset(key, s);
    assert Sort(key, s)[i] in multiset(Sort(key, s));
    assert Sort(key, s)[i] in multiset(s);
  }

  lemma InsertLow<T>(key: T -> int, x: T, low: seq<T>, high: seq<T>, t: int)
    requires key(x) <= t && forall y | y in high :: key(y) > t
    ensures Insert(key, x, Sort(key, low) + Sort(key, high)) == Sort(key, [x] + low) + Sort(key, [] + high)
  {
    forall i | 0 <= i < |Sort(key, high)|
      ensures key(x) <= key(Sort(key, high)[i])
    {
      SortElements(key, high, i);
    }
    InsertLeft(key, x, Sort(key, low), Sort(key, high));
    assert ([x] + low)[1..] == low && [] + high == high;
  }

  lemma InsertHigh<T>(key: T -> int, x: T, low: seq<T>, high: seq<T>, t: int)
    requires key(x) > t && forall y | y in low :: key(y) <= t
    ensures Insert(key, x, Sort(key, low) + Sort(key, high)) == Sort(key, [] + low) + Sort(key, [x] + high)
  {
    forall i | 0 <= i < |Sort(key, low)|
      ensures key(x) > key(Sort(key, low)[i])
    {
      SortElements(key, low, i);
    }
    InsertRight(key, x, Sort(key, low), Sort(key, high));
    assert ([x] + high)[1..] == high && [] + low == low;
  }
}
