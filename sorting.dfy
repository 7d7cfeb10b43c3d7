/** Python's `sorted(xs, key=...)` for the integer-tuple keys the services
    sort ticket lines by, as a stable insertion sort. */
module Sorting {
  /** A sort key: a tuple of three integers. */
  datatype Key = Key(first: int, second: int, third: int)

  /** Tuple comparison: lexicographic. */
  predicate KeyLe(a: Key, b: Key) {
    a.first < b.first
    || (a.first == b.first && (a.second < b.second || (a.second == b.second && a.third <= b.third)))
  }

  predicate SortedBy<T>(s: seq<T>, key: T -> Key) {
    forall i, j :: 0 <= i < j < |s| ==> KeyLe(key(s[i]), key(s[j]))
  }

  /** Every element of `s` sorts no earlier than key `b`. */
  predicate LowerBound<T>(b: Key, s: seq<T>, key: T -> Key) {
    forall k :: 0 <= k < |s| ==> KeyLe(b, key(s[k]))
  }

  /** Inserts `x` after every element whose key is not greater, which keeps
      equal keys in arrival order. */
  function Insert<T(==)>(s: seq<T>, x: T, key: T -> Key): (r: seq<T>)
    ensures multiset(r) == multiset(s) + multiset{x}
    ensures |r| == |s| + 1
  {
    if |s| == 0 || !KeyLe(key(s[0]), key(x)) then [x] + s
    else
      assert s == [s[0]] + s[1..];
      [s[0]] + Insert(s[1..], x, key)
  }

  lemma {:induction false} InsertKeepsBound<T>(s: seq<T>, x: T, key: T -> Key, b: Key)
    requires LowerBound(b, s, key) && KeyLe(b, key(x))
    ensures LowerBound(b, Insert(s, x, key), key)
    decreases |s|
  {
    if |s| > 0 && KeyLe(key(s[0]), key(x)) {
      InsertKeepsBound(s[1..], x, key, b);
    }
  }

  lemma {:induction false} InsertSorted<T>(s: seq<T>, x: T, key: T -> Key)
    requires SortedBy(s, key)
    ensures SortedBy(Insert(s, x, key), key)
    decreases |s|
  {
    if |s| > 0 && KeyLe(key(s[0]), key(x)) {
      var rest := s[1..];
      InsertSorted(rest, x, key);
      InsertKeepsBound(rest, x, key, key(s[0]));
    } else {
      assert LowerBound(key(x), s, key) by {
        if |s| > 0 {
          forall k | 0 <= k < |s| ensures KeyLe(key(x), key(s[k])) {
            if k > 0 {
              assert KeyLe(key(s[0]), key(s[k]));
            }
          }
        }
      }
    }
  }

  /** `sorted(s, key=key)`. */
  function SortBy<T(==)>(s: seq<T>, key: T -> Key): (r: seq<T>)
    ensures |r| == |s|
  {
    if |s| == 0 then [] else Insert(SortBy(s[..|s| - 1], key), s[|s| - 1], key)
  }

  /** The result is ordered by the key and holds the input's elements, each
      as many times as the input does. */
  lemma {:induction false} SortByCorrect<T>(s: seq<T>, key: T -> Key)
    ensures SortedBy(SortBy(s, key), key)
    ensures multiset(SortBy(s, key)) == multiset(s)
    decreases |s|
  {
    if |s| > 0 {
      var init := s[..|s| - 1];
      SortByCorrect(init, key);
      InsertSorted(SortBy(init, key), s[|s| - 1], key);
      assert s == init + [s[|s| - 1]];
    }
  }

  lemma {:induction false} InsertAfterAll<T>(s: seq<T>, x: T, key: T -> Key)
    requires forall k :: 0 <= k < |s| ==> KeyLe(key(s[k]), key(x))
    ensures Insert(s, x, key) == s + [x]
    decreases |s|
  {
    if |s| > 0 {
      InsertAfterAll(s[1..], x, key);
      assert s == [s[0]] + s[1..];
    }
  }

  /** Input already in key order comes back unchanged. */
  lemma {:induction false} SortBySortedInput<T>(s: seq<T>, key: T -> Key)
    requires SortedBy(s, key)
    ensures SortBy(s, key) == s
    decreases |s|
  {
    if |s| > 0 {
      var init := s[..|s| - 1];
      SortBySortedInput(init, key);
      InsertAfterAll(init, s[|s| - 1], key);
    }
  }
}
