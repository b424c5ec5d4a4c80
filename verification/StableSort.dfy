/** sort.Slice / sort.SliceStable, as an insertion sort on sequences. */
module StableSort {

  /** `less` orders by a key that can be compared: no two elements precede each other, and
      what does not precede is transitive. */
  ghost predicate StrictWeak<T(!new)>(less: (T, T) -> bool) {
    && (forall a, b :: less(a, b) ==> !less(b, a))
    && (forall a, b, c :: !less(a, b) && !less(b, c) ==> !less(a, c))
  }

  ghost predicate Sorted<T>(s: seq<T>, less: (T, T) -> bool) {
    forall i, j :: 0 <= i < j < |s| ==> !less(s[j], s[i])
  }

  function Insert<T>(x: T, s: seq<T>, less: (T, T) -> bool): (r: seq<T>)
    ensures |r| == |s| + 1
  {
    if s == [] || !less(s[0], x) then [x] + s else [s[0]] + Insert(x, s[1..], less)
  }

  function Sort<T>(s: seq<T>, less: (T, T) -> bool): (r: seq<T>)
    ensures |r| == |s|
  {
    if s == [] then [] else Insert(s[0], Sort(s[1..], less), less)
  }

  lemma {:induction false} InsertKeepsElements<T>(x: T, s: seq<T>, less: (T, T) -> bool)
    ensures multiset(Insert(x, s, less)) == multiset([x] + s)
    decreases |s|
  {
    if s != [] && less(s[0], x) {
      InsertKeepsElements(x, s[1..], less);
      assert s == [s[0]] + s[1..];
    }
  }

  lemma {:induction false} SortIsPermutation<T>(s: seq<T>, less: (T, T) -> bool)
    ensures multiset(Sort(s, less)) == multiset(s)
    decreases |s|
  {
    if s != [] {
      SortIsPermutation(s[1..], less);
      InsertKeepsElements(s[0], Sort(s[1..], less), less);
      assert s == [s[0]] + s[1..];
    }
  }

  lemma {:induction false} InsertKeepsSorted<T(!new)>(x: T, s: seq<T>, less: (T, T) -> bool)
    requires StrictWeak(less) && Sorted(s, less)
    ensures Sorted(Insert(x, s, less), less)
    decreases |s|
  {
    if s != [] && less(s[0], x) {
      var rest := Insert(x, s[1..], less);
      InsertKeepsSorted(x, s[1..], less);
      InsertKeepsElements(x, s[1..], less);
      forall j | 0 <= j < |rest| ensures !less(rest[j], s[0]) {
        assert rest[j] in multiset(rest);
        assert rest[j] in [x] + s[1..];
      }
    } else {
      forall j | 0 <= j < |s| ensures !less(s[j], x) {
        assert j > 0 ==> !less(s[j], s[0]);
      }
    }
  }

  lemma {:induction false} SortIsSorted<T(!new)>(s: seq<T>, less: (T, T) -> bool)
    requires StrictWeak(less)
    ensures Sorted(Sort(s, less), less)
    decreases |s|
  {
    if s != [] {
      SortIsSorted(s[1..], less);
      InsertKeepsSorted(s[0], Sort(s[1..], less), less);
    }
  }

  /** Stability: among the elements a predicate cannot tell apart in the order, the original
      sequence is kept. */
  function Select<T>(s: seq<T>, p: T -> bool): seq<T> {
    if s == [] then [] else (if p(s[0]) then [s[0]] else []) + Select(s[1..], p)
  }

  lemma {:induction false} InsertIsStable<T(!new)>(x: T, s: seq<T>, less: (T, T) -> bool, p: T -> bool)
    requires forall a, b :: p(a) && p(b) ==> !less(a, b)
    ensures Select(Insert(x, s, less), p) == (if p(x) then [x] else []) + Select(s, p)
    decreases |s|
  {
    if s != [] && less(s[0], x) {
      InsertIsStable(x, s[1..], less, p);
      assert Insert(x, s, less)[1..] == Insert(x, s[1..], less);
    } else {
      assert Insert(x, s, less)[1..] == s;
    }
  }

  lemma {:induction false} SortIsStable<T(!new)>(s: seq<T>, less: (T, T) -> bool, p: T -> bool)
    requires forall a, b :: p(a) && p(b) ==> !less(a, b)
    ensures Select(Sort(s, less), p) == Select(s, p)
    decreases |s|
  {
    if s != [] {
      SortIsStable(s[1..], less, p);
      InsertIsStable(s[0], Sort(s[1..], less), less, p);
    }
  }
}
