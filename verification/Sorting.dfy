/** The stable sort of a list under a strict weak order. */
module Sorting {

  /** `less` never holds both ways, and "not less" is transitive. */
  ghost predicate IsOrder<T(!new)>(less: (T, T) -> bool) {
    && (forall x, y :: less(x, y) ==> !less(y, x))
    && (forall x, y, z :: !less(y, x) && !less(z, y) ==> !less(z, x))
  }

  ghost predicate IsSorted<T>(s: seq<T>, less: (T, T) -> bool) {
    forall i, j :: 0 <= i < j < |s| ==> !less(s[j], s[i])
  }

  /** `x` goes in front of everything that is not smaller. */
  function Insert<T>(x: T, s: seq<T>, less: (T, T) -> bool): seq<T> {
    if s == [] || !less(s[0], x) then [x] + s else [s[0]] + Insert(x, s[1..], less)
  }

  function StableSort<T>(s: seq<T>, less: (T, T) -> bool): seq<T> {
    if s == [] then [] else Insert(s[0], StableSort(s[1..], less), less)
  }

  lemma {:induction false} InsertKeepsAll<T>(x: T, s: seq<T>, less: (T, T) -> bool)
    ensures multiset(Insert(x, s, less)) == multiset{x} + multiset(s)
  {
    if s != [] && less(s[0], x) {
      InsertKeepsAll(x, s[1..], less);
      assert s == [s[0]] + s[1..];
    }
  }

  lemma {:induction false} InsertSorts<T(!new)>(x: T, s: seq<T>, less: (T, T) -> bool)
    requires IsOrder(less) && IsSorted(s, less)
    ensures IsSorted(Insert(x, s, less), less)
  {
    if s != [] && less(s[0], x) {
      InsertSorts(x, s[1..], less);
      var rest := Insert(x, s[1..], less);
      forall j | 0 <= j < |rest| ensures !less(rest[j], s[0]) {
        InsertKeepsAll(x, s[1..], less);
        assert rest[j] in multiset(rest);
        if rest[j] != x {
          assert rest[j] in s[1..];
        }
      }
    } else if s != [] {
      forall j | 0 <= j < |s| ensures !less(s[j], x) {
        assert j > 0 ==> !less(s[j], s[0]);
      }
    }
  }

  /** The result is sorted and holds exactly what the list held. */
  lemma {:induction false} SortSorts<T(!new)>(s: seq<T>, less: (T, T) -> bool)
    requires IsOrder(less)
    ensures IsSorted(StableSort(s, less), less)
    ensures multiset(StableSort(s, less)) == multiset(s)
    ensures |StableSort(s, less)| == |s|
  {
    if s != [] {
      SortSorts(s[1..], less);
      InsertSorts(s[0], StableSort(s[1..], less), less);
      InsertKeepsAll(s[0], StableSort(s[1..], less), less);
      assert s == [s[0]] + s[1..];
    }
    assert |multiset(StableSort(s, less))| == |multiset(s)|;
  }

  /** The elements of `s` that neither precede nor follow `x`. */
  function Ties<T>(s: seq<T>, x: T, less: (T, T) -> bool): seq<T> {
    if s == [] then []
    else if less(s[0], x) || less(x, s[0]) then Ties(s[1..], x, less)
    else [s[0]] + Ties(s[1..], x, less)
  }

  lemma {:induction false} InsertKeepsTies<T(!new)>(y: T, s: seq<T>, x: T, less: (T, T) -> bool)
    requires IsOrder(less)
    ensures Ties(Insert(y, s, less), x, less) == Ties([y] + s, x, less)
  {
    assert ([y] + s)[1..] == s;
    if s != [] && less(s[0], y) {
      InsertKeepsTies(y, s[1..], x, less);
      assert ([y] + s[1..])[1..] == s[1..];
      var t := Insert(y, s, less);
      assert t[1..] == Insert(y, s[1..], less);
    }
  }

  /** Elements that tie keep their order. */
  lemma {:induction false} SortIsStable<T(!new)>(s: seq<T>, x: T, less: (T, T) -> bool)
    requires IsOrder(less)
    ensures Ties(StableSort(s, less), x, less) == Ties(s, x, less)
  {
    if s != [] {
      SortIsStable(s[1..], x, less);
      InsertKeepsTies(s[0], StableSort(s[1..], less), x, less);
      assert ([s[0]] + StableSort(s[1..], less))[1..] == StableSort(s[1..], less);
    }
  }
}
