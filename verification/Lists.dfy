// What several parts need of lists: the longest common prefix, and sorting.
module Lists {

  // ----- the longest common prefix -----

  function MatchLength(a: seq<int>, b: seq<int>): (n: nat)
    ensures n <= |a| && n <= |b|
    ensures a[..n] == b[..n]
    ensures n < |a| && n < |b| ==> a[n] != b[n]
  {
    if a == [] || b == [] || a[0] != b[0] then 0
    else
      var n := MatchLength(a[1..], b[1..]);
      assert a[..n + 1] == [a[0]] + a[1..][..n] && b[..n + 1] == [b[0]] + b[1..][..n];
      n + 1
  }

  lemma {:induction false} MatchIsUnique(a: seq<int>, b: seq<int>, n: nat)
    requires n <= |a| && n <= |b| && a[..n] == b[..n]
    requires n == |a| || n == |b| || a[n] != b[n]
    ensures n == MatchLength(a, b)
  {
    if n == 0 {
    } else {
      assert a[..n][0] == b[..n][0];
      assert a[1..][..n - 1] == a[..n][1..] && b[1..][..n - 1] == b[..n][1..];
      MatchIsUnique(a[1..], b[1..], n - 1);
    }
  }

  lemma MatchIsWhole(a: seq<int>, b: seq<int>)
    ensures MatchLength(a, b) == |a| <==> a <= b
    ensures MatchLength(a, b) == |a| == |b| <==> a == b
  {
    var n := MatchLength(a, b);
    assert a[..|a|] == a && b[..|b|] == b;
    if a <= b {
      MatchIsUnique(a, b, |a|);
    }
  }

  // ----- sorting -----

  type Order<!T> = (T, T) -> bool

  function Insert<T>(x: T, s: seq<T>, less: Order<T>): seq<T> {
    if s == [] || !less(s[0], x) then [x] + s else [s[0]] + Insert(x, s[1..], less)
  }

  function Sort<T>(s: seq<T>, less: Order<T>): seq<T> {
    if s == [] then [] else Insert(s[0], Sort(s[1..], less), less)
  }

  ghost predicate Sorted<T>(s: seq<T>, less: Order<T>) {
    forall i, j :: 0 <= i < j < |s| ==> less(s[i], s[j])
  }

  ghost predicate Distinct<T>(s: seq<T>) {
    forall i, j :: 0 <= i < j < |s| ==> s[i] != s[j]
  }

  // A strict total order on a set of elements.
  ghost predicate Orders<T(!new)>(less: Order<T>, all: set<T>) {
    && (forall x :: x in all ==> !less(x, x))
    && (forall x, y :: x in all && y in all && x != y ==> less(x, y) || less(y, x))
    && (forall x, y, z :: x in all && y in all && z in all && less(x, y) && less(y, z) ==> less(x, z))
  }

  ghost predicate Among<T>(s: seq<T>, all: set<T>) {
    forall i :: 0 <= i < |s| ==> s[i] in all
  }

  lemma {:induction false} InsertKeeps<T>(x: T, s: seq<T>, less: Order<T>)
    ensures |Insert(x, s, less)| == |s| + 1
    ensures forall y :: y in Insert(x, s, less) <==> y == x || y in s
  {
    if s == [] {
    } else {
      InsertKeeps(x, s[1..], less);
      assert s == [s[0]] + s[1..];
    }
  }

  lemma {:induction false} SortKeeps<T>(s: seq<T>, less: Order<T>)
    ensures |Sort(s, less)| == |s|
    ensures forall x :: x in Sort(s, less) <==> x in s
  {
    if s == [] {
    } else {
      SortKeeps(s[1..], less);
      InsertKeeps(s[0], Sort(s[1..], less), less);
      assert s == [s[0]] + s[1..];
    }
  }

  lemma InFront<T>(x: T, s: seq<T>, less: Order<T>)
    requires Sorted(s, less) && forall y :: y in s ==> less(x, y)
    ensures Sorted([x] + s, less)
  {
  }

  lemma {:induction false} InsertSorts<T(!new)>(x: T, s: seq<T>, less: Order<T>, all: set<T>)
    requires Sorted(s, less) && x !in s && Orders(less, all) && x in all && Among(s, all)
    ensures Sorted(Insert(x, s, less), less)
  {
    if s == [] {
    } else if !less(s[0], x) {
      forall y | y in s
        ensures less(x, y)
      {
        var j: nat :| j < |s| && s[j] == y;
        assert s[0] in s && less(x, s[0]);
        assert s[0] in all && s[j] in all && (j > 0 ==> less(s[0], s[j]));
      }
      InFront(x, s, less);
    } else {
      InsertSorts(x, s[1..], less, all);
      InsertKeeps(x, s[1..], less);
      InFront(s[0], Insert(x, s[1..], less), less);
    }
  }

  lemma {:induction false} SortSorts<T(!new)>(s: seq<T>, less: Order<T>, all: set<T>)
    requires Distinct(s) && Orders(less, all) && Among(s, all)
    ensures Sorted(Sort(s, less), less)
  {
    if s == [] {
    } else {
      SortSorts(s[1..], less, all);
      SortKeeps(s[1..], less);
      forall i | 0 <= i < |Sort(s[1..], less)|
        ensures Sort(s[1..], less)[i] in all
      {
        assert Sort(s[1..], less)[i] in s[1..];
      }
      InsertSorts(s[0], Sort(s[1..], less), less, all);
    }
  }

  lemma EmptyTogether<T>(a: seq<T>, b: seq<T>)
    requires forall x :: x in a <==> x in b
    ensures a == [] <==> b == []
  {
    if |a| > 0 {
      assert a[0] in a;
    }
    if |b| > 0 {
      assert b[0] in b;
    }
  }

  lemma SameHead<T(!new)>(a: seq<T>, b: seq<T>, less: Order<T>, all: set<T>)
    requires Sorted(a, less) && Sorted(b, less) && Orders(less, all) && Among(a, all)
    requires a != [] && b != [] && forall x :: x in a <==> x in b
    ensures a[0] == b[0]
  {
    assert a[0] in b && b[0] in a;
  }

  lemma InTail<T(!new)>(a: seq<T>, less: Order<T>, all: set<T>, x: T)
    requires Sorted(a, less) && Orders(less, all) && Among(a, all) && a != []
    ensures x in a[1..] <==> x in a && x != a[0]
  {
    assert a == [a[0]] + a[1..] && a[0] in all;
  }

  // Sorted lists of the same elements are the same list.
  lemma {:induction false} SortedUnique<T(!new)>(a: seq<T>, b: seq<T>, less: Order<T>, all: set<T>)
    requires Sorted(a, less) && Sorted(b, less) && Orders(less, all) && Among(a, all)
    requires forall x :: x in a <==> x in b
    ensures a == b
  {
    EmptyTogether(a, b);
    if a == [] {
    } else {
      SameHead(a, b, less, all);
      forall i | 0 <= i < |b|
        ensures b[i] in all
      {
        assert b[i] in a;
      }
      forall x
        ensures x in a[1..] <==> x in b[1..]
      {
        InTail(a, less, all, x);
        InTail(b, less, all, x);
      }
      SortedUnique(a[1..], b[1..], less, all);
      assert a == [a[0]] + a[1..] && b == [b[0]] + b[1..];
    }
  }
}
