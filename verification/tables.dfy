/** Id-keyed tables and the two query-builder steps every listing is made of:
    a scan of a table and the `where` clauses that narrow it. */
module Tables {

  /** Primary keys are assigned by the store, starting at 1. */
  type Id = nat

  /** The rows of an id-keyed table whose key is below `bound`, in ascending key
      order. With `bound` the table's auto-increment counter this is a full scan. */
  function Rows<T(==)>(m: map<Id, T>, bound: nat): (r: seq<T>)
    ensures forall x :: x in r ==> x in m.Values
    ensures forall k :: k in m && k < bound ==> m[k] in r
  {
    if bound == 0 then []
    else Rows(m, bound - 1) + (if bound - 1 in m then [m[bound - 1]] else [])
  }

  /** A `where` clause: keeps, in order, exactly the rows that satisfy `p`. */
  function Filter<T(==)>(xs: seq<T>, p: T -> bool): (r: seq<T>)
    ensures |r| <= |xs|
    ensures forall x :: x in r ==> x in xs && p(x)
    ensures forall x :: x in xs && p(x) ==> x in r
  {
    if xs == [] then []
    else (if p(xs[0]) then [xs[0]] else []) + Filter(xs[1..], p)
  }

  /** Laravel's `when(guard, clause)`: the clause narrows the query only when
      the guard holds; otherwise the query is left as it is. */
  function When<T(==)>(guard: bool, xs: seq<T>, p: T -> bool): (r: seq<T>)
    ensures forall x :: x in r ==> x in xs && (guard ==> p(x))
    ensures forall x :: x in xs && (guard ==> p(x)) ==> x in r
  {
    if guard then Filter(xs, p) else xs
  }

  /** Two successive `where` clauses select what their conjunction selects, in
      the same order. */
  lemma {:induction false} FilterFuse<T>(xs: seq<T>, p: T -> bool, q: T -> bool)
    ensures Filter(Filter(xs, p), q) == Filter(xs, x => p(x) && q(x))
  {
    if xs != [] {
      FilterFuse(xs[1..], p, q);
      assert Filter(xs, p) == (if p(xs[0]) then [xs[0]] else []) + Filter(xs[1..], p);
      FilterAppend([xs[0]], Filter(xs[1..], p), q);
      FilterAppend([], Filter(xs[1..], p), q);
    }
  }

  /** Filtering distributes over concatenation. */
  lemma {:induction false} FilterAppend<T>(xs: seq<T>, ys: seq<T>, p: T -> bool)
    ensures Filter(xs + ys, p) == Filter(xs, p) + Filter(ys, p)
  {
    if xs != [] {
      assert (xs + ys)[1..] == xs[1..] + ys;
      FilterAppend(xs[1..], ys, p);
    } else {
      assert xs + ys == ys;
    }
  }

  /** A clause every row satisfies changes nothing. */
  lemma {:induction false} FilterKeepsAll<T>(xs: seq<T>, p: T -> bool)
    requires forall x :: x in xs ==> p(x)
    ensures Filter(xs, p) == xs
  {
    if xs != [] {
      FilterKeepsAll(xs[1..], p);
    }
  }

  /** Removing a subset of the keys removes exactly that many keys. */
  lemma {:induction false} RemoveCount<T>(whole: set<T>, part: set<T>)
    requires part <= whole
    ensures |whole - part| + |part| == |whole|
  {
    if part != {} {
      var x :| x in part;
      RemoveCount(whole - {x}, part - {x});
      assert (whole - {x}) - (part - {x}) == whole - part;
    }
  }

  /** Filters with pointwise-equal clauses select the same rows. */
  lemma {:induction false} FilterSameClause<T>(xs: seq<T>, p: T -> bool, q: T -> bool)
    requires forall x :: p(x) == q(x)
    ensures Filter(xs, p) == Filter(xs, q)
  {
    if xs != [] {
      FilterSameClause(xs[1..], p, q);
    }
  }

  /** A `when` on a full scan is a `where` whose clause holds trivially when
      the guard is off. */
  lemma WhenStarts<T>(xs: seq<T>, g: bool, p: T -> bool, m: T -> bool)
    requires forall x :: m(x) == (g ==> p(x))
    ensures When(g, xs, p) == Filter(xs, m)
  {
    if g {
      FilterSameClause(xs, p, m);
    } else {
      FilterKeepsAll(xs, m);
    }
  }

  /** A `when` after a `where` is one `where` on the conjunction. */
  lemma WhenNarrows<T>(xs: seq<T>, m: T -> bool, g: bool, p: T -> bool, m': T -> bool)
    requires forall x :: m'(x) == (m(x) && (g ==> p(x)))
    ensures When(g, Filter(xs, m), p) == Filter(xs, m')
  {
    if g {
      FilterFuse(xs, m, p);
      FilterSameClause(xs, x => m(x) && p(x), m');
    } else {
      FilterSameClause(xs, m, m');
    }
  }

  /** A sequence with no member is empty. */
  lemma NoMemberIsEmpty<T>(xs: seq<T>)
    ensures (forall x :: x !in xs) ==> xs == []
  {
    if xs != [] {
      assert xs[0] in xs;
    }
  }

  /** The keys of `xs` strictly increase: in particular no row appears twice. */
  predicate Ascending<T>(xs: seq<T>, key: T -> Id) {
    forall i, j :: 0 <= i < j < |xs| ==> key(xs[i]) < key(xs[j])
  }

  /** A scan of a table whose rows carry their own key lists them in strictly
      ascending key order, every key below the bound. */
  lemma {:induction false} RowsAscending<T>(m: map<Id, T>, bound: nat, key: T -> Id)
    requires forall k :: k in m ==> key(m[k]) == k
    ensures Ascending(Rows(m, bound), key)
    ensures forall i :: 0 <= i < |Rows(m, bound)| ==> key(Rows(m, bound)[i]) < bound
  {
    if bound > 0 {
      RowsAscending(m, bound - 1, key);
      var r := Rows(m, bound - 1);
      assert Rows(m, bound) == r + (if bound - 1 in m then [m[bound - 1]] else []);
    }
  }

  /** The first row of an ascending sequence has the smallest key. */
  lemma AscendingHead<T>(xs: seq<T>, key: T -> Id)
    requires xs != [] && Ascending(xs, key)
    ensures Ascending(xs[1..], key)
    ensures forall y :: y in xs[1..] ==> key(xs[0]) < key(y)
  {
    forall y | y in xs[1..]
      ensures key(xs[0]) < key(y)
    {
      var j :| 0 <= j < |xs[1..]| && xs[1..][j] == y;
      assert xs[j + 1] == y;
    }
  }

  /** A row whose key is below every key of an ascending sequence can be put
      in front of it. */
  lemma AscendingCons<T>(x: T, rest: seq<T>, key: T -> Id)
    requires Ascending(rest, key)
    requires forall y :: y in rest ==> key(x) < key(y)
    ensures Ascending([x] + rest, key)
  {
    var xs := [x] + rest;
    forall i, j | 0 <= i < j < |xs|
      ensures key(xs[i]) < key(xs[j])
    {
      assert xs[j] == rest[j - 1];
      if i == 0 {
        assert rest[j - 1] in rest;
      } else {
        assert xs[i] == rest[i - 1];
      }
    }
  }

  /** A `where` clause keeps the order of what it narrows. */
  lemma {:induction false} FilterAscending<T>(xs: seq<T>, p: T -> bool, key: T -> Id)
    requires Ascending(xs, key)
    ensures Ascending(Filter(xs, p), key)
  {
    if xs != [] {
      AscendingHead(xs, key);
      FilterAscending(xs[1..], p, key);
      var rest := Filter(xs[1..], p);
      assert Filter(xs, p) == (if p(xs[0]) then [xs[0]] else []) + rest;
      if p(xs[0]) {
        AscendingCons(xs[0], rest, key);
      } else {
        assert Filter(xs, p) == rest;
      }
    }
  }

  /** The keys of the rows of `xs`. */
  ghost function KeysOf<T>(xs: seq<T>, key: T -> Id): set<Id> {
    set x | x in xs :: key(x)
  }

  /** A sequence whose keys strictly ascend has as many distinct keys as it
      has rows. */
  lemma {:induction false} AscendingKeysCount<T>(xs: seq<T>, key: T -> Id)
    requires Ascending(xs, key)
    ensures |KeysOf(xs, key)| == |xs|
  {
    if xs != [] {
      var rest := xs[1..];
      AscendingHead(xs, key);
      AscendingKeysCount(rest, key);
      var ks := KeysOf(rest, key);
      assert key(xs[0]) !in ks;
      assert xs == [xs[0]] + rest;
      assert KeysOf(xs, key) == {key(xs[0])} + ks;
    }
  }
}
