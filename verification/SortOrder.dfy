/**
 Sort keys. Each call of OrderBy adds an arrangement; one after the other they sort by the first key, then by the
 second, and so on.
 */
module SortOrder {
  import opened QueryPlan
  import opened Builders

  type Comparison<!R> = (R, R) -> bool

  ghost predicate Preorder<R(!new)>(le: Comparison<R>) {
    && (forall x, y :: le(x, y) || le(y, x))
    && (forall x, y, z :: le(x, y) && le(y, z) ==> le(x, z))
  }

  /** First by one key, and where that does not tell two rows apart by the other. */
  ghost function ByBoth<R>(first: Comparison<R>, next: Comparison<R>): Comparison<R> {
    (x: R, y: R) => first(x, y) && (first(y, x) ==> next(x, y))
  }

  ghost predicate SortedBy<R>(rows: seq<R>, le: Comparison<R>) {
    forall i, j :: 0 <= i < j < |rows| ==> le(rows[i], rows[j])
  }

  /** The rows that compare equal to `x`, in order. */
  ghost function Ties<R>(rows: seq<R>, le: Comparison<R>, x: R): seq<R> {
    if rows == [] then []
    else
      var n := |rows| - 1;
      Ties(rows[..n], le, x) + if Tie(le, x, rows[n]) then [rows[n]] else []
  }

  /** A stable sort: a rearrangement, sorted, that keeps rows that compare equal in their order. */
  ghost predicate Sorts<R(!new)>(order: seq<R> -> seq<R>, le: Comparison<R>) {
    Rearranges(order) && (forall t :: SortedBy(order(t), le)) && forall t, x :: Ties(order(t), le, x) == Ties(t, le, x)
  }

  ghost predicate Tie<R>(le: Comparison<R>, x: R, y: R) {
    le(x, y) && le(y, x)
  }

  /** The ties by two keys are the ties by one among the ties by the other. */
  lemma {:induction false} TiesTwice<R>(rows: seq<R>, both: Comparison<R>, one: Comparison<R>, other: Comparison<R>, x: R)
    requires forall r :: r in rows ==> (Tie(both, x, r) <==> Tie(one, x, r) && Tie(other, x, r))
    ensures Ties(rows, both, x) == Ties(Ties(rows, one, x), other, x)
  {
    if rows != [] {
      var n := |rows| - 1;
      assert rows[n] in rows;
      TiesTwice(rows[..n], both, one, other, x);
      if Tie(one, x, rows[n]) {
        TiesSnoc(Ties(rows[..n], one, x), rows[n], other, x);
      } else {
        assert Ties(rows, one, x) == Ties(rows[..n], one, x);
      }
    }
  }

  lemma TiesOfBoth<R>(rows: seq<R>, first: Comparison<R>, next: Comparison<R>, x: R)
    ensures Ties(rows, ByBoth(first, next), x) == Ties(Ties(rows, first, x), next, x)
    ensures Ties(rows, ByBoth(first, next), x) == Ties(Ties(rows, next, x), first, x)
  {
    TiesTwice(rows, ByBoth(first, next), first, next, x);
    TiesTwice(rows, ByBoth(first, next), next, first, x);
  }

  lemma TiesSnoc<R>(rows: seq<R>, r: R, le: Comparison<R>, x: R)
    ensures Ties(rows + [r], le, x) == Ties(rows, le, x) + if Tie(le, x, r) then [r] else []
  {
    assert (rows + [r])[..|rows|] == rows;
  }

  /** Part of a sorted list is sorted. */
  lemma {:induction false} TiesSorted<R>(rows: seq<R>, le: Comparison<R>, other: Comparison<R>, x: R)
    requires SortedBy(rows, other)
    ensures SortedBy(Ties(rows, le, x), other)
    ensures forall r :: r in Ties(rows, le, x) ==> r in rows
  {
    if rows != [] {
      var n := |rows| - 1;
      TiesSorted(rows[..n], le, other, x);
      assert rows == rows[..n] + [rows[n]];
      forall r | r in Ties(rows[..n], le, x) ensures other(r, rows[n]) {
        var i :| 0 <= i < n && rows[i] == r;
      }
    }
  }

  /** A row that compares equal to `x` is among its ties. */
  lemma {:induction false} TieListed<R>(rows: seq<R>, le: Comparison<R>, x: R, i: nat)
    requires i < |rows| && Tie(le, x, rows[i])
    ensures rows[i] in Ties(rows, le, x)
  {
    if i < |rows| - 1 {
      TieListed(rows[..|rows| - 1], le, x, i);
    }
  }

  /** Two rows that compare equal to `x` are listed in their order. */
  lemma {:induction false} TiesInOrder<R>(rows: seq<R>, le: Comparison<R>, x: R, i: nat, j: nat) returns (p: nat, q: nat)
    requires i < j < |rows| && Tie(le, x, rows[i]) && Tie(le, x, rows[j])
    ensures p < q < |Ties(rows, le, x)| && Ties(rows, le, x)[p] == rows[i] && Ties(rows, le, x)[q] == rows[j]
  {
    var n := |rows| - 1;
    if j < n {
      p, q := TiesInOrder(rows[..n], le, x, i, j);
    } else {
      var before := Ties(rows[..n], le, x);
      TieListed(rows[..n], le, x, i);
      p :| 0 <= p < |before| && before[p] == rows[i];
      q := |before|;
    }
  }

  /**
   Adding a sort key keeps the earlier ones dominant: arrangements that sort stably by two keys make one that sorts
   stably by both, the first key first; so for any number of keys.
   */
  lemma ThenSorts<R(!new)>(first: seq<R> -> seq<R>, next: seq<R> -> seq<R>, a: Comparison<R>, b: Comparison<R>)
    requires Sorts(first, a) && Sorts(next, b) && Preorder(a)
    ensures Sorts(Then(first, next), ByBoth(a, b))
  {
    forall t ensures multiset(Then(first, next)(t)) == multiset(t) {
      assert multiset(first(next(t))) == multiset(next(t)) == multiset(t);
    }
    forall t ensures SortedBy(Then(first, next)(t), ByBoth(a, b)) {
      BothSorted(first(next(t)), next(t), a, b);
    }
    forall t, x ensures Ties(Then(first, next)(t), ByBoth(a, b), x) == Ties(t, ByBoth(a, b), x) {
      TiesOfBoth(first(next(t)), a, b, x);
      TiesOfBoth(next(t), a, b, x);
      TiesOfBoth(t, a, b, x);
      assert Ties(first(next(t)), a, x) == Ties(next(t), a, x) && Ties(next(t), b, x) == Ties(t, b, x);
    }
  }

  lemma BothSorted<R(!new)>(rows: seq<R>, was: seq<R>, a: Comparison<R>, b: Comparison<R>)
    requires SortedBy(rows, a) && SortedBy(was, b) && Preorder(a) && forall x :: Ties(rows, a, x) == Ties(was, a, x)
    ensures SortedBy(rows, ByBoth(a, b))
  {
    forall i, j | 0 <= i < j < |rows| && a(rows[j], rows[i]) ensures b(rows[i], rows[j]) {
      var p, q := TiesInOrder(rows, a, rows[i], i, j);
      TiesSorted(was, a, b, rows[i]);
    }
  }

  /** Both keys together are a preorder again. */
  lemma BothPreorder<R(!new)>(a: Comparison<R>, b: Comparison<R>)
    requires Preorder(a) && Preorder(b)
    ensures Preorder(ByBoth(a, b))
  {
  }

  // ----- builders straight from the client

  /** Without a sort key the arrangement is the table's, and the plan is lawful, unpaged and unfiltered but for its traversers. */
  lemma InitialArranges<R(!new)>(inters: seq<Inter<R>>)
    ensures Lawful(Initial(inters)) && Unpaged(Initial(inters)) && Initial(inters).inters == inters
    ensures Initial(inters).fields == [] && Initial(inters).preds == [] && forall t :: Initial(inters).order(t) == t
  {
  }

  /** The first sort key alone decides. */
  lemma FirstKeySorts<R(!new)>(inters: seq<Inter<R>>, order: seq<R> -> seq<R>, le: Comparison<R>)
    requires Sorts(order, le)
    ensures Sorts(Then(Initial(inters).order, order), le)
  {
    forall t ensures Then(Initial(inters).order, order)(t) == order(t) {
      InitialArranges(inters);
    }
  }

  /** Adding a key keeps an arrangement one. */
  lemma ThenRearranges<R(!new)>(first: seq<R> -> seq<R>, next: seq<R> -> seq<R>)
    requires Rearranges(first) && Rearranges(next)
    ensures Rearranges(Then(first, next))
  {
    forall t ensures multiset(Then(first, next)(t)) == multiset(t) {
      assert multiset(first(next(t))) == multiset(next(t)) == multiset(t);
    }
  }
}
