// Events of one run in sequence order: the filter and the sort behind
// SELECT ... WHERE run_id = ? ORDER BY sequence, and behind AuditService's in-memory
// filter(...).sort(...).

module EventOrder {

  function Where<T, K(==)>(rows: seq<T>, keyOf: T -> K, k: K): seq<T> {
    if rows == [] then []
    else
      var last := rows[|rows| - 1];
      Where(rows[..|rows| - 1], keyOf, k) + if keyOf(last) == k then [last] else []
  }

  /** After everything that is not greater. */
  function InsertBy<T>(sorted: seq<T>, r: T, number: T -> int): seq<T> {
    if sorted == [] || number(sorted[|sorted| - 1]) <= number(r) then sorted + [r]
    else InsertBy(sorted[..|sorted| - 1], r, number) + [sorted[|sorted| - 1]]
  }

  function OrderBy<T>(rows: seq<T>, number: T -> int): seq<T> {
    if rows == [] then [] else InsertBy(OrderBy(rows[..|rows| - 1], number), rows[|rows| - 1], number)
  }

  lemma WherePush<T, K>(rows: seq<T>, r: T, keyOf: T -> K, k: K)
    ensures Where(rows + [r], keyOf, k) == if keyOf(r) == k then Where(rows, keyOf, k) + [r] else Where(rows, keyOf, k)
  {
    assert (rows + [r])[..|rows|] == rows;
  }

  /** Where the filter puts a row. */
  lemma {:induction false} WhereFinds<T, K>(rows: seq<T>, keyOf: T -> K, i: nat) returns (k: nat)
    requires i < |rows|
    ensures k < |Where(rows, keyOf, keyOf(rows[i]))| && Where(rows, keyOf, keyOf(rows[i]))[k] == rows[i]
  {
    if i == |rows| - 1 {
      k := |Where(rows, keyOf, keyOf(rows[i]))| - 1;
    } else {
      k := WhereFinds(rows[..|rows| - 1], keyOf, i);
    }
  }

  predicate Ordered<T>(rows: seq<T>, number: T -> int) {
    forall i, j :: 0 <= i < j < |rows| ==> number(rows[i]) <= number(rows[j])
  }

  lemma {:induction false} InsertContents<T>(sorted: seq<T>, r: T, number: T -> int)
    ensures multiset(InsertBy(sorted, r, number)) == multiset(sorted) + multiset{r}
  {
    if sorted != [] && number(sorted[|sorted| - 1]) > number(r) {
      InsertContents(sorted[..|sorted| - 1], r, number);
      assert sorted == sorted[..|sorted| - 1] + [sorted[|sorted| - 1]];
    }
  }

  ghost predicate AtMost<T>(rows: seq<T>, bound: int, number: T -> int) {
    forall i :: 0 <= i < |rows| ==> number(rows[i]) <= bound
  }

  lemma OrderedPush<T>(rows: seq<T>, last: T, number: T -> int)
    requires Ordered(rows, number) && AtMost(rows, number(last), number)
    ensures Ordered(rows + [last], number)
  {
  }

  lemma {:induction false} InsertSorts<T>(sorted: seq<T>, r: T, number: T -> int, bound: int)
    requires Ordered(sorted, number) && AtMost(sorted, bound, number) && number(r) <= bound
    ensures Ordered(InsertBy(sorted, r, number), number) && AtMost(InsertBy(sorted, r, number), bound, number)
  {
    if sorted == [] {
    } else if number(sorted[|sorted| - 1]) <= number(r) {
      assert AtMost(sorted, number(r), number);
      hide Ordered;
      OrderedPush(sorted, r, number);
    } else {
      var init, last := sorted[..|sorted| - 1], sorted[|sorted| - 1];
      assert AtMost(init, number(last), number) && Ordered(init, number);
      InsertSorts(init, r, number, number(last));
      hide Ordered;
      OrderedPush(InsertBy(init, r, number), last, number);
    }
  }

  lemma {:induction false} HasBound<T>(rows: seq<T>, r: T, number: T -> int) returns (bound: int)
    ensures AtMost(rows, bound, number) && number(r) <= bound
  {
    bound := number(r);
    if rows != [] {
      bound := HasBound(rows[..|rows| - 1], r, number);
      if bound < number(rows[|rows| - 1]) {
        bound := number(rows[|rows| - 1]);
      }
    }
  }

  /** The order of the verifiers' query: the same rows, by sequence. */
  lemma {:induction false} OrderSorts<T>(rows: seq<T>, number: T -> int)
    ensures Ordered(OrderBy(rows, number), number) && multiset(OrderBy(rows, number)) == multiset(rows)
  {
    if rows != [] {
      var init, last := rows[..|rows| - 1], rows[|rows| - 1];
      OrderSorts(init, number);
      assert rows == init + [last];
      var bound := HasBound(OrderBy(init, number), last, number);
      hide InsertBy, Ordered;
      InsertContents(OrderBy(init, number), last, number);
      InsertSorts(OrderBy(init, number), last, number, bound);
    }
  }

  lemma InsertAtEnd<T>(sorted: seq<T>, r: T, number: T -> int)
    requires sorted == [] || number(sorted[|sorted| - 1]) <= number(r)
    ensures InsertBy(sorted, r, number) == sorted + [r]
  {
  }

  lemma OrderStep<T>(rows: seq<T>, number: T -> int)
    requires rows != []
    ensures OrderBy(rows, number) == InsertBy(OrderBy(rows[..|rows| - 1], number), rows[|rows| - 1], number)
  {
    hide InsertBy;
  }

  /** Rows already numbered 1, 2, ... stay as they are. */
  lemma {:induction false} NumberedIsOrdered<T>(rows: seq<T>, number: T -> int)
    requires forall i :: 0 <= i < |rows| ==> number(rows[i]) == i + 1
    ensures OrderBy(rows, number) == rows
  {
    if rows != [] {
      var init := rows[..|rows| - 1];
      OrderStep(rows, number);
      assert rows == init + [rows[|rows| - 1]];
      hide OrderBy, InsertBy;
      NumberedIsOrdered(init, number);
      InsertAtEnd(init, rows[|rows| - 1], number);
    }
  }
}
