/**
 * Lists of API records kept by `_id`: the `filter` that drops deleted
 * records and the `map` that swaps in a record returned by the server.
 * Ids are compared with `!==`/`===`; the model compares values structurally
 * (the ids are strings, for which the two agree).
 */
module Records {
  import opened Js

  function IdOf(record: Value): Value { Get(record, "_id") }

  /** `a` is `b` with some entries dropped, the rest in their order. */
  predicate Subsequence(a: seq<Value>, b: seq<Value>)
    decreases |b|
  {
    if a == [] then true
    else if b == [] then false
    else Subsequence(a, b[1..]) || (a[0] == b[0] && Subsequence(a[1..], b[1..]))
  }

  /** `xs.filter(x => x._id !== id)`. */
  function RemoveById(xs: seq<Value>, id: Value): (r: seq<Value>)
    ensures forall i :: 0 <= i < |r| ==> IdOf(r[i]) != id
    ensures forall x :: x in xs && IdOf(x) != id ==> x in r
    ensures forall x :: x in r ==> x in xs
    ensures Subsequence(r, xs)
    ensures |r| == |xs| - multiset(Ids(xs))[id]
  {
    if xs == [] then []
    else
      var rest := RemoveById(xs[1..], id);
      IdCountCons(xs, id);
      if IdOf(xs[0]) == id then
        rest
      else
        assert ([xs[0]] + rest)[1..] == rest;
        [xs[0]] + rest
  }

  /** The number of records with the id, split into the first record and the rest. */
  lemma IdCountCons(xs: seq<Value>, id: Value)
    requires xs != []
    ensures multiset(Ids(xs))[id] == multiset(Ids(xs[1..]))[id] + (if IdOf(xs[0]) == id then 1 else 0)
  {
    assert Ids(xs) == [IdOf(xs[0])] + Ids(xs[1..]);
  }

  function Ids(xs: seq<Value>): (r: seq<Value>)
    ensures |r| == |xs|
    ensures forall i :: 0 <= i < |xs| ==> r[i] == IdOf(xs[i])
  {
    seq(|xs|, i requires 0 <= i < |xs| => IdOf(xs[i]))
  }

  /** Deleting from a non-empty list: the first record stays exactly when its id differs. */
  lemma RemoveByIdCons(xs: seq<Value>, id: Value)
    requires xs != []
    ensures RemoveById(xs, id) ==
      (if IdOf(xs[0]) == id then RemoveById(xs[1..], id) else [xs[0]] + RemoveById(xs[1..], id))
  {
  }

  /** When no record has the id, deleting it changes nothing. */
  lemma {:induction false} RemoveAbsent(xs: seq<Value>, id: Value)
    requires forall i :: 0 <= i < |xs| ==> IdOf(xs[i]) != id
    ensures RemoveById(xs, id) == xs
  {
    if xs != [] {
      assert IdOf(xs[0]) != id;
      assert forall i :: 0 <= i < |xs[1..]| ==> IdOf(xs[1..][i]) != id;
      RemoveAbsent(xs[1..], id);
      RemoveByIdCons(xs, id);
      assert [xs[0]] + xs[1..] == xs;
    }
  }

  lemma {:induction false} RemoveIdempotent(xs: seq<Value>, id: Value)
    ensures RemoveById(RemoveById(xs, id), id) == RemoveById(xs, id)
  {
    RemoveAbsent(RemoveById(xs, id), id);
  }

  /** `xs.map(x => x._id === id ? y : x)`. */
  function ReplaceById(xs: seq<Value>, id: Value, y: Value): (r: seq<Value>)
    ensures |r| == |xs|
    ensures forall i :: 0 <= i < |xs| && IdOf(xs[i]) == id ==> r[i] == y
    ensures forall i :: 0 <= i < |xs| && IdOf(xs[i]) != id ==> r[i] == xs[i]
  {
    seq(|xs|, i requires 0 <= i < |xs| => if IdOf(xs[i]) == id then y else xs[i])
  }

  /**
   * Replacing by a record that keeps the id, then deleting that id, is the
   * same as deleting it: the other records survive both in order.
   */
  lemma {:induction false} ReplaceThenRemove(xs: seq<Value>, id: Value, y: Value)
    requires IdOf(y) == id
    ensures RemoveById(ReplaceById(xs, id, y), id) == RemoveById(xs, id)
  {
    if xs != [] {
      var r := ReplaceById(xs, id, y);
      assert r[1..] == ReplaceById(xs[1..], id, y);
      ReplaceThenRemove(xs[1..], id, y);
    }
  }

  /** When no record has the id, the replacement changes nothing. */
  lemma ReplaceAbsent(xs: seq<Value>, id: Value, y: Value)
    requires forall i :: 0 <= i < |xs| ==> IdOf(xs[i]) != id
    ensures ReplaceById(xs, id, y) == xs
  {
  }
}
