/**
 * What pushing updates through the cells computes: the plain evaluation of the dependency graph, whatever the
 * order in which the outcomes arrive, exactly when the logic of every derived cell is monotone.
 */
module Propagation {
  import opened RpcTypes
  import opened Cells

  /** Evaluation of the graph from the outcomes of its leaves: rpc cells, timeout cells and flags. */
  ghost function Eval(cells: seq<Cell>, i: nat): Status
    requires Shape(cells) && i < |cells|
    decreases i
  {
    assert KindOk(cells, i);
    match cells[i].kind
    case Derived(inputs, logic) =>
      var args := seq(|inputs|, k requires 0 <= k < |inputs| => Eval(cells, inputs[k]));
      if AnySettled(args) then logic(args) else Empty
    case _ => cells[i].status
  }

  /** Every derived cell that `i` may depend on has monotone logic. */
  ghost predicate MonotoneUpTo(cells: seq<Cell>, i: nat) {
    forall j :: 0 <= j < |cells| && j <= i && cells[j].kind.Derived? ==>
      Monotone(cells[j].kind.logic, |cells[j].kind.inputs|)
  }

  /** With no update owed, each cell is what evaluating the graph gives: nothing wrong and nothing missed. */
  lemma {:induction false} PushAgreesWithEvaluation(cells: seq<Cell>, hist: seq<History>, i: nat)
    requires Base(cells, hist) && LiveBut(cells, hist, {})
    requires i < |cells| && MonotoneUpTo(cells, i)
    ensures cells[i].status == Eval(cells, i)
    decreases i
  {
    assert KindOk(cells, i) && NodeBase(cells, hist, i) && Live(cells, hist, i);
    match cells[i].kind
    case Derived(inputs, logic) =>
      forall k | 0 <= k < |inputs| ensures cells[inputs[k]].status == Eval(cells, inputs[k]) {
        PushAgreesWithEvaluation(cells, hist, inputs[k]);
      }
      var args := seq(|inputs|, k requires 0 <= k < |inputs| => Eval(cells, inputs[k]));
      assert args == Args(cells, inputs);
    case _ =>
  }

  ghost predicate SameGraphAndLeaves(a: seq<Cell>, b: seq<Cell>) {
    |a| == |b| && forall i :: 0 <= i < |a| ==>
      a[i].kind == b[i].kind && (!a[i].kind.Derived? ==> a[i].status == b[i].status)
  }

  lemma {:induction false} EvaluationOfLeaves(a: seq<Cell>, b: seq<Cell>, i: nat)
    requires Shape(a) && Shape(b) && SameGraphAndLeaves(a, b) && i < |a|
    ensures Eval(a, i) == Eval(b, i)
    decreases i
  {
    assert KindOk(a, i);
    match a[i].kind
    case Derived(inputs, logic) =>
      forall k | 0 <= k < |inputs| ensures Eval(a, inputs[k]) == Eval(b, inputs[k]) {
        EvaluationOfLeaves(a, b, inputs[k]);
      }
      assert seq(|inputs|, k requires 0 <= k < |inputs| => Eval(a, inputs[k]))
          == seq(|inputs|, k requires 0 <= k < |inputs| => Eval(b, inputs[k]));
    case _ =>
  }

  /** Two histories of the same graph with the same leaf outcomes end in the same cells, in any arrival order. */
  lemma ArrivalOrderIsIrrelevant(a: seq<Cell>, ha: seq<History>, b: seq<Cell>, hb: seq<History>)
    requires Base(a, ha) && LiveBut(a, ha, {}) && Base(b, hb) && LiveBut(b, hb, {})
    requires SameGraphAndLeaves(a, b) && MonotoneUpTo(a, |a|)
    ensures forall i :: 0 <= i < |a| ==> a[i].status == b[i].status
  {
    forall i | 0 <= i < |a| ensures a[i].status == b[i].status {
      PushAgreesWithEvaluation(a, ha, i);
      PushAgreesWithEvaluation(b, hb, i);
      EvaluationOfLeaves(a, b, i);
    }
  }

  // ---------------------------------------------------------------- monotonicity is the exact condition

  /** A derived cell over `|known|` leaves, as the leaves in `order` take their outcomes one after the other. */
  function Arrive(logic: seq<Status> -> Status, final: seq<Status>, order: seq<nat>, known: seq<Status>,
                  result: Status): Status
    requires |known| == |final| && forall k :: 0 <= k < |order| ==> order[k] < |final|
  {
    if order == [] then result
    else
      var known' := known[order[0] := final[order[0]]];
      Arrive(logic, final, order[1..], known', if result.Empty? then logic(known') else result)
  }

  /** The leaves that settle, each at least once, in the order given. */
  ghost predicate Covers(order: seq<nat>, final: seq<Status>) {
    && (forall k :: 0 <= k < |order| ==> order[k] < |final| && !final[order[k]].Empty?)
    && (forall i :: 0 <= i < |final| && !final[i].Empty? ==> i in order)
  }

  function Nothing(n: nat): seq<Status> { seq(n, _ => Empty) }

  ghost function Evaluated(logic: seq<Status> -> Status, final: seq<Status>): Status {
    if AnySettled(final) then logic(final) else Empty
  }

  /** Whatever the outcomes, and in whatever order they arrive, the derived cell ends as evaluation says. */
  ghost predicate OrderFree(logic: seq<Status> -> Status, n: nat) {
    forall final, order :: |final| == n && Covers(order, final) ==>
      Arrive(logic, final, order, Nothing(n), Empty) == Evaluated(logic, final)
  }

  lemma {:induction false} MonotoneArrival(logic: seq<Status> -> Status, final: seq<Status>, order: seq<nat>,
                                           known: seq<Status>, result: Status)
    requires Monotone(logic, |final|) && Refines(known, final)
    requires forall k :: 0 <= k < |order| ==> order[k] < |final| && !final[order[k]].Empty?
    requires forall i :: 0 <= i < |final| && !final[i].Empty? ==> known[i] == final[i] || i in order
    requires !result.Empty? ==> AnySettled(known) && result == logic(final)
    requires result.Empty? && AnySettled(known) ==> logic(known).Empty?
    ensures Arrive(logic, final, order, known, result) == Evaluated(logic, final)
    decreases order
  {
    if order == [] {
      assert known == final;
    } else {
      var known' := known[order[0] := final[order[0]]];
      assert !known'[order[0]].Empty?;
      MonotoneArrival(logic, final, order[1..], known', if result.Empty? then logic(known') else result);
    }
  }

  function SettledIndexes(a: seq<Status>, n: nat): (order: seq<nat>)
    requires n <= |a|
    ensures forall k :: 0 <= k < |order| ==> order[k] < n && !a[order[k]].Empty?
    ensures forall i :: 0 <= i < n && !a[i].Empty? ==> i in order
  {
    if n == 0 then []
    else SettledIndexes(a, n - 1) + if a[n - 1].Empty? then [] else [n - 1]
  }

  /** What a derived cell has settled to after the outcomes in `oa`, later outcomes cannot change. */
  lemma {:induction false} FirstResultStays(logic: seq<Status> -> Status, a: seq<Status>, b: seq<Status>,
                                            oa: seq<nat>, ob: seq<nat>, known: seq<Status>, result: Status)
    requires |known| == |a| == |b|
    requires forall k :: 0 <= k < |oa| ==> oa[k] < |a| && a[oa[k]] == b[oa[k]]
    requires forall k :: 0 <= k < |ob| ==> ob[k] < |b|
    requires !Arrive(logic, a, oa, known, result).Empty?
    ensures Arrive(logic, b, oa + ob, known, result) == Arrive(logic, a, oa, known, result)
    decreases |oa| + |ob|
  {
    var order := oa + ob;
    if oa != [] {
      assert order[1..] == oa[1..] + ob && order[0] == oa[0];
      var known' := known[oa[0] := a[oa[0]]];
      FirstResultStays(logic, a, b, oa[1..], ob, known', if result.Empty? then logic(known') else result);
    } else if ob != [] {
      assert order[1..] == [] + ob[1..] && order[0] == ob[0];
      FirstResultStays(logic, a, b, [], ob[1..], known[ob[0] := b[ob[0]]], result);
    }
  }

  /** A derived cell ends the same in every arrival order if and only if its logic is monotone. */
  lemma MonotoneIffOrderFree(logic: seq<Status> -> Status, n: nat)
    ensures Monotone(logic, n) <==> OrderFree(logic, n)
  {
    if Monotone(logic, n) {
      forall final, order | |final| == n && Covers(order, final)
        ensures Arrive(logic, final, order, Nothing(n), Empty) == Evaluated(logic, final)
      {
        MonotoneArrival(logic, final, order, Nothing(n), Empty);
      }
    }
    if OrderFree(logic, n) {
      forall a, b | |a| == n && Refines(a, b) && AnySettled(a) && !logic(a).Empty? ensures logic(b) == logic(a) {
        var oa, ob := SettledIndexes(a, n), SettledIndexes(b, n);
        assert Covers(oa, a) && Covers(oa + ob, b);
        FirstResultStays(logic, a, b, oa, ob, Nothing(n), Empty);
      }
    }
  }

  /** Logic that takes whichever of two inputs settles first. */
  function First(args: seq<Status>): Status {
    if |args| == 2 && !args[0].Empty? then args[0] else if |args| == 2 then args[1] else Empty
  }

  /** Such logic is not monotone: settling its inputs in the two orders ends in two different cells. */
  lemma FirstDependsOnOrder()
    ensures var final := [Value(VBool(true)), Value(VBool(false))];
            && Arrive(First, final, [0, 1], Nothing(2), Empty) == Value(VBool(true))
            && Arrive(First, final, [1, 0], Nothing(2), Empty) == Value(VBool(false))
            && !Monotone(First, 2)
  {
    var final := [Value(VBool(true)), Value(VBool(false))];
    assert Arrive(First, final, [0, 1], Nothing(2), Empty) == Value(VBool(true)) by {
      var k1 := Nothing(2)[0 := final[0]];
      assert [0, 1][1..] == [1];
      assert Arrive(First, final, [1], k1, First(k1)) == First(k1);
    }
    assert Arrive(First, final, [1, 0], Nothing(2), Empty) == Value(VBool(false)) by {
      var k1 := Nothing(2)[1 := final[1]];
      assert [1, 0][1..] == [0];
      assert Arrive(First, final, [0], k1, First(k1)) == First(k1);
    }
    assert Covers([0, 1], final) && Covers([1, 0], final);
    MonotoneIffOrderFree(First, 2);
  }
}
