/**
 * Runs of the client in which the graph of cells ends otherwise than one would expect: a derived cell whose logic is
 * not monotone, and a final action attached too late.
 */
module GraphWitnesses {
  import opened RpcTypes
  import opened SequenceIds
  import opened Cells
  import opened Propagation
  import opened ClientState
  import opened ClientSteps
  import opened ClientGraph
  import opened ClientDispatch
  import opened ClientProperties
  import opened ClientRuns
  import opened Client
  import opened ClientWitnesses

  // ---------------------------------------------------------------- logic that is not monotone

  /** The derived cell `l` has settled on `a`, and the second call is under way. */
  ghost predicate SettledOn(s: State, a: seq<Status>, b: seq<Status>, logic: seq<Status> -> Status) {
    var l := 2 + |a|;
    && |a| == |b| && Quiescent(s) && |s.cells| == |s.hist| == l + 1 && |s.calls| == 2
    && IsAsk(s, 0) && IsAsk(s, 1) && s.cells[0].status == TRUTH && s.cells[1].status.Empty?
    && (forall i :: 0 <= i < |a| ==> HasSource(s, a, b, i))
    && s.cells[l].kind == Derived(Inputs(|a|), logic) && s.cells[l].status == logic(a)
  }

  lemma SettledOnFirst(s: State, s': State, l: nat, a: seq<Status>, b: seq<Status>, logic: seq<Status> -> Status)
    requires Prepared(s, a, b, |a|) && Quiescent(s') && Refines(a, b) && AnySettled(a)
    requires NodeBuilt(s, s', l, Derived(Inputs(|a|), logic), 0) && InRange(s.cells, Inputs(|a|))
    requires s'.cells[l].status == Evaluated(logic, Args(s.cells, Inputs(|a|)))
    ensures SettledOn(s', a, b, logic)
  {
    assert |s'.cells| == |s'.hist|;
    NoTimeoutsYet(s, a, b, |a|);
    HaveSources(s, a, b);
    InputsAre(s, a, b);
    hide Quiescent;
    forall i | 0 <= i < |a| ensures HasSource(s', a, b, i) {
      assert IsSource(s, a, b, i);
    }
  }

  lemma DerivedRoom(s: State, a: seq<Status>, b: seq<Status>, logic: seq<Status> -> Status)
    requires SettledOn(s, a, b, logic)
    ensures HasRoom(s, 1) && 2 in s.idFuncMap && s.idFuncMap[2] == 1 && OutOf(s, 2) == Some(ASK)
    ensures Quiescent(s) && Answer(ASK, Succeeded, [1]) == TRUTH
  {
    hide Quiescent, HasRoom, IdOf;
    SmallIds();
    forall i | 0 <= i < |s.cells| ensures !s.cells[i].kind.Timeout? {
      if 2 <= i < 2 + |a| {
        assert HasSource(s, a, b, i - 2);
      }
    }
    NoneUnstarted(s.cells);
    SmallRoom(s, 1);
    EmptyIsRegistered(s, 1);
  }

  /** The evaluation of the graph takes in what the second answer has changed; the cell does not. */
  lemma NotEvaluated(s: State, s': State, a: seq<Status>, b: seq<Status>, logic: seq<Status> -> Status)
    requires SettledOn(s, a, b, logic) && Quiescent(s') && Dispatched(s, s', 1, TRUTH)
    requires Refines(a, b) && AnySettled(a) && !logic(a).Empty?
    ensures var l := 2 + |a|;
            && l < |s'.cells| && Shape(s'.cells) && s'.cells[l].kind == Derived(Inputs(|a|), logic)
            && s'.cells[l].status == logic(a) && Eval(s'.cells, l) == logic(b)
  {
    var l := 2 + |a|;
    assert Shape(s'.cells) && |s'.cells| == |s'.hist|;
    hide Quiescent, BooksLater, ContextsLater, OnlyTimeoutsCall, SurviveWithContext;
    forall i | 0 <= i < |a| ensures HasSource(s', a, b, i) {
      assert HasSource(s, a, b, i);
    }
    InputsAre(s', a, b);
    EvaluatesInputs(s', a, b, l, logic);
    var k :| 0 <= k < |a| && !a[k].Empty?;
    assert !b[k].Empty?;
  }

  lemma EvaluatesInputs(s: State, a: seq<Status>, b: seq<Status>, l: nat, logic: seq<Status> -> Status)
    requires Quiescent(s) && Shape(s.cells) && |a| == |b| && l == 2 + |a| < |s.cells|
    requires s.cells[l].kind == Derived(Inputs(|a|), logic) && s.cells[0].kind.Rpc? && s.cells[1].kind.Rpc?
    requires forall i :: 0 <= i < |a| ==> HasSource(s, a, b, i)
    requires Args(s.cells, Inputs(|a|)) == b
    ensures Eval(s.cells, l) == Evaluated(logic, b)
  {
    var inputs := Inputs(|a|);
    forall i | 0 <= i < |a| ensures Eval(s.cells, inputs[i]) == b[i] {
      forall j | 0 <= j < |s.cells| && j <= 2 + i && s.cells[j].kind.Derived?
        ensures Monotone(s.cells[j].kind.logic, |s.cells[j].kind.inputs|)
      {
        assert HasSource(s, a, b, j - 2);
      }
      PushedIsEvaluated(s, 2 + i);
    }
    hide Quiescent;
    assert seq(|inputs|, k requires 0 <= k < |inputs| => Eval(s.cells, inputs[k])) == b;
  }

  /**
   * A run in which a derived cell whose logic is not monotone ends with another value than the evaluation of the graph:
   * it settles on the inputs `a`, and they become `b`.
   */
  method OrderDependentRun(logic: seq<Status> -> Status, a: seq<Status>, b: seq<Status>)
    returns (client: Runtime, l: nat, ghost trace: seq<State>, ghost events: seq<Event>)
    requires Refines(a, b) && AnySettled(a) && !logic(a).Empty? && logic(b) != logic(a)
    ensures fresh(client) && client.Valid() && IsRunTo(trace, events, client.S())
    ensures l < |client.cells| && Shape(client.cells) && client.cells[l].kind == Derived(Inputs(|a|), logic)
    ensures client.cells[l].status == logic(a) && Eval(client.cells, l) == logic(b)
  {
    hide Quiescent, NodeBuilt, Dispatched, HasRoom, AreInputs, IsRunTo, TakesResponse, Quiet, SettledOn, IsSource;
    client, trace, events := Prepare(a, b);
    ghost var s := client.S();
    PreparedRoom(s, a, b, |a|);
    InputsFit(s, a, b);
    l := client.DeriveCell(0, logic, Inputs(|a|));
    SettledOnFirst(s, client.S(), l, a, b, logic);
    RunStepped(trace, events, s, client.S());
    trace, events := trace + [client.S()], events + [UserCode];

    s := client.S();
    DerivedRoom(s, a, b, logic);
    client.HandleRpcRsp(2, Succeeded, [1]);
    l := 2 + |a|;
    NotEvaluated(s, client.S(), a, b, logic);
    RunAnswered(trace, events, s, client.S(), 2);
    trace, events := trace + [client.S()], events + [ResponseFor(2, Succeeded, [1])];
  }

  // ---------------------------------------------------------------- a final action that comes too late

  /**
   * A run in which a final action is attached to a result that has settled already: the interaction is alive, and not
   * to be torn down.
   */
  method LateActionRun() returns (client: Runtime, l: nat, ghost trace: seq<State>, ghost events: seq<Event>)
    ensures fresh(client) && client.Valid() && IsRunTo(trace, events, client.S())
    ensures LateAction(client.S(), l)
  {
    hide Quiescent, HasRoom, AreInputs, IsRunTo, Quiet, LateAction, Built;
    client, trace, events := Prepare([], []);
    ghost var s := client.S();
    CanBindFirst(s);
    client.BindResult(0);
    RunStepped(trace, events, s, client.S());
    trace, events := trace + [client.S()], events + [UserCode];

    BoundFirst(s, client.S());
    s := client.S();
    l := client.DeriveFinalAction(0);
    ComesTooLate(s, client.S(), l);
    RunStepped(trace, events, s, client.S());
    trace, events := trace + [client.S()], events + [UserCode];
  }

  /** The result of the first interaction, its first cell, has settled; its one final action has missed that. */
  ghost predicate LateAction(s: State, l: nat) {
    && l < |s.cells| == |s.hist| && s.cells[l].kind == Final(0) && s.cells[l].armed && s.cells[l].ctx == 0
    && !s.hist[l].early && !s.cells[l].started && !s.cells[0].status.Empty?
    && |s.contexts| == 1 && s.contexts[0].alive && !s.contexts[0].doomed
  }

  lemma CanBindFirst(s: State)
    requires Prepared(s, [], [], 0)
    ensures CanBindResult(s, 0)
  {
    assert IsAsk(s, 0) && IsAsk(s, 1) && ContextOk(s.cells, s.contexts, 0);
  }

  lemma BoundFirst(s: State, s': State)
    requires Prepared(s, [], [], 0) && CanBindResult(s, 0) && s' == ResultBound(s, 0) && Quiescent(s')
    ensures s'.cells[0].owner == Result && AreInputs(s', [0], s'.cells[0].ctx) && HasRoom(s', 0)
    ensures |s'.cells| == |s'.hist| == 2 && |s'.contexts| == 1 && s'.contexts[0].alive && s'.cells[0].ctx == 0
    ensures s'.cells[0].kind.Rpc? && s'.cells[1].kind.Rpc? && s'.cells[0].status == TRUTH
  {
    assert IsAsk(s, 0) && IsAsk(s, 1);
    hide Quiescent, HasRoom;
    NoneUnstarted(s'.cells);
    SmallRoom(s', 0);
  }

  lemma ComesTooLate(s: State, s': State, l: nat)
    requires |s.cells| == |s.hist| == 2 && |s.contexts| == 1 && s.contexts[0].alive && s.cells[0].ctx == 0
    requires s.cells[0].kind.Rpc? && s.cells[1].kind.Rpc? && s.cells[0].status == TRUTH
    requires Quiescent(s') && l == 2 < |s'.cells| && l < |s'.hist| && Built(s, s', l)
    requires s'.cells[l].kind == Final(0) && s'.cells[l].armed && !s'.hist[l].early
    ensures LateAction(s', l)
  {
    assert |s'.cells| == |s'.hist| && KindOk(s'.cells, l) && NodeBase(s'.cells, s'.hist, l) && FellowsOk(s'.cells, l);
    hide Quiescent;
    DoomedIffResultSettled(s', 0);
    assert forall k :: !TearsDown(s', k, 0);
    assert Deps(s'.cells[l].kind)[0] == 0;
  }
}
