/** Runs of the client in which the sequence ids wrap around. */
module IdWitnesses {
  import opened RpcTypes
  import opened SequenceIds
  import opened Cells
  import opened ClientState
  import opened ClientSteps
  import opened ClientGraph
  import opened ClientDispatch
  import opened ClientProperties
  import opened ClientRuns
  import opened Client
  import opened ClientWitnesses

  function AlwaysAsks(): seq<Status> -> StartResult { _ => Call(ASK) }

  /** After `n` calls the only timeout cell is the first cell, which may not retry; nothing is to be torn down. */
  ghost predicate Steady(s: State, n: nat) {
    && Quiescent(s) && 2 <= |s.cells| == |s.hist| && |s.calls| == n
    && |s.contexts| == 1 && s.contexts[0].alive && (forall i :: s.channel(i).Accepted?)
    && s.cells[0].kind == Timeout([], AlwaysAsks(), 0) && s.hist[0].attempts == [1] && s.cells[1].kind.Rpc?
    && forall i :: 0 < i < |s.cells| ==> !s.cells[i].kind.Timeout? && !s.cells[i].kind.Final?
  }

  /** Only the last call may still be registered. */
  ghost predicate AtMostLast(s: State) {
    forall id :: id in s.idFuncMap && s.idFuncMap[id] < |s.hist| ==> s.hist[s.idFuncMap[id]].call == |s.calls|
  }

  lemma SteadyRoom(s: State, n: nat)
    requires Steady(s, n) && AtMostLast(s)
    ensures HasRoom(s, 1)
  {
    assert NodeBase(s.cells, s.hist, 0) && KindOk(s.cells, 0);
    hide Quiescent, HasRoom;
    NoneUnstarted(s.cells);
    RoomSince(s, 1, |s.calls|);
  }

  /** A timeout cell without retries whose attempt has been answered has made no other and holds the answer. */
  lemma AnsweredAttempt(s: State, t: nat, a: nat)
    requires Quiescent(s) && t < |s.cells| == |s.hist| && s.cells[t].kind.Timeout? && s.cells[t].kind.budget == 0
    requires a < |s.cells| && [a] <= s.hist[t].attempts && s.cells[a].status.Value?
    ensures s.hist[t].attempts == [a] && s.cells[t].started && s.cells[t].status == s.cells[a].status
  {
    assert KindOk(s.cells, t) && NodeBase(s.cells, s.hist, t) && AttemptsOk(s.cells, s.hist, t);
    assert Waits(s.cells, s.hist, t);
    assert s.hist[t].attempts[0] == a;
  }

  /** The last call is answered or times out; the first attempt has been answered by then. */
  lemma LastSettles(s: State, s': State, n: nat, c: nat, r: Status)
    requires Steady(s, n) && Quiescent(s') && Dispatched(s, s', c, r)
    requires !r.Empty? && forall id :: id in s.idFuncMap ==> s.idFuncMap[id] == c
    requires if c == 1 then r == TRUTH else s.cells[1].status == TRUTH && s.cells[0].status == TRUTH
    ensures Steady(s', n) && s'.idFuncMap == map[] && s'.cells[1].status == TRUTH && s'.cells[0].status == TRUTH
  {
    assert |s'.cells| == |s'.hist|;
    assert s.hist[0].attempts <= s'.hist[0].attempts;
    AnsweredAttempt(s', 0, 1);
    StartedBefore(s);
    assert forall i :: 0 <= i < |s.cells| ==> Rests(s.cells, s.hist, s'.cells, s'.hist, i);
    assert |s'.cells| == |s.cells| && |s'.calls| == n;
    NoFinalNoDoom(s', 0);
    NoneRegistered(s, s', c);
  }

  lemma StartedBefore(s: State)
    requires Quiescent(s) && 0 < |s.cells| == |s.hist| && s.cells[0].kind.Timeout? && s.hist[0].attempts != []
    ensures s.cells[0].started
  {
    assert NodeBase(s.cells, s.hist, 0);
  }

  lemma NoneRegistered(s: State, s': State, c: nat)
    requires Quiescent(s) && Quiescent(s') && c < |s.cells| == |s'.cells| && CellsLater(s, s', c)
    requires !s'.cells[c].status.Empty? && forall id :: id in s.idFuncMap ==> s.idFuncMap[id] == c
    ensures s'.idFuncMap == map[]
  {
    hide Quiescent;
    if id :| id in s'.idFuncMap {
      RegisteredWaits(s', id);
      EmptyIsRegistered(s, s'.idFuncMap[id]);
    }
  }

  lemma CalledOnce(s: State, s': State, n: nat, c: nat)
    requires Steady(s, n) && s.idFuncMap == map[] && Quiescent(s') && Extended(s, s') && CallMade(s, s', c, ASK)
    ensures Steady(s', n + 1) && AtMostLast(s') && s'.idFuncMap == map[IdOf(n + 1) := c] && 1 < c
    ensures OutOf(s', IdOf(n + 1)) == Some(ASK) && Answer(ASK, Succeeded, [1]) == TRUTH
    ensures s'.cells[0] == s.cells[0] && s'.cells[1] == s.cells[1] && s.canceled <= s'.canceled
  {
    hide Quiescent;
  }

  /** A new timeout cell has made its first attempt, and its call is the only one that is registered. */
  ghost predicate OnlyAttempt(s: State, t: nat, id: nat) {
    && Quiescent(s) && |s.cells| == |s.hist| == t + 3 && s.cells[t].kind == Timeout([], AlwaysAsks(), 0)
    && s.cells[t].started && s.cells[t].status.Empty? && s.hist[t].attempts == [t + 1]
    && s.cells[t + 1].kind == Rpc(Some(ASK)) && s.hist[t + 1].bound == Some(t) && s.hist[t + 1].call == |s.calls|
    && s.cells[t + 1].seqId == id && id in s.idFuncMap && (forall r :: r in s.idFuncMap ==> s.idFuncMap[r] == t + 1)
  }

  /** The id under which the first attempt goes out, when nothing else is registered. */
  lemma AttemptAlone(s: State, s': State, t: nat)
    requires Quiescent(s) && s.idFuncMap == map[] && Quiescent(s') && forall i :: s.channel(i).Accepted?
    requires NodeBuilt(s, s', t, Timeout([], AlwaysAsks(), 0), 0)
    requires FirstAttemptMade(s, s', t, Timeout([], AlwaysAsks(), 0))
    ensures OnlyAttempt(s', t, IdOf(|s.calls| + 1)) && s'.calls == s.calls + [t + 1] && t == |s.cells|
  {
    hide Quiescent, IdOf;
    assert StartsWith(s.cells, Timeout([], AlwaysAsks(), 0), ASK);
    assert FirstAttempt(s, s', t, ASK);
    EmptyIsRegistered(s', t + 1);
    forall r | r in s'.idFuncMap ensures s'.idFuncMap[r] == t + 1 {
      RegisteredWaits(s', r);
      if s'.idFuncMap[r] < t {
        EmptyIsRegistered(s, s'.idFuncMap[r]);
      }
    }
  }

  lemma AttemptRoom(s: State, t: nat, id: nat)
    requires OnlyAttempt(s, t, id) && forall i :: 0 < i < t ==> !s.cells[i].kind.Timeout?
    requires 0 < t ==> s.cells[0].started
    ensures HasRoom(s, 1)
  {
    hide Quiescent, HasRoom;
    assert s.cells[t + 2].kind.Bind? by {
      AttemptAction(s, t, id);
    }
    NoneUnstarted(s.cells);
    RoomSince(s, 1, |s.calls|);
  }

  lemma AttemptAction(s: State, t: nat, id: nat)
    requires OnlyAttempt(s, t, id)
    ensures s.cells[t + 2].kind.Bind?
  {
    hide LiveBut, Wired, Accounted, Waiting, Owned, DoomOk, StallsOk, BooksOk, Waits, Kept;
    assert KindOk(s.cells, t + 1) && NodeBase(s.cells, s.hist, t + 1) && ListenersOk(s.cells, t + 1);
  }

  /** The first attempt of the first cell is the only call so far. */
  ghost predicate Attempted(s: State) {
    && Steady(s, 1) && HasRoom(s, 1) && s.cells[1].seqId == 1 && s.hist[1].bound.Some? && 1 in s.idFuncMap
    && OutOf(s, 1) == Some(ASK) && forall r :: r in s.idFuncMap ==> s.idFuncMap[r] == 1
  }

  lemma EmptyRoom(s: State)
    requires s.cells == [] && s.idFuncMap == map[]
    ensures HasRoom(s, 1)
  {
    NoneUnstarted(s.cells);
  }

  lemma FirstIsSteady(s: State, s': State)
    requires s.contexts == [Context([], None, true, false)] && s.calls == [] && s.channel == AlwaysAccepted()
    requires NodeBuilt(s, s', 0, Timeout([], AlwaysAsks(), 0), 0) && OnlyAttempt(s', 0, IdOf(1)) && |s'.calls| == 1
    ensures Attempted(s')
  {
    hide Quiescent;
    SmallIds();
    AttemptAction(s', 0, IdOf(1));
    AttemptRoom(s', 0, IdOf(1));
  }

  /** A client that has made one attempt. */
  method AttemptOne() returns (client: Runtime, ghost trace: seq<State>, ghost events: seq<Event>)
    ensures fresh(client) && fresh(client.ids) && client.IdsOk() && IsRunTo(trace, events, client.S())
    ensures Attempted(client.S())
  {
    hide Quiescent, NodeBuilt, FirstAttemptMade, OnlyAttempt, IdOf, IsRunTo, HasRoom, Quiet, Attempted;
    client, trace, events := OneInteraction();
    ghost var s := client.S();
    EmptyRoom(s);
    var t := client.DeriveRpcCell(0, 0, AlwaysAsks(), []);
    AttemptAlone(s, client.S(), t);
    FirstIsSteady(s, client.S());
    RunStepped(trace, events, s, client.S());
    trace, events := trace + [client.S()], events + [UserCode];
  }

  /** It is answered: its timer has been cancelled. */
  method AnswerOne() returns (client: Runtime, ghost trace: seq<State>, ghost events: seq<Event>)
    ensures fresh(client) && fresh(client.ids) && client.IdsOk() && IsRunTo(trace, events, client.S())
    ensures Wrapped(client.S(), 1)
  {
    hide Quiescent, Dispatched, AttemptTaken, IdOf, IsRunTo, HasRoom, TakesResponse;
    client, trace, events := AttemptOne();
    ghost var s := client.S();
    assert Answer(ASK, Succeeded, [1]) == TRUTH;
    client.HandleRpcRsp(1, Succeeded, [1]);
    LastSettles(s, client.S(), 1, 1, TRUTH);
    FirstCanceled(s, client.S());
    RunAnswered(trace, events, s, client.S(), 1);
    trace, events := trace + [client.S()], events + [ResponseFor(1, Succeeded, [1])];
  }

  lemma FirstCanceled(s: State, s': State)
    requires AttemptTaken(s, s', 1, TRUTH) && 1 < |s.cells| && 1 < |s.hist|
    requires s.cells[1].kind.Rpc? && s.hist[1].bound.Some? && s.cells[1].seqId == 1
    ensures 1 in s'.canceled
  {
    assert s'.canceled[|s.canceled|] == 1;
  }

  /** `n` calls have been made and none is waited for; the timer of the first was cancelled. */
  ghost predicate Wrapped(s: State, n: nat) {
    && Steady(s, n) && s.idFuncMap == map[] && s.cells[1].status == TRUTH && s.cells[0].status == TRUTH
    && 1 in s.canceled
  }

  /** A call that is answered. */
  method AskOnceMore(client: Runtime, n: nat, ghost trace0: seq<State>, ghost events0: seq<Event>)
    returns (ghost trace: seq<State>, ghost events: seq<Event>)
    requires Wrapped(client.S(), n) && n < CYCLE && client.IdsOk() && IsRunTo(trace0, events0, client.S())
    modifies client, client.ids
    ensures Wrapped(client.S(), n + 1) && client.IdsOk() && IsRunTo(trace, events, client.S())
  {
    hide Quiescent, CallMade, Extended, PendingRpc, FailedRpc, HasRoom, IdOf, CellsLater, OnlyTimeoutsCall,
         SettlesCall, Quiet, AttemptTaken, IsRunTo;
    ghost var s := client.S();
    SteadyRoom(s, n);
    var c := client.CallStub(0, ASK);
    CalledOnce(s, client.S(), n, c);
    RunStepped(trace0, events0, s, client.S());
    trace, events := trace0 + [client.S()], events0 + [UserCode];
    s := client.S();
    SteadyRoom(s, n + 1);
    client.HandleRpcRsp(IdOf(n + 1), Succeeded, [1]);
    LastSettles(s, client.S(), n + 1, c, TRUTH);
    RunAnswered(trace, events, s, client.S(), IdOf(n + 1));
    trace, events := trace + [client.S()], events + [ResponseFor(IdOf(n + 1), Succeeded, [1])];
  }

  /** A whole cycle of ids is used up. */
  method AskAround() returns (client: Runtime, ghost trace: seq<State>, ghost events: seq<Event>)
    ensures fresh(client) && fresh(client.ids) && client.IdsOk()
    ensures Wrapped(client.S(), CYCLE) && IsRunTo(trace, events, client.S())
  {
    hide Wrapped, IsRunTo;
    client, trace, events := AnswerOne();
    for n := 1 to CYCLE
      invariant fresh(client) && fresh(client.ids) && client.IdsOk()
      invariant Wrapped(client.S(), n) && IsRunTo(trace, events, client.S())
    {
      trace, events := AskOnceMore(client, n, trace, events);
    }
  }

  /** The id whose timer was cancelled is that of a live attempt again. */
  method ReuseId() returns (client: Runtime, t: nat, ghost trace: seq<State>, ghost events: seq<Event>)
    ensures fresh(client) && fresh(client.ids) && client.IdsOk() && IsRunTo(trace, events, client.S())
    ensures OnlyAttempt(client.S(), t, 1) && HasRoom(client.S(), 1)
    ensures 1 in client.canceledTimerIds && |client.calls| == CYCLE + 1
  {
    client, trace, events := AskAround();
    ghost var s := client.S();
    SteadyRoom(s, CYCLE);
    t := client.DeriveRpcCell(0, 0, AlwaysAsks(), []);
    hide Quiescent, NodeBuilt, FirstAttemptMade, IdOf, HasRoom, Steady, IsRunTo, OnlyAttempt;
    AttemptAlone(s, client.S(), t);
    OldIdAgain(s, client.S(), t);
    RunStepped(trace, events, s, client.S());
    trace, events := trace + [client.S()], events + [UserCode];
  }

  /**
   * A run at whose end the timeout of a live attempt is dropped: the timer of an attempt one cycle of ids earlier was
   * cancelled, and the message loop does not tell the two apart.
   */
  method DroppedTimeoutRun() returns (client: Runtime, t: nat, ghost trace: seq<State>, ghost events: seq<Event>)
    ensures fresh(client) && client.Valid() && IsRunTo(trace, events, client.S())
    ensures OnlyAttempt(client.S(), t, 1) && client.hist[t + 1].call == CYCLE + 1
    ensures |events| > 0 && events[|events| - 1] == TimeoutFor(1) && trace[|trace| - 2] == trace[|trace| - 1]
  {
    hide Quiescent, HasRoom, IsRun, SettlesCall, IdOf;
    client, t, trace, events := ReuseId();
    ghost var s := client.S();
    client.OnTimerMsg(1);
    RunDropped(trace, events, s, 1);
    trace, events := trace + [client.S()], events + [TimeoutFor(1)];
  }

  lemma OldIdAgain(s: State, s': State, t: nat)
    requires Wrapped(s, CYCLE) && NodeBuilt(s, s', t, Timeout([], AlwaysAsks(), 0), 0)
    requires OnlyAttempt(s', t, IdOf(CYCLE + 1))
    ensures HasRoom(s', 1) && 1 in s'.canceled && IdOf(CYCLE + 1) == 1
  {
    hide Quiescent, IdOf;
    FirstIdAgain();
    StartedBefore(s);
    AttemptRoom(s', t, 1);
  }

  lemma FirstIdAgain()
    ensures IdOf(CYCLE + 1) == 1
  {
  }

  lemma RunDropped(trace: seq<State>, events: seq<Event>, s: State, id: nat)
    requires IsRunTo(trace, events, s) && Quiescent(s) && id in s.canceled
    ensures IsRunTo(trace + [s], events + [TimeoutFor(id)], s)
  {
    hide Quiescent;
    RunGoesOn(trace, events, s, s, TimeoutFor(id));
  }

  // ---------------------------------------------------------------- an id that is still registered

  /**
   * A run after which the next call would fail the assertion that its id is not registered: a whole cycle of calls
   * has been made, and the first is still waiting.
   */
  method ClashRun() returns (client: Runtime, ghost trace: seq<State>, ghost events: seq<Event>)
    ensures fresh(client) && client.Valid() && IsRunTo(trace, events, client.S())
    ensures |client.calls| == CYCLE && 1 in client.idFuncMap && client.idFuncMap[1] == 0 && !CanIssue(client.S())
  {
    client, trace, events := OneInteraction();
    assert Asked(client.S(), 0);
    hide Asked, IsRunTo, CanIssue;
    for n := 0 to CYCLE
      invariant fresh(client) && fresh(client.ids) && client.IdsOk()
      invariant Asked(client.S(), n) && IsRunTo(trace, events, client.S())
    {
      trace, events := Ask(client, n, trace, events);
    }
    ClashesNow(client.S());
  }

  lemma ClashesNow(s: State)
    requires Asked(s, CYCLE)
    ensures Quiescent(s) && |s.calls| == CYCLE && 1 in s.idFuncMap && s.idFuncMap[1] == 0 && !CanIssue(s)
  {
    hide Quiescent, IdOf;
    SmallIds();
    FirstIdAgain();
    assert IsAsk(s, 0);
    EmptyIsRegistered(s, 0);
  }
}
