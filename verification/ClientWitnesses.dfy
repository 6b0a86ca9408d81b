/**
 * A run of the client that ends where one would not want it to, with a timeout cell that stalls: the condition under
 * which this cannot happen is exact.
 */
module ClientWitnesses {
  import opened RpcTypes
  import opened SequenceIds
  import opened Cells
  import opened ClientState
  import opened ClientSteps
  import opened ClientGraph
  import opened ClientDispatch
  import opened ClientProperties
  import opened ClientRuns
  import opened Client

  const TRUTH := Value(VBool(true))

  /** A call whose answer decodes to true. */
  const ASK := Outgoing("", 0, 0, Some([]), (_: bytes) => Some(VBool(true)))

  function Constant(v: Status): seq<Status> -> Status { _ => v }

  function AlwaysAccepted(): nat -> Delivery { _ => Accepted }

  // ---------------------------------------------------------------- recording a run

  ghost predicate IsRunTo(trace: seq<State>, events: seq<Event>, s: State) {
    IsRun(trace, events, true) && trace != [] && trace[|trace| - 1] == s && trace[0].cells == [] && trace[0].calls == []
  }

  lemma RunGoesOn(trace: seq<State>, events: seq<Event>, s: State, s': State, e: Event)
    requires IsRunTo(trace, events, s) && ClientStep(s, s', e, true)
    ensures IsRunTo(trace + [s'], events + [e], s')
  {
    hide ClientStep;
    var t, es := trace + [s'], events + [e];
    forall i | 0 <= i < |es| ensures ClientStep(t[i], t[i + 1], es[i], true) {
      assert i < |events| ==> ClientStep(trace[i], trace[i + 1], events[i], true);
    }
  }

  // ---------------------------------------------------------------- small states

  lemma SmallIds()
    ensures IdOf(1) == 1 && IdOf(2) == 2 && IdOf(3) == 3 && 4 < CYCLE
  {
  }

  /** Ids can be taken that are less than a cycle from the oldest registered call. */
  lemma RoomSince(s: State, slack: nat, oldest: nat)
    requires Quiescent(s) && |Unstarted(s.cells)| + slack <= CYCLE
    requires |s.calls| + |Unstarted(s.cells)| + slack - oldest < CYCLE
    requires forall id :: id in s.idFuncMap && s.idFuncMap[id] < |s.hist| ==> s.hist[s.idFuncMap[id]].call >= oldest
    ensures HasRoom(s, slack)
  {
    hide Quiescent, IdOf, Unstarted;
    forall n: nat | |s.calls| < n <= |s.calls| + |Unstarted(s.cells)| + slack ensures IdOf(n) !in s.idFuncMap {
      if IdOf(n) in s.idFuncMap {
        RegisteredWaits(s, IdOf(n));
        RecentIdsDiffer(s.hist[s.idFuncMap[IdOf(n)]].call, n);
      }
    }
  }

  /** Nothing prevents ids from being taken before they have gone round. */
  lemma SmallRoom(s: State, slack: nat)
    requires Quiescent(s) && |s.calls| + |Unstarted(s.cells)| + slack < CYCLE
    ensures HasRoom(s, slack)
  {
    hide Quiescent, Unstarted;
    RoomSince(s, slack, 0);
  }

  lemma NoneUnstarted(cells: seq<Cell>)
    requires forall i :: 0 <= i < |cells| && cells[i].kind.Timeout? ==> cells[i].started
    ensures Unstarted(cells) == {}
  {
  }

  /** A live rpc cell that is empty is registered. */
  lemma EmptyIsRegistered(s: State, c: nat)
    requires Quiescent(s) && c < |s.cells| && s.cells[c].alive && s.cells[c].kind.Rpc? && s.cells[c].status.Empty?
    ensures s.cells[c].seqId in s.idFuncMap && s.idFuncMap[s.cells[c].seqId] == c
  {
    assert Registered(s.cells, s.idFuncMap, c);
  }

  lemma NoFinalNoDoom(s: State, k: nat)
    requires Quiescent(s) && k < |s.contexts|
    requires forall i :: 0 <= i < |s.cells| ==> !s.cells[i].kind.Final?
    ensures !s.contexts[k].doomed
  {
    if s.contexts[k].doomed {
      DoomedIffResultSettled(s, k);
    }
  }

  /** A derived cell with constant logic has that result once its input has settled. */
  lemma ConstantCell(s: State, i: nat, src: nat, v: Status)
    requires Quiescent(s) && i < |s.cells| && src < i && s.cells[i].kind == Derived([src], Constant(v))
    ensures s.cells[i].status == if s.cells[src].status.Empty? then Empty else v
  {
    assert KindOk(s.cells, i) && NodeBase(s.cells, s.hist, i) && Live(s.cells, s.hist, i);
    assert Args(s.cells, [src])[0] == s.cells[src].status;
    assert Monotone(Constant(v), 1);
  }

  // ---------------------------------------------------------------- a cell that stalls

  /** One interaction, in which `n` calls are under way. */
  ghost predicate Asked(s: State, n: nat) {
    && Quiescent(s) && |s.cells| == |s.hist| == |s.calls| == n
    && |s.contexts| == 1 && s.contexts[0].alive && (forall i :: s.channel(i).Accepted?)
    && (forall i :: 0 <= i < n ==> IsAsk(s, i) && s.cells[i].status.Empty?)
  }

  ghost predicate IsAsk(s: State, i: nat)
    requires i < |s.cells| == |s.hist|
  {
    && s.cells[i].kind == Rpc(Some(ASK)) && s.cells[i].alive && s.cells[i].ctx == 0 && s.cells[i].seqId == IdOf(i + 1)
    && s.cells[i].owner == Listed && s.hist[i].bound.None?
  }

  lemma AskedRoom(s: State, n: nat)
    requires Asked(s, n) && n < CYCLE
    ensures HasRoom(s, 1)
  {
    NoneUnstarted(s.cells);
    assert forall id :: id in s.idFuncMap && s.idFuncMap[id] < |s.hist| ==> s.hist[s.idFuncMap[id]].call >= 1 by {
      forall id | id in s.idFuncMap ensures s.idFuncMap[id] < |s.hist| && s.hist[s.idFuncMap[id]].call >= 1 {
        RegisteredWaits(s, id);
      }
    }
    hide Quiescent, HasRoom;
    RoomSince(s, 1, 1);
  }

  lemma FirstToAnswer(s: State)
    requires Asked(s, 2)
    ensures HasRoom(s, 1) && 1 in s.idFuncMap && s.idFuncMap[1] == 0 && OutOf(s, 1) == Some(ASK)
    ensures Answer(ASK, Succeeded, [1]) == TRUTH
  {
    SmallIds();
    hide Quiescent, HasRoom, IdOf;
    AskedRoom(s, 2);
    assert IsAsk(s, 0);
    EmptyIsRegistered(s, 0);
  }

  lemma AskedOnce(s: State, s': State, c: nat)
    requires Asked(s, |s.cells|) && Quiescent(s') && Extended(s, s') && CallMade(s, s', c, ASK)
    requires PendingRpc(s', c, 0) || FailedRpc(s', c)
    ensures Asked(s', |s.cells| + 1)
  {
    hide Quiescent;
    forall i | 0 <= i < |s'.cells| ensures IsAsk(s', i) && s'.cells[i].status.Empty? {
      assert i < |s.cells| ==> IsAsk(s, i) && s'.cells[i] == s.cells[i] && s'.hist[i] == s.hist[i];
    }
  }

  /** The rpc cell, of the two that are there from the start, that decides input `i`. */
  function Source(a: seq<Status>, i: nat): nat
    requires i < |a|
  {
    if a[i].Empty? then 1 else 0
  }

  /** The cells of the inputs. */
  function Inputs(n: nat): (inputs: seq<nat>)
    ensures |inputs| == n && forall i :: 0 <= i < n ==> inputs[i] == 2 + i
  {
    seq(n, i => 2 + i)
  }

  ghost predicate HasSource(s: State, a: seq<Status>, b: seq<Status>, i: nat)
    requires i < |a| == |b|
  {
    2 + i < |s.cells| && s.cells[2 + i].kind == Derived([Source(a, i)], Constant(b[i]))
  }

  ghost predicate IsSource(s: State, a: seq<Status>, b: seq<Status>, i: nat)
    requires i < |a| == |b|
  {
    HasSource(s, a, b, i) && s.cells[2 + i].alive && s.cells[2 + i].ctx == 0
  }

  /** The first of two calls has been answered, and the first `m` inputs have been derived. */
  ghost predicate Prepared(s: State, a: seq<Status>, b: seq<Status>, m: nat) {
    && Quiescent(s) && |s.cells| == |s.hist| == 2 + m && |s.calls| == 2 && m <= |a| == |b|
    && |s.contexts| == 1 && s.contexts[0].alive && (forall i :: s.channel(i).Accepted?)
    && IsAsk(s, 0) && IsAsk(s, 1) && s.cells[0].status == TRUTH && s.cells[1].status.Empty?
    && forall i :: 0 <= i < m ==> IsSource(s, a, b, i)
  }

  lemma FirstAnswered(s: State, s': State, a: seq<Status>, b: seq<Status>)
    requires Asked(s, 2) && Quiescent(s') && Dispatched(s, s', 0, TRUTH) && |a| == |b|
    ensures Prepared(s', a, b, 0)
  {
    hide Quiescent, AttemptTaken, IdOf, BooksLater, Source, Constant;
    AskedStays(s, s');
    NoFinalNoDoom(s', 0);
    assert IsAsk(s, 0) && IsAsk(s, 1);
  }

  lemma AskedStays(s: State, s': State)
    requires Asked(s, 2) && Quiescent(s') && Dispatched(s, s', 0, TRUTH)
    ensures |s'.cells| == |s'.hist| == |s'.calls| == 2 && s'.channel == s.channel
    ensures s'.hist[0].bound.None? && s'.hist[1].bound.None?
  {
    assert |s'.cells| == |s'.hist|;
    hide Quiescent;
    assert IsAsk(s, 0) && IsAsk(s, 1);
    assert forall i :: 0 <= i < 2 ==> Rests(s.cells, s.hist, s'.cells, s'.hist, i);
  }

  lemma NoTimeoutsYet(s: State, a: seq<Status>, b: seq<Status>, m: nat)
    requires Prepared(s, a, b, m)
    ensures forall i :: 0 <= i < |s.cells| ==> !s.cells[i].kind.Timeout?
  {
    hide Quiescent;
    forall i | 0 <= i < |s.cells| ensures !s.cells[i].kind.Timeout? {
      if i >= 2 {
        assert IsSource(s, a, b, i - 2);
      }
    }
  }

  lemma PreparedRoom(s: State, a: seq<Status>, b: seq<Status>, m: nat)
    requires Prepared(s, a, b, m)
    ensures HasRoom(s, 1) && HasRoom(s, 0)
  {
    NoTimeoutsYet(s, a, b, m);
    NoneUnstarted(s.cells);
    SmallRoom(s, 1);
    LessRoom(s, 1, 0);
  }

  lemma InputDerived(s: State, s': State, l: nat, a: seq<Status>, b: seq<Status>, m: nat)
    requires Prepared(s, a, b, m) && m < |a| && Quiescent(s')
    requires NodeBuilt(s, s', l, Derived([Source(a, m)], Constant(b[m])), 0)
    ensures Prepared(s', a, b, m + 1)
  {
    assert |s'.cells| == |s'.hist|;
    NoTimeoutsYet(s, a, b, m);
    hide Quiescent;
    forall i | 0 <= i < m + 1 ensures IsSource(s', a, b, i) {
      assert i < m ==> IsSource(s, a, b, i);
    }
  }

  lemma HaveSources(s: State, a: seq<Status>, b: seq<Status>)
    requires |a| == |b| && forall i :: 0 <= i < |a| ==> IsSource(s, a, b, i)
    ensures forall i :: 0 <= i < |a| ==> HasSource(s, a, b, i)
  {
    forall i | 0 <= i < |a| ensures HasSource(s, a, b, i) {
      assert IsSource(s, a, b, i);
    }
  }

  /** The inputs are what `a` says while the second call is under way, and what `b` says after it. */
  lemma InputsAre(s: State, a: seq<Status>, b: seq<Status>)
    requires Quiescent(s) && Refines(a, b) && 2 + |a| <= |s.cells| && s.cells[0].status == TRUTH
    requires forall i :: 0 <= i < |a| ==> HasSource(s, a, b, i)
    ensures Args(s.cells, Inputs(|a|)) == if s.cells[1].status.Empty? then a else b
  {
    var args := Args(s.cells, Inputs(|a|));
    forall i | 0 <= i < |a| ensures args[i] == if s.cells[1].status.Empty? then a[i] else b[i] {
      assert HasSource(s, a, b, i);
      ConstantCell(s, 2 + i, Source(a, i), b[i]);
    }
  }

  lemma InputsFit(s: State, a: seq<Status>, b: seq<Status>)
    requires Prepared(s, a, b, |a|)
    ensures AreInputs(s, Inputs(|a|), 0)
  {
    hide Quiescent;
    forall k | 0 <= k < |a| ensures IsInput(s, Inputs(|a|)[k], 0) {
      assert IsSource(s, a, b, k);
    }
  }

  /** The timeout cell waits for its first attempt, made on `a`, while the second call is under way. */
  ghost predicate UnderWay(s: State, a: seq<Status>, b: seq<Status>, start: seq<Status> -> StartResult, budget: nat) {
    var t := 2 + |a|;
    && |a| == |b| && Quiescent(s) && |s.cells| == |s.hist| == t + 3 && |s.calls| == 3
    && |s.contexts| == 1 && s.contexts[0].alive
    && IsAsk(s, 0) && IsAsk(s, 1) && s.cells[0].status == TRUTH && s.cells[1].status.Empty?
    && (forall i :: 0 <= i < |a| ==> IsSource(s, a, b, i))
    && s.cells[t].kind == Timeout(Inputs(|a|), start, budget) && s.cells[t].alive && s.cells[t].ctx == 0
    && s.cells[t].started && s.cells[t].status.Empty? && s.cells[t].retries == budget && s.hist[t].attempts == [t + 1]
    && s.cells[t + 1].kind.Rpc? && s.cells[t + 1].status.Empty? && s.cells[t + 1].seqId == IdOf(3)
    && s.hist[t + 1].bound == Some(t) && s.cells[t + 2].kind.Bind?
  }

  lemma AttemptUnderWay(s: State, s': State, t: nat, a: seq<Status>, b: seq<Status>,
                        start: seq<Status> -> StartResult, budget: nat)
    requires Prepared(s, a, b, |a|) && Quiescent(s') && BalksBetween(start, a, b)
    requires NodeBuilt(s, s', t, Timeout(Inputs(|a|), start, budget), 0)
    requires FirstAttemptMade(s, s', t, Timeout(Inputs(|a|), start, budget))
    ensures UnderWay(s', a, b, start, budget)
  {
    HaveSources(s, a, b);
    InputsAre(s, a, b);
    hide Quiescent;
    assert FirstAttempt(s, s', t, start(a).out) by {
      assert StartsWith(s.cells, Timeout(Inputs(|a|), start, budget), start(a).out);
    }
    forall i | 0 <= i < |a| ensures IsSource(s', a, b, i) {
      assert IsSource(s, a, b, i);
    }
  }

  lemma NothingFinal(s: State, a: seq<Status>, b: seq<Status>, start: seq<Status> -> StartResult, budget: nat)
    requires UnderWay(s, a, b, start, budget)
    ensures forall i :: 0 <= i < |s.cells| ==> !s.cells[i].kind.Final? && (s.cells[i].kind.Timeout? ==> i == 2 + |a|)
  {
    hide Quiescent;
    forall i | 0 <= i < |s.cells| ensures !s.cells[i].kind.Final? && (s.cells[i].kind.Timeout? ==> i == 2 + |a|) {
      if 2 <= i < 2 + |a| {
        assert IsSource(s, a, b, i - 2);
      }
    }
  }

  lemma UnderWayRoom(s: State, a: seq<Status>, b: seq<Status>, start: seq<Status> -> StartResult, budget: nat)
    requires UnderWay(s, a, b, start, budget)
    ensures Quiescent(s) && HasRoom(s, 1) && 2 in s.idFuncMap && s.idFuncMap[2] == 1 && OutOf(s, 2) == Some(ASK)
    ensures Answer(ASK, Succeeded, [1]) == TRUTH
  {
    SmallIds();
    hide IdOf;
    NothingFinal(s, a, b, start, budget);
    NoneUnstarted(s.cells);
    SmallRoom(s, 1);
    EmptyIsRegistered(s, 1);
  }

  /** While the rpc cell of an attempt is empty, its timeout cell waits for it. */
  lemma StillWaiting(s: State, t: nat, a: nat)
    requires Quiescent(s) && t < |s.cells| == |s.hist| && a < |s.cells| && s.cells[a].kind.Rpc?
    requires s.hist[a].bound == Some(t) && s.hist[a].slot == 0 && s.cells[a].status.Empty?
    ensures s.hist[t].attempts == [a] && s.cells[t].kind.Timeout? && s.cells[t].started && s.cells[t].status.Empty?
    ensures s.cells[t].retries == s.cells[t].kind.budget && s.cells[a].alive == s.cells[t].alive
  {
    EmptyAttemptIsLast(s.cells, s.hist, a, t);
    assert NodeBase(s.cells, s.hist, t) && AttemptsOk(s.cells, s.hist, t) && KindOk(s.cells, t);
    var l := s.cells[a].listeners[0];
    assert FellowsOk(s.cells, l) && Deps(s.cells[l].kind)[0] == a;
  }

  /** The second answer gives the start function inputs on which it defers. */
  lemma SecondBalks(s: State, s': State, a: seq<Status>, b: seq<Status>, start: seq<Status> -> StartResult, budget: nat)
    requires UnderWay(s, a, b, start, budget) && Quiescent(s') && Dispatched(s, s', 1, TRUTH)
    requires BalksBetween(start, a, b) && budget > 0
    ensures WillBalk(s', 3 + |a|) && s'.hist[3 + |a|].bound == Some(2 + |a|)
  {
    NothingStarted(s, s', a, b, start, budget);
    hide Quiescent, StartsCall, Dispatched, UnderWay;
    HaveSources(s', a, b);
    InputsAre(s', a, b);
  }

  /** Nothing else comes of the second answer. */
  lemma SecondAnswered(s: State, s': State, a: seq<Status>, b: seq<Status>, start: seq<Status> -> StartResult,
                       budget: nat)
    requires UnderWay(s, a, b, start, budget) && Quiescent(s') && Dispatched(s, s', 1, TRUTH)
    ensures 3 in s'.idFuncMap && s'.idFuncMap[3] == 3 + |a| && HasRoom(s', 1) && |s'.calls| == 3
    ensures 2 + |a| < |s'.cells| == |s'.hist| && s'.cells[2 + |a|].kind == Timeout(Inputs(|a|), start, budget)
  {
    hide *;
    SmallIds();
    NothingStarted(s, s', a, b, start, budget);
    SmallRoom(s', 1);
    EmptyIsRegistered(s', 3 + |a|);
  }

  lemma NothingStarted(s: State, s': State, a: seq<Status>, b: seq<Status>, start: seq<Status> -> StartResult,
                       budget: nat)
    requires UnderWay(s, a, b, start, budget) && Quiescent(s') && Dispatched(s, s', 1, TRUTH)
    ensures var t := 2 + |a|;
            && |s'.cells| == |s'.hist| == t + 3 && |s'.calls| == 3
            && s'.cells[0].status == s'.cells[1].status == TRUTH && (forall i :: 0 <= i < |a| ==> IsSource(s', a, b, i))
            && s'.cells[t].kind == Timeout(Inputs(|a|), start, budget) && s'.cells[t].retries == budget
            && s'.cells[t + 1].kind.Rpc? && s'.cells[t + 1].status.Empty? && s'.cells[t + 1].alive
            && s'.cells[t + 1].seqId == IdOf(3) && s'.hist[t + 1].bound == Some(t)
    ensures Unstarted(s'.cells) == {}
  {
    var t := 2 + |a|;
    FirstSlot(s, a, b, start, budget);
    assert |s'.cells| == |s'.hist|;
    hide Quiescent;
    NothingFinal(s, a, b, start, budget);
    StillWaiting(s', t, t + 1);
    assert |s'.cells| == t + 3 && |s'.calls| == 3 by {
      assert forall i :: 0 <= i < |s.cells| ==> Rests(s.cells, s.hist, s'.cells, s'.hist, i);
    }
    hide OnlyTimeoutsCall;
    NoFinalNoDoom(s', 0);
    NoneUnstarted(s'.cells);
    forall i | 0 <= i < |a| ensures IsSource(s', a, b, i) {
      assert IsSource(s, a, b, i);
    }
  }

  lemma FirstSlot(s: State, a: seq<Status>, b: seq<Status>, start: seq<Status> -> StartResult, budget: nat)
    requires UnderWay(s, a, b, start, budget)
    ensures s.hist[3 + |a|].slot == 0
  {
    assert KindOk(s.cells, 2 + |a|) && NodeBase(s.cells, s.hist, 2 + |a|) && AttemptsOk(s.cells, s.hist, 2 + |a|);
    assert s.hist[2 + |a|].attempts[0] == 3 + |a|;
  }

  // ---------------------------------------------------------------- the run

  /** A client with one interaction. */
  method OneInteraction() returns (client: Runtime, ghost trace: seq<State>, ghost events: seq<Event>)
    ensures fresh(client) && fresh(client.ids) && client.Valid() && IsRunTo(trace, events, client.S())
    ensures client.cells == [] && client.hist == [] && client.calls == [] && client.idFuncMap == map[]
    ensures client.contexts == [Context([], None, true, false)] && client.channel == AlwaysAccepted()
  {
    client := new Runtime(AlwaysAccepted());
    trace, events := [client.S()], [];
    var ctx := client.NewContext();
    RunStepped(trace, events, trace[0], client.S());
    trace, events := trace + [client.S()], events + [UserCode];
  }

  /** Two calls in it. */
  method TwoCalls() returns (client: Runtime, ghost trace: seq<State>, ghost events: seq<Event>)
    ensures fresh(client) && fresh(client.ids) && client.IdsOk()
    ensures Asked(client.S(), 2) && IsRunTo(trace, events, client.S())
  {
    client, trace, events := OneInteraction();
    trace, events := Ask(client, 0, trace, events);
    trace, events := Ask(client, 1, trace, events);
  }

  method Ask(client: Runtime, n: nat, ghost trace0: seq<State>, ghost events0: seq<Event>)
    returns (ghost trace: seq<State>, ghost events: seq<Event>)
    requires Asked(client.S(), n) && n < CYCLE && client.IdsOk() && IsRunTo(trace0, events0, client.S())
    modifies client, client.ids
    ensures Asked(client.S(), n + 1) && client.IdsOk() && IsRunTo(trace, events, client.S())
  {
    ghost var s := client.S();
    AskedRoom(s, n);
    var c := client.CallStub(0, ASK);
    hide Quiescent, CallMade, Extended, PendingRpc, FailedRpc;
    AskedOnce(s, client.S(), c);
    RunStepped(trace0, events0, s, client.S());
    trace, events := trace0 + [client.S()], events0 + [UserCode];
  }

  lemma RunStepped(trace: seq<State>, events: seq<Event>, s: State, s': State)
    requires IsRunTo(trace, events, s) && Quiescent(s) && Quiescent(s') && Quiet(s, s')
    ensures IsRunTo(trace + [s'], events + [UserCode], s')
  {
    hide Quiescent, Quiet;
    RunGoesOn(trace, events, s, s', UserCode);
  }

  lemma RunAnswered(trace: seq<State>, events: seq<Event>, s: State, s': State, id: nat)
    requires IsRunTo(trace, events, s) && Quiescent(s) && Quiescent(s') && TakesResponse(s, s', id, Succeeded, [1])
    ensures IsRunTo(trace + [s'], events + [ResponseFor(id, Succeeded, [1])], s')
  {
    hide Quiescent, TakesResponse;
    RunGoesOn(trace, events, s, s', ResponseFor(id, Succeeded, [1]));
  }

  lemma RunTimedOut(trace: seq<State>, events: seq<Event>, s: State, s': State, id: nat)
    requires IsRunTo(trace, events, s) && Quiescent(s) && Quiescent(s') && TakesTimeout(s, s', id, false)
    requires |s.calls| <= CYCLE
    ensures IsRunTo(trace + [s'], events + [TimeoutFor(id)], s')
  {
    hide Quiescent, TakesTimeout;
    FilterChangesNoStep(s, s', TimeoutFor(id));
    RunGoesOn(trace, events, s, s', TimeoutFor(id));
  }

  method Prepare(a: seq<Status>, b: seq<Status>)
    returns (client: Runtime, ghost trace: seq<State>, ghost events: seq<Event>)
    requires |a| == |b|
    ensures fresh(client) && fresh(client.ids) && client.IdsOk()
    ensures Prepared(client.S(), a, b, |a|) && IsRunTo(trace, events, client.S())
  {
    client, trace, events := TwoCalls();
    ghost var s := client.S();
    FirstToAnswer(s);
    hide Quiescent, Dispatched, TakesResponse, AttemptTaken, Asked;
    client.HandleRpcRsp(1, Succeeded, [1]);
    FirstAnswered(s, client.S(), a, b);
    RunAnswered(trace, events, s, client.S(), 1);
    trace, events := trace + [client.S()], events + [ResponseFor(1, Succeeded, [1])];
    for m := 0 to |a|
      invariant fresh(client) && fresh(client.ids) && client.IdsOk()
      invariant Prepared(client.S(), a, b, m) && IsRunTo(trace, events, client.S())
    {
      trace, events := DeriveInput(client, a, b, m, trace, events);
    }
  }

  method DeriveInput(client: Runtime, a: seq<Status>, b: seq<Status>, m: nat, ghost trace0: seq<State>,
                     ghost events0: seq<Event>)
    returns (ghost trace: seq<State>, ghost events: seq<Event>)
    requires Prepared(client.S(), a, b, m) && m < |a| && client.IdsOk() && IsRunTo(trace0, events0, client.S())
    modifies client, client.ids
    ensures Prepared(client.S(), a, b, m + 1) && client.IdsOk() && IsRunTo(trace, events, client.S())
  {
    hide Quiescent, NodeBuilt;
    ghost var s := client.S();
    PreparedRoom(s, a, b, m);
    var l := client.DeriveCell(0, Constant(b[m]), [Source(a, m)]);
    InputDerived(s, client.S(), l, a, b, m);
    RunStepped(trace0, events0, s, client.S());
    trace, events := trace0 + [client.S()], events0 + [UserCode];
  }

  /**
   * A run in which a timeout cell with this start function and budget stalls: its first attempt is made when its
   * inputs are `a`, and by the time that attempt times out they have become `b`.
   */
  method StallingRun(start: seq<Status> -> StartResult, budget: nat, a: seq<Status>, b: seq<Status>)
    returns (client: Runtime, t: nat, ghost trace: seq<State>, ghost events: seq<Event>)
    requires budget > 0 && BalksBetween(start, a, b)
    ensures fresh(client) && client.Valid() && IsRunTo(trace, events, client.S())
    ensures StalledAt(client.S(), t, start, |a|, budget)
  {
    hide Quiescent, NodeBuilt, FirstAttemptMade, Dispatched, WillBalk, AttemptTaken, IsSource, UnderWay, HasRoom,
         StartsCall, AreInputs, IsRunTo, TakesResponse, TakesTimeout, Quiet, StalledAt;
    client, trace, events := Prepare(a, b);
    ghost var s := client.S();
    PreparedRoom(s, a, b, |a|);
    InputsFit(s, a, b);
    t := client.DeriveRpcCell(0, budget, start, Inputs(|a|));
    AttemptUnderWay(s, client.S(), t, a, b, start, budget);
    RunStepped(trace, events, s, client.S());
    trace, events := trace + [client.S()], events + [UserCode];

    s := client.S();
    UnderWayRoom(s, a, b, start, budget);
    client.HandleRpcRsp(2, Succeeded, [1]);
    SecondAnswered(s, client.S(), a, b, start, budget);
    SecondBalks(s, client.S(), a, b, start, budget);
    RunAnswered(trace, events, s, client.S(), 2);
    trace, events := trace + [client.S()], events + [ResponseFor(2, Succeeded, [1])];

    s := client.S();
    client.OnRspHandlerTimeout(3);
    t := 2 + |a|;
    NowStalled(s, client.S(), t, start, |a|, budget);
    RunTimedOut(trace, events, s, client.S(), 3);
    trace, events := trace + [client.S()], events + [TimeoutFor(3)];
  }

  ghost predicate StalledAt(s: State, t: nat, start: seq<Status> -> StartResult, n: nat, budget: nat) {
    && t < |s.cells| == |s.hist| && s.cells[t].kind.Timeout? && s.hist[t].stalled
    && s.cells[t].kind.start == start && |s.cells[t].kind.inputs| == n && s.cells[t].kind.budget == budget
  }

  lemma NowStalled(s: State, s': State, t: nat, start: seq<Status> -> StartResult, n: nat, budget: nat)
    requires Quiescent(s') && Dispatched(s, s', t + 1, Error(TimedOut)) && AttemptTaken(s, s', t + 1, Error(TimedOut))
    requires WillBalk(s, t + 1) && s.hist[t + 1].bound == Some(t)
    requires s.cells[t].kind == Timeout(Inputs(n), start, budget)
    ensures StalledAt(s', t, start, n, budget)
  {
    assert |s'.cells| == |s'.hist|;
    hide Quiescent;
  }
}
