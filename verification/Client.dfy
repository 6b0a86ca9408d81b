/** The client side of msgrpc: stubs, cells and their propagation, retries, and the registry of pending calls. */
module Client {
  import opened RpcTypes
  import opened SequenceIds
  import opened Cells
  import opened Propagation
  import opened ClientState
  import opened ClientSteps
  import opened ClientGraph
  import opened ClientDispatch
  import opened ClientProperties
  import opened ClientRuns

  class Runtime {
    var cells: seq<Cell>
    var contexts: seq<Context>
    var idFuncMap: map<nat, nat>
    var timers: seq<nat>
    var canceledTimerIds: seq<nat>
    var sent: seq<Sent>
    const ids: RpcSequenceId
    const channel: nat -> Delivery  // what becomes of the call made with each rpc cell

    ghost var hist: seq<History>
    ghost var calls: seq<nat>
    ghost var canceledCalls: seq<nat>
    ghost var sentCalls: seq<nat>
    ghost var registered: multiset<Edge>
    ghost var notified: multiset<Edge>
    ghost var owed: multiset<Edge>
    ghost var answering: Option<nat>  // the rpc cell whose response or timeout is being delivered
    ghost var wiring: nat             // the node whose constructor is registering it (0: none) ...
    ghost var wired: nat              // ... and how many of its inputs it has registered with
    ghost var retrying: Option<nat>   // the timeout cell whose start function is being called for a retry

    constructor (channel: nat -> Delivery)
      ensures Valid() && cells == [] && contexts == [] && idFuncMap == map[] && sent == [] && calls == []
      ensures fresh(ids) && this.channel == channel
    {
      this.channel := channel;
      cells, contexts, idFuncMap, timers, canceledTimerIds, sent := [], [], map[], [], [], [];
      hist, calls, canceledCalls, registered, notified, owed := [], [], [], multiset{}, multiset{}, multiset{};
      answering, wiring, wired, retrying, sentCalls := None, 0, 0, None, [];
      ids := new RpcSequenceId();
    }

    ghost function S(): State
      reads this
    {
      State(cells, contexts, idFuncMap, timers, canceledTimerIds, sent, hist, calls, canceledCalls, sentCalls,
            registered, notified, owed, answering, wiring, wired, retrying, channel)
    }

    ghost predicate IdsOk()
      reads this, ids
    {
      ids.Valid() && ids.calls == |calls|
    }

    ghost predicate Valid()
      reads this, ids
    {
      Quiescent(S()) && IdsOk()
    }

    // -------------------------------------------------------------- settling and propagation

    /** set_value and set_failed_reason. */
    method Settle(c: nat, r: Status, ghost X: set<nat>)
      requires c < |cells| && CanSettle(S(), c, r, X) && IdsOk() && HasRoom(S(), if cells[c].kind.Rpc? then 1 else 0)
      modifies this, ids
      ensures InvBut(S(), X) && IdsOk() && HasRoom(S(), 0) && owed == old(owed)
      ensures Progressed(old(S()), SetStatus(old(cells), c, r), S(), old(Reach(S(), c)).0, old(Reach(S(), c)).1)
      ensures AttemptTaken(old(S()), S(), c, r)
      ensures Unsettled(S()) <= old(Unsettled(S())) - {c}
      ensures c < |cells| && cells[c].status == r && NoneAnew(old(S()), S())
      decreases Unsettled(S()), if cells[c].kind.Rpc? then 7 else 0
    {
      hide InvBut, CanSettle, CanPropagate, HasRoom, Progressed, Reach, Unsettled, AttemptTaken, NoneAnew;
      ghost var s := S();
      SettledCanPropagate(s, c, r, X);
      cells := cells[c := cells[c].(status := r)];
      owed := owed + Owe(c, cells[c].listeners);
      assert S() == Settled(s, c, r);
      EvaluateAllDerivedCells(c, X);
      ProgressSinceSettled(s, c, r, S());
      TakenSinceSettled(s, c, r, S());
      TakesOutcome(s, c, r, S(), Reach(s, c).0, Reach(s, c).1);
      NoneAnewSince(s, Settled(s, c, r), S());
    }

    method EvaluateAllDerivedCells(c: nat, ghost X: set<nat>)
      requires c < |cells| && CanPropagate(S(), c, X) && IdsOk()
      modifies this, ids
      ensures InvBut(S(), X) && IdsOk() && HasRoom(S(), 0)
      ensures owed == old(owed) - Owe(c, old(cells[c].listeners))
      ensures Progressed(old(S()), old(cells), S(), old(Reach(S(), c)).0, old(Reach(S(), c)).1)
      ensures AttemptTaken(old(S()), S(), c, old(cells[c].status))
      ensures Unsettled(S()) <= old(Unsettled(S())) && NoneAnew(old(S()), S())
      ensures forall d :: d in old(cells[c].listeners) ==>
                notified[(c, d)] == old(notified)[(c, d)] + multiset(old(cells[c].listeners))[d]
      decreases Unsettled(S()), 6
    {
      hide UpdatedAs, AttemptTaken, CanPropagate, CanUpdate, Propagating, InvBut, HasRoom, Progressed, Reach, Unsettled,
           Affects, FlagReached, Owe, Elements, Waiter, NoneAnew;
      ghost var b := S();
      PropagationStarts(b, c, X);
      NothingRegistered(b, b);
      var size := |cells[c].listeners|;
      for i := 0 to size
        invariant Propagating(b, S(), c, X, i) && IdsOk()
        invariant Unsettled(S()) <= Unsettled(b) && NoneAnew(b, S())
        invariant i > 0 ==> AttemptTaken(b, S(), c, b.cells[c].status)
      {
        NextUpdate(b, S(), c, X, i);
        var l := cells[c].listeners[i];
        ghost var s := S();
        Update(c, l, X + Elements(b.cells[c].listeners[i + 1..]));
        NextUpdated(b, s, S(), c, X, i);
        NextTakes(b, s, S(), c, X, i);
        NoneAnewOn(b, s, S());
      }
      PropagationEnds(b, S(), c, X);
      NothingToTake(b, c, X, S());
      ListenersUpdated(b, S(), c, X, Reach(b, c).0, Reach(b, c).1);
    }

    /** The virtual `update` of listener `l`, called because cell `c` has settled. */
    method Update(ghost c: nat, l: nat, ghost X: set<nat>)
      requires l < |cells| && (c, l) in owed && CanUpdate(Notified(S(), c, l), l, X) && IdsOk()
      modifies this, ids
      ensures InvBut(S(), X) && IdsOk() && HasRoom(S(), 0) && owed == old(owed) - multiset{(c, l)}
      ensures Progressed(old(Notified(S(), c, l)), old(cells), S(), old(Affects(cells, l)), old(FlagReached(S(), l)))
      ensures UpdatedAs(old(Notified(S(), c, l)), S(), l) && NoneAnew(old(S()), S())
      ensures Unsettled(S()) <= old(Unsettled(S()))
      decreases Unsettled(S()), 5
    {
      hide InvBut, CanUpdate, HasRoom, Progressed, Unsettled, StartedAs, AttemptEnded, NoneAnew;
      ghost var s := S();
      RecordUpdate(c, l);
      UpdateArgs(S(), l, X);
      match cells[l].kind {
        case Derived(inputs, logic) =>
          UpdateDerived(l, X);
        case Timeout(_, _, _) =>
          UpdateTimeout(l, X);
        case Bind(rpc, target) =>
          OnAttemptDone(l, X);
        case Final(_) =>
          RunFinalAction(l, X);
          NothingRegistered(Notified(s, c, l), S());
        case _ =>
          ActionIsUpToDate(S(), l, X);
          NothingRegistered(S(), S());
      }
      NoneAnewSince(s, Notified(s, c, l), S());
    }

    /** For the proofs: `l` gets the update it is owed. */
    ghost method RecordUpdate(c: nat, l: nat)
      requires l < |cells|
      modifies `notified, `owed
      ensures S() == old(Notified(S(), c, l)) && IdsOk() == old(IdsOk())
      ensures owed == old(owed) - multiset{(c, l)}
      ensures Unsettled(S()) == old(Unsettled(S())) && FlagReached(S(), l) == old(FlagReached(S(), l))
    {
      notified, owed := notified + multiset{(c, l)}, owed - multiset{(c, l)};
    }

    /** DerivedCell::update. */
    method UpdateDerived(d: nat, ghost X: set<nat>)
      requires CanUpdate(S(), d, X) && cells[d].kind.Derived? && IdsOk()
      modifies this, ids
      ensures InvBut(S(), X) && IdsOk() && HasRoom(S(), 0) && owed == old(owed)
      ensures Progressed(old(S()), old(cells), S(), d, None) && NoneAnew(old(S()), S())
      ensures Unsettled(S()) <= old(Unsettled(S()))
      ensures d < |cells| && cells[d].status == if old(cells[d].status.Empty?)
                then old(cells[d].kind.logic(Args(cells, cells[d].kind.inputs))) else old(cells[d].status)
      decreases Unsettled(S()), 4
    {
      if cells[d].status.Empty? {
        DerivedCanSettle(S(), d, X);
        var r := cells[d].kind.logic(Args(cells, cells[d].kind.inputs));
        if !r.Empty? {
          ghost var s := S();
          Settle(d, r, X);
          SettledProgress(s, d, r, S(), None);
        }
      } else {
        UpToDate(S(), d, X);
      }
    }

    /** TimeoutCell::update. */
    method UpdateTimeout(t: nat, ghost X: set<nat>)
      requires CanUpdate(S(), t, X) && cells[t].kind.Timeout? && IdsOk()
      modifies this, ids
      ensures InvBut(S(), X) && IdsOk() && HasRoom(S(), 0) && owed == old(owed)
      ensures Progressed(old(S()), old(cells), S(), t, None) && NoneAnew(old(S()), S())
      ensures Unsettled(S()) <= old(Unsettled(S()))
      ensures InRange(old(cells), old(cells[t].kind.inputs))
      ensures if old(cells[t].status.Empty? && !cells[t].started)
              then StartedAs(old(S()), S(), t, old(cells[t].kind.start(Args(cells, cells[t].kind.inputs))))
              else S() == old(S())
      decreases Unsettled(S()), 4
    {
      var shouldStartRpc := cells[t].status.Empty? && !cells[t].started;
      if shouldStartRpc {
        InvokeRpcOnce(t, X);
      } else {
        StartedIsUpToDate(S(), t, X);
      }
    }

    /** DerivedAction::update of a final action: its cell is deleted, here at the end of the dispatch. */
    method RunFinalAction(l: nat, ghost X: set<nat>)
      requires l < |cells| && CanUpdate(S(), l, X) && cells[l].kind.Final? && IdsOk()
      modifies `cells, `contexts
      ensures InvBut(S(), X) && HasRoom(S(), 0)
      ensures Progressed(old(S()), old(cells), S(), l, None)
      ensures Unsettled(S()) == old(Unsettled(S()))
      ensures old(cells[l].ctx) < |old(contexts)|
      ensures S() == if old(cells[l].armed) then Doomed(old(S()), l) else old(S())
    {
      hide CanUpdate, InvBut, HasRoom, Progressed, Unsettled;
      DoomKeepsInv(S(), l, X);
      if cells[l].armed {
        var k := cells[l].ctx;
        cells := cells[l := cells[l].(started := true)];
        contexts := contexts[k := contexts[k].(doomed := true)];
      }
    }

    // -------------------------------------------------------------- retries

    /** The action that bind_timeout_cell attaches to the rpc cell of an attempt. */
    method OnAttemptDone(b: nat, ghost X: set<nat>)
      requires b < |cells| && CanUpdate(S(), b, X) && cells[b].kind.Bind? && IdsOk()
      modifies this, ids
      ensures InvBut(S(), X) && IdsOk() && HasRoom(S(), 0) && owed == old(owed)
      ensures Progressed(old(S()), old(cells), S(), old(Affects(cells, b)), old(FlagReached(S(), b)))
      ensures Unsettled(S()) <= old(Unsettled(S()))
      ensures AttemptEnded(old(S()), S(), b) && NoneAnew(old(S()), S())
      ensures var a, t, was := old(cells[b].kind.rpc), old(cells[b].kind.target), old(cells);
              && a < |was| && t < |was| && t < |cells|
              && (was[a].status != Error(TimedOut) ==>
                    cells[t].status == was[a].status && old(canceledTimerIds) + [was[a].seqId] <= canceledTimerIds)
              && (was[a].status == Error(TimedOut) && was[t].retries == 0 ==> cells[t].status == Error(TimedOut))
              && (was[a].status == Error(TimedOut) && was[t].retries == 0 && was[t].flag.Some? ==>
                    was[t].flag.value < |cells| && cells[was[t].flag.value].status == Value(VBool(true)))
      decreases Unsettled(S()), 4
    {
      hide InvBut, CanUpdate, CanSettle, HasRoom, Progressed, Unsettled, NoneAnew;
      BindActionArgs(S(), b, X);
      var a, t := cells[b].kind.rpc, cells[b].kind.target;
      if cells[a].status == Error(TimedOut) {
        RetryRpcIfNeed(b, X);
      } else {
        ghost var s := S();
        AnsweredCancelCanSettle(s, b, X);
        canceledTimerIds := canceledTimerIds + [cells[a].seqId];
        canceledCalls := canceledCalls + [hist[a].call];
        assert S() == Canceled(s, a);
        Settle(t, cells[a].status, X);
        AnsweredProgress(s, b, X, S());
        NoneAnewSince(s, Canceled(s, a), S());
      }
    }

    /** retry_rpc_if_need. */
    method RetryRpcIfNeed(b: nat, ghost X: set<nat>)
      requires b < |cells| && CanUpdate(S(), b, X) && cells[b].kind.Bind? && IdsOk()
      requires cells[cells[b].kind.rpc].status == Error(TimedOut)
      modifies this, ids
      ensures InvBut(S(), X) && IdsOk() && HasRoom(S(), 0) && owed == old(owed)
      ensures Progressed(old(S()), old(cells), S(), old(Affects(cells, b)), old(FlagReached(S(), b)))
      ensures Unsettled(S()) <= old(Unsettled(S()))
      ensures AttemptEnded(old(S()), S(), b) && NoneAnew(old(S()), S())
      decreases Unsettled(S()), 3
    {
      hide InvBut, CanUpdate, CanSettle, CanStart, HasRoom, Progressed, RoomToStart, Unsettled, NoneAnew;
      ghost var s := S();
      BindActionArgs(s, b, X);
      var t := cells[b].kind.target;
      if cells[t].retries > 0 {
        TimedOutCanRetry(s, b, X);
        UseRetry(t);
        InvokeRpcOnce(t, X);
        RetriedProgress(s, b, X, S());
        RetryEndsAttempt(s, b, X, S());
        NoneAnewSince(s, Retried(s, t), S());
      } else {
        GiveUp(b, X);
      }
    }

    /** One retry is used up; its attempt has not started yet. */
    method UseRetry(t: nat)
      requires t < |cells| == |hist| && cells[t].retries > 0
      modifies `cells, `hist, `retrying
      ensures S() == Retried(old(S()), t) && IdsOk() == old(IdsOk())
    {
      cells := cells[t := cells[t].(retries := cells[t].retries - 1)];
      hist, retrying := hist[t := hist[t].(stalled := true)], Some(t);
    }

    /** No retry is left: the timeout cell takes the timeout, then its flag is set. */
    method GiveUp(b: nat, ghost X: set<nat>)
      requires b < |cells| && CanUpdate(S(), b, X) && cells[b].kind.Bind? && IdsOk()
      requires cells[cells[b].kind.rpc].status == Error(TimedOut) && cells[cells[b].kind.target].retries == 0
      modifies this, ids
      ensures InvBut(S(), X) && IdsOk() && HasRoom(S(), 0) && owed == old(owed)
      ensures Progressed(old(S()), old(cells), S(), old(Affects(cells, b)), old(FlagReached(S(), b)))
      ensures Unsettled(S()) <= old(Unsettled(S()))
      ensures AttemptEnded(old(S()), S(), b) && NoneAnew(old(S()), S())
      decreases Unsettled(S()), 2
    {
      hide InvBut, CanUpdate, CanSettle, HasRoom, Progressed, Unsettled, NoneAnew;
      ghost var s := S();
      BindActionArgs(s, b, X);
      var t := cells[b].kind.target;
      ExhaustedCanSettle(s, b, X);
      Settle(t, Error(TimedOut), X + FlagSet(S(), t));
      ghost var s1 := S();
      TimeoutTakenProgress(s, b, X, s1);
      if cells[t].flag.Some? {
        FlagCanSettle(s, b, X, s1);
        var f := cells[t].flag.value;
        Settle(f, Value(VBool(true)), X);
        FlagProgress(s, s1, S(), t, f);
        FlagEndsAttempt(s, b, X, S());
        NoneAnewOn(s, s1, S());
      }
    }

    /** invoke_rpc_once. */
    method InvokeRpcOnce(t: nat, ghost X: set<nat>)
      requires CanStart(S(), t, X) && RoomToStart(S(), t, 1) && IdsOk()
      modifies this, ids
      ensures InvBut(S(), X) && IdsOk() && HasRoom(S(), 0) && owed == old(owed)
      ensures Progressed(old(S()), old(cells), S(), t, None) && NoneAnew(old(S()), S())
      ensures Unsettled(S()) <= old(Unsettled(S()))
      ensures InRange(old(cells), old(cells[t].kind.inputs))
      ensures StartedAs(old(S()), S(), t, old(cells[t].kind.start(Args(cells, cells[t].kind.inputs))))
      decreases Unsettled(S()), 2
    {
      hide InvBut, CanStart, HasRoom, RoomToStart, CanIssue, Extended, Progressed, Unsettled, FailedRpc, PendingRpc,
           CallMade, NoneAnew;
      ghost var s := S();
      StartArgs(s, t, X);
      var ctx := cells[t].ctx;
      ghost var slack := if cells[t].started then 0 else -1;
      match cells[t].kind.start(Args(cells, cells[t].kind.inputs)) {
        case Deferred =>
          DeferredIsUpToDate(s, t, X);
          retrying := None;
          NothingRegistered(s, S());
        case Fail(reason) =>
          RoomToIssue(s, t, X);
          var a := FailedCell(ctx, reason, slack, X + {t});
          StillStarting(s, S(), t, a, X);
          FailStart(t, a, s, X);
        case Call(out) =>
          RoomToIssue(s, t, X);
          var a := EncodeRequestAndSend(ctx, out, slack, X + {t});
          MadeFails(s, S(), a, out);
          StillStarting(s, S(), t, a, X);
          if cells[a].status.Error? {
            FailStart(t, a, s, X);
          } else {
            ghost var s1 := S();
            BindTimeoutCell(t, a, s, X);
            BoundIsStarted(s, s1, t, a, out);
          }
      }
    }

    /** The start of `t` gave the failed cell `a`: mark it started and take over the failure. */
    method FailStart(t: nat, a: nat, ghost s: State, ghost X: set<nat>)
      requires t < |s.cells| == |s.hist| && Extended(s, S()) && FailedRpc(S(), a) && IdsOk()
      requires CanStart(S(), t, X) && RoomToStart(S(), t, 0) && NewOk(cells, |s.cells|)
      modifies this, ids
      ensures InvBut(S(), X) && IdsOk() && HasRoom(S(), 0) && owed == s.owed
      ensures Progressed(s, s.cells, S(), t, None)
      ensures t < |cells| && cells[t].started && cells[t].status == old(cells[a].status)
      ensures Unsettled(S()) <= Unsettled(s) && NoneAnew(s, S())
      decreases Unsettled(S()), 1
    {
      hide CanStart, CanSettle, InvBut, HasRoom, Progressed, RoomToStart, Unsettled, NoneAnew;
      ghost var s1 := S();
      StartArgs(s1, t, X);
      StalledIsRetrying(s1, t, X);
      FailedStartCanSettle(s1, t, cells[a].status.reason, X);
      cells := cells[t := cells[t].(started := true)];
      hist, retrying := hist[t := hist[t].(stalled := false)], None;
      assert S() == StartFailed(s1, t);
      Settle(t, cells[a].status, X);
      FailedStartProgress(s, s1, t, s1.cells[a].status, S());
      ExtendedAnew(s, s1, StartFailed(s1, t), S());
    }

    /** set_timer and bind_timeout_cell for the attempt of `t` made with rpc cell `a`. */
    method BindTimeoutCell(t: nat, a: nat, ghost s: State, ghost X: set<nat>)
      requires t < |s.cells| == |s.hist| && |s.cells| <= a && Extended(s, S())
      requires CanBind(S(), t, a, X) && RoomToStart(S(), t, 0) && NewOk(cells, |s.cells|) && IdsOk()
      modifies `cells, `hist, `timers, `contexts, `registered, `retrying
      ensures InvBut(S(), X) && IdsOk() && HasRoom(S(), 0) && owed == s.owed
      ensures Progressed(s, s.cells, S(), t, None)
      ensures BindFits(old(S()), t, a) && S() == Bound(old(S()), t, a)
      ensures Unsettled(S()) <= Unsettled(s) && NoneAnew(s, S())
    {
      hide InvBut, CanBind, HasRoom, Progressed, RoomToStart, Unsettled, Extended, NoneAnew;
      ghost var s1 := S();
      BindArgs(s1, t, a, X);
      BindKeepsInv(s1, t, a, X);
      BoundAfterCall(s, s1, t, a, X);
      var b, k := |cells|, cells[t].ctx;
      timers := timers + [cells[a].seqId];
      contexts := contexts[k := contexts[k].(release := contexts[k].release + [b])];
      cells := cells[t := cells[t].(started := true)][a := cells[a].(listeners := [b])]
               + [NewCell(Bind(a, t), k).(owner := Listed)];
      hist := hist[t := hist[t].(attempts := hist[t].attempts + [a], stalled := false)]
                  [a := hist[a].(bound := Some(t), slot := |hist[t].attempts|)] + [NO_HISTORY];
      registered, retrying := registered + multiset{(a, b)}, None;
      assert S() == Bound(s1, t, a);
      BoundAnew(s, s1, t, a);
    }

    // -------------------------------------------------------------- calls

    /** failed_cell_with_reason. */
    method FailedCell(ctx: nat, reason: Reason, ghost slack: int, ghost X: set<nat>) returns (a: nat)
      requires InvBut(S(), X) && HasRoom(S(), slack) && ctx < |contexts| && contexts[ctx].alive
      modifies `cells, `hist, `contexts
      ensures a == |old(cells)| && S() == FailedCall(old(S()), ctx, reason)
      ensures InvBut(S(), X) && HasRoom(S(), slack) && Extended(old(S()), S()) && FailedRpc(S(), a)
      ensures NewOk(cells, |old(cells)|)
      ensures forall n :: 0 <= n <= |old(cells)| && old(NewOk(cells, n)) ==> NewOk(cells, n)
    {
      hide InvBut, HasRoom, Extended, FailedRpc;
      FailedCallKeepsInv(S(), ctx, reason, X, slack);
      a := NewRpcCell(None, ctx, Error(reason));
      Track(a);
    }

    method NewRpcCell(out: Option<Outgoing>, ctx: nat, status: Status) returns (a: nat)
      modifies `cells, `hist
      ensures a == |old(cells)| < |cells| && S() == Appended(old(S()), RpcCell(out, ctx, status), NO_HISTORY)
      ensures cells[a] == RpcCell(out, ctx, status)
    {
      a := |cells|;
      cells := cells + [RpcCell(out, ctx, status)];
      hist := hist + [NO_HISTORY];
    }

    /** RpcContext::track. */
    method Track(i: nat)
      requires i < |cells| && cells[i].ctx < |contexts|
      modifies `cells, `contexts
      ensures S() == Tracked(old(S()), i)
    {
      var k := cells[i].ctx;
      cells := cells[i := cells[i].(owner := Listed)];
      contexts := contexts[k := contexts[k].(release := contexts[k].release + [i])];
    }

    /** encode_request_and_send: the cell that will take the answer, or a failed one. */
    method EncodeRequestAndSend(ctx: nat, out: Outgoing, ghost slack: int, ghost X: set<nat>) returns (a: nat)
      requires InvBut(S(), X) && IdsOk() && ctx < |contexts| && contexts[ctx].alive
      requires CanIssue(S()) && HasRoom(S(), slack + 1) && HasRoom(S(), slack)
      modifies `cells, `hist, `contexts, `idFuncMap, `sent, `calls, `sentCalls, ids
      ensures InvBut(S(), X) && IdsOk() && HasRoom(S(), slack) && Extended(old(S()), S())
      ensures |old(cells)| <= a && (PendingRpc(S(), a, ctx) || FailedRpc(S(), a)) && NewOk(cells, |old(cells)|)
      ensures CallMade(old(S()), S(), a, out)
    {
      hide InvBut, HasRoom, CanIssue, Extended, FailedRpc, PendingRpc, NewOk, NewCall, Unsettled, SameCalls, CallMade;
      if out.payload.None? {
        a := FailedCell(ctx, Failed, slack, X);
        FailedIsMade(old(S()), S(), ctx, out);
        return;
      }
      ghost var s0 := S();
      AppendRpc(s0, Some(out), ctx, Empty, X, slack + 1);
      a := NewRpcCell(Some(out), ctx, Empty);
      a := SendOrFail(a, ctx, out, slack, s0, X);
    }

    /** The new cell `a` if its request goes out, else a failed cell instead of it. */
    method SendOrFail(a: nat, ctx: nat, out: Outgoing, ghost slack: int, ghost s0: State, ghost X: set<nat>)
      returns (b: nat)
      requires a < |cells| && NewCall(S(), a, out, X, slack) && IdsOk() && cells[a].ctx == ctx
      requires Extended(s0, S()) && |s0.cells| == |s0.hist| == a && ctx < |contexts| && contexts[ctx].alive
      requires SameCalls(s0, S())
      modifies `cells, `hist, `contexts, `idFuncMap, `sent, `calls, `sentCalls, ids
      ensures InvBut(S(), X) && IdsOk() && HasRoom(S(), slack) && Extended(s0, S())
      ensures a <= b && (PendingRpc(S(), b, ctx) || FailedRpc(S(), b)) && NewOk(cells, a)
      ensures CallMade(s0, S(), b, out)
    {
      hide InvBut, HasRoom, CanIssue, Extended, FailedRpc, PendingRpc, Issued, HandedOver, NewCall, NewOk, Tracked,
           Deleted, Unsettled, CallMade;
      ghost var s1 := S();
      var ok := SendRpcRequestBuf(a, out, slack, X);
      if ok {
        KeepCall(s0, s1, a, out, X, slack, S());
        KeptIsSent(s0, s1, a, out, X, slack, S());
        Track(a);
        b := a;
      } else {
        DropUnregisters(s1, a, out, X, slack, S());
        DropCall(s0, s1, a, out, X, slack, S());
        b := ReplaceByFailedCell(a, ctx, out, slack, s0, X);
      }
    }

    /** The call did not go out: its cell is deleted, and the caller gets a failed one. */
    method ReplaceByFailedCell(a: nat, ctx: nat, ghost out: Outgoing, ghost slack: int, ghost s0: State,
                               ghost X: set<nat>)
      returns (b: nat)
      requires a < |cells| == a + 1 && InvBut(Deleted(S(), a), X) && HasRoom(Deleted(S(), a), slack)
      requires Extended(s0, Deleted(S(), a)) && NewOk(Deleted(S(), a).cells, |s0.cells|) && |s0.cells| <= a
      requires ctx < |contexts| && contexts[ctx].alive && Deleted(S(), a).idFuncMap == s0.idFuncMap && out.payload.Some?
      requires !GoesOut(s0, out)
      modifies `cells, `hist, `contexts, `idFuncMap
      ensures InvBut(S(), X) && HasRoom(S(), slack) && Extended(s0, S()) && NewOk(cells, |s0.cells|)
      ensures b == a + 1 && FailedRpc(S(), b) && CallMade(s0, S(), b, out)
    {
      hide InvBut, HasRoom, Extended, FailedRpc, NewOk, FailedCall, SameCalls;
      Delete(a);
      ghost var s := S();
      b := FailedCell(ctx, Failed, slack, X);
      ExtendedIsTransitive(s0, s, S());
      FailedIsMade(s, S(), ctx, out);
    }

    /** The destructor of an rpc cell: one that still has a sequence id is unregistered. */
    method Delete(a: nat)
      requires a < |cells|
      modifies `cells, `idFuncMap
      ensures S() == Deleted(old(S()), a)
    {
      if cells[a].hasSeqId {
        idFuncMap := idFuncMap - {cells[a].seqId};
      }
      cells := cells[a := cells[a].(alive := false)];
    }

    /** register_rsp_Handler, whose assertion is that the id is not registered, and set_binded_seq_id. */
    method RegisterRspHandler(a: nat, seqId: nat)
      requires a < |cells| == |hist| && seqId == IdOf(|calls| + 1) && seqId !in idFuncMap
      modifies `cells, `hist, `idFuncMap, `calls
      ensures S() == RegisteredCall(old(S()), a)
    {
      idFuncMap := idFuncMap[seqId := a];
      cells := cells[a := cells[a].(hasSeqId := true, seqId := seqId)];
      calls := calls + [a];
      hist := hist[a := hist[a].(call := |calls|)];
    }

    /** send_rpc_request_buf: a new id, registered before the request is sent; the channel may refuse it. */
    method SendRpcRequestBuf(a: nat, out: Outgoing, ghost slack: int, ghost X: set<nat>) returns (ok: bool)
      requires a < |cells| && NewCall(S(), a, out, X, slack) && IdsOk()
      modifies `cells, `hist, `idFuncMap, `sent, `calls, `sentCalls, ids
      ensures InvBut(S(), X) && IdsOk() && HasRoom(S(), slack)
      ensures ok <==> channel(a).Accepted?
      ensures ok ==>
                && |sent| == |old(sent)| + 1 && sent[..|old(sent)|] == old(sent)
                && sent[|old(sent)|].service == out.service
                && var q := sent[|old(sent)|].request;
                && q.header.ifaceIndex == out.ifaceIndex && q.header.methodIndex == out.methodIndex
                && a < |cells| && |calls| > 0
                && q.header.seqId == IdOf(|calls|) == cells[a].seqId && q.header.version == 0
                && Some(q.payload) == out.payload
      ensures if ok then HandedOver(old(S()), a, S()) else Issued(old(S()), a, S())
    {
      hide InvBut, HasRoom, CanIssue, NewCall, IdOf;
      ghost var s := S();
      RegisterNewCall(s, a, out, X, slack);
      var seqId := ids.Get();
      RegisterRspHandler(a, seqId);
      if channel(a).Unresolved? {
        return false;
      }
      sent := sent + [Sent(out.service, Request(Header(0, out.ifaceIndex, out.methodIndex, seqId), out.payload.value))];
      sentCalls := sentCalls + [|calls|];
      ok := channel(a).Accepted?;
    }

    // -------------------------------------------------------------- building the graph

    /** A new interaction. */
    method NewContext() returns (k: nat)
      requires Valid()
      modifies `contexts
      ensures Valid() && k == |old(contexts)| && S() == ContextAdded(old(S())) && Quiet(old(S()), S())
      ensures contexts == old(contexts) + [Context([], None, true, false)]
    {
      ContextAddedQuiescent(S());
      k := |contexts|;
      contexts := contexts + [Context([], None, true, false)];
    }

    /** The allocation of a node, whose constructor has still to register it with its inputs. */
    method Allocate(kind: Kind, ctx: nat) returns (l: nat)
      modifies `cells, `hist, `wiring, `wired
      ensures l == |old(cells)| && S() == Allocated(old(S()), kind, ctx)
    {
      l := |cells|;
      ghost var early := WasEmpty(S(), kind);
      cells := cells + [NewCell(kind, ctx)];
      hist := hist + [NoHistory(early)];
      if Deps(kind) != [] {
        wiring, wired := l, 0;
      }
    }

    /** register_listener: a cell that has settled notifies the new listener at once. */
    method RegisterListener(c: nat, l: nat)
      requires c < |cells| && l < |cells| && IdsOk()
      requires !cells[c].status.Empty? ==> MayNotify(S(), c, l)
      modifies this, ids
      ensures IdsOk()
      ensures old(cells[c].status.Empty?) ==> S() == Listening(old(S()), c, l)
      ensures !old(cells[c].status.Empty?) ==> NotifiedFrom(old(S()), c, l, S())
      ensures forall d: nat :: registered[(d, l)] == old(registered)[(d, l)] + if d == c then 1 else 0
    {
      hide CanUpdate, Progressed, InvBut, HasRoom, Affects, UpdatedAs, NoneAnew;
      ghost var s := S();
      RecordListener(c, l);
      if !cells[c].status.Empty? {
        ghost var s1 := S();
        Update(c, l, {});
        OneMoreRegistered(s, s1, c, l, S());
      } else {
        cells := cells[c := cells[c].(listeners := cells[c].listeners + [l])];
      }
    }

    /** For the proofs: `l` is now registered with `c`, and owed its update when `c` has settled. */
    ghost method RecordListener(c: nat, l: nat)
      requires c < |cells| && l < |cells|
      modifies `registered, `wired, `owed
      ensures S() == Listening(old(S()), c, l).(cells := cells) && IdsOk() == old(IdsOk())
      ensures !cells[c].status.Empty? ==> (c, l) in owed
      ensures owed - multiset{(c, l)} == Notified(Listening(old(S()), c, l), c, l).owed
      ensures FlagReached(S(), l) == old(FlagReached(S(), l))
      ensures registered == old(registered) + multiset{(c, l)}
    {
      ghost var s := S();
      registered, wired := registered + multiset{(c, l)}, wired + 1;
      if !cells[c].status.Empty? {
        owed := owed + multiset{(c, l)};
      }
      ListenerRecorded(s, c, l, S());
      hide Listening, Notified, FlagReached;
    }

    /** register_as_listener: with each input in turn. */
    method RegisterAsListener(l: nat) returns (ghost s: State)
      requires Wiring(S(), S(), l, 0) && l < |cells| && Deps(cells[l].kind) != [] && IdsOk()
      modifies this, ids
      ensures l < |cells| && cells[l].kind == old(cells[l].kind) && IdsOk()
      ensures S() == Wiredup(s) && Wiring(old(S()), s, l, |Deps(cells[l].kind)|)
      ensures RegisteredWith(old(registered), registered, l, Deps(cells[l].kind))
      ensures l < |old(cells)| && (old(Begun(S(), S(), l, 0)) ==> Begun(old(S()), s, l, |Deps(cells[l].kind)|))
    {
      hide Wiring, CanListen, MayNotify, NotifiedFrom, Begun, RegisteredWith;
      ghost var s0 := S();
      ghost var begins := Begun(s0, s0, l, 0);
      var deps := Deps(cells[l].kind);
      WiringArgs(s0, S(), l, 0);
      RegisteredWithNone(registered, l);
      for k := 0 to |deps|
        invariant Wiring(s0, S(), l, k) && IdsOk() && wired == k && l < |cells| && cells[l].kind == s0.cells[l].kind
        invariant begins ==> Begun(s0, S(), l, k)
        invariant RegisteredWith(s0.registered, registered, l, deps[..k])
      {
        s := S();
        WiringArgs(s0, s, l, k);
        NextInput(s0, s, l, k);
        RegisterListener(deps[k], l);
        InputRegistered(s0, s, l, k, S());
        if begins {
          InputBegun(s0, s, l, k, S());
        }
        WiringArgs(s0, S(), l, k + 1);
        RegisteredWithNext(s0.registered, s.registered, registered, l, deps, k);
      }
      assert deps[..|deps|] == deps;
      s := S();
      wiring, wired := 0, 0;
    }

    /** The DerivedCell constructor, and derive_cell. */
    method DeriveCell(ctx: nat, logic: seq<Status> -> Status, inputs: seq<nat>) returns (l: nat)
      requires Valid() && AreInputs(S(), inputs, ctx) && HasRoom(S(), 0)
      modifies this, ids
      ensures Valid() && NodeBuilt(old(S()), S(), l, Derived(inputs, logic), ctx) && Quiet(old(S()), S())
      ensures InRange(old(cells), inputs) && cells[l].status == Evaluated(logic, Args(old(cells), inputs))
      ensures forall d: nat :: registered[(d, l)] == old(registered)[(d, l)] + multiset(inputs)[d]
    {
      l := BuildNode(Derived(inputs, logic), ctx);
      BuiltIsQuiet(old(S()), S());
    }

    /** derive_action. */
    method DeriveAction(ctx: nat, inputs: seq<nat>) returns (l: nat)
      requires Valid() && AreInputs(S(), inputs, ctx) && HasRoom(S(), 0)
      modifies this, ids
      ensures Valid() && NodeBuilt(old(S()), S(), l, Action(inputs), ctx) && Quiet(old(S()), S())
      ensures forall d: nat :: registered[(d, l)] == old(registered)[(d, l)] + multiset(inputs)[d]
    {
      l := BuildNode(Action(inputs), ctx);
      BuiltIsQuiet(old(S()), S());
    }

    /**
     * derive_rpc_cell and the TimeoutCell constructor: without inputs the first attempt starts at once, otherwise
     * when the inputs allow it.
     */
    method DeriveRpcCell(ctx: nat, budget: nat, start: seq<Status> -> StartResult, inputs: seq<nat>) returns (l: nat)
      requires Valid() && AreInputs(S(), inputs, ctx) && HasRoom(S(), 1)
      modifies this, ids
      ensures Valid() && NodeBuilt(old(S()), S(), l, Timeout(inputs, start, budget), ctx) && Quiet(old(S()), S())
      ensures inputs == [] && !start([]).Deferred? ==> cells[l].started
      ensures FirstAttemptMade(old(S()), S(), l, Timeout(inputs, start, budget))
      ensures forall d: nat :: registered[(d, l)] == old(registered)[(d, l)] + multiset(inputs)[d]
    {
      l := BuildNode(Timeout(inputs, start, budget), ctx);
      BuiltIsQuiet(old(S()), S());
      StartedNode(S(), l);
    }

    /** derive_final_action: registered with the result before the result is recorded for deletion. */
    method DeriveFinalAction(r: nat) returns (l: nat)
      requires Valid() && r < |cells| && cells[r].owner == Result && HasRoom(S(), 0)
      requires AreInputs(S(), [r], cells[r].ctx)
      modifies this, ids
      ensures Valid() && l < |cells| && l < |hist|
      ensures cells[l].kind == Final(r) && cells[l].armed && hist[l].early == old(cells[r].status.Empty?)
      ensures l == |old(cells)| && Built(old(S()), S(), l) && Quiet(old(S()), S())
      ensures forall d: nat :: registered[(d, l)] == old(registered)[(d, l)] + multiset([r])[d]
    {
      var ctx := cells[r].ctx;
      l := BuildNode(Final(r), ctx);
      FinalArmed(old(S()), S(), l, r, ctx);
      cells := cells[l := cells[l].(armed := true)];
      BuiltIsQuiet(old(S()), S());
    }

    method BuildNode(kind: Kind, ctx: nat) returns (l: nat)
      requires Valid() && IsNode(S(), kind, ctx) && HasRoom(S(), if kind.Timeout? then 1 else 0)
      modifies this, ids
      ensures Valid() && NodeBuilt(old(S()), S(), l, kind, ctx) && ResultSeen(old(S()), S(), l, kind)
      ensures Begins(old(S()), S(), l, kind) && RegisteredWith(old(registered), registered, l, Deps(kind))
    {
      hide Quiescent, IsNode, HasRoom, NodeBuilt, ResultSeen, Made, Begins, RegisteredWith;
      l := ConstructNode(kind, ctx);
      NodeTracked(old(S()), S(), l, kind, ctx);
      Track(l);
    }

    /** The constructors of derived cells, timeout cells and actions: registered with each input, or started. */
    method ConstructNode(kind: Kind, ctx: nat) returns (l: nat)
      requires Valid() && IsNode(S(), kind, ctx) && HasRoom(S(), if kind.Timeout? then 1 else 0)
      modifies this, ids
      ensures Made(old(S()), S(), l, kind, ctx) && IdsOk()
      ensures RegisteredWith(old(registered), registered, l, Deps(kind))
    {
      assert |cells| == |hist|;
      hide Quiescent, IsNode, HasRoom, Wiring, Constructed, Made, CanStart, RoomToStart, Progressed, InvBut, Wiredup,
           Unsettled, Begun, StartedAs, RegisteredWith, NoneAnew;
      ghost var s := S();
      AllocatedBuilt(s, kind, ctx);
      l := Allocate(kind, ctx);
      RegisteredWithNone(registered, l);
      ghost var s1 := S();
      if Deps(kind) != [] {
        WiringStarts(s, kind, ctx);
        BegunStarts(s, kind, ctx);
        ghost var s2 := RegisterAsListener(l);
        NodeWired(s, kind, ctx, s2);
      } else if kind.Timeout? {
        StartsAtOnce(s, kind, ctx);
        InvokeRpcOnce(l, {});
        NoneRegistered(s1, S(), l);
        NodeStarted(s, kind, ctx, S());
      } else {
        NodeAlone(s, kind, ctx);
      }
    }

    /** TimeoutCell::timeout. */
    method TimeoutFlag(t: nat) returns (f: nat)
      requires Valid() && t < |cells| && cells[t].kind.Timeout? && cells[t].alive
      modifies `cells, `hist
      ensures Valid() && t < |cells| && cells[t].flag == Some(f)
      ensures S() == if old(cells[t].flag.Some?) then old(S()) else FlagAdded(old(S()), t)
      ensures Quiet(old(S()), S())
    {
      if cells[t].flag.None? {
        FlagAddedQuiescent(S(), t);
        FlagAddedIsQuiet(S(), t);
        hide Quiescent;
        f := |cells|;
        ghost var early := cells[t].status.Empty?;
        cells := cells[t := cells[t].(flag := Some(f))] + [NewCell(Flag(t), cells[t].ctx).(owner := FlagOf(t))];
        hist := hist + [NoHistory(early)];
      }
      f := cells[t].flag.value;
    }

    /** A stub method called by user code. */
    method CallStub(ctx: nat, out: Outgoing) returns (a: nat)
      requires Valid() && ctx < |contexts| && contexts[ctx].alive && HasRoom(S(), 1)
      modifies `cells, `hist, `contexts, `idFuncMap, `sent, `calls, `sentCalls, ids
      ensures Valid() && Extended(old(S()), S()) && |old(cells)| <= a && (PendingRpc(S(), a, ctx) || FailedRpc(S(), a))
      ensures CallMade(old(S()), S(), a, out)
      ensures Quiet(old(S()), S())
    {
      CanCall(S());
      a := EncodeRequestAndSend(ctx, out, 0, {});
      CallQuiescent(old(S()), S());
      ExtendedIsQuiet(old(S()), S());
    }

    /** The end of run_si. */
    method BindResult(r: nat)
      requires CanBindResult(S(), r) && IdsOk()
      modifies `cells, `contexts
      ensures Valid() && S() == ResultBound(old(S()), r) && Quiet(old(S()), S())
      ensures r < |cells| && cells[r].owner == Result && cells[r].ctx < |contexts| == |old(contexts)|
      ensures var ctx, before := contexts[cells[r].ctx], old(contexts)[cells[r].ctx];
              ctx.result == Some(r) && forall i :: i in ctx.release <==> i in before.release && i != r
    {
      ResultBoundQuiescent(S(), r);
      hide Quiescent, CanBindResult;
      ResultArgs(S(), r);
      ResultBoundIsQuiet(S(), r);
      var k := cells[r].ctx;
      cells := cells[r := cells[r].(owner := Result)];
      contexts := contexts[k := contexts[k].(release := Without(contexts[k].release, r), result := Some(r))];
    }

    // -------------------------------------------------------------- message dispatch

    /** handle_rpc_rsp: a response, late, duplicated or foreign ones included. */
    method HandleRpcRsp(id: nat, result: RpcResult, payload: bytes)
      requires Valid() && HasRoom(S(), 1)
      requires id in idFuncMap && result == Succeeded ==> payload != []
      modifies this, ids
      ensures Valid()
      ensures id !in old(idFuncMap) ==> S() == old(S())
      ensures id in old(idFuncMap) ==>
                && id !in idFuncMap && old(idFuncMap[id]) < |old(cells)| && OutOf(old(S()), id).Some?
                && var r := Answer(OutOf(old(S()), id).value, result, payload);
                && Dispatched(old(S()), S(), old(idFuncMap[id]), r)
                && AttemptTaken(old(S()), S(), old(idFuncMap[id]), r)
      ensures id in old(idFuncMap) ==>
                && old(cells[idFuncMap[id]].kind.Rpc?) && old(cells[idFuncMap[id]].kind.out.Some?)
                && old(idFuncMap[id]) < |cells|
      ensures id in old(idFuncMap) && result != Succeeded ==> cells[old(idFuncMap[id])].status == Error(result)
      ensures id in old(idFuncMap) && result == Succeeded ==>
                var v := old(cells[idFuncMap[id]].kind.out.value.decode)(payload);
                cells[old(idFuncMap[id])].status == if v.Some? then Value(v.value) else Error(Failed)
      ensures TakesResponse(old(S()), S(), id, result, payload)
    {
      if id !in idFuncMap {
        return;
      }
      hide Quiescent, HasRoom, Progressed, Reach, Dispatched, Pruned, Unregistered, AttemptTaken, Answer, OutOf,
           SettlesCall;
      ghost var s := S();
      RegisteredWaits(s, id);
      RegisteredOut(s, id);
      var c := idFuncMap[id];
      var r := Answer(cells[c].kind.out.value, result, payload);
      ghost var s2 := SetRpcRsp(id, r);
      ghost var s3 := S();
      TearDownDoomed();
      ResponseDispatched(s, id, r, s2, s3, S());
      TakenBeforePruning(s, s3, c, r, S());
      DispatchedIsAnswer(s, S(), id, r);
      AnsweredWith(s, S(), id, result, payload);
    }

    /** set_rpc_rsp, then delete_rsp_handler_if_exist; `s2` is the state in between. */
    method SetRpcRsp(id: nat, r: Status) returns (ghost s2: State)
      requires Valid() && HasRoom(S(), 1) && id in idFuncMap && !r.Empty?
      modifies this, ids
      ensures Valid() && old(idFuncMap[id]) < |old(cells)|
      ensures var c, s1 := old(idFuncMap[id]), Answering(old(S()), old(idFuncMap[id]));
              && Progressed(s1, SetStatus(s1.cells, c, r), s2, Reach(s1, c).0, Reach(s1, c).1)
              && c < |s2.cells| && S() == Unregistered(s2, c, None) && s2.cells[c].seqId == id
              && AttemptTaken(old(S()), S(), c, r)
    {
      hide Quiescent, CanSettle, InvBut, HasRoom, Progressed, Reach, Unsettled, SetStatus, AttemptTaken;
      ghost var s := S();
      RegisteredWaits(s, id);
      var c := idFuncMap[id];
      AnswerCanSettle(s, id, r);
      QuiescentParts(s);
      answering := Some(c);
      Settle(c, r, {});
      s2 := S();
      AnsweredQuiescent(s, id, r, s2);
      TakenSinceAnswering(s, c, r, s2);
      TakenBeforeUnregistering(s, s2, c, r, None);
      if id in idFuncMap {
        Unregister(id, None);
      }
    }

    /** on_rsp_handler_timeout. */
    method OnRspHandlerTimeout(id: nat)
      requires Valid() && HasRoom(S(), 1)
      modifies this, ids
      ensures Valid()
      ensures id !in old(idFuncMap) ==> S() == old(S())
      ensures id in old(idFuncMap) ==>
                Dispatched(old(S()), S(), old(idFuncMap[id]), Error(TimedOut))
                && AttemptTaken(old(S()), S(), old(idFuncMap[id]), Error(TimedOut))
      ensures TakesTimeout(old(S()), S(), id, false)
    {
      if id !in idFuncMap {
        return;
      }
      hide Quiescent, HasRoom, InvBut, Progressed, Reach, Dispatched, Pruned, Unregistered;
      ghost var s := S();
      SetTimeout(id);
      ghost var s2 := S();
      TimedOutQuiescent(s, id, s2);
      answering := None;
      ghost var s3 := S();
      TearDownDoomed();
      TimeoutDispatched(s, id, s2, s3, S());
      TakenBeforePruning(s, s3, s.idFuncMap[id], Error(TimedOut), S());
      DispatchedIsAnswer(s, S(), id, Error(TimedOut));
    }

    /** reset_sequential_id, erase, set_timeout. */
    method SetTimeout(id: nat)
      requires Valid() && HasRoom(S(), 1) && id in idFuncMap
      modifies this, ids
      ensures InvBut(S(), {}) && IdsOk() && owed == multiset{} && old(idFuncMap[id]) < |old(cells)|
      ensures AttemptTaken(old(S()), S(), old(idFuncMap[id]), Error(TimedOut))
      ensures var c := old(idFuncMap[id]);
              var s1 := Unregistered(old(S()), c, Some(c));
              Progressed(s1, SetStatus(s1.cells, c, Error(TimedOut)), S(), Reach(s1, c).0, Reach(s1, c).1)
    {
      RegisteredWaits(S(), id);
      TimeoutCanSettle(S(), id);
      assert owed == multiset{};
      hide Quiescent, CanSettle, InvBut, HasRoom, Progressed, Reach, Unsettled, SetStatus, AttemptTaken;
      ghost var s := S();
      var c := idFuncMap[id];
      Unregister(id, Some(c));
      Settle(c, Error(TimedOut), {});
      TakenSinceUnregistered(s, c, Error(TimedOut), S());
    }

    /**
     * The message loop drops the timeouts of cancelled timers. Before the ids wrap around the effect of every
     * timeout is the same as if it did not.
     */
    method OnTimerMsg(id: nat)
      requires Valid() && HasRoom(S(), 1)
      modifies this, ids
      ensures Valid()
      ensures TakesTimeout(old(S()), S(), id, true)
      ensures |old(calls)| <= CYCLE ==> TakesTimeout(old(S()), S(), id, false)
    {
      if id in canceledTimerIds {
        if |calls| <= CYCLE {
          CanceledAreNotRegistered(S(), id);
        }
        return;
      }
      OnRspHandlerTimeout(id);
    }

    method Unregister(id: nat, ghost waiting: Option<nat>)
      requires id in idFuncMap && idFuncMap[id] < |cells| && cells[idFuncMap[id]].seqId == id
      modifies `cells, `idFuncMap, `answering
      ensures S() == Unregistered(old(S()), old(idFuncMap[id]), waiting)
    {
      var c := idFuncMap[id];
      cells := cells[c := cells[c].(hasSeqId := false)];
      idFuncMap := idFuncMap - {id};
      answering := waiting;
    }

    /** Final actions delete their result cells, and those their contexts, once the message has been handled. */
    method TearDownDoomed()
      requires Valid()
      modifies `cells, `idFuncMap, `contexts
      ensures Valid() && Pruned(old(S()), S(), |contexts|)
    {
      hide Quiescent;
      ghost var s := S();
      for k := 0 to |contexts|
        invariant Quiescent(S()) && Pruned(s, S(), k)
      {
        ghost var s1 := S();
        if contexts[k].alive && contexts[k].doomed {
          DoomedHasResult(s1, k);
          TearDown(k);
        }
        PrunedNext(s, s1, k, S());
      }
    }

    /** Deleting the result cell of context `k` deletes the context too. */
    method TearDown(k: nat)
      requires CanTearDown(S(), k)
      modifies `cells, `idFuncMap, `contexts
      ensures Quiescent(S()) && Gone(old(S()), k, S())
      ensures |cells| == |old(cells)| && k < |contexts| && !contexts[k].alive
      ensures forall i :: 0 <= i < |cells| ==>
                cells[i] == if old(cells)[i].ctx == k then old(cells)[i].(alive := false) else old(cells)[i]
      ensures forall id :: id in idFuncMap <==>
                id in old(idFuncMap) && old(idFuncMap)[id] < |cells| && cells[old(idFuncMap)[id]].ctx != k
    {
      ghost var s := S();
      TornDownIsGone(s, k);
      DeleteResultAndReleaseList(k);
      hide CanTearDown, Quiescent, Killed, Gone, DeletedBy;
      contexts := contexts[k := contexts[k].(alive := false)];
      assert S() == TornDown(s, k);
      GoneQuiescent(s, k, S());
    }

    /** ~CellContextBase and ~RpcContext: each object once. */
    method DeleteResultAndReleaseList(k: nat)
      requires CanTearDown(S(), k)
      modifies `cells, `idFuncMap
      ensures S() == Killed(old(S()), DeletedBy(old(S()), k, |contexts[k].release|))
    {
      ghost var s := S();
      FirstIsAlive(s, k);
      var r, release := contexts[k].result.value, contexts[k].release;
      hide CanTearDown, Killed, CanDelete, Freed, DeletedBy;
      DeleteObject(r, s, {});
      for j := 0 to |release|
        invariant S() == Killed(s, DeletedBy(s, k, j))
      {
        NextIsAlive(s, k, j);
        DeleteObject(release[j], s, DeletedBy(s, k, j));
      }
    }

    /** The destructor of a tracked object: a timeout cell first deletes its flag. */
    method DeleteObject(i: nat, ghost s: State, ghost D: set<nat>)
      requires S() == Killed(s, D) && CanDelete(s, D, i)
      modifies `cells, `idFuncMap
      ensures S() == Killed(s, D + Freed(s.cells, i))
    {
      if cells[i].flag.Some? {
        KillOne(s, D, cells[i].flag.value);
        Delete(cells[i].flag.value);
        KillOne(s, D + {s.cells[i].flag.value}, i);
      } else {
        KillOne(s, D, i);
      }
      Delete(i);
    }
  }
}
