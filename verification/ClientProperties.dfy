/**
 * What the invariant of the client means for its users: between message dispatches, and over whole runs.
 */
module ClientProperties {
  import opened RpcTypes
  import opened SequenceIds
  import opened Cells
  import opened Propagation
  import opened ClientState
  import opened ClientSteps
  import opened ClientGraph
  import opened ClientDispatch

  // ---------------------------------------------------------------- between dispatches

  /** id_func_map_ maps a sequence id to a cell exactly when the cell is alive, has an id, and has that one. */
  lemma RegistryIsBijection(s: State, id: nat, c: nat)
    requires Quiescent(s) && c < |s.cells|
    ensures id in s.idFuncMap && s.idFuncMap[id] == c <==>
              s.cells[c].alive && s.cells[c].hasSeqId && s.cells[c].seqId == id
    ensures s.cells[c].alive && s.cells[c].kind.Rpc? ==> (s.cells[c].hasSeqId <==> s.cells[c].status.Empty?)
  {
    if id in s.idFuncMap {
      assert EntryOk(s.cells, s.idFuncMap, id);
    }
    assert Registered(s.cells, s.idFuncMap, c);
  }

  /** Every registration is notified exactly once when its cell has settled, and not at all before. */
  lemma NotifiedExactlyOnce(s: State, c: nat, l: nat)
    requires Quiescent(s) && c < |s.cells|
    ensures s.notified[(c, l)] == if s.cells[c].status.Empty? then 0 else s.registered[(c, l)]
  {
    assert Accounted(s.cells, s.registered, s.notified, s.owed);
  }

  /** Pushing updates through the cells has computed the evaluation of the graph. */
  lemma PushedIsEvaluated(s: State, i: nat)
    requires Quiescent(s) && i < |s.cells| && MonotoneUpTo(s.cells, i)
    ensures s.cells[i].status == Eval(s.cells, i)
  {
    PushAgreesWithEvaluation(s.cells, s.hist, i);
  }

  /** The attempts of a timeout cell that have no outcome yet. */
  function Outstanding(cells: seq<Cell>, attempts: seq<nat>): (n: nat)
    requires forall j :: 0 <= j < |attempts| ==> attempts[j] < |cells|
  {
    if attempts == [] then 0
    else Outstanding(cells, attempts[1..]) + if cells[attempts[0]].status.Empty? then 1 else 0
  }

  lemma {:induction false} NoneOutstanding(cells: seq<Cell>, attempts: seq<nat>)
    requires forall j :: 0 <= j < |attempts| ==> attempts[j] < |cells| && !cells[attempts[j]].status.Empty?
    ensures Outstanding(cells, attempts) == 0
  {
    if attempts != [] {
      assert forall j :: 0 <= j < |attempts[1..]| ==> attempts[1..][j] == attempts[j + 1];
      NoneOutstanding(cells, attempts[1..]);
    }
  }

  lemma {:induction false} OnlyLastOutstanding(cells: seq<Cell>, attempts: seq<nat>)
    requires forall j :: 0 <= j < |attempts| ==> attempts[j] < |cells|
    requires forall j :: 0 <= j < |attempts| - 1 ==> !cells[attempts[j]].status.Empty?
    requires attempts != []
    ensures Outstanding(cells, attempts) == if cells[attempts[|attempts| - 1]].status.Empty? then 1 else 0
  {
    assert forall j :: 0 <= j < |attempts[1..]| ==> attempts[1..][j] == attempts[j + 1];
    if |attempts| == 1 {
      NoneOutstanding(cells, attempts[1..]);
    } else {
      OnlyLastOutstanding(cells, attempts[1..]);
    }
  }

  /**
   * The retry budget: once started, a timeout cell created with `budget` retries has made 1 + budget - retries
   * attempts, one less if its start function gave none the last time; every earlier attempt timed out; and
   * exactly one attempt is outstanding while the cell waits, none otherwise.
   */
  lemma RetryBudget(s: State, t: nat)
    requires Quiescent(s) && t < |s.cells| && s.cells[t].kind.Timeout?
    ensures |s.cells| == |s.hist|
    ensures var c, h := s.cells[t], s.hist[t];
            && c.retries <= c.kind.budget
            && (forall j :: 0 <= j < |h.attempts| ==> h.attempts[j] < |s.cells| && s.cells[h.attempts[j]].kind.Rpc?)
            && (forall j :: 0 <= j < |h.attempts| - 1 ==> s.cells[h.attempts[j]].status == Error(TimedOut))
            && (!c.started ==> h.attempts == [] && c.retries == c.kind.budget && c.status.Empty?)
            && (c.started && !h.stalled && !c.status.Error? ==> |h.attempts| == 1 + c.kind.budget - c.retries)
            && (c.started ==> |h.attempts| - (c.kind.budget - c.retries) in {0, 1})
            && Outstanding(s.cells, h.attempts) == if c.started && c.status.Empty? && !h.stalled then 1 else 0
  {
    assert KindOk(s.cells, t) && NodeBase(s.cells, s.hist, t) && Waits(s.cells, s.hist, t);
    var c, h := s.cells[t], s.hist[t];
    var n := |h.attempts|;
    assert AttemptsOk(s.cells, s.hist, t);
    if n > 0 {
      LastSettled(s, t);
      OnlyLastOutstanding(s.cells, h.attempts);
    }
  }

  lemma LastSettled(s: State, t: nat)
    requires Quiescent(s) && t < |s.cells| && s.cells[t].kind.Timeout? && s.hist[t].attempts != []
    ensures var a := s.hist[t].attempts[|s.hist[t].attempts| - 1];
            a < |s.cells| && (s.cells[a].status.Empty? <==>
              s.cells[t].started && s.cells[t].status.Empty? && !s.hist[t].stalled)
  {
    assert KindOk(s.cells, t) && NodeBase(s.cells, s.hist, t) && Waits(s.cells, s.hist, t);
    var a := s.hist[t].attempts[|s.hist[t].attempts| - 1];
    if s.cells[a].status.Empty? {
      EmptyAttemptIsLast(s.cells, s.hist, a, t);
    }
  }

  /** A timeout cell takes over the outcome of its last attempt, never that of one it has given up on. */
  lemma OutcomeOfLastAttempt(s: State, t: nat)
    requires Quiescent(s) && t < |s.cells| && s.cells[t].kind.Timeout? && s.cells[t].status.Value?
    ensures |s.cells| == |s.hist| && s.hist[t].attempts != []
    ensures var a := s.hist[t].attempts;
            && a[|a| - 1] < |s.cells| && s.cells[a[|a| - 1]].kind.Rpc?
            && s.cells[t].status == s.cells[a[|a| - 1]].status
            && forall j :: 0 <= j < |a| - 1 ==> a[j] < |s.cells| && s.cells[a[j]].status == Error(TimedOut)
  {
    assert KindOk(s.cells, t) && NodeBase(s.cells, s.hist, t) && AttemptsOk(s.cells, s.hist, t);
  }

  /** Giving up: a timeout cell exhausts its budget only when each of its 1 + budget attempts has timed out. */
  lemma ExhaustedMeansAllTimedOut(s: State, t: nat)
    requires Quiescent(s) && t < |s.cells| && s.cells[t].kind.Timeout?
    ensures |s.cells| == |s.hist|
    ensures Exhausted(s.cells, s.hist, t) <==>
              && !s.cells[t].status.Empty? && |s.hist[t].attempts| == 1 + s.cells[t].kind.budget
              && forall j :: 0 <= j < |s.hist[t].attempts| ==>
                   s.hist[t].attempts[j] < |s.cells| && s.cells[s.hist[t].attempts[j]].status == Error(TimedOut)
  {
    assert KindOk(s.cells, t) && NodeBase(s.cells, s.hist, t) && AttemptsOk(s.cells, s.hist, t);
  }

  /** A flag is set exactly when it was requested in time and its timeout cell has given up. */
  lemma FlagIffExhausted(s: State, f: nat)
    requires Quiescent(s) && f < |s.cells| && s.cells[f].kind.Flag?
    ensures |s.cells| == |s.hist| && s.cells[f].kind.owner < f && s.cells[s.cells[f].kind.owner].kind.Timeout?
    ensures !s.cells[f].status.Empty? <==> s.hist[f].early && Exhausted(s.cells, s.hist, s.cells[f].kind.owner)
    ensures !s.cells[f].status.Empty? ==> s.cells[f].status == Value(VBool(true))
  {
    assert KindOk(s.cells, f) && NodeBase(s.cells, s.hist, f) && Live(s.cells, s.hist, f);
  }

  /**
   * Retries are allowed, and the start function makes a call on some inputs and defers on the same inputs when more
   * of them have settled.
   */
  ghost predicate CanStall(start: seq<Status> -> StartResult, n: nat, budget: nat) {
    budget > 0 && exists a, b :: |a| == n && BalksBetween(start, a, b)
  }

  /** A timeout cell stalls only if its start function and budget can make it. */
  lemma StalledMeansCanStall(s: State, t: nat)
    requires Quiescent(s) && t < |s.cells| && s.cells[t].kind.Timeout?
    ensures |s.cells| == |s.hist|
    ensures s.hist[t].stalled ==> CanStall(s.cells[t].kind.start, |s.cells[t].kind.inputs|, s.cells[t].kind.budget)
  {
    assert StallOk(s.cells, s.hist, t, None) && NodeBase(s.cells, s.hist, t) && Waits(s.cells, s.hist, t);
    hide StartsCall;
    if s.hist[t].stalled {
      var a, b :| BalksBetween(s.cells[t].kind.start, a, b) && Refines(b, Args(s.cells, s.cells[t].kind.inputs));
      assert |a| == |s.cells[t].kind.inputs|;
    }
  }

  /**
   * The exact budget: a started timeout cell that cannot stall has made 1 + budget - retries attempts, unless the
   * last of those calls of the start function failed at once, and waits for exactly one of them until it settles.
   */
  lemma NeverStalls(s: State, t: nat)
    requires Quiescent(s) && t < |s.cells| && s.cells[t].kind.Timeout?
    requires !CanStall(s.cells[t].kind.start, |s.cells[t].kind.inputs|, s.cells[t].kind.budget)
    ensures |s.cells| == |s.hist| && !s.hist[t].stalled
    ensures forall j :: 0 <= j < |s.hist[t].attempts| ==> s.hist[t].attempts[j] < |s.cells|
    ensures var c, h := s.cells[t], s.hist[t];
            c.started ==>
              && (|h.attempts| == 1 + c.kind.budget - c.retries
                  || (|h.attempts| == c.kind.budget - c.retries && c.status.Error?))
              && Outstanding(s.cells, h.attempts) == if c.status.Empty? then 1 else 0
  {
    StalledMeansCanStall(s, t);
    RetryBudget(s, t);
    assert NodeBase(s.cells, s.hist, t) && KindOk(s.cells, t);
  }

  /** A cell whose retry was deferred has started, is empty, and has nothing outstanding. */
  lemma StalledIsIdle(s: State, t: nat)
    requires Quiescent(s) && t < |s.cells| && s.cells[t].kind.Timeout? && s.hist[t].stalled
    ensures |s.cells| == |s.hist| && s.cells[t].started && s.cells[t].status.Empty?
    ensures forall j :: 0 <= j < |s.hist[t].attempts| ==>
              s.hist[t].attempts[j] < |s.cells| && s.cells[s.hist[t].attempts[j]].status == Error(TimedOut)
  {
    assert KindOk(s.cells, t) && NodeBase(s.cells, s.hist, t) && AttemptsOk(s.cells, s.hist, t);
    assert Waits(s.cells, s.hist, t);
  }

  // ---------------------------------------------------------------- timers

  /** A cancelled timer concerns a registered call exactly when the two calls are whole cycles of ids apart. */
  lemma CanceledCallRegistered(s: State, j: nat, id: nat)
    requires Quiescent(s) && j < |s.canceled| && id in s.idFuncMap
    ensures |s.canceledCalls| == |s.canceled| && |s.cells| == |s.hist| && s.idFuncMap[id] < |s.cells|
    ensures var m, n := s.canceledCalls[j], s.hist[s.idFuncMap[id]].call;
            && m != n && 0 < m <= |s.calls| && 0 < n <= |s.calls|
            && (s.canceled[j] == id <==> (m - n) % CYCLE == 0)
  {
    RegisteredWaits(s, id);
    assert AnsweredCall(s.cells, s.calls, s.canceledCalls[j], s.canceled[j]);
    SameIdIffWholeCycles(s.canceledCalls[j], s.hist[s.idFuncMap[id]].call);
  }

  /** Before the ids wrap around, dropping the timeouts of cancelled timers changes nothing. */
  lemma CanceledAreNotRegistered(s: State, id: nat)
    requires Quiescent(s) && |s.calls| <= CYCLE && id in s.canceled
    ensures id !in s.idFuncMap
  {
    var j :| 0 <= j < |s.canceled| && s.canceled[j] == id;
    if id in s.idFuncMap {
      CanceledCallRegistered(s, j, id);
      var m, n := s.canceledCalls[j], s.hist[s.idFuncMap[id]].call;
      DistinctInCycle(m, n);
    }
  }

  lemma DistinctInCycle(m: nat, n: nat)
    requires m != n && 0 < m <= CYCLE && 0 < n <= CYCLE
    ensures (m - n) % CYCLE != 0
  {
    SameIdIffWholeCycles(m, n);
    if m < n { RecentIdsDiffer(m, n); } else { RecentIdsDiffer(n, m); }
  }

  // ---------------------------------------------------------------- teardown

  /** An armed final action has run exactly when its result was empty at first and has settled since. */
  lemma FinalActionRan(s: State, l: nat)
    requires Quiescent(s) && l < |s.cells| && s.cells[l].kind.Final? && s.cells[l].armed
    ensures |s.cells| == |s.hist| && s.cells[l].kind.result < l
    ensures s.cells[l].started <==> s.hist[l].early && !s.cells[s.cells[l].kind.result].status.Empty?
  {
    assert KindOk(s.cells, l) && NodeBase(s.cells, s.hist, l) && Live(s.cells, s.hist, l);
  }

  /** A context is marked for teardown exactly when one of its final actions has run. */
  ghost predicate TearsDown(s: State, l: nat, k: nat) {
    && l < |s.cells| == |s.hist| && s.cells[l].ctx == k && s.cells[l].kind.Final? && s.cells[l].armed
    && s.hist[l].early && s.cells[l].kind.result < |s.cells| && !s.cells[s.cells[l].kind.result].status.Empty?
  }

  lemma DoomedIffResultSettled(s: State, k: nat)
    requires Quiescent(s) && k < |s.contexts|
    ensures s.contexts[k].doomed <==> exists l :: TearsDown(s, l, k)
  {
    if s.contexts[k].doomed {
      var l :| 0 <= l < |s.cells| && Fired(s.cells, l, k);
      assert KindOk(s.cells, l) && NodeBase(s.cells, s.hist, l);
      FinalActionRan(s, l);
      assert TearsDown(s, l, k);
    }
    if l :| TearsDown(s, l, k) {
      FinalActionRan(s, l);
      assert Fired(s.cells, l, k);
    }
  }

  /** The objects of an interaction are gone together, and none of their sequence ids is left behind. */
  lemma NothingLeftBehind(s: State, k: nat)
    requires Quiescent(s) && k < |s.contexts| && !s.contexts[k].alive
    ensures forall i :: 0 <= i < |s.cells| && s.cells[i].ctx == k ==> !s.cells[i].alive
    ensures forall id :: id in s.idFuncMap ==> s.idFuncMap[id] < |s.cells| && s.cells[s.idFuncMap[id]].ctx != k
  {
    forall i | 0 <= i < |s.cells| && s.cells[i].ctx == k ensures !s.cells[i].alive {
      assert OwnerOk(s.cells, s.contexts, i);
    }
    forall id | id in s.idFuncMap ensures s.idFuncMap[id] < |s.cells| && s.cells[s.idFuncMap[id]].ctx != k {
      assert EntryOk(s.cells, s.idFuncMap, id);
    }
  }

  /** Each live object has exactly one owner, which will delete it. */
  lemma OneOwner(s: State, i: nat)
    requires Quiescent(s) && i < |s.cells| && s.cells[i].alive
    ensures s.cells[i].ctx < |s.contexts|
    ensures var ctx := s.contexts[s.cells[i].ctx];
            && ctx.alive && (i in ctx.release <==> s.cells[i].owner == Listed)
            && (ctx.result == Some(i) <==> s.cells[i].owner == Result)
            && (forall t :: 0 <= t < |s.cells| && s.cells[t].alive && s.cells[t].flag == Some(i) ==>
                  s.cells[i].owner == FlagOf(t))
            && !s.cells[i].owner.Loose?
  {
    assert OwnerOk(s.cells, s.contexts, i) && ContextOk(s.cells, s.contexts, s.cells[i].ctx);
    forall t | 0 <= t < |s.cells| && s.cells[t].alive && s.cells[t].flag == Some(i)
      ensures s.cells[i].owner == FlagOf(t)
    {
      assert OwnerOk(s.cells, s.contexts, t);
    }
  }
}
