/** Runs of the client: what whatever operations and messages, in any order, leave as it is. */
module ClientRuns {
  import opened RpcTypes
  import opened SequenceIds
  import opened Cells
  import opened ClientState
  import opened ClientSteps
  import opened ClientGraph
  import opened ClientDispatch
  import opened ClientProperties

  /** A cell from one moment to a later one. */
  ghost predicate Evolved(a: Cell, b: Cell) {
    && b.kind == a.kind && b.ctx == a.ctx && a.listeners <= b.listeners
    && (a.flag.Some? ==> b.flag == a.flag)
    && (!a.status.Empty? ==> b.status == a.status)
    && (a.started ==> b.started) && (b.alive ==> a.alive)
  }

  /** The client from one moment to a later one: nothing is undone. */
  ghost predicate Continues(s: State, s': State) {
    && |s.cells| <= |s'.cells| && HistGrows(s.hist, s'.hist) && StallsStay(s.hist, None, s'.hist)
    && (forall i :: 0 <= i < |s.cells| ==> Evolved(s.cells[i], s'.cells[i]))
    && s.calls <= s'.calls && s.sent <= s'.sent && s.sentCalls <= s'.sentCalls && s.canceled <= s'.canceled
  }

  /** By one operation or message: new rpc cells hold no values. */
  ghost predicate Evolves(s: State, s': State) {
    Continues(s, s') && Unanswered(s'.cells, |s.cells|)
  }

  /** No rpc cell but `c` settles. */
  ghost predicate OthersUnsettled(s: State, s': State, c: Option<nat>) {
    |s.cells| <= |s'.cells| && forall i :: 0 <= i < |s.cells| && s.cells[i].kind.Rpc? && Some(i) != c ==>
      s'.cells[i].status == s.cells[i].status
  }

  /** An operation of user code: no rpc cell settles. */
  ghost predicate Quiet(s: State, s': State) {
    Evolves(s, s') && OthersUnsettled(s, s', None)
  }

  /** A message for the call registered under `id`, which settles its cell with `r`. */
  ghost predicate SettlesCall(s: State, s': State, id: nat, r: Status) {
    && Evolves(s, s') && id in s.idFuncMap && s.idFuncMap[id] < |s.cells|
    && OthersUnsettled(s, s', Some(s.idFuncMap[id])) && s'.cells[s.idFuncMap[id]].status == r
  }

  lemma BuiltIsQuiet(s: State, s': State)
    requires |s.cells| == |s.hist| && s.retrying.None? && Built(s, s', |s.cells|)
    ensures Quiet(s, s')
  {
  }

  lemma ExtendedIsQuiet(s: State, s': State)
    requires |s.cells| == |s.hist| && Extended(s, s') && Unanswered(s'.cells, |s.cells|)
    ensures Quiet(s, s')
  {
  }

  lemma FlagAddedIsQuiet(s: State, t: nat)
    requires |s.cells| == |s.hist| && t < |s.cells| && s.cells[t].flag.None?
    ensures Quiet(s, FlagAdded(s, t))
  {
  }

  lemma ResultBoundIsQuiet(s: State, r: nat)
    requires r < |s.cells| && s.cells[r].ctx < |s.contexts|
    ensures Quiet(s, ResultBound(s, r))
  {
  }

  lemma DispatchedIsAnswer(s: State, s': State, id: nat, r: Status)
    requires Quiescent(s) && id in s.idFuncMap && s.idFuncMap[id] < |s.cells|
    requires Dispatched(s, s', s.idFuncMap[id], r)
    ensures SettlesCall(s, s', id, r)
  {
  }

  // ---------------------------------------------------------------- steps

  /** What happens to a client: an operation of user code, a response, or a timeout message. */
  datatype Event = UserCode | ResponseFor(id: nat, result: RpcResult, payload: bytes) | TimeoutFor(id: nat)

  /** handle_rpc_rsp, by its contract. */
  ghost predicate TakesResponse(s: State, s': State, id: nat, result: RpcResult, payload: bytes) {
    if id in s.idFuncMap && s.idFuncMap[id] < |s.cells| && OutOf(s, id).Some?
    then SettlesCall(s, s', id, Answer(OutOf(s, id).value, result, payload))
    else s' == s
  }

  /** A timeout message, by the contracts of on_rsp_handler_timeout and of the filter in front of it. */
  ghost predicate TakesTimeout(s: State, s': State, id: nat, filters: bool) {
    if id in s.idFuncMap && !(filters && id in s.canceled)
    then SettlesCall(s, s', id, Error(TimedOut))
    else s' == s
  }

  /** One event; the message loop may filter the timeouts of cancelled timers, or not. */
  ghost predicate ClientStep(s: State, s': State, e: Event, filters: bool) {
    && Quiescent(s) && Quiescent(s')
    && match e
       case UserCode => Quiet(s, s')
       case ResponseFor(id, result, payload) => TakesResponse(s, s', id, result, payload)
       case TimeoutFor(id) => TakesTimeout(s, s', id, filters)
  }

  ghost predicate IsRun(trace: seq<State>, events: seq<Event>, filters: bool) {
    |trace| == |events| + 1 && forall i :: 0 <= i < |events| ==> ClientStep(trace[i], trace[i + 1], events[i], filters)
  }

  lemma ContinuesSelf(s: State)
    ensures Continues(s, s)
  {
    assert forall i :: 0 <= i < |s.hist| ==> s.hist[i].attempts <= s.hist[i].attempts;
  }

  lemma ContinuesOn(s: State, s1: State, s2: State)
    requires Continues(s, s1) && Continues(s1, s2)
    ensures Continues(s, s2)
  {
    HistGrowsOn(s.hist, s1.hist, s2.hist, None);
    hide HistGrows, StallsStay;
    forall i | 0 <= i < |s.cells| ensures Evolved(s.cells[i], s2.cells[i]) {
      assert Evolved(s.cells[i], s1.cells[i]) && Evolved(s1.cells[i], s2.cells[i]);
    }
  }

  lemma StepContinues(s: State, s': State, e: Event, filters: bool)
    requires ClientStep(s, s', e, filters)
    ensures Continues(s, s')
  {
    hide Quiescent, Continues, OthersUnsettled;
    ContinuesSelf(s);
  }

  // ---------------------------------------------------------------- runs

  /** Over a run nothing is undone. */
  lemma {:induction false} RunContinues(trace: seq<State>, events: seq<Event>, filters: bool, i: nat, j: nat)
    requires IsRun(trace, events, filters) && i <= j < |trace|
    ensures Continues(trace[i], trace[j])
    decreases j - i
  {
    hide Continues, ClientStep;
    if i == j {
      ContinuesSelf(trace[i]);
    } else {
      RunContinues(trace, events, filters, i, j - 1);
      StepContinues(trace[j - 1], trace[j - 1 + 1], events[j - 1], filters);
      ContinuesOn(trace[i], trace[j - 1], trace[j]);
    }
  }

  /** Every cell settles at most once in every run, dead or alive, whatever messages arrive. */
  lemma SettlesAtMostOnce(trace: seq<State>, events: seq<Event>, filters: bool, i: nat, j: nat, c: nat)
    requires IsRun(trace, events, filters) && i <= j < |trace| && c < |trace[i].cells|
    ensures c < |trace[j].cells| && Evolved(trace[i].cells[c], trace[j].cells[c])
  {
    RunContinues(trace, events, filters, i, j);
  }

  lemma {:induction false} RunIsQuiescent(trace: seq<State>, events: seq<Event>, filters: bool, i: nat)
    requires IsRun(trace, events, filters) && events != [] && i < |trace|
    ensures Quiescent(trace[i])
  {
    hide Quiescent;
    if i == |events| {
      assert ClientStep(trace[i - 1], trace[i - 1 + 1], events[i - 1], filters);
    } else {
      assert ClientStep(trace[i], trace[i + 1], events[i], filters);
    }
  }

  /**
   * A start function that defers a retry is never called again for it: in every later state of a run the cell is
   * still started and empty, has made the same attempts, and all of them have timed out.
   */
  lemma StalledForEver(trace: seq<State>, events: seq<Event>, filters: bool, i: nat, j: nat, t: nat)
    requires IsRun(trace, events, filters) && events != [] && i <= j < |trace|
    requires t < |trace[i].cells| && t < |trace[i].hist| && trace[i].cells[t].kind.Timeout? && trace[i].hist[t].stalled
    ensures t < |trace[j].cells| == |trace[j].hist| && trace[j].hist[t].stalled
    ensures trace[j].cells[t].started && trace[j].cells[t].status.Empty?
    ensures trace[j].hist[t].attempts == trace[i].hist[t].attempts
    ensures forall k :: 0 <= k < |trace[j].hist[t].attempts| ==>
              trace[j].hist[t].attempts[k] < |trace[j].cells|
              && trace[j].cells[trace[j].hist[t].attempts[k]].status == Error(TimedOut)
  {
    RunContinues(trace, events, filters, i, j);
    RunIsQuiescent(trace, events, filters, j);
    hide IsRun;
    assert Evolved(trace[i].cells[t], trace[j].cells[t]);
    StalledIsIdle(trace[j], t);
  }

  /** In no run does a cell stall that cannot. */
  lemma OnlyThoseStall(trace: seq<State>, events: seq<Event>, filters: bool, i: nat, t: nat)
    requires IsRun(trace, events, filters) && events != [] && i < |trace|
    requires t < |trace[i].cells| && t < |trace[i].hist| && trace[i].cells[t].kind.Timeout? && trace[i].hist[t].stalled
    ensures var k := trace[i].cells[t].kind; CanStall(k.start, |k.inputs|, k.budget)
  {
    RunIsQuiescent(trace, events, filters, i);
    hide IsRun, CanStall;
    StalledMeansCanStall(trace[i], t);
  }

  /** A final action attached to a result that had settled before never runs, whatever happens afterwards. */
  lemma LateActionNeverRuns(trace: seq<State>, events: seq<Event>, filters: bool, i: nat, j: nat, l: nat)
    requires IsRun(trace, events, filters) && events != [] && i <= j < |trace|
    requires l < |trace[i].cells| && l < |trace[i].hist| && trace[i].cells[l].kind.Final? && !trace[i].hist[l].early
    ensures l < |trace[j].cells| == |trace[j].hist| && !trace[j].hist[l].early && !trace[j].cells[l].started
  {
    RunContinues(trace, events, filters, i, j);
    RunIsQuiescent(trace, events, filters, j);
    hide IsRun;
    assert Evolved(trace[i].cells[l], trace[j].cells[l]);
    assert KindOk(trace[j].cells, l) && NodeBase(trace[j].cells, trace[j].hist, l);
  }

  // ---------------------------------------------------------------- the filter of cancelled timers

  lemma FilterChangesNoStep(s: State, s': State, e: Event)
    requires |s.calls| <= CYCLE
    ensures ClientStep(s, s', e, true) <==> ClientStep(s, s', e, false)
  {
    if Quiescent(s) && e.TimeoutFor? && e.id in s.canceled {
      CanceledAreNotRegistered(s, e.id);
    }
    hide Quiescent, SettlesCall;
  }

  /**
   * Before the ids wrap around, a client whose message loop drops the timeouts of cancelled timers and one whose loop
   * does not have the same runs: the same events lead through the same states.
   */
  lemma FilterChangesNoRun(trace: seq<State>, events: seq<Event>)
    requires trace != [] && |trace[|trace| - 1].calls| <= CYCLE
    ensures IsRun(trace, events, true) <==> IsRun(trace, events, false)
  {
    if IsRun(trace, events, true) {
      FilteredBothWays(trace, events, true);
    }
    if IsRun(trace, events, false) {
      FilteredBothWays(trace, events, false);
    }
  }

  lemma FilteredBothWays(trace: seq<State>, events: seq<Event>, filters: bool)
    requires IsRun(trace, events, filters) && |trace[|trace| - 1].calls| <= CYCLE
    ensures IsRun(trace, events, !filters)
  {
    forall i | 0 <= i < |events| ensures ClientStep(trace[i], trace[i + 1], events[i], !filters) {
      RunContinues(trace, events, filters, i, |trace| - 1);
      assert ClientStep(trace[i], trace[i + 1], events[i], filters);
      FilterChangesNoStep(trace[i], trace[i + 1], events[i]);
    }
  }
}
