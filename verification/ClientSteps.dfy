/** The single steps that propagation is made of, on values, and that each keeps the invariant of the client. */
module ClientSteps {
  import opened RpcTypes
  import opened SequenceIds
  import opened Cells
  import opened ClientState

  const NO_HISTORY := History([], false, None, 0, 0, false)

  function NewCell(kind: Kind, ctx: nat): Cell {
    Cell(kind, Empty, [], ctx, Loose, true, false, 0, if kind.Timeout? then kind.budget else 0, false, None, false)
  }

  // ---------------------------------------------------------------- appending a node

  /** A new node; when it computes from others, its constructor has still to register it with them. */
  function Appended(s: State, x: Cell, h: History): State {
    var s' := s.(cells := s.cells + [x], hist := s.hist + [h]);
    if Deps(x.kind) == [] then s' else s'.(wiring := |s.cells|, wired := 0)
  }

  ghost predicate Fresh(s: State, x: Cell, h: History) {
    && Base(s.cells, s.hist) && x.listeners == [] && !x.hasSeqId && x.flag == None && x.owner == Loose && x.alive
    && h.bound == None && !h.stalled && h.attempts == [] && !x.kind.Flag? && !x.kind.Bind? && !x.started
    && (x.kind.Final? ==> x.kind.result < |s.cells| && h.early == s.cells[x.kind.result].status.Empty?
                          && s.cells[x.kind.result].owner == Result)
    && x.ctx < |s.contexts| && s.contexts[x.ctx].alive
    && (Deps(x.kind) == [] || (s.wiring == 0 && 0 < |s.cells|))
    && (forall k :: 0 <= k < |Deps(x.kind)| ==> var d := Deps(x.kind)[k];
          d < |s.cells| && s.cells[d].ctx == x.ctx && s.cells[d].alive)
    && (x.kind.Derived? || x.kind.Timeout? ==> x.status.Empty?)
    && (x.kind.Timeout? ==> !x.started && x.retries == x.kind.budget
                            && h.attempts == [] && !h.stalled)
  }

  lemma AppendKeepsBase(s: State, x: Cell, h: History, X: set<nat>)
    requires Fresh(s, x, h) && LiveBut(s.cells, s.hist, X)
    ensures var s' := Appended(s, x, h);
            Base(s'.cells, s'.hist) && LiveBut(s'.cells, s'.hist, X + {|s.cells|})
            && forall i :: 0 <= i < |s.cells| && Waits(s.cells, s.hist, i) ==> Waits(s'.cells, s'.hist, i)
  {
    var s' := Appended(s, x, h);
    NewNodeOk(s, x, h);
    forall i | 0 <= i < |s.cells|
      ensures KindOk(s'.cells, i) && ListenersOk(s'.cells, i) && NodeBase(s'.cells, s'.hist, i)
              && (Live(s.cells, s.hist, i) ==> Live(s'.cells, s'.hist, i))
              && (Waits(s.cells, s.hist, i) ==> Waits(s'.cells, s'.hist, i))
    {
      UnaffectedNode(s.cells, s.hist, s'.cells, s'.hist, i);
    }
    hide NodeBase, KindOk, ListenersOk, Live, Waits, Fresh;
  }

  lemma NewNodeOk(s: State, x: Cell, h: History)
    requires Fresh(s, x, h)
    ensures var s' := Appended(s, x, h);
            && |s'.cells| == |s'.hist| == |s.cells| + 1
            && KindOk(s'.cells, |s.cells|) && ListenersOk(s'.cells, |s.cells|) && NodeBase(s'.cells, s'.hist, |s.cells|)
  {
    var s' := Appended(s, x, h);
    assert KindOk(s'.cells, |s.cells|) && ListenersOk(s'.cells, |s.cells|);
    if x.kind.Final? { assert ListenersOk(s.cells, x.kind.result); }
  }

  lemma AppendKeepsOwned(s: State, x: Cell, h: History)
    requires Fresh(s, x, h) && Owned(s.cells, s.contexts)
    ensures Owned(Appended(s, x, h).cells, s.contexts)
  {
    var cells' := Appended(s, x, h).cells;
    forall k | 0 <= k < |s.contexts| ensures ContextOk(cells', s.contexts, k) {
      assert ContextOk(s.cells, s.contexts, k);
    }
    forall i | 0 <= i < |s.cells| ensures OwnerOk(cells', s.contexts, i) && FellowsOk(cells', i) {
      assert OwnerOk(s.cells, s.contexts, i) && FellowsOk(s.cells, i);
    }
  }

  lemma AppendKeepsWiring(s: State, x: Cell, h: History)
    requires Fresh(s, x, h) && Inv(s)
    ensures var s' := Appended(s, x, h);
            Accounted(s'.cells, s'.registered, s'.notified, s'.owed) && Waiting(s'.cells, s'.answering)
            && Wired(s'.cells, s'.wiring, s'.wired)
  {
    var s' := Appended(s, x, h);
    forall i, k | 0 <= i < |s'.cells| && 0 <= k < |Deps(s'.cells[i].kind)| && (i == s'.wiring ==> k < s'.wired)
      ensures WiredDep(s'.cells, i, k)
    {
      if i < |s.cells| {
        assert KindOk(s.cells, i);
        assert s.cells[i] == s'.cells[i];
        WiredTo(s.cells, i, k, s.wiring, s.wired);
      }
    }
  }

  lemma AppendCounts(cells: seq<Cell>, x: Cell)
    ensures Unstarted(cells + [x]) ==
            Unstarted(cells) + if x.alive && x.kind.Timeout? && !x.started then {|cells|} else {}
  {
    forall i ensures i in Unstarted(cells + [x]) <==>
                     i in Unstarted(cells) + if x.alive && x.kind.Timeout? && !x.started then {|cells|} else {} {
    }
  }

  lemma RoomAfter(s: State, s': State, slack: int, slack': int)
    requires HasRoom(s, slack) && s'.calls == s.calls && s'.idFuncMap == s.idFuncMap
    requires |Unstarted(s'.cells)| + slack' <= |Unstarted(s.cells)| + slack
    ensures HasRoom(s', slack')
  {
    hide Unstarted;
  }

  lemma AppendKeepsInv(s: State, x: Cell, h: History, X: set<nat>)
    requires InvBut(s, X) && Fresh(s, x, h)
    ensures InvBut(Appended(s, x, h), X + {|s.cells|})
    ensures x.kind.Rpc? ==> InvBut(Appended(s, x, h), X)
  {
    AppendKeepsBase(s, x, h, X);
    AppendKeepsOwned(s, x, h);
    BooksKept(s, Appended(s, x, h));
    AppendKeepsWiring(s, x, h);
    DoomKept(s.cells, s.contexts, s.cells + [x], s.contexts);
    StallsKept(s.cells, s.hist, s.retrying, s.cells + [x], s.hist + [h], s.retrying);
  }

  // ---------------------------------------------------------------- registering, tracking, deleting a cell

  /** The two states differ at most in sequence ids, owners and who is alive. */
  ghost predicate SameLogic(s: State, s': State) {
    && |s'.cells| == |s.cells| && |s'.hist| == |s.hist|
    && (forall i :: 0 <= i < |s.cells| ==>
          s'.cells[i].(hasSeqId := s.cells[i].hasSeqId, seqId := s.cells[i].seqId, owner := s.cells[i].owner,
                       alive := s.cells[i].alive) == s.cells[i])
    && (forall i :: 0 <= i < |s.hist| ==> s'.hist[i].(call := s.hist[i].call) == s.hist[i])
    && s'.registered == s.registered && s'.notified == s.notified && s'.owed == s.owed
    && s'.wiring == s.wiring && s'.wired == s.wired && s'.retrying == s.retrying
  }

  lemma SameLogicKeeps(s: State, s': State, X: set<nat>)
    requires InvBut(s, X) && SameLogic(s, s')
    ensures Base(s'.cells, s'.hist) && LiveBut(s'.cells, s'.hist, X)
    ensures Wired(s'.cells, s'.wiring, s'.wired) && Accounted(s'.cells, s'.registered, s'.notified, s'.owed)
    ensures forall i :: 0 <= i < |s'.cells| ==> Waits(s'.cells, s'.hist, i)
    ensures Unsettled(s') == Unsettled(s)
    ensures StallsOk(s'.cells, s'.hist, s'.retrying)
    ensures |s'.contexts| == |s.contexts| &&
            (forall k :: 0 <= k < |s.contexts| ==> s'.contexts[k].doomed == s.contexts[k].doomed) ==>
              DoomOk(s'.cells, s'.contexts)
  {
    forall i | 0 <= i < |s.cells|
      ensures KindOk(s'.cells, i) && ListenersOk(s'.cells, i) && NodeBase(s'.cells, s'.hist, i)
              && (Live(s.cells, s.hist, i) ==> Live(s'.cells, s'.hist, i))
              && (Waits(s.cells, s.hist, i) ==> Waits(s'.cells, s'.hist, i))
    {
      UnaffectedNode(s.cells, s.hist, s'.cells, s'.hist, i);
    }
    StallsKept(s.cells, s.hist, s.retrying, s'.cells, s'.hist, s'.retrying);
    WiredKept(s.cells, s'.cells, s.wiring, s.wired);
    if |s'.contexts| == |s.contexts| &&
       (forall k :: 0 <= k < |s.contexts| ==> s'.contexts[k].doomed == s.contexts[k].doomed)
    {
      DoomKept(s.cells, s.contexts, s'.cells, s'.contexts);
    }
  }

  /** The sequence id that the next call of `get` returns is not that of a registered call. */
  ghost predicate CanIssue(s: State) { IdOf(|s.calls| + 1) !in s.idFuncMap }

  /** register_rsp_Handler for cell `a` with a new sequence id. */
  function RegisteredCall(s: State, a: nat): State
    requires a < |s.cells| == |s.hist|
  {
    var id := IdOf(|s.calls| + 1);
    s.(cells := s.cells[a := s.cells[a].(hasSeqId := true, seqId := id)], idFuncMap := s.idFuncMap[id := a],
       calls := s.calls + [a], hist := s.hist[a := s.hist[a].(call := |s.calls| + 1)])
  }

  ghost predicate CanRegister(s: State, a: nat) {
    && CanIssue(s) && a < |s.cells| && |s.cells| == |s.hist|
    && s.cells[a].kind.Rpc? && s.cells[a].kind.out.Some? && s.cells[a].owner.Loose? && s.cells[a].alive
    && !s.cells[a].hasSeqId && a !in s.calls && s.hist[a].bound == None
  }

  lemma EntryIsCall(s: State, r: nat)
    requires Inv(s) && r in s.idFuncMap
    ensures s.idFuncMap[r] < |s.hist|
    ensures var m := s.hist[s.idFuncMap[r]].call; 0 < m <= |s.calls| && r == IdOf(m) && |s.calls| - m < CYCLE
  {
    assert EntryOk(s.cells, s.idFuncMap, r);
    var c := s.idFuncMap[r];
    assert CallerOk(s.cells, s.hist, s.calls, c) && CallOk(s.cells, s.hist, s.calls, s.hist[c].call);
  }

  /**
   * The next id is taken, against what registering a call asserts, if and only if a registered call was made whole
   * cycles of ids before; that is the call of exactly one cycle before.
   */
  lemma NextIdTakenIff(s: State)
    requires Inv(s)
    ensures !CanIssue(s) <==> exists r :: r in s.idFuncMap && s.idFuncMap[r] < |s.hist|
                                          && (|s.calls| + 1 - s.hist[s.idFuncMap[r]].call) % CYCLE == 0
    ensures !CanIssue(s) <==> exists r :: r in s.idFuncMap && s.idFuncMap[r] < |s.hist|
                                          && s.hist[s.idFuncMap[r]].call + CYCLE == |s.calls| + 1
  {
    hide InvWith, IdOf;
    forall r | r in s.idFuncMap
      ensures s.idFuncMap[r] < |s.hist|
      ensures var d := |s.calls| + 1 - s.hist[s.idFuncMap[r]].call;
              (r == IdOf(|s.calls| + 1) <==> d % CYCLE == 0) && (d % CYCLE == 0 <==> d == CYCLE)
    {
      EntryIsCall(s, r);
      SameIdIffWholeCycles(|s.calls| + 1, s.hist[s.idFuncMap[r]].call);
    }
  }

  /** Registering a new call leaves the others less than a cycle old. */
  lemma StaysYoung(s: State, c: nat)
    requires Inv(s) && CanIssue(s) && c < |s.cells| == |s.hist| && s.cells[c].alive && s.cells[c].hasSeqId
    ensures |s.calls| + 1 - s.hist[c].call < CYCLE
  {
    assert Registered(s.cells, s.idFuncMap, c);
    EntryIsCall(s, s.cells[c].seqId);
    hide InvWith, IdOf;
    SameIdIffWholeCycles(|s.calls| + 1, s.hist[c].call);
  }

  lemma RegisterKeepsBooks(s: State, a: nat)
    requires Inv(s) && CanRegister(s, a)
    ensures BooksOk(RegisteredCall(s, a))
  {
    hide Base, Wired, Accounted, DoomOk, Owned, Waits;
    var s' := RegisteredCall(s, a);
    forall r | r in s'.idFuncMap ensures EntryOk(s'.cells, s'.idFuncMap, r) {
      if r in s.idFuncMap { assert EntryOk(s.cells, s.idFuncMap, r); }
    }
    forall c | 0 <= c < |s'.cells|
      ensures Registered(s'.cells, s'.idFuncMap, c) && CallerOk(s'.cells, s'.hist, s'.calls, c)
    {
      assert Registered(s.cells, s.idFuncMap, c) && CallerOk(s.cells, s.hist, s.calls, c);
      if c != a && s.cells[c].alive && s.cells[c].hasSeqId {
        StaysYoung(s, c);
      }
    }
    forall n | 0 < n <= |s'.calls| ensures CallOk(s'.cells, s'.hist, s'.calls, n) {
      if n <= |s.calls| { assert CallOk(s.cells, s.hist, s.calls, n) && s.calls[n - 1] in s.calls; }
    }
    forall k | 0 <= k < |s.canceled| ensures AnsweredCall(s'.cells, s'.calls, s'.canceledCalls[k], s'.canceled[k]) {
      assert AnsweredCall(s.cells, s.calls, s.canceledCalls[k], s.canceled[k]);
    }
    forall k | 0 <= k < |s.sent| ensures SentFor(s'.cells, s'.calls, s'.sent[k], s'.sentCalls[k]) {
      assert SentFor(s.cells, s.calls, s.sent[k], s.sentCalls[k]);
    }
  }

  lemma SameLogicKeepsOwned(s: State, s': State)
    requires SameLogic(s, s') && Owned(s.cells, s.contexts) && s'.contexts == s.contexts
    requires forall i :: 0 <= i < |s.cells| ==>
               s'.cells[i].owner == s.cells[i].owner && s'.cells[i].alive == s.cells[i].alive
    ensures Owned(s'.cells, s'.contexts)
  {
    forall k | 0 <= k < |s.contexts| ensures ContextOk(s'.cells, s'.contexts, k) {
      assert ContextOk(s.cells, s.contexts, k);
    }
    forall i | 0 <= i < |s.cells| ensures OwnerOk(s'.cells, s'.contexts, i) && FellowsOk(s'.cells, i) {
      assert OwnerOk(s.cells, s.contexts, i) && FellowsOk(s.cells, i);
    }
  }

  lemma RegisterKeepsInv(s: State, a: nat, X: set<nat>)
    requires InvBut(s, X) && CanRegister(s, a)
    ensures SameLogic(s, RegisteredCall(s, a)) && InvBut(RegisteredCall(s, a), X)
  {
    var s' := RegisteredCall(s, a);
    RegisterKeepsBooks(s, a);
    hide BooksOk, IdOf, CanIssue;
    RegisterIsSameLogic(s, a);
    RegisterKeepsWaiting(s, a);
    SameLogicKeeps(s, s', X);
    SameLogicKeepsOwned(s, s');
    hide SameLogic, RegisteredCall, NodeBase, Live, Waits;
  }

  lemma RegisterIsSameLogic(s: State, a: nat)
    requires CanRegister(s, a)
    ensures var s' := RegisteredCall(s, a);
            && SameLogic(s, s') && s'.contexts == s.contexts
            && forall i :: 0 <= i < |s.cells| ==>
                 s'.cells[i].owner == s.cells[i].owner && s'.cells[i].alive == s.cells[i].alive
  {
    hide IdOf, CanIssue;
  }

  lemma RegisterKeepsWaiting(s: State, a: nat)
    requires Waiting(s.cells, s.answering) && CanRegister(s, a)
    ensures Waiting(RegisteredCall(s, a).cells, s.answering)
  {
    hide IdOf, CanIssue;
  }

  /** RpcContext::track. */
  function Tracked(s: State, i: nat): State
    requires i < |s.cells| && s.cells[i].ctx < |s.contexts|
  {
    var k := s.cells[i].ctx;
    s.(cells := s.cells[i := s.cells[i].(owner := Listed)],
       contexts := s.contexts[k := s.contexts[k].(release := s.contexts[k].release + [i])])
  }

  lemma TrackKeepsOwned(s: State, i: nat)
    requires Inv(s) && i < |s.cells| && s.cells[i].owner.Loose? && s.cells[i].alive && s.cells[i].ctx < |s.contexts|
    ensures Owned(Tracked(s, i).cells, Tracked(s, i).contexts)
  {
    var s' := Tracked(s, i);
    forall k | 0 <= k < |s'.contexts| ensures ContextOk(s'.cells, s'.contexts, k) {
      assert ContextOk(s.cells, s.contexts, k);
    }
    forall j | 0 <= j < |s'.cells| ensures OwnerOk(s'.cells, s'.contexts, j) && FellowsOk(s'.cells, j) {
      assert OwnerOk(s.cells, s.contexts, j) && FellowsOk(s.cells, j);
    }
  }

  ghost predicate CanTrack(s: State, i: nat) {
    && i < |s.cells| && |s.cells| == |s.hist| && s.cells[i].owner.Loose? && s.cells[i].alive
    && s.cells[i].ctx < |s.contexts|
    && (s.cells[i].kind.Rpc? ==> (s.cells[i].hasSeqId <==> s.cells[i].status.Empty?))
    && (s.cells[i].hasSeqId ==> s.hist[i].call in s.sentCalls)
  }

  lemma TrackKeepsInv(s: State, i: nat, X: set<nat>)
    requires InvBut(s, X) && CanTrack(s, i)
    ensures SameLogic(s, Tracked(s, i)) && InvBut(Tracked(s, i), X)
  {
    hide NodeBase, Live, Waits, Wired, Accounted;
    var s' := Tracked(s, i);
    assert SameLogic(s, s');
    SameLogicKeeps(s, s', X);
    TrackKeepsOwned(s, i);
    BooksKept(s, s');
  }

  /** send_msg for the call registered last. */
  function RequestSent(s: State, a: nat): State
    requires a < |s.cells| == |s.hist| && s.cells[a].kind.Rpc? && s.cells[a].kind.out.Some?
    requires s.cells[a].kind.out.value.payload.Some? && 0 < s.hist[a].call
  {
    s.(sent := s.sent + [RequestOf(s.cells[a].kind.out.value, s.hist[a].call)],
       sentCalls := s.sentCalls + [s.hist[a].call])
  }

  lemma SendKeepsInv(s: State, a: nat, X: set<nat>)
    requires InvBut(s, X) && a < |s.cells| && s.cells[a].hasSeqId
    requires s.cells[a].kind.Rpc? && s.cells[a].kind.out.Some? && s.cells[a].kind.out.value.payload.Some?
    ensures 0 < s.hist[a].call && InvBut(RequestSent(s, a), X)
  {
    assert CallerOk(s.cells, s.hist, s.calls, a);
    var s' := RequestSent(s, a);
    forall k | 0 <= k < |s'.sent| ensures SentFor(s'.cells, s'.calls, s'.sent[k], s'.sentCalls[k]) {
      if k < |s.sent| { assert SentFor(s.cells, s.calls, s.sent[k], s.sentCalls[k]); }
    }
  }

  /** `delete` of an rpc cell nobody has tracked or registered with: its destructor unregisters it. */
  function Deleted(s: State, a: nat): State
    requires a < |s.cells|
  {
    s.(cells := s.cells[a := s.cells[a].(alive := false)],
       idFuncMap := if s.cells[a].hasSeqId then s.idFuncMap - {s.cells[a].seqId} else s.idFuncMap)
  }

  /** Cells lose their ids or die, and exactly their entries leave the registry. */
  ghost predicate FewerBooks(s: State, s': State) {
    && |s.cells| == |s.hist| == |s'.cells| == |s'.hist|
    && s'.calls == s.calls && s'.timers == s.timers && s'.canceled == s.canceled && s'.sent == s.sent
    && s'.canceledCalls == s.canceledCalls && s'.sentCalls == s.sentCalls
    && (forall i :: 0 <= i < |s.cells| ==>
          && s'.cells[i].kind == s.cells[i].kind && s'.cells[i].seqId == s.cells[i].seqId
          && s'.cells[i].status == s.cells[i].status && s'.cells[i].owner == s.cells[i].owner
          && (s'.cells[i].alive ==> s.cells[i].alive) && (s'.cells[i].hasSeqId ==> s.cells[i].hasSeqId)
          && s'.hist[i].call == s.hist[i].call && s'.hist[i].bound == s.hist[i].bound)
    && (forall r :: r in s'.idFuncMap <==> r in s.idFuncMap && s.idFuncMap[r] < |s.cells|
                                           && s'.cells[s.idFuncMap[r]].alive && s'.cells[s.idFuncMap[r]].hasSeqId)
    && (forall r :: r in s'.idFuncMap ==> s'.idFuncMap[r] == s.idFuncMap[r])
  }

  lemma BooksShrink(s: State, s': State)
    requires FewerBooks(s, s') && BooksOk(s)
    ensures BooksOk(s')
  {
    forall r | r in s'.idFuncMap ensures EntryOk(s'.cells, s'.idFuncMap, r) {
      assert EntryOk(s.cells, s.idFuncMap, r);
    }
    forall c | 0 <= c < |s.cells|
      ensures Registered(s'.cells, s'.idFuncMap, c) && CallerOk(s'.cells, s'.hist, s'.calls, c)
    {
      assert Registered(s.cells, s.idFuncMap, c) && CallerOk(s.cells, s.hist, s.calls, c);
    }
    forall n | 0 < n <= |s.calls| ensures CallOk(s'.cells, s'.hist, s'.calls, n) {
      assert CallOk(s.cells, s.hist, s.calls, n);
    }
    forall k | 0 <= k < |s.canceled| ensures AnsweredCall(s'.cells, s'.calls, s'.canceledCalls[k], s'.canceled[k]) {
      assert AnsweredCall(s.cells, s.calls, s.canceledCalls[k], s.canceled[k]);
    }
    forall k | 0 <= k < |s.sent| ensures SentFor(s'.cells, s'.calls, s'.sent[k], s'.sentCalls[k]) {
      assert SentFor(s.cells, s.calls, s.sent[k], s.sentCalls[k]);
    }
  }

  lemma DeleteKeepsOwned(s: State, a: nat)
    requires Inv(s) && |s.cells| == a + 1 && s.cells[a].owner.Loose? && s.cells[a].kind.Rpc? && s.cells[a].flag == None
    ensures Owned(Deleted(s, a).cells, s.contexts)
  {
    var s' := Deleted(s, a);
    forall k | 0 <= k < |s'.contexts| ensures ContextOk(s'.cells, s'.contexts, k) {
      assert ContextOk(s.cells, s.contexts, k);
    }
    forall i | 0 <= i < |s'.cells| ensures OwnerOk(s'.cells, s'.contexts, i) && FellowsOk(s'.cells, i) {
      assert OwnerOk(s.cells, s.contexts, i) && FellowsOk(s.cells, i) && KindOk(s.cells, i);
    }
  }

  lemma DeleteKeepsInv(s: State, a: nat, X: set<nat>)
    requires InvBut(s, X) && |s.cells| == a + 1
    requires s.cells[a].alive && s.cells[a].owner.Loose? && s.cells[a].kind.Rpc? && s.cells[a].flag == None
    ensures SameLogic(s, Deleted(s, a)) && InvBut(Deleted(s, a), X)
  {
    var s' := Deleted(s, a);
    DeleteKeepsOwned(s, a);
    DeleteKeepsBooks(s, a);
    assert SameLogic(s, s');
    SameLogicKeeps(s, s', X);
    assert Waiting(s'.cells, s'.answering);
    hide NodeBase, Live, Waits, Wired, Accounted, BooksOk, Owned, DoomOk;
  }

  lemma DeleteKeepsBooks(s: State, a: nat)
    requires Inv(s) && a < |s.cells| && s.cells[a].alive
    ensures |s.cells| == |s.hist| && BooksOk(Deleted(s, a))
  {
    assert |s.cells| == |s.hist|;
    hide Base, Wired, Accounted, Waiting, Owned, DoomOk, Waits;
    assert Registered(s.cells, s.idFuncMap, a);
    assert forall r :: r in s.idFuncMap ==> EntryOk(s.cells, s.idFuncMap, r);
    BooksShrink(s, Deleted(s, a));
  }

  // ---------------------------------------------------------------- starting an attempt

  /** Timeout cell `t` may call its start function. */
  ghost predicate CanStart(s: State, t: nat, X: set<nat>) {
    && InvBut(s, X + {t}) && t < |s.cells| && s.cells[t].kind.Timeout? && s.cells[t].alive
    && s.cells[t].status.Empty? && (!s.cells[t].started || s.hist[t].stalled) && s.wiring <= t
    && s.retrying == (if s.cells[t].started then Some(t) else None)
    && (s.cells[t].started || s.cells[t].kind.inputs == []
        || (InRange(s.cells, s.cells[t].kind.inputs) && Touched(s.cells, s.cells[t].kind.inputs)))
  }

  /** Room for the attempt that `t` is about to start, or is starting when `more` is 0. */
  ghost predicate RoomToStart(s: State, t: nat, more: nat)
    requires t < |s.cells|
  {
    HasRoom(s, if s.cells[t].started then more else more - 1)
  }

  lemma UpToDate(s: State, i: nat, X: set<nat>)
    requires InvBut(s, X + {i}) && i < |s.cells| && KindOk(s.cells, i) && Live(s.cells, s.hist, i)
    ensures InvBut(s, X)
  {
    forall j | 0 <= j < |s.cells| && j !in X ensures Live(s.cells, s.hist, j) {
      if j != i { assert j !in X + {i}; }
    }
  }

  lemma DeferredIsUpToDate(s: State, t: nat, X: set<nat>)
    requires CanStart(s, t, X) && InRange(s.cells, s.cells[t].kind.inputs) && RoomToStart(s, t, 1)
    requires s.cells[t].kind.start(Args(s.cells, s.cells[t].kind.inputs)).Deferred?
    ensures var s' := s.(retrying := None); InvBut(s', X) && HasRoom(s', 0) && Progressed(s, s.cells, s', t, None)
    ensures Unsettled(s.(retrying := None)) == Unsettled(s)
  {
    assert KindOk(s.cells, t);
    UpToDate(s, t, X);
    assert !s.cells[t].started ==> t in Unstarted(s.cells);
    assert Waits(s.cells, s.hist, t) && NodeBase(s.cells, s.hist, t);
    hide HasCalled, HasBalked, Monotone;
    forall i | 0 <= i < |s.cells| ensures StallOk(s.cells, s.hist, i, None) {
      assert StallOk(s.cells, s.hist, i, s.retrying);
      if i == t && s.cells[t].started { BalksNow(s.cells, t); }
    }
    assert BooksOk(s.(retrying := None));
  }

  /** Plain actions settle nothing. */
  lemma ActionIsUpToDate(s: State, l: nat, X: set<nat>)
    requires CanUpdate(s, l, X)
    requires !s.cells[l].kind.Derived? && !s.cells[l].kind.Timeout? && !s.cells[l].kind.Bind? && !s.cells[l].kind.Final?
    ensures InvBut(s, X) && HasRoom(s, 0) && Progressed(s, s.cells, s, Affects(s.cells, l), FlagReached(s, l))
  {
    assert KindOk(s.cells, l);
    UpToDate(s, l, X);
  }

  /** The start failed at once: the cell is about to take the failure. */
  function StartFailed(s: State, t: nat): State
    requires t < |s.cells| == |s.hist|
  {
    s.(cells := s.cells[t := s.cells[t].(started := true)],
       hist := s.hist[t := s.hist[t].(stalled := false)], retrying := None)
  }

  /** An attempt of `t` is under way: its timer is armed and a new action listens to its rpc cell `a`. */
  function Bound(s: State, t: nat, a: nat): State
    requires t < |s.cells| == |s.hist| && a < |s.cells| && s.cells[t].ctx < |s.contexts|
  {
    var b := |s.cells|;
    var k := s.cells[t].ctx;
    s.(cells := s.cells[t := s.cells[t].(started := true)][a := s.cells[a].(listeners := [b])]
                + [NewCell(Bind(a, t), k).(owner := Listed)],
       hist := s.hist[t := s.hist[t].(attempts := s.hist[t].attempts + [a], stalled := false)]
                     [a := s.hist[a].(bound := Some(t), slot := |s.hist[t].attempts|)] + [NO_HISTORY],
       timers := s.timers + [s.cells[a].seqId],
       contexts := s.contexts[k := s.contexts[k].(release := s.contexts[k].release + [b])],
       registered := s.registered + multiset{(a, b)}, retrying := None)
  }

  ghost predicate PendingRpc(s: State, a: nat, ctx: nat) {
    && a < |s.cells| && |s.cells| == |s.hist| && s.cells[a].kind.Rpc? && s.cells[a].alive && s.cells[a].ctx == ctx
    && s.cells[a].owner == Listed && s.cells[a].listeners == [] && s.cells[a].status.Empty? && s.cells[a].hasSeqId
    && s.cells[a].flag == None && s.hist[a].bound == None
  }

  ghost predicate CanBind(s: State, t: nat, a: nat, X: set<nat>) {
    && CanStart(s, t, X) && t < a && PendingRpc(s, a, s.cells[t].ctx) && s.cells[t].ctx < |s.contexts|
    && HasCalled(s.cells, t)
  }

  ghost predicate BindFits(s: State, t: nat, a: nat) {
    t < a < |s.cells| && |s.cells| == |s.hist| && s.cells[t].ctx < |s.contexts|
  }

  lemma BoundView(s: State, t: nat, a: nat, X: set<nat>, i: nat)
    requires CanBind(s, t, a, X) && i < |s.cells| && i != t && i != a
    ensures var s' := Bound(s, t, a);
            |s.cells| == |s.hist| && SameView(s.cells, s.hist, s'.cells, s'.hist)
            && SameNode(s.cells, s.hist, s'.cells, s'.hist, i)
  {
    assert KindOk(s.cells, i);
    BoundSameView(s, t, a, X);
    hide InvBut, NodeBase, Live, Waits, HasCalled, SameView, CanStart;
  }

  lemma BoundSameView(s: State, t: nat, a: nat, X: set<nat>)
    requires CanBind(s, t, a, X)
    ensures |s.cells| == |s.hist| && SameView(s.cells, s.hist, Bound(s, t, a).cells, Bound(s, t, a).hist)
  {
    hide InvBut, HasCalled;
  }

  lemma BoundOther(s: State, t: nat, a: nat, X: set<nat>, i: nat)
    requires CanBind(s, t, a, X) && i < |s.cells| && i != t && i != a
    ensures var s' := Bound(s, t, a);
            KindOk(s'.cells, i) && ListenersOk(s'.cells, i) && NodeBase(s'.cells, s'.hist, i)
            && (Live(s.cells, s.hist, i) ==> Live(s'.cells, s'.hist, i)) && Waits(s'.cells, s'.hist, i)
  {
    assert Waits(s.cells, s.hist, i) && |s.cells| == |s.hist|;
    BoundView(s, t, a, X, i);
    hide InvBut, NodeBase, Live, Waits, HasCalled, SameView, SameNode, Bound;
    UnaffectedNode(s.cells, s.hist, Bound(s, t, a).cells, Bound(s, t, a).hist, i);
  }

  lemma BoundTimeout(s: State, t: nat, a: nat, X: set<nat>)
    requires CanBind(s, t, a, X)
    ensures var s' := Bound(s, t, a);
            KindOk(s'.cells, t) && ListenersOk(s'.cells, t) && NodeBase(s'.cells, s'.hist, t)
            && Live(s'.cells, s'.hist, t) && Waits(s'.cells, s'.hist, t)
  {
    hide Monotone, Wired, Accounted, Waiting, Owned, BooksOk, Room, DoomOk, StallsOk, HasCalled, LiveBut;
    var s' := Bound(s, t, a);
    assert KindOk(s.cells, t) && ListenersOk(s.cells, t) && NodeBase(s.cells, s.hist, t);
    assert AttemptsOk(s.cells, s.hist, t);
    assert AttemptsOk(s'.cells, s'.hist, t);
  }

  lemma BoundRpc(s: State, t: nat, a: nat, X: set<nat>)
    requires CanBind(s, t, a, X)
    ensures var s' := Bound(s, t, a);
            KindOk(s'.cells, a) && ListenersOk(s'.cells, a) && NodeBase(s'.cells, s'.hist, a)
            && Waits(s'.cells, s'.hist, a)
  {
    var s' := Bound(s, t, a);
    assert KindOk(s.cells, a) && Deps(s'.cells[|s.cells|].kind) == [a];
  }

  lemma BoundBase(s: State, t: nat, a: nat, X: set<nat>)
    requires CanBind(s, t, a, X)
    ensures var s' := Bound(s, t, a);
            Base(s'.cells, s'.hist) && LiveBut(s'.cells, s'.hist, X)
            && forall i :: 0 <= i < |s'.cells| ==> Waits(s'.cells, s'.hist, i)
  {
    var s' := Bound(s, t, a);
    forall i | 0 <= i < |s'.cells|
      ensures KindOk(s'.cells, i) && ListenersOk(s'.cells, i) && NodeBase(s'.cells, s'.hist, i)
              && (i !in X ==> Live(s'.cells, s'.hist, i)) && Waits(s'.cells, s'.hist, i)
    {
      if i == t {
        BoundTimeout(s, t, a, X);
      } else if i == a {
        BoundRpc(s, t, a, X);
      } else if i < |s.cells| {
        BoundOther(s, t, a, X, i);
      }
    }
  }

  lemma BoundWiring(s: State, t: nat, a: nat, X: set<nat>)
    requires CanBind(s, t, a, X)
    ensures var s' := Bound(s, t, a); Waiting(s'.cells, s'.answering) && Wired(s'.cells, s'.wiring, s'.wired)
  {
    BoundWaiting(s, t, a, X);
    assert Wired(s.cells, s.wiring, s.wired);
    hide InvBut, Wired, Waiting, CanStart, HasCalled;
    OneMoreWired(s.cells, Bound(s, t, a).cells, a, s.wiring, s.wired);
  }

  /** A new node that listens to the one cell it computes from, which had no listeners. */
  lemma OneMoreWired(cells: seq<Cell>, cells': seq<Cell>, a: nat, w: nat, wk: nat)
    requires Wired(cells, w, wk) && |cells'| == |cells| + 1 && a < |cells| && cells[a].listeners == []
    requires Deps(cells'[|cells|].kind) == [a] && cells'[a].listeners == [|cells|]
    requires forall i :: 0 <= i < |cells| ==> cells'[i].kind == cells[i].kind && cells'[i].status == cells[i].status
    requires forall i :: 0 <= i < |cells| && i != a ==> cells'[i].listeners == cells[i].listeners
    ensures Wired(cells', w, wk)
  {
    hide Wired;
    forall i, k | 0 <= i < |cells'| && 0 <= k < |Deps(cells'[i].kind)| && (i == w ==> k < wk)
      ensures WiredDep(cells', i, k)
    {
      if i < |cells| {
        WiredTo(cells, i, k, w, wk);
      }
    }
    WiredAt(cells', w, wk);
  }

  lemma BoundWaiting(s: State, t: nat, a: nat, X: set<nat>)
    requires CanBind(s, t, a, X)
    ensures var s' := Bound(s, t, a); Waiting(s'.cells, s'.answering)
  {
    assert Waiting(s.cells, s.answering);
    hide InvBut;
  }


  lemma BoundAccounted(s: State, t: nat, a: nat, X: set<nat>)
    requires CanBind(s, t, a, X)
    ensures var s' := Bound(s, t, a); Accounted(s'.cells, s'.registered, s'.notified, s'.owed)
  {
    assert Accounted(s.cells, s.registered, s.notified, s.owed);
    hide InvBut;
    var s' := Bound(s, t, a);
    assert forall j :: 0 <= j < |s.cells| ==> s'.cells[j].status == s.cells[j].status;
    assert forall j :: 0 <= j < |s.cells| && j != a ==> s'.cells[j].listeners == s.cells[j].listeners;
  }

  lemma BoundContexts(s: State, t: nat, a: nat, X: set<nat>)
    requires CanBind(s, t, a, X)
    ensures var s' := Bound(s, t, a);
            forall k :: 0 <= k < |s'.contexts| ==> ContextOk(s'.cells, s'.contexts, k)
  {
    hide NodeBase, Accounted, Wired, Waiting, BooksOk, Room, LiveBut, Live, Waits, HasCalled, DoomOk, StallsOk,
         OwnerOk, FellowsOk;
    var s' := Bound(s, t, a);
    forall k | 0 <= k < |s'.contexts| ensures ContextOk(s'.cells, s'.contexts, k) {
      assert ContextOk(s.cells, s.contexts, k);
    }
  }

  lemma BoundOwned(s: State, t: nat, a: nat, X: set<nat>)
    requires CanBind(s, t, a, X)
    ensures var s' := Bound(s, t, a);
            Owned(s'.cells, s'.contexts) && DoomOk(s'.cells, s'.contexts) && StallsOk(s'.cells, s'.hist, s'.retrying)
  {
    hide NodeBase, Accounted, Wired, Waiting, BooksOk, Room, LiveBut, Live, Waits, HasCalled;
    BoundDoom(s, t, a, X);
    BoundContexts(s, t, a, X);
    hide DoomOk, StallsOk, ContextOk, KindOk, ListenersOk;
    var s' := Bound(s, t, a);
    forall j | 0 <= j < |s'.cells| ensures OwnerOk(s'.cells, s'.contexts, j) && FellowsOk(s'.cells, j) {
      assert OwnerOk(s.cells, s.contexts, t);
      if j < |s.cells| {
        assert OwnerOk(s.cells, s.contexts, j) && FellowsOk(s.cells, j);
      }
    }
  }

  lemma BoundDoom(s: State, t: nat, a: nat, X: set<nat>)
    requires CanBind(s, t, a, X)
    ensures var s' := Bound(s, t, a); DoomOk(s'.cells, s'.contexts) && StallsOk(s'.cells, s'.hist, s'.retrying)
  {
    hide NodeBase, Accounted, Wired, Waiting, BooksOk, Room, LiveBut, Live, Waits, Owned;
    var s' := Bound(s, t, a);
    DoomKept(s.cells, s.contexts, s'.cells, s'.contexts);
    StallsKept(s.cells, s.hist, s.retrying, s'.cells, s'.hist, None);
  }

  /** bind_timeout_cell keeps the invariant and leaves the timeout cell up to date. */
  lemma BindKeepsInv(s: State, t: nat, a: nat, X: set<nat>)
    requires CanBind(s, t, a, X)
    ensures InvBut(Bound(s, t, a), X)
  {
    hide CanBind, Base, LiveBut, Accounted, Waiting, Wired, Owned, Waits, DoomOk, StallsOk;
    BoundBase(s, t, a, X);
    BoundWiring(s, t, a, X);
    BoundAccounted(s, t, a, X);
    BoundOwned(s, t, a, X);
    BoundBooks(s, t, a, X);
  }

  lemma BoundBooks(s: State, t: nat, a: nat, X: set<nat>)
    requires CanBind(s, t, a, X)
    ensures var s' := Bound(s, t, a); |s'.cells| == |s'.hist| && BooksOk(s')
  {
    hide Base, Wired, Waiting, Owned, Room, LiveBut, Waits, Accounted, HasCalled;
    BooksKept(s, Bound(s, t, a));
  }

  /** What making a call leaves as it was: it only adds cells. */
  ghost predicate Extended(s: State, s': State) {
    && s.cells <= s'.cells && s.hist <= s'.hist && ContextsGrow(s.contexts, s'.contexts)
    && s.calls <= s'.calls && s.sent <= s'.sent && s'.timers == s.timers && s'.canceled == s.canceled
    && s.sentCalls <= s'.sentCalls
    && s'.registered == s.registered && s'.notified == s.notified && s'.owed == s.owed
    && s'.answering == s.answering && s'.wiring == s.wiring && s'.wired == s.wired && s'.retrying == s.retrying
    && s'.channel == s.channel
    && Unsettled(s') == Unsettled(s) && Unstarted(s'.cells) == Unstarted(s.cells)
  }

  /** Making a call registers nothing; after it none anew. */
  lemma ExtendedAnew(s: State, s1: State, s2: State, s': State)
    requires Extended(s, s1) && s2.registered == s1.registered && |s2.cells| == |s1.cells| && NoneAnew(s2, s')
    ensures NoneAnew(s, s')
  {
  }

  /** Only the new action registers with the rpc cell of an attempt. */
  lemma BoundAnew(s: State, s1: State, t: nat, a: nat)
    requires Extended(s, s1) && t < |s1.cells| == |s1.hist| && a < |s1.cells| && s1.cells[t].ctx < |s1.contexts|
    ensures NoneAnew(s, Bound(s1, t, a))
  {
  }

  /** A cell that has failed before anything was sent. */
  ghost predicate FailedRpc(s: State, a: nat) {
    a < |s.cells| && s.cells[a].kind.Rpc? && s.cells[a].alive && s.cells[a].status.Error?
  }

  /** What calling the start function of `t` has led to, given what it returned. */
  ghost predicate StartedAs(s: State, s': State, t: nat, r: StartResult) {
    match r
    case Deferred => s' == s.(retrying := None)
    case Fail(reason) => t < |s'.cells| && s'.cells[t].started && s'.cells[t].status == Error(reason)
    case Call(out) =>
      && t < |s'.cells| && s'.cells[t].started
      && if GoesOut(s, out) then AttemptSent(s, s', t, out) else s'.cells[t].status == Error(Failed)
  }

  /** A new attempt of `t` is under way: its request is out, its timer armed, and its rpc cell is the last attempt. */
  ghost predicate AttemptSent(s: State, s': State, t: nat, out: Outgoing) {
    var a, n := |s.cells|, |s.calls| + 1;
    && t < a && |s'.cells| == |s'.hist| == a + 2 && t < |s.hist|
    && s'.cells[a].kind == Rpc(Some(out)) && out.payload.Some? && s'.cells[a].seqId == IdOf(n)
    && s'.cells[a].status.Empty? && s'.cells[a].alive && s'.hist[a].bound == Some(t) && s'.hist[a].call == n
    && s'.cells[a + 1].kind.Bind?
    && s'.sent == s.sent + [RequestOf(out, n)] && s'.calls == s.calls + [a] && s'.timers == s.timers + [IdOf(n)]
    && s'.hist[t].attempts == s.hist[t].attempts + [a] && s'.cells[t].status.Empty?
    && s'.cells[t].retries == s.cells[t].retries && s'.cells[t].kind == s.cells[t].kind
  }

  lemma BoundIsStarted(s: State, s1: State, t: nat, a: nat, out: Outgoing)
    requires Extended(s, s1) && CallMade(s, s1, a, out) && !s1.cells[a].status.Error?
    requires t < |s.cells| == |s.hist| && a < |s1.cells| == |s1.hist| && t < a && s1.cells[t].ctx < |s1.contexts|
    requires s.cells[t].status.Empty?
    ensures StartedAs(s, Bound(s1, t, a), t, Call(out))
  {
    assert AttemptSent(s, Bound(s1, t, a), t, out);
  }

  lemma BoundAfterCall(s: State, s': State, t: nat, a: nat, X: set<nat>)
    requires Extended(s, s') && |s.cells| <= a && t < |s.cells| && |s.cells| == |s.hist|
    requires CanBind(s', t, a, X) && RoomToStart(s', t, 0) && NewOk(s'.cells, |s.cells|)
    ensures Progressed(s, s.cells, Bound(s', t, a), t, None)
    ensures HasRoom(Bound(s', t, a), 0) && Unsettled(Bound(s', t, a)) == Unsettled(s) && s'.owed == s.owed
  {
    hide Bound, InvBut, HasRoom, RoomToStart, CanStart, BindFits, Grows, NewOk, HistGrows, StallsStay, RestGrows,
         OnlyTimeoutsCall, PendingRpc, Unsettled;
    StalledIsRetrying(s', t, X);
    StartArgs(s', t, X);
    BoundRoom(s', t, a, X);
    BindArgs(s', t, a, X);
    BoundCellsGrow(s, s', t, a);
    BoundBooksGrow(s, s', t, a);
    BoundSettlesNothing(s', t, a);
  }

  lemma BoundSettlesNothing(s: State, t: nat, a: nat)
    requires BindFits(s, t, a)
    ensures Unsettled(Bound(s, t, a)) == Unsettled(s)
  {
  }

  lemma BoundCellsGrow(s: State, s': State, t: nat, a: nat)
    requires s.cells <= s'.cells && |s.cells| <= a && t < |s.cells| && NewOk(s'.cells, |s.cells|)
    requires BindFits(s', t, a) && s'.cells[t].kind.Timeout? && PendingRpc(s', a, s'.cells[t].ctx)
    ensures Grows(s.cells, Bound(s', t, a).cells, t, None) && NewOk(Bound(s', t, a).cells, |s.cells|)
  {
  }

  lemma BoundBooksGrow(s: State, s': State, t: nat, a: nat)
    requires Extended(s, s') && |s.cells| == |s.hist| <= a && t < |s.cells| && BindFits(s', t, a)
    requires s'.cells[t].kind.Timeout? && (s'.hist[t].stalled ==> s'.retrying == Some(t))
    ensures var u := Bound(s', t, a);
            && HistGrows(s.hist, u.hist) && StallsStay(s.hist, s.retrying, u.hist) && RestGrows(s, u)
            && OnlyTimeoutsCall(s, s.cells, u)
  {
    assert !Rests(s.cells, s.hist, Bound(s', t, a).cells, Bound(s', t, a).hist, t);
    assert forall k :: 0 <= k < |s.contexts| ==> s.contexts[k].release <= s'.contexts[k].release;
  }

  lemma StalledIsRetrying(s: State, t: nat, X: set<nat>)
    requires CanStart(s, t, X)
    ensures t < |s.hist| && (s.hist[t].stalled ==> s.retrying == Some(t))
  {
    assert NodeBase(s.cells, s.hist, t);
  }

  lemma BoundRoom(s: State, t: nat, a: nat, X: set<nat>)
    requires CanBind(s, t, a, X) && RoomToStart(s, t, 0)
    ensures HasRoom(Bound(s, t, a), 0)
  {
    hide LiveBut, Base, Wired, Waiting, Owned, Waits, Accounted;
    var s' := Bound(s, t, a);
    assert Unstarted(s'.cells) == Unstarted(s.cells) - {t};
    assert !s.cells[t].started ==> t in Unstarted(s.cells);
  }

  lemma NotCalledYet(s: State, a: nat)
    requires Inv(s) && a < |s.cells| && s.hist[a].call == 0
    ensures a !in s.calls
  {
    forall k | 0 <= k < |s.calls| ensures s.calls[k] != a {
      assert CallOk(s.cells, s.hist, s.calls, k + 1);
    }
  }

  lemma RegisterRoom(s: State, a: nat, slack: int)
    requires Inv(s) && CanRegister(s, a) && HasRoom(s, slack + 1)
    ensures HasRoom(RegisteredCall(s, a), slack)
  {
    var s' := RegisteredCall(s, a);
    assert Unstarted(s'.cells) == Unstarted(s.cells);
    hide Inv, IdOf;
    forall n: nat | |s'.calls| < n <= |s'.calls| + |Unstarted(s'.cells)| + slack ensures IdOf(n) !in s'.idFuncMap {
      RecentIdsDiffer(|s.calls| + 1, n);
    }
  }

  lemma RoomToIssue(s: State, t: nat, X: set<nat>)
    requires CanStart(s, t, X) && RoomToStart(s, t, 1)
    ensures CanIssue(s) && InvBut(s, X + {t})
    ensures var slack := if s.cells[t].started then 0 else -1; HasRoom(s, slack) && HasRoom(s, slack + 1)
  {
    assert !s.cells[t].started ==> t in Unstarted(s.cells);
  }

  /** Making a call on behalf of `t` leaves `t` where it was. */
  lemma StillStarting(s: State, s1: State, t: nat, a: nat, X: set<nat>)
    requires CanStart(s, t, X) && Extended(s, s1) && InvBut(s1, X + {t})
    requires HasRoom(s1, if s.cells[t].started then 0 else -1)
    requires |s.cells| <= a && (PendingRpc(s1, a, s.cells[t].ctx) || FailedRpc(s1, a)) && NewOk(s1.cells, |s.cells|)
    requires InRange(s.cells, s.cells[t].kind.inputs)
    requires s1.cells[a].status.Error? || CallsFor(s.cells[t].kind.start(Args(s.cells, s.cells[t].kind.inputs)))
    ensures a < |s1.cells| && CanStart(s1, t, X) && RoomToStart(s1, t, 0) && Unsettled(s1) == Unsettled(s)
    ensures if s1.cells[a].status.Error? then FailedRpc(s1, a) else CanBind(s1, t, a, X)
  {
    assert OwnerOk(s1.cells, s1.contexts, t);
    if !s1.cells[a].status.Error? {
      HasCalledWhenStarting(s, t, X);
      InputsOnlySettle(s.cells, s1.cells, t);
    }
    assert Args(s1.cells, s.cells[t].kind.inputs) == Args(s.cells, s.cells[t].kind.inputs);
    hide HasCalled;
  }

  predicate CallsFor(r: StartResult) { r.Call? && r.out.payload.Some? }

  lemma HasCalledWhenStarting(s: State, t: nat, X: set<nat>)
    requires CanStart(s, t, X) && InRange(s.cells, s.cells[t].kind.inputs)
    requires CallsFor(s.cells[t].kind.start(Args(s.cells, s.cells[t].kind.inputs)))
    ensures HasCalled(s.cells, t)
  {
    assert Waits(s.cells, s.hist, t) && StallOk(s.cells, s.hist, t, s.retrying);
    if !s.cells[t].started {
      CallsNow(s.cells, t);
    }
  }

  // ---------------------------------------------------------------- making a call

  ghost predicate SameCalls(s: State, s': State) {
    && s'.calls == s.calls && s'.sent == s.sent && s'.sentCalls == s.sentCalls && s'.idFuncMap == s.idFuncMap
    && s'.channel == s.channel
  }

  /** The next call can be encoded, its service found, and the channel takes its request. */
  ghost predicate GoesOut(s: State, out: Outgoing) {
    out.payload.Some? && s.channel(|s.cells|).Accepted?
  }

  /** The next id is registered for the new cell `a`, and exactly the request of the call `out` went out under it. */
  ghost predicate CallSent(s: State, s': State, a: nat, out: Outgoing) {
    var n := |s.calls| + 1;
    && a == |s.cells| && |s'.cells| == |s'.hist| == a + 1
    && s'.cells[a].kind == Rpc(Some(out)) && out.payload.Some?
    && s'.cells[a].status.Empty? && s'.cells[a].alive && s'.cells[a].seqId == IdOf(n) && s'.hist[a].call == n
    && s'.calls == s.calls + [a] && s'.idFuncMap == s.idFuncMap[IdOf(n) := a] && IdOf(n) !in s.idFuncMap
    && s'.sent == s.sent + [RequestOf(out, n)] && s'.sentCalls == s.sentCalls + [n]
  }

  /** The call failed on the way out: nothing is registered for it, and nothing was sent if it cannot be encoded. */
  ghost predicate CallFailed(s: State, s': State, a: nat, out: Outgoing) {
    && |s.cells| <= a < |s'.cells| && s'.cells[a].kind == Rpc(None) && s'.cells[a].status == Error(Failed)
    && s'.idFuncMap == s.idFuncMap && (out.payload.None? ==> SameCalls(s, s'))
  }

  /** A call goes out exactly when it can be encoded, its service is found, and the channel takes its request. */
  ghost predicate CallMade(s: State, s': State, a: nat, out: Outgoing) {
    if GoesOut(s, out) then CallSent(s, s', a, out) else CallFailed(s, s', a, out)
  }

  function RpcCell(out: Option<Outgoing>, ctx: nat, status: Status): Cell { NewCell(Rpc(out), ctx).(status := status) }

  /** A call that is about to be made: its cell is the last one and has nothing to do with the others yet. */
  ghost predicate NewCall(s: State, a: nat, out: Outgoing, X: set<nat>, slack: int) {
    && InvBut(s, X) && CanIssue(s) && HasRoom(s, slack + 1) && out.payload.Some?
    && |s.cells| == |s.hist| == a + 1 && s.cells[a] == RpcCell(Some(out), s.cells[a].ctx, Empty)
    && s.hist[a] == NO_HISTORY
  }

  lemma AppendRpc(s: State, out: Option<Outgoing>, ctx: nat, status: Status, X: set<nat>, slack: int)
    requires InvBut(s, X) && HasRoom(s, slack) && ctx < |s.contexts| && s.contexts[ctx].alive
    ensures var s1 := Appended(s, RpcCell(out, ctx, status), NO_HISTORY);
            && InvBut(s1, X) && HasRoom(s1, slack) && Extended(s, s1) && |s.cells| == |s.hist| && SameCalls(s, s1)
    ensures out.Some? && out.value.payload.Some? && status.Empty? && CanIssue(s) ==>
              NewCall(Appended(s, RpcCell(out, ctx, status), NO_HISTORY), |s.cells|, out.value, X, slack - 1)
  {
    AppendKeepsInv(s, RpcCell(out, ctx, status), NO_HISTORY, X);
    AppendRpcExtends(s, out, ctx, status, slack);
    hide Inv, LiveBut, HasRoom, Extended;
  }

  lemma AppendRpcExtends(s: State, out: Option<Outgoing>, ctx: nat, status: Status, slack: int)
    requires Inv(s) && HasRoom(s, slack)
    ensures var s1 := Appended(s, RpcCell(out, ctx, status), NO_HISTORY);
            && HasRoom(s1, slack) && Extended(s, s1) && |s.cells| == |s.hist| && (CanIssue(s) ==> CanIssue(s1))
  {
    assert |s.cells| == |s.hist|;
    hide Base, Wired, Accounted, Waiting, Owned, DoomOk, Waits;
    AppendCounts(s.cells, RpcCell(out, ctx, status));
    assert forall r :: r in s.idFuncMap ==> EntryOk(s.cells, s.idFuncMap, r);
    assert Unsettled(Appended(s, RpcCell(out, ctx, status), NO_HISTORY)) == Unsettled(s);
  }

  lemma RegisterNewCall(s: State, a: nat, out: Outgoing, X: set<nat>, slack: int)
    requires NewCall(s, a, out, X, slack)
    ensures a < |s.cells| == |s.hist| && out.payload.Some? && IdOf(|s.calls| + 1) !in s.idFuncMap
    ensures var s1 := RegisteredCall(s, a);
            && InvBut(s1, X) && HasRoom(s1, slack)
            && s1.cells[a].kind == Rpc(Some(out)) && s1.hist[a].call == |s.calls| + 1
            && InvBut(RequestSent(s1, a), X) && HasRoom(RequestSent(s1, a), slack)
  {
    NotCalledYet(s, a);
    RegisterKeepsInv(s, a, X);
    RegisterRoom(s, a, slack);
    SendKeepsInv(RegisteredCall(s, a), a, X);
  }

  /** The two ways `send_rpc_request_buf` can leave the client: the request was handed over, or it was not. */
  ghost predicate Issued(s: State, a: nat, s': State) {
    && a < |s.cells| == |s.hist|
    && var s1 := RegisteredCall(s, a);
    && s1.cells[a].kind.Rpc? && s1.cells[a].kind.out.Some? && s1.cells[a].kind.out.value.payload.Some?
    && (s' == s1 || s' == RequestSent(s1, a))
  }

  ghost predicate HandedOver(s: State, a: nat, s': State) {
    Issued(s, a, s') && s' == RequestSent(RegisteredCall(s, a), a)
  }

  lemma IssuedExtends(s0: State, s: State, a: nat, s': State)
    requires Extended(s0, s) && |s0.cells| == |s0.hist| == a && Issued(s, a, s')
    requires !s.cells[a].kind.Timeout? && !IsGuarded(s.cells[a].kind)
    ensures Extended(s0, s')
  {
    assert Unsettled(s') == Unsettled(s);
    assert Unstarted(s'.cells) == Unstarted(s.cells);
  }

  /** A call that failed to go out: its cell is deleted, which unregisters it. */
  lemma DropCall(s0: State, s: State, a: nat, out: Outgoing, X: set<nat>, slack: int, s': State)
    requires NewCall(s, a, out, X, slack) && Issued(s, a, s') && Extended(s0, s) && |s0.cells| == |s0.hist| == a
    requires InvBut(s', X) && HasRoom(s', slack)
    ensures var s2 := Deleted(s', a); InvBut(s2, X) && HasRoom(s2, slack) && Extended(s0, s2) && NewOk(s2.cells, a)
    ensures |s'.cells| == a + 1 && s'.contexts == s.contexts
  {
    hide InvBut, HasRoom, Extended, NewCall, Issued;
    NewCallArgs(s, a, out, X, slack, s');
    DeleteKeepsInv(s', a, X);
    IssuedExtends(s0, s, a, s');
    DeletedExtends(s0, s', a, slack);
  }

  lemma DropUnregisters(s: State, a: nat, out: Outgoing, X: set<nat>, slack: int, s': State)
    requires NewCall(s, a, out, X, slack) && Issued(s, a, s')
    ensures a < |s'.cells| && Deleted(s', a).idFuncMap == s.idFuncMap && out.payload.Some?
  {
    RegisterNewCall(s, a, out, X, slack);
    hide InvBut, HasRoom;
    assert s.idFuncMap[IdOf(|s.calls| + 1) := a] - {IdOf(|s.calls| + 1)} == s.idFuncMap;
  }

  lemma NewCallArgs(s: State, a: nat, out: Outgoing, X: set<nat>, slack: int, s': State)
    requires NewCall(s, a, out, X, slack) && Issued(s, a, s')
    ensures |s.cells| == a + 1 == |s'.cells| == |s'.hist| && s.cells[a].kind.Rpc?
    ensures s'.cells[a].alive && s'.cells[a].owner.Loose? && s'.cells[a].kind.Rpc? && s'.cells[a].flag == None
    ensures s'.cells[a].status.Empty? && s'.contexts == s.contexts
  {
  }

  lemma DeletedExtends(s0: State, s: State, a: nat, slack: int)
    requires Extended(s0, s) && |s0.cells| == |s0.hist| == a && |s.cells| == |s.hist| == a + 1 && HasRoom(s, slack)
    requires s.cells[a].kind.Rpc?
    ensures Extended(s0, Deleted(s, a)) && HasRoom(Deleted(s, a), slack)
  {
    assert Unsettled(Deleted(s, a)) == Unsettled(s) && Unstarted(Deleted(s, a).cells) == Unstarted(s.cells);
  }

  /** A call that went out: its cell waits for the answer and is owned by its context. */
  lemma KeepCall(s0: State, s: State, a: nat, out: Outgoing, X: set<nat>, slack: int, s': State)
    requires NewCall(s, a, out, X, slack) && HandedOver(s, a, s') && Extended(s0, s)
    requires |s0.cells| == |s0.hist| == a && InvBut(s', X) && HasRoom(s', slack) && s.cells[a].ctx < |s.contexts|
    ensures a < |s'.cells| && s'.cells[a].ctx < |s'.contexts|
    ensures InvBut(Tracked(s', a), X) && HasRoom(Tracked(s', a), slack)
    ensures Extended(s0, Tracked(s', a)) && PendingRpc(Tracked(s', a), a, s.cells[a].ctx)
    ensures NewOk(Tracked(s', a).cells, a)
  {
    KeptIsPending(s, a, out, X, slack, s');
    IssuedExtends(s0, s, a, s');
    TrackKeepsInv(s', a, X);
    hide InvBut, HasRoom, Extended, Issued, NewCall;
    TrackedExtends(s0, s', a, slack);
  }

  lemma KeptIsPending(s: State, a: nat, out: Outgoing, X: set<nat>, slack: int, s': State)
    requires NewCall(s, a, out, X, slack) && HandedOver(s, a, s') && InvBut(s', X) && s.cells[a].ctx < |s.contexts|
    ensures a < |s'.cells| && s'.cells[a].ctx < |s'.contexts| && CanTrack(s', a) && !s.cells[a].kind.Timeout?
    ensures PendingRpc(Tracked(s', a), a, s.cells[a].ctx) && NewOk(Tracked(s', a).cells, a)
  {
    hide InvBut, HasRoom;
  }

  lemma TrackedExtends(s0: State, s: State, a: nat, slack: int)
    requires Extended(s0, s) && HasRoom(s, slack) && |s0.cells| == |s0.hist| == a < |s.cells| == |s.hist|
    requires s.cells[a].ctx < |s.contexts|
    ensures Extended(s0, Tracked(s, a)) && HasRoom(Tracked(s, a), slack)
  {
    var s' := Tracked(s, a);
    assert Unsettled(s') == Unsettled(s) && Unstarted(s'.cells) == Unstarted(s.cells);
    assert forall k :: 0 <= k < |s0.contexts| ==> s0.contexts[k].release <= s.contexts[k].release;
  }

  lemma KeptIsSent(s0: State, s: State, a: nat, out: Outgoing, X: set<nat>, slack: int, s': State)
    requires NewCall(s, a, out, X, slack) && HandedOver(s, a, s') && |s0.cells| == a && SameCalls(s0, s)
    requires s.channel(a).Accepted? && a < |s'.cells| && s'.cells[a].ctx < |s'.contexts|
    ensures CallMade(s0, Tracked(s', a), a, out)
  {
    RegisterNewCall(s, a, out, X, slack);
    hide InvBut, HasRoom;
  }

  /** failed_cell_with_reason: a cell that has failed before anything was sent. */
  function FailedCall(s: State, ctx: nat, reason: Reason): State
    requires ctx < |s.contexts|
  {
    Tracked(Appended(s, RpcCell(None, ctx, Error(reason)), NO_HISTORY), |s.cells|)
  }

  lemma FailedCallKeepsInv(s: State, ctx: nat, reason: Reason, X: set<nat>, slack: int)
    requires InvBut(s, X) && HasRoom(s, slack) && ctx < |s.contexts| && s.contexts[ctx].alive
    ensures var s' := FailedCall(s, ctx, reason);
            && InvBut(s', X) && HasRoom(s', slack) && Extended(s, s') && FailedRpc(s', |s.cells|)
            && NewOk(s'.cells, |s.cells|)
            && forall n :: 0 <= n <= |s.cells| && NewOk(s.cells, n) ==> NewOk(s'.cells, n)
  {
    var s1 := Appended(s, RpcCell(None, ctx, Error(reason)), NO_HISTORY);
    AppendRpc(s, None, ctx, Error(reason), X, slack);
    TrackKeepsInv(s1, |s.cells|, X);
    hide InvBut;
    FailedCallExtends(s, s1, slack);
  }

  lemma MadeFails(s: State, s': State, a: nat, out: Outgoing)
    requires CallMade(s, s', a, out)
    ensures a < |s'.cells| && (s'.cells[a].status.Error? <==> !GoesOut(s, out))
    ensures s'.cells[a].status.Error? ==> s'.cells[a].status == Error(Failed)
    ensures !s'.cells[a].status.Error? ==> out.payload.Some?
  {
  }

  lemma FailedIsMade(s: State, s': State, ctx: nat, out: Outgoing)
    requires ctx < |s.contexts| && s' == FailedCall(s, ctx, Failed)
    ensures CallFailed(s, s', |s.cells|, out) && (!GoesOut(s, out) ==> CallMade(s, s', |s.cells|, out))
  {
  }

  lemma FailedCallExtends(s: State, s1: State, slack: int)
    requires Extended(s, s1) && |s1.cells| == |s1.hist| == |s.cells| + 1 && HasRoom(s1, slack)
    requires s1.cells[|s.cells|].ctx < |s1.contexts|
    ensures var s' := Tracked(s1, |s.cells|); HasRoom(s', slack) && Extended(s, s')
  {
    var s' := Tracked(s1, |s.cells|);
    assert Unsettled(s') == Unsettled(s1) && Unstarted(s'.cells) == Unstarted(s1.cells);
    assert forall k :: 0 <= k < |s.contexts| ==> s.contexts[k].release <= s'.contexts[k].release;
  }

  lemma ExtendedIsTransitive(s0: State, s1: State, s2: State)
    requires Extended(s0, s1) && Extended(s1, s2)
    ensures Extended(s0, s2)
  {
    assert forall k :: 0 <= k < |s0.contexts| ==> s0.contexts[k].release <= s1.contexts[k].release;
  }

  // ---------------------------------------------------------------- outcomes

  /** Only the progress of timeout cell `t` and its history differ. */
  ghost predicate OnlyTimeout(s: State, s': State, t: nat) {
    && t < |s.cells| && |s.cells| == |s.hist| == |s'.hist| && s.cells[t].kind.Timeout? && s.cells[t].status.Empty?
    && s' == s.(cells := s'.cells, hist := s'.hist, retrying := s'.retrying)
    && (s'.hist[t].stalled ==> s'.retrying == Some(t))
    && s'.retrying in {None, Some(t)} && s.retrying in {None, Some(t)}
    && |s'.cells| == |s.cells| && s'.cells == s.cells[t := s'.cells[t]]
    && s'.cells[t] == s.cells[t].(started := s'.cells[t].started, retries := s'.cells[t].retries)
    && (s.cells[t].started ==> s'.cells[t].started)
    && s'.hist == s.hist[t := s'.hist[t]]
    && s'.hist[t] == s.hist[t].(stalled := s'.hist[t].stalled)
  }

  lemma OnlyTimeoutRest(s: State, s': State, t: nat)
    requires InvWith(s, {t}) && OnlyTimeout(s, s', t)
    ensures Wired(s'.cells, s'.wiring, s'.wired) && Accounted(s'.cells, s'.registered, s'.notified, s'.owed)
    ensures Waiting(s'.cells, s'.answering) && Owned(s'.cells, s'.contexts) && DoomOk(s'.cells, s'.contexts)
    ensures |s'.cells| == |s'.hist| && BooksOk(s') && StallsOk(s'.cells, s'.hist, s'.retrying)
  {
    StallsKept(s.cells, s.hist, s.retrying, s'.cells, s'.hist, s'.retrying);
    WiredKept(s.cells, s'.cells, s.wiring, s.wired);
    ProgressKeepsOwned(s.cells, s'.cells, s.contexts);
    BooksKept(s, s');
    DoomKept(s.cells, s.contexts, s'.cells, s'.contexts);
  }

  lemma OnlyTimeoutKeepsInv(s: State, s': State, t: nat, X: set<nat>)
    requires InvWith(s, {t}) && LiveBut(s.cells, s.hist, X + {t}) && OnlyTimeout(s, s', t)
    requires KindOk(s'.cells, t) && NodeBase(s'.cells, s'.hist, t)
    ensures InvWith(s', {t}) && LiveBut(s'.cells, s'.hist, X + {t})
    ensures Waits(s'.cells, s'.hist, t) ==> Inv(s')
    ensures Unsettled(s') == Unsettled(s)
    ensures Unstarted(s'.cells) == if s'.cells[t].started then Unstarted(s.cells) - {t} else Unstarted(s.cells)
  {
    OnlyTimeoutRest(s, s', t);
    hide BooksOk, Owned, Monotone, DoomOk, Wired, Waiting, Accounted, StallsOk;
    forall i | 0 <= i < |s.cells| && i != t
      ensures KindOk(s'.cells, i) && ListenersOk(s'.cells, i) && NodeBase(s'.cells, s'.hist, i)
              && (Live(s.cells, s.hist, i) ==> Live(s'.cells, s'.hist, i))
              && (Waits(s.cells, s.hist, i) ==> Waits(s'.cells, s'.hist, i))
    {
      UnaffectedNode(s.cells, s.hist, s'.cells, s'.hist, i);
    }
    assert ListenersOk(s.cells, t) && ListenersOk(s'.cells, t);
  }

  lemma StartFailedNode(s: State, t: nat, reason: Reason, X: set<nat>)
    requires CanStart(s, t, X)
    ensures var s' := StartFailed(s, t);
            && KindOk(s'.cells, t) && NodeBase(s'.cells, s'.hist, t) && LastUnserved(s'.cells, s'.hist, t)
            && KindOk(SetStatus(s'.cells, t, Error(reason)), t)
            && NodeBase(SetStatus(s'.cells, t, Error(reason)), s'.hist, t)
  {
    var s' := StartFailed(s, t);
    var c' := SetStatus(s'.cells, t, Error(reason));
    assert KindOk(s.cells, t) && NodeBase(s.cells, s.hist, t) && AttemptsOk(s.cells, s.hist, t);
    assert AttemptsOk(s'.cells, s'.hist, t) && AttemptsOk(c', s'.hist, t);
    assert KindOk(s'.cells, t) && KindOk(c', t);
  }

  /** A start that failed at once: the timeout cell may take the failure. */
  lemma FailedStartCanSettle(s: State, t: nat, reason: Reason, X: set<nat>)
    requires CanStart(s, t, X) && RoomToStart(s, t, 0)
    ensures CanSettle(StartFailed(s, t), t, Error(reason), X)
    ensures HasRoom(StartFailed(s, t), 0) && Unsettled(StartFailed(s, t)) == Unsettled(s)
  {
    hide BooksOk, Owned, Wired, Accounted, Waiting;
    var s' := StartFailed(s, t);
    StartFailedNode(s, t, reason, X);
    assert OnlyTimeout(s, s', t);
    OnlyTimeoutKeepsInv(s, s', t, X);
    assert !s.cells[t].started ==> t in Unstarted(s.cells);
  }

  /** A retry is due: one retry is used up, and the next attempt is not started yet. */
  function Retried(s: State, t: nat): State
    requires t < |s.cells| == |s.hist| && s.cells[t].retries > 0
  {
    s.(cells := s.cells[t := s.cells[t].(retries := s.cells[t].retries - 1)],
       hist := s.hist[t := s.hist[t].(stalled := true)], retrying := Some(t))
  }

  lemma TimedOutCanRetry(s: State, b: nat, X: set<nat>)
    requires CanUpdate(s, b, X) && s.cells[b].kind.Bind?
    requires s.cells[s.cells[b].kind.rpc].status == Error(TimedOut) && s.cells[s.cells[b].kind.target].retries > 0
    ensures CanStart(Retried(s, s.cells[b].kind.target), s.cells[b].kind.target, X)
    ensures RoomToStart(Retried(s, s.cells[b].kind.target), s.cells[b].kind.target, 1)
    ensures Unsettled(Retried(s, s.cells[b].kind.target)) == Unsettled(s)
  {
    hide BooksOk, Owned, Wired, Accounted, Waiting, Monotone, DoomOk;
    var t := s.cells[b].kind.target;
    var s' := Retried(s, t);
    assert KindOk(s.cells, t) && NodeBase(s.cells, s.hist, t) && AttemptsOk(s.cells, s.hist, t);
    assert AttemptsOk(s'.cells, s'.hist, t);
    assert KindOk(s'.cells, t) && NodeBase(s'.cells, s'.hist, t);
    OnlyTimeoutKeepsInv(s, s', t, X);
  }

  ghost function FlagSet(s: State, t: nat): set<nat>
    requires t < |s.cells|
  {
    if s.cells[t].flag.Some? then {s.cells[t].flag.value} else {}
  }

  /** No retry is left: the timeout cell may take the timeout; its flag has to be set after that. */
  lemma ExhaustedCanSettle(s: State, b: nat, X: set<nat>)
    requires CanUpdate(s, b, X) && s.cells[b].kind.Bind?
    requires s.cells[s.cells[b].kind.rpc].status == Error(TimedOut) && s.cells[s.cells[b].kind.target].retries == 0
    ensures var t := s.cells[b].kind.target; CanSettle(s, t, Error(TimedOut), X + FlagSet(s, t)) && HasRoom(s, 0)
  {
    var t := s.cells[b].kind.target;
    assert KindOk(s.cells, t) && NodeBase(s.cells, s.hist, t) && AttemptsOk(s.cells, s.hist, t);
    var c' := SetStatus(s.cells, t, Error(TimedOut));
    assert KindOk(c', t) && AttemptsOk(c', s.hist, t);
    assert X + FlagSet(s, t) + {t} >= X + {t};
  }

  /** An attempt was answered: the timeout cell may take the answer. */
  lemma AnsweredCanSettle(s: State, b: nat, X: set<nat>)
    requires CanUpdate(s, b, X) && s.cells[b].kind.Bind?
    requires s.cells[s.cells[b].kind.rpc].status != Error(TimedOut)
    ensures var t := s.cells[b].kind.target; CanSettle(s, t, s.cells[s.cells[b].kind.rpc].status, X)
  {
    var t, r := s.cells[b].kind.target, s.cells[s.cells[b].kind.rpc].status;
    assert KindOk(s.cells, t) && NodeBase(s.cells, s.hist, t) && AttemptsOk(s.cells, s.hist, t);
    var c' := SetStatus(s.cells, t, r);
    assert KindOk(c', t) && AttemptsOk(c', s.hist, t);
  }

  /** cancel_timer for the call of rpc cell `a`. */
  function Canceled(s: State, a: nat): State
    requires a < |s.cells| == |s.hist|
  {
    s.(canceled := s.canceled + [s.cells[a].seqId], canceledCalls := s.canceledCalls + [s.hist[a].call])
  }

  lemma CancelKeepsInv(s: State, a: nat, D: set<nat>)
    requires InvWith(s, D) && a < |s.cells| && s.cells[a].hasSeqId
    requires !s.cells[a].status.Empty? && s.cells[a].status != Error(TimedOut)
    ensures InvWith(Canceled(s, a), D)
  {
    assert CallerOk(s.cells, s.hist, s.calls, a) && CallOk(s.cells, s.hist, s.calls, s.hist[a].call);
    var s' := Canceled(s, a);
    forall k | 0 <= k < |s'.canceled| ensures AnsweredCall(s'.cells, s'.calls, s'.canceledCalls[k], s'.canceled[k]) {
      if k < |s.canceled| {
        assert AnsweredCall(s.cells, s.calls, s.canceledCalls[k], s.canceled[k]);
      }
    }
  }

  /** Taking over the answer of an attempt cancels its timer. */
  lemma AnsweredCancelCanSettle(s: State, b: nat, X: set<nat>)
    requires CanUpdate(s, b, X) && s.cells[b].kind.Bind?
    requires s.cells[s.cells[b].kind.rpc].status != Error(TimedOut)
    ensures var t, a := s.cells[b].kind.target, s.cells[b].kind.rpc;
            && |s.cells| == |s.hist| && CanSettle(Canceled(s, a), t, s.cells[a].status, X)
            && HasRoom(Canceled(s, a), 0) && Unsettled(Canceled(s, a)) == Unsettled(s)
  {
    var t, a := s.cells[b].kind.target, s.cells[b].kind.rpc;
    AnsweredCanSettle(s, b, X);
    CancelKeepsInv(s, a, {t});
  }

  lemma AnsweredProgress(s: State, b: nat, X: set<nat>, s': State)
    requires CanUpdate(s, b, X) && s.cells[b].kind.Bind?
    requires s.cells[s.cells[b].kind.rpc].status != Error(TimedOut)
    requires var t, a := s.cells[b].kind.target, s.cells[b].kind.rpc;
             Progressed(Canceled(s, a), SetStatus(s.cells, t, s.cells[a].status), s', t, None)
    ensures Progressed(s, s.cells, s', s.cells[b].kind.target, FlagReached(s, b)) && AttemptEnded(s, s', b)
  {
    hide Progressed, InvWith, LiveBut, HasRoom, StartedAs;
    var t, a := s.cells[b].kind.target, s.cells[b].kind.rpc;
    SinceCanceled(s, a, SetStatus(s.cells, t, s.cells[a].status), s', t, None);
    SettledProgress(s, t, s.cells[a].status, s', FlagReached(s, b));
  }

  lemma SinceCanceled(s: State, a: nat, base: seq<Cell>, s': State, lo: nat, f: Option<nat>)
    requires a < |s.cells| == |s.hist| && Progressed(Canceled(s, a), base, s', lo, f)
    ensures Progressed(s, base, s', lo, f) && s.canceled + [s.cells[a].seqId] <= s'.canceled
  {
  }

  lemma DerivedCanSettle(s: State, d: nat, X: set<nat>)
    requires CanUpdate(s, d, X) && s.cells[d].kind.Derived? && s.cells[d].status.Empty?
    ensures var r := s.cells[d].kind.logic(Args(s.cells, s.cells[d].kind.inputs));
            if r.Empty? then InvBut(s, X) else CanSettle(s, d, r, X)
  {
    var inputs := s.cells[d].kind.inputs;
    var r := s.cells[d].kind.logic(Args(s.cells, inputs));
    assert KindOk(s.cells, d);
    if r.Empty? {
      UpToDate(s, d, X);
    } else {
      var c' := SetStatus(s.cells, d, r);
      assert KindOk(c', d);
      assert Args(c', inputs) == Args(s.cells, inputs);
    }
  }

  /** A settled or started timeout cell has nothing to do with its inputs any more. */
  lemma StartedIsUpToDate(s: State, t: nat, X: set<nat>)
    requires InvBut(s, X + {t}) && t < |s.cells| && s.cells[t].kind.Timeout?
    requires !s.cells[t].status.Empty? || s.cells[t].started
    ensures InvBut(s, X)
  {
    assert KindOk(s.cells, t) && NodeBase(s.cells, s.hist, t);
    UpToDate(s, t, X);
  }

  /** Settling `c` and what follows from it, seen from before it settled. */
  lemma SettledProgress(s: State, c: nat, r: Status, s': State, f: Option<nat>)
    requires c < |s.cells| && s.cells[c].status.Empty? && !s.cells[c].kind.Rpc?
    requires s.cells[c].kind.Flag? ==> f == Some(c)
    requires Progressed(s, SetStatus(s.cells, c, r), s', c, None) && !r.Empty?
    ensures Progressed(s, s.cells, s', c, f) && c < |s'.cells| && s'.cells[c].status == r
  {
    SettledDoesNotRest(s, c, r, s');
    hide OnlyTimeoutsCall;
  }

  /** If cell `c` is a timeout cell that has failed, it has not rested; otherwise that it settles does not matter. */
  lemma SettledDoesNotRest(s: State, c: nat, r: Status, s': State)
    requires c < |s.cells| && s.cells[c].status.Empty? && !r.Empty? && c < |s'.cells| && s'.cells[c].status == r
    requires OnlyTimeoutsCall(s, SetStatus(s.cells, c, r), s')
    ensures OnlyTimeoutsCall(s, s.cells, s')
  {
    if forall i :: 0 <= i < |s.cells| ==> Rests(s.cells, s.hist, s'.cells, s'.hist, i) {
      assert Rests(s.cells, s.hist, s'.cells, s'.hist, c);
      forall i | 0 <= i < |s.cells| ensures Rests(SetStatus(s.cells, c, r), s.hist, s'.cells, s'.hist, i) {
        assert Rests(s.cells, s.hist, s'.cells, s'.hist, i);
      }
    }
  }

  /** The final action `l` has run: its context is to be torn down. */
  function Doomed(s: State, l: nat): State
    requires l < |s.cells| && s.cells[l].ctx < |s.contexts|
  {
    s.(cells := s.cells[l := s.cells[l].(started := true)],
       contexts := s.contexts[s.cells[l].ctx := s.contexts[s.cells[l].ctx].(doomed := true)])
  }

  lemma DoomedOwned(s: State, l: nat)
    requires Inv(s) && l < |s.cells| && s.cells[l].ctx < |s.contexts| && s.cells[l].kind.Final?
    ensures var s' := Doomed(s, l); Owned(s'.cells, s'.contexts) && DoomOk(s'.cells, s'.contexts)
  {
    DoomedMarked(s, l);
    assert Owned(s.cells, s.contexts);
    hide Inv, DoomOk;
    var s' := Doomed(s, l);
    forall k | 0 <= k < |s.contexts| ensures ContextOk(s'.cells, s'.contexts, k) {
      assert ContextOk(s.cells, s.contexts, k);
    }
    forall i | 0 <= i < |s'.cells| ensures OwnerOk(s'.cells, s'.contexts, i) && FellowsOk(s'.cells, i) {
      assert OwnerOk(s.cells, s.contexts, i) && FellowsOk(s.cells, i);
    }
  }

  lemma DoomedMarked(s: State, l: nat)
    requires Inv(s) && l < |s.cells| && s.cells[l].ctx < |s.contexts| && s.cells[l].kind.Final?
    ensures var s' := Doomed(s, l); DoomOk(s'.cells, s'.contexts)
  {
    assert DoomOk(s.cells, s.contexts);
    hide Inv;
    var s' := Doomed(s, l);
    assert Fired(s'.cells, l, s.cells[l].ctx);
    forall k | 0 <= k < |s.contexts|
      ensures s'.contexts[k].doomed <==> exists j :: 0 <= j < |s'.cells| && Fired(s'.cells, j, k)
    {
      if s.contexts[k].doomed {
        var j :| 0 <= j < |s.cells| && Fired(s.cells, j, k);
        assert Fired(s'.cells, j, k);
      }
      if j :| 0 <= j < |s'.cells| && Fired(s'.cells, j, k) {
        assert j != l ==> Fired(s.cells, j, k);
      }
    }
  }

  /** Node `i` goes on as it was; the action `l` itself is up to date once it has run. */
  ghost predicate GoesOn(s: State, s': State, l: nat, i: nat)
    requires i < |s.cells| == |s.hist| && |s.cells| == |s'.cells| == |s'.hist|
  {
    && KindOk(s'.cells, i) && ListenersOk(s'.cells, i) && NodeBase(s'.cells, s'.hist, i)
    && KindOk(s.cells, i) && (i == l || Live(s.cells, s.hist, i) ==> Live(s'.cells, s'.hist, i))
    && (Waits(s.cells, s.hist, i) ==> Waits(s'.cells, s'.hist, i))
  }

  lemma DoomedGoesOn(s: State, l: nat, X: set<nat>, i: nat)
    requires CanUpdate(s, l, X) && s.cells[l].kind.Final? && s.cells[l].armed && s.cells[l].ctx < |s.contexts|
    requires i < |s.cells|
    ensures |s.cells| == |s.hist| && GoesOn(s, Doomed(s, l), l, i)
  {
    var s' := Doomed(s, l);
    assert KindOk(s.cells, i) && KindOk(s.cells, l);
    if i == l {
      var r := s.cells[l].kind.result;
      assert Args(s.cells, [r])[0] == s.cells[r].status;
      assert KindOk(s'.cells, l) && ListenersOk(s.cells, l) && NodeBase(s.cells, s.hist, l);
      hide BooksOk, Owned, Wired, Accounted, Waiting, DoomOk, LiveBut, StallsOk;
    } else {
      hide InvWith, LiveBut, NodeBase, Live, Waits;
      UnaffectedNode(s.cells, s.hist, s'.cells, s'.hist, i);
    }
  }

  lemma DoomedBase(s: State, l: nat, X: set<nat>)
    requires CanUpdate(s, l, X) && s.cells[l].kind.Final? && s.cells[l].armed && s.cells[l].ctx < |s.contexts|
    ensures var s' := Doomed(s, l);
            && Base(s'.cells, s'.hist) && LiveBut(s'.cells, s'.hist, X)
            && forall i :: 0 <= i < |s'.cells| ==> Waits(s'.cells, s'.hist, i)
  {
    assert |s.cells| == |s.hist|;
    hide BooksOk, Owned, Wired, Accounted, Waiting, DoomOk, StallsOk, NodeBase, Live, Waits, KindOk, ListenersOk;
    var s' := Doomed(s, l);
    forall i | 0 <= i < |s.cells|
      ensures KindOk(s'.cells, i) && ListenersOk(s'.cells, i) && NodeBase(s'.cells, s'.hist, i)
      ensures i !in X ==> Live(s'.cells, s'.hist, i)
      ensures Waits(s'.cells, s'.hist, i)
    {
      DoomedGoesOn(s, l, X, i);
      assert i !in X && i != l ==> Live(s.cells, s.hist, i);
      assert Waits(s.cells, s.hist, i);
    }
  }

  lemma DoomedBooks(s: State, l: nat)
    requires Inv(s) && l < |s.cells| && s.cells[l].ctx < |s.contexts| && s.cells[l].kind.Final?
    ensures var s' := Doomed(s, l);
            && Accounted(s'.cells, s'.registered, s'.notified, s'.owed) && Waiting(s'.cells, s'.answering)
            && Wired(s'.cells, s'.wiring, s'.wired) && |s'.cells| == |s'.hist| && BooksOk(s')
            && StallsOk(s'.cells, s'.hist, s'.retrying)
  {
    hide Owned, DoomOk;
    BooksKept(s, Doomed(s, l));
    WiredKept(s.cells, Doomed(s, l).cells, s.wiring, s.wired);
    StallsKept(s.cells, s.hist, s.retrying, Doomed(s, l).cells, s.hist, s.retrying);
  }

  /** The final action `l` runs. */
  lemma DoomKeepsInv(s: State, l: nat, X: set<nat>)
    requires CanUpdate(s, l, X) && s.cells[l].kind.Final?
    ensures s.cells[l].ctx < |s.contexts|
    ensures s.cells[l].armed ==>
              && InvBut(Doomed(s, l), X) && HasRoom(Doomed(s, l), 0) && Unsettled(Doomed(s, l)) == Unsettled(s)
              && Progressed(s, s.cells, Doomed(s, l), l, None)
    ensures !s.cells[l].armed ==> InvBut(s, X) && HasRoom(s, 0) && Progressed(s, s.cells, s, l, None)
  {
    hide BooksOk, Base, Wired, Accounted, Waiting, DoomOk, LiveBut, Waits;
    assert OwnerOk(s.cells, s.contexts, l);
    if s.cells[l].armed {
      DoomedBase(s, l, X);
      DoomedOwned(s, l);
      DoomedBooks(s, l);
      assert Unstarted(Doomed(s, l).cells) == Unstarted(s.cells);
    } else {
      UnarmedIsUpToDate(s, l, X);
    }
  }

  lemma UnarmedIsUpToDate(s: State, l: nat, X: set<nat>)
    requires CanUpdate(s, l, X) && s.cells[l].kind.Final? && !s.cells[l].armed
    ensures InvBut(s, X) && HasRoom(s, 0) && Progressed(s, s.cells, s, l, None)
  {
    assert KindOk(s.cells, l);
    UpToDate(s, l, X);
  }

  /**
   * What the end of an attempt has led to: an answer was taken over and its timer cancelled; a timeout with retries
   * left has used one of them for a further call of the start function; without retries left the timeout was taken
   * over and a flag requested before was set.
   */
  ghost predicate AttemptEnded(s: State, s': State, b: nat) {
    && b < |s.cells| && s.cells[b].kind.Bind? && s.cells[b].kind.rpc < |s.cells| && s.cells[b].kind.target < |s.cells|
    && |s.cells| == |s.hist|
    && var a, t := s.cells[b].kind.rpc, s.cells[b].kind.target;
    && s.cells[t].kind.Timeout? && t < |s'.cells|
    && if s.cells[a].status != Error(TimedOut) then
         s'.cells[t].status == s.cells[a].status && s.canceled + [s.cells[a].seqId] <= s'.canceled
       else if s.cells[t].retries > 0 then
         && InRange(s.cells, s.cells[t].kind.inputs)
         && StartedAs(Retried(s, t), s', t, s.cells[t].kind.start(Args(s.cells, s.cells[t].kind.inputs)))
       else
         && s'.cells[t].status == Error(TimedOut)
         && (s.cells[t].flag.Some? ==>
               s.cells[t].flag.value < |s'.cells| && s'.cells[s.cells[t].flag.value].status == Value(VBool(true)))
  }

  /** What the update of listener `l` does, by its kind. */
  ghost predicate UpdatedAs(s: State, s': State, l: nat) {
    && l < |s.cells|
    && match s.cells[l].kind
       case Derived(inputs, logic) =>
         && InRange(s.cells, inputs) && l < |s'.cells|
         && s'.cells[l].status ==
              if s.cells[l].status.Empty? then logic(Args(s.cells, inputs)) else s.cells[l].status
       case Timeout(inputs, start, _) =>
         && InRange(s.cells, inputs)
         && if s.cells[l].status.Empty? && !s.cells[l].started
            then StartedAs(s, s', l, start(Args(s.cells, inputs))) else s' == s
       case Bind(_, _) => AttemptEnded(s, s', l)
       case Final(_) =>
         s.cells[l].ctx < |s.contexts| && s' == if s.cells[l].armed then Doomed(s, l) else s
       case _ => s' == s
  }

  /** The attempt whose rpc cell is `c` has a retry left, and the start function would defer it. */
  ghost predicate WillBalk(s: State, c: nat) {
    && c < |s.cells| && |s.cells| == |s.hist| && s.cells[c].kind.Rpc? && s.hist[c].bound.Some?
    && var t := s.hist[c].bound.value;
    && t < c && s.cells[t].kind.Timeout? && s.cells[t].retries > 0 && Before(s.cells[t].kind.inputs, t)
    && s.cells[t].kind.start(Args(s.cells, s.cells[t].kind.inputs)).Deferred?
  }

  /** An answered attempt has its timer cancelled; one that times out and whose retry is deferred stalls its cell. */
  ghost predicate AttemptTaken(s: State, s': State, c: nat, r: Status) {
    c < |s.cells| && c < |s.hist| && s.cells[c].kind.Rpc? && s.hist[c].bound.Some? ==>
      && (r != Error(TimedOut) ==> s.canceled + [s.cells[c].seqId] <= s'.canceled)
      && (r == Error(TimedOut) && WillBalk(s, c) ==> var t := s.hist[c].bound.value;
            t < |s'.hist| && s'.hist[t].stalled && s'.hist[t].attempts == s.hist[t].attempts)
  }

  lemma TakenSinceSettled(s: State, c: nat, r: Status, s': State)
    requires c < |s.cells| && AttemptTaken(Settled(s, c, r), s', c, r)
    ensures AttemptTaken(s, s', c, r)
  {
    if WillBalk(s, c) {
      var inputs := s.cells[s.hist[c].bound.value].kind.inputs;
      assert Args(Settled(s, c, r).cells, inputs) == Args(s.cells, inputs);
    }
  }

  /** The one listener of the rpc cell of an attempt is the action that ends it. */
  lemma NextTakes(b: State, s: State, s': State, c: nat, X: set<nat>, i: nat)
    requires c < |b.cells| && Propagating(b, s, c, X, i) && i < |b.cells[c].listeners| && c < |s.cells|
    requires UpdatedAs(Notified(s, c, b.cells[c].listeners[i]), s', b.cells[c].listeners[i])
    requires i > 0 ==> AttemptTaken(b, s, c, b.cells[c].status)
    ensures AttemptTaken(b, s', c, b.cells[c].status)
  {
    if b.cells[c].kind.Rpc? && b.hist[c].bound.Some? {
      assert i == 0 && s == b;
      assert b.cells[c].listeners[0] in b.cells[c].listeners;
      ListenerReady(b, c, b.cells[c].listeners[0], Waiter(b, c));
      EndedIsTaken(Notified(b, c, b.cells[c].listeners[0]), s', c, b.cells[c].listeners[0]);
    }
  }

  /** A cell without listeners is not the rpc cell of an attempt. */
  lemma NothingToTake(b: State, c: nat, X: set<nat>, s': State)
    requires CanPropagate(b, c, X)
    requires c < |b.cells| && (|b.cells[c].listeners| > 0 ==> AttemptTaken(b, s', c, b.cells[c].status))
    ensures AttemptTaken(b, s', c, b.cells[c].status)
  {
  }

  /** What an update may rely on. */
  lemma UpdateArgs(s: State, l: nat, X: set<nat>)
    requires CanUpdate(s, l, X)
    ensures l < |s.cells| && InRange(s.cells, Deps(s.cells[l].kind))
  {
  }

  lemma EndedIsTaken(s: State, s': State, c: nat, b: nat)
    requires AttemptEnded(s, s', b) && s.cells[b].kind.rpc == c
    requires c < |s.hist| && s.hist[c].bound == Some(s.cells[b].kind.target)
    ensures AttemptTaken(s, s', c, s.cells[c].status)
  {
  }

  lemma RetriedProgress(s: State, b: nat, X: set<nat>, s': State)
    requires CanUpdate(s, b, X) && s.cells[b].kind.Bind?
    requires s.cells[s.cells[b].kind.target].retries > 0
    requires var t := s.cells[b].kind.target; Progressed(Retried(s, t), Retried(s, t).cells, s', t, None)
    ensures Progressed(s, s.cells, s', s.cells[b].kind.target, FlagReached(s, b))
  {
    hide InvWith, LiveBut, HasRoom;
    RetriedGrows(s, s.cells[b].kind.target, s', FlagReached(s, b));
  }

  lemma RetriedGrows(s: State, t: nat, s': State, f: Option<nat>)
    requires t < |s.cells| == |s.hist| && s.cells[t].retries > 0 && !s.hist[t].stalled && s.retrying.None?
    requires Progressed(Retried(s, t), Retried(s, t).cells, s', t, None)
    ensures Progressed(s, s.cells, s', t, f)
  {
    RetriedRests(s, t, s');
    hide OnlyTimeoutsCall;
  }

  lemma RetriedRests(s: State, t: nat, s': State)
    requires t < |s.cells| == |s.hist| && s.cells[t].retries > 0
    requires OnlyTimeoutsCall(Retried(s, t), Retried(s, t).cells, s')
    ensures OnlyTimeoutsCall(s, s.cells, s')
  {
    var u := Retried(s, t);
    if forall i :: 0 <= i < |s.cells| ==> Rests(s.cells, s.hist, s'.cells, s'.hist, i) {
      forall i | 0 <= i < |s.cells| ensures Rests(u.cells, u.hist, s'.cells, s'.hist, i) {
        assert Rests(s.cells, s.hist, s'.cells, s'.hist, i);
      }
    }
  }

  lemma RetryEndsAttempt(s: State, b: nat, X: set<nat>, s': State)
    requires CanUpdate(s, b, X) && s.cells[b].kind.Bind? && s.cells[s.cells[b].kind.rpc].status == Error(TimedOut)
    requires var t := s.cells[b].kind.target;
             && t < |s.cells| == |s.hist| && s.cells[t].kind.Timeout? && s.cells[t].retries > 0 && t < |s'.cells|
             && InRange(Retried(s, t).cells, s.cells[t].kind.inputs)
             && StartedAs(Retried(s, t), s', t,
                          s.cells[t].kind.start(Args(Retried(s, t).cells, s.cells[t].kind.inputs)))
    ensures AttemptEnded(s, s', b)
  {
    var t := s.cells[b].kind.target;
    assert Args(Retried(s, t).cells, s.cells[t].kind.inputs) == Args(s.cells, s.cells[t].kind.inputs);
    hide InvWith, LiveBut, StartedAs;
  }

  ghost predicate TimeoutTaken(s: State, b: nat, X: set<nat>, s1: State) {
    && CanUpdate(s, b, X) && s.cells[b].kind.Bind? && s.cells[s.cells[b].kind.rpc].status == Error(TimedOut)
    && var t := s.cells[b].kind.target;
    && s.cells[t].retries == 0 && InvBut(s1, X + FlagSet(s, t))
    && Progressed(s, SetStatus(s.cells, t, Error(TimedOut)), s1, t, None)
  }

  /** Once the exhausted timeout cell has taken the timeout, its flag may be set. */
  lemma FlagCanSettle(s: State, b: nat, X: set<nat>, s1: State)
    requires TimeoutTaken(s, b, X, s1) && s.cells[s.cells[b].kind.target].flag.Some?
    ensures var f := s.cells[s.cells[b].kind.target].flag.value;
            && s.cells[b].kind.target < f < |s1.cells| && s1.cells[f].status.Empty? && s1.cells[f].kind.Flag?
            && CanSettle(s1, f, Value(VBool(true)), X)
  {
    var t := s.cells[b].kind.target;
    var f := s.cells[t].flag.value;
    FlagStillEmpty(s, b, X, s1);
    StillExhausted(s, b, X, s1);
    assert KindOk(s1.cells, f) && OwnerOk(s1.cells, s1.contexts, t);
    var c' := SetStatus(s1.cells, f, Value(VBool(true)));
    assert KindOk(c', f) && FlagBase(c', s1.hist, f);
  }

  lemma FlagStillEmpty(s: State, b: nat, X: set<nat>, s1: State)
    requires TimeoutTaken(s, b, X, s1) && s.cells[s.cells[b].kind.target].flag.Some?
    ensures var t, f := s.cells[b].kind.target, s.cells[s.cells[b].kind.target].flag.value;
            && t < f < |s1.cells| && s1.cells[f].status.Empty? && s1.cells[f].kind == Flag(t) && |s1.hist| > f
            && s1.hist[f].early
  {
    var t := s.cells[b].kind.target;
    var f := s.cells[t].flag.value;
    assert KindOk(s.cells, t) && KindOk(s.cells, f) && NodeBase(s.cells, s.hist, f);
  }

  /** Nothing that follows lets the timeout cell forget that its attempts are used up. */
  lemma StillExhausted(s: State, b: nat, X: set<nat>, s1: State)
    requires TimeoutTaken(s, b, X, s1)
    ensures var t := s.cells[b].kind.target;
            t < |s1.cells| == |s1.hist| && s1.cells[t].kind.Timeout? && Exhausted(s1.cells, s1.hist, t)
  {
    var t, a := s.cells[b].kind.target, s.cells[b].kind.rpc;
    assert s.hist[a].bound == Some(t) && s.hist[a].slot == s.cells[t].kind.budget by {
      assert KindOk(s.cells, t) && NodeBase(s.cells, s.hist, t);
    }
    assert s1.hist[a].bound == Some(t) && s1.hist[a].slot == s.hist[a].slot;
    assert s1.cells[a].kind == s.cells[a].kind && s1.cells[t].kind == s.cells[t].kind;
    assert KindOk(s1.cells, t) && NodeBase(s1.cells, s1.hist, t);
    assert KindOk(s1.cells, a) && NodeBase(s1.cells, s1.hist, a);
  }

  lemma TimeoutTakenProgress(s: State, b: nat, X: set<nat>, s1: State)
    requires TimeoutTaken(s, b, X, s1)
    ensures var t := s.cells[b].kind.target;
            && t < |s1.cells| && s1.cells[t].flag == s.cells[t].flag
            && Progressed(s, s.cells, s1, t, FlagReached(s, b)) && s1.cells[t].status == Error(TimedOut)
            && (s.cells[t].flag.None? ==> InvBut(s1, X) && AttemptEnded(s, s1, b))
  {
    hide CanUpdate, InvBut, Progressed;
    FlagIsReached(s, b, X);
    BindActionArgs(s, b, X);
    var t := s.cells[b].kind.target;
    SettledProgress(s, t, Error(TimedOut), s1, FlagReached(s, b));
    KeepsFlag(s, s1, t, FlagReached(s, b));
    assert X + {} == X;
  }

  lemma FlagIsReached(s: State, b: nat, X: set<nat>)
    requires CanUpdate(s, b, X) && s.cells[b].kind.Bind?
    ensures b < |s.cells| && s.cells[b].kind.target < |s.cells|
    ensures FlagReached(s, b) == s.cells[s.cells[b].kind.target].flag
  {
  }

  lemma KeepsFlag(s: State, s1: State, t: nat, f: Option<nat>)
    requires t < |s.cells| && Progressed(s, s.cells, s1, t, f)
    ensures t < |s1.cells| && s1.cells[t].flag == s.cells[t].flag
  {
    assert SameButProgress(s.cells[t], s1.cells[t]);
  }

  lemma FlagProgress(s: State, s1: State, s2: State, t: nat, f: nat)
    requires f < |s1.cells| && s1.cells[f].status.Empty? && s1.cells[f].kind.Flag? && t <= f
    requires Progressed(s, s.cells, s1, t, Some(f))
    requires Progressed(s1, SetStatus(s1.cells, f, Value(VBool(true))), s2, f, None)
    ensures Progressed(s, s.cells, s2, t, Some(f))
    ensures f < |s2.cells| && s2.cells[f].status == Value(VBool(true))
    ensures t < |s1.cells| && !s1.cells[t].status.Empty? ==> t < |s2.cells| && s2.cells[t].status == s1.cells[t].status
  {
    SettledProgress(s1, f, Value(VBool(true)), s2, Some(f));
    ProgressIsTransitive(s, s.cells, s1, s2, t, Some(f), f, Some(f));
  }

  lemma FlagEndsAttempt(s: State, b: nat, X: set<nat>, s': State)
    requires CanUpdate(s, b, X) && s.cells[b].kind.Bind? && s.cells[s.cells[b].kind.rpc].status == Error(TimedOut)
    requires var t := s.cells[b].kind.target;
             && s.cells[t].retries == 0 && s.cells[t].flag.Some?
             && t < |s'.cells| && s'.cells[t].status == Error(TimedOut)
             && s.cells[t].flag.value < |s'.cells| && s'.cells[s.cells[t].flag.value].status == Value(VBool(true))
    ensures AttemptEnded(s, s', b)
  {
    hide InvWith, LiveBut, StartedAs;
  }

  lemma StartArgs(s: State, t: nat, X: set<nat>)
    requires CanStart(s, t, X)
    ensures t < |s.cells| == |s.hist| && s.cells[t].kind.Timeout? && s.cells[t].status.Empty?
    ensures InRange(s.cells, s.cells[t].kind.inputs)
    ensures s.cells[t].ctx < |s.contexts| && s.contexts[s.cells[t].ctx].alive
  {
    assert KindOk(s.cells, t) && OwnerOk(s.cells, s.contexts, t);
  }

  lemma BindArgs(s: State, t: nat, a: nat, X: set<nat>)
    requires CanBind(s, t, a, X)
    ensures BindFits(s, t, a)
  {
  }

  lemma BindActionArgs(s: State, b: nat, X: set<nat>)
    requires CanUpdate(s, b, X) && s.cells[b].kind.Bind?
    ensures var t, a := s.cells[b].kind.target, s.cells[b].kind.rpc;
            && t < |s.cells| && a < |s.cells| == |s.hist| && s.cells[t].kind.Timeout? && s.cells[t].status.Empty?
            && !s.cells[a].status.Empty?
  {
  }

  lemma FailedStartProgress(s: State, s1: State, t: nat, r: Status, s': State)
    requires Extended(s, s1) && t < |s.cells| && |s.cells| == |s.hist| && |s1.cells| == |s1.hist|
    requires NewOk(s1.cells, |s.cells|)
    requires t < |s1.cells| && s1.cells[t].kind.Timeout? && s1.cells[t].status.Empty? && r.Error?
    requires s1.hist[t].stalled ==> s1.retrying == Some(t)
    requires Progressed(StartFailed(s1, t), SetStatus(StartFailed(s1, t).cells, t, r), s', t, None)
    ensures Progressed(s, s.cells, s', t, None)
    ensures t < |s'.cells| && s'.cells[t].started && s'.cells[t].status == r
  {
    assert !Rests(s.cells, s.hist, s'.cells, s'.hist, t);
    assert forall k :: 0 <= k < |s.contexts| ==> s.contexts[k].release <= s1.contexts[k].release;
  }
}
