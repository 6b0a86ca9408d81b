/** What a message dispatch does around a propagation: it answers one cell, unregisters it, and tears down. */
module ClientDispatch {
  import opened RpcTypes
  import opened SequenceIds
  import opened Cells
  import opened ClientState
  import opened ClientSteps
  import opened ClientGraph

  // ---------------------------------------------------------------- answers

  /** Cell::set_rpc_rsp: what a response makes of the cell that waits for it. */
  function Answer(out: Outgoing, result: RpcResult, payload: bytes): (r: Status)
    ensures !r.Empty?
  {
    if result != Succeeded then Error(result)
    else match out.decode(payload)
      case Some(v) => Value(v)
      case None => Error(Failed)
  }

  /** The rpc cell registered under a sequence id is alive, empty, and waits for exactly that call. */
  lemma RegisteredWaits(s: State, id: nat)
    requires Quiescent(s) && id in s.idFuncMap
    ensures var c := s.idFuncMap[id];
            && c < |s.cells| == |s.hist| && s.cells[c].alive && s.cells[c].kind.Rpc? && s.cells[c].kind.out.Some?
            && s.cells[c].status.Empty? && s.cells[c].hasSeqId && s.cells[c].seqId == id
            && 0 < s.hist[c].call <= |s.calls| && s.calls[s.hist[c].call - 1] == c && id == IdOf(s.hist[c].call)
            && |s.calls| - s.hist[c].call < CYCLE
  {
    var c := s.idFuncMap[id];
    assert EntryOk(s.cells, s.idFuncMap, id) && CallerOk(s.cells, s.hist, s.calls, c);
    assert CallOk(s.cells, s.hist, s.calls, s.hist[c].call);
  }

  function Answering(s: State, c: nat): State { s.(answering := Some(c)) }

  /** The rpc cell that a message is for may settle. */
  lemma RpcCanSettle(s: State, c: nat, r: Status)
    requires InvBut(s, {}) && c < |s.cells| && s.cells[c].kind.Rpc? && s.cells[c].alive && s.cells[c].status.Empty?
    requires s.answering == Some(c) && s.wiring == 0 && s.retrying == None && !r.Empty?
    requires r != Error(TimedOut) ==> s.cells[c].hasSeqId
    ensures CanSettle(s, c, r, {})
  {
    RpcNodeSettled(s, c, r);
    assert {} + {c} == {c};
    hide Base, Wired, Accounted, Owned, DoomOk, BooksOk, StallsOk, Waiting, Live, Waits, KindOk, NodeBase;
  }

  lemma RpcNodeSettled(s: State, c: nat, r: Status)
    requires InvBut(s, {}) && c < |s.cells| && s.cells[c].kind.Rpc?
    ensures KindOk(SetStatus(s.cells, c, r), c) && |s.cells| == |s.hist|
    ensures NodeBase(SetStatus(s.cells, c, r), s.hist, c)
  {
    assert KindOk(s.cells, c) && NodeBase(s.cells, s.hist, c);
    hide Wired, Accounted, Owned, DoomOk, BooksOk, StallsOk, Waiting, LiveBut, Waits;
  }

  lemma AnsweringKeepsInv(s: State, c: nat)
    requires Quiescent(s)
    ensures InvBut(Answering(s, c), {})
  {
    BooksKept(s, Answering(s, c));
    hide Base, Wired, Accounted, Owned, DoomOk, BooksOk, LiveBut, Waits, StallsOk;
  }

  lemma AnswerCanSettle(s: State, id: nat, r: Status)
    requires Quiescent(s) && id in s.idFuncMap && !r.Empty? && HasRoom(s, 1)
    ensures CanSettle(Answering(s, s.idFuncMap[id]), s.idFuncMap[id], r, {})
    ensures HasRoom(Answering(s, s.idFuncMap[id]), 1)
  {
    RegisteredWaits(s, id);
    var c := s.idFuncMap[id];
    AnsweringKeepsInv(s, c);
    hide InvBut, CanSettle;
    RpcCanSettle(Answering(s, c), c, r);
  }

  // ---------------------------------------------------------------- unregistering

  /** reset_sequential_id, and the entry is erased. */
  function Unregistered(s: State, c: nat, answering: Option<nat>): State
    requires c < |s.cells|
  {
    s.(cells := s.cells[c := s.cells[c].(hasSeqId := false)], idFuncMap := s.idFuncMap - {s.cells[c].seqId},
       answering := answering)
  }

  lemma UnregisteredParts(s: State, c: nat, answering: Option<nat>)
    requires c < |s.cells|
    ensures var s1 := Unregistered(s, c, answering);
            && s1.cells == s.cells[c := s.cells[c].(hasSeqId := false)] && s1.hist == s.hist
            && s1.contexts == s.contexts && s1.calls == s.calls && s1.timers == s.timers && s1.canceled == s.canceled
            && s1.sent == s.sent && s1.sentCalls == s.sentCalls && s1.owed == s.owed && s1.answering == answering
            && s1.wiring == s.wiring && s1.wired == s.wired && s1.retrying == s.retrying
  {
  }

  lemma UnregisterKeepsBooks(s: State, c: nat, answering: Option<nat>)
    requires Inv(s) && c < |s.cells| && s.cells[c].alive && s.cells[c].hasSeqId
    ensures var s' := Unregistered(s, c, answering); |s'.cells| == |s'.hist| && BooksOk(s')
  {
    assert |s.cells| == |s.hist|;
    hide Base, Wired, Accounted, Waiting, Owned, DoomOk, Waits;
    assert Registered(s.cells, s.idFuncMap, c);
    assert forall r :: r in s.idFuncMap ==> EntryOk(s.cells, s.idFuncMap, r);
    BooksShrink(s, Unregistered(s, c, answering));
  }

  lemma UnregisterKeepsRoom(s: State, c: nat, answering: Option<nat>, slack: int)
    requires c < |s.cells| && HasRoom(s, slack)
    ensures HasRoom(Unregistered(s, c, answering), slack)
  {
    assert Unstarted(Unregistered(s, c, answering).cells) == Unstarted(s.cells);
  }

  lemma UnregisterKeepsInv(s: State, c: nat, answering: Option<nat>)
    requires InvBut(s, {}) && c < |s.cells| && s.cells[c].alive && s.cells[c].hasSeqId
    requires answering == Some(c) || (answering.None? && s.answering == Some(c) && !s.cells[c].status.Empty?)
    requires s.answering.Some? ==> s.answering == Some(c)
    ensures InvBut(Unregistered(s, c, answering), {})
  {
    var s' := Unregistered(s, c, answering);
    UnregisterKeepsBooks(s, c, answering);
    SameLogicKeeps(s, s', {});
    SameLogicKeepsOwned(s, s');
  }

  lemma TakenSinceUnregistered(s: State, c: nat, r: Status, s': State)
    requires c < |s.cells| && AttemptTaken(Unregistered(s, c, Some(c)), s', c, r)
    ensures AttemptTaken(s, s', c, r)
  {
    if WillBalk(s, c) {
      var inputs := s.cells[s.hist[c].bound.value].kind.inputs;
      assert Args(Unregistered(s, c, Some(c)).cells, inputs) == Args(s.cells, inputs);
    }
  }

  lemma TakenSinceAnswering(s: State, c: nat, r: Status, s': State)
    requires AttemptTaken(Answering(s, c), s', c, r)
    ensures AttemptTaken(s, s', c, r)
  {
  }

  lemma TakenBeforeUnregistering(s: State, s2: State, c: nat, r: Status, answering: Option<nat>)
    requires AttemptTaken(s, s2, c, r) && c < |s2.cells|
    ensures AttemptTaken(s, Unregistered(s2, c, answering), c, r)
  {
  }

  lemma TimeoutCanSettle(s: State, id: nat)
    requires Quiescent(s) && id in s.idFuncMap && HasRoom(s, 1)
    ensures var c := s.idFuncMap[id];
            && c < |s.cells|
            && CanSettle(Unregistered(s, c, Some(c)), c, Error(TimedOut), {})
            && HasRoom(Unregistered(s, c, Some(c)), 1)
  {
    RegisteredWaits(s, id);
    var c := s.idFuncMap[id];
    var s' := Unregistered(s, c, Some(c));
    UnregisterKeepsInv(s, c, Some(c));
    UnregisterKeepsRoom(s, c, Some(c), 1);
    hide InvBut, CanSettle, HasRoom;
    RpcCanSettle(s', c, Error(TimedOut));
  }

  // ---------------------------------------------------------------- the end of a dispatch

  /** A cell through a dispatch: it settles at most once and never comes back to life. */
  ghost predicate Later(a: Cell, b: Cell) {
    && b.kind == a.kind && b.listeners == a.listeners && b.ctx == a.ctx && b.owner == a.owner
    && b.seqId == a.seqId && b.flag == a.flag && b.armed == a.armed
    && (!a.status.Empty? ==> b.status == a.status)
    && (a.started ==> b.started) && (b.alive ==> a.alive)
  }

  ghost predicate CellsLater(s0: State, s: State, c: nat) {
    |s0.cells| <= |s.cells| && forall i :: 0 <= i < |s0.cells| ==>
      Later(s0.cells[i], s.cells[i])
      && (s0.cells[i].kind.Rpc? && i != c ==> s.cells[i].status == s0.cells[i].status)
  }

  /** Contexts go exactly when they were to be torn down. */
  ghost predicate ContextsLater(s0: State, s: State) {
    |s.contexts| == |s0.contexts| && forall k :: 0 <= k < |s.contexts| ==>
      s.contexts[k].alive == (s0.contexts[k].alive && !s.contexts[k].doomed)
  }

  ghost predicate BooksLater(s0: State, s: State) {
    && HistGrows(s0.hist, s.hist) && StallsStay(s0.hist, None, s.hist) && s.channel == s0.channel
    && s0.calls <= s.calls && s0.timers <= s.timers && s0.canceled <= s.canceled && s0.sent <= s.sent
    && s0.sentCalls <= s.sentCalls
  }

  /** A message gave rpc cell `c` its outcome `r`; no other rpc cell settled, and no cell settled twice. */
  ghost predicate Dispatched(s0: State, s: State, c: nat, r: Status) {
    && c < |s0.cells| <= |s.cells| && s.cells[c].status == r && !s.cells[c].hasSeqId
    && CellsLater(s0, s, c) && Unanswered(s.cells, |s0.cells|)
    && ContextsLater(s0, s) && BooksLater(s0, s) && OnlyTimeoutsCall(s0, s0.cells, s)
    && SurviveWithContext(s0, s)
  }

  /** The same timeout cells, started and settled alike. */
  ghost predicate SameTimeouts(a: seq<Cell>, b: seq<Cell>) {
    |a| == |b| && forall i :: 0 <= i < |a| ==>
      b[i].kind == a[i].kind && (a[i].kind.Timeout? ==> b[i].started == a[i].started && b[i].status == a[i].status)
  }

  ghost predicate SameKinds(a: seq<Cell>, b: seq<Cell>) {
    |a| <= |b| && forall i :: 0 <= i < |a| ==> b[i].kind == a[i].kind
  }

  lemma KindsKept(s: State, base: seq<Cell>, s2: State, lo: nat, f: Option<nat>)
    requires Progressed(s, base, s2, lo, f)
    ensures SameKinds(base, s2.cells) && OnlyTimeoutsCall(s, base, s2)
  {
    hide OnlyTimeoutsCall;
  }

  lemma RestsAlike(s: State, s1: State, base: seq<Cell>, s2: State, s': State)
    requires OnlyTimeoutsCall(s1, base, s2) && SameTimeouts(base, s.cells) && SameTimeouts(s2.cells, s'.cells)
    requires s1.hist == s.hist && s'.hist == s2.hist && s1.calls == s.calls && s'.calls == s2.calls
    requires SameKinds(base, s2.cells)
    ensures OnlyTimeoutsCall(s, s.cells, s')
  {
    if forall i :: 0 <= i < |s.cells| ==> Rests(s.cells, s.hist, s'.cells, s'.hist, i) {
      forall i | 0 <= i < |base| ensures Rests(base, s1.hist, s2.cells, s2.hist, i) {
        assert Rests(s.cells, s.hist, s'.cells, s'.hist, i);
      }
    }
  }

  lemma AllKept(s: State, base: seq<Cell>, s2: State, lo: nat, f: Option<nat>, c: nat)
    requires Progressed(s, base, s2, lo, f) && Kept(base, 0) && c < |base|
    ensures Kept(s2.cells, 0) && Unanswered(s2.cells, |base|) && c < |s2.cells| && SameButProgress(base[c], s2.cells[c])
    ensures s2.answering == s.answering && s2.wiring == s.wiring && s2.wired == s.wired && s2.retrying == None
  {
    assert forall i :: 0 <= i < |base| ==> SameButProgress(base[i], s2.cells[i]);
  }

  lemma StillRegistered(s: State, id: nat, r: Status, s2: State)
    requires Quiescent(s) && id in s.idFuncMap && InvBut(s2, {})
    requires var c := s.idFuncMap[id];
             && c < |s.cells| && Progressed(Answering(s, c), SetStatus(s.cells, c, r), s2, Reach(Answering(s, c), c).0,
                                            Reach(Answering(s, c), c).1)
    ensures var c := s.idFuncMap[id];
            && id in s2.idFuncMap && s2.idFuncMap[id] == c && c < |s2.cells| && s2.cells[c].seqId == id
            && s2.cells[c].status == r && s2.cells[c].alive && s2.cells[c].hasSeqId
            && s2.answering == Some(c) && Kept(s2.cells, 0)
  {
    RegisteredWaits(s, id);
    var c := s.idFuncMap[id];
    assert Kept(SetStatus(s.cells, c, r), 0) && RegistryOk(s2.cells, s2.idFuncMap);
    hide InvBut, Quiescent, Reach;
    AllKept(Answering(s, c), SetStatus(s.cells, c, r), s2, Reach(Answering(s, c), c).0, Reach(Answering(s, c), c).1, c);
    assert Registered(s2.cells, s2.idFuncMap, c);
    hide Progressed;
  }

  /** delete_rsp_handler_if_exist, after the answer has been propagated. */
  lemma AnsweredQuiescent(s: State, id: nat, r: Status, s2: State)
    requires Quiescent(s) && id in s.idFuncMap && InvBut(s2, {}) && s2.owed == multiset{} && !r.Empty?
    requires var c := s.idFuncMap[id];
             && c < |s.cells| && Progressed(Answering(s, c), SetStatus(s.cells, c, r), s2, Reach(Answering(s, c), c).0,
                                            Reach(Answering(s, c), c).1)
    ensures var c := s.idFuncMap[id];
            && id in s2.idFuncMap && s2.idFuncMap[id] == c && c < |s2.cells| && s2.cells[c].seqId == id
            && Quiescent(Unregistered(s2, c, None))
  {
    hide Reach;
    StillRegistered(s, id, r, s2);
    UnregisterKeepsInv(s2, s.idFuncMap[id], None);
  }

  lemma QuiescentParts(s: State)
    requires Quiescent(s)
    ensures Kept(s.cells, 0) && s.owed == multiset{} && s.answering.None? && s.wiring == 0 && s.wired == 0
  {
  }

  lemma TimedOutQuiescent(s: State, id: nat, s2: State)
    requires Quiescent(s) && id in s.idFuncMap && InvBut(s2, {}) && s2.owed == multiset{}
    requires var c := s.idFuncMap[id];
             && c < |s.cells|
             && var s1 := Unregistered(s, c, Some(c));
             && Progressed(s1, SetStatus(s1.cells, c, Error(TimedOut)), s2, Reach(s1, c).0, Reach(s1, c).1)
    ensures Quiescent(s2.(answering := None))
  {
    hide Quiescent, Reach, InvBut, Progressed, Kept, Unregistered, IdOf, Unanswered;
    RegisteredWaits(s, id);
    QuiescentParts(s);
    var c := s.idFuncMap[id];
    var s1 := Unregistered(s, c, Some(c));
    UnregisteredParts(s, c, Some(c));
    StillKept(s, s1, c);
    AllKept(s1, SetStatus(s1.cells, c, Error(TimedOut)), s2, Reach(s1, c).0, Reach(s1, c).1, c);
    AnsweringDone(s2, c);
  }

  lemma StillKept(s: State, s1: State, c: nat)
    requires Kept(s.cells, 0) && c < |s.cells| && s1.cells == s.cells[c := s.cells[c].(hasSeqId := false)]
    ensures Kept(SetStatus(s1.cells, c, Error(TimedOut)), 0)
  {
  }

  lemma AnsweringDone(s: State, c: nat)
    requires InvBut(s, {}) && s.owed == multiset{} && s.answering == Some(c) && Kept(s.cells, 0)
    requires s.wiring == 0 && s.wired == 0 && s.retrying == None
    requires c < |s.cells| && !s.cells[c].status.Empty? && !s.cells[c].hasSeqId
    ensures Quiescent(s.(answering := None))
  {
    assert |s.cells| == |s.hist|;
    hide Base, LiveBut, Wired, Accounted, Owned, DoomOk, Waits;
    assert BooksOk(s.(answering := None));
  }

  // ---------------------------------------------------------------- teardown

  /** The state once the objects in `D` are deleted: their destructors have unregistered them. */
  function Killed(s: State, D: set<nat>): State {
    s.(cells := seq(|s.cells|, i requires 0 <= i < |s.cells| =>
                      if i in D then s.cells[i].(alive := false) else s.cells[i]),
       idFuncMap := map r | r in s.idFuncMap && s.idFuncMap[r] !in D :: s.idFuncMap[r])
  }

  /** Deleting one more object. */
  lemma KillOne(s: State, D: set<nat>, i: nat)
    requires RegistryOk(s.cells, s.idFuncMap) && i < |s.cells| && s.cells[i].alive && i !in D
    ensures Deleted(Killed(s, D), i) == Killed(s, D + {i})
  {
    assert Registered(s.cells, s.idFuncMap, i);
    assert forall r :: r in s.idFuncMap ==> EntryOk(s.cells, s.idFuncMap, r);
    var s1, s2 := Deleted(Killed(s, D), i), Killed(s, D + {i});
    assert s1.idFuncMap == s2.idFuncMap;
    assert s1.cells == s2.cells;
  }

  /** What the destructor of cell or action `i` deletes: itself, and its flag. */
  function Freed(cells: seq<Cell>, i: nat): set<nat>
    requires i < |cells|
  {
    if cells[i].flag.Some? then {i, cells[i].flag.value} else {i}
  }

  /** What deleting the result and the first `j` objects of the release list deletes. */
  function FreedUpTo(cells: seq<Cell>, r: nat, release: seq<nat>, j: nat): (D: set<nat>)
    requires r < |cells| && j <= |release| && forall m :: 0 <= m < |release| ==> release[m] < |cells|
    ensures forall x :: x in D <==> x in Freed(cells, r) || exists m :: 0 <= m < j && x in Freed(cells, release[m])
  {
    if j == 0 then Freed(cells, r) else FreedUpTo(cells, r, release, j - 1) + Freed(cells, release[j - 1])
  }

  ghost predicate CanTearDown(s: State, k: nat) {
    && Quiescent(s) && k < |s.contexts| && s.contexts[k].alive && s.contexts[k].result.Some?
  }

  /** Whatever is tracked is an object of its own: no other one's flag, and with a flag of its own. */
  lemma FreedAreApart(s: State, x: nat, y: nat)
    requires Quiescent(s) && x < |s.cells| && y < |s.cells| && x != y && s.cells[x].alive && s.cells[y].alive
    requires !s.cells[x].owner.FlagOf? && !s.cells[y].owner.FlagOf?
    ensures Freed(s.cells, x) !! Freed(s.cells, y)
    ensures forall z :: z in Freed(s.cells, x) ==> z < |s.cells| && s.cells[z].alive && s.cells[z].ctx == s.cells[x].ctx
  {
    assert OwnerOk(s.cells, s.contexts, x) && OwnerOk(s.cells, s.contexts, y);
  }

  ghost function Members(cells: seq<Cell>, k: nat): set<nat> {
    set i | 0 <= i < |cells| && cells[i].alive && cells[i].ctx == k
  }

  lemma ReleaseListOf(s: State, k: nat)
    requires CanTearDown(s, k)
    ensures var r, rel := s.contexts[k].result.value, s.contexts[k].release;
            && r < |s.cells| && s.cells[r].alive && s.cells[r].ctx == k && s.cells[r].owner == Result
            && Distinct(rel)
            && forall m :: 0 <= m < |rel| ==>
                 rel[m] < |s.cells| && s.cells[rel[m]].alive && s.cells[rel[m]].ctx == k
                 && s.cells[rel[m]].owner == Listed
  {
    assert ContextOk(s.cells, s.contexts, k);
  }

  /** The result and the release list of a context delete exactly the live objects of the interaction. */
  lemma EverythingIsFreed(s: State, k: nat)
    requires CanTearDown(s, k)
    ensures s.contexts[k].result.value < |s.cells|
    ensures forall m :: 0 <= m < |s.contexts[k].release| ==> s.contexts[k].release[m] < |s.cells|
    ensures FreedUpTo(s.cells, s.contexts[k].result.value, s.contexts[k].release, |s.contexts[k].release|)
            == Members(s.cells, k)
  {
    ReleaseListOf(s, k);
    var r, rel := s.contexts[k].result.value, s.contexts[k].release;
    var D := FreedUpTo(s.cells, r, rel, |rel|);
    forall x | x in D ensures x in Members(s.cells, k) {
      var y :| y < |s.cells| && (y == r || y in rel) && x in Freed(s.cells, y);
      assert OwnerOk(s.cells, s.contexts, y);
    }
    forall x | x in Members(s.cells, k) ensures x in D {
      assert OwnerOk(s.cells, s.contexts, x);
      if s.cells[x].owner.FlagOf? {
        var t := s.cells[x].owner.cell;
        FlagOwnerIsTracked(s, x, t);
        assert OwnerOk(s.cells, s.contexts, t);
        assert x in Freed(s.cells, t);
      } else {
        assert x in Freed(s.cells, x);
      }
    }
  }

  lemma FlagOwnerIsTracked(s: State, f: nat, t: nat)
    requires Quiescent(s) && f < |s.cells| && s.cells[f].alive && s.cells[f].owner == FlagOf(t)
    ensures t < f && s.cells[t].alive && s.cells[t].flag == Some(f) && s.cells[t].ctx == s.cells[f].ctx
    ensures s.cells[t].owner == Listed || s.cells[t].owner == Result
  {
    assert OwnerOk(s.cells, s.contexts, f) && OwnerOk(s.cells, s.contexts, t) && KindOk(s.cells, t);
    var t' := if s.cells[t].owner.FlagOf? then s.cells[t].owner.cell else t;
    assert KindOk(s.cells, t');
  }

  /** What has been deleted after the result and the first `j` objects of the release list of context `k`. */
  ghost function DeletedBy(s: State, k: nat, j: nat): set<nat>
    requires CanTearDown(s, k) && j <= |s.contexts[k].release|
  {
    ReleaseListOf(s, k);
    FreedUpTo(s.cells, s.contexts[k].result.value, s.contexts[k].release, j)
  }

  /** The next object on the release list has not been deleted yet, and neither has its flag. */
  lemma NextIsAlive(s: State, k: nat, j: nat)
    requires CanTearDown(s, k) && j < |s.contexts[k].release|
    ensures var x := s.contexts[k].release[j];
            CanDelete(s, DeletedBy(s, k, j), x) && DeletedBy(s, k, j + 1) == DeletedBy(s, k, j) + Freed(s.cells, x)
  {
    ReleaseListOf(s, k);
    var r, rel := s.contexts[k].result.value, s.contexts[k].release;
    var x := rel[j];
    assert OwnerOk(s.cells, s.contexts, x);
    FreedAreApart(s, r, x);
    forall m | 0 <= m < j ensures Freed(s.cells, rel[m]) !! Freed(s.cells, x) {
      FreedAreApart(s, rel[m], x);
    }
  }

  /** ~RpcContext and what it deletes: the whole interaction is gone. */
  ghost function TornDown(s: State, k: nat): State
    requires CanTearDown(s, k)
  {
    Killed(s, DeletedBy(s, k, |s.contexts[k].release|))
      .(contexts := s.contexts[k := s.contexts[k].(alive := false)])
  }

  /** No object of interaction `k` is left, nor any sequence id of one; everything else is as it was. */
  ghost predicate Gone(s: State, k: nat, s': State) {
    && |s'.cells| == |s.cells| && k < |s.contexts| == |s'.contexts|
    && (forall i :: 0 <= i < |s.cells| ==>
          s'.cells[i] == if s.cells[i].ctx == k then s.cells[i].(alive := false) else s.cells[i])
    && (forall r :: r in s'.idFuncMap <==>
          r in s.idFuncMap && s.idFuncMap[r] < |s.cells| && s.cells[s.idFuncMap[r]].ctx != k)
    && (forall r :: r in s'.idFuncMap ==> s'.idFuncMap[r] == s.idFuncMap[r])
    && s' == s.(cells := s'.cells, idFuncMap := s'.idFuncMap,
                contexts := s.contexts[k := s.contexts[k].(alive := false)])
  }

  lemma TornDownIsGone(s: State, k: nat)
    requires CanTearDown(s, k)
    ensures k < |s.contexts| && Gone(s, k, TornDown(s, k))
  {
    EverythingIsFreed(s, k);
    var s' := TornDown(s, k);
    forall r | r in s.idFuncMap ensures s.idFuncMap[r] < |s.cells| && s.cells[s.idFuncMap[r]].alive {
      assert EntryOk(s.cells, s.idFuncMap, r);
    }
  }

  lemma GoneOwned(s: State, k: nat, s': State)
    requires Quiescent(s) && Gone(s, k, s')
    ensures Owned(s'.cells, s'.contexts) && Kept(s'.cells, 0)
  {
    hide Base, LiveBut, Waits, Wired, Accounted, BooksOk, Waiting, DoomOk;
    forall j | 0 <= j < |s'.contexts| ensures ContextOk(s'.cells, s'.contexts, j) {
      assert ContextOk(s.cells, s.contexts, j);
    }
    forall i | 0 <= i < |s'.cells| ensures OwnerOk(s'.cells, s'.contexts, i) && FellowsOk(s'.cells, i) {
      assert OwnerOk(s.cells, s.contexts, i) && FellowsOk(s.cells, i);
    }
  }

  lemma GoneBooks(s: State, k: nat, s': State)
    requires Quiescent(s) && Gone(s, k, s')
    ensures |s'.cells| == |s'.hist| && BooksOk(s')
  {
    assert BooksOk(s) && |s.cells| == |s.hist|;
    EntriesAreLive(s);
    hide Quiescent, BooksOk;
    assert FewerBooks(s, s');
    BooksShrink(s, s');
  }

  lemma EntriesAreLive(s: State)
    requires Quiescent(s)
    ensures forall r :: r in s.idFuncMap ==>
        s.idFuncMap[r] < |s.cells| && s.cells[s.idFuncMap[r]].alive && s.cells[s.idFuncMap[r]].hasSeqId
  {
    assert forall r :: r in s.idFuncMap ==> EntryOk(s.cells, s.idFuncMap, r);
  }

  lemma GoneQuiescent(s: State, k: nat, s': State)
    requires Quiescent(s) && Gone(s, k, s')
    ensures Quiescent(s')
  {
    GoneOwned(s, k, s');
    GoneBooks(s, k, s');
    assert Waiting(s'.cells, s'.answering);
    hide Owned, BooksOk, Waiting, Wired, Accounted, DoomOk;
    SameLogicKeeps(s, s', {});
  }

  /** A context that is to be torn down has a result, which the final action is to delete. */
  lemma DoomedHasResult(s: State, k: nat)
    requires Quiescent(s) && k < |s.contexts| && s.contexts[k].alive && s.contexts[k].doomed
    ensures CanTearDown(s, k)
  {
    var l :| 0 <= l < |s.cells| && Fired(s.cells, l, k);
    assert FellowsOk(s.cells, l) && KindOk(s.cells, l) && Deps(s.cells[l].kind)[0] == s.cells[l].kind.result;
    assert OwnerOk(s.cells, s.contexts, s.cells[l].kind.result);
  }

  /** What lives goes on living with its context. */
  ghost predicate SurviveWithContext(s: State, s': State) {
    |s.cells| <= |s'.cells| && forall i :: 0 <= i < |s.cells| && s.cells[i].alive ==>
      s.cells[i].ctx < |s'.contexts| && s'.contexts[s.cells[i].ctx].alive ==> s'.cells[i].alive
  }

  /** The contexts before `n` that were to be torn down are gone; what is left lives on as it was. */
  ghost predicate Pruned(s: State, s': State, n: nat) {
    && |s'.cells| == |s.cells| && |s'.contexts| == |s.contexts| && n <= |s.contexts|
    && s' == s.(cells := s'.cells, idFuncMap := s'.idFuncMap, contexts := s'.contexts)
    && (forall i :: 0 <= i < |s.cells| ==>
          s'.cells[i].(alive := s.cells[i].alive) == s.cells[i] && (s'.cells[i].alive ==> s.cells[i].alive))
    && SurviveWithContext(s, s')
    && (forall r :: r in s'.idFuncMap ==> r in s.idFuncMap && s'.idFuncMap[r] == s.idFuncMap[r])
    && (forall k :: 0 <= k < |s.contexts| ==>
          s'.contexts[k] == s.contexts[k].(alive := s.contexts[k].alive && !(k < n && s.contexts[k].doomed)))
  }

  lemma TakenBeforePruning(s: State, s3: State, c: nat, r: Status, s4: State)
    requires AttemptTaken(s, s3, c, r) && Pruned(s3, s4, |s4.contexts|)
    ensures AttemptTaken(s, s4, c, r)
  {
  }

  lemma PrunedNext(s: State, s1: State, k: nat, s2: State)
    requires Pruned(s, s1, k) && k < |s.contexts|
    requires if s1.contexts[k].alive && s1.contexts[k].doomed then Gone(s1, k, s2) else s2 == s1
    ensures Pruned(s, s2, k + 1)
  {
  }

  ghost predicate CanDelete(s: State, D: set<nat>, i: nat) {
    && RegistryOk(s.cells, s.idFuncMap) && i < |s.cells| && s.cells[i].alive && D !! Freed(s.cells, i)
    && (s.cells[i].flag.Some? ==>
          s.cells[i].flag.value < |s.cells| && s.cells[s.cells[i].flag.value].alive && s.cells[i].flag.value != i)
  }

  lemma FirstIsAlive(s: State, k: nat)
    requires CanTearDown(s, k)
    ensures k < |s.contexts| && s.contexts[k].result.Some?
    ensures CanDelete(s, {}, s.contexts[k].result.value) && s == Killed(s, {})
    ensures s.contexts[k].result.value < |s.cells|
    ensures DeletedBy(s, k, 0) == {} + Freed(s.cells, s.contexts[k].result.value)
  {
    ReleaseListOf(s, k);
    var s' := Killed(s, {});
    assert s'.cells == s.cells && s'.idFuncMap == s.idFuncMap;
    assert OwnerOk(s.cells, s.contexts, s.contexts[k].result.value);
  }

  /** What user code asked for in the call registered under `id`. */
  function OutOf(s: State, id: nat): Option<Outgoing>
    requires id in s.idFuncMap && s.idFuncMap[id] < |s.cells|
  {
    if s.cells[s.idFuncMap[id]].kind.Rpc? then s.cells[s.idFuncMap[id]].kind.out else None
  }

  lemma RegisteredOut(s: State, id: nat)
    requires Quiescent(s) && id in s.idFuncMap
    ensures s.idFuncMap[id] < |s.cells| && OutOf(s, id).Some?
    ensures s.cells[s.idFuncMap[id]].kind == Rpc(OutOf(s, id))
  {
    RegisteredWaits(s, id);
  }

  /** A response makes of its cell a failure with the reason it carries, or the value that its payload decodes to. */
  lemma AnsweredWith(s: State, s': State, id: nat, result: RpcResult, payload: bytes)
    requires id in s.idFuncMap && s.idFuncMap[id] < |s.cells| && OutOf(s, id).Some?
    requires Dispatched(s, s', s.idFuncMap[id], Answer(OutOf(s, id).value, result, payload))
    ensures s.cells[s.idFuncMap[id]].kind.Rpc? && s.cells[s.idFuncMap[id]].kind.out.Some?
    ensures s.idFuncMap[id] < |s'.cells|
    ensures var status := s'.cells[s.idFuncMap[id]].status;
            && (result != Succeeded ==> status == Error(result))
            && (result == Succeeded ==>
                  var v := s.cells[s.idFuncMap[id]].kind.out.value.decode(payload);
                  status == if v.Some? then Value(v.value) else Error(Failed))
  {
    hide CellsLater, Unanswered, ContextsLater, BooksLater, OnlyTimeoutsCall, SurviveWithContext;
  }

  lemma ResponseDispatched(s: State, id: nat, r: Status, s2: State, s3: State, s4: State)
    requires Quiescent(s) && id in s.idFuncMap && !r.Empty?
    requires var c := s.idFuncMap[id];
             && c < |s.cells|
             && Progressed(Answering(s, c), SetStatus(s.cells, c, r), s2, Reach(Answering(s, c), c).0,
                           Reach(Answering(s, c), c).1)
             && c < |s2.cells| && s3 == Unregistered(s2, c, None) && s2.cells[c].seqId == id
    requires Pruned(s3, s4, |s4.contexts|)
    ensures Dispatched(s, s4, s.idFuncMap[id], r) && id !in s4.idFuncMap
  {
    var c := s.idFuncMap[id];
    var (lo, f) := Reach(Answering(s, c), c);
    RegisteredWaits(s, id);
    hide Quiescent, Reach, Grows, Later, CellsLater, ContextsLater, BooksLater, Unanswered, Pruned,
         OnlyTimeoutsCall, SameTimeouts, SameKinds;
    KindsKept(Answering(s, c), SetStatus(s.cells, c, r), s2, lo, f);
    DispatchedRests(s, Answering(s, c), SetStatus(s.cells, c, r), s2, s3, s4, c);
    DispatchedCells(s, SetStatus(s.cells, c, r), s2, s3, s4, c, lo, f);
    DispatchedBooks(s, Answering(s, c), SetStatus(s.cells, c, r), s2, s3, s4, lo, f);
  }

  lemma DispatchedCells(s: State, base: seq<Cell>, s2: State, s3: State, s4: State, c: nat, lo: nat, f: Option<nat>)
    requires c < |s.cells| == |base| && s.cells[c].status.Empty? && s.cells[c].kind.Rpc?
    requires base == s.cells[c := s.cells[c].(status := base[c].status, hasSeqId := base[c].hasSeqId)]
    requires Grows(base, s2.cells, lo, f) && Pruned(s3, s4, |s4.contexts|) && Unanswered(s2.cells, |base|)
    requires s3.cells == s2.cells || s3.cells == s2.cells[c := s2.cells[c].(hasSeqId := false)]
    ensures CellsLater(s, s4, c) && Unanswered(s4.cells, |s.cells|) && |s.cells| <= |s4.cells|
    ensures SurviveWithContext(s, s4)
    ensures s4.cells[c].status == base[c].status && s4.cells[c].hasSeqId == s3.cells[c].hasSeqId
    ensures s2.cells[c].hasSeqId == base[c].hasSeqId
  {
  }

  lemma DispatchedRests(s: State, s1: State, base: seq<Cell>, s2: State, s3: State, s4: State, c: nat)
    requires OnlyTimeoutsCall(s1, base, s2) && SameKinds(base, s2.cells) && s1.hist == s.hist && s1.calls == s.calls
    requires c < |s.cells| == |base| && s.cells[c].kind.Rpc? && base[c].kind == s.cells[c].kind
    requires base == s.cells[c := base[c]]
    requires s3.cells == s2.cells
             || (c < |s2.cells| && s3.cells == s2.cells[c := s2.cells[c].(hasSeqId := false)])
    requires s3.hist == s2.hist && s3.calls == s2.calls && Pruned(s3, s4, |s4.contexts|)
    ensures OnlyTimeoutsCall(s, s.cells, s4)
  {
    RestsAlike(s, s1, base, s2, s4);
  }

  lemma DispatchedBooks(s: State, s1: State, base: seq<Cell>, s2: State, s3: State, s4: State, lo: nat, f: Option<nat>)
    requires Progressed(s1, base, s2, lo, f) && s1.hist == s.hist && s1.contexts == s.contexts && s1.calls == s.calls
    requires s1.timers == s.timers && s1.canceled == s.canceled && s1.sent == s.sent && s1.sentCalls == s.sentCalls
    requires s1.channel == s.channel && s1.retrying.None?
    requires s3 == s2.(cells := s3.cells, idFuncMap := s3.idFuncMap, answering := s3.answering)
    requires Pruned(s3, s4, |s4.contexts|)
    ensures ContextsLater(s, s4) && BooksLater(s, s4)
    ensures forall r :: r in s4.idFuncMap ==> r in s3.idFuncMap
  {
  }

  lemma TimedOutBase(cells: seq<Cell>, cells1: seq<Cell>, base: seq<Cell>, c: nat)
    requires c < |cells| == |cells1| && cells1 == cells[c := cells[c].(hasSeqId := false)]
    requires base == SetStatus(cells1, c, Error(TimedOut))
    ensures |base| == |cells| && base == cells[c := base[c]]
    ensures base[c] == cells[c].(status := Error(TimedOut), hasSeqId := false)
  {
  }

  lemma TimeoutDispatched(s: State, id: nat, s2: State, s3: State, s4: State)
    requires Quiescent(s) && id in s.idFuncMap
    requires var c := s.idFuncMap[id];
             && c < |s.cells|
             && var s1 := Unregistered(s, c, Some(c));
             && Progressed(s1, SetStatus(s1.cells, c, Error(TimedOut)), s2, Reach(s1, c).0, Reach(s1, c).1)
             && s3 == s2.(answering := None)
    requires Pruned(s3, s4, |s4.contexts|)
    ensures Dispatched(s, s4, s.idFuncMap[id], Error(TimedOut))
  {
    var c := s.idFuncMap[id];
    var s1 := Unregistered(s, c, Some(c));
    var base := SetStatus(s1.cells, c, Error(TimedOut));
    var (lo, f) := Reach(s1, c);
    hide Quiescent, Unregistered, Reach, Grows, Later, CellsLater, ContextsLater, BooksLater, Unanswered, Pruned,
         OnlyTimeoutsCall, SameTimeouts, SameKinds, HistGrows, StallsStay, RestGrows, NewOk, SurviveWithContext, IdOf;
    RegisteredWaits(s, id);
    UnregisteredParts(s, c, Some(c));
    TimedOutBase(s.cells, s1.cells, base, c);
    hide SetStatus;
    KindsKept(s1, base, s2, lo, f);
    DispatchedRests(s, s1, base, s2, s3, s4, c);
    DispatchedCells(s, base, s2, s3, s4, c, lo, f);
    DispatchedBooks(s, s1, base, s2, s3, s4, lo, f);
  }
}
