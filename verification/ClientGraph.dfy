/** How the graph of cells grows: constructors that register with their inputs, flags, results, final actions. */
module ClientGraph {
  import opened RpcTypes
  import opened SequenceIds
  import opened Cells
  import opened Propagation
  import opened ClientState
  import opened ClientSteps

  /** What user code may pass as an input: a live cell of the same interaction, and not the cell of an attempt. */
  ghost predicate IsInput(s: State, d: nat, ctx: nat) {
    && d < |s.cells| == |s.hist| && s.cells[d].alive && s.cells[d].ctx == ctx
    && (s.cells[d].kind.Rpc? || IsGuarded(s.cells[d].kind))
    && (s.cells[d].kind.Rpc? ==> s.hist[d].bound.None?)
  }

  ghost predicate AreInputs(s: State, inputs: seq<nat>, ctx: nat) {
    && ctx < |s.contexts| && s.contexts[ctx].alive
    && forall k :: 0 <= k < |inputs| ==> IsInput(s, inputs[k], ctx)
  }

  // ---------------------------------------------------------------- registering with one input

  /** register_listener of cell `c` with `l`: it is notified at once when `c` has settled already. */
  function Listening(s: State, c: nat, l: nat): State
    requires c < |s.cells|
  {
    var s' := s.(registered := s.registered + multiset{(c, l)}, wired := s.wired + 1);
    if s.cells[c].status.Empty?
    then s'.(cells := s.cells[c := s.cells[c].(listeners := s.cells[c].listeners + [l])])
    else s'.(owed := s.owed + multiset{(c, l)})
  }

  lemma ListenerRecorded(s: State, c: nat, l: nat, s': State)
    requires c < |s.cells| && l < |s.cells|
    requires s' == s.(registered := s.registered + multiset{(c, l)}, wired := s.wired + 1,
                      owed := if s.cells[c].status.Empty? then s.owed else s.owed + multiset{(c, l)})
    ensures s' == Listening(s, c, l).(cells := s.cells)
    ensures !s.cells[c].status.Empty? ==> (c, l) in s'.owed
    ensures s'.owed - multiset{(c, l)} == Notified(Listening(s, c, l), c, l).owed
    ensures FlagReached(s', l) == FlagReached(s, l)
  {
  }

  /** Node `l` may register with its next input `c`. */
  ghost predicate CanListen(s: State, c: nat, l: nat) {
    && InvBut(s, {l}) && c < l < |s.cells| && s.wiring == l && s.cells[l].alive && !s.cells[l].kind.Bind?
    && s.wired < |Deps(s.cells[l].kind)| && Deps(s.cells[l].kind)[s.wired] == c
    && (s.cells[c].kind.Rpc? ==> s.hist[c].bound.None?)
  }

  lemma ListeningBase(s: State, c: nat, l: nat)
    requires CanListen(s, c, l)
    ensures var s' := Listening(s, c, l);
            && Base(s'.cells, s'.hist) && LiveBut(s'.cells, s'.hist, {l})
            && (Live(s.cells, s.hist, l) ==> LiveBut(s'.cells, s'.hist, {}))
            && forall i :: 0 <= i < |s'.cells| ==> Waits(s'.cells, s'.hist, i)
  {
    hide Owned, BooksOk, Waiting, DoomOk, Wired, Accounted;
    var s' := Listening(s, c, l);
    forall i | 0 <= i < |s.cells|
      ensures KindOk(s'.cells, i) && ListenersOk(s'.cells, i) && NodeBase(s'.cells, s'.hist, i)
      ensures Live(s.cells, s.hist, i) ==> Live(s'.cells, s'.hist, i)
      ensures Waits(s.cells, s.hist, i) ==> Waits(s'.cells, s'.hist, i)
    {
      UnaffectedNode(s.cells, s.hist, s'.cells, s'.hist, i);
    }
  }

  lemma ListeningWired(s: State, c: nat, l: nat)
    requires CanListen(s, c, l)
    ensures var s' := Listening(s, c, l);
            Accounted(s'.cells, s'.registered, s'.notified, s'.owed) && Wired(s'.cells, s'.wiring, s'.wired)
  {
    hide Owned, BooksOk, Waiting, NodeBase, Live, Waits, DoomOk, Wired;
    var s' := Listening(s, c, l);
    forall i, k | 0 <= i < |s'.cells| && 0 <= k < |Deps(s'.cells[i].kind)| && (i == s'.wiring ==> k < s'.wired)
      ensures WiredDep(s'.cells, i, k)
    {
      assert s'.cells[i].kind == s.cells[i].kind;
      if i != l || k < s.wired {
        WiredTo(s.cells, i, k, s.wiring, s.wired);
      }
    }
    WiredAt(s'.cells, s'.wiring, s'.wired);
  }

  lemma ListeningOwned(s: State, c: nat, l: nat)
    requires CanListen(s, c, l)
    ensures var s' := Listening(s, c, l); Owned(s'.cells, s'.contexts) && DoomOk(s'.cells, s'.contexts)
  {
    hide NodeBase, LiveBut, Waits, Wired, Accounted, BooksOk, Waiting;
    var s' := Listening(s, c, l);
    forall k | 0 <= k < |s.contexts| ensures ContextOk(s'.cells, s'.contexts, k) {
      assert ContextOk(s.cells, s.contexts, k);
    }
    forall i | 0 <= i < |s.cells| ensures OwnerOk(s'.cells, s'.contexts, i) && FellowsOk(s'.cells, i) {
      assert OwnerOk(s.cells, s.contexts, i) && FellowsOk(s.cells, i);
    }
    DoomKept(s.cells, s.contexts, s'.cells, s'.contexts);
  }

  lemma ListeningBooks(s: State, c: nat, l: nat)
    requires CanListen(s, c, l)
    ensures var s' := Listening(s, c, l);
            && Waiting(s'.cells, s'.answering) && |s'.cells| == |s'.hist| && BooksOk(s')
            && StallsOk(s'.cells, s'.hist, s'.retrying)
  {
    hide NodeBase, LiveBut, Waits, Wired, Accounted, Owned, DoomOk;
    BooksKept(s, Listening(s, c, l));
    StallsKept(s.cells, s.hist, s.retrying, Listening(s, c, l).cells, s.hist, s.retrying);
  }

  lemma ListeningKeepsInv(s: State, c: nat, l: nat)
    requires CanListen(s, c, l)
    ensures InvBut(Listening(s, c, l), {l})
    ensures Live(s.cells, s.hist, l) ==> InvBut(Listening(s, c, l), {})
    ensures Unstarted(Listening(s, c, l).cells) == Unstarted(s.cells)
  {
    hide Accounted, Waiting, Wired, BooksOk, Owned, DoomOk, StallsOk;
    ListeningBase(s, c, l);
    ListeningWired(s, c, l);
    ListeningOwned(s, c, l);
    ListeningBooks(s, c, l);
  }

  // ---------------------------------------------------------------- registering with all inputs

  ghost predicate OnlyListenersMore(cells0: seq<Cell>, cells: seq<Cell>, l: nat) {
    && l <= |cells0| && l < |cells|
    && forall i :: 0 <= i < l ==> cells0[i].listeners <= cells[i].listeners
                                  && cells[i] == cells0[i].(listeners := cells[i].listeners)
  }

  /** Without timeout cells, building a node adds that node and makes no call. */
  ghost predicate AddsOnly(s0: State, s: State, l: nat) {
    (forall i :: 0 <= i < |s.cells| && i <= l ==> !s.cells[i].kind.Timeout?) ==>
      |s.cells| == l + 1 && s.calls == s0.calls
  }

  /** What building node `l` changes of what was there before: only who listens to whom. */
  ghost predicate Built(s0: State, s: State, l: nat) {
    && OnlyListenersMore(s0.cells, s.cells, l) && Unanswered(s.cells, l)
    && HistGrows(s0.hist, s.hist) && StallsStay(s0.hist, s0.retrying, s.hist)
    && BooksGrow(s0, s) && AddsOnly(s0, s, l)
  }

  /** Node `l`, new in `s0`, has registered with its first `k` inputs. */
  ghost predicate Wiring(s0: State, s: State, l: nat, k: nat) {
    && InvBut(s, {l}) && HasRoom(s, 0) && Built(s0, s, l) && |s0.cells| == |s0.hist| == l + 1
    && s.owed == multiset{} && s.answering.None? && s.wiring == l && s.wired == k && 0 < l
    && s.retrying == None && s0.retrying == None
    && s.cells[l].kind == s0.cells[l].kind && s.cells[l].ctx == s0.cells[l].ctx && s.cells[l].alive
    && s.cells[l].owner.Loose? && !s.cells[l].armed && !s.cells[l].hasSeqId && s.cells[l].flag.None?
    && !s.cells[l].kind.Bind? && !s.cells[l].kind.Rpc? && !s.cells[l].kind.Flag?
    && k <= |Deps(s.cells[l].kind)|
    && (forall j :: 0 <= j < |Deps(s.cells[l].kind)| ==>
          Deps(s.cells[l].kind)[j] < l && IsInput(s0, Deps(s.cells[l].kind)[j], s.cells[l].ctx))
    && Kept(s.cells[..l], 0) && NewOk(s.cells, l + 1)
    && (forall j :: 0 <= j < k && !s.cells[Deps(s.cells[l].kind)[j]].status.Empty? ==> Live(s.cells, s.hist, l))
  }

  lemma NextInput(s0: State, s: State, l: nat, k: nat)
    requires Wiring(s0, s, l, k) && k < |Deps(s.cells[l].kind)|
    ensures l < |s.cells| && CanListen(s, Deps(s.cells[l].kind)[k], l)
    ensures !s.cells[Deps(s.cells[l].kind)[k]].status.Empty? ==> MayNotify(s, Deps(s.cells[l].kind)[k], l)
  {
    var c := Deps(s.cells[l].kind)[k];
    assert IsInput(s0, c, s.cells[l].ctx);
    if !s.cells[c].status.Empty? {
      ListenerMayBeNotified(s, c, l);
    }
  }

  lemma ListenerMayBeNotified(s: State, c: nat, l: nat)
    requires CanListen(s, c, l) && !s.cells[c].status.Empty? && HasRoom(s, 0) && !s.cells[l].armed && s.retrying == None
    ensures MayNotify(s, c, l)
  {
    var s' := Listening(s, c, l);
    var k := s.wired;
    ListeningKeepsInv(s, c, l);
    NotifyKeepsInv(s', c, l, {});
    assert KindOk(s'.cells, l);
    assert Args(s'.cells, Deps(s'.cells[l].kind))[k] == s.cells[c].status;
    assert {} + {l} == {l};
  }

  lemma ListensToEmpty(s0: State, s: State, l: nat, k: nat)
    requires Wiring(s0, s, l, k) && k < |Deps(s.cells[l].kind)|
    requires s.cells[Deps(s.cells[l].kind)[k]].status.Empty?
    ensures Wiring(s0, Listening(s, Deps(s.cells[l].kind)[k], l), l, k + 1)
  {
    hide InvBut, HasRoom, MayNotify, CanListen;
    var c := Deps(s.cells[l].kind)[k];
    var s' := Listening(s, c, l);
    NextInput(s0, s, l, k);
    ListeningKeepsInv(s, c, l);
    ListenerLive(s, c, l);
    ListeningRoom(s, c, l);
    ListeningBuilt(s0, s, c, l);
    hide Live, Built;
  }

  lemma ListeningBuilt(s0: State, s: State, c: nat, l: nat)
    requires Built(s0, s, l) && c < l
    ensures Built(s0, Listening(s, c, l), l)
  {
    hide HistGrows, StallsStay, ContextsGrow;
    var s' := Listening(s, c, l);
    assert forall i :: 0 <= i < |s.cells| ==> s'.cells[i].kind == s.cells[i].kind;
  }

  lemma ListeningRoom(s: State, c: nat, l: nat)
    requires CanListen(s, c, l) && HasRoom(s, 0)
    ensures HasRoom(Listening(s, c, l), 0)
  {
    ListeningKeepsInv(s, c, l);
    hide InvBut;
  }

  lemma ListenerLive(s: State, c: nat, l: nat)
    requires CanListen(s, c, l)
    ensures var s' := Listening(s, c, l);
            Base(s.cells, s.hist) && Base(s'.cells, s'.hist)
            && (Live(s.cells, s.hist, l) ==> Live(s'.cells, s'.hist, l))
  {
    ListeningKeepsInv(s, c, l);
  }

  /** An input that has settled already may notify the new node at once. */
  ghost predicate MayNotify(s: State, c: nat, l: nat)
    requires c < |s.cells|
  {
    && l < |s.cells| && CanUpdate(Notified(Listening(s, c, l), c, l), l, {})
    && Affects(s.cells, l) == l && FlagReached(s, l) == None
  }

  ghost predicate NotifiedFrom(s: State, c: nat, l: nat, s': State)
    requires c < |s.cells|
  {
    var n := Notified(Listening(s, c, l), c, l);
    InvBut(s', {}) && HasRoom(s', 0) && Progressed(n, s.cells, s', l, None) && s'.owed == n.owed && UpdatedAs(n, s', l)
  }

  /** Progress from node `l` on leaves the earlier nodes alone. */
  lemma ProgressFrom(n: State, base: seq<Cell>, s': State, l: nat)
    requires Progressed(n, base, s', l, None) && l < |base|
    ensures |s'.cells| >= |base| && s'.cells[..l] == base[..l] && SameButProgress(base[l], s'.cells[l])
    ensures forall i :: 0 <= i < l ==> s'.cells[i] == base[i]
    ensures NewOk(base, l + 1) ==> NewOk(s'.cells, l + 1)
    ensures Unanswered(base, l) ==> Unanswered(s'.cells, l)
    ensures RestGrows(n, s') && HistGrows(n.hist, s'.hist) && StallsStay(n.hist, n.retrying, s'.hist)
    ensures OnlyTimeoutsCall(n, base, s')
  {
    assert forall i :: l + 1 <= i < |base| ==> SameButProgress(base[i], s'.cells[i]);
  }

  lemma BuiltProgress(s0: State, s: State, n: State, base: seq<Cell>, s': State, l: nat)
    requires Built(s0, s, l) && base == s.cells && n.hist == s.hist && n.contexts == s.contexts
    requires n.calls == s.calls && n.timers == s.timers && n.canceled == s.canceled && n.sent == s.sent
    requires n.sentCalls == s.sentCalls && n.channel == s.channel && n.retrying.None? && s0.retrying.None?
    requires Progressed(n, base, s', l, None)
    ensures Built(s0, s', l)
  {
    ProgressFrom(n, base, s', l);
    hide Progressed, SameButProgress, NewOk, Unanswered, Rests, HistGrows, StallsStay;
    AddsOnlyProgress(s0, s, n, base, s', l);
    HistGrowsOn(s0.hist, s.hist, s'.hist, None);
    assert BooksGrow(s, s');
    BooksGrowOn(s0, s, s');
    hide BooksGrow, AddsOnly;
  }

  lemma AddsOnlyProgress(s0: State, s: State, n: State, base: seq<Cell>, s': State, l: nat)
    requires AddsOnly(s0, s, l) && base == s.cells && l < |base| <= |s'.cells| && n.calls == s.calls
    requires forall i :: 0 <= i <= l ==> s'.cells[i].kind == base[i].kind
    requires OnlyTimeoutsCall(n, base, s')
    ensures AddsOnly(s0, s', l)
  {
    if forall i :: 0 <= i < |s'.cells| && i <= l ==> !s'.cells[i].kind.Timeout? {
      assert forall i :: 0 <= i < |s.cells| && i <= l ==> s'.cells[i].kind == s.cells[i].kind;
      assert forall i :: 0 <= i < |base| ==> Rests(base, n.hist, s'.cells, s'.hist, i);
    }
  }

  lemma WasNotified(s0: State, s: State, l: nat, k: nat, s': State)
    requires Wiring(s0, s, l, k) && k < |Deps(s.cells[l].kind)|
    requires !s.cells[Deps(s.cells[l].kind)[k]].status.Empty?
    requires NotifiedFrom(s, Deps(s.cells[l].kind)[k], l, s')
    ensures Wiring(s0, s', l, k + 1)
  {
    hide UpdatedAs, IsInput, Kept, Unanswered, InvBut, HasRoom, Live, KindOk, HistGrows, StallsStay,
         AddsOnly, OnlyTimeoutsCall, BooksGrow, Affects, FlagReached;
    var c := Deps(s.cells[l].kind)[k];
    var n := Notified(Listening(s, c, l), c, l);
    ProgressFrom(n, s.cells, s', l);
    BuiltProgress(s0, s, n, s.cells, s', l);
    LiveNode(s', l);
    hide Progressed, Shape;
  }

  lemma LiveNode(s: State, l: nat)
    requires InvBut(s, {}) && l < |s.cells|
    ensures InvBut(s, {l}) && |s.cells| == |s.hist| && Shape(s.cells) && KindOk(s.cells, l) && Live(s.cells, s.hist, l)
  {
    assert |s.cells| == |s.hist| && Shape(s.cells);
  }

  lemma InputRegistered(s0: State, s: State, l: nat, k: nat, s': State)
    requires Wiring(s0, s, l, k) && k < |Deps(s.cells[l].kind)|
    requires var c := Deps(s.cells[l].kind)[k];
             if s.cells[c].status.Empty? then s' == Listening(s, c, l) else NotifiedFrom(s, c, l, s')
    ensures Wiring(s0, s', l, k + 1)
  {
    if s.cells[Deps(s.cells[l].kind)[k]].status.Empty? {
      ListensToEmpty(s0, s, l, k);
    } else {
      WasNotified(s0, s, l, k, s');
    }
  }

  lemma WiringArgs(s0: State, s: State, l: nat, k: nat)
    requires Wiring(s0, s, l, k)
    ensures l < |s.cells| && s.wired == k && l < |s0.cells| && s.cells[l].kind == s0.cells[l].kind
    ensures forall j :: 0 <= j < |Deps(s.cells[l].kind)| ==> Deps(s.cells[l].kind)[j] < |s.cells|
  {
  }

  function Wiredup(s: State): State { s.(wiring := 0, wired := 0) }

  /** The node has registered with all its inputs: nothing is exempt any more. */
  lemma WiringEnds(s0: State, s: State, l: nat)
    requires l < |s.cells| && Wiring(s0, s, l, |Deps(s.cells[l].kind)|) && Deps(s.cells[l].kind) != []
    ensures InvBut(Wiredup(s), {})
  {
    var deps := Deps(s.cells[l].kind);
    assert KindOk(s.cells, l) && NodeBase(s.cells, s.hist, l);
    assert Live(s.cells, s.hist, l) by {
      if j :| 0 <= j < |deps| && !s.cells[deps[j]].status.Empty? {
      } else {
        NoneTouched(s, l);
      }
    }
    WiredAll(s, l);
    assert forall i :: 0 <= i < |s.cells| ==> Live(s.cells, s.hist, i);
  }

  lemma NoneTouched(s: State, l: nat)
    requires l < |s.cells| == |s.hist| && KindOk(s.cells, l) && Deps(s.cells[l].kind) != [] && !s.cells[l].kind.Flag?
    requires forall j :: 0 <= j < |Deps(s.cells[l].kind)| ==> s.cells[Deps(s.cells[l].kind)[j]].status.Empty?
    ensures Live(s.cells, s.hist, l)
  {
    assert s.cells[l].kind.Final? ==> Deps(s.cells[l].kind)[0] == s.cells[l].kind.result;
  }

  lemma WiredAll(s: State, l: nat)
    requires Shape(s.cells) && Wired(s.cells, s.wiring, s.wired) && s.wiring == l < |s.cells|
    requires s.wired == |Deps(s.cells[l].kind)|
    ensures Wired(s.cells, 0, 0)
  {
    forall i, k | 0 <= i < |s.cells| && 0 <= k < |Deps(s.cells[i].kind)| && (i == 0 ==> k < 0)
      ensures WiredDep(s.cells, i, k)
    {
      WiredTo(s.cells, i, k, s.wiring, s.wired);
    }
  }

  // ---------------------------------------------------------------- construction as a whole

  function NoHistory(early: bool): History { NO_HISTORY.(early := early) }

  ghost predicate IsNode(s: State, kind: Kind, ctx: nat) {
    && (kind.Derived? || kind.Timeout? || kind.Action? || kind.Final?)
    && AreInputs(s, Deps(kind), ctx)
    && (kind.Final? ==> kind.result < |s.cells| && s.cells[kind.result].owner == Result)
  }

  function WasEmpty(s: State, kind: Kind): bool {
    kind.Final? && kind.result < |s.cells| && s.cells[kind.result].status.Empty?
  }

  /** The node just allocated, before its constructor registers it. */
  function Allocated(s: State, kind: Kind, ctx: nat): State {
    Appended(s, NewCell(kind, ctx), NoHistory(WasEmpty(s, kind)))
  }

  lemma AllocatedFresh(s: State, kind: Kind, ctx: nat)
    requires Quiescent(s) && IsNode(s, kind, ctx)
    ensures Fresh(s, NewCell(kind, ctx), NoHistory(WasEmpty(s, kind)))
  {
    assert kind.Final? ==> Deps(kind)[0] == kind.result;
    if Deps(kind) != [] {
      assert IsInput(s, Deps(kind)[0], ctx);
    }
  }

  lemma AllocatedKeeps(s: State, kind: Kind, ctx: nat)
    requires Quiescent(s) && IsNode(s, kind, ctx) && HasRoom(s, if kind.Timeout? then 1 else 0)
    ensures var s1 := Allocated(s, kind, ctx); InvBut(s1, {|s.cells|}) && HasRoom(s1, 0)
  {
    AllocatedRoom(s, kind, ctx);
    hide HasRoom;
    AllocatedFresh(s, kind, ctx);
    assert {} + {|s.cells|} == {|s.cells|};
    AppendKeepsInv(s, NewCell(kind, ctx), NoHistory(WasEmpty(s, kind)), {});
  }

  lemma AllocatedRoom(s: State, kind: Kind, ctx: nat)
    requires Quiescent(s) && HasRoom(s, if kind.Timeout? then 1 else 0)
    ensures HasRoom(Allocated(s, kind, ctx), 0)
  {
    hide InvBut, Unstarted, HasRoom;
    AppendCounts(s.cells, NewCell(kind, ctx));
    RoomAfter(s, Allocated(s, kind, ctx), if kind.Timeout? then 1 else 0, 0);
  }

  lemma AllocatedBuilt(s: State, kind: Kind, ctx: nat)
    requires |s.cells| == |s.hist| && !kind.Rpc?
    ensures var s1 := Allocated(s, kind, ctx);
            && Built(s, s1, |s.cells|) && |s1.cells| == |s.cells| + 1 && s1.cells[..|s.cells|] == s.cells
            && s1.cells[|s.cells|] == NewCell(kind, ctx)
            && s1.owed == s.owed && s1.answering == s.answering && s1.retrying == s.retrying
            && (Deps(kind) == [] ==> s1.wiring == s.wiring && s1.wired == s.wired)
  {
  }

  lemma WiringStarts(s: State, kind: Kind, ctx: nat)
    requires Quiescent(s) && IsNode(s, kind, ctx) && HasRoom(s, if kind.Timeout? then 1 else 0) && Deps(kind) != []
    ensures var s1 := Allocated(s, kind, ctx); Wiring(s1, s1, |s.cells|, 0)
  {
    hide InvBut, HasRoom;
    AllocatedKeeps(s, kind, ctx);
    var s1 := Allocated(s, kind, ctx);
    assert s1.cells[..|s.cells|] == s.cells;
    assert IsInput(s, Deps(kind)[0], ctx);
    assert forall j :: 0 <= j < |Deps(kind)| ==> IsInput(s, Deps(kind)[j], ctx);
  }

  /** Everything but node `l` is as between dispatches, and `l` only lacks its owner. */
  ghost predicate Constructed(s: State, l: nat) {
    && InvBut(s, {}) && s.owed == multiset{} && s.answering.None? && s.wiring == 0 && s.wired == 0
    && s.retrying == None && l < |s.cells| && s.cells[l].alive && s.cells[l].owner.Loose?
    && !s.cells[l].kind.Rpc? && !s.cells[l].hasSeqId
    && Kept(s.cells[..l], 0) && Kept(s.cells, l + 1)
  }

  lemma ConstructedByWiring(s0: State, s: State, l: nat)
    requires l < |s.cells| && Wiring(s0, s, l, |Deps(s.cells[l].kind)|) && Deps(s.cells[l].kind) != []
    ensures Constructed(Wiredup(s), l)
  {
    WiringEnds(s0, s, l);
  }

  /** A node without inputs has nothing to register with. */
  lemma ConstructedAlone(s: State, kind: Kind, ctx: nat)
    requires Quiescent(s) && IsNode(s, kind, ctx) && HasRoom(s, if kind.Timeout? then 1 else 0)
    requires Deps(kind) == [] && !kind.Timeout?
    ensures Constructed(Allocated(s, kind, ctx), |s.cells|)
  {
    AllocatedKeeps(s, kind, ctx);
    var s1 := Allocated(s, kind, ctx);
    assert s1.cells[..|s.cells|] == s.cells;
    assert KindOk(s1.cells, |s.cells|);
    assert Live(s1.cells, s1.hist, |s.cells|);
    assert InvBut(s1, {}) by { UpToDate(s1, |s.cells|, {}); }
  }

  /** A timeout cell without inputs starts its first attempt at once. */
  lemma StartsAtOnce(s: State, kind: Kind, ctx: nat)
    requires Quiescent(s) && IsNode(s, kind, ctx) && HasRoom(s, 1) && kind.Timeout? && kind.inputs == []
    ensures var s1 := Allocated(s, kind, ctx);
            |s.cells| < |s1.cells| && CanStart(s1, |s.cells|, {}) && RoomToStart(s1, |s.cells|, 1)
  {
    AllocatedKeeps(s, kind, ctx);
    assert {} + {|s.cells|} == {|s.cells|};
  }

  lemma StartedAtOnce(s: State, kind: Kind, ctx: nat, s': State)
    requires Quiescent(s) && |s.cells| == |s.hist| && IsNode(s, kind, ctx) && kind.Timeout? && kind.inputs == []
    requires var s1 := Allocated(s, kind, ctx);
             InvBut(s', {}) && Progressed(s1, s1.cells, s', |s.cells|, None) && s'.owed == s1.owed
    ensures Constructed(s', |s.cells|) && Built(s, s', |s.cells|)
    ensures var c := s'.cells[|s.cells|];
            c.kind == kind && c.ctx == ctx && (c.started || kind.start([]).Deferred?)
  {
    var l := |s.cells|;
    var s1 := Allocated(s, kind, ctx);
    StartedNode(s', l);
    hide InvBut, Allocated, Built;
    AllocatedBuilt(s, kind, ctx);
    ProgressFrom(s1, s1.cells, s', l);
    BuiltProgress(s, s1, s1, s1.cells, s', l);
  }

  lemma StartedNode(s: State, l: nat)
    requires InvBut(s, {}) && l < |s.cells|
    ensures s.cells[l].kind.Timeout? && s.cells[l].kind.inputs == [] ==>
              s.cells[l].started || s.cells[l].kind.start([]).Deferred?
  {
    assert KindOk(s.cells, l) && Live(s.cells, s.hist, l);
    assert Args(s.cells, []) == [];
  }

  lemma TrackedQuiescent(s: State, l: nat)
    requires Constructed(s, l)
    ensures s.cells[l].ctx < |s.contexts| && Quiescent(Tracked(s, l))
  {
    assert OwnerOk(s.cells, s.contexts, l);
    TrackKeepsInv(s, l, {});
    var s' := Tracked(s, l);
    forall i | 0 <= i < |s'.cells| && s'.cells[i].alive ensures !s'.cells[i].owner.Loose? {
      if i < l {
        assert s.cells[..l][i] == s.cells[i];
      }
    }
  }

  lemma TrackedBuilt(s0: State, s: State, l: nat)
    requires l < |s.cells| && s.cells[l].ctx < |s.contexts| && Built(s0, s, l)
    ensures Built(s0, Tracked(s, l), l)
  {
    hide HistGrows, StallsStay;
    assert AddsOnly(s0, Tracked(s, l), l) by {
      assert forall i :: 0 <= i < |s.cells| ==> Tracked(s, l).cells[i].kind == s.cells[i].kind;
    }
    hide AddsOnly;
    assert forall k :: 0 <= k < |s0.contexts| ==> s0.contexts[k].release <= s.contexts[k].release;
  }

  // ---------------------------------------------------------------- the first attempt of a new timeout cell

  /** A new timeout cell of this kind starts in its constructor, with the call `out`. */
  ghost predicate StartsWith(cells: seq<Cell>, kind: Kind, out: Outgoing) {
    && kind.Timeout? && InRange(cells, kind.inputs) && (kind.inputs == [] || Touched(cells, kind.inputs))
    && kind.start(Args(cells, kind.inputs)) == Call(out)
  }

  /** Timeout cell `l` waits for its first attempt, which it made when it was constructed. */
  ghost predicate FirstAttempt(s0: State, s: State, l: nat, out: Outgoing) {
    && |s.cells| == |s.hist| == l + 3
    && s.cells[l].kind.Timeout? && s.cells[l].started && s.cells[l].status.Empty?
    && s.cells[l].retries == s.cells[l].kind.budget && s.hist[l].attempts == [l + 1]
    && s.cells[l + 1].kind == Rpc(Some(out)) && s.cells[l + 1].status.Empty? && s.cells[l + 1].alive
    && s.cells[l + 1].seqId == IdOf(|s0.calls| + 1)
    && s.hist[l + 1].bound == Some(l) && s.hist[l + 1].call == |s0.calls| + 1
    && s.cells[l + 2].kind.Bind? && s.calls == s0.calls + [l + 1]
  }

  ghost predicate FirstAttemptMade(s0: State, s: State, l: nat, kind: Kind) {
    forall out :: StartsWith(s0.cells, kind, out) && out.payload.Some? && s0.channel(l + 1).Accepted? ==>
      FirstAttempt(s0, s, l, out)
  }

  /** One of the first `k` inputs has settled. */
  ghost predicate SettledAmong(cells: seq<Cell>, deps: seq<nat>, k: nat) {
    exists j :: 0 <= j < k && j < |deps| && deps[j] < |cells| && !cells[deps[j]].status.Empty?
  }

  /** The node is a timeout cell that has not started. */
  ghost predicate NotBegun(s: State, l: nat) {
    && |s.cells| == |s.hist| == l + 1 && s.cells[l].kind.Timeout? && !s.cells[l].started && s.cells[l].status.Empty?
    && s.cells[l].retries == s.cells[l].kind.budget && s.hist[l].attempts == []
  }

  /** A new derived cell is what its logic makes of its inputs, as soon as one of the first `k` has settled. */
  ghost predicate ComputedFrom(cells0: seq<Cell>, cells: seq<Cell>, l: nat, kind: Kind, k: nat) {
    kind.Derived? && InRange(cells0, kind.inputs) ==>
      && l < |cells|
      && cells[l].status ==
           if SettledAmong(cells0, kind.inputs, k) then kind.logic(Args(cells0, kind.inputs)) else Empty
  }

  /** A new derived cell is the evaluation of its inputs. */
  ghost predicate EvaluatedAtOnce(cells0: seq<Cell>, cells: seq<Cell>, l: nat, kind: Kind) {
    kind.Derived? && InRange(cells0, kind.inputs) ==>
      l < |cells| && cells[l].status == Evaluated(kind.logic, Args(cells0, kind.inputs))
  }

  /** What the constructor of a derived or timeout cell makes of inputs that have settled already. */
  ghost predicate Begins(s0: State, s: State, l: nat, kind: Kind) {
    FirstAttemptMade(s0, s, l, kind) && EvaluatedAtOnce(s0.cells, s.cells, l, kind)
  }

  /**
   * A node that has registered with its first `k` inputs has begun if one of them has settled: a timeout cell has
   * started, a derived cell has been computed.
   */
  ghost predicate Begun(s0: State, s: State, l: nat, k: nat)
    requires l < |s0.cells|
  {
    var kind := s0.cells[l].kind;
    && ComputedFrom(s0.cells, s.cells, l, kind, k)
    && (kind.Timeout? ==>
          if SettledAmong(s0.cells, Deps(kind), k) then FirstAttemptMade(s0, s, l, kind)
          else NotBegun(s, l) && s.calls == s0.calls)
  }

  lemma SameInputs(s0: State, s: State, l: nat, k: nat)
    requires Wiring(s0, s, l, k)
    ensures l < |s0.cells| && l < |s.cells| && s.cells[l].kind == s0.cells[l].kind && s.channel == s0.channel
    ensures forall j :: 0 <= j < |Deps(s.cells[l].kind)| ==> Deps(s.cells[l].kind)[j] < l
    ensures forall i :: 0 <= i < l ==> s.cells[i].status == s0.cells[i].status
  {
  }

  lemma BegunListens(s0: State, s: State, l: nat, k: nat)
    requires Wiring(s0, s, l, k) && l < |s0.cells| && Begun(s0, s, l, k) && k < |Deps(s.cells[l].kind)|
    requires s.cells[Deps(s.cells[l].kind)[k]].status.Empty?
    ensures Begun(s0, Listening(s, Deps(s.cells[l].kind)[k], l), l, k + 1)
  {
    hide Wiring, StartsWith, Args;
    SameInputs(s0, s, l, k);
    var kind := s.cells[l].kind;
    assert SettledAmong(s0.cells, Deps(kind), k + 1) <==> SettledAmong(s0.cells, Deps(kind), k);
  }

  /** The update by the first input that has settled starts the cell, and later ones do nothing to it. */
  lemma UpdatedWhenNotified(s: State, c: nat, l: nat, s': State)
    requires c < |s.cells| && NotifiedFrom(s, c, l, s') && !s.cells[c].status.Empty?
    ensures var n := Notified(Listening(s, c, l), c, l);
            && UpdatedAs(n, s', l) && n.cells == s.cells && n.hist == s.hist && n.calls == s.calls
            && n.channel == s.channel
  {
  }

  lemma BeginsNow(s0: State, s: State, n: State, l: nat, out: Outgoing, s': State)
    requires NotBegun(s, l) && s.calls == s0.calls && n.cells == s.cells && n.hist == s.hist && n.calls == s.calls
    requires n.channel == s0.channel && l < |s0.cells|
    requires forall i :: 0 <= i < l ==> s.cells[i].status == s0.cells[i].status
    requires StartsWith(s0.cells, s.cells[l].kind, out) && out.payload.Some? && s0.channel(l + 1).Accepted?
    requires Before(s.cells[l].kind.inputs, l) && UpdatedAs(n, s', l)
    ensures FirstAttempt(s0, s', l, out)
  {
    assert Args(n.cells, s.cells[l].kind.inputs) == Args(s0.cells, s.cells[l].kind.inputs);
    assert AttemptSent(n, s', l, out);
  }

  lemma ComputedNow(s0: State, s: State, n: State, l: nat, k: nat, s': State)
    requires l < |s0.cells| && l < |s.cells| && s.cells[l].kind == s0.cells[l].kind && s.cells[l].kind.Derived?
    requires ComputedFrom(s0.cells, s.cells, l, s.cells[l].kind, k) && n.cells == s.cells
    requires SettledAmong(s0.cells, s.cells[l].kind.inputs, k + 1) && Before(s.cells[l].kind.inputs, l)
    requires forall i :: 0 <= i < l ==> s.cells[i].status == s0.cells[i].status
    requires UpdatedAs(n, s', l)
    ensures ComputedFrom(s0.cells, s'.cells, l, s.cells[l].kind, k + 1)
  {
    assert Args(n.cells, s.cells[l].kind.inputs) == Args(s0.cells, s.cells[l].kind.inputs);
  }

  lemma BegunNotified(s0: State, s: State, l: nat, k: nat, s': State)
    requires Wiring(s0, s, l, k) && l < |s0.cells| && Begun(s0, s, l, k) && k < |Deps(s.cells[l].kind)|
    requires !s.cells[Deps(s.cells[l].kind)[k]].status.Empty?
    requires NotifiedFrom(s, Deps(s.cells[l].kind)[k], l, s')
    ensures Begun(s0, s', l, k + 1)
  {
    hide Wiring, NotifiedFrom, StartsWith, NotBegun, Listening;
    SameInputs(s0, s, l, k);
    var kind := s.cells[l].kind;
    var c := Deps(kind)[k];
    var n := Notified(Listening(s, c, l), c, l);
    UpdatedWhenNotified(s, c, l, s');
    assert SettledAmong(s0.cells, Deps(kind), k + 1);
    if kind.Derived? {
      ComputedNow(s0, s, n, l, k, s');
    }
    if kind.Timeout? {
      forall out | StartsWith(s0.cells, kind, out) && out.payload.Some? && s0.channel(l + 1).Accepted?
        ensures FirstAttempt(s0, s', l, out)
      {
        if SettledAmong(s0.cells, Deps(kind), k) {
          assert FirstAttempt(s0, s, l, out);
        } else {
          BeginsNow(s0, s, n, l, out, s');
        }
      }
    }
  }

  lemma InputBegun(s0: State, s: State, l: nat, k: nat, s': State)
    requires Wiring(s0, s, l, k) && l < |s0.cells| && Begun(s0, s, l, k) && k < |Deps(s.cells[l].kind)|
    requires var c := Deps(s.cells[l].kind)[k];
             if s.cells[c].status.Empty? then s' == Listening(s, c, l) else NotifiedFrom(s, c, l, s')
    ensures Begun(s0, s', l, k + 1)
  {
    if s.cells[Deps(s.cells[l].kind)[k]].status.Empty? {
      BegunListens(s0, s, l, k);
    } else {
      BegunNotified(s0, s, l, k, s');
    }
  }

  lemma BegunStarts(s: State, kind: Kind, ctx: nat)
    requires |s.cells| == |s.hist|
    ensures var s1 := Allocated(s, kind, ctx); Begun(s1, s1, |s.cells|, 0)
  {
  }

  /** When none of its inputs has settled there is nothing to start and nothing to compute. */
  lemma BegunEnds(s: State, kind: Kind, ctx: nat, s2: State)
    requires Deps(kind) != [] && Begun(Allocated(s, kind, ctx), s2, |s.cells|, |Deps(kind)|)
    requires |s.cells| == |s.hist| && Before(Deps(kind), |s.cells|)
    ensures Begins(s, s2, |s.cells|, kind)
  {
    var s1 := Allocated(s, kind, ctx);
    if kind.Derived? {
      ComputedEnds(s.cells, s1.cells, s2.cells, kind);
    }
    forall out | StartsWith(s.cells, kind, out) && out.payload.Some? && s.channel(|s.cells| + 1).Accepted?
      ensures FirstAttempt(s, s2, |s.cells|, out)
    {
      assert Args(s1.cells, kind.inputs) == Args(s.cells, kind.inputs);
      assert StartsWith(s1.cells, kind, out);
      var j :| 0 <= j < |kind.inputs| && !Args(s.cells, kind.inputs)[j].Empty?;
      assert SettledAmong(s1.cells, Deps(kind), |Deps(kind)|);
      assert FirstAttempt(s1, s2, |s.cells|, out);
    }
  }

  lemma ComputedEnds(cells: seq<Cell>, cells1: seq<Cell>, cells2: seq<Cell>, kind: Kind)
    requires kind.Derived? && Before(kind.inputs, |cells|) && cells <= cells1
    requires ComputedFrom(cells1, cells2, |cells|, kind, |kind.inputs|)
    ensures EvaluatedAtOnce(cells, cells2, |cells|, kind)
  {
    var args := Args(cells, kind.inputs);
    assert Args(cells1, kind.inputs) == args;
    if AnySettled(args) {
      var j :| 0 <= j < |args| && !args[j].Empty?;
      assert SettledAmong(cells1, kind.inputs, |kind.inputs|);
    }
  }

  lemma BegunAtOnce(s: State, kind: Kind, ctx: nat, s': State)
    requires kind.Timeout? && kind.inputs == [] && |s.cells| == |s.hist|
    requires var s1 := Allocated(s, kind, ctx); StartedAs(s1, s', |s.cells|, kind.start(Args(s1.cells, [])))
    ensures Begins(s, s', |s.cells|, kind)
  {
    var s1 := Allocated(s, kind, ctx);
    assert Args(s1.cells, []) == [] == Args(s.cells, []);
    forall out | StartsWith(s.cells, kind, out) && out.payload.Some? && s.channel(|s.cells| + 1).Accepted?
      ensures FirstAttempt(s, s', |s.cells|, out)
    {
      assert AttemptSent(s1, s', |s.cells|, out);
    }
  }

  lemma TrackedBegins(s0: State, s: State, l: nat, kind: Kind)
    requires Begins(s0, s, l, kind) && l < |s.cells| && s.cells[l].ctx < |s.contexts|
    ensures Begins(s0, Tracked(s, l), l, kind)
  {
    hide StartsWith;
  }

  // ---------------------------------------------------------------- final actions

  /** The final action records its result cell. */
  function Armed(s: State, l: nat): State
    requires l < |s.cells|
  {
    s.(cells := s.cells[l := s.cells[l].(armed := true)])
  }

  lemma ArmedNode(s: State, l: nat)
    requires Quiescent(s) && l < |s.cells| && s.cells[l].kind.Final? && KindOk(s.cells, l)
    requires s.hist[l].early <==> s.cells[s.cells[l].kind.result].status.Empty?
    ensures var s' := Armed(s, l);
            && KindOk(s'.cells, l) && ListenersOk(s'.cells, l) && NodeBase(s'.cells, s'.hist, l)
            && Live(s'.cells, s'.hist, l) && Waits(s'.cells, s'.hist, l)
  {
    assert ListenersOk(s.cells, l) && NodeBase(s.cells, s.hist, l);
    assert KindOk(Armed(s, l).cells, l);
  }

  lemma ArmedWired(s: State, l: nat)
    requires Quiescent(s) && l < |s.cells| && s.cells[l].kind.Final?
    ensures var s' := Armed(s, l);
            && Accounted(s'.cells, s'.registered, s'.notified, s'.owed)
            && Wired(s'.cells, s'.wiring, s'.wired) && |s'.cells| == |s'.hist|
  {
    hide Owned, DoomOk, BooksOk, NodeBase, Live, Waits, Waiting;
    WiredKept(s.cells, Armed(s, l).cells, s.wiring, s.wired);
  }

  lemma ArmedOwned(s: State, l: nat)
    requires Quiescent(s) && l < |s.cells| && s.cells[l].kind.Final?
    ensures var s' := Armed(s, l);
            && Waiting(s'.cells, s'.answering) && |s'.cells| == |s'.hist| && BooksOk(s')
            && Owned(s'.cells, s'.contexts) && DoomOk(s'.cells, s'.contexts) && Kept(s'.cells, 0)
            && StallsOk(s'.cells, s'.hist, s'.retrying)
  {
    assert |s.cells| == |s.hist|;
    hide LiveBut, Accounted, Wired, NodeBase, Waits;
    ArmedBooks(s, l);
    hide BooksOk, Base;
    var s' := Armed(s, l);
    forall k | 0 <= k < |s.contexts| ensures ContextOk(s'.cells, s'.contexts, k) {
      assert ContextOk(s.cells, s.contexts, k);
    }
    forall i | 0 <= i < |s.cells| ensures OwnerOk(s'.cells, s'.contexts, i) && FellowsOk(s'.cells, i) {
      assert OwnerOk(s.cells, s.contexts, i) && FellowsOk(s.cells, i);
    }
    DoomKept(s.cells, s.contexts, s'.cells, s'.contexts);
  }

  lemma ArmedBooks(s: State, l: nat)
    requires Quiescent(s) && l < |s.cells|
    ensures |s.cells| == |s.hist| && BooksOk(Armed(s, l)) && StallsOk(Armed(s, l).cells, s.hist, s.retrying)
  {
    hide LiveBut, Accounted, Wired, NodeBase, Waits, Owned, DoomOk;
    BooksKept(s, Armed(s, l));
    StallsKept(s.cells, s.hist, s.retrying, Armed(s, l).cells, s.hist, s.retrying);
  }

  lemma ArmedQuiescent(s: State, l: nat)
    requires Quiescent(s) && l < |s.cells| && s.cells[l].kind.Final? && KindOk(s.cells, l)
    requires s.hist[l].early <==> s.cells[s.cells[l].kind.result].status.Empty?
    ensures Quiescent(Armed(s, l))
  {
    hide Accounted, Waiting, Wired, BooksOk, Owned, DoomOk, StallsOk;
    var s' := Armed(s, l);
    ArmedWired(s, l);
    ArmedOwned(s, l);
    forall i | 0 <= i < |s.cells|
      ensures KindOk(s'.cells, i) && ListenersOk(s'.cells, i) && NodeBase(s'.cells, s'.hist, i)
              && Live(s'.cells, s'.hist, i) && Waits(s'.cells, s'.hist, i)
    {
      assert KindOk(s.cells, i) && Live(s.cells, s.hist, i) && Waits(s.cells, s.hist, i);
      if i == l {
        ArmedNode(s, l);
      } else {
        UnaffectedNode(s.cells, s.hist, s'.cells, s'.hist, i);
      }
    }
  }

  // ---------------------------------------------------------------- flags

  /** `timeout()`: the flag of timeout cell `t`, set when `t` gives up later. */
  function FlagAdded(s: State, t: nat): State
    requires t < |s.cells|
  {
    var f := |s.cells|;
    s.(cells := s.cells[t := s.cells[t].(flag := Some(f))] + [NewCell(Flag(t), s.cells[t].ctx).(owner := FlagOf(t))],
       hist := s.hist + [NoHistory(s.cells[t].status.Empty?)])
  }

  ghost predicate CanFlag(s: State, t: nat) {
    Quiescent(s) && t < |s.cells| && s.cells[t].kind.Timeout? && s.cells[t].alive && s.cells[t].flag.None?
  }

  lemma FlagAddedNodes(s: State, t: nat, i: nat)
    requires CanFlag(s, t) && i < |FlagAdded(s, t).cells|
    ensures var s' := FlagAdded(s, t);
            && |s'.cells| == |s'.hist| && KindOk(s'.cells, i) && ListenersOk(s'.cells, i)
            && NodeBase(s'.cells, s'.hist, i) && Live(s'.cells, s'.hist, i) && Waits(s'.cells, s'.hist, i)
  {
    hide Accounted, Waiting, Wired, BooksOk, Owned, DoomOk, StallsOk;
    var s' := FlagAdded(s, t);
    if i < |s.cells| {
      assert KindOk(s.cells, i) && Live(s.cells, s.hist, i) && Waits(s.cells, s.hist, i);
    }
    if i == t {
      FlaggedTimeout(s, t);
    } else if i == |s.cells| {
      assert s'.cells[i].kind == Flag(t) && s'.cells[t].flag == Some(i);
    } else {
      UnaffectedNode(s.cells, s.hist, s'.cells, s'.hist, i);
    }
  }

  lemma FlaggedTimeout(s: State, t: nat)
    requires CanFlag(s, t)
    ensures var s' := FlagAdded(s, t);
            && |s'.cells| == |s'.hist| && KindOk(s'.cells, t) && ListenersOk(s'.cells, t)
            && NodeBase(s'.cells, s'.hist, t) && Live(s'.cells, s'.hist, t) && Waits(s'.cells, s'.hist, t)
  {
    hide Accounted, Waiting, Wired, BooksOk, Owned, DoomOk, StallsOk;
    var s' := FlagAdded(s, t);
    assert KindOk(s.cells, t) && ListenersOk(s.cells, t);
    assert NodeBase(s.cells, s.hist, t) && AttemptsOk(s.cells, s.hist, t);
    assert Live(s.cells, s.hist, t) && Waits(s.cells, s.hist, t);
    assert AttemptsOk(s'.cells, s'.hist, t);
    assert KindOk(s'.cells, t);
    assert Args(s.cells, s.cells[t].kind.inputs) == Args(s'.cells, s.cells[t].kind.inputs);
  }

  lemma FlagAddedOwned(s: State, t: nat)
    requires CanFlag(s, t)
    ensures var s' := FlagAdded(s, t);
            Owned(s'.cells, s'.contexts) && DoomOk(s'.cells, s'.contexts) && Kept(s'.cells, 0)
  {
    hide Base, LiveBut, Waits, Wired, Accounted, BooksOk, Waiting;
    var s' := FlagAdded(s, t);
    assert OwnerOk(s.cells, s.contexts, t);
    forall k | 0 <= k < |s.contexts| ensures ContextOk(s'.cells, s'.contexts, k) {
      assert ContextOk(s.cells, s.contexts, k);
    }
    forall i | 0 <= i < |s'.cells| ensures OwnerOk(s'.cells, s'.contexts, i) && FellowsOk(s'.cells, i) {
      if i < |s.cells| {
        assert OwnerOk(s.cells, s.contexts, i) && FellowsOk(s.cells, i);
      }
    }
    DoomKept(s.cells, s.contexts, s'.cells, s'.contexts);
  }

  lemma FlagAddedWired(s: State, t: nat)
    requires CanFlag(s, t)
    ensures var s' := FlagAdded(s, t);
            && Accounted(s'.cells, s'.registered, s'.notified, s'.owed) && Waiting(s'.cells, s'.answering)
            && Wired(s'.cells, s'.wiring, s'.wired) && |s'.cells| == |s'.hist| && BooksOk(s')
            && StallsOk(s'.cells, s'.hist, s'.retrying)
  {
    FlagAddedBooks(s, t);
    hide LiveBut, Waits, Owned, DoomOk, NodeBase, Wired, BooksOk, StallsOk;
    var s' := FlagAdded(s, t);
    forall i, k | 0 <= i < |s'.cells| && 0 <= k < |Deps(s'.cells[i].kind)| && (i == s'.wiring ==> k < s'.wired)
      ensures WiredDep(s'.cells, i, k)
    {
      assert i < |s.cells| && s'.cells[i].kind == s.cells[i].kind;
      WiredTo(s.cells, i, k, s.wiring, s.wired);
    }
    WiredAt(s'.cells, s'.wiring, s'.wired);
  }

  lemma FlagAddedBooks(s: State, t: nat)
    requires CanFlag(s, t)
    ensures var s' := FlagAdded(s, t);
            |s'.cells| == |s'.hist| && BooksOk(s') && StallsOk(s'.cells, s'.hist, s'.retrying)
  {
    hide LiveBut, Waits, Owned, DoomOk, NodeBase, Wired, Accounted;
    var s' := FlagAdded(s, t);
    BooksKept(s, s');
    StallsKept(s.cells, s.hist, s.retrying, s'.cells, s'.hist, s.retrying);
  }

  lemma FlagAddedQuiescent(s: State, t: nat)
    requires CanFlag(s, t)
    ensures Quiescent(FlagAdded(s, t))
  {
    hide Accounted, Waiting, Wired, BooksOk, Owned, DoomOk, StallsOk;
    FlagAddedOwned(s, t);
    FlagAddedWired(s, t);
    var s' := FlagAdded(s, t);
    forall i | 0 <= i < |s'.cells|
      ensures KindOk(s'.cells, i) && ListenersOk(s'.cells, i) && NodeBase(s'.cells, s'.hist, i)
              && Live(s'.cells, s'.hist, i) && Waits(s'.cells, s'.hist, i)
    {
      FlagAddedNodes(s, t, i);
    }
  }

  // ---------------------------------------------------------------- contexts and results

  function ContextAdded(s: State): State { s.(contexts := s.contexts + [Context([], None, true, false)]) }

  lemma ContextAddedQuiescent(s: State)
    requires Quiescent(s)
    ensures Quiescent(ContextAdded(s))
  {
    var s' := ContextAdded(s);
    forall l | 0 <= l < |s.cells| ensures s.cells[l].ctx < |s.contexts| {
      assert OwnerOk(s.cells, s.contexts, l);
    }
    forall k | 0 <= k < |s'.contexts|
      ensures ContextOk(s'.cells, s'.contexts, k)
      ensures s'.contexts[k].doomed <==> exists l :: 0 <= l < |s'.cells| && Fired(s'.cells, l, k)
    {
      if k < |s.contexts| {
        assert ContextOk(s.cells, s.contexts, k);
      }
    }
    forall i | 0 <= i < |s'.cells| ensures OwnerOk(s'.cells, s'.contexts, i) && FellowsOk(s'.cells, i) {
      assert OwnerOk(s.cells, s.contexts, i) && FellowsOk(s.cells, i);
    }
    assert BooksOk(s');
  }

  /** `list::remove`. */
  function Without(ls: seq<nat>, x: nat): (r: seq<nat>)
    ensures forall y :: y in r <==> y in ls && y != x
  {
    if ls == [] then []
    else if ls[0] == x then Without(ls[1..], x)
    else [ls[0]] + Without(ls[1..], x)
  }

  ghost predicate Distinct(ls: seq<nat>) {
    forall i, j :: 0 <= i < j < |ls| ==> ls[i] != ls[j]
  }

  lemma {:induction false} WithoutKeepsDistinct(ls: seq<nat>, x: nat)
    requires Distinct(ls)
    ensures Distinct(Without(ls, x))
  {
    if ls != [] {
      var r := Without(ls[1..], x);
      WithoutKeepsDistinct(ls[1..], x);
      assert ls[0] !in ls[1..];
      assert forall j :: 0 <= j < |r| ==> r[j] in r;
    }
  }

  /** The end of run_si: the context no longer deletes the result, the result deletes the context. */
  function ResultBound(s: State, r: nat): State
    requires r < |s.cells| && s.cells[r].ctx < |s.contexts|
  {
    var k := s.cells[r].ctx;
    s.(cells := s.cells[r := s.cells[r].(owner := Result)],
       contexts := s.contexts[k := s.contexts[k].(release := Without(s.contexts[k].release, r), result := Some(r))])
  }

  ghost predicate CanBindResult(s: State, r: nat) {
    && Quiescent(s) && r < |s.cells| && s.cells[r].alive && s.cells[r].owner == Listed
    && s.cells[r].ctx < |s.contexts| && s.contexts[s.cells[r].ctx].result.None?
  }

  lemma ResultBoundQuiescent(s: State, r: nat)
    requires CanBindResult(s, r)
    ensures Quiescent(ResultBound(s, r))
  {
    hide Owned, BooksOk, Waiting, DoomOk;
    SameLogicKeeps(s, ResultBound(s, r), {});
    ResultOwned(s, r);
    ResultBooks(s, r);
  }

  lemma ResultOwned(s: State, r: nat)
    requires CanBindResult(s, r)
    ensures var s' := ResultBound(s, r); Owned(s'.cells, s'.contexts)
  {
    hide Base, LiveBut, Waits, Wired, Accounted, BooksOk, Waiting, DoomOk;
    var s' := ResultBound(s, r);
    var k0 := s.cells[r].ctx;
    assert OwnerOk(s.cells, s.contexts, r);
    forall k | 0 <= k < |s'.contexts| ensures ContextOk(s'.cells, s'.contexts, k) {
      assert ContextOk(s.cells, s.contexts, k);
      if k == k0 {
        assert Distinct(s.contexts[k].release);
        WithoutKeepsDistinct(s.contexts[k].release, r);
        assert forall j :: 0 <= j < |s'.contexts[k].release| ==> s'.contexts[k].release[j] in s.contexts[k].release;
      }
    }
    forall i | 0 <= i < |s'.cells| ensures OwnerOk(s'.cells, s'.contexts, i) && FellowsOk(s'.cells, i) {
      assert OwnerOk(s.cells, s.contexts, i) && FellowsOk(s.cells, i);
    }
  }

  lemma ResultBooks(s: State, r: nat)
    requires CanBindResult(s, r)
    ensures var s' := ResultBound(s, r); |s'.cells| == |s'.hist| && BooksOk(s') && Waiting(s'.cells, s'.answering)
  {
    BooksKept(s, ResultBound(s, r));
  }

  // ---------------------------------------------------------------- what the constructors promise

  /** Building a node: it is the last one but for the cells of calls it made, and belongs to its context. */
  ghost predicate NodeBuilt(s0: State, s: State, l: nat, kind: Kind, ctx: nat) {
    && l == |s0.cells| < |s.cells| && Built(s0, s, l)
    && s.cells[l].kind == kind && s.cells[l].ctx == ctx && s.cells[l].alive && s.cells[l].owner == Listed
  }

  ghost predicate ResultSeen(s0: State, s: State, l: nat, kind: Kind) {
    kind.Final? && kind.result < |s0.cells| ==>
      && l < |s.hist| && l < |s.cells| && kind.result < |s.cells| && !s.cells[l].armed
      && s.hist[l].early == s0.cells[kind.result].status.Empty?
      && s.cells[kind.result].status == s0.cells[kind.result].status
  }

  /** The node is constructed and about to be tracked. */
  ghost predicate Made(s0: State, s: State, l: nat, kind: Kind, ctx: nat) {
    && Constructed(s, l) && Built(s0, s, l) && l == |s0.cells| && s.cells[l].kind == kind && s.cells[l].ctx == ctx
    && ResultSeen(s0, s, l, kind) && Begins(s0, s, l, kind)
  }

  lemma NodeWired(s: State, kind: Kind, ctx: nat, s2: State)
    requires Quiescent(s) && |s.cells| == |s.hist| && |s.cells| < |s2.cells| && s2.cells[|s.cells|].kind == kind
    requires Deps(kind) != [] && Wiring(Allocated(s, kind, ctx), s2, |s.cells|, |Deps(kind)|)
    requires Begun(Allocated(s, kind, ctx), s2, |s.cells|, |Deps(kind)|)
    ensures Made(s, Wiredup(s2), |s.cells|, kind, ctx)
  {
    hide Wiring, Built, Constructed, Begun, Begins, Quiescent, Allocated, Wiredup, ResultSeen;
    var s1 := Allocated(s, kind, ctx);
    ConstructedByWiring(s1, s2, |s.cells|);
    BuiltByWiring(s, kind, ctx, s2);
    SameInputs(s1, s2, |s.cells|, |Deps(kind)|);
    BegunEnds(s, kind, ctx, s2);
    WiredupBegins(s, s2, |s.cells|, kind);
  }

  lemma BuiltByWiring(s: State, kind: Kind, ctx: nat, s2: State)
    requires |s.cells| == |s.hist| && |s.cells| < |s2.cells| && s2.cells[|s.cells|].kind == kind
    requires Wiring(Allocated(s, kind, ctx), s2, |s.cells|, |Deps(kind)|)
    ensures Built(s, Wiredup(s2), |s.cells|) && ResultSeen(s, Wiredup(s2), |s.cells|, kind)
    ensures Wiredup(s2).cells == s2.cells && s2.cells[|s.cells|].ctx == ctx
  {
    hide InvBut, HasRoom, Live, IsInput, NewOk;
    var s1 := Allocated(s, kind, ctx);
    assert forall i :: 0 <= i < |s.cells| ==> s1.cells[i] == s.cells[i];
    assert s1.hist[|s.cells|] == NoHistory(WasEmpty(s, kind));
  }

  lemma WiredupBegins(s0: State, s: State, l: nat, kind: Kind)
    requires Begins(s0, s, l, kind)
    ensures Begins(s0, Wiredup(s), l, kind)
  {
    hide StartsWith;
  }

  lemma NodeStarted(s: State, kind: Kind, ctx: nat, s': State)
    requires Quiescent(s) && |s.cells| == |s.hist| && IsNode(s, kind, ctx) && kind.Timeout? && kind.inputs == []
    requires var s1 := Allocated(s, kind, ctx);
             InvBut(s', {}) && Progressed(s1, s1.cells, s', |s.cells|, None) && s'.owed == s1.owed
             && StartedAs(s1, s', |s.cells|, kind.start(Args(s1.cells, [])))
    ensures Made(s, s', |s.cells|, kind, ctx)
  {
    BegunAtOnce(s, kind, ctx, s');
    hide StartedAs, Begins;
    StartedAtOnce(s, kind, ctx, s');
  }

  lemma NodeAlone(s: State, kind: Kind, ctx: nat)
    requires Quiescent(s) && |s.cells| == |s.hist| && IsNode(s, kind, ctx) && HasRoom(s, 0)
    requires Deps(kind) == [] && !kind.Timeout?
    ensures Made(s, Allocated(s, kind, ctx), |s.cells|, kind, ctx)
  {
    ConstructedAlone(s, kind, ctx);
    AllocatedBuilt(s, kind, ctx);
    hide Constructed, Built;
  }

  lemma NodeTracked(s0: State, s: State, l: nat, kind: Kind, ctx: nat)
    requires Made(s0, s, l, kind, ctx)
    ensures l < |s.cells| && s.cells[l].ctx < |s.contexts| && Quiescent(Tracked(s, l))
    ensures NodeBuilt(s0, Tracked(s, l), l, kind, ctx) && ResultSeen(s0, Tracked(s, l), l, kind)
    ensures Begins(s0, Tracked(s, l), l, kind)
  {
    TrackedQuiescent(s, l);
    TrackedBuilt(s0, s, l);
    TrackedBegins(s0, s, l, kind);
    hide Quiescent, Constructed, Begins;
  }

  lemma FinalArmed(s0: State, s: State, l: nat, r: nat, ctx: nat)
    requires Quiescent(s) && NodeBuilt(s0, s, l, Final(r), ctx) && ResultSeen(s0, s, l, Final(r)) && r < |s0.cells|
    ensures l < |s.cells| && l < |s.hist| && Quiescent(Armed(s, l)) && Built(s0, Armed(s, l), l)
    ensures s.hist[l].early == s0.cells[r].status.Empty?
  {
    assert KindOk(s.cells, l);
    ArmedQuiescent(s, l);
    hide Quiescent, StallsStay, HistGrows, BooksGrow;
    assert AddsOnly(s0, Armed(s, l), l) by {
      assert forall i :: 0 <= i < |s.cells| ==> Armed(s, l).cells[i].kind == s.cells[i].kind;
    }
    hide AddsOnly;
  }

  lemma CanCall(s: State)
    requires Quiescent(s) && HasRoom(s, 1)
    ensures InvBut(s, {}) && CanIssue(s) && HasRoom(s, 0)
  {
  }

  lemma CallQuiescent(s: State, s': State)
    requires Quiescent(s) && InvBut(s', {}) && Extended(s, s') && NewOk(s'.cells, |s.cells|)
    ensures Quiescent(s')
  {
  }

  lemma ResultArgs(s: State, r: nat)
    requires CanBindResult(s, r)
    ensures r < |s.cells| && s.cells[r].ctx < |s.contexts|
  {
  }
}
