/** What the client keeps beside the contents of its cells: registrations, the registry of calls, ownership. */
module ClientState {
  import opened RpcTypes
  import opened SequenceIds
  import opened Cells

  /** RpcContext: the cells and actions it will delete, the result cell bound to it, whether it is to be torn down. */
  datatype Context = Context(release: seq<nat>, result: Option<nat>, alive: bool, doomed: bool)

  // ---------------------------------------------------------------- notifications

  type Edge = (nat, nat)

  /** The updates that the listeners `ls` of cell `c` are owed when it settles. */
  function Owe(c: nat, ls: seq<nat>): multiset<Edge> {
    if ls == [] then multiset{} else multiset{(c, ls[0])} + Owe(c, ls[1..])
  }

  lemma {:induction false} OweCounts(c: nat, ls: seq<nat>, e: Edge)
    ensures Owe(c, ls)[e] == if e.0 == c then multiset(ls)[e.1] else 0
  {
    if ls != [] {
      OweCounts(c, ls[1..], e);
      assert ls == [ls[0]] + ls[1..];
    }
  }

  /**
   * Every registration with a settled cell has had its one update or is still owed it; registrations with an
   * empty cell have had none and are exactly its listeners.
   */
  ghost predicate Accounted(cells: seq<Cell>, registered: multiset<Edge>, notified: multiset<Edge>,
                            owed: multiset<Edge>) {
    forall c: nat, d: nat ::
      if c < |cells| && cells[c].status.Empty? then
        registered[(c, d)] == multiset(cells[c].listeners)[d] && notified[(c, d)] == 0 && owed[(c, d)] == 0
      else
        registered[(c, d)] == notified[(c, d)] + owed[(c, d)] && (c >= |cells| ==> registered[(c, d)] == 0)
  }

  /** From one state to the next, no node that was there has registered anew. */
  ghost predicate NoneAnew(s: State, s': State) {
    && |s.cells| <= |s'.cells|
    && forall c: nat, d: nat :: d < |s.cells| ==> s'.registered[(c, d)] == s.registered[(c, d)]
  }

  lemma NoneAnewOn(s0: State, s1: State, s2: State)
    requires NoneAnew(s0, s1) && NoneAnew(s1, s2)
    ensures NoneAnew(s0, s2)
  {
  }

  /** Nothing is registered on the way from `s` to `s1`, and none anew after it. */
  lemma NoneAnewSince(s: State, s1: State, s': State)
    requires s1.registered == s.registered && |s1.cells| >= |s.cells| && NoneAnew(s1, s')
    ensures NoneAnew(s, s')
  {
  }

  lemma NothingRegistered(s: State, s': State)
    requires s'.registered == s.registered && |s'.cells| >= |s.cells|
    ensures NoneAnew(s, s')
  {
  }

  /** Node `l` has registered with each of `ls`, as often as it is in the list. */
  ghost predicate RegisteredWith(a: multiset<Edge>, b: multiset<Edge>, l: nat, ls: seq<nat>) {
    forall c: nat :: b[(c, l)] == a[(c, l)] + multiset(ls)[c]
  }

  lemma RegisteredWithNone(a: multiset<Edge>, l: nat)
    ensures RegisteredWith(a, a, l, [])
  {
  }

  lemma RegisteredWithNext(a: multiset<Edge>, b: multiset<Edge>, c: multiset<Edge>, l: nat, ls: seq<nat>, k: nat)
    requires k < |ls| && RegisteredWith(a, b, l, ls[..k])
    requires forall d: nat :: c[(d, l)] == b[(d, l)] + if d == ls[k] then 1 else 0
    ensures RegisteredWith(a, c, l, ls[..k + 1])
  {
    assert ls[..k + 1] == ls[..k] + [ls[k]];
  }

  lemma NoneRegistered(s: State, s': State, l: nat)
    requires NoneAnew(s, s') && l < |s.cells|
    ensures RegisteredWith(s.registered, s'.registered, l, [])
  {
  }

  lemma OneMoreRegistered(s: State, s1: State, c: nat, l: nat, s': State)
    requires s1.registered == s.registered + multiset{(c, l)} && NoneAnew(s1, s') && l < |s1.cells|
    ensures forall d: nat :: s'.registered[(d, l)] == s.registered[(d, l)] + if d == c then 1 else 0
  {
  }

  lemma SettleOwes(cells: seq<Cell>, registered: multiset<Edge>, notified: multiset<Edge>, owed: multiset<Edge>,
                   c: nat, r: Status)
    requires Accounted(cells, registered, notified, owed)
    requires c < |cells| && cells[c].status.Empty? && !r.Empty?
    ensures Accounted(SetStatus(cells, c, r), registered, notified, owed + Owe(c, cells[c].listeners))
  {
    forall e: Edge ensures Owe(c, cells[c].listeners)[e] == if e.0 == c then multiset(cells[c].listeners)[e.1] else 0 {
      OweCounts(c, cells[c].listeners, e);
    }
  }

  // ---------------------------------------------------------------- the registry

  ghost predicate EntryOk(cells: seq<Cell>, idFuncMap: map<nat, nat>, s: nat)
    requires s in idFuncMap
  {
    var c := idFuncMap[s];
    c < |cells| && cells[c].alive && cells[c].hasSeqId && cells[c].seqId == s
  }

  ghost predicate Registered(cells: seq<Cell>, idFuncMap: map<nat, nat>, c: nat)
    requires c < |cells|
  {
    cells[c].alive && cells[c].hasSeqId ==> cells[c].seqId in idFuncMap && idFuncMap[cells[c].seqId] == c
  }

  /** `id_func_map_` maps s to c exactly when c is alive, has a sequence id, and that id is s. */
  ghost predicate RegistryOk(cells: seq<Cell>, idFuncMap: map<nat, nat>) {
    && (forall s :: s in idFuncMap ==> EntryOk(cells, idFuncMap, s))
    && (forall c :: 0 <= c < |cells| ==> Registered(cells, idFuncMap, c))
  }

  /** The n-th id ever taken went to the rpc cell `calls[n - 1]`. */
  ghost predicate CallOk(cells: seq<Cell>, hist: seq<History>, calls: seq<nat>, n: nat)
    requires |cells| == |hist| && 0 < n <= |calls|
  {
    var c := calls[n - 1];
    c < |cells| && cells[c].kind.Rpc? && cells[c].kind.out.Some? && hist[c].call == n && cells[c].seqId == IdOf(n)
  }

  /** A registered call was made less than a cycle of ids ago: its id has not come round again. */
  ghost predicate CallerOk(cells: seq<Cell>, hist: seq<History>, calls: seq<nat>, c: nat)
    requires c < |cells| == |hist|
  {
    cells[c].hasSeqId ==>
      && cells[c].kind.Rpc? && 0 < hist[c].call <= |calls| && calls[hist[c].call - 1] == c
      && (cells[c].alive ==> |calls| - hist[c].call < CYCLE)
  }

  ghost predicate CallsOk(cells: seq<Cell>, hist: seq<History>, calls: seq<nat>)
    requires |cells| == |hist|
  {
    && (forall n :: 0 < n <= |calls| ==> CallOk(cells, hist, calls, n))
    && (forall c :: 0 <= c < |cells| ==> CallerOk(cells, hist, calls, c))
  }

  /** An rpc cell waits for its answer exactly while it is empty; only the one being answered has both. */
  ghost predicate Waiting(cells: seq<Cell>, answering: Option<nat>) {
    forall c :: 0 <= c < |cells| && cells[c].alive && cells[c].kind.Rpc? && !cells[c].owner.Loose?
                && answering != Some(c) ==>
      (cells[c].hasSeqId <==> cells[c].status.Empty?)
  }

  ghost function Unstarted(cells: seq<Cell>): set<nat> {
    set i | 0 <= i < |cells| && cells[i].alive && cells[i].kind.Timeout? && !cells[i].started
  }

  /** The next ids, `slack` of them and one for each start still to come, are all different, and none is registered. */
  ghost predicate Room(cells: seq<Cell>, calls: seq<nat>, idFuncMap: map<nat, nat>, slack: int) {
    && |Unstarted(cells)| + slack <= CYCLE
    && forall n: nat :: |calls| < n <= |calls| + |Unstarted(cells)| + slack ==> IdOf(n) !in idFuncMap
  }

  // ---------------------------------------------------------------- requests and timers

  /** A request handed to the message channel. */
  datatype Sent = Sent(service: string, request: Request)

  /** What is sent for the n-th call. */
  function RequestOf(out: Outgoing, n: nat): (r: Sent)
    requires n > 0 && out.payload.Some?
    ensures r.service == out.service && Some(r.request.payload) == out.payload
    ensures r.request.header.ifaceIndex == out.ifaceIndex && r.request.header.methodIndex == out.methodIndex
    ensures r.request.header.seqId == IdOf(n) && r.request.header.version == 0
  {
    Sent(out.service, Request(Header(0, out.ifaceIndex, out.methodIndex, IdOf(n)), out.payload.value))
  }

  ghost predicate SentFor(cells: seq<Cell>, calls: seq<nat>, r: Sent, n: nat) {
    && 0 < n <= |calls| && calls[n - 1] < |cells| && cells[calls[n - 1]].kind.Rpc?
    && cells[calls[n - 1]].kind.out.Some? && cells[calls[n - 1]].kind.out.value.payload.Some?
    && r == RequestOf(cells[calls[n - 1]].kind.out.value, n)
  }

  /** Each request sent is that of one call, and no call still waited for went without. */
  ghost predicate SentOk(cells: seq<Cell>, hist: seq<History>, calls: seq<nat>, sent: seq<Sent>,
                         sentCalls: seq<nat>)
    requires |cells| == |hist|
  {
    && |sentCalls| == |sent|
    && (forall k :: 0 <= k < |sent| ==> SentFor(cells, calls, sent[k], sentCalls[k]))
    && (forall c :: 0 <= c < |cells| && cells[c].hasSeqId && !cells[c].owner.Loose? ==> hist[c].call in sentCalls)
  }

  ghost predicate AnsweredCall(cells: seq<Cell>, calls: seq<nat>, n: nat, id: nat) {
    && 0 < n <= |calls| && id == IdOf(n)
    && calls[n - 1] < |cells| && cells[calls[n - 1]].kind.Rpc?
    && !cells[calls[n - 1]].status.Empty? && cells[calls[n - 1]].status != Error(TimedOut)
  }

  /** The timer of every attempt was armed, and only the timers of answered attempts were cancelled. */
  ghost predicate TimersOk(cells: seq<Cell>, hist: seq<History>, calls: seq<nat>, timers: seq<nat>,
                           canceled: seq<nat>, canceledCalls: seq<nat>)
    requires |cells| == |hist|
  {
    && (forall c :: 0 <= c < |cells| && cells[c].kind.Rpc? && hist[c].bound.Some? ==> cells[c].seqId in timers)
    && |canceledCalls| == |canceled|
    && (forall k :: 0 <= k < |canceled| ==> AnsweredCall(cells, calls, canceledCalls[k], canceled[k]))
  }

  // ---------------------------------------------------------------- ownership

  ghost predicate ContextOk(cells: seq<Cell>, contexts: seq<Context>, k: nat)
    requires k < |contexts|
  {
    var rel := contexts[k].release;
    contexts[k].alive ==>
      && (forall j :: 0 <= j < |rel| ==>
            rel[j] < |cells| && cells[rel[j]].alive && cells[rel[j]].ctx == k && cells[rel[j]].owner == Listed)
      && (forall i, j :: 0 <= i < j < |rel| ==> rel[i] != rel[j])
      && (contexts[k].result.Some? ==> var r := contexts[k].result.value;
            r < |cells| && cells[r].alive && cells[r].ctx == k && cells[r].owner == Result)
  }

  ghost predicate OwnerOk(cells: seq<Cell>, contexts: seq<Context>, i: nat)
    requires i < |cells|
  {
    var c := cells[i];
    && c.ctx < |contexts|
    && (c.alive ==> contexts[c.ctx].alive)
    && (c.owner == Result ==> contexts[c.ctx].result == Some(i))
    && (c.alive ==> match c.owner
         case Listed => i in contexts[c.ctx].release
         case Result => true
         case FlagOf(t) => t < i && cells[t].alive && cells[t].ctx == c.ctx && cells[t].flag == Some(i)
         case Loose => true)
    && (c.alive && c.flag.Some? ==>
         i < c.flag.value < |cells| && cells[c.flag.value].alive && cells[c.flag.value].ctx == c.ctx
         && cells[c.flag.value].owner == FlagOf(i))
  }

  /** What a node works on lives and dies with it. */
  ghost predicate FellowsOk(cells: seq<Cell>, i: nat)
    requires i < |cells|
  {
    && (forall k :: 0 <= k < |Deps(cells[i].kind)| ==> var d := Deps(cells[i].kind)[k];
          d < |cells| && cells[d].ctx == cells[i].ctx && cells[d].alive == cells[i].alive)
    && (cells[i].kind.Bind? ==> var t := cells[i].kind.target;
          t < |cells| && cells[t].ctx == cells[i].ctx && cells[t].alive == cells[i].alive)
    && (cells[i].kind.Final? ==> cells[i].kind.result < |cells| && cells[cells[i].kind.result].owner == Result)
  }

  ghost predicate Owned(cells: seq<Cell>, contexts: seq<Context>) {
    && (forall k :: 0 <= k < |contexts| ==> ContextOk(cells, contexts, k))
    && (forall i :: 0 <= i < |cells| ==> OwnerOk(cells, contexts, i) && FellowsOk(cells, i))
  }

  /** Every live cell from the `n`-th on has an owner. */
  ghost predicate Kept(cells: seq<Cell>, n: nat) {
    forall i :: n <= i < |cells| && cells[i].alive ==> !cells[i].owner.Loose?
  }

  /** No rpc cell from the `n`-th on has an outcome, but for those of calls that never went out, which have failed. */
  ghost predicate Unanswered(cells: seq<Cell>, n: nat) {
    forall i :: n <= i < |cells| && cells[i].kind.Rpc? ==>
      !cells[i].status.Value? && (cells[i].kind.out.Some? ==> cells[i].status.Empty?)
  }

  ghost predicate NewOk(cells: seq<Cell>, n: nat) { Kept(cells, n) && Unanswered(cells, n) }

  ghost predicate Fired(cells: seq<Cell>, l: nat, k: nat)
    requires l < |cells|
  {
    cells[l].kind.Final? && cells[l].started && cells[l].ctx == k
  }

  /** A context is to be torn down exactly when a final action of it has run. */
  ghost predicate DoomOk(cells: seq<Cell>, contexts: seq<Context>) {
    forall k :: 0 <= k < |contexts| ==>
      (contexts[k].doomed <==> exists l :: 0 <= l < |cells| && Fired(cells, l, k))
  }

  lemma DoomKept(cells: seq<Cell>, contexts: seq<Context>, cells': seq<Cell>, contexts': seq<Context>)
    requires DoomOk(cells, contexts) && |contexts| == |contexts'| && |cells| <= |cells'|
    requires forall k :: 0 <= k < |contexts| ==> contexts'[k].doomed == contexts[k].doomed
    requires forall l :: 0 <= l < |cells| ==>
        cells'[l].kind == cells[l].kind && cells'[l].ctx == cells[l].ctx
        && (cells[l].kind.Final? ==> cells'[l].started == cells[l].started)
    requires forall l :: |cells| <= l < |cells'| ==> !cells'[l].started
    ensures DoomOk(cells', contexts')
  {
    forall k | 0 <= k < |contexts|
      ensures contexts'[k].doomed <==> exists l :: 0 <= l < |cells'| && Fired(cells', l, k)
    {
      if contexts[k].doomed {
        var l :| 0 <= l < |cells| && Fired(cells, l, k);
        assert Fired(cells', l, k);
      }
      if l :| 0 <= l < |cells'| && Fired(cells', l, k) {
        assert Fired(cells, l, k);
      }
    }
  }

  // ---------------------------------------------------------------- what propagation may change

  /** A cell through a propagation: only its status (once), its retries and its start may change. */
  ghost predicate SameButProgress(a: Cell, b: Cell) {
    && b.kind == a.kind && b.listeners == a.listeners && b.ctx == a.ctx && b.owner == a.owner && b.alive == a.alive
    && b.hasSeqId == a.hasSeqId && b.seqId == a.seqId && b.flag == a.flag && b.armed == a.armed
    && (!a.status.Empty? ==> b.status == a.status)
    && (a.started ==> b.started)
  }

  /** From `a` to `b` no cell below `lo` changes, no rpc cell and no flag but `f` settles, none settles twice. */
  ghost predicate Grows(a: seq<Cell>, b: seq<Cell>, lo: nat, f: Option<nat>) {
    && |a| <= |b|
    && forall i :: 0 <= i < |a| ==>
         SameButProgress(a[i], b[i])
         && (i < lo ==> b[i] == a[i])
         && (a[i].kind.Rpc? || (a[i].kind.Flag? && Some(i) != f) ==> b[i].status == a[i].status)
  }

  ghost predicate HistGrows(a: seq<History>, b: seq<History>) {
    && |a| <= |b|
    && forall i :: 0 <= i < |a| ==>
         && b[i].bound == a[i].bound && b[i].slot == a[i].slot && b[i].call == a[i].call && b[i].early == a[i].early
         && a[i].attempts <= b[i].attempts
  }

  /** A cell whose retry was deferred makes no further attempt. */
  ghost predicate StallsStay(a: seq<History>, retrying: Option<nat>, b: seq<History>) {
    |a| <= |b| && forall i :: 0 <= i < |a| && a[i].stalled && retrying != Some(i) ==>
      b[i].stalled && b[i].attempts == a[i].attempts
  }

  /** Timeout cell `i` neither starts, fails nor makes an attempt. */
  ghost predicate Rests(cells: seq<Cell>, hist: seq<History>, cells': seq<Cell>, hist': seq<History>, i: nat)
    requires i < |cells|
  {
    cells[i].kind.Timeout? ==>
      && i < |hist| && i < |cells'| && i < |hist'|
      && cells'[i].started == cells[i].started && (cells'[i].status == cells[i].status || cells'[i].status.Value?)
      && hist'[i].attempts == hist[i].attempts
  }

  /** Where no timeout cell does anything, no call is made and no cell is added. */
  ghost predicate OnlyTimeoutsCall(s: State, base: seq<Cell>, s': State) {
    (forall i :: 0 <= i < |base| ==> Rests(base, s.hist, s'.cells, s'.hist, i)) ==>
      |s'.cells| == |base| && s'.calls == s.calls
  }

  /** Contexts only track more, and may be marked for teardown. */
  ghost predicate ContextsGrow(a: seq<Context>, b: seq<Context>) {
    && |a| == |b|
    && forall k :: 0 <= k < |a| ==>
         a[k].release <= b[k].release && b[k].result == a[k].result && b[k].alive == a[k].alive
         && (a[k].doomed ==> b[k].doomed)
  }

  // ---------------------------------------------------------------- progress keeps the rest

  ghost predicate OnlyProgress(a: seq<Cell>, b: seq<Cell>) {
    |a| == |b| && forall i :: 0 <= i < |a| ==> SameButProgress(a[i], b[i])
  }

  lemma ProgressKeepsOwned(a: seq<Cell>, b: seq<Cell>, contexts: seq<Context>)
    requires OnlyProgress(a, b) && Owned(a, contexts)
    ensures Owned(b, contexts)
  {
    forall k | 0 <= k < |contexts| ensures ContextOk(b, contexts, k) {
      assert ContextOk(a, contexts, k);
    }
    forall i | 0 <= i < |b| ensures OwnerOk(b, contexts, i) && FellowsOk(b, i) {
      assert OwnerOk(a, contexts, i) && FellowsOk(a, i);
    }
  }

  // ---------------------------------------------------------------- the whole state

  datatype State = State(cells: seq<Cell>, contexts: seq<Context>, idFuncMap: map<nat, nat>, timers: seq<nat>,
                         canceled: seq<nat>, sent: seq<Sent>,
                         hist: seq<History>, calls: seq<nat>, canceledCalls: seq<nat>, sentCalls: seq<nat>,
                         registered: multiset<Edge>, notified: multiset<Edge>, owed: multiset<Edge>,
                         answering: Option<nat>, wiring: nat, wired: nat, retrying: Option<nat>,
                         channel: nat -> Delivery)

  /** The registry, the calls, the timers and the requests agree. */
  ghost predicate BooksOk(s: State)
    requires |s.cells| == |s.hist|
  {
    && RegistryOk(s.cells, s.idFuncMap)
    && CallsOk(s.cells, s.hist, s.calls)
    && TimersOk(s.cells, s.hist, s.calls, s.timers, s.canceled, s.canceledCalls)
    && SentOk(s.cells, s.hist, s.calls, s.sent, s.sentCalls)
  }

  /** Cells keep what the books say of them, and new ones are not in the books. */
  ghost predicate SameBooks(s: State, s': State) {
    && |s.hist| == |s.cells| <= |s'.cells| == |s'.hist|
    && s'.idFuncMap == s.idFuncMap && s'.calls == s.calls && s'.canceled == s.canceled && s'.sent == s.sent
    && s'.canceledCalls == s.canceledCalls && s'.sentCalls == s.sentCalls && s.timers <= s'.timers
    && (forall i :: 0 <= i < |s.cells| ==>
          && s'.cells[i].kind == s.cells[i].kind && s'.cells[i].alive == s.cells[i].alive
          && s'.cells[i].hasSeqId == s.cells[i].hasSeqId && s'.cells[i].seqId == s.cells[i].seqId
          && s'.hist[i].call == s.hist[i].call
          && (!s.cells[i].status.Empty? ==> s'.cells[i].status == s.cells[i].status)
          && (s'.cells[i].owner == s.cells[i].owner || !s.cells[i].hasSeqId || s.hist[i].call in s.sentCalls)
          && (s'.hist[i].bound == s.hist[i].bound || s'.cells[i].seqId in s'.timers))
    && (forall i :: |s.cells| <= i < |s'.cells| ==> !s'.cells[i].hasSeqId && s'.hist[i].bound == None)
  }

  lemma BooksKept(s: State, s': State)
    requires |s.cells| == |s.hist| && BooksOk(s) && SameBooks(s, s')
    ensures BooksOk(s')
  {
    forall r | r in s.idFuncMap ensures EntryOk(s'.cells, s'.idFuncMap, r) {
      assert EntryOk(s.cells, s.idFuncMap, r);
    }
    forall c | 0 <= c < |s'.cells|
      ensures Registered(s'.cells, s'.idFuncMap, c) && CallerOk(s'.cells, s'.hist, s'.calls, c)
    {
      if c < |s.cells| {
        assert Registered(s.cells, s.idFuncMap, c) && CallerOk(s.cells, s.hist, s.calls, c);
      }
    }
    forall n | 0 < n <= |s.calls| ensures CallOk(s'.cells, s'.hist, s'.calls, n) {
      assert CallOk(s.cells, s.hist, s.calls, n);
    }
    forall k | 0 <= k < |s.canceled| ensures AnsweredCall(s'.cells, s'.calls, s'.canceledCalls[k], s'.canceled[k]) {
      assert AnsweredCall(s.cells, s.calls, s.canceledCalls[k], s.canceled[k]);
    }
    forall k | 0 <= k < |s.sent| ensures SentFor(s'.cells, s'.calls, s'.sent[k], s'.sentCalls[k]) {
      assert SentFor(s.cells, s.calls, s.sent[k], s.sentCalls[k]);
    }
  }

  /** Holds at every point of a propagation; the timeout cells in `D` are just taking the end of an attempt. */
  ghost predicate InvWith(s: State, D: set<nat>) {
    && Base(s.cells, s.hist)
    && Wired(s.cells, s.wiring, s.wired)
    && Accounted(s.cells, s.registered, s.notified, s.owed)
    && Waiting(s.cells, s.answering)
    && Owned(s.cells, s.contexts)
    && DoomOk(s.cells, s.contexts)
    && StallsOk(s.cells, s.hist, s.retrying)
    && BooksOk(s)
    && (forall t :: 0 <= t < |s.cells| && t !in D ==> Waits(s.cells, s.hist, t))
  }

  ghost predicate Inv(s: State) { InvWith(s, {}) }

  /** Holds when every node outside `X` is up to date. */
  ghost predicate InvBut(s: State, X: set<nat>) {
    Inv(s) && LiveBut(s.cells, s.hist, X)
  }

  /** Holds between message dispatches. */
  ghost predicate Quiescent(s: State) {
    InvBut(s, {}) && Kept(s.cells, 0)
    && s.owed == multiset{} && s.answering == None && s.wiring == 0 && s.wired == 0 && s.retrying == None
  }

  ghost predicate HasRoom(s: State, slack: int) {
    Room(s.cells, s.calls, s.idFuncMap, slack)
  }

  /**
   * What a part of a propagation leaves as it was: from the cells `base` on, no cell below `lo` changed, no rpc
   * cell and no flag but `f` settled, no cell settled twice, nothing was forgotten; the new cells have owners and no
   * values.
   */
  ghost predicate Progressed(s: State, base: seq<Cell>, s': State, lo: nat, f: Option<nat>) {
    && Grows(base, s'.cells, lo, f) && NewOk(s'.cells, |base|)
    && HistGrows(s.hist, s'.hist) && StallsStay(s.hist, s.retrying, s'.hist)
    && RestGrows(s, s') && OnlyTimeoutsCall(s, base, s')
  }

  /** Nothing is taken back that was entered in a book, sent or tracked. */
  ghost predicate BooksGrow(s: State, s': State) {
    && ContextsGrow(s.contexts, s'.contexts)
    && s.calls <= s'.calls && s.timers <= s'.timers && s.canceled <= s'.canceled && s.sent <= s'.sent
    && s.sentCalls <= s'.sentCalls && s'.channel == s.channel
  }

  /** What is under way stays under way, but no retry is open any more. */
  ghost predicate RestGrows(s: State, s': State) {
    && BooksGrow(s, s')
    && s'.answering == s.answering && s'.wiring == s.wiring && s'.wired == s.wired && s'.retrying == None
  }

  lemma BooksGrowOn(s0: State, s1: State, s2: State)
    requires BooksGrow(s0, s1) && BooksGrow(s1, s2)
    ensures BooksGrow(s0, s2)
  {
    assert forall k :: 0 <= k < |s0.contexts| ==> s0.contexts[k].release <= s1.contexts[k].release;
  }

  lemma HistGrowsOn(a: seq<History>, b: seq<History>, c: seq<History>, retrying: Option<nat>)
    requires HistGrows(a, b) && HistGrows(b, c) && StallsStay(a, retrying, b) && StallsStay(b, None, c)
    ensures HistGrows(a, c) && StallsStay(a, retrying, c)
  {
    assert forall i :: 0 <= i < |a| ==> a[i].attempts <= b[i].attempts;
  }

  ghost function Unsettled(s: State): set<nat> {
    set i | 0 <= i < |s.cells| && s.cells[i].status.Empty? && IsGuarded(s.cells[i].kind)
  }

  /** The rpc cell of the last attempt of `t` has its outcome, and `t` waits for it. */
  ghost predicate AttemptDone(s: State, t: nat, a: nat) {
    && t < a < |s.cells| && |s.cells| == |s.hist| && s.cells[t].kind.Timeout? && s.cells[a].kind.Rpc?
    && s.cells[t].alive && s.cells[t].started && s.cells[t].status.Empty?
    && !s.hist[t].stalled && AllServed(s.cells, s.hist, t)
    && |s.hist[t].attempts| > 0 && s.hist[t].attempts[|s.hist[t].attempts| - 1] == a
    && s.hist[a].bound == Some(t) && !s.cells[a].status.Empty?
    && (s.cells[a].status != Error(TimedOut) ==> s.cells[a].hasSeqId)
  }

  // ---------------------------------------------------------------- settling

  ghost predicate CanSettle(s: State, c: nat, r: Status, X: set<nat>) {
    && InvWith(s, {c}) && LiveBut(s.cells, s.hist, X + {c})
    && c < |s.cells| && s.cells[c].status.Empty? && s.cells[c].alive && !r.Empty?
    && (s.cells[c].kind.Rpc? || IsGuarded(s.cells[c].kind))
    && KindOk(SetStatus(s.cells, c, r), c) && NodeBase(SetStatus(s.cells, c, r), s.hist, c)
    && FlagExcused(s.cells, s.hist, c, r, X)
    && s.wiring <= c && s.retrying == None
    && (s.cells[c].kind.Rpc? ==> s.answering == Some(c) && s.wiring == 0
                                 && (r != Error(TimedOut) ==> s.cells[c].hasSeqId))
  }

  function Settled(s: State, c: nat, r: Status): State
    requires c < |s.cells|
  {
    s.(cells := SetStatus(s.cells, c, r), owed := s.owed + Owe(c, s.cells[c].listeners))
  }

  lemma SettledBase(s: State, c: nat, r: Status, X: set<nat>)
    requires CanSettle(s, c, r, X)
    ensures Base(SetStatus(s.cells, c, r), s.hist)
  {
    SetStatusKeepsShape(s.cells, c, r);
    forall i | 0 <= i < |s.cells| && i != c ensures NodeBase(SetStatus(s.cells, c, r), s.hist, i) {
      SetStatusKeepsBase(s.cells, s.hist, c, r, i);
    }
  }

  /** The timeout cell that the end of rpc cell `c` concerns. */
  ghost function Waiter(s: State, c: nat): set<nat>
    requires c < |s.cells| && |s.cells| == |s.hist|
  {
    if s.cells[c].kind.Rpc? && s.hist[c].bound.Some? then {s.hist[c].bound.value} else {}
  }

  lemma SettledWaits(s: State, c: nat, r: Status, X: set<nat>)
    requires CanSettle(s, c, r, X)
    ensures var s' := Settled(s, c, r);
            forall t :: 0 <= t < |s'.cells| && t !in Waiter(s, c) ==> Waits(s'.cells, s'.hist, t)
  {
    var s' := Settled(s, c, r);
    forall t | 0 <= t < |s'.cells| && t !in Waiter(s, c) ensures Waits(s'.cells, s'.hist, t) {
      if t != c {
        assert Waits(s.cells, s.hist, t) && KindOk(s.cells, t) && NodeBase(s.cells, s.hist, t);
        assert s.cells[t].kind.Timeout? ==> AttemptsOk(s.cells, s.hist, t);
      }
    }
  }

  lemma SettledRest(s: State, c: nat, r: Status, X: set<nat>)
    requires CanSettle(s, c, r, X)
    ensures var s' := Settled(s, c, r);
            && Accounted(s'.cells, s'.registered, s'.notified, s'.owed)
            && Waiting(s'.cells, s'.answering) && Owned(s'.cells, s'.contexts) && BooksOk(s')
            && DoomOk(s'.cells, s'.contexts) && StallsOk(s'.cells, s'.hist, s'.retrying)
    ensures Unstarted(Settled(s, c, r).cells) == Unstarted(s.cells)
    ensures Unsettled(Settled(s, c, r)) == Unsettled(s) - {c}
  {
    SettledOwned(s, c, r, X);
    hide Wired, LiveBut, Owned, DoomOk, StallsOk, NodeBase;
    SettleOwes(s.cells, s.registered, s.notified, s.owed, c, r);
    BooksKept(s, Settled(s, c, r));
  }

  lemma SettledOwned(s: State, c: nat, r: Status, X: set<nat>)
    requires CanSettle(s, c, r, X)
    ensures var cells' := SetStatus(s.cells, c, r);
            Owned(cells', s.contexts) && DoomOk(cells', s.contexts) && StallsOk(cells', s.hist, s.retrying)
  {
    hide Wired, LiveBut, Accounted, BooksOk, Waiting, NodeBase;
    var cells' := SetStatus(s.cells, c, r);
    ProgressKeepsOwned(s.cells, cells', s.contexts);
    DoomKept(s.cells, s.contexts, cells', s.contexts);
    StallsKept(s.cells, s.hist, s.retrying, cells', s.hist, s.retrying);
  }

  lemma SettledAttempt(s: State, c: nat, r: Status, X: set<nat>)
    requires CanSettle(s, c, r, X) && s.cells[c].kind.Rpc? && s.hist[c].bound.Some?
    ensures AttemptDone(Settled(s, c, r), s.hist[c].bound.value, c)
    ensures |s.cells[c].listeners| == 1
  {
    var ls := s.cells[c].listeners;
    assert KindOk(s.cells, c) && NodeBase(s.cells, s.hist, c);
    EmptyAttemptIsLast(s.cells, s.hist, c, s.hist[c].bound.value);
    assert FellowsOk(s.cells, ls[0]) && Deps(s.cells[ls[0]].kind)[0] == c;
  }

  // ---------------------------------------------------------------- propagating

  /** The first cell that settling `c` may settle in turn, and the flag it may set. */
  ghost function Reach(s: State, c: nat): (nat, Option<nat>)
    requires c < |s.cells| && |s.cells| == |s.hist|
  {
    if s.cells[c].kind.Rpc? && s.hist[c].bound.Some? && s.hist[c].bound.value < |s.cells|
    then (s.hist[c].bound.value, s.cells[s.hist[c].bound.value].flag)
    else (c, None)
  }

  /** `c` has settled and its listeners are owed their updates. */
  ghost predicate CanPropagate(s: State, c: nat, X: set<nat>) {
    && c < |s.cells| && |s.cells| == |s.hist|
    && InvWith(s, Waiter(s, c)) && s.cells[c].alive && !s.cells[c].status.Empty?
    && (s.cells[c].kind.Rpc? || IsGuarded(s.cells[c].kind))
    && LiveBut(s.cells, s.hist, X + Elements(s.cells[c].listeners))
    && Owe(c, s.cells[c].listeners) <= s.owed
    && s.wiring <= c && (s.cells[c].kind.Rpc? ==> s.wiring == 0) && s.retrying == None
    && HasRoom(s, if s.cells[c].kind.Rpc? then 1 else 0)
    && (s.cells[c].kind.Rpc? && s.hist[c].bound.Some? ==>
          AttemptDone(s, s.hist[c].bound.value, c) && |s.cells[c].listeners| == 1)
  }

  /** The update of listener `l` may run. */
  ghost predicate CanUpdate(s: State, l: nat, X: set<nat>) {
    && l < |s.cells| && s.cells[l].alive
    && InvWith(s, if s.cells[l].kind.Bind? then {s.cells[l].kind.target} else {})
    && LiveBut(s.cells, s.hist, X + {l})
    && s.wiring <= Affects(s.cells, l) && s.retrying == None
    && HasRoom(s, if s.cells[l].kind.Bind? then 1 else 0)
    && (s.cells[l].kind.Bind? ==> AttemptDone(s, s.cells[l].kind.target, s.cells[l].kind.rpc))
    && InRange(s.cells, Deps(s.cells[l].kind)) && Touched(s.cells, Deps(s.cells[l].kind))
    && (s.cells[l].kind.Final? && s.cells[l].armed ==> s.hist[l].early)
  }

  ghost function FlagReached(s: State, l: nat): Option<nat>
    requires l < |s.cells|
  {
    if s.cells[l].kind.Bind? && s.cells[l].kind.target < |s.cells| then s.cells[s.cells[l].kind.target].flag else None
  }

  function Notified(s: State, c: nat, l: nat): State {
    s.(notified := s.notified + multiset{(c, l)}, owed := s.owed - multiset{(c, l)})
  }

  lemma ProgressIsTransitive(s0: State, base: seq<Cell>, s1: State, s2: State, lo: nat, f: Option<nat>,
                             lo': nat, f': Option<nat>)
    requires Progressed(s0, base, s1, lo, f) && Progressed(s1, s1.cells, s2, lo', f')
    requires lo <= lo' && (f' == None || f' == f)
    ensures Progressed(s0, base, s2, lo, f)
  {
    CellsGrowOn(s0, base, s1, s2, lo, f, lo', f');
    RestIsTransitive(s0, base, s1, s2);
    BooksGrowOn(s0, s1, s2);
    HistGrowsOn(s0.hist, s1.hist, s2.hist, s0.retrying);
    hide OnlyTimeoutsCall, Grows, NewOk, SameButProgress, BooksGrow, HistGrows, StallsStay;
  }

  lemma CellsGrowOn(s0: State, base: seq<Cell>, s1: State, s2: State, lo: nat, f: Option<nat>, lo': nat,
                    f': Option<nat>)
    requires Grows(base, s1.cells, lo, f) && NewOk(s1.cells, |base|)
    requires Grows(s1.cells, s2.cells, lo', f') && NewOk(s2.cells, |s1.cells|)
    requires lo <= lo' && (f' == None || f' == f)
    ensures Grows(base, s2.cells, lo, f) && NewOk(s2.cells, |base|)
    ensures |base| <= |s1.cells| <= |s2.cells|
    ensures forall i :: 0 <= i < |base| ==> SameButProgress(base[i], s1.cells[i])
    ensures forall i :: 0 <= i < |s1.cells| ==> SameButProgress(s1.cells[i], s2.cells[i])
  {
  }

  lemma RestIsTransitive(s0: State, base: seq<Cell>, s1: State, s2: State)
    requires |base| <= |s1.cells| <= |s2.cells| && HistGrows(s0.hist, s1.hist) && HistGrows(s1.hist, s2.hist)
    requires forall i :: 0 <= i < |base| ==> SameButProgress(base[i], s1.cells[i])
    requires forall i :: 0 <= i < |s1.cells| ==> SameButProgress(s1.cells[i], s2.cells[i])
    requires OnlyTimeoutsCall(s0, base, s1) && OnlyTimeoutsCall(s1, s1.cells, s2)
    ensures OnlyTimeoutsCall(s0, base, s2)
  {
    if forall i :: 0 <= i < |base| ==> Rests(base, s0.hist, s2.cells, s2.hist, i) {
      forall i | 0 <= i < |base|
        ensures Rests(base, s0.hist, s1.cells, s1.hist, i) && Rests(s1.cells, s1.hist, s2.cells, s2.hist, i)
      {
        assert Rests(base, s0.hist, s2.cells, s2.hist, i);
        assert SameButProgress(base[i], s1.cells[i]) && SameButProgress(s1.cells[i], s2.cells[i]);
        if base[i].kind.Timeout? && i < |s0.hist| {
          assert s0.hist[i].attempts <= s1.hist[i].attempts <= s2.hist[i].attempts;
        }
      }
    }
  }

  lemma NotifyKeepsInv(s: State, c: nat, l: nat, D: set<nat>)
    requires InvWith(s, D) && (c, l) in s.owed
    ensures InvWith(Notified(s, c, l), D)
  {
  }

  /** A listener of a settled cell lives, and what it computes from is touched. */
  lemma ListenerReady(s: State, c: nat, l: nat, D: set<nat>)
    requires InvWith(s, D)
    requires c < |s.cells| && l in s.cells[c].listeners && s.cells[c].alive && !s.cells[c].status.Empty?
    ensures c < l < |s.cells| && s.cells[l].alive && InRange(s.cells, Deps(s.cells[l].kind))
    ensures Touched(s.cells, Deps(s.cells[l].kind))
    ensures s.cells[l].kind.Bind? ==>
              s.cells[l].kind.rpc == c && s.cells[c].kind.Rpc? && s.hist[c].bound == Some(s.cells[l].kind.target)
    ensures s.cells[l].kind.Bind? <==> s.cells[c].kind.Rpc? && s.hist[c].bound.Some?
    ensures s.cells[l].kind.Bind? ==> s.cells[c].listeners == [l]
    ensures s.cells[l].kind.Final? ==> s.hist[l].early
  {
    assert ListenersOk(s.cells, c) && KindOk(s.cells, l) && FellowsOk(s.cells, l);
    assert KindOk(s.cells, c) && NodeBase(s.cells, s.hist, c) && NodeBase(s.cells, s.hist, l);
    var k :| 0 <= k < |Deps(s.cells[l].kind)| && Deps(s.cells[l].kind)[k] == c;
    assert !Args(s.cells, Deps(s.cells[l].kind))[k].Empty?;
  }

  /** The loop of evaluate_all_derived_cells has updated the first `i` listeners of `c` since state `b`. */
  ghost predicate Propagating(b: State, s: State, c: nat, X: set<nat>, i: nat) {
    && CanPropagate(b, c, X) && i <= |b.cells[c].listeners|
    && InvWith(s, if i == 0 then Waiter(b, c) else {})
    && LiveBut(s.cells, s.hist, X + Elements(b.cells[c].listeners[i..]))
    && Progressed(b, b.cells, s, Reach(b, c).0, Reach(b, c).1)
    && s.owed == b.owed - Owe(c, b.cells[c].listeners) + Owe(c, b.cells[c].listeners[i..])
    && HasRoom(s, if b.cells[c].kind.Rpc? && i == 0 then 1 else 0)
    && (i == 0 ==> s == b)
  }

  lemma PropagationStarts(b: State, c: nat, X: set<nat>)
    requires CanPropagate(b, c, X)
    ensures c < |b.cells| == |b.hist| && Propagating(b, b, c, X, 0)
  {
    assert b.cells[c].listeners[0..] == b.cells[c].listeners;
  }

  lemma LessRoom(s: State, more: int, less: int)
    requires HasRoom(s, more) && less <= more
    ensures HasRoom(s, less)
  {
  }

  lemma NextListener(b: State, s: State, c: nat, X: set<nat>, i: nat)
    requires c < |b.cells| && Propagating(b, s, c, X, i) && i < |b.cells[c].listeners|
    ensures c < |s.cells| && s.cells[c].listeners == b.cells[c].listeners
    ensures s.cells[c].alive && !s.cells[c].status.Empty? && s.cells[c].kind == b.cells[c].kind
    ensures |s.hist| == |s.cells| && s.hist[c].bound == b.hist[c].bound
    ensures (c, b.cells[c].listeners[i]) in s.owed
    ensures s.wiring == b.wiring && s.retrying == None
  {
    OweNext(c, b.cells[c].listeners, i);
  }

  lemma NextLive(b: State, s: State, c: nat, X: set<nat>, i: nat)
    requires c < |b.cells| && Propagating(b, s, c, X, i) && i < |b.cells[c].listeners|
    ensures |s.hist| == |s.cells| && Shape(s.cells)
    ensures LiveBut(s.cells, s.hist, X + Elements(b.cells[c].listeners[i + 1..]) + {b.cells[c].listeners[i]})
  {
    var ls := b.cells[c].listeners;
    assert ls[i..] == [ls[i]] + ls[i + 1..];
    assert X + Elements(ls[i..]) == X + Elements(ls[i + 1..]) + {ls[i]};
  }

  /** The next listener may be updated. */
  lemma NextUpdate(b: State, s: State, c: nat, X: set<nat>, i: nat)
    requires c < |b.cells| && Propagating(b, s, c, X, i) && i < |b.cells[c].listeners|
    ensures c < |s.cells| && s.cells[c].listeners == b.cells[c].listeners
    ensures var l := b.cells[c].listeners[i];
            && l < |s.cells| && (c, l) in s.owed
            && CanUpdate(Notified(s, c, l), l, X + Elements(b.cells[c].listeners[i + 1..]))
            && Reach(b, c).0 <= Affects(s.cells, l) && FlagReached(s, l) in {None, Reach(b, c).1}
            && FlagReached(Notified(s, c, l), l) == FlagReached(s, l)
    ensures Unsettled(Notified(s, c, b.cells[c].listeners[i])) == Unsettled(s)
  {
    hide LiveBut, InvWith, HasRoom, Progressed;
    var l := b.cells[c].listeners[i];
    var D := if i == 0 then Waiter(b, c) else {};
    NextListener(b, s, c, X, i);
    NextLive(b, s, c, X, i);
    ListenerReady(s, c, l, D);
    NotifyKeepsInv(s, c, l, D);
    assert s.cells[l].kind.Bind? ==> i == 0;
    assert D == if s.cells[l].kind.Bind? then {s.cells[l].kind.target} else {};
    LessRoom(s, if b.cells[c].kind.Rpc? && i == 0 then 1 else 0, if s.cells[l].kind.Bind? then 1 else 0);
    SameRoom(s, c, l, if s.cells[l].kind.Bind? then 1 else 0);
  }

  lemma SameRoom(s: State, c: nat, l: nat, slack: int)
    ensures HasRoom(s, slack) == HasRoom(Notified(s, c, l), slack)
  {
  }

  lemma OweNext(c: nat, ls: seq<nat>, i: nat)
    requires i < |ls|
    ensures Owe(c, ls[i..]) == multiset{(c, ls[i])} + Owe(c, ls[i + 1..])
  {
    assert ls[i..][1..] == ls[i + 1..];
  }

  lemma NotifyIsProgress(b: State, base: seq<Cell>, s: State, c: nat, l: nat, lo: nat, f: Option<nat>)
    requires Progressed(b, base, s, lo, f)
    ensures Progressed(b, base, Notified(s, c, l), lo, f)
  {
  }

  /** After its update the loop has updated one listener more. */
  lemma NextUpdated(b: State, s: State, s': State, c: nat, X: set<nat>, i: nat)
    requires c < |b.cells| && Propagating(b, s, c, X, i) && i < |b.cells[c].listeners| && c < |s.cells|
    requires var l := b.cells[c].listeners[i];
             && l < |s.cells|
             && Reach(b, c).0 <= Affects(s.cells, l) && FlagReached(s, l) in {None, Reach(b, c).1}
             && Progressed(Notified(s, c, l), s.cells, s', Affects(s.cells, l), FlagReached(s, l))
             && InvBut(s', X + Elements(b.cells[c].listeners[i + 1..]))
             && HasRoom(s', 0) && s'.owed == Notified(s, c, l).owed
    ensures Propagating(b, s', c, X, i + 1)
  {
    assert |b.cells| == |b.hist|;
    hide InvWith, LiveBut, HasRoom, CanPropagate, Progressed, Reach, Owe, Elements;
    var l := b.cells[c].listeners[i];
    NextOwed(b.owed, s.owed, c, b.cells[c].listeners, i);
    UpdateIsProgress(b, s, c, l, Reach(b, c).0, Reach(b, c).1, s', Affects(s.cells, l), FlagReached(s, l));
    hide Affects, FlagReached, InvBut;
    OneMoreUpdated(b, s', c, X, i);
  }

  lemma OneMoreUpdated(b: State, s: State, c: nat, X: set<nat>, i: nat)
    requires CanPropagate(b, c, X) && c < |b.cells| == |b.hist| && i < |b.cells[c].listeners| && HasRoom(s, 0)
    requires InvBut(s, X + Elements(b.cells[c].listeners[i + 1..]))
    requires Progressed(b, b.cells, s, Reach(b, c).0, Reach(b, c).1)
    requires s.owed == b.owed - Owe(c, b.cells[c].listeners) + Owe(c, b.cells[c].listeners[i + 1..])
    ensures Propagating(b, s, c, X, i + 1)
  {
    hide InvWith, LiveBut, HasRoom, CanPropagate, Progressed, Reach, Owe, Elements;
  }

  lemma UpdateIsProgress(b: State, s: State, c: nat, l: nat, lo: nat, f: Option<nat>, s': State, lo': nat,
                         f': Option<nat>)
    requires Progressed(b, b.cells, s, lo, f) && Progressed(Notified(s, c, l), s.cells, s', lo', f')
    requires lo <= lo' && (f' == None || f' == f)
    ensures Progressed(b, b.cells, s', lo, f)
  {
    NotifyIsProgress(b, b.cells, s, c, l, lo, f);
    hide Progressed;
    ProgressIsTransitive(b, b.cells, Notified(s, c, l), s', lo, f, lo', f');
  }

  lemma NextOwed(all: multiset<Edge>, owed: multiset<Edge>, c: nat, ls: seq<nat>, i: nat)
    requires i < |ls| && owed == all - Owe(c, ls) + Owe(c, ls[i..])
    ensures owed - multiset{(c, ls[i])} == all - Owe(c, ls) + Owe(c, ls[i + 1..])
  {
    OweNext(c, ls, i);
  }

  /** When all listeners have been updated, only `X` may be out of date. */
  lemma PropagationEnds(b: State, s: State, c: nat, X: set<nat>)
    requires c < |b.cells| && Propagating(b, s, c, X, |b.cells[c].listeners|)
    ensures InvBut(s, X) && HasRoom(s, 0) && s.owed == b.owed - Owe(c, b.cells[c].listeners)
    ensures Progressed(b, b.cells, s, Reach(b, c).0, Reach(b, c).1)
  {
    assert b.cells[c].listeners[|b.cells[c].listeners|..] == [];
    assert X + Elements([]) == X;
  }

  /** The cell that was settled keeps its outcome through the propagation. */
  lemma TakesOutcome(s: State, c: nat, r: Status, s': State, lo: nat, f: Option<nat>)
    requires c < |s.cells| && !r.Empty? && Progressed(s, SetStatus(s.cells, c, r), s', lo, f)
    ensures c < |s'.cells| && s'.cells[c].status == r
  {
    assert SameButProgress(SetStatus(s.cells, c, r)[c], s'.cells[c]);
  }

  /** Every listener has been updated once for each of its registrations. */
  lemma ListenersUpdated(b: State, s: State, c: nat, X: set<nat>, lo: nat, f: Option<nat>)
    requires CanPropagate(b, c, X) && c < |b.cells| && NoneAnew(b, s) && InvBut(s, X)
    requires s.owed == b.owed - Owe(c, b.cells[c].listeners) && Progressed(b, b.cells, s, lo, f)
    ensures forall d :: d in b.cells[c].listeners ==>
              s.notified[(c, d)] == b.notified[(c, d)] + multiset(b.cells[c].listeners)[d]
  {
    var ls := b.cells[c].listeners;
    assert Accounted(b.cells, b.registered, b.notified, b.owed) && Accounted(s.cells, s.registered, s.notified, s.owed);
    assert ListenersOk(b.cells, c) && Owe(c, ls) <= b.owed;
    assert SameButProgress(b.cells[c], s.cells[c]) && !s.cells[c].status.Empty?;
    hide InvWith, LiveBut, Accounted, Progressed;
    forall d | d in ls ensures s.notified[(c, d)] == b.notified[(c, d)] + multiset(ls)[d] {
      OweCounts(c, ls, (c, d));
      BalanceAt(b, c, d);
      BalanceAt(s, c, d);
    }
  }

  lemma BalanceAt(s: State, c: nat, d: nat)
    requires Accounted(s.cells, s.registered, s.notified, s.owed) && c < |s.cells| && !s.cells[c].status.Empty?
    ensures s.registered[(c, d)] == s.notified[(c, d)] + s.owed[(c, d)]
  {
  }

  lemma ProgressSinceSettled(s: State, c: nat, r: Status, s': State)
    requires c < |s.cells| == |s.hist|
    requires Progressed(Settled(s, c, r), SetStatus(s.cells, c, r), s', Reach(s, c).0, Reach(s, c).1)
    ensures Progressed(s, SetStatus(s.cells, c, r), s', Reach(s, c).0, Reach(s, c).1)
  {
  }

  /** A cell that has just settled may notify its listeners. */
  lemma SettledCanPropagate(s: State, c: nat, r: Status, X: set<nat>)
    requires CanSettle(s, c, r, X) && HasRoom(s, if s.cells[c].kind.Rpc? then 1 else 0)
    ensures c < |s.cells| == |s.hist| && CanPropagate(Settled(s, c, r), c, X)
    ensures Unsettled(Settled(s, c, r)) == Unsettled(s) - {c}
    ensures if s.cells[c].kind.Rpc? then Unsettled(Settled(s, c, r)) == Unsettled(s) else c in Unsettled(s)
    ensures Reach(Settled(s, c, r), c) == Reach(s, c)
  {
    SettledBase(s, c, r, X);
    SettledWaits(s, c, r, X);
    SettledRest(s, c, r, X);
    SetStatusKeepsLive(s.cells, s.hist, c, r, X, s.wiring, s.wired);
    if s.cells[c].kind.Rpc? && s.hist[c].bound.Some? {
      SettledAttempt(s, c, r, X);
    }
  }
}
