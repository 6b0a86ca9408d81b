/**
 * The reactive cells of one client, as values: what each cell computes from, what must always hold of it, and
 * what must hold of it once no update is owed to it. Cells refer to each other by position.
 */
module Cells {
  import opened RpcTypes

  /** CellStatus: empty, settled with a value, or settled with a failure. */
  datatype Status = Empty | Value(value: Val) | Error(reason: Reason)

  /** What a stub needs for one call. No payload when the request cannot be encoded. */
  datatype Outgoing = Outgoing(service: string, ifaceIndex: nat, methodIndex: nat,
                               payload: Option<bytes>, decode: bytes -> Option<Val>)

  /** What becomes of a call on its way out: no instance of the service, refused by the channel, or handed over. */
  datatype Delivery = Unresolved | Rejected | Accepted

  /** What the start function of a timeout cell yields: nothing yet, a failed cell, or a call to make. */
  datatype StartResult = Deferred | Fail(reason: Reason) | Call(out: Outgoing)

  datatype Kind =
    | Rpc(out: Option<Outgoing>)
    | Derived(inputs: seq<nat>, logic: seq<Status> -> Status)
    | Timeout(inputs: seq<nat>, start: seq<Status> -> StartResult, budget: nat)
    | Flag(owner: nat)
    | Bind(rpc: nat, target: nat)
    | Action(inputs: seq<nat>)
    | Final(result: nat)

  /** Who deletes a cell or action: nobody yet, a release list, the holder of a result, or a timeout cell. */
  datatype Owner = Loose | Listed | Result | FlagOf(cell: nat)

  datatype Cell = Cell(kind: Kind, status: Status, listeners: seq<nat>, ctx: nat, owner: Owner, alive: bool,
                       hasSeqId: bool, seqId: nat, retries: nat, started: bool, flag: Option<nat>, armed: bool)

  /**
   * History of a cell, for the proofs. For a timeout cell: the rpc cells of its attempts, and whether the start
   * function deferred a retry. For an rpc cell: the timeout cell it serves and its place among
   * the attempts, and the number of its call. For a flag or a final action: whether it was attached before the
   * cell it watches settled.
   */
  datatype History = History(attempts: seq<nat>, stalled: bool, bound: Option<nat>, slot: nat, call: nat,
                             early: bool)

  function Deps(k: Kind): seq<nat> {
    match k
    case Derived(inputs, _) => inputs
    case Timeout(inputs, _, _) => inputs
    case Bind(rpc, _) => [rpc]
    case Action(inputs) => inputs
    case Final(result) => [result]
    case _ => []
  }

  /** The cells that settle inside a propagation: all but rpc cells, which messages settle. */
  predicate IsGuarded(k: Kind) {
    k.Derived? || k.Timeout? || k.Flag?
  }

  /** The cell that an update of listener `l` can settle. */
  function Affects(cells: seq<Cell>, l: nat): nat
    requires l < |cells|
  {
    if cells[l].kind.Bind? then cells[l].kind.target else l
  }

  ghost predicate InRange(cells: seq<Cell>, inputs: seq<nat>) {
    forall k :: 0 <= k < |inputs| ==> inputs[k] < |cells|
  }

  function Args(cells: seq<Cell>, inputs: seq<nat>): (args: seq<Status>)
    requires InRange(cells, inputs)
    ensures |args| == |inputs| && forall k :: 0 <= k < |inputs| ==> args[k] == cells[inputs[k]].status
  {
    seq(|inputs|, k requires 0 <= k < |inputs| => cells[inputs[k]].status)
  }

  ghost predicate AnySettled(args: seq<Status>) {
    exists k :: 0 <= k < |args| && !args[k].Empty?
  }

  ghost predicate Touched(cells: seq<Cell>, inputs: seq<nat>)
    requires InRange(cells, inputs)
  {
    AnySettled(Args(cells, inputs))
  }

  /** `b` knows at least what `a` knows. */
  ghost predicate Refines(a: seq<Status>, b: seq<Status>) {
    |a| == |b| && forall k :: 0 <= k < |a| ==> a[k].Empty? || a[k] == b[k]
  }

  /** Once the logic of `n` inputs yields a result, inputs that settle later never change it. */
  ghost predicate Monotone(logic: seq<Status> -> Status, n: nat) {
    forall a, b :: |a| == n && Refines(a, b) && AnySettled(a) && !logic(a).Empty? ==> logic(b) == logic(a)
  }

  // ---------------------------------------------------------------- structure

  ghost predicate Before(inputs: seq<nat>, i: nat) {
    forall k :: 0 <= k < |inputs| ==> inputs[k] < i
  }

  ghost predicate KindOk(cells: seq<Cell>, i: nat)
    requires i < |cells|
  {
    && Before(Deps(cells[i].kind), i)
    && (cells[i].flag.Some? ==> cells[i].kind.Timeout?)
    && match cells[i].kind
       case Bind(rpc, target) => target < rpc < i && cells[rpc].kind.Rpc? && cells[target].kind.Timeout?
       case Flag(owner) => owner < i && cells[owner].kind.Timeout? && cells[owner].flag == Some(i)
       case Timeout(_, _, _) => cells[i].flag.Some? ==>
           i < cells[i].flag.value < |cells| && cells[cells[i].flag.value].kind.Flag?
           && cells[cells[i].flag.value].kind.owner == i
       case Final(result) => result < i
       case _ => true
  }

  ghost predicate ListenersOk(cells: seq<Cell>, i: nat)
    requires i < |cells|
  {
    forall l :: l in cells[i].listeners ==> i < l < |cells| && i in Deps(cells[l].kind)
  }

  ghost predicate Shape(cells: seq<Cell>) {
    forall i :: 0 <= i < |cells| ==> KindOk(cells, i) && ListenersOk(cells, i)
  }

  /** Node `i` listens to what its `k`-th dependency is on, if that is empty. */
  ghost predicate WiredDep(cells: seq<Cell>, i: nat, k: nat)
    requires i < |cells| && k < |Deps(cells[i].kind)|
  {
    var d := Deps(cells[i].kind)[k];
    d < |cells| && (cells[d].status.Empty? ==> i in cells[d].listeners)
  }

  /**
   * Everything that computes from an empty cell listens to it. The node `w` is exempt from its `wk`-th
   * dependency on: its constructor is still registering it.
   */
  ghost predicate Wired(cells: seq<Cell>, w: nat, wk: nat) {
    forall i, k :: 0 <= i < |cells| && 0 <= k < |Deps(cells[i].kind)| && (i == w ==> k < wk) ==> WiredDep(cells, i, k)
  }

  lemma WiredTo(cells: seq<Cell>, i: nat, k: nat, w: nat, wk: nat)
    requires Wired(cells, w, wk) && i < |cells| && k < |Deps(cells[i].kind)| && (i == w ==> k < wk)
    ensures WiredDep(cells, i, k)
  {
  }

  lemma WiredAt(cells: seq<Cell>, w: nat, wk: nat)
    requires forall i, k :: 0 <= i < |cells| && 0 <= k < |Deps(cells[i].kind)| && (i == w ==> k < wk) ==>
        WiredDep(cells, i, k)
    ensures Wired(cells, w, wk)
  {
  }

  lemma WiredKept(cells: seq<Cell>, cells': seq<Cell>, w: nat, wk: nat)
    requires Wired(cells, w, wk) && |cells'| == |cells|
    requires forall i :: 0 <= i < |cells| ==>
        cells'[i].kind == cells[i].kind && cells'[i].listeners == cells[i].listeners
        && (cells'[i].status.Empty? ==> cells[i].status.Empty?)
    ensures Wired(cells', w, wk)
  {
    hide Wired;
    forall i, k | 0 <= i < |cells'| && 0 <= k < |Deps(cells'[i].kind)| && (i == w ==> k < wk)
      ensures WiredDep(cells', i, k)
    {
      WiredTo(cells, i, k, w, wk);
    }
    WiredAt(cells', w, wk);
  }

  // ---------------------------------------------------------------- what always holds of a node

  ghost predicate DerivedBase(cells: seq<Cell>, i: nat)
    requires i < |cells| && KindOk(cells, i) && cells[i].kind.Derived?
  {
    var k := cells[i].kind;
    !cells[i].status.Empty? && Monotone(k.logic, |k.inputs|) ==>
      Touched(cells, k.inputs) && k.logic(Args(cells, k.inputs)) == cells[i].status
  }

  /** Every call of the start function so far gave an attempt: the first one and one for each retry used. */
  ghost predicate AllServed(cells: seq<Cell>, hist: seq<History>, t: nat)
    requires t < |cells| == |hist| && cells[t].kind.Timeout?
  {
    |hist[t].attempts| + cells[t].retries == 1 + cells[t].kind.budget
  }

  /** The last call of the start function gave none: it deferred or failed at once. */
  ghost predicate LastUnserved(cells: seq<Cell>, hist: seq<History>, t: nat)
    requires t < |cells| == |hist| && cells[t].kind.Timeout?
  {
    |hist[t].attempts| + cells[t].retries == cells[t].kind.budget
  }

  /** A timeout cell that gave up: every attempt it was allowed timed out. */
  ghost predicate Exhausted(cells: seq<Cell>, hist: seq<History>, t: nat)
    requires t < |cells| == |hist| && cells[t].kind.Timeout?
  {
    cells[t].status == Error(TimedOut) && AllServed(cells, hist, t)
  }

  ghost predicate AttemptsOk(cells: seq<Cell>, hist: seq<History>, t: nat)
    requires t < |cells| == |hist|
  {
    var a := hist[t].attempts;
    && (forall j :: 0 <= j < |a| ==>
         t < a[j] < |cells| && cells[a[j]].kind.Rpc? && hist[a[j]].bound == Some(t) && hist[a[j]].slot == j)
    && (forall j :: 0 <= j < |a| - 1 ==> cells[a[j]].status == Error(TimedOut))
  }

  ghost predicate TimeoutBase(cells: seq<Cell>, hist: seq<History>, t: nat)
    requires t < |cells| == |hist| && cells[t].kind.Timeout?
  {
    var c, h := cells[t], hist[t];
    var n := |h.attempts|;
    && AttemptsOk(cells, hist, t)
    && c.retries <= c.kind.budget
    && (!c.started ==> n == 0 && c.retries == c.kind.budget && c.status.Empty?)
    && (c.started ==> AllServed(cells, hist, t) || LastUnserved(cells, hist, t))
    && (LastUnserved(cells, hist, t) && n > 0 ==> cells[h.attempts[n - 1]].status == Error(TimedOut))
    && (h.stalled ==> c.started && c.status.Empty? && LastUnserved(cells, hist, t))
    && (!c.status.Empty? && LastUnserved(cells, hist, t) ==> c.status.Error?)
    && (!c.status.Empty? && AllServed(cells, hist, t) ==>
         n > 0 && c.status == cells[h.attempts[n - 1]].status && (c.status == Error(TimedOut) ==> c.retries == 0))
  }

  ghost predicate RpcBase(cells: seq<Cell>, hist: seq<History>, i: nat)
    requires i < |cells| == |hist| && cells[i].kind.Rpc?
  {
    match hist[i].bound
    case Some(t) => t < i && cells[t].kind.Timeout?
        && hist[i].slot < |hist[t].attempts| && hist[t].attempts[hist[i].slot] == i
        && |cells[i].listeners| == 1 && cells[i].listeners[0] < |cells|
        && cells[cells[i].listeners[0]].kind == Bind(i, t)
    case None => forall l :: l in cells[i].listeners ==> l < |cells| && !cells[l].kind.Bind?
  }

  ghost predicate FlagBase(cells: seq<Cell>, hist: seq<History>, f: nat)
    requires f < |cells| == |hist| && KindOk(cells, f) && cells[f].kind.Flag?
  {
    && (cells[cells[f].kind.owner].status.Empty? ==> hist[f].early)
    && (!cells[f].status.Empty? ==> cells[f].status == Value(VBool(true)) && hist[f].early
                                    && Exhausted(cells, hist, cells[f].kind.owner))
  }

  /** A final action runs only if its result was empty when it was attached; otherwise nothing will notify it. */
  ghost predicate FinalBase(cells: seq<Cell>, hist: seq<History>, l: nat)
    requires l < |cells| == |hist| && KindOk(cells, l) && cells[l].kind.Final?
  {
    var r := cells[l].kind.result;
    && (cells[l].started ==> hist[l].early && cells[l].armed && !cells[r].status.Empty?)
    && (!hist[l].early ==> !cells[r].status.Empty? && l !in cells[r].listeners)
  }

  ghost predicate NodeBase(cells: seq<Cell>, hist: seq<History>, i: nat)
    requires i < |cells| == |hist| && KindOk(cells, i)
  {
    match cells[i].kind
    case Derived(_, _) => DerivedBase(cells, i)
    case Timeout(_, _, _) => TimeoutBase(cells, hist, i)
    case Rpc(_) => RpcBase(cells, hist, i)
    case Flag(_) => FlagBase(cells, hist, i)
    case Final(_) => FinalBase(cells, hist, i)
    case _ => true
  }

  ghost predicate Base(cells: seq<Cell>, hist: seq<History>) {
    && |cells| == |hist|
    && Shape(cells)
    && forall i :: 0 <= i < |cells| ==> NodeBase(cells, hist, i)
  }

  // ---------------------------------------------------------------- what holds once no update is owed

  ghost predicate Live(cells: seq<Cell>, hist: seq<History>, i: nat)
    requires i < |cells| == |hist| && KindOk(cells, i)
  {
    var c := cells[i];
    match c.kind
    case Derived(inputs, logic) =>
      c.status.Empty? && Touched(cells, inputs) ==> logic(Args(cells, inputs)).Empty?
    case Timeout(inputs, start, _) =>
      !c.started && (inputs == [] || Touched(cells, inputs)) ==> start(Args(cells, inputs)).Deferred?
    case Flag(owner) =>
      hist[i].early && Exhausted(cells, hist, owner) ==> !c.status.Empty?
    case Final(result) =>
      c.armed && hist[i].early && !cells[result].status.Empty? ==> c.started
    case _ => true
  }

  /** A started timeout cell without outcome waits for its last attempt, unless a retry was deferred. */
  ghost predicate Waits(cells: seq<Cell>, hist: seq<History>, t: nat)
    requires t < |cells| == |hist|
  {
    cells[t].kind.Timeout? && cells[t].started && cells[t].status.Empty? ==>
      var a := hist[t].attempts;
      |a| > 0 && (!hist[t].stalled ==>
        AllServed(cells, hist, t) && a[|a| - 1] < |cells| && cells[a[|a| - 1]].status.Empty?)
  }

  /** Every node outside `X` is up to date. */
  ghost predicate LiveBut(cells: seq<Cell>, hist: seq<History>, X: set<nat>)
    requires |cells| == |hist| && Shape(cells)
  {
    forall i :: 0 <= i < |cells| && i !in X ==> Live(cells, hist, i)
  }

  function Elements(ls: seq<nat>): set<nat> {
    set l | l in ls
  }

  /** The start function makes a call that can be encoded, on inputs of which one has settled if there are any. */
  ghost predicate StartsCall(start: seq<Status> -> StartResult, a: seq<Status>) {
    (a == [] || AnySettled(a)) && start(a).Call? && start(a).out.payload.Some?
  }

  /** The start function of `t` made a call on what its inputs were at some time. */
  ghost predicate HasCalled(cells: seq<Cell>, t: nat)
    requires t < |cells| && cells[t].kind.Timeout?
  {
    && InRange(cells, cells[t].kind.inputs)
    && exists a :: Refines(a, Args(cells, cells[t].kind.inputs)) && StartsCall(cells[t].kind.start, a)
  }

  /** The start function makes a call on `a`, and defers on the same inputs when more of them have settled. */
  ghost predicate BalksBetween(start: seq<Status> -> StartResult, a: seq<Status>, b: seq<Status>) {
    Refines(a, b) && StartsCall(start, a) && start(b).Deferred?
  }

  /** After a call the start function of `t` deferred, when its inputs were what they were then or knew more. */
  ghost predicate HasBalked(cells: seq<Cell>, t: nat)
    requires t < |cells| && cells[t].kind.Timeout?
  {
    && InRange(cells, cells[t].kind.inputs)
    && exists a, b :: BalksBetween(cells[t].kind.start, a, b) && Refines(b, Args(cells, cells[t].kind.inputs))
  }

  /**
   * Attempts are made only by the start function, and a retry stalled only because that function deferred although it
   * had made a call before; for `retrying` this is still open.
   */
  ghost predicate StallOk(cells: seq<Cell>, hist: seq<History>, t: nat, retrying: Option<nat>)
    requires t < |cells| == |hist|
  {
    cells[t].kind.Timeout? ==>
      && (hist[t].attempts != [] ==> HasCalled(cells, t))
      && (hist[t].stalled && retrying != Some(t) ==> HasBalked(cells, t))
  }

  ghost predicate StallsOk(cells: seq<Cell>, hist: seq<History>, retrying: Option<nat>) {
    |cells| == |hist| && forall t :: 0 <= t < |cells| ==> StallOk(cells, hist, t, retrying)
  }

  /** Inputs only settle, no attempt comes uncalled for, and nothing stalls anew but a retry that is still open. */
  ghost predicate SameStalls(cells: seq<Cell>, hist: seq<History>, retrying: Option<nat>,
                             cells': seq<Cell>, hist': seq<History>, retrying': Option<nat>) {
    && |cells| == |hist| <= |cells'| == |hist'|
    && (forall t :: 0 <= t < |cells| ==>
          && cells'[t].kind == cells[t].kind && (cells[t].status.Empty? || cells'[t].status == cells[t].status)
          && (cells[t].kind.Timeout? && hist'[t].attempts != [] ==> hist[t].attempts != [] || HasCalled(cells, t))
          && (hist'[t].stalled && retrying' != Some(t) ==> hist[t].stalled && retrying != Some(t)))
    && (forall t :: |cells| <= t < |cells'| ==> !hist'[t].stalled && hist'[t].attempts == [])
  }

  lemma StallsKept(cells: seq<Cell>, hist: seq<History>, retrying: Option<nat>,
                   cells': seq<Cell>, hist': seq<History>, retrying': Option<nat>)
    requires StallsOk(cells, hist, retrying) && SameStalls(cells, hist, retrying, cells', hist', retrying')
    ensures StallsOk(cells', hist', retrying')
  {
    forall t | 0 <= t < |cells'| ensures StallOk(cells', hist', t, retrying') {
      if t < |cells| && cells[t].kind.Timeout? {
        assert StallOk(cells, hist, t, retrying);
        InputsOnlySettle(cells, cells', t);
      }
    }
  }

  lemma InputsOnlySettle(cells: seq<Cell>, cells': seq<Cell>, t: nat)
    requires t < |cells| <= |cells'| && cells[t].kind.Timeout? && cells'[t].kind == cells[t].kind
    requires forall i :: 0 <= i < |cells| ==> cells[i].status.Empty? || cells'[i].status == cells[i].status
    ensures HasCalled(cells, t) ==> HasCalled(cells', t)
    ensures HasBalked(cells, t) ==> HasBalked(cells', t)
  {
    hide StartsCall, BalksBetween;
    var inputs, start := cells[t].kind.inputs, cells[t].kind.start;
    if HasCalled(cells, t) {
      var a :| Refines(a, Args(cells, inputs)) && StartsCall(start, a);
      assert Refines(a, Args(cells', inputs));
    }
    if HasBalked(cells, t) {
      var a, b :| BalksBetween(start, a, b) && Refines(b, Args(cells, inputs));
      assert Refines(b, Args(cells', inputs));
    }
  }

  /** The start function makes a call now. */
  lemma CallsNow(cells: seq<Cell>, t: nat)
    requires t < |cells| && cells[t].kind.Timeout? && InRange(cells, cells[t].kind.inputs)
    requires StartsCall(cells[t].kind.start, Args(cells, cells[t].kind.inputs))
    ensures HasCalled(cells, t)
  {
    var args := Args(cells, cells[t].kind.inputs);
    assert Refines(args, args);
  }

  /** A cell with an attempt whose start function defers now. */
  lemma BalksNow(cells: seq<Cell>, t: nat)
    requires t < |cells| && cells[t].kind.Timeout? && HasCalled(cells, t)
    requires cells[t].kind.start(Args(cells, cells[t].kind.inputs)).Deferred?
    ensures HasBalked(cells, t)
  {
    hide StartsCall;
    var args := Args(cells, cells[t].kind.inputs);
    assert Refines(args, args);
    var a :| Refines(a, args) && StartsCall(cells[t].kind.start, a);
    assert BalksBetween(cells[t].kind.start, a, args);
  }

  // ---------------------------------------------------------------- settling one cell

  function SetStatus(cells: seq<Cell>, c: nat, r: Status): seq<Cell>
    requires c < |cells|
  {
    cells[c := cells[c].(status := r)]
  }

  /** Settling an empty cell refines what every other node sees. */
  lemma SettledArgsRefine(cells: seq<Cell>, c: nat, r: Status, inputs: seq<nat>)
    requires c < |cells| && cells[c].status.Empty? && InRange(cells, inputs)
    ensures Refines(Args(cells, inputs), Args(SetStatus(cells, c, r), inputs))
    ensures c !in inputs ==> Args(cells, inputs) == Args(SetStatus(cells, c, r), inputs)
  {
  }

  lemma SetStatusKeepsShape(cells: seq<Cell>, c: nat, r: Status)
    requires Shape(cells) && c < |cells|
    ensures Shape(SetStatus(cells, c, r))
  {
    var cells' := SetStatus(cells, c, r);
    forall i | 0 <= i < |cells'| ensures KindOk(cells', i) && ListenersOk(cells', i) {
      assert KindOk(cells, i) && ListenersOk(cells, i);
    }
  }

  /** Settling an empty cell keeps what always holds of every other node. */
  lemma SetStatusKeepsBase(cells: seq<Cell>, hist: seq<History>, c: nat, r: Status, i: nat)
    requires Base(cells, hist) && c < |cells| && cells[c].status.Empty? && !r.Empty?
    requires i < |cells| && i != c
    ensures Shape(SetStatus(cells, c, r)) && NodeBase(SetStatus(cells, c, r), hist, i)
  {
    var cells' := SetStatus(cells, c, r);
    SetStatusKeepsShape(cells, c, r);
    assert KindOk(cells, i) && NodeBase(cells, hist, i);
    match cells[i].kind
    case Derived(inputs, logic) =>
      SettledArgsRefine(cells, c, r, inputs);
    case Timeout(_, _, _) =>
      assert TimeoutBase(cells, hist, i);
    case _ =>
  }

  /** When settling `c` with `r` exhausts it, a flag requested before is in `X`: it still has to be set. */
  ghost predicate FlagExcused(cells: seq<Cell>, hist: seq<History>, c: nat, r: Status, X: set<nat>)
    requires c < |cells| == |hist|
  {
    cells[c].kind.Timeout? && cells[c].flag.Some? && r == Error(TimedOut) && AllServed(cells, hist, c) ==>
      cells[c].flag.value in X
  }

  /** Settling an empty cell leaves up to date every node that does not listen to it. */
  lemma SetStatusKeepsLive(cells: seq<Cell>, hist: seq<History>, c: nat, r: Status, X: set<nat>, w: nat, wk: nat)
    requires Base(cells, hist) && LiveBut(cells, hist, X + {c}) && Wired(cells, w, wk)
    requires c < |cells| && cells[c].status.Empty? && !r.Empty? && !cells[c].kind.Final?
    requires Base(SetStatus(cells, c, r), hist)
    requires w < |cells| ==> w <= c
    requires FlagExcused(cells, hist, c, r, X)
    ensures Wired(SetStatus(cells, c, r), w, wk)
    ensures LiveBut(SetStatus(cells, c, r), hist, X + Elements(cells[c].listeners))
  {
    var cells' := SetStatus(cells, c, r);
    var ls := cells[c].listeners;
    WiredKept(cells, cells', w, wk);
    forall i | 0 <= i < |cells'| && i !in X + Elements(ls) ensures Live(cells', hist, i) {
      assert KindOk(cells, i) && KindOk(cells', i) && NodeBase(cells, hist, i) && NodeBase(cells', hist, i);
      assert i != c ==> Live(cells, hist, i);
      NotListening(cells, c, i, w, wk);
      match cells[i].kind
      case Derived(inputs, logic) =>
        SettledArgsRefine(cells, c, r, inputs);
      case Timeout(inputs, start, _) =>
        SettledArgsRefine(cells, c, r, inputs);
      case Final(result) =>
        assert Deps(cells[i].kind)[0] == result;
      case _ =>
    }
  }

  /** A node that does not listen to the empty cell `c` does not compute from it. */
  lemma NotListening(cells: seq<Cell>, c: nat, i: nat, w: nat, wk: nat)
    requires Shape(cells) && Wired(cells, w, wk) && c < |cells| && i < |cells| && cells[c].status.Empty?
    requires (w < |cells| ==> w <= c) && i !in cells[c].listeners
    ensures c !in Deps(cells[i].kind)
  {
    assert KindOk(cells, i);
    forall k | 0 <= k < |Deps(cells[i].kind)| && (i == w ==> k < wk) ensures Deps(cells[i].kind)[k] != c {
      WiredTo(cells, i, k, w, wk);
    }
  }

  /** The only attempt that can still be empty is the last one of a timeout cell that waits for it. */
  lemma EmptyAttemptIsLast(cells: seq<Cell>, hist: seq<History>, a: nat, t: nat)
    requires Base(cells, hist) && a < |cells| && t < |cells|
    requires cells[a].kind.Rpc? && hist[a].bound == Some(t) && cells[a].status.Empty?
    ensures cells[t].kind.Timeout? && cells[t].started && cells[t].status.Empty? && t < a
    ensures !hist[t].stalled && AllServed(cells, hist, t)
    ensures |hist[t].attempts| > 0 && hist[t].attempts[|hist[t].attempts| - 1] == a
    ensures |cells[a].listeners| == 1 && cells[a].listeners[0] < |cells|
    ensures cells[cells[a].listeners[0]].kind == Bind(a, t)
  {
    assert KindOk(cells, a) && KindOk(cells, t) && NodeBase(cells, hist, a) && NodeBase(cells, hist, t);
    assert AttemptsOk(cells, hist, t);
  }

  // ---------------------------------------------------------------- steps that settle nothing

  /** What nodes see of each other from one state to the next: nothing that could matter to them changes. */
  ghost predicate SameView(cells: seq<Cell>, hist: seq<History>, cells': seq<Cell>, hist': seq<History>) {
    && |cells| == |hist| <= |cells'| == |hist'|
    && forall j :: 0 <= j < |cells| ==>
         && cells'[j].kind == cells[j].kind && cells'[j].status == cells[j].status
         && (cells[j].flag.Some? ==> cells'[j].flag == cells[j].flag)
         && hist'[j].early == hist[j].early && hist[j].attempts <= hist'[j].attempts
         && (hist[j].bound.Some? ==> hist'[j].bound == hist[j].bound && hist'[j].slot == hist[j].slot)
         && (!cells[j].status.Empty? ==>
               hist'[j].attempts == hist[j].attempts && cells'[j].retries == cells[j].retries)
  }

  /** Node `i` itself changes at most in its sequence id, its owner, whether it lives, and who listens to it. */
  ghost predicate SameNode(cells: seq<Cell>, hist: seq<History>, cells': seq<Cell>, hist': seq<History>, i: nat)
    requires i < |cells| == |hist| && |cells| <= |cells'| == |hist'|
  {
    && cells'[i].(hasSeqId := cells[i].hasSeqId, seqId := cells[i].seqId, owner := cells[i].owner,
                  alive := cells[i].alive, listeners := cells[i].listeners) == cells[i]
    && hist'[i].(call := hist[i].call) == hist[i]
    && (forall l :: l in cells'[i].listeners && l !in cells[i].listeners ==>
          i < l < |cells'| && i in Deps(cells'[l].kind) && !cells'[l].kind.Bind?)
    && (cells[i].kind.Rpc? && hist[i].bound.Some? ==> cells'[i].listeners == cells[i].listeners)
    && (cells[i].kind.Final? && cells[i].kind.result < |cells| && !cells[cells[i].kind.result].status.Empty? ==>
          cells'[cells[i].kind.result].listeners == cells[cells[i].kind.result].listeners)
  }

  /** What holds of a node goes on to hold of it when neither it nor its view changes. */
  lemma UnaffectedNode(cells: seq<Cell>, hist: seq<History>, cells': seq<Cell>, hist': seq<History>, i: nat)
    requires Base(cells, hist) && SameView(cells, hist, cells', hist')
    requires i < |cells| && SameNode(cells, hist, cells', hist', i)
    ensures KindOk(cells', i) && ListenersOk(cells', i) && NodeBase(cells', hist', i)
    ensures Live(cells, hist, i) ==> Live(cells', hist', i)
    ensures Waits(cells, hist, i) ==> Waits(cells', hist', i)
  {
    hide Monotone;
    assert KindOk(cells, i) && ListenersOk(cells, i) && NodeBase(cells, hist, i);
    assert Before(Deps(cells[i].kind), i) ==> Args(cells, Deps(cells[i].kind)) == Args(cells', Deps(cells'[i].kind));
    if cells[i].kind.Timeout? {
      UnaffectedTimeout(cells, hist, cells', hist', i);
    }
  }

  lemma UnaffectedTimeout(cells: seq<Cell>, hist: seq<History>, cells': seq<Cell>, hist': seq<History>, i: nat)
    requires Base(cells, hist) && SameView(cells, hist, cells', hist')
    requires i < |cells| && SameNode(cells, hist, cells', hist', i) && cells[i].kind.Timeout?
    ensures TimeoutBase(cells', hist', i)
    ensures Waits(cells, hist, i) ==> Waits(cells', hist', i)
  {
    assert KindOk(cells, i) && NodeBase(cells, hist, i) && AttemptsOk(cells, hist, i);
    assert AttemptsOk(cells', hist', i);
  }
}
