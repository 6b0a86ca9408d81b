/**
 * A client, the services it calls, and a network that loses, duplicates and reorders messages at will: whatever
 * was sent may be received at any later time, any number of times, or never.
 */
module EndToEnd {
  import opened RpcTypes
  import opened SequenceIds
  import opened Cells
  import opened ClientState
  import opened ClientSteps
  import opened ClientDispatch
  import opened ClientProperties
  import opened ClientRuns
  import opened Server

  /** The client `me`, and servers: the j-th is an instance of the service named `names[j]`. */
  datatype World = World(client: State, me: nat, names: seq<string>, servers: seq<ServerState>)

  // ---------------------------------------------------------------- steps

  /** User code builds cells, makes calls, binds results. */
  ghost predicate UserStep(w: World, w': World) {
    Quiescent(w'.client) && Quiet(w.client, w'.client) && w' == w.(client := w'.client)
  }

  /** A timeout message is handled, or dropped by the filter of cancelled timers. */
  ghost predicate TimeoutStep(w: World, w': World, id: nat) {
    && Quiescent(w'.client) && w' == w.(client := w'.client)
    && exists filters: bool :: TakesTimeout(w.client, w'.client, id, filters)
  }

  /** Server `j` receives a request: one this client has sent to its service, or anything from other clients. */
  ghost predicate ReceiveStep(w: World, w': World, j: nat, client: nat, q: Request, h: HandlerResult) {
    && j < |w.servers| == |w.names|
    && (client == w.me ==> Sent(w.names[j], q) in w.client.sent)
    && w' == w.(servers := w.servers[j := Received(w.servers[j], client, q, h)])
  }

  /** The cell that a handler returned settles. */
  ghost predicate FinishStep(w: World, w': World, j: nat, n: nat, status: Status) {
    && j < |w.servers| && n < |w.servers[j].served| && w.servers[j].served[n].stage.Running? && !status.Empty?
    && w' == w.(servers := w.servers[j := Finished(w.servers[j], n, status)])
  }

  /** The response answers a call less than one cycle of ids ago: no message outlives a cycle. */
  ghost predicate Fresh(w: World, j: nat, r: Reply)
    requires j < |w.servers| == |w.names| && r.origin < |w.servers[j].served|
  {
    exists i :: 0 <= i < |w.client.sent| && i < |w.client.sentCalls|
                && w.client.sent[i] == Sent(w.names[j], w.servers[j].served[r.origin].request)
                && |w.client.calls| - w.client.sentCalls[i] < CYCLE
  }

  /** The `k`-th response of server `j` reaches the client, however old it is. */
  ghost predicate DeliverAny(w: World, w': World, j: nat, k: nat) {
    && j < |w.servers| == |w.names| && k < |w.servers[j].sent|
    && var r := w.servers[j].sent[k];
    && r.client == w.me && r.origin < |w.servers[j].served|
    && Quiescent(w'.client) && w' == w.(client := w'.client)
    && TakesResponse(w.client, w'.client, r.response.header.seqId, r.response.result, r.response.payload)
  }

  /** It does so within a cycle of ids. */
  ghost predicate DeliverStep(w: World, w': World, j: nat, k: nat) {
    DeliverAny(w, w', j, k) && Fresh(w, j, w.servers[j].sent[k])
  }

  ghost predicate Step(w: World, w': World) {
    || UserStep(w, w')
    || (exists id :: TimeoutStep(w, w', id))
    || (exists j, client, q, h :: ReceiveStep(w, w', j, client, q, h))
    || (exists j, n, status :: FinishStep(w, w', j, n, status))
    || (exists j, k :: DeliverStep(w, w', j, k))
  }

  // ---------------------------------------------------------------- the invariant

  /** Every request that server `j` has from this client is one that the client sent to its service. */
  ghost predicate OwnRequests(w: World, j: nat)
    requires j < |w.servers| == |w.names|
  {
    forall n :: 0 <= n < |w.servers[j].served| && w.servers[j].served[n].client == w.me ==>
      Sent(w.names[j], w.servers[j].served[n].request) in w.client.sent
  }

  /** The `n`-th request that server `j` has served is the one sent for rpc cell `c`, field by field. */
  ghost predicate Reached(w: World, c: nat, j: nat, n: nat) {
    && c < |w.client.cells| == |w.client.hist| && w.client.cells[c].kind.Rpc? && w.client.cells[c].kind.out.Some?
    && j < |w.servers| == |w.names| && n < |w.servers[j].served|
    && var x, out := w.servers[j].served[n], w.client.cells[c].kind.out.value;
    && x.client == w.me && w.names[j] == out.service && out.payload == Some(x.request.payload)
    && 0 < w.client.hist[c].call && x.request.header.seqId == IdOf(w.client.hist[c].call)
    && x.request.header.ifaceIndex == out.ifaceIndex && x.request.header.methodIndex == out.methodIndex
  }

  /** The server has the method that rpc cell `c` calls. */
  ghost predicate Offers(w: World, c: nat, j: nat)
    requires c < |w.client.cells| && w.client.cells[c].kind.Rpc? && w.client.cells[c].kind.out.Some? && j < |w.servers|
  {
    var out, ifaces := w.client.cells[c].kind.out.value, w.servers[j].ifaces;
    out.ifaceIndex in ifaces && out.methodIndex in ifaces[out.ifaceIndex]
  }

  /** It read the request for rpc cell `c`, and what it wrote for the value of its handler's cell decodes to `v`. */
  ghost predicate ProducedBy(w: World, c: nat, v: Val, j: nat, n: nat) {
    && Reached(w, c, j, n) && Offers(w, c, j)
    && var x, out := w.servers[j].served[n], w.client.cells[c].kind.out.value;
    var m := w.servers[j].ifaces[out.ifaceIndex][out.methodIndex];
    && m.decode(out.payload.value).Some? && x.stage.Answered? && Yields(x, x.stage.result)
    && m.write(x.stage.result) !in {None, Some([])} && out.decode(m.write(x.stage.result).value) == Some(v)
  }

  ghost predicate Genuine(w: World, c: nat, v: Val) {
    exists j, n :: ProducedBy(w, c, v, j, n)
  }

  /**
   * The reason for which the call of rpc cell `c` failed: the interface or the method does not exist; or the request
   * was not read, the handler returned no cell or a value that was not written; or the client does not read the answer.
   */
  ghost predicate RefusedBy(w: World, c: nat, reason: Reason, j: nat, n: nat) {
    && Reached(w, c, j, n)
    && var x, out, ifaces := w.servers[j].served[n], w.client.cells[c].kind.out.value, w.servers[j].ifaces;
    if out.ifaceIndex !in ifaces then reason == IfaceNotFound
    else if out.methodIndex !in ifaces[out.ifaceIndex] then reason == MethodNotFound
    else
      var m := ifaces[out.ifaceIndex][out.methodIndex];
      && reason == Failed
      && (|| m.decode(out.payload.value).None? || x.handler.NoCell?
          || (x.handler.status.Value? && m.write(x.handler.status.value) in {None, Some([])})
          || (x.stage.Answered? && Yields(x, x.stage.result) && m.write(x.stage.result).Some?
              && out.decode(m.write(x.stage.result).value).None?))
  }

  /** An rpc cell that has failed otherwise than by a timeout has failed for the reason its server gave. */
  ghost predicate Founded(w: World, c: nat, reason: Reason) {
    exists j, n :: RefusedBy(w, c, reason, j, n)
  }

  /**
   * The outcome of rpc cell `c`, if it has one other than a timeout, is what a server made of exactly the request
   * sent for it.
   */
  ghost predicate Justified(w: World, c: nat)
    requires c < |w.client.cells|
  {
    var x := w.client.cells[c];
    && (x.kind.Rpc? && x.status.Value? ==> Genuine(w, c, x.status.value))
    && (x.kind.Rpc? && x.kind.out.Some? && x.status.Error? && x.status.reason != TimedOut ==>
          Founded(w, c, x.status.reason))
  }

  ghost predicate WorldOk(w: World) {
    && Quiescent(w.client) && |w.names| == |w.servers|
    && (forall j :: 0 <= j < |w.servers| ==> ServerOk(w.servers[j]) && OwnRequests(w, j))
    && (forall c :: 0 <= c < |w.client.cells| ==> Justified(w, c))
  }

  // ---------------------------------------------------------------- every step keeps it

  lemma ProducedStays(w: World, w': World, c: nat, v: Val, j: nat, n: nat)
    requires ProducedBy(w, c, v, j, n) && |w'.servers| == |w.servers| && w'.names == w.names && w'.me == w.me
    requires ServesOn(w.servers[j], w'.servers[j])
    requires Evolves(w.client, w'.client) && |w'.client.cells| == |w'.client.hist|
    ensures ProducedBy(w', c, v, j, n)
  {
  }

  lemma RefusalStays(w: World, w': World, c: nat, reason: Reason, j: nat, n: nat)
    requires RefusedBy(w, c, reason, j, n) && |w'.servers| == |w.servers| && w'.names == w.names && w'.me == w.me
    requires ServesOn(w.servers[j], w'.servers[j])
    requires Evolves(w.client, w'.client) && |w'.client.cells| == |w'.client.hist|
    ensures RefusedBy(w', c, reason, j, n)
  {
  }

  lemma JustifiedStays(w: World, w': World, c: nat)
    requires c < |w.client.cells| <= |w'.client.cells| == |w'.client.hist| && Justified(w, c)
    requires |w'.servers| == |w.servers| && w'.names == w.names && w'.me == w.me && Evolves(w.client, w'.client)
    requires forall j :: 0 <= j < |w.servers| ==> ServesOn(w.servers[j], w'.servers[j])
    requires w.client.cells[c].kind.Rpc? ==> w'.client.cells[c].status == w.client.cells[c].status
    ensures Justified(w', c)
  {
    var x := w.client.cells[c];
    assert Evolved(x, w'.client.cells[c]);
    if x.kind.Rpc? && x.status.Value? {
      var j, n :| ProducedBy(w, c, x.status.value, j, n);
      ProducedStays(w, w', c, x.status.value, j, n);
    }
    if x.kind.Rpc? && x.kind.out.Some? && x.status.Error? && x.status.reason != TimedOut {
      var j, n :| RefusedBy(w, c, x.status.reason, j, n);
      RefusalStays(w, w', c, x.status.reason, j, n);
    }
  }

  lemma ClientStepKeepsOk(w: World, w': World, id: Option<nat>)
    requires WorldOk(w) && Quiescent(w'.client) && w' == w.(client := w'.client) && Evolves(w.client, w'.client)
    requires id.Some? ==> id.value in w.client.idFuncMap && w.client.idFuncMap[id.value] < |w.client.cells|
    requires OthersUnsettled(w.client, w'.client, if id.Some? then Some(w.client.idFuncMap[id.value]) else None)
    requires id.Some? ==> Justified(w', w.client.idFuncMap[id.value])
    ensures WorldOk(w')
  {
    forall j | 0 <= j < |w'.servers| ensures OwnRequests(w', j) {
      assert OwnRequests(w, j);
    }
    forall c | 0 <= c < |w'.client.cells| ensures Justified(w', c) {
      if c < |w.client.cells| && (id.None? || c != w.client.idFuncMap[id.value]) {
        JustifiedStays(w, w', c);
      }
    }
  }

  lemma ServerStepKeepsOk(w: World, w': World, j: nat)
    requires WorldOk(w) && j < |w.servers| == |w'.servers| && w' == w.(servers := w.servers[j := w'.servers[j]])
    requires ServerOk(w'.servers[j]) && ServesOn(w.servers[j], w'.servers[j])
    requires OwnRequests(w', j)
    ensures WorldOk(w')
  {
    forall i | 0 <= i < |w'.servers| ensures ServerOk(w'.servers[i]) && OwnRequests(w', i) {
      assert i != j ==> OwnRequests(w, i) && w'.servers[i] == w.servers[i];
    }
    assert Evolves(w.client, w.client);
    forall c | 0 <= c < |w'.client.cells| ensures Justified(w', c) {
      JustifiedStays(w, w', c);
    }
  }

  /** A response taken by the cell of a registered call answers exactly the request of that call. */
  lemma AnswerIsOwn(w: World, j: nat, k: nat, id: nat)
    requires WorldOk(w) && j < |w.servers| && k < |w.servers[j].sent|
    requires var r := w.servers[j].sent[k];
             && r.client == w.me && r.origin < |w.servers[j].served| && Fresh(w, j, r)
             && r.response.header.seqId == id
    requires id in w.client.idFuncMap
    ensures |w.client.cells| == |w.client.hist| && w.client.idFuncMap[id] < |w.client.cells|
    ensures OutOf(w.client, id).Some? && OutOf(w.client, id).value.payload.Some?
    ensures var c, x := w.client.idFuncMap[id], w.servers[j].served[w.servers[j].sent[k].origin];
            && 0 < w.client.hist[c].call
            && Sent(w.names[j], x.request) == RequestOf(OutOf(w.client, id).value, w.client.hist[c].call)
  {
    var r := w.servers[j].sent[k];
    AnswerMatchesRequest(w.servers[j], k);
    var i :| 0 <= i < |w.client.sent| && i < |w.client.sentCalls|
             && w.client.sent[i] == Sent(w.names[j], w.servers[j].served[r.origin].request)
             && |w.client.calls| - w.client.sentCalls[i] < CYCLE;
    OwnRequest(w.client, id, i);
  }

  /** A recent request with the id of a registered call is the request of that call. */
  lemma OwnRequest(s: State, id: nat, i: nat)
    requires Quiescent(s) && id in s.idFuncMap && i < |s.sent| && i < |s.sentCalls|
    requires s.sent[i].request.header.seqId == id && |s.calls| - s.sentCalls[i] < CYCLE
    ensures |s.cells| == |s.hist| && s.idFuncMap[id] < |s.cells|
    ensures OutOf(s, id).Some? && OutOf(s, id).value.payload.Some? && 0 < s.hist[s.idFuncMap[id]].call
    ensures s.sent[i] == RequestOf(OutOf(s, id).value, s.hist[s.idFuncMap[id]].call)
  {
    RegisteredWaits(s, id);
    assert SentFor(s.cells, s.calls, s.sent[i], s.sentCalls[i]);
    SameCall(s.hist[s.idFuncMap[id]].call, s.sentCalls[i], |s.calls|);
  }

  lemma SameCall(n: nat, m: nat, calls: nat)
    requires 0 < n <= calls && 0 < m <= calls && calls - n < CYCLE && calls - m < CYCLE && IdOf(n) == IdOf(m)
    ensures n == m
  {
    if n < m { RecentIdsDiffer(n, m); } else if m < n { RecentIdsDiffer(m, n); }
  }

  lemma DeliveryIsJustified(w: World, w': World, j: nat, k: nat, id: nat)
    requires WorldOk(w) && DeliverStep(w, w', j, k) && id == w.servers[j].sent[k].response.header.seqId
    requires id in w.client.idFuncMap && w.client.idFuncMap[id] < |w.client.cells| && OutOf(w.client, id).Some?
    requires |w'.client.cells| == |w'.client.hist|
    ensures w.client.idFuncMap[id] < |w'.client.cells| && Justified(w', w.client.idFuncMap[id])
  {
    hide Quiescent, ServerOk, Fresh, IdOf, OwnRequests;
    var c, r := w.client.idFuncMap[id], w.servers[j].sent[k];
    AnswerIsOwn(w, j, k, id);
    AnswerMatchesRequest(w.servers[j], k);
    hide WorldOk;
    assert Evolved(w.client.cells[c], w'.client.cells[c]);
    assert Reached(w', c, j, r.origin);
    var status := w'.client.cells[c].status;
    if status.Value? {
      assert ProducedBy(w', c, status.value, j, r.origin);
    }
    if status.Error? && status.reason != TimedOut {
      assert RefusedBy(w', c, status.reason, j, r.origin);
    }
  }

  lemma DeliverKeepsOk(w: World, w': World, j: nat, k: nat)
    requires WorldOk(w) && DeliverStep(w, w', j, k)
    ensures WorldOk(w')
  {
    var id := w.servers[j].sent[k].response.header.seqId;
    if id in w.client.idFuncMap && w.client.idFuncMap[id] < |w.client.cells| && OutOf(w.client, id).Some? {
      DeliveryIsJustified(w, w', j, k, id);
      hide Quiescent, WorldOk;
      ClientStepKeepsOk(w, w', Some(id));
    }
  }

  lemma ReceiveStepKeepsOk(w: World, w': World, j: nat, client: nat, q: Request, h: HandlerResult)
    requires WorldOk(w) && ReceiveStep(w, w', j, client, q, h)
    ensures WorldOk(w')
  {
    ReceiveKeepsOk(w.servers[j], client, q, h);
    assert OwnRequests(w, j);
    hide ServerOk;
    ReceiveServesOn(w.servers[j], client, q, h);
    assert OwnRequests(w', j);
    ServerStepKeepsOk(w, w', j);
  }

  lemma FinishStepKeepsOk(w: World, w': World, j: nat, n: nat, status: Status)
    requires WorldOk(w) && FinishStep(w, w', j, n, status)
    ensures WorldOk(w')
  {
    FinishKeepsOk(w.servers[j], n, status);
    assert OwnRequests(w, j);
    hide ServerOk;
    FinishServesOn(w.servers[j], n, status);
    assert OwnRequests(w', j);
    ServerStepKeepsOk(w, w', j);
  }

  lemma StepKeepsOk(w: World, w': World)
    requires WorldOk(w) && Step(w, w')
    ensures WorldOk(w')
  {
    if UserStep(w, w') {
      ClientStepKeepsOk(w, w', None);
    } else if id :| TimeoutStep(w, w', id) {
      if w'.client != w.client {
        ClientStepKeepsOk(w, w', Some(id));
      }
    } else if j, client, q, h :| ReceiveStep(w, w', j, client, q, h) {
      ReceiveStepKeepsOk(w, w', j, client, q, h);
    } else if j, n, status :| FinishStep(w, w', j, n, status) {
      FinishStepKeepsOk(w, w', j, n, status);
    } else {
      var j, k :| DeliverStep(w, w', j, k);
      DeliverKeepsOk(w, w', j, k);
    }
  }

  // ---------------------------------------------------------------- whole runs

  ghost predicate InitialWorld(w: World) {
    && Quiescent(w.client) && w.client.cells == [] && |w.names| == |w.servers|
    && forall j :: 0 <= j < |w.servers| ==> w.servers[j].served == [] && w.servers[j].sent == []
  }

  ghost predicate IsWorldRun(trace: seq<World>) {
    && |trace| > 0 && InitialWorld(trace[0])
    && forall i :: 0 <= i < |trace| - 1 ==> Step(trace[i], trace[i + 1])
  }

  lemma {:induction false} RunsStayOk(trace: seq<World>, i: nat)
    requires IsWorldRun(trace) && i < |trace|
    ensures WorldOk(trace[i])
  {
    if i == 0 {
      assert forall j :: 0 <= j < |trace[0].servers| ==> RepliesOk(trace[0].servers[j]);
    } else {
      RunsStayOk(trace, i - 1);
      assert Step(trace[i - 1], trace[i - 1 + 1]);
      StepKeepsOk(trace[i - 1], trace[i]);
    }
  }

  /**
   * Answer integrity: in every run, under any loss, duplication and reordering, the value that an rpc cell holds
   * was produced by a server of the called service, for exactly the request sent under the cell's call.
   */
  lemma AnswersAreGenuine(trace: seq<World>, i: nat, c: nat)
    requires IsWorldRun(trace) && i < |trace| && c < |trace[i].client.cells|
    requires trace[i].client.cells[c].kind.Rpc? && trace[i].client.cells[c].status.Value?
    ensures Genuine(trace[i], c, trace[i].client.cells[c].status.value)
  {
    RunsStayOk(trace, i);
    assert Justified(trace[i], c);
  }

  /**
   * And a call that fails otherwise than by a timeout fails for the reason that a server of the called service gave, or
   * was the cause of, when it was asked exactly that.
   */
  lemma FailuresAreFounded(trace: seq<World>, i: nat, c: nat)
    requires IsWorldRun(trace) && i < |trace| && c < |trace[i].client.cells|
    requires trace[i].client.cells[c].kind.Rpc? && trace[i].client.cells[c].kind.out.Some?
    requires trace[i].client.cells[c].status.Error? && trace[i].client.cells[c].status.reason != TimedOut
    ensures Founded(trace[i], c, trace[i].client.cells[c].status.reason)
  {
    RunsStayOk(trace, i);
    assert Justified(trace[i], c);
  }

  /** A retried call holds the answer to its last attempt, never one to an attempt it has given up on. */
  lemma RetriedAnswersAreGenuine(trace: seq<World>, i: nat, t: nat)
    requires IsWorldRun(trace) && i < |trace| && t < |trace[i].client.cells|
    requires trace[i].client.cells[t].kind.Timeout? && trace[i].client.cells[t].status.Value?
    ensures |trace[i].client.cells| == |trace[i].client.hist| && trace[i].client.hist[t].attempts != []
    ensures var a := trace[i].client.hist[t].attempts;
            && Genuine(trace[i], a[|a| - 1], trace[i].client.cells[t].status.value)
            && forall m :: 0 <= m < |a| - 1 ==>
                 a[m] < |trace[i].client.cells| && trace[i].client.cells[a[m]].status == Error(TimedOut)
  {
    RunsStayOk(trace, i);
    OutcomeOfLastAttempt(trace[i].client, t);
    var a := trace[i].client.hist[t].attempts;
    AnswersAreGenuine(trace, i, a[|a| - 1]);
  }

  /**
   * Without a bound on how long messages live this fails, exactly when the ids have wrapped around: a response to
   * the m-th call settles the cell of the registered n-th call, as if it were the answer to that, if and only if the
   * two calls are whole cycles of ids apart.
   */
  lemma SettledByIffWholeCycles(w: World, w': World, j: nat, k: nat, i: nat, id: nat)
    requires WorldOk(w) && DeliverAny(w, w', j, k) && id in w.client.idFuncMap && i < |w.client.sent|
    requires w.client.sent[i] == Sent(w.names[j], w.servers[j].served[w.servers[j].sent[k].origin].request)
    ensures |w.client.sentCalls| == |w.client.sent| && w.client.idFuncMap[id] < |w.client.cells| == |w.client.hist|
    ensures w.client.idFuncMap[id] < |w'.client.cells| && OutOf(w.client, id).Some?
    ensures var c, r := w.client.idFuncMap[id], w.servers[j].sent[k].response;
            var m, n := w.client.sentCalls[i], w.client.hist[c].call;
            && w.client.cells[c].status.Empty?
            && ((m - n) % CYCLE == 0 ==>
                  w'.client.cells[c].status == Answer(OutOf(w.client, id).value, r.result, r.payload))
            && (!w'.client.cells[c].status.Empty? <==> (m - n) % CYCLE == 0)
  {
    hide Quiescent, ServerOk, SettlesCall, IdOf;
    AnswerMatchesRequest(w.servers[j], k);
    ForeignId(w.client, i, id);
    var r := w.servers[j].sent[k].response;
    SettlesOwnOnly(w.client, w'.client, id, r.header.seqId, r.result, r.payload);
  }

  /** The request of the m-th call carries the id of the registered n-th call when they are whole cycles apart. */
  lemma ForeignId(s: State, i: nat, id: nat)
    requires Quiescent(s) && id in s.idFuncMap && i < |s.sent|
    ensures |s.sentCalls| == |s.sent| && s.idFuncMap[id] < |s.cells| == |s.hist|
    ensures s.sent[i].request.header.seqId == id <==> (s.sentCalls[i] - s.hist[s.idFuncMap[id]].call) % CYCLE == 0
  {
    RegisteredWaits(s, id);
    assert SentFor(s.cells, s.calls, s.sent[i], s.sentCalls[i]);
    hide Quiescent, IdOf;
    SameIdIffWholeCycles(s.sentCalls[i], s.hist[s.idFuncMap[id]].call);
  }

  lemma SettlesOwnOnly(s: State, s': State, id: nat, rid: nat, result: RpcResult, payload: bytes)
    requires Quiescent(s) && id in s.idFuncMap && TakesResponse(s, s', rid, result, payload)
    ensures s.idFuncMap[id] < |s.cells| && s.idFuncMap[id] < |s'.cells| && OutOf(s, id).Some?
    ensures var c := s.idFuncMap[id];
            && s.cells[c].status.Empty?
            && (rid == id ==> s'.cells[c].status == Answer(OutOf(s, id).value, result, payload))
            && (!s'.cells[c].status.Empty? <==> rid == id)
  {
    hide Quiescent, Evolves;
    RegisteredWaits(s, id);
    if rid in s.idFuncMap {
      RegisteredWaits(s, rid);
    }
  }
}
