/** The server side of msgrpc: dispatch of a request on interface and method, and replies now or later. */
module Server {
  import opened RpcTypes
  import opened Cells

  /** One method of an interface: how its request is read and its response written. */
  datatype Method = Method(decode: bytes -> Option<Val>, write: Val -> Option<bytes>)

  /** Interface index to method index to method. */
  type Interfaces = map<nat, map<nat, Method>>

  /** What the user's implementation returns: no cell, or a cell that may have settled already. */
  datatype HandlerResult = NoCell | CellWith(status: Status)

  /** How far a request has got. */
  datatype Stage =
    | Refused(reason: RpcResult)   // answered with an error by the dispatch itself
    | Running                      // a final action waits for the handler's cell
    | Answered(result: Val)        // answered with the value of the handler's cell
    | Silent                       // the handler's cell failed, or holds what cannot be encoded: never answered

  /** A request, what its handler returned if called, what the returned cell settled to since, and how far it got. */
  datatype Served = Served(client: nat, request: Request, handler: HandlerResult, settled: Option<Status>, stage: Stage)

  /** A response handed to the message channel; `origin` is the request it answers. */
  datatype Reply = Reply(client: nat, response: Response, origin: nat)

  datatype ServerState = ServerState(ifaces: Interfaces, served: seq<Served>, sent: seq<Reply>)

  /** ThriftEncoder::encode fails on an exception and on an empty result. */
  function Encode(m: Method, v: Val): (b: Option<bytes>)
    ensures b.Some? <==> m.write(v) !in {None, Some([])}
    ensures b.Some? ==> b == m.write(v)
  {
    match m.write(v)
    case Some(b) => if b == [] then None else Some(b)
    case None => None
  }

  /** The interface has a method for this header. */
  predicate IsKnown(ifaces: Interfaces, h: Header) {
    h.ifaceIndex in ifaces && h.methodIndex in ifaces[h.ifaceIndex]
  }

  function Lookup(ifaces: Interfaces, h: Header): (m: Option<Method>)
    ensures m == if IsKnown(ifaces, h) then Some(ifaces[h.ifaceIndex][h.methodIndex]) else None
  {
    if h.ifaceIndex in ifaces && h.methodIndex in ifaces[h.ifaceIndex]
    then Some(ifaces[h.ifaceIndex][h.methodIndex]) else None
  }

  /** What an answer to a request has to be, given how far the request has got. */
  function AnswerTo(ifaces: Interfaces, x: Served): Option<Response> {
    match x.stage
    case Refused(reason) => Some(Response(x.request.header, reason, []))
    case Answered(v) =>
      (match Lookup(ifaces, x.request.header)
       case Some(m) =>
         if Encode(m, v).Some? then Some(Response(x.request.header, Succeeded, Encode(m, v).value)) else None
       case None => None)
    case _ => None
  }

  function CountFor(sent: seq<Reply>, n: nat): nat {
    if sent == [] then 0 else CountFor(sent[..|sent| - 1], n) + if sent[|sent| - 1].origin == n then 1 else 0
  }

  /** Each request has exactly the answer its stage calls for, and it went to the client that asked. */
  ghost predicate RepliesOk(s: ServerState) {
    && (forall k :: 0 <= k < |s.sent| ==> ReplyOk(s, s.sent[k]))
    && (forall n :: 0 <= n < |s.served| ==>
          CountFor(s.sent, n) == if AnswerTo(s.ifaces, s.served[n]).Some? then 1 else 0)
  }

  ghost predicate ReplyOk(s: ServerState, r: Reply) {
    && r.origin < |s.served| && r.client == s.served[r.origin].client
    && AnswerTo(s.ifaces, s.served[r.origin]) == Some(r.response)
  }

  // ---------------------------------------------------------------- steps

  /** The stage a request is in once it has been dispatched. */
  function FirstStage(ifaces: Interfaces, q: Request, h: HandlerResult): Stage {
    if q.header.ifaceIndex !in ifaces then Refused(IfaceNotFound)
    else if q.header.methodIndex !in ifaces[q.header.ifaceIndex] then Refused(MethodNotFound)
    else
      var m := ifaces[q.header.ifaceIndex][q.header.methodIndex];
      if m.decode(q.payload).None? || h.NoCell? then Refused(Failed)
      else match h.status
        case Value(v) => if Encode(m, v).Some? then Answered(v) else Refused(Failed)
        case Error(_) => Silent
        case Empty => Running
  }

  /** The stage after the handler's cell has settled. */
  function LastStage(ifaces: Interfaces, q: Request, status: Status): Stage {
    match status
    case Value(v) =>
      (match Lookup(ifaces, q.header)
       case Some(m) => if Encode(m, v).Some? then Answered(v) else Silent
       case None => Silent)
    case _ => Silent
  }

  /** The stage is what the dispatch, the handler and its cell have made of the request. */
  ghost predicate StageOk(ifaces: Interfaces, x: Served) {
    var first := FirstStage(ifaces, x.request, x.handler);
    match x.settled
    case Some(status) => first.Running? && !status.Empty? && x.stage == LastStage(ifaces, x.request, status)
    case None => x.stage == first
  }

  /** What the dispatch has established about a request. */
  ghost predicate ServedOk(ifaces: Interfaces, x: Served) {
    StageOk(ifaces, x) && StageMeans(ifaces, x)
  }

  ghost predicate StageMeans(ifaces: Interfaces, x: Served) {
    var m := Lookup(ifaces, x.request.header);
    match x.stage
    case Refused(reason) =>
      && (reason == IfaceNotFound <==> x.request.header.ifaceIndex !in ifaces)
      && (reason == MethodNotFound <==> x.request.header.ifaceIndex in ifaces && m.None?)
      && reason in {IfaceNotFound, MethodNotFound, Failed}
    case Answered(v) => m.Some? && m.value.decode(x.request.payload).Some? && Encode(m.value, v).Some?
    case _ => m.Some? && m.value.decode(x.request.payload).Some?
  }

  ghost predicate ServerOk(s: ServerState) {
    RepliesOk(s) && forall n :: 0 <= n < |s.served| ==> ServedOk(s.ifaces, s.served[n])
  }

  function Replied(s: ServerState, n: nat): ServerState
    requires n < |s.served|
  {
    match AnswerTo(s.ifaces, s.served[n])
    case Some(response) => s.(sent := s.sent + [Reply(s.served[n].client, response, n)])
    case None => s
  }

  function NewlyServed(ifaces: Interfaces, client: nat, q: Request, h: HandlerResult): Served {
    Served(client, q, h, None, FirstStage(ifaces, q, h))
  }

  function Settled(ifaces: Interfaces, x: Served, status: Status): Served {
    x.(settled := Some(status), stage := LastStage(ifaces, x.request, status))
  }

  /** on_rpc_req_msg: the request is dispatched, and answered when it can be. */
  function Received(s: ServerState, client: nat, q: Request, h: HandlerResult): ServerState {
    var s' := s.(served := s.served + [NewlyServed(s.ifaces, client, q, h)]);
    Replied(s', |s.served|)
  }

  /** The final action: the cell that the handler returned for request `n` has settled. */
  function Finished(s: ServerState, n: nat, status: Status): ServerState
    requires n < |s.served|
  {
    var s' := s.(served := s.served[n := Settled(s.ifaces, s.served[n], status)]);
    Replied(s', n)
  }

  lemma CountAppended(sent: seq<Reply>, r: Reply, n: nat)
    ensures CountFor(sent + [r], n) == CountFor(sent, n) + if r.origin == n then 1 else 0
  {
    assert (sent + [r])[..|sent + [r]| - 1] == sent;
  }

  lemma {:induction false} NoneForLater(sent: seq<Reply>, n: nat)
    requires forall k :: 0 <= k < |sent| ==> sent[k].origin < n
    ensures CountFor(sent, n) == 0
  {
    if sent != [] {
      NoneForLater(sent[..|sent| - 1], n);
    }
  }

  /** A request that gets its answer, if any, now: the answers to the others stay. */
  lemma ReplyCounts(s: ServerState, n: nat, j: nat)
    requires n < |s.served|
    ensures CountFor(Replied(s, n).sent, j) == CountFor(s.sent, j)
              + if j == n && AnswerTo(s.ifaces, s.served[n]).Some? then 1 else 0
  {
    match AnswerTo(s.ifaces, s.served[n])
    case Some(response) => CountAppended(s.sent, Reply(s.served[n].client, response, n), j);
    case None =>
  }

  lemma ReceiveKeepsOk(s: ServerState, client: nat, q: Request, h: HandlerResult)
    requires ServerOk(s)
    ensures ServerOk(Received(s, client, q, h))
  {
    var x := NewlyServed(s.ifaces, client, q, h);
    var s1 := s.(served := s.served + [x]);
    var s' := Received(s, client, q, h);
    FirstStageOk(s.ifaces, client, q, h);
    assert forall k :: 0 <= k < |s.sent| ==> ReplyOk(s, s.sent[k]);
    NoneForLater(s.sent, |s.served|);
    hide CountFor, AnswerTo, FirstStage, ServedOk;
    forall k | 0 <= k < |s'.sent| ensures ReplyOk(s', s'.sent[k]) {
      if k < |s.sent| { assert ReplyOk(s, s.sent[k]); }
    }
    forall j | 0 <= j < |s'.served|
      ensures CountFor(s'.sent, j) == if AnswerTo(s'.ifaces, s'.served[j]).Some? then 1 else 0
      ensures ServedOk(s'.ifaces, s'.served[j])
    {
      ReplyCounts(s1, |s.served|, j);
    }
  }

  lemma FirstStageOk(ifaces: Interfaces, client: nat, q: Request, h: HandlerResult)
    ensures ServedOk(ifaces, NewlyServed(ifaces, client, q, h))
  {
  }

  lemma LastStageOk(ifaces: Interfaces, x: Served, status: Status)
    requires ServedOk(ifaces, x) && x.stage.Running? && !status.Empty?
    ensures ServedOk(ifaces, Settled(ifaces, x, status))
    ensures AnswerTo(ifaces, x).None? && !Settled(ifaces, x, status).stage.Running?
  {
  }

  lemma FinishKeepsOk(s: ServerState, n: nat, status: Status)
    requires ServerOk(s) && n < |s.served| && s.served[n].stage.Running? && !status.Empty?
    ensures ServerOk(Finished(s, n, status))
  {
    var x := Settled(s.ifaces, s.served[n], status);
    var s1 := s.(served := s.served[n := x]);
    var s' := Finished(s, n, status);
    LastStageOk(s.ifaces, s.served[n], status);
    hide CountFor, AnswerTo, LastStage, ServedOk;
    forall k | 0 <= k < |s'.sent| ensures ReplyOk(s', s'.sent[k]) {
      if k < |s.sent| { assert ReplyOk(s, s.sent[k]); }
    }
    forall j | 0 <= j < |s'.served|
      ensures CountFor(s'.sent, j) == if AnswerTo(s'.ifaces, s'.served[j]).Some? then 1 else 0
      ensures ServedOk(s'.ifaces, s'.served[j])
    {
      assert ServedOk(s.ifaces, s.served[j]);
      ReplyCounts(s1, n, j);
    }
  }

  lemma FinishedState(s: ServerState, n: nat, status: Status, m: Method)
    requires n < |s.served| && Lookup(s.ifaces, s.served[n].request.header) == Some(m)
    ensures Finished(s, n, status) ==
            s.(served := s.served[n := Settled(s.ifaces, s.served[n], status)],
               sent := if status.Value? && Encode(m, status.value).Some?
                       then s.sent + [Reply(s.served[n].client, Response(s.served[n].request.header, Succeeded,
                                            Encode(m, status.value).value), n)]
                       else s.sent)
    ensures !Settled(s.ifaces, s.served[n], status).stage.Running?
  {
  }

  // ---------------------------------------------------------------- the service itself

  /** Exactly the running requests have a final action, which will answer them. */
  ghost predicate Attached(ifaces: Interfaces, served: seq<Served>, actions: map<nat, (nat, Header, Method)>) {
    && (forall n: nat :: n in actions <==> n < |served| && served[n].stage.Running?)
    && (forall n: nat :: n in actions ==>
          && actions[n].0 == served[n].client && actions[n].1 == served[n].request.header
          && Lookup(ifaces, served[n].request.header) == Some(actions[n].2))
  }

  /** The handler of a known method was called and gave a cell that is still empty. */
  predicate IsDeferred(ifaces: Interfaces, q: Request, h: HandlerResult) {
    && IsKnown(ifaces, q.header) && ifaces[q.header.ifaceIndex][q.header.methodIndex].decode(q.payload).Some?
    && h.CellWith? && h.status.Empty?
  }

  lemma ReceiveAttaches(ifaces: Interfaces, served: seq<Served>, actions: map<nat, (nat, Header, Method)>, client: nat,
                        q: Request, h: HandlerResult)
    requires Attached(ifaces, served, actions)
    ensures var served' := served + [NewlyServed(ifaces, client, q, h)];
            Attached(ifaces, served',
                     if IsDeferred(ifaces, q, h)
                     then actions[|served| := (client, q.header, ifaces[q.header.ifaceIndex][q.header.methodIndex])]
                     else actions)
  {
  }

  lemma NewlyAsked(ifaces: Interfaces, client: nat, q: Request, h: HandlerResult)
    ensures var x := NewlyServed(ifaces, client, q, h);
            x.client == client && x.request == q && x.handler == h && x.settled.None?
  {
  }

  lemma ReceivedState(s: ServerState, client: nat, q: Request, h: HandlerResult)
    ensures Received(s, client, q, h).served == s.served + [NewlyServed(s.ifaces, client, q, h)]
    ensures Received(s, client, q, h).ifaces == s.ifaces
    ensures q.header.ifaceIndex !in s.ifaces ==>
              Received(s, client, q, h).sent
              == s.sent + [Reply(client, Response(q.header, IfaceNotFound, []), |s.served|)]
    ensures q.header.ifaceIndex in s.ifaces && q.header.methodIndex !in s.ifaces[q.header.ifaceIndex] ==>
              Received(s, client, q, h).sent
              == s.sent + [Reply(client, Response(q.header, MethodNotFound, []), |s.served|)]
    ensures q.header.ifaceIndex in s.ifaces && q.header.methodIndex in s.ifaces[q.header.ifaceIndex] ==>
              var m := s.ifaces[q.header.ifaceIndex][q.header.methodIndex];
              Received(s, client, q, h).sent ==
                if m.decode(q.payload).None? || h.NoCell?
                   || (h.status.Value? && m.write(h.status.value) in {None, Some([])})
                then s.sent + [Reply(client, Response(q.header, Failed, []), |s.served|)]
                else if h.status.Value?
                then s.sent + [Reply(client, Response(q.header, Succeeded, m.write(h.status.value).value), |s.served|)]
                else s.sent
  {
  }

  lemma FinishDetaches(ifaces: Interfaces, served: seq<Served>, actions: map<nat, (nat, Header, Method)>, n: nat,
                       status: Status)
    requires Attached(ifaces, served, actions) && n < |served| && !Settled(ifaces, served[n], status).stage.Running?
    ensures Attached(ifaces, served[n := Settled(ifaces, served[n], status)], actions - {n})
  {
  }

  class Service {
    const ifaces: Interfaces
    var sent: seq<Reply>
    var finalActions: map<nat, (nat, Header, Method)>  // the final actions that wait, by request
    ghost var served: seq<Served>
    var received: nat

    constructor (ifaces: Interfaces)
      ensures Valid() && S() == ServerState(ifaces, [], [])
    {
      this.ifaces := ifaces;
      sent, finalActions, served, received := [], map[], [], 0;
    }

    ghost function S(): ServerState
      reads this
    {
      ServerState(ifaces, served, sent)
    }

    ghost predicate Valid()
      reads this
    {
      ServerOk(S()) && received == |served| && Attached(ifaces, served, finalActions)
    }

    /** ReqMsgHandler::on_rpc_req_msg; `h` is what the user's implementation returns if it is called. */
    method OnRpcReqMsg(client: nat, q: Request, h: HandlerResult)
      requires Valid()
      modifies this
      ensures Valid() && S() == Received(old(S()), client, q, h)
      ensures |served| == |old(served)| + 1 && served[..|old(served)|] == old(served)
      ensures var x := served[|old(served)|]; x.client == client && x.request == q && x.handler == h && x.settled.None?
      ensures q.header.ifaceIndex !in ifaces ==>
                sent == old(sent) + [Reply(client, Response(q.header, IfaceNotFound, []), |old(served)|)]
      ensures q.header.ifaceIndex in ifaces && q.header.methodIndex !in ifaces[q.header.ifaceIndex] ==>
                sent == old(sent) + [Reply(client, Response(q.header, MethodNotFound, []), |old(served)|)]
      ensures q.header.ifaceIndex in ifaces && q.header.methodIndex in ifaces[q.header.ifaceIndex] ==>
                var m := ifaces[q.header.ifaceIndex][q.header.methodIndex];
                sent == if m.decode(q.payload).None? || h.NoCell?
                           || (h.status.Value? && m.write(h.status.value) in {None, Some([])})
                        then old(sent) + [Reply(client, Response(q.header, Failed, []), |old(served)|)]
                        else if h.status.Value?
                        then old(sent) + [Reply(client, Response(q.header, Succeeded, m.write(h.status.value).value),
                                                |old(served)|)]
                        else old(sent)
    {
      hide ServerOk, Received, NewlyServed, Attached, Encode, Lookup;
      ReceiveKeepsOk(S(), client, q, h);
      ReceivedState(S(), client, q, h);
      ReceiveAttaches(ifaces, served, finalActions, client, q, h);
      NewlyAsked(ifaces, client, q, h);
      served := served + [NewlyServed(ifaces, client, q, h)];
      received := received + 1;
      if q.header.ifaceIndex !in ifaces {
        SendMsgWithHeader(client, q.header, IfaceNotFound, [], received - 1);
        return;
      }
      var result := OnRpcInvoke(client, q, h, received - 1);
      if result == Failed || result == MethodNotFound {
        SendMsgWithHeader(client, q.header, result, [], received - 1);
      }
    }

    /** onRpcInvoke. */
    method OnRpcInvoke(client: nat, q: Request, h: HandlerResult, n: nat) returns (result: RpcResult)
      requires q.header.ifaceIndex in ifaces
      modifies `sent, `finalActions
      ensures result == MethodNotFound <==> q.header.methodIndex !in ifaces[q.header.ifaceIndex]
      ensures result == MethodNotFound ==> sent == old(sent) && finalActions == old(finalActions)
      ensures result != MethodNotFound ==>
                var m := ifaces[q.header.ifaceIndex][q.header.methodIndex];
                && result in {Succeeded, Failed}
                && (result == Failed <==> m.decode(q.payload).None? || h.NoCell?
                                          || (h.status.Value? && m.write(h.status.value) in {None, Some([])}))
                && sent == (if result == Succeeded && h.status.Value?
                            then old(sent) + [Reply(client,
                                                    Response(q.header, Succeeded, m.write(h.status.value).value), n)]
                            else old(sent))
                && finalActions == if result == Succeeded && h.status.Empty?
                                   then old(finalActions)[n := (client, q.header, m)] else old(finalActions)
    {
      var methods := ifaces[q.header.ifaceIndex];
      if q.header.methodIndex !in methods {
        return MethodNotFound;
      }
      result := InvokeTemplatedMethod(methods[q.header.methodIndex], client, q, h, n);
    }

    /** invoke_templated_method. */
    method InvokeTemplatedMethod(m: Method, client: nat, q: Request, h: HandlerResult, n: nat)
      returns (result: RpcResult)
      modifies `sent, `finalActions
      ensures result in {Succeeded, Failed}
      ensures result == Failed <==> m.decode(q.payload).None? || h.NoCell?
                                    || (h.status.Value? && m.write(h.status.value) in {None, Some([])})
      ensures sent == if result == Succeeded && h.status.Value?
                      then old(sent) + [Reply(client, Response(q.header, Succeeded, m.write(h.status.value).value), n)]
                      else old(sent)
      ensures finalActions == if result == Succeeded && h.status.Empty?
                              then old(finalActions)[n := (client, q.header, m)] else old(finalActions)
    {
      if m.decode(q.payload).None? {
        return Failed;
      }
      match h {
        case NoCell =>
          return Failed;
        case CellWith(status) =>
          if status.Value? {
            result := SendRspCellValue(m, client, q.header, status, n);
            return;
          }
          if status.Empty? {
            finalActions := finalActions[n := (client, q.header, m)];
          }
          return Succeeded;
      }
    }

    /** send_rsp_cell_value. */
    method SendRspCellValue(m: Method, client: nat, header: Header, status: Status, n: nat) returns (result: RpcResult)
      modifies `sent
      ensures result == Succeeded <==> status.Value? && m.write(status.value) !in {None, Some([])}
      ensures result in {Succeeded, Failed}
      ensures sent == if result == Succeeded
                      then old(sent) + [Reply(client, Response(header, Succeeded, m.write(status.value).value), n)]
                      else old(sent)
    {
      if !status.Value? {
        return Failed;
      }
      var buf := Encode(m, status.value);
      if buf.None? {
        return Failed;
      }
      SendMsgWithHeader(client, header, Succeeded, buf.value, n);
      return Succeeded;
    }

    /** send_msg_with_header. */
    method SendMsgWithHeader(client: nat, header: Header, result: RpcResult, payload: bytes, n: nat)
      modifies `sent
      ensures sent == old(sent) + [Reply(client, Response(header, result, payload), n)]
    {
      sent := sent + [Reply(client, Response(header, result, payload), n)];
    }

    /** The cell that the handler returned for request `n` settles: its final action runs, once. */
    method OnHandlerCellSettled(n: nat, status: Status)
      requires Valid() && n in finalActions && !status.Empty?
      modifies this
      ensures Valid() && S() == Finished(old(S()), n, status) && n !in finalActions
      ensures n < |old(served)| && IsKnown(ifaces, old(served)[n].request.header)
      ensures var x := old(served)[n];
              var m := ifaces[x.request.header.ifaceIndex][x.request.header.methodIndex];
              && served == old(served)[n := served[n]] && served[n].settled == Some(status)
              && sent == if status.Value? && m.write(status.value) !in {None, Some([])}
                         then old(sent) + [Reply(x.client, Response(x.request.header, Succeeded,
                                                                    m.write(status.value).value), n)]
                         else old(sent)
    {
      FinishKeepsOk(S(), n, status);
      FinishedState(S(), n, status, finalActions[n].2);
      FinishDetaches(ifaces, served, finalActions, n, status);
      hide ServerOk, Finished, Settled, Attached;
      var (client, header, m) := finalActions[n];
      if status.Value? {
        var result := SendRspCellValue(m, client, header, status, n);
      }
      served, finalActions := served[n := Settled(ifaces, served[n], status)], finalActions - {n};
    }
  }

  // ---------------------------------------------------------------- what clients may rely on

  lemma {:induction false} CountZero(sent: seq<Reply>, n: nat, k: nat)
    requires CountFor(sent, n) == 0 && k < |sent|
    ensures sent[k].origin != n
  {
    if k < |sent| - 1 {
      CountZero(sent[..|sent| - 1], n, k);
    }
  }

  lemma {:induction false} CountOne(sent: seq<Reply>, n: nat, j: nat, k: nat)
    requires CountFor(sent, n) == 1 && j < k < |sent|
    ensures sent[j].origin != n || sent[k].origin != n
  {
    if k < |sent| - 1 {
      if sent[|sent| - 1].origin == n {
        CountZero(sent[..|sent| - 1], n, j);
      } else {
        CountOne(sent[..|sent| - 1], n, j, k);
      }
    } else if sent[k].origin == n {
      CountZero(sent[..|sent| - 1], n, j);
    }
  }

  /** No request is answered twice. */
  lemma AnsweredAtMostOnce(s: ServerState, j: nat, k: nat)
    requires ServerOk(s) && j < k < |s.sent|
    ensures s.sent[j].origin != s.sent[k].origin
  {
    var n := s.sent[j].origin;
    assert ReplyOk(s, s.sent[j]);
    CountOne(s.sent, n, j, k);
  }

  /** The value of the handler's cell is `v`, at once or since it settled. */
  ghost predicate Yields(x: Served, v: Val) {
    x.handler == CellWith(Value(v)) || (x.handler == CellWith(Empty) && x.settled == Some(Value(v)))
  }

  /**
   * Every answer echoes the header of its request and goes to its client. Its result code says how far the request
   * got, and a success carries exactly what the addressed method writes for the value of the handler's cell.
   */
  lemma AnswerMatchesRequest(s: ServerState, k: nat)
    requires ServerOk(s) && k < |s.sent|
    ensures s.sent[k].origin < |s.served|
    ensures var r, x := s.sent[k].response, s.served[s.sent[k].origin];
            var h := x.request.header;
            && s.sent[k].client == x.client && r.header == h
            && (r.result == IfaceNotFound <==> h.ifaceIndex !in s.ifaces)
            && (r.result == MethodNotFound <==> h.ifaceIndex in s.ifaces && h.methodIndex !in s.ifaces[h.ifaceIndex])
            && r.result != TimedOut && (r.result == Succeeded <==> x.stage.Answered?)
            && (r.result != Succeeded ==> r.payload == [])
    ensures var r, x := s.sent[k].response, s.served[s.sent[k].origin];
            IsKnown(s.ifaces, x.request.header) ==>
              var m := s.ifaces[x.request.header.ifaceIndex][x.request.header.methodIndex];
              && (r.result == Failed <==>
                    m.decode(x.request.payload).None? || x.handler.NoCell?
                    || (x.handler.status.Value? && m.write(x.handler.status.value) in {None, Some([])}))
              && (r.result == Succeeded ==>
                    && m.decode(x.request.payload).Some? && Yields(x, x.stage.result)
                    && m.write(x.stage.result) == Some(r.payload) && r.payload != [])
  {
    assert ReplyOk(s, s.sent[k]) && ServedOk(s.ifaces, s.served[s.sent[k].origin]);
  }

  /** A request is answered if refused, if its handler returns a value, or if its cell gets an encodable one later. */
  ghost predicate CallsForAnswer(ifaces: Interfaces, x: Served) {
    IsKnown(ifaces, x.request.header) ==>
      var m := ifaces[x.request.header.ifaceIndex][x.request.header.methodIndex];
      || m.decode(x.request.payload).None? || x.handler.NoCell? || x.handler.status.Value?
      || (x.settled.Some? && x.settled.value.Value? && m.write(x.settled.value.value) !in {None, Some([])})
  }

  /**
   * A request has exactly one answer if interface lookup, method lookup or decoding fails, the handler returns no
   * cell or one with a value, or its cell gets a value that can be encoded later; otherwise it has none.
   */
  lemma AnsweredExactlyOnceIff(s: ServerState, n: nat)
    requires ServerOk(s) && n < |s.served|
    ensures CountFor(s.sent, n) == if CallsForAnswer(s.ifaces, s.served[n]) then 1 else 0
    ensures CallsForAnswer(s.ifaces, s.served[n]) <==> exists k :: 0 <= k < |s.sent| && s.sent[k].origin == n
  {
    assert ServedOk(s.ifaces, s.served[n]);
    CountPositive(s.sent, n);
  }

  lemma {:induction false} CountPositive(sent: seq<Reply>, n: nat)
    ensures CountFor(sent, n) > 0 <==> exists k :: 0 <= k < |sent| && sent[k].origin == n
  {
    if sent != [] {
      var init := sent[..|sent| - 1];
      CountPositive(init, n);
      if k :| 0 <= k < |sent| && sent[k].origin == n && k < |sent| - 1 {
        assert init[k].origin == n;
      }
    }
  }

  // ---------------------------------------------------------------- runs

  ghost predicate ServerStep(s: ServerState, s': ServerState) {
    || (exists client, q, h :: s' == Received(s, client, q, h))
    || (exists n: nat, status: Status ::
          n < |s.served| && s.served[n].stage.Running? && !status.Empty? && s' == Finished(s, n, status))
  }

  ghost predicate IsServerRun(trace: seq<ServerState>) {
    && |trace| > 0 && trace[0].served == [] && trace[0].sent == []
    && forall i :: 0 <= i < |trace| - 1 ==> ServerStep(trace[i], trace[i + 1])
  }

  /** Requests keep their place; what is known of one stays, and nothing sent is taken back. */
  ghost predicate ServesOn(s: ServerState, s': ServerState) {
    && s'.ifaces == s.ifaces && |s.served| <= |s'.served| && s.sent <= s'.sent
    && forall n :: 0 <= n < |s.served| ==>
         && s'.served[n].client == s.served[n].client && s'.served[n].request == s.served[n].request
         && s'.served[n].handler == s.served[n].handler
         && (!s.served[n].stage.Running? ==> s'.served[n] == s.served[n])
  }

  lemma ReceiveServesOn(s: ServerState, client: nat, q: Request, h: HandlerResult)
    ensures ServesOn(s, Received(s, client, q, h))
  {
    hide FirstStage, AnswerTo;
  }

  lemma FinishServesOn(s: ServerState, n: nat, status: Status)
    requires n < |s.served| && s.served[n].stage.Running?
    ensures ServesOn(s, Finished(s, n, status))
  {
    hide LastStage, AnswerTo;
  }

  lemma StepServesOn(s: ServerState, s': ServerState)
    requires ServerOk(s) && ServerStep(s, s')
    ensures ServerOk(s') && ServesOn(s, s')
  {
    hide ServerOk, ServesOn, Received, Finished;
    if client, q, h :| s' == Received(s, client, q, h) {
      ReceiveKeepsOk(s, client, q, h);
      ReceiveServesOn(s, client, q, h);
    } else {
      var n: nat, status: Status :|
        n < |s.served| && s.served[n].stage.Running? && !status.Empty? && s' == Finished(s, n, status);
      FinishKeepsOk(s, n, status);
      FinishServesOn(s, n, status);
    }
  }

  lemma {:induction false} ServerRunsStayOk(trace: seq<ServerState>, i: nat, j: nat)
    requires IsServerRun(trace) && i <= j < |trace|
    ensures ServerOk(trace[i]) && ServerOk(trace[j]) && ServesOn(trace[i], trace[j])
    decreases j
  {
    if j == 0 {
      assert RepliesOk(trace[0]);
    } else {
      ServerRunsStayOk(trace, if i == j then 0 else i, j - 1);
      assert ServerStep(trace[j - 1], trace[j - 1 + 1]);
      StepServesOn(trace[j - 1], trace[j]);
    }
  }

  /**
   * Over every run a request gets its one answer when it calls for one, keeps it, and is never answered again; a
   * request whose handler's cell has failed, or got a value later that cannot be encoded, never gets any.
   */
  lemma AnswersOverRuns(trace: seq<ServerState>, i: nat, j: nat, n: nat)
    requires IsServerRun(trace) && i <= j < |trace| && n < |trace[i].served|
    ensures n < |trace[j].served| && trace[i].sent <= trace[j].sent
    ensures CountFor(trace[j].sent, n) == if CallsForAnswer(trace[j].ifaces, trace[j].served[n]) then 1 else 0
    ensures CallsForAnswer(trace[i].ifaces, trace[i].served[n]) ==> CountFor(trace[j].sent, n) == 1
    ensures !CallsForAnswer(trace[i].ifaces, trace[i].served[n]) && !trace[i].served[n].stage.Running? ==>
              CountFor(trace[j].sent, n) == 0
  {
    ServerRunsStayOk(trace, i, j);
    AnsweredExactlyOnceIff(trace[j], n);
    assert ServedOk(trace[i].ifaces, trace[i].served[n]);
    hide ServerOk, CountFor;
  }

  /** The answer to a request is still open exactly while the cell that its handler returned is empty. */
  lemma RunningIffUnsettled(s: ServerState, n: nat)
    requires ServerOk(s) && n < |s.served|
    ensures var x := s.served[n];
            x.stage.Running? <==>
              && IsKnown(s.ifaces, x.request.header)
              && s.ifaces[x.request.header.ifaceIndex][x.request.header.methodIndex].decode(x.request.payload).Some?
              && x.handler == CellWith(Empty) && x.settled.None?
  {
    assert ServedOk(s.ifaces, s.served[n]);
  }
}
