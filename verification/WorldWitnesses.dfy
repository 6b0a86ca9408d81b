/** A run of client and server, over a network that keeps a message too long, in which a call gets a foreign answer. */
module WorldWitnesses {
  import opened RpcTypes
  import opened SequenceIds
  import opened Cells
  import opened ClientState
  import opened ClientSteps
  import opened ClientGraph
  import opened ClientDispatch
  import opened ClientProperties
  import opened ClientRuns
  import opened Client
  import opened ClientWitnesses
  import opened IdWitnesses
  import opened Server
  import opened EndToEnd

  /** A call that differs from ASK in its payload. */
  const FIRST := ASK.(payload := Some([7]))

  /** A service whose one method takes any request, and whose answers are one byte. */
  const SERVICE: Interfaces := map[0 := map[0 := Method(_ => Some(VBool(true)), _ => Some([1]))]]

  // ---------------------------------------------------------------- the server

  /** The service has taken the request `q` and answered it. */
  function Served(server: ServerState, q: Request): ServerState { Received(server, 0, q, CellWith(TRUTH)) }

  lemma ServedAnswers(server: ServerState, q: Request)
    requires server.ifaces == SERVICE && q.header.ifaceIndex == 0 && q.header.methodIndex == 0
    ensures var s' := Served(server, q);
            && s'.ifaces == SERVICE && |s'.served| == |server.served| + 1
            && s'.served[..|server.served|] == server.served
            && s'.served[|server.served|].client == 0 && s'.served[|server.served|].request == q
            && s'.sent == server.sent + [Reply(0, Response(q.header, Succeeded, [1]), |server.served|)]
  {
  }

  // ---------------------------------------------------------------- recording a run

  ghost predicate IsWorldRunTo(worlds: seq<World>, w: World) { IsWorldRun(worlds) && worlds[|worlds| - 1] == w }

  function TheWorld(client: State, server: ServerState): World { World(client, 0, [""], [server]) }

  lemma WorldGoesOn(worlds: seq<World>, w: World, w': World)
    requires IsWorldRunTo(worlds, w) && Step(w, w')
    ensures IsWorldRunTo(worlds + [w'], w')
  {
    hide Step, InitialWorld;
    var t := worlds + [w'];
    forall i | 0 <= i < |t| - 1 ensures Step(t[i], t[i + 1]) {
      assert i < |worlds| - 1 ==> Step(worlds[i], worlds[i + 1]);
    }
  }

  lemma UserGoesOn(worlds: seq<World>, s: State, s': State, server: ServerState)
    requires IsWorldRunTo(worlds, TheWorld(s, server)) && Quiescent(s') && Quiet(s, s')
    ensures IsWorldRunTo(worlds + [TheWorld(s', server)], TheWorld(s', server))
  {
    hide Quiescent, Quiet, IsWorldRunTo;
    assert UserStep(TheWorld(s, server), TheWorld(s', server));
    WorldGoesOn(worlds, TheWorld(s, server), TheWorld(s', server));
  }

  lemma ServerGoesOn(worlds: seq<World>, s: State, server: ServerState, q: Request)
    requires IsWorldRunTo(worlds, TheWorld(s, server)) && Sent("", q) in s.sent
    ensures IsWorldRunTo(worlds + [TheWorld(s, Served(server, q))], TheWorld(s, Served(server, q)))
  {
    hide IsWorldRunTo, Received;
    assert ReceiveStep(TheWorld(s, server), TheWorld(s, Served(server, q)), 0, 0, q, CellWith(TRUTH));
    WorldGoesOn(worlds, TheWorld(s, server), TheWorld(s, Served(server, q)));
  }

  // ---------------------------------------------------------------- an interaction that is given up

  /** What has been sent by the first two calls. */
  ghost predicate SentFirst(s: State) {
    && [RequestOf(FIRST, 1), RequestOf(ASK, 2)] <= s.sent && [1, 2] <= s.sentCalls
    && forall i :: s.channel(i).Accepted?
  }

  /** The second call decides the result of the interaction; the first one is still waiting. */
  ghost predicate Opened(s: State) {
    && Quiescent(s) && |s.cells| == |s.hist| == 3 && |s.calls| == 2 && SentFirst(s)
    && |s.contexts| == 1 && s.contexts[0].alive && (forall i :: 0 <= i < 3 ==> s.cells[i].ctx == 0)
    && s.cells[0].kind == Rpc(Some(FIRST)) && s.cells[1].kind == Rpc(Some(ASK)) && s.cells[2].kind == Final(1)
    && s.cells[1].status.Empty? && s.cells[1].alive && s.cells[1].seqId == IdOf(2)
    && s.cells[2].armed && s.hist[2].early
  }

  /** With its result the whole interaction is gone, and the first call with it. */
  ghost predicate Closed(s: State) {
    && Quiescent(s) && |s.cells| == |s.hist| == 3 && |s.calls| == 2 && SentFirst(s) && s.idFuncMap == map[]
    && |s.contexts| == 1 && forall i :: 0 <= i < 3 ==> !s.cells[i].kind.Timeout?
  }

  lemma OpenedRoom(s: State)
    requires Opened(s)
    ensures HasRoom(s, 1) && 2 in s.idFuncMap && s.idFuncMap[2] == 1 && OutOf(s, 2) == Some(ASK)
    ensures Quiescent(s) && Answer(ASK, Succeeded, [1]) == TRUTH
  {
    hide Quiescent, HasRoom, IdOf;
    SmallIds();
    NoneUnstarted(s.cells);
    SmallRoom(s, 1);
    EmptyIsRegistered(s, 1);
  }

  lemma GivenUp(s: State, s': State)
    requires Opened(s) && Quiescent(s') && Dispatched(s, s', 1, TRUTH)
    ensures Closed(s')
  {
    Decides(s, s');
    hide Quiescent, IdOf, Dispatched, Opened, TearsDown;
    DoomedIffResultSettled(s', 0);
    NothingLeftBehind(s', 0);
    forall id | id in s'.idFuncMap ensures false {
      RegisteredWaits(s', id);
    }
  }

  lemma StaysSent(s: State, s': State)
    requires SentFirst(s) && BooksLater(s, s')
    ensures SentFirst(s')
  {
    hide HistGrows, StallsStay;
  }

  lemma Decides(s: State, s': State)
    requires Opened(s) && Quiescent(s') && Dispatched(s, s', 1, TRUTH)
    ensures |s'.cells| == |s'.hist| == 3 && |s'.calls| == 2 && SentFirst(s') && TearsDown(s', 2, 0)
    ensures |s'.contexts| == 1 && (s'.contexts[0].doomed ==> !s'.contexts[0].alive)
    ensures forall i :: 0 <= i < 3 ==> s'.cells[i].ctx == 0 && !s'.cells[i].kind.Timeout?
  {
    NothingAdded(s, s');
    hide Quiescent, IdOf, SurviveWithContext, StallsStay, Unanswered, OnlyTimeoutsCall;
    StaysSent(s, s');
    hide SentFirst;
  }

  lemma NothingAdded(s: State, s': State)
    requires Opened(s) && Quiescent(s') && Dispatched(s, s', 1, TRUTH)
    ensures |s'.cells| == |s'.hist| == 3 && |s'.calls| == 2
  {
    assert |s'.cells| == |s'.hist|;
    hide Quiescent, IdOf, SurviveWithContext, BooksLater, SentFirst, ContextsLater, CellsLater, Unanswered;
    assert forall i :: 0 <= i < |s.cells| ==> Rests(s.cells, s.hist, s'.cells, s'.hist, i);
  }

  // ---------------------------------------------------------------- a cycle of calls

  /** `n` calls have been made; those of the first interaction are not registered. */
  ghost predicate GoneRound(s: State, n: nat) {
    && Quiescent(s) && |s.cells| == |s.hist| == n + 1 && |s.calls| == n && SentFirst(s)
    && |s.contexts| == 2 && s.contexts[1].alive && (forall i :: 0 <= i < |s.cells| ==> !s.cells[i].kind.Timeout?)
    && forall id :: id in s.idFuncMap && s.idFuncMap[id] < |s.hist| ==> s.hist[s.idFuncMap[id]].call >= 3
  }

  lemma RoundRoom(s: State, n: nat)
    requires GoneRound(s, n) && n <= CYCLE + 1
    ensures Quiescent(s) && HasRoom(s, 1)
  {
    hide Quiescent, HasRoom;
    NoneUnstarted(s.cells);
    RoomSince(s, 1, 3);
  }

  lemma NextCall(s: State, s': State, n: nat, c: nat)
    requires GoneRound(s, n) && n >= 2 && Quiescent(s') && Extended(s, s') && CallMade(s, s', c, ASK)
    ensures GoneRound(s', n + 1) && IsLast(s', n + 1, c)
  {
    hide Quiescent, IdOf;
  }

  /** The n-th call, made with cell `c`, is registered. */
  ghost predicate IsLast(s: State, n: nat, c: nat)
    requires n > 0
  {
    && c < |s.cells| == |s.hist| && s.cells[c].kind == Rpc(Some(ASK)) && s.cells[c].status.Empty? && s.hist[c].call == n
    && IdOf(n) in s.idFuncMap && s.idFuncMap[IdOf(n)] == c
  }

  // ---------------------------------------------------------------- the run

  const IDLE := ServerState(SERVICE, [], [])

  /** The first interaction, in which `n` of the two calls have been made. */
  ghost predicate Calling(s: State, n: nat) {
    && Quiescent(s) && |s.cells| == |s.hist| == |s.calls| == n <= 2 && (forall i :: s.channel(i).Accepted?)
    && |s.contexts| == 1 && s.contexts[0].alive && s.contexts[0].result.None?
    && (forall i :: 0 <= i < n ==>
          && PendingRpc(s, i, 0) && s.cells[i].seqId == IdOf(i + 1)
          && s.cells[i].kind == Rpc(Some(if i == 0 then FIRST else ASK)))
    && s.sent == [RequestOf(FIRST, 1), RequestOf(ASK, 2)][..n] && s.sentCalls == [1, 2][..n]
  }

  lemma CallingRoom(s: State, n: nat)
    requires Calling(s, n)
    ensures HasRoom(s, 1)
  {
    hide Quiescent, HasRoom, IdOf;
    SmallIds();
    assert forall i :: 0 <= i < n ==> PendingRpc(s, i, 0);
    NoneUnstarted(s.cells);
    SmallRoom(s, 1);
  }

  lemma OneMoreCalling(s: State, s': State, n: nat, c: nat, out: Outgoing)
    requires Calling(s, n) && n < 2 && Quiescent(s') && Extended(s, s') && CallMade(s, s', c, out)
    requires PendingRpc(s', c, 0) || FailedRpc(s', c)
    requires out == if n == 0 then FIRST else ASK
    ensures Calling(s', n + 1)
  {
    hide Quiescent, IdOf;
    var all, calls := [RequestOf(FIRST, 1), RequestOf(ASK, 2)], [1, 2];
    assert all[..n + 1] == all[..n] + [all[n]] && calls[..n + 1] == calls[..n] + [calls[n]];
    forall i | 0 <= i < n
      ensures PendingRpc(s', i, 0) && s'.cells[i].seqId == IdOf(i + 1)
              && s'.cells[i].kind == Rpc(Some(if i == 0 then FIRST else ASK))
    {
      assert PendingRpc(s, i, 0) && s'.cells[i] == s.cells[i] && s'.hist[i] == s.hist[i];
    }
  }

  lemma CanBindSecond(s: State)
    requires Calling(s, 2)
    ensures CanBindResult(s, 1)
  {
    hide Quiescent, IdOf;
    assert PendingRpc(s, 1, 0);
  }

  /** The second call decides the result of the interaction. */
  ghost predicate Decided(s: State) {
    && |s.cells| == |s.hist| == |s.calls| == 2 && SentFirst(s)
    && |s.contexts| == 1 && s.contexts[0].alive && (forall i :: 0 <= i < 2 ==> s.cells[i].ctx == 0)
    && s.cells[0].kind == Rpc(Some(FIRST)) && s.cells[1].kind == Rpc(Some(ASK))
    && s.cells[1].status.Empty? && s.cells[1].alive && s.cells[1].seqId == IdOf(2) && s.cells[1].owner == Result
  }

  lemma SecondBound(s: State, s': State)
    requires Calling(s, 2) && CanBindResult(s, 1) && s' == ResultBound(s, 1) && Quiescent(s')
    ensures Decided(s') && AreInputs(s', [1], s'.cells[1].ctx) && HasRoom(s', 0)
  {
    hide Quiescent, HasRoom, IdOf;
    SmallIds();
    assert PendingRpc(s, 0, 0) && PendingRpc(s, 1, 0);
    var all, calls := [RequestOf(FIRST, 1), RequestOf(ASK, 2)], [1, 2];
    assert all[..2] == all && calls[..2] == calls;
    NoneUnstarted(s'.cells);
    SmallRoom(s', 0);
  }

  lemma FinalAttached(s: State, s': State, l: nat)
    requires Decided(s) && Quiescent(s') && l == 2 < |s'.cells| && l < |s'.hist| && Built(s, s', l)
    requires s'.cells[l].kind == Final(1) && s'.cells[l].armed && s'.hist[l].early
    ensures Opened(s')
  {
    assert |s'.cells| == |s'.hist| && FellowsOk(s'.cells, l) && Deps(s'.cells[l].kind)[0] == 1;
    hide Quiescent, IdOf, HistGrows, StallsStay, Unanswered, FellowsOk;
  }

  /** User code makes the two calls, and has the second one decide the interaction. */
  method Open() returns (client: Runtime, ghost worlds: seq<World>)
    ensures fresh(client) && fresh(client.ids) && client.IdsOk()
    ensures Opened(client.S()) && IsWorldRunTo(worlds, TheWorld(client.S(), IDLE))
  {
    client := new Runtime(AlwaysAccepted());
    worlds := [TheWorld(client.S(), IDLE)];
    ghost var s := client.S();
    var ctx := client.NewContext();
    hide Quiescent, Quiet, HasRoom, IsWorldRunTo, Built, AreInputs, Extended, CallMade, PendingRpc, FailedRpc;
    UserGoesOn(worlds, s, client.S(), IDLE);
    worlds := worlds + [TheWorld(client.S(), IDLE)];
    worlds := CallOnce(client, 0, FIRST, worlds);
    worlds := CallOnce(client, 1, ASK, worlds);

    s := client.S();
    CanBindSecond(s);
    client.BindResult(1);
    UserGoesOn(worlds, s, client.S(), IDLE);
    worlds := worlds + [TheWorld(client.S(), IDLE)];
    SecondBound(s, client.S());

    s := client.S();
    var l := client.DeriveFinalAction(1);
    FinalAttached(s, client.S(), l);
    UserGoesOn(worlds, s, client.S(), IDLE);
    worlds := worlds + [TheWorld(client.S(), IDLE)];
  }

  method CallOnce(client: Runtime, n: nat, out: Outgoing, ghost worlds0: seq<World>) returns (ghost worlds: seq<World>)
    requires Calling(client.S(), n) && n < 2 && client.IdsOk() && out == if n == 0 then FIRST else ASK
    requires IsWorldRunTo(worlds0, TheWorld(client.S(), IDLE))
    modifies client, client.ids
    ensures Calling(client.S(), n + 1) && client.IdsOk() && IsWorldRunTo(worlds, TheWorld(client.S(), IDLE))
  {
    hide Quiescent, Quiet, HasRoom, IsWorldRunTo, Extended, CallMade, PendingRpc, FailedRpc;
    ghost var s := client.S();
    CallingRoom(s, n);
    var c := client.CallStub(0, out);
    OneMoreCalling(s, client.S(), n, c, out);
    UserGoesOn(worlds0, s, client.S(), IDLE);
    worlds := worlds0 + [TheWorld(client.S(), IDLE)];
  }

  /** The second call is answered in time. */
  method Close() returns (client: Runtime, ghost worlds: seq<World>, ghost server: ServerState)
    ensures fresh(client) && fresh(client.ids) && client.IdsOk() && server == Served(IDLE, RequestOf(ASK, 2).request)
    ensures Closed(client.S()) && IsWorldRunTo(worlds, TheWorld(client.S(), server))
  {
    hide Quiescent, HasRoom, IsWorldRunTo, Opened, Closed, Dispatched, AttemptTaken, TakesResponse, Received;
    client, worlds := Open();
    ghost var s := client.S();
    OpenedRoom(s);
    server := Served(IDLE, RequestOf(ASK, 2).request);
    SecondSent(s);
    ServerGoesOn(worlds, s, IDLE, RequestOf(ASK, 2).request);
    worlds := worlds + [TheWorld(s, server)];
    client.HandleRpcRsp(2, Succeeded, [1]);
    GivenUp(s, client.S());
    AnswerInTime(worlds, s, client.S());
    worlds := worlds + [TheWorld(client.S(), server)];
  }

  lemma SecondSent(s: State)
    requires Opened(s)
    ensures Sent("", RequestOf(ASK, 2).request) in s.sent && 1 < |s.sent| && 1 < |s.sentCalls| && |s.calls| == 2
    ensures s.sent[1] == RequestOf(ASK, 2) && s.sentCalls[1] == 2
  {
    assert s.sent[1] == [RequestOf(FIRST, 1), RequestOf(ASK, 2)][1] && s.sentCalls[1] == [1, 2][1];
  }

  lemma AnswerInTime(worlds: seq<World>, s: State, s': State)
    requires Opened(s) && Quiescent(s') && TakesResponse(s, s', 2, Succeeded, [1])
    requires IsWorldRunTo(worlds, TheWorld(s, Served(IDLE, RequestOf(ASK, 2).request)))
    ensures var w' := TheWorld(s', Served(IDLE, RequestOf(ASK, 2).request)); IsWorldRunTo(worlds + [w'], w')
  {
    hide Quiescent, IsWorldRunTo, TakesResponse, Received, IdOf;
    SmallIds();
    SecondSent(s);
    ServedAnswers(IDLE, RequestOf(ASK, 2).request);
    var server := Served(IDLE, RequestOf(ASK, 2).request);
    hide Served, Opened;
    assert DeliverStep(TheWorld(s, server), TheWorld(s', server), 0, 0);
    WorldGoesOn(worlds, TheWorld(s, server), TheWorld(s', server));
  }

  method CallAgain(client: Runtime, n: nat, ghost worlds0: seq<World>, ghost server: ServerState)
    returns (c: nat, ghost worlds: seq<World>)
    requires GoneRound(client.S(), n) && 2 <= n <= CYCLE && client.IdsOk()
    requires IsWorldRunTo(worlds0, TheWorld(client.S(), server))
    modifies client, client.ids
    ensures GoneRound(client.S(), n + 1) && client.IdsOk() && IsWorldRunTo(worlds, TheWorld(client.S(), server))
    ensures IsLast(client.S(), n + 1, c)
  {
    hide Quiescent, Quiet, HasRoom, IsWorldRunTo, Extended, CallMade, PendingRpc, FailedRpc, IdOf;
    ghost var s := client.S();
    RoundRoom(s, n);
    c := client.CallStub(1, ASK);
    NextCall(s, client.S(), n, c);
    UserGoesOn(worlds0, s, client.S(), server);
    worlds := worlds0 + [TheWorld(client.S(), server)];
  }

  /** Another interaction uses up the ids until that of the first call is registered again. */
  method GoRound() returns (client: Runtime, c: nat, ghost worlds: seq<World>, ghost server: ServerState)
    ensures fresh(client) && fresh(client.ids) && client.IdsOk() && server == Served(IDLE, RequestOf(ASK, 2).request)
    ensures GoneRound(client.S(), CYCLE + 1) && IsLast(client.S(), CYCLE + 1, c)
    ensures IsWorldRunTo(worlds, TheWorld(client.S(), server))
  {
    hide Quiescent, Quiet, IsWorldRunTo, GoneRound, IsLast, Served;
    client, worlds, server := Close();
    ghost var s := client.S();
    var ctx := client.NewContext();
    StartsRound(s, client.S());
    UserGoesOn(worlds, s, client.S(), server);
    worlds := worlds + [TheWorld(client.S(), server)];
    for n := 2 to CYCLE
      invariant fresh(client) && fresh(client.ids) && client.IdsOk()
      invariant GoneRound(client.S(), n) && IsWorldRunTo(worlds, TheWorld(client.S(), server))
    {
      c, worlds := CallAgain(client, n, worlds, server);
    }
    c, worlds := CallAgain(client, CYCLE, worlds, server);
  }

  lemma StartsRound(s: State, s': State)
    requires Closed(s) && s' == ContextAdded(s) && Quiescent(s')
    ensures GoneRound(s', 2)
  {
    hide Quiescent;
  }

  /**
   * A run of the world, every delivery in it less than a cycle of ids old, after which a response to the first call
   * arrives at last: the call of one cycle later takes it, although no server has ever seen its request.
   */
  method ForeignAnswerRun() returns (client: Runtime, c: nat, ghost worlds: seq<World>, ghost w: World, ghost w': World)
    ensures IsWorldRunTo(worlds, w) && DeliverAny(w, w', 0, 1) && w'.client == client.S() && client.Valid()
    ensures w.servers[0].served[w.servers[0].sent[1].origin].request == RequestOf(FIRST, 1).request
    ensures c < |w.client.cells| == |w.client.hist| && w.client.cells[c].status.Empty?
    ensures w.client.cells[c].kind == Rpc(Some(ASK)) && w.client.hist[c].call == CYCLE + 1
    ensures c < |w'.client.cells| && w'.client.cells[c].status == TRUTH && !Genuine(w', c, TRUTH.value)
  {
    hide Quiescent, HasRoom, IsWorldRunTo, GoneRound, Served, TakesResponse, AttemptTaken, Genuine, IdOf;
    ghost var server;
    client, c, worlds, server := GoRound();
    ghost var s := client.S();
    FirstSent(s);
    ServerGoesOn(worlds, s, server, RequestOf(FIRST, 1).request);
    server := Served(server, RequestOf(FIRST, 1).request);
    w := TheWorld(s, server);
    worlds := worlds + [w];
    RoundRoom(s, CYCLE + 1);
    TakesIt(s, c);
    client.HandleRpcRsp(1, Succeeded, [1]);
    w' := TheWorld(client.S(), server);
    BothServed(server);
    AnswerTooLate(s, client.S(), server);
    NotItsOwn(s, client.S(), c, server);
  }

  lemma FirstSent(s: State)
    requires GoneRound(s, CYCLE + 1)
    ensures Sent("", RequestOf(FIRST, 1).request) in s.sent
  {
    hide Quiescent;
    assert s.sent[0] == [RequestOf(FIRST, 1), RequestOf(ASK, 2)][0];
  }

  lemma TakesIt(s: State, c: nat)
    requires IsLast(s, CYCLE + 1, c)
    ensures 1 in s.idFuncMap && s.idFuncMap[1] == c && OutOf(s, 1) == Some(ASK) && Answer(ASK, Succeeded, [1]) == TRUTH
  {
    hide IdOf;
    FirstIdAgain();
  }

  /** The service has answered first the second call, then the first. */
  ghost predicate AnsweredBoth(server: ServerState) {
    && |server.served| == |server.sent| == 2
    && server.served[0].request == RequestOf(ASK, 2).request && server.served[1].request == RequestOf(FIRST, 1).request
    && server.sent[1] == Reply(0, Response(RequestOf(FIRST, 1).request.header, Succeeded, [1]), 1)
  }

  lemma BothServed(server: ServerState)
    requires server == Served(Served(IDLE, RequestOf(ASK, 2).request), RequestOf(FIRST, 1).request)
    ensures AnsweredBoth(server)
  {
    hide Served, IdOf;
    ServedAnswers(IDLE, RequestOf(ASK, 2).request);
    ServedAnswers(Served(IDLE, RequestOf(ASK, 2).request), RequestOf(FIRST, 1).request);
  }

  lemma AnswerTooLate(s: State, s': State, server: ServerState)
    requires AnsweredBoth(server) && Quiescent(s') && TakesResponse(s, s', 1, Succeeded, [1])
    ensures DeliverAny(TheWorld(s, server), TheWorld(s', server), 0, 1)
  {
    hide Quiescent, TakesResponse;
    SmallIds();
  }

  lemma NotItsOwn(s: State, s': State, c: nat, server: ServerState)
    requires IsLast(s, CYCLE + 1, c) && Quiescent(s) && Quiescent(s') && AnsweredBoth(server)
    requires Dispatched(s, s', c, TRUTH)
    ensures c < |s'.cells| && s'.cells[c].status == TRUTH && !Genuine(TheWorld(s', server), c, TRUTH.value)
  {
    assert |s'.cells| == |s'.hist|;
    hide Quiescent, IdOf, Genuine, AnsweredBoth;
    NeverSeen(s', c, server);
  }

  /** The server has seen requests with other ids or other payloads only. */
  lemma NeverSeen(s: State, c: nat, server: ServerState)
    requires c < |s.cells| == |s.hist| && s.cells[c].kind == Rpc(Some(ASK)) && s.hist[c].call == CYCLE + 1
    requires AnsweredBoth(server)
    ensures !Genuine(TheWorld(s, server), c, TRUTH.value)
  {
    hide IdOf, Offers;
    SmallIds();
    FirstIdAgain();
    forall j, n ensures !ProducedBy(TheWorld(s, server), c, TRUTH.value, j, n) {
    }
  }
}
