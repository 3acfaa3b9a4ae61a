/** The controllers behind the main window: the server switch, the chat send buttons and the
    quiz actions. Each picks at most one way out for a message (the first client link, a
    named server-side connection, or none with an error line) from the content, the
    recipient and whether the logged-in user is the administrator. */
module Controllers {
  import opened JavaLang
  import opened Seqs
  import opened Protocol
  import opened NetUtil
  import Network
  import QuizModel

  /** `isUserAdmin`, the same in the chat and the quiz controller: the username is "admin"
      in any case, the password is "admin" exactly. */
  predicate IsUserAdmin(user: User)
  {
    EqualsIgnoreCase(user.username, "admin") && user.password == "admin"
  }

  /** The user name matters up to case, the password does not. */
  lemma AdminTest(user: User)
    ensures IsUserAdmin(User("ADMIN", "admin")) && IsUserAdmin(User("Admin", "admin"))
    ensures !IsUserAdmin(User("admin", "ADMIN"))
    ensures IsUserAdmin(user) ==> |user.username| == 5 && user.password == "admin"
  {
    assert !EqualsIgnoreCase("ADMIN", "admin") ==> false by {
      forall i | 0 <= i < 5 ensures Fold("ADMIN"[i]) == Fold("admin"[i]) { }
    }
    assert EqualsIgnoreCase("Admin", "admin") by {
      forall i | 0 <= i < 5 ensures Fold("Admin"[i]) == Fold("admin"[i]) { }
    }
  }

  // ---------------------------------------------------------------- server controller

  /** The line reported for a port outside the allowed range. */
  function InvalidPortLine(): string
  {
    "❌ Invalid port! Must be between " + IntToString(MinPort) + "-" + IntToString(MaxPort)
  }

  /** `ServerController`: at most one server, and a running flag of its own. */
  class ServerController {
    const username: string
    var server: Network.Server?
    var running: bool
    /** Every line given to the status listener, in order. */
    var status: seq<string>

    ghost predicate Valid()
      reads this, server
    {
      server != null ==> server.Valid()
    }

    constructor (username: string)
      ensures Valid() && this.username == username
      ensures server == null && !running && status == []
    {
      this.username := username;
      server := null;
      running := false;
      status := [];
    }

    /** `startServer`: refused while running and for a port outside 1024..65535; otherwise
        a fresh server is created and started. */
    method StartServer(port: int) returns (ok: bool)
      requires Valid()
      modifies this
      ensures Valid()
      ensures old(running) ==> !ok && running && server == old(server)
                               && status == old(status) + ["❌ Server is already running!"]
      ensures !old(running) && !IsValidPort(port) ==>
        !ok && !running && server == old(server) && status == old(status) + [InvalidPortLine()]
      ensures !old(running) && IsValidPort(port) ==>
        ok && running && fresh(server) && server.port == port && server.currentUsername == username
        && server.running && server.connections == [] && server.usernames == map[] && server.heartbeats == map[]
        && status == old(status) + ["✅ Server started on port " + IntToString(port)]
    {
      if running {
        status := status + ["❌ Server is already running!"];
        return false;
      }
      if port < MinPort || port > MaxPort {
        status := status + [InvalidPortLine()];
        return false;
      }
      var s := new Network.Server(port, username);
      s.Start();
      server := s;
      running := true;
      status := status + ["✅ Server started on port " + IntToString(port)];
      return true;
    }

    /** `stopServer`: only a running server is stopped; the controller then reports it
        stopped. */
    method StopServer() returns (ghost extras: seq<Message>)
      requires Valid()
      modifies this, server
      ensures Valid() && server == old(server)
      ensures !old(running) || server == null ==>
        running == old(running) && status == old(status) + ["❌ Server is not running!"]
        && (server != null ==> unchanged(server))
      ensures old(running) && server != null ==>
        !running && !server.running && status == old(status) + ["✅ Server stopped"]
        && server.connections == [] && server.usernames == map[] && server.heartbeats == map[]
        && Network.ShutDown(old(server.peers), server.peers, old(server.connections), [Network.ShutdownMessage()] + extras)
    {
      extras := [];
      if !running || server == null {
        status := status + ["❌ Server is not running!"];
        return;
      }
      extras := server.Stop();
      running := false;
      status := status + ["✅ Server stopped"];
    }

    /** `broadcast`: forwarded only while running with a server. */
    method Broadcast(m: Message) returns (ghost extras: seq<Message>)
      requires Valid()
      modifies server
      ensures Valid()
      ensures running && server != null ==>
        Network.Broadcasted(old(server.State()), server.State(), [m] + extras) && server.Rest() == old(server.Rest())
      ensures !(running && server != null) ==> server != null ==> unchanged(server)
    {
      extras := [];
      if running && server != null {
        ghost var n0 := server.State();
        extras := server.Broadcast(m);
        Network.BroadcastShrinks(n0, server.State(), [m] + extras);
      }
    }
  }

  // ---------------------------------------------------------------- chat controller

  /** The three log consumers the chat controller writes to. */
  datatype Logger = ChatLogger | BroadcastLogger | P2PLogger

  /** What one chat action did: nothing, one message sent along one route plus one log
      line, or one error line. */
  datatype ChatEffect =
    | NoEffect
    | Sent(route: Route, message: Message, logger: Logger, line: string)
    | ErrorLogged(logger: Logger, line: string)

  /** `content == null || content.trim().isEmpty()`. */
  predicate BlankContent(content: Option<string>)
  {
    content.None? || IsBlank(content.value)
  }

  const NotConnected: string := "[ERROR] Not connected to server!"

  /** `sendGroupMessage`: TEXT to "all" through the first client link. */
  function SendGroupMessage(user: User, clients: seq<ClientPeer>, content: Option<string>): (e: ChatEffect)
    ensures e.NoEffect? <==> BlankContent(content)
    ensures e.Sent? <==> !BlankContent(content) && clients != []
    ensures e.Sent? ==> e.route == ViaClient(clients[0]) && e.logger == ChatLogger
                        && e.message == Msg(user.username, "all", content.value, Text)
    ensures e.ErrorLogged? ==> e == ErrorLogged(ChatLogger, NotConnected)
  {
    if BlankContent(content) then NoEffect
    else
      var message := Msg(user.username, "all", content.value, Text);
      if clients != [] then Sent(ViaClient(clients[0]), message, ChatLogger, "You: " + content.value)
      else ErrorLogged(ChatLogger, NotConnected)
  }

  /** `sendBroadcast`: BROADCAST to "all" through the first client link. */
  function SendBroadcast(user: User, clients: seq<ClientPeer>, content: Option<string>): (e: ChatEffect)
    ensures e.NoEffect? <==> BlankContent(content)
    ensures e.Sent? <==> !BlankContent(content) && clients != []
    ensures e.Sent? ==> e.route == ViaClient(clients[0]) && e.logger == BroadcastLogger
                        && e.message == Msg(user.username, "all", content.value, Broadcast)
    ensures e.ErrorLogged? ==> e == ErrorLogged(BroadcastLogger, NotConnected)
  {
    if BlankContent(content) then NoEffect
    else
      var message := Msg(user.username, "all", content.value, Broadcast);
      if clients != [] then Sent(ViaClient(clients[0]), message, BroadcastLogger, "[BROADCAST] You: " + content.value)
      else ErrorLogged(BroadcastLogger, NotConnected)
  }

  /** `sendP2PMessage`: PEER_TO_PEER to the recipient; the administrator writes straight to
      the connection registered under that name, anyone else goes through the first client
      link and so through the server. */
  function SendP2PMessage(user: User, clients: seq<ClientPeer>, conns: map<string, ConnId>,
                          recipient: Option<string>, content: Option<string>): (e: ChatEffect)
    ensures e.NoEffect? <==> BlankContent(content) || recipient.None?
    ensures e.Sent? ==> recipient.Some? && content.Some? && e.logger == P2PLogger
                        && e.message == Msg(user.username, recipient.value, content.value, PeerToPeer)
    ensures e.Sent? && IsUserAdmin(user) ==> recipient.value in conns && e.route == ViaConnection(conns[recipient.value])
    ensures e.Sent? && !IsUserAdmin(user) ==> clients != [] && e.route == ViaClient(clients[0])
    ensures e.ErrorLogged? ==> recipient.Some? && e.logger == P2PLogger
  {
    if BlankContent(content) || recipient.None? then NoEffect
    else
      var r := recipient.value;
      var message := Msg(user.username, r, content.value, PeerToPeer);
      if IsUserAdmin(user) then
        if r in conns then Sent(ViaConnection(conns[r]), message, P2PLogger, "You → " + r + ": " + content.value)
        else ErrorLogged(P2PLogger, "[ERROR] Peer not found: " + r)
      else if clients != [] then Sent(ViaClient(clients[0]), message, P2PLogger, "You → " + r + ": " + content.value)
      else ErrorLogged(P2PLogger, NotConnected)
  }

  /** The administrator's direct message fails exactly for an unregistered name, anyone
      else's exactly when there is no client link; the error line says which. */
  lemma P2PFailureCases(user: User, clients: seq<ClientPeer>, conns: map<string, ConnId>, r: string, content: string)
    requires !IsBlank(content)
    ensures var e := SendP2PMessage(user, clients, conns, Some(r), Some(content));
      (IsUserAdmin(user) ==> (e.ErrorLogged? <==> r !in conns)
                             && (e.ErrorLogged? ==> e.line == "[ERROR] Peer not found: " + r))
      && (!IsUserAdmin(user) ==> (e.ErrorLogged? <==> clients == [])
                                 && (e.ErrorLogged? ==> e.line == NotConnected))
  {
  }

  /** A group message and a broadcast with the same content leave by the same route,
      differ only in their type, and succeed or fail together. */
  lemma GroupAndBroadcastAgree(user: User, clients: seq<ClientPeer>, content: Option<string>)
    ensures SendGroupMessage(user, clients, content).Sent? <==> SendBroadcast(user, clients, content).Sent?
    ensures SendGroupMessage(user, clients, content).Sent? ==>
      SendGroupMessage(user, clients, content).route == SendBroadcast(user, clients, content).route
      && SendGroupMessage(user, clients, content).message == SendBroadcast(user, clients, content).message.(kind := Text)
  {
  }

  /** Whenever a chat send goes out, its logged line ends with the content sent. */
  lemma SentLineEndsWithContent(user: User, clients: seq<ClientPeer>, conns: map<string, ConnId>,
                                recipient: Option<string>, content: Option<string>)
    ensures forall e :: e in [SendGroupMessage(user, clients, content), SendBroadcast(user, clients, content),
                              SendP2PMessage(user, clients, conns, recipient, content)] && e.Sent? ==>
      |e.line| >= |content.value| && e.line[|e.line| - |content.value|..] == content.value
  {
  }

  /** A non-administrator's direct message reaches the server as PEER_TO_PEER, which the
      server routes to the connection of that name, not to everyone. */
  lemma ClientP2PIsRoutedByName(user: User, clients: seq<ClientPeer>, conns: map<string, ConnId>, r: string, content: string)
    requires !IsUserAdmin(user) && !IsBlank(content) && clients != []
    ensures var e := SendP2PMessage(user, clients, conns, Some(r), Some(content));
      e.Sent? && e.route.ViaClient? && e.message.kind == PeerToPeer && e.message.receiver == r
      && !Network.IsRebroadcast(e.message.kind)
  {
  }

  // ---------------------------------------------------------------- quiz controller

  /** The QUIZ_START message: from the user to "ALL", carrying the quiz. */
  function QuizStartMessage(user: User, quiz: QuizModel.Quiz): Message
  {
    Message(user.username, "ALL", Some("Quiz Started: " + quiz.title), QuizStart, None, Some(quiz), None, None)
  }

  /** The QUIZ_ANSWER message: from the user to "admin", carrying the answer sheet. */
  function QuizAnswerMessage(user: User, answer: QuizModel.QuizAnswer): Message
  {
    Message(user.username, "admin", Some("Quiz Answer Submitted"), QuizAnswer, None, None, Some(answer), None)
  }

  /** The QUIZ_RESULT message: from the user to the target, carrying the result. */
  function QuizResultMessage(user: User, target: string, result: QuizModel.QuizResult): Message
  {
    Message(user.username, target, Some("Quiz Results"), QuizResult, None, None, None, Some(result))
  }

  /** The status line for a quiz started or received. */
  function QuizLine(prefix: string, quiz: QuizModel.Quiz): string
    reads quiz
  {
    prefix + quiz.title + " (" + IntToString(|quiz.questions|) + " questions)"
  }

  /** One send of `m` to each name of `order`, through that name's connection. */
  function SendsTo(order: seq<string>, conns: map<string, ConnId>, m: Message): (sends: seq<(Route, Message)>)
    requires forall k :: k in order ==> k in conns
    ensures |sends| == |order|
    ensures forall i :: 0 <= i < |order| ==> sends[i] == (ViaConnection(conns[order[i]]), m)
  {
    if order == [] then [] else SendsTo(order[..|order| - 1], conns, m) + [(ViaConnection(conns[order[|order| - 1]]), m)]
  }

  /** Sending to every registered name reaches each registered connection, and sends
      exactly as many messages as there are names. */
  lemma SendsToEveryName(order: seq<string>, conns: map<string, ConnId>, m: Message)
    requires IsOrderingOf(order, conns.Keys)
    ensures forall k :: k in conns ==> (ViaConnection(conns[k]), m) in SendsTo(order, conns, m)
    ensures |SendsTo(order, conns, m)| == |conns|
  {
    forall k | k in conns ensures (ViaConnection(conns[k]), m) in SendsTo(order, conns, m) {
      var i :| 0 <= i < |order| && order[i] == k;
      assert SendsTo(order, conns, m)[i] == (ViaConnection(conns[k]), m);
    }
    OrderingLength(order, conns.Keys);
    assert |conns.Keys| == |conns|;
  }

  /** The loop over `peerConnections.values()`: one send of `m` per registered name, in an
      unspecified order. */
  method SendToEveryConnection(conns: map<string, ConnId>, m: Message)
    returns (sends: seq<(Route, Message)>, ghost order: seq<string>)
    ensures IsOrderingOf(order, conns.Keys) && sends == SendsTo(order, conns, m)
  {
    sends, order := [], [];
    var remaining := conns.Keys;
    while remaining != {}
      invariant remaining <= conns.Keys
      invariant IsOrderingOf(order, conns.Keys - remaining)
      invariant sends == SendsTo(order, conns, m)
      decreases |remaining|
    {
      var k :| k in remaining;
      OrderingExtend(order, conns.Keys - remaining, k);
      assert conns.Keys - (remaining - {k}) == (conns.Keys - remaining) + {k};
      assert (order + [k])[..|order|] == order;
      sends := sends + [(ViaConnection(conns[k]), m)];
      order := order + [k];
      remaining := remaining - {k};
    }
    assert conns.Keys - remaining == conns.Keys;
  }

  /** `QuizController`: the quiz in progress, what the controller logged and what it sent,
      in order. */
  class QuizController {
    const user: User
    /** The shared client-link list and name-to-connection table. */
    var clients: seq<ClientPeer>
    var conns: map<string, ConnId>
    var activeQuiz: QuizModel.Quiz?
    var log: seq<string>
    var outbox: seq<(Route, Message)>

    constructor (user: User, clients: seq<ClientPeer>, conns: map<string, ConnId>)
      ensures this.user == user && this.clients == clients && this.conns == conns
      ensures activeQuiz == null && log == [] && outbox == []
    {
      this.user := user;
      this.clients := clients;
      this.conns := conns;
      activeQuiz := null;
      log := [];
      outbox := [];
    }

    /** `startQuiz`: the administrator only; the quiz becomes active and QUIZ_START goes
        once to every registered connection. */
    method StartQuiz(quiz: QuizModel.Quiz) returns (ghost order: seq<string>)
      modifies this
      ensures clients == old(clients) && conns == old(conns)
      ensures !IsUserAdmin(user) ==>
        activeQuiz == old(activeQuiz) && outbox == old(outbox)
        && log == old(log) + ["[ERROR] Only admin can start quizzes"]
      ensures IsUserAdmin(user) ==>
        activeQuiz == quiz && IsOrderingOf(order, conns.Keys)
        && outbox == old(outbox) + SendsTo(order, conns, QuizStartMessage(user, quiz))
        && log == old(log) + [QuizLine("[QUIZ] Started: ", quiz)]
    {
      order := [];
      if !IsUserAdmin(user) {
        log := log + ["[ERROR] Only admin can start quizzes"];
        return;
      }
      activeQuiz := quiz;
      var sends;
      sends, order := SendToEveryConnection(conns, QuizStartMessage(user, quiz));
      outbox := outbox + sends;
      log := log + [QuizLine("[QUIZ] Started: ", quiz)];
    }

    /** `submitQuizAnswer`: QUIZ_ANSWER to "admin" through the first client link. */
    method SubmitQuizAnswer(answer: QuizModel.QuizAnswer)
      modifies this
      ensures clients == old(clients) && conns == old(conns) && activeQuiz == old(activeQuiz)
      ensures clients == [] ==> outbox == old(outbox) && log == old(log) + ["[ERROR] Not connected to server"]
      ensures clients != [] ==>
        outbox == old(outbox) + [(ViaClient(clients[0]), QuizAnswerMessage(user, answer))]
        && log == old(log) + ["[QUIZ] Answer submitted for question " + IntToString(|answer.answers|)]
    {
      if clients == [] {
        log := log + ["[ERROR] Not connected to server"];
        return;
      }
      outbox := outbox + [(ViaClient(clients[0]), QuizAnswerMessage(user, answer))];
      log := log + ["[QUIZ] Answer submitted for question " + IntToString(|answer.answers|)];
    }

    /** `sendQuizResult`: the administrator only, and only to a registered name; then
        exactly one QUIZ_RESULT to that name's connection. */
    method SendQuizResult(target: string, result: QuizModel.QuizResult)
      modifies this
      ensures clients == old(clients) && conns == old(conns) && activeQuiz == old(activeQuiz)
      ensures !IsUserAdmin(user) ==> outbox == old(outbox) && log == old(log) + ["[ERROR] Only admin can send results"]
      ensures IsUserAdmin(user) && target !in conns ==>
        outbox == old(outbox) && log == old(log) + ["[ERROR] User not found: " + target]
      ensures IsUserAdmin(user) && target in conns ==>
        outbox == old(outbox) + [(ViaConnection(conns[target]), QuizResultMessage(user, target, result))]
        && log == old(log) + ["[QUIZ] Sent results to " + target + ": " + IntToString(result.correctAnswers)
                              + "/" + IntToString(result.totalQuestions)]
    {
      if !IsUserAdmin(user) {
        log := log + ["[ERROR] Only admin can send results"];
        return;
      }
      if target !in conns {
        log := log + ["[ERROR] User not found: " + target];
        return;
      }
      outbox := outbox + [(ViaConnection(conns[target]), QuizResultMessage(user, target, result))];
      log := log + ["[QUIZ] Sent results to " + target + ": " + IntToString(result.correctAnswers)
                    + "/" + IntToString(result.totalQuestions)];
    }

    /** `setActiveQuiz`: a quiz received from the server replaces the active one. */
    method SetActiveQuiz(quiz: QuizModel.Quiz)
      modifies this
      ensures activeQuiz == quiz && outbox == old(outbox) && clients == old(clients) && conns == old(conns)
      ensures log == old(log) + [QuizLine("[QUIZ] Received: ", quiz)]
    {
      activeQuiz := quiz;
      log := log + [QuizLine("[QUIZ] Received: ", quiz)];
    }
  }
}
