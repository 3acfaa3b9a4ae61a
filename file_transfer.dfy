/** The file-transfer manager: the client links and named server-side connections a file can
    be sent through, the per-transfer status record, and the two ways `sendFile` picks its
    targets. Whether one send attempt succeeds is decided outside this process (the socket, a
    worker thread, a 30-second wait), so it is an input: a function from the attempt to its
    outcome. */
module FileTransfers {
  import opened JavaLang
  import opened Seqs
  import opened Protocol

  /** One send attempt: through a client link, or through the connection registered under
      a name. */
  datatype Attempt = ToClient(client: ClientPeer) | ToNamed(name: string, conn: ConnId)

  /** What became of one attempt: delivered, or failed with the exception's message. */
  datatype Outcome = Delivered | Failed(message: string)

  // ---------------------------------------------------------------- progress

  /** Java `long` division, truncating toward zero, for a non-zero divisor of either sign. */
  function TruncDiv(a: int, b: int): int
    requires b != 0
  {
    if b > 0 then JavaDiv(a, b) else -JavaDiv(a, -b)
  }

  /** `getProgress` on `sentBytes` and `totalBytes`: 0 for an empty file, otherwise the
      truncated percentage, narrowed to `int`. */
  function ProgressOf(sent: int, total: int): int
  {
    if total == 0 then 0 else Wrap32(TruncDiv(sent * 100, total))
  }

  /** Multiplying by a non-negative factor keeps order. */
  lemma MulMono(x: int, y: int, t: int)
    requires x <= y && t >= 0
    ensures x * t <= y * t
  {
    assert y * t - x * t == (y - x) * t;
  }

  /** Integer division by a positive divisor keeps order. */
  lemma DivMono(a: int, b: int, t: int)
    requires 0 <= a <= b && t > 0
    ensures a / t <= b / t
  {
    if a / t > b / t {
      MulMono(b / t + 1, a / t, t);
      assert false;
    }
  }

  /** A dividend below `q` times the divisor has a quotient below `q`. */
  lemma DivBelow(a: int, t: int, q: int)
    requires t > 0 && 0 <= a < q * t
    ensures a / t < q
  {
    if a / t >= q {
      MulMono(q, a / t, t);
      assert false;
    }
  }

  /** A whole file is a hundred percent. */
  lemma WholeIsHundred(total: int)
    requires total > 0
    ensures (total * 100) / total == 100
  {
  }

  /** Within the file's size the quotient is a percentage. */
  lemma QuotientBounds(sent: int, total: int)
    requires 0 <= sent <= total && total > 0
    ensures 0 <= (sent * 100) / total <= 100
  {
    MulMono(sent, total, 100);
    DivMono(sent * 100, total * 100, total);
    WholeIsHundred(total);
  }

  /** Within the file's size the progress is the plain quotient: no truncation toward zero
      differs from flooring and no narrowing to `int` bites. */
  lemma ProgressIsQuotient(sent: int, total: int)
    requires 0 <= sent <= total && total > 0
    ensures ProgressOf(sent, total) == (sent * 100) / total
    ensures 0 <= (sent * 100) / total <= 100
  {
    QuotientBounds(sent, total);
    assert TruncDiv(sent * 100, total) == (sent * 100) / total;
  }

  /** While no more has been sent than the file holds, the progress is a percentage, and it
      reaches 100 exactly when everything has been sent. */
  lemma ProgressBounds(sent: int, total: int)
    requires 0 <= sent <= total
    ensures 0 <= ProgressOf(sent, total) <= 100
    ensures total > 0 ==> (ProgressOf(sent, total) == 100 <==> sent == total)
  {
    if total > 0 {
      ProgressIsQuotient(sent, total);
      if sent == total {
        WholeIsHundred(total);
      } else {
        MulMono(sent, total - 1, 100);
        DivBelow(sent * 100, total, 100);
      }
    }
  }

  /** More bytes sent never lowers the progress (within the file's size). */
  lemma ProgressMonotone(s1: int, s2: int, total: int)
    requires 0 <= s1 <= s2 <= total
    ensures ProgressOf(s1, total) <= ProgressOf(s2, total)
  {
    if total > 0 {
      ProgressIsQuotient(s1, total);
      ProgressIsQuotient(s2, total);
      MulMono(s1, s2, 100);
      DivMono(s1 * 100, s2 * 100, total);
    }
  }

  /** `TransferStatus`: the record kept while one `sendFile` call runs. */
  class TransferStatus {
    const fileName: string
    const totalBytes: int
    var sentBytes: int
    var completed: bool
    var failed: bool
    var error: Option<string>

    /** A new status: nothing sent, neither completed nor failed. */
    constructor (fileName: string, totalBytes: int)
      ensures this.fileName == fileName && this.totalBytes == totalBytes
      ensures sentBytes == 0 && !completed && !failed && error == None
    {
      this.fileName := fileName;
      this.totalBytes := totalBytes;
      sentBytes := 0;
      completed := false;
      failed := false;
      error := None;
    }

    /** `getProgress`. */
    function Progress(): int
      reads this
    {
      ProgressOf(sentBytes, totalBytes)
    }
  }

  // ---------------------------------------------------------------- target selection

  /** One attempt per client link, in list order. */
  function ClientAttempts(clients: seq<ClientPeer>): (r: seq<Attempt>)
    ensures |r| == |clients|
    ensures forall i :: 0 <= i < |clients| ==> r[i] == ToClient(clients[i])
  {
    if clients == [] then [] else [ToClient(clients[0])] + ClientAttempts(clients[1..])
  }

  /** `named` holds one attempt per registered name other than `sender`, through that
      name's connection, each once, in some iteration order of the table. */
  ghost predicate NamedFanOut(named: seq<Attempt>, conns: map<string, ConnId>, sender: string)
  {
    NoDups(named)
    && forall a {:trigger a in named} :: a in named <==> (a.ToNamed? && a.name in conns && a.name != sender && a.conn == conns[a.name])
  }

  /** The attempts of a send to "all": every client, then every named connection except the
      sender's own. */
  ghost predicate FanOut(attempts: seq<Attempt>, clients: seq<ClientPeer>, conns: map<string, ConnId>, sender: string)
  {
    |attempts| >= |clients|
    && attempts[..|clients|] == ClientAttempts(clients)
    && NamedFanOut(attempts[|clients|..], conns, sender)
  }

  /** Every attempt of `attempts` was delivered. */
  ghost predicate AllDelivered(attempts: seq<Attempt>, outcome: Attempt -> Outcome)
  {
    forall a :: a in attempts ==> outcome(a) == Delivered
  }

  /** The name an attempt is addressed to; a client link has none. */
  function NameOf(a: Attempt): string
  {
    if a.ToNamed? then a.name else ""
  }

  /** The names of a fan-out are distinct names of the table. */
  lemma {:induction false} NamedNames(named: seq<Attempt>, conns: map<string, ConnId>, sender: string)
    requires NamedFanOut(named, conns, sender)
    ensures IsOrderingOf(seq(|named|, i requires 0 <= i < |named| => NameOf(named[i])), conns.Keys - {sender})
  {
    var names := seq(|named|, i requires 0 <= i < |named| => NameOf(named[i]));
    forall i, j | 0 <= i < j < |names| ensures names[i] != names[j] {
      assert named[i] in named && named[j] in named;
      assert named[i] != named[j];
    }
    forall k ensures k in names <==> k in conns.Keys - {sender} {
      if k in conns.Keys - {sender} {
        var a := ToNamed(k, conns[k]);
        assert a in named;
        var i :| 0 <= i < |named| && named[i] == a;
        assert names[i] == k;
      }
      if k in names {
        var i :| 0 <= i < |names| && names[i] == k;
        assert named[i] in named;
      }
    }
  }

  /** A send to "all" makes exactly one attempt per client and one per registered name
      other than the sender. */
  lemma FanOutCount(attempts: seq<Attempt>, clients: seq<ClientPeer>, conns: map<string, ConnId>, sender: string)
    requires FanOut(attempts, clients, conns, sender)
    ensures |attempts| == |clients| + |conns.Keys - {sender}|
  {
    var named := attempts[|clients|..];
    NamedNames(named, conns, sender);
    OrderingLength(seq(|named|, i requires 0 <= i < |named| => NameOf(named[i])), conns.Keys - {sender});
  }

  /** With no client and no other name registered, a send to "all" makes no attempt, and
      so succeeds. */
  lemma FanOutNobody(attempts: seq<Attempt>, conns: map<string, ConnId>, sender: string, outcome: Attempt -> Outcome)
    requires FanOut(attempts, [], conns, sender)
    requires conns.Keys <= {sender}
    ensures attempts == [] && AllDelivered(attempts, outcome)
  {
    FanOutCount(attempts, [], conns, sender);
    assert conns.Keys - {sender} == {};
  }

  /** The single target of a send to a named recipient: the connection registered under that
      name, otherwise the first client link whoever it is, otherwise none. */
  function SpecificTarget(clients: seq<ClientPeer>, conns: map<string, ConnId>, recipient: string): (t: Option<Attempt>)
    ensures t == None <==> recipient !in conns && clients == []
    ensures recipient in conns ==> t == Some(ToNamed(recipient, conns[recipient]))
    ensures recipient !in conns && clients != [] ==> t == Some(ToClient(clients[0]))
  {
    if recipient in conns then Some(ToNamed(recipient, conns[recipient]))
    else if clients != [] then Some(ToClient(clients[0]))
    else None
  }

  /** `getConnectedPeerNames`' text for one client link. */
  function ClientName(c: ClientPeer): string
  {
    c.host + ":" + IntToString(c.port)
  }

  // ---------------------------------------------------------------- the manager

  class FileTransferManager {
    /** `connectedPeers`. */
    var clients: seq<ClientPeer>
    /** `peerConnections`: username to server-side connection. */
    var conns: map<string, ConnId>
    /** `activeTransfers`, by transfer id. */
    var activeTransfers: map<string, TransferStatus>
    /** The transfer pool has been shut down and rejects new work. */
    var poolShutDown: bool
    /** Every send attempt handed to a client link or a connection, in order. */
    var attempted: seq<Attempt>

    /** `registerPeer` keeps each client link at most once. */
    ghost predicate Valid()
      reads this
    {
      NoDups(clients)
    }

    constructor ()
      ensures Valid()
      ensures clients == [] && conns == map[] && activeTransfers == map[]
      ensures !poolShutDown && attempted == []
    {
      clients := [];
      conns := map[];
      activeTransfers := map[];
      poolShutDown := false;
      attempted := [];
    }

    /** `registerPeer`: added at the end unless already present. */
    method RegisterPeer(peer: ClientPeer)
      requires Valid()
      modifies this
      ensures Valid()
      ensures clients == if peer in old(clients) then old(clients) else old(clients) + [peer]
      ensures conns == old(conns) && activeTransfers == old(activeTransfers)
      ensures poolShutDown == old(poolShutDown) && attempted == old(attempted)
    {
      if peer !in clients {
        clients := clients + [peer];
        assert forall i :: 0 <= i < |clients| - 1 ==> clients[i] in old(clients);
      }
    }

    /** `unregisterPeer`: removes the link; the others keep their order. */
    method UnregisterPeer(peer: ClientPeer)
      requires Valid()
      modifies this
      ensures Valid()
      ensures clients == Without(old(clients), {peer})
      ensures peer !in clients
      ensures conns == old(conns) && activeTransfers == old(activeTransfers)
      ensures poolShutDown == old(poolShutDown) && attempted == old(attempted)
    {
      RemoveFirstIsWithout(clients, peer);
      WithoutNoDups(clients, {peer});
      clients := RemoveFirst(clients, peer);
    }

    /** `registerPeerConnection`: replaces any connection already under that name. */
    method RegisterPeerConnection(username: string, conn: ConnId)
      modifies this
      ensures conns == old(conns)[username := conn]
      ensures clients == old(clients) && activeTransfers == old(activeTransfers)
      ensures poolShutDown == old(poolShutDown) && attempted == old(attempted)
    {
      conns := conns[username := conn];
    }

    /** `unregisterPeerConnection`: removes that name only. */
    method UnregisterPeerConnection(username: string)
      modifies this
      ensures conns == old(conns) - {username}
      ensures clients == old(clients) && activeTransfers == old(activeTransfers)
      ensures poolShutDown == old(poolShutDown) && attempted == old(attempted)
    {
      conns := conns - {username};
    }

    /** `sendFile`: the status is filed under the fresh id `transferId` for the duration of
        the call only. "all" (compared case-sensitively) fans out; any other recipient gets
        one attempt at most. `rejection` is the message of the exception a shut-down pool
        throws on a submission, which the call records as the status's error. */
    method SendFile(transfer: FileTransfer, recipient: string, transferId: string, outcome: Attempt -> Outcome,
                    rejection: string)
      returns (success: bool, status: TransferStatus)
      requires Valid() && transferId !in activeTransfers
      modifies this
      ensures Valid() && fresh(status)
      ensures activeTransfers == old(activeTransfers)
      ensures clients == old(clients) && conns == old(conns) && poolShutDown == old(poolShutDown)
      ensures status.fileName == transfer.fileName && status.totalBytes == transfer.fileSize
      ensures recipient == "all" ==> FannedOut(old(clients), old(conns), transfer, poolShutDown, outcome, rejection,
                                               old(attempted), attempted, success, status)
      ensures recipient != "all" ==> Targeted(SpecificTarget(old(clients), old(conns), recipient), recipient, outcome,
                                               old(attempted), attempted, success, status)
    {
      status := new TransferStatus(transfer.fileName, transfer.fileSize);
      activeTransfers := activeTransfers[transferId := status];
      if recipient == "all" {
        success := SendToAllPeers(transfer, status, outcome, rejection);
      } else {
        success := SendToSpecificPeer(recipient, status, outcome);
      }
      activeTransfers := activeTransfers - {transferId};
      assert activeTransfers == old(activeTransfers);
    }

    /** `sendToAllPeers`: one attempt per client, then one per other name, each waited for in
        turn; the call succeeds when every attempt did. The status is marked complete either
        way. A shut-down pool rejects the first submission, which `sendFile` reports as a
        failure with the exception's message, `rejection`. */
    method SendToAllPeers(transfer: FileTransfer, status: TransferStatus, outcome: Attempt -> Outcome,
                          rejection: string)
      returns (success: bool)
      requires status.sentBytes == 0 && !status.completed && !status.failed && status.error == None
      modifies this, status
      ensures clients == old(clients) && conns == old(conns) && poolShutDown == old(poolShutDown)
      ensures activeTransfers == old(activeTransfers)
      ensures FannedOut(clients, conns, transfer, poolShutDown, outcome, rejection, old(attempted), attempted, success, status)
    {
      var planned := PlanFanOut(transfer.sender);
      if poolShutDown && planned != [] {
        status.failed := true;
        status.error := Some(rejection);
        success := false;
        return;
      }
      attempted := attempted + planned;
      success := AwaitAll(planned, outcome);
      status.completed := true;
      status.sentBytes := status.totalBytes;
    }

    /** The submission loops of `sendToAllPeers`: every client in list order, then every
        registered name other than `sender`, in the table's iteration order. */
    method PlanFanOut(sender: string) returns (planned: seq<Attempt>)
      ensures FanOut(planned, clients, conns, sender)
    {
      var named: seq<Attempt> := [];
      var remaining := conns.Keys;
      while remaining != {}
        invariant remaining <= conns.Keys
        invariant NoDups(named)
        invariant forall a {:trigger a in named} :: a in named <==>
          (a.ToNamed? && a.name in conns && a.name !in remaining && a.name != sender && a.conn == conns[a.name])
        decreases |remaining|
      {
        var k :| k in remaining;
        if k != sender {
          NoDupsSnoc(named, ToNamed(k, conns[k]));
          named := named + [ToNamed(k, conns[k])];
        }
        remaining := remaining - {k};
      }
      planned := ClientAttempts(clients) + named;
      assert planned[..|clients|] == ClientAttempts(clients) && planned[|clients|..] == named;
    }

    /** `sendToSpecificPeer`: one attempt at `SpecificTarget`, or a "Recipient not found"
        failure when there is none. */
    method SendToSpecificPeer(recipient: string, status: TransferStatus, outcome: Attempt -> Outcome)
      returns (success: bool)
      requires status.sentBytes == 0 && !status.completed && !status.failed && status.error == None
      modifies this, status
      ensures clients == old(clients) && conns == old(conns) && poolShutDown == old(poolShutDown)
      ensures activeTransfers == old(activeTransfers)
      ensures Targeted(SpecificTarget(clients, conns, recipient), recipient, outcome, old(attempted), attempted, success, status)
    {
      var target := SpecificTarget(clients, conns, recipient);
      if target == None {
        status.failed := true;
        status.error := Some("Recipient not found: " + recipient);
        success := false;
        return;
      }
      attempted := attempted + [target.value];
      match outcome(target.value) {
        case Delivered =>
          status.completed := true;
          status.sentBytes := status.totalBytes;
          success := true;
        case Failed(message) =>
          status.failed := true;
          status.error := Some(message);
          success := false;
      }
    }

    /** `getConnectedPeerNames`: "host:port" of every client in list order, then every
        registered name in the table's iteration order. */
    method ConnectedPeerNames() returns (names: seq<string>, ghost order: seq<string>)
      ensures IsOrderingOf(order, conns.Keys)
      ensures names == ClientNames(clients) + order
    {
      names := [];
      var i := 0;
      while i < |clients|
        invariant 0 <= i <= |clients|
        invariant names == ClientNames(clients[..i])
      {
        assert clients[..i + 1][..i] == clients[..i];
        names := names + [ClientName(clients[i])];
        i := i + 1;
      }
      assert clients[..i] == clients;
      var keys: seq<string> := [];
      var remaining := conns.Keys;
      while remaining != {}
        invariant remaining <= conns.Keys
        invariant IsOrderingOf(keys, conns.Keys - remaining)
        modifies {}
        decreases |remaining|
      {
        var k :| k in remaining;
        OrderingExtend(keys, conns.Keys - remaining, k);
        assert conns.Keys - (remaining - {k}) == (conns.Keys - remaining) + {k};
        keys := keys + [k];
        remaining := remaining - {k};
      }
      assert conns.Keys - remaining == conns.Keys;
      order := keys;
      names := names + keys;
    }

    /** `hasActiveTransfers`. */
    predicate HasActiveTransfers()
      reads this
    {
      activeTransfers != map[]
    }

    /** `shutdown`: the pool stops accepting work and the transfer table is emptied. */
    method Shutdown()
      modifies this
      ensures poolShutDown && activeTransfers == map[]
      ensures clients == old(clients) && conns == old(conns) && attempted == old(attempted)
    {
      poolShutDown := true;
      activeTransfers := map[];
    }
  }

  /** The "host:port" names of `clients`, in order. */
  function ClientNames(clients: seq<ClientPeer>): (names: seq<string>)
    ensures |names| == |clients|
    ensures forall i :: 0 <= i < |clients| ==> names[i] == ClientName(clients[i])
  {
    seq(|clients|, i requires 0 <= i < |clients| => ClientName(clients[i]))
  }

  /** The waiting loop of `sendToAllPeers`: true until some attempt is found not
      delivered. */
  method AwaitAll(planned: seq<Attempt>, outcome: Attempt -> Outcome) returns (success: bool)
    ensures success <==> AllDelivered(planned, outcome)
  {
    success := true;
    var i := 0;
    while i < |planned|
      invariant 0 <= i <= |planned|
      invariant success <==> AllDelivered(planned[..i], outcome)
    {
      TakeSnoc(planned, i);
      if outcome(planned[i]) != Delivered {
        success := false;
      }
      i := i + 1;
    }
    assert planned[..i] == planned;
  }

  /** What a send to "all" did: planned the fan-out; if the pool was shut down and there was
      anything to send, failed without attempting, with the pool's `rejection` as the error;
      otherwise attempted every target and succeeded exactly when every attempt was
      delivered, marking the status complete whatever the outcomes. */
  ghost predicate FannedOut(clients: seq<ClientPeer>, conns: map<string, ConnId>, transfer: FileTransfer,
                            poolShutDown: bool, outcome: Attempt -> Outcome, rejection: string,
                            log0: seq<Attempt>, log1: seq<Attempt>, success: bool, status: TransferStatus)
    reads status
  {
    exists planned :: FanOut(planned, clients, conns, transfer.sender)
      && if poolShutDown && planned != [] then
           log1 == log0 && !success && status.failed && !status.completed && status.sentBytes == 0
           && status.error == Some(rejection)
         else
           log1 == log0 + planned && (success <==> AllDelivered(planned, outcome))
           && status.completed && !status.failed && status.sentBytes == status.totalBytes
  }

  /** What a send to one recipient did with its target: nothing but a "Recipient not found"
      failure when there is none; otherwise one attempt, whose outcome decides the result
      and the status. */
  ghost predicate Targeted(target: Option<Attempt>, recipient: string, outcome: Attempt -> Outcome,
                           log0: seq<Attempt>, log1: seq<Attempt>, success: bool, status: TransferStatus)
    reads status
  {
    match target
    case None =>
      log1 == log0 && !success && status.failed && !status.completed
      && status.error == Some("Recipient not found: " + recipient)
    case Some(a) =>
      log1 == log0 + [a] && (success <==> outcome(a) == Delivered)
      && (success ==> status.completed && !status.failed && status.sentBytes == status.totalBytes)
      && (!success ==> status.failed && !status.completed && status.error == Some(outcome(a).message))
  }
}
