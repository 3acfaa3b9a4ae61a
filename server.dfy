/** The relay server: the connections it accepted, the username each announced, the time of
    each one's last heartbeat, and the routing of every inbound message. A connection is an
    abstract id with a liveness flag and the list of messages written to it so far; writing
    to a closed connection does nothing, as the socket layer swallows the error. */
module Network {
  import opened JavaLang
  import opened Seqs
  import opened Protocol

  /** Milliseconds without a heartbeat after which the sweep evicts a connection. */
  const ClientTimeout: int := 90000

  /** One accepted socket: open or closed, and everything written to it, oldest first. */
  datatype Peer = Peer(alive: bool, outbox: seq<Message>)

  // ---------------------------------------------------------------- specification helpers

  /** Same sockets, each as open or closed as before. */
  ghost predicate SameLiveness(p0: map<ConnId, Peer>, p1: map<ConnId, Peer>)
  {
    p1.Keys == p0.Keys && forall c :: c in p0 ==> p1[c].alive == p0[c].alive
  }

  /** `msgs` was written to every open connection listed in `targets`, and nothing was
      written anywhere else. */
  ghost predicate SentTo(p0: map<ConnId, Peer>, p1: map<ConnId, Peer>, targets: seq<ConnId>, msgs: seq<Message>)
  {
    SameLiveness(p0, p1) &&
    forall c :: c in p0 ==>
      p1[c].outbox == p0[c].outbox + (if c in targets && p0[c].alive then msgs else [])
  }

  /** The closed sockets. */
  ghost function DeadIds(peers: map<ConnId, Peer>): set<ConnId>
  {
    set c | c in peers && !peers[c].alive
  }

  /** The closed sockets among `cs`. */
  ghost function DeadIn(cs: seq<ConnId>, peers: map<ConnId, Peer>): set<ConnId>
  {
    set c | c in cs && c in peers && !peers[c].alive
  }

  /** The peer-list text for one iteration order of the username table: every username
      followed by a comma. */
  function Listing(users: map<ConnId, string>, order: seq<ConnId>): string
    requires forall c :: c in order ==> c in users
  {
    if order == [] then "" else Listing(users, order[..|order| - 1]) + users[order[|order| - 1]] + ","
  }

  /** The usernames of `order`, in that order. */
  function Names(users: map<ConnId, string>, order: seq<ConnId>): (names: seq<string>)
    requires forall c :: c in order ==> c in users
    ensures |names| == |order|
    ensures forall i :: 0 <= i < |order| ==> names[i] == users[order[i]]
  {
    if order == [] then [] else Names(users, order[..|order| - 1]) + [users[order[|order| - 1]]]
  }

  /** The peer-list text is the usernames joined by commas with one more comma at the end. */
  lemma {:induction false} ListingIsJoin(users: map<ConnId, string>, order: seq<ConnId>)
    requires forall c :: c in order ==> c in users
    ensures Listing(users, order) == Join(Names(users, order) + [""], ',')
  {
    if order != [] {
      var init := order[..|order| - 1];
      ListingIsJoin(users, init);
      JoinBeforeEmpty(Names(users, init), users[order[|order| - 1]], ',');
      assert Names(users, init) + [users[order[|order| - 1]], ""] == Names(users, order) + [""];
    }
  }

  /** Reading a non-empty peer list back with `split(",")` gives the usernames in order, as
      long as none is empty or holds a comma: the trailing comma only adds an empty last
      field, which the split drops. */
  lemma PeerListSplit(users: map<ConnId, string>, order: seq<ConnId>)
    requires order != []
    requires forall c :: c in order ==> c in users && users[c] != "" && ',' !in users[c]
    ensures Split(Listing(users, order), ',') == Names(users, order)
  {
    var names := Names(users, order);
    var fs := names + [""];
    ListingIsJoin(users, order);
    assert forall i :: 0 <= i < |fs| ==> ',' !in fs[i] by {
      forall i | 0 <= i < |fs| ensures ',' !in fs[i] {
        if i < |names| { assert fs[i] == users[order[i]]; }
      }
    }
    FieldsJoin(fs, ',');
    JoinHasSeparator(fs, ',');
    assert fs[..|fs| - 1] == names;
    assert names[|names| - 1] == users[order[|order| - 1]];
  }

  /** `m` is the PEER_LIST message the server builds from the username table `users`, in
      some iteration order of the table. */
  ghost predicate IsPeerListFor(m: Message, users: map<ConnId, string>)
  {
    exists order :: IsOrderingOf(order, users.Keys) && m == Msg("Server", "all", Listing(users, order), PeerList)
  }

  /** A PEER_LIST broadcast by "Server" to "all". */
  predicate IsPeerListMessage(m: Message)
  {
    m.kind == PeerList && m.sender == "Server" && m.receiver == "all"
  }

  /** Every message of `xs` is a peer list. */
  predicate PeerListsOnly(xs: seq<Message>)
  {
    xs == [] || (IsPeerListMessage(xs[0]) && PeerListsOnly(xs[1..]))
  }

  lemma {:induction false} PeerListsConcat(a: seq<Message>, b: seq<Message>)
    requires PeerListsOnly(a) && PeerListsOnly(b)
    ensures PeerListsOnly(a + b)
  {
    if a == [] {
      assert a + b == b;
    } else {
      PeerListsConcat(a[1..], b);
      assert (a + b)[1..] == a[1..] + b;
    }
  }

  /** The part of the server's state a broadcast reads and writes: the sockets, the list and
      the username table. */
  datatype Net = Net(peers: map<ConnId, Peer>, connections: seq<ConnId>, usernames: map<ConnId, string>)

  /** The closed connections of the list. */
  ghost function Closed(n: Net): set<ConnId>
  {
    DeadIn(n.connections, n.peers)
  }

  /** The closed connections of the list that have a username: each one triggers
      one peer-list broadcast when it is dropped. */
  ghost function NamedClosed(n: Net): set<ConnId>
  {
    Closed(n) * n.usernames.Keys
  }

  /** The effect of one top-level broadcast from `n0` to `n1`: `msgs` reaches every open
      connection of the list, and the closed ones leave the list and the username table. */
  ghost predicate Broadcasted(n0: Net, n1: Net, msgs: seq<Message>)
  {
    match n0
    case Net(p0, cs0, u0) =>
      SentTo(p0, n1.peers, cs0, msgs)
      && n1.connections == Without(cs0, Closed(n0))
      && n1.usernames == u0 - Closed(n0)
  }

  /** Writing `a` and then `b` to the same open connections is writing `a + b`. */
  lemma SentToTrans(p0: map<ConnId, Peer>, p1: map<ConnId, Peer>, p2: map<ConnId, Peer>,
                    t1: seq<ConnId>, t2: seq<ConnId>, a: seq<Message>, b: seq<Message>)
    requires SentTo(p0, p1, t1, a) && SentTo(p1, p2, t2, b)
    requires forall c :: c in p0 && p0[c].alive ==> (c in t1 <==> c in t2)
    ensures SentTo(p0, p2, t1, a + b)
  {
    forall c | c in p0
      ensures p2[c].outbox == p0[c].outbox + (if c in t1 && p0[c].alive then a + b else [])
    {
      if c in t1 && p0[c].alive {
        assert p2[c].outbox == (p0[c].outbox + a) + b;
      }
    }
  }

  /** After a broadcast the list holds no closed connection. */
  lemma BroadcastLeavesNoDead(n0: Net, n1: Net, msgs: seq<Message>)
    requires Broadcasted(n0, n1, msgs)
    requires forall c :: c in n0.connections ==> c in n0.peers
    ensures Closed(n1) == {}
    ensures Keep(n1.connections, DeadIds(n1.peers)) == []
  {
    forall c | c in n1.connections ensures c in n1.peers && n1.peers[c].alive {
      assert c in n0.connections && c !in Closed(n0);
    }
    KeepNone(n1.connections, DeadIds(n1.peers));
  }

  /** Two broadcasts in a row act as one that sends both message lists. */
  lemma BroadcastCompose(n0: Net, n1: Net, n2: Net, a: seq<Message>, b: seq<Message>)
    requires Broadcasted(n0, n1, a) && Broadcasted(n1, n2, b)
    requires forall c :: c in n0.connections ==> c in n0.peers
    ensures Broadcasted(n0, n2, a + b)
    ensures n2.connections == n1.connections && n2.usernames == n1.usernames
  {
    BroadcastLeavesNoDead(n0, n1, a);
    WithoutDisjoint(n1.connections, {});
    assert n1.usernames - {} == n1.usernames;
    SentToTrans(n0.peers, n1.peers, n2.peers, n0.connections, n1.connections, a, b);
  }

  /** Writing `m` to one more connection `c`, when it is open, extends a write to `pre`. */
  lemma SentToStep(p0: map<ConnId, Peer>, p1: map<ConnId, Peer>, p2: map<ConnId, Peer>,
                   pre: seq<ConnId>, c: ConnId, m: Message)
    requires SentTo(p0, p1, pre, [m]) && c in p0 && c !in pre
    requires p2 == if p1[c].alive then p1[c := Peer(true, p1[c].outbox + [m])] else p1
    ensures SentTo(p0, p2, pre + [c], [m])
  {
    forall d | d in p0
      ensures p2[d].outbox == p0[d].outbox + (if d in pre + [c] && p0[d].alive then [m] else [])
    {
      assert d in pre + [c] <==> d in pre || d == c;
    }
  }

  /** The first loop of `broadcast` took the state from `n0` to `n1`: `m` was written to every
      open connection of the list, and nothing else changed. */
  ghost predicate WroteAll(n0: Net, n1: Net, m: Message)
  {
    SentTo(n0.peers, n1.peers, n0.connections, [m])
    && n1.connections == n0.connections && n1.usernames == n0.usernames
  }

  /** Writing to the open connections closes none and opens none, and the closed ones it
      skipped are exactly the closed ones of the list. */
  lemma WriteKeepsDead(n0: Net, n1: Net, m: Message, dead: seq<ConnId>)
    requires NoDups(n0.connections) && n1.connections == n0.connections && n1.usernames == n0.usernames
    requires SentTo(n0.peers, n1.peers, n0.connections, [m])
    requires dead == Keep(n0.connections, DeadIds(n0.peers))
    ensures dead == Keep(n1.connections, DeadIds(n1.peers))
    ensures Closed(n1) == Closed(n0)
    ensures dead == [] <==> Closed(n0) == {}
  {
    assert DeadIds(n1.peers) == DeadIds(n0.peers);
    DeadListFacts(n0.connections, n0.peers, dead);
    assert dead != [] ==> dead[0] in Elems(dead);
  }

  /** With no closed connection listed, the cleanup has nothing to do. */
  lemma NothingClosed(n: Net)
    requires Closed(n) == {}
    ensures Broadcasted(n, n, [])
  {
    WithoutDisjoint(n.connections, {});
    assert n.usernames - {} == n.usernames;
  }

  /** Writing `m` to the open connections of the list, then cleaning up with `extras`, is a
      broadcast of `[m] + extras`. */
  lemma WriteThenClean(n0: Net, n1: Net, n2: Net, m: Message, extras: seq<Message>)
    requires WroteAll(n0, n1, m) && Broadcasted(n1, n2, extras)
    ensures Broadcasted(n0, n2, [m] + extras)
  {
    assert Closed(n1) == Closed(n0);
    SentToTrans(n0.peers, n1.peers, n2.peers, n0.connections, n0.connections, [m], extras);
  }

  /** The closed connections of a snapshot, in list order, and their set. */
  lemma DeadListFacts(snapshot: seq<ConnId>, p0: map<ConnId, Peer>, dead: seq<ConnId>)
    requires NoDups(snapshot) && dead == Keep(snapshot, DeadIds(p0))
    ensures NoDups(dead) && Elems(dead) == DeadIn(snapshot, p0)
  {
    KeepNoDups(snapshot, DeadIds(p0));
  }

  /** Removing one more connection from a list filtered by `removed`. */
  lemma RemoveStep(snapshot: seq<ConnId>, removed: set<ConnId>, c: ConnId)
    requires NoDups(snapshot)
    ensures RemoveFirst(Without(snapshot, removed), c) == Without(snapshot, removed + {c})
    ensures NoDups(Without(snapshot, removed + {c}))
  {
    WithoutNoDups(snapshot, removed);
    RemoveFirstIsWithout(Without(snapshot, removed), c);
    WithoutWithout(snapshot, removed, {c});
    WithoutNoDups(snapshot, removed + {c});
  }

  /** The closed connections a nested broadcast removes are the snapshot's remaining ones,
      so together with the ones already removed they are all of the snapshot's. */
  lemma NestedCleanup(snapshot: seq<ConnId>, r: set<ConnId>, e: set<ConnId>,
                      p0: map<ConnId, Peer>, pb: map<ConnId, Peer>)
    requires e == DeadIn(snapshot, p0) && r <= e
    requires SameLiveness(p0, pb)
    ensures DeadIn(Without(snapshot, r), pb) == e - r
    ensures Without(Without(snapshot, r), e - r) == Without(snapshot, e)
    ensures forall x :: x in p0 && p0[x].alive ==> (x in snapshot <==> x in Without(snapshot, r))
  {
    WithoutWithout(snapshot, r, e - r);
    assert r + (e - r) == e;
  }

  /** The connections gone from the list and the table after the cleanup visits `c`: one
      more, or every closed one of the snapshot when `c` had a username and its peer-list
      broadcast swept the rest. */
  ghost function NextGone(u0: map<ConnId, string>, gone: set<ConnId>, e: set<ConnId>, c: ConnId): set<ConnId>
  {
    if c in u0 - gone then e else gone + {c}
  }

  /** `n` with `c` out of the list and the username table. */
  ghost function Unnamed(n: Net, c: ConnId): Net
  {
    Net(n.peers, RemoveFirst(n.connections, c), n.usernames - {c})
  }

  /** What one iteration of the cleanup loop does to `n0`: `c` leaves the list; if it had a
      username it leaves the table too, and the table is broadcast as a peer list, sending
      `more`: that list first, then one more peer list for each named closed connection the
      nested broadcast swept. */
  ghost predicate Dropped(n0: Net, c: ConnId, n1: Net, more: seq<Message>)
  {
    (c !in n0.usernames ==> n1 == n0.(connections := RemoveFirst(n0.connections, c)) && more == [])
    && (c in n0.usernames ==>
          Broadcasted(Unnamed(n0, c), n1, more)
          && |more| == 1 + |NamedClosed(Unnamed(n0, c))| && IsPeerListFor(more[0], n0.usernames - {c}))
    && PeerListsOnly(more)
  }

  /** The state of the cleanup after the connections `gone` (closed ones of the snapshot) have
      left the list and the table, and the peer lists `sent`, one per named connection among
      them, were written to the open ones. */
  ghost predicate Cleared(snapshot: seq<ConnId>, p1: map<ConnId, Peer>, u0: map<ConnId, string>,
                          e: set<ConnId>, gone: set<ConnId>, sent: seq<Message>, n: Net)
  {
    gone <= e && n.connections == Without(snapshot, gone) && n.usernames == u0 - gone
    && SentTo(p1, n.peers, snapshot, sent) && PeerListsOnly(sent)
    && |sent| == |gone * u0.Keys|
  }

  /** Before the cleanup visits anything, nothing is gone and nothing was sent. */
  lemma ClearedStart(snapshot: seq<ConnId>, p1: map<ConnId, Peer>, u0: map<ConnId, string>,
                     e: set<ConnId>, n: Net)
    requires NoDups(snapshot) && n == Net(p1, snapshot, u0)
    ensures Cleared(snapshot, p1, u0, e, {}, [], n)
  {
    WithoutDisjoint(snapshot, {});
    assert u0 - {} == u0;
    assert {} * u0.Keys == {};
  }

  /** Once every closed connection of the snapshot is gone, the cleanup is a broadcast. */
  lemma ClearedAll(snapshot: seq<ConnId>, p1: map<ConnId, Peer>, u0: map<ConnId, string>,
                   gone: set<ConnId>, sent: seq<Message>, n: Net)
    requires DeadIn(snapshot, p1) <= gone
    requires Cleared(snapshot, p1, u0, DeadIn(snapshot, p1), gone, sent, n)
    ensures Broadcasted(Net(p1, snapshot, u0), n, sent)
    ensures |sent| == |NamedClosed(Net(p1, snapshot, u0))|
  {
    assert gone == DeadIn(snapshot, p1);
  }

  /** Splitting the closed connections at `c`: those gone before, `c`, and the rest. */
  lemma CountSplit(gone: set<ConnId>, e: set<ConnId>, u: set<ConnId>, c: ConnId)
    requires gone <= e && c in e && c in u && c !in gone
    ensures |e * u| == |gone * u| + 1 + |(e - (gone + {c})) * u|
  {
    var a := gone * u;
    var b := (e - (gone + {c})) * u;
    assert e * u == (a + {c}) + b;
    assert (a + {c}) * b == {};
    assert a * {c} == {};
  }

  /** Dropping a named connection and then broadcasting the peer list is one cleanup step. */
  lemma DroppedNamed(n0: Net, c: ConnId, nm: Net, n1: Net, more: seq<Message>)
    requires c in n0.usernames
    requires nm == Unnamed(n0, c)
    requires Broadcasted(nm, n1, more) && |more| == 1 + |NamedClosed(nm)|
    requires |more| >= 1 && IsPeerListFor(more[0], nm.usernames) && PeerListsOnly(more)
    ensures Dropped(n0, c, n1, more)
  {
  }

  /** Visiting a connection without a username, or one already gone, adds no peer list. */
  lemma CountSame(gone: set<ConnId>, u: set<ConnId>, c: ConnId)
    requires c !in u || c in gone
    ensures (gone + {c}) * u == gone * u
  {
  }

  /** The cleanup visits a connection that had a username: the nested peer-list broadcast
      sweeps every closed connection of the snapshot still listed. */
  lemma CleanupNamed(snapshot: seq<ConnId>, p1: map<ConnId, Peer>, e: set<ConnId>,
                     u0: map<ConnId, string>, gone: set<ConnId>, c: ConnId,
                     sent: seq<Message>, nb: Net, nm: Net, n2: Net, more: seq<Message>)
    requires NoDups(snapshot) && e == DeadIn(snapshot, p1) && c in e && c in u0 - gone
    requires Cleared(snapshot, p1, u0, e, gone, sent, nb)
    requires nm == Unnamed(nb, c)
    requires Broadcasted(nm, n2, more) && |more| == 1 + |NamedClosed(nm)|
    requires PeerListsOnly(more)
    ensures gone + {c} <= NextGone(u0, gone, e, c)
    ensures Cleared(snapshot, p1, u0, e, NextGone(u0, gone, e, c), sent + more, n2)
  {
    var r := gone + {c};
    assert NextGone(u0, gone, e, c) == e && gone <= e;
    RemoveStep(snapshot, gone, c);
    SubtractOneMore(u0, gone, c);
    assert nm == Net(nb.peers, Without(snapshot, r), u0 - r);
    NestedSwept(snapshot, p1, e, u0, gone, c, sent, nb.peers, nm, n2, more);
  }

  /** The nested broadcast of `CleanupNamed`, once the state it starts from is known to be
      the snapshot without `gone + {c}`. */
  lemma NestedSwept(snapshot: seq<ConnId>, p1: map<ConnId, Peer>, e: set<ConnId>,
                    u0: map<ConnId, string>, gone: set<ConnId>, c: ConnId,
                    sent: seq<Message>, pb: map<ConnId, Peer>, nm: Net, n2: Net, more: seq<Message>)
    requires e == DeadIn(snapshot, p1) && gone <= e && c in e && c in u0 && c !in gone
    requires SentTo(p1, pb, snapshot, sent) && PeerListsOnly(sent) && |sent| == |gone * u0.Keys|
    requires nm == Net(pb, Without(snapshot, gone + {c}), u0 - (gone + {c}))
    requires Broadcasted(nm, n2, more) && |more| == 1 + |NamedClosed(nm)|
    requires PeerListsOnly(more)
    ensures Cleared(snapshot, p1, u0, e, e, sent + more, n2)
  {
    var r := gone + {c};
    NestedCount(snapshot, p1, pb, e, u0, gone, c, sent, more);
    NestedCleanup(snapshot, r, e, p1, pb);
    assert SentTo(pb, n2.peers, nm.connections, more);
    SentToTrans(p1, pb, n2.peers, snapshot, nm.connections, sent, more);
    SubtractInTwo(u0, r, e);
    PeerListsConcat(sent, more);
  }

  /** The nested peer-list broadcast of a named connection `c` sends one list for `c` and
      one for each named closed connection still listed: with those sent before, one per
      named closed connection of the snapshot. */
  lemma NestedCount(snapshot: seq<ConnId>, p1: map<ConnId, Peer>, pb: map<ConnId, Peer>,
                    e: set<ConnId>, u0: map<ConnId, string>, gone: set<ConnId>, c: ConnId,
                    sent: seq<Message>, more: seq<Message>)
    requires e == DeadIn(snapshot, p1) && gone <= e && c in e && c in u0 && c !in gone
    requires SameLiveness(p1, pb)
    requires |sent| == |gone * u0.Keys|
    requires |more| == 1 + |NamedClosed(Net(pb, Without(snapshot, gone + {c}), u0 - (gone + {c})))|
    ensures |sent + more| == |e * u0.Keys|
  {
    var r := gone + {c};
    NestedCleanup(snapshot, r, e, p1, pb);
    assert NamedClosed(Net(pb, Without(snapshot, r), u0 - r)) == (e - r) * u0.Keys;
    CountSplit(gone, e, u0.Keys, c);
  }

  /** The cleanup visits a connection without a username, or one already gone: it leaves
      the list, and nothing is sent. */
  lemma CleanupUnnamed(snapshot: seq<ConnId>, p1: map<ConnId, Peer>, e: set<ConnId>,
                       u0: map<ConnId, string>, gone: set<ConnId>, c: ConnId,
                       sent: seq<Message>, nb: Net, n2: Net, more: seq<Message>)
    requires NoDups(snapshot) && c in e && c !in u0 - gone
    requires Cleared(snapshot, p1, u0, e, gone, sent, nb)
    requires n2 == nb.(connections := RemoveFirst(nb.connections, c)) && more == []
    ensures gone + {c} <= NextGone(u0, gone, e, c)
    ensures Cleared(snapshot, p1, u0, e, NextGone(u0, gone, e, c), sent + more, n2)
  {
    assert sent + more == sent;
    RemoveStep(snapshot, gone, c);
    SubtractOneMore(u0, gone, c);
    CountSame(gone, u0.Keys, c);
  }

  /** One iteration of the cleanup loop keeps its invariant. */
  lemma CleanupStep(snapshot: seq<ConnId>, p1: map<ConnId, Peer>, e: set<ConnId>,
                    u0: map<ConnId, string>, gone: set<ConnId>, c: ConnId,
                    sent: seq<Message>, nb: Net, n2: Net, more: seq<Message>)
    requires NoDups(snapshot) && e == DeadIn(snapshot, p1) && c in e
    requires Cleared(snapshot, p1, u0, e, gone, sent, nb)
    requires Dropped(nb, c, n2, more)
    ensures gone + {c} <= NextGone(u0, gone, e, c)
    ensures Cleared(snapshot, p1, u0, e, NextGone(u0, gone, e, c), sent + more, n2)
  {
    if c in u0 - gone {
      CleanupNamed(snapshot, p1, e, u0, gone, c, sent, nb, Unnamed(nb, c), n2, more);
    } else {
      CleanupUnnamed(snapshot, p1, e, u0, gone, c, sent, nb, n2, more);
    }
  }


  /** The connections a sweep at `now` evicts: last heartbeat strictly more than
      `ClientTimeout` milliseconds ago. */
  ghost function TimedOut(heartbeats: map<ConnId, int>, now: int): set<ConnId>
  {
    set c | c in heartbeats && now - heartbeats[c] > ClientTimeout
  }

  /** The message every client receives when the server stops. */
  function ShutdownMessage(): Message
  {
    Msg("Server", "all", "Server is shutting down", ServerShutdown)
  }

  /** The notice broadcast when a named connection is removed. */
  function LeaveMessage(username: string): Message
  {
    Msg(username, "all", username + " has left the chat", UserLeave)
  }

  /** The reply to a heartbeat. */
  function PongMessage(to: string): Message
  {
    Msg("server", to, "pong", Heartbeat)
  }

  /** The message kinds the routing table rebroadcasts unchanged: TEXT, BROADCAST, QUIZ_START,
      QUIZ_ANSWER and everything reaching the `default` branch. */
  predicate IsRebroadcast(k: MessageType)
  {
    k !in {UserJoin, UserLeave, PeerToPeer, File, Heartbeat, ClassJoin, ClassLeave}
  }

  /** The first loop of `broadcast`: `m` is written to every open connection of `targets`,
      and the closed ones are collected in list order. */
  method WriteToAll(peers: map<ConnId, Peer>, targets: seq<ConnId>, m: Message)
    returns (after: map<ConnId, Peer>, dead: seq<ConnId>)
    requires NoDups(targets) && forall c :: c in targets ==> c in peers
    ensures SentTo(peers, after, targets, [m])
    ensures dead == Keep(targets, DeadIds(peers))
  {
    after := peers;
    dead := [];
    var i := 0;
    while i < |targets|
      invariant 0 <= i <= |targets|
      invariant dead == Keep(targets[..i], DeadIds(peers))
      invariant SentTo(peers, after, targets[..i], [m])
    {
      var c := targets[i];
      NoDupsAt(targets, i);
      TakeSnoc(targets, i);
      KeepAppend(targets[..i], c, DeadIds(peers));
      var next := after;
      if after[c].alive {
        next := after[c := Peer(true, after[c].outbox + [m])];
      } else {
        dead := dead + [c];
      }
      SentToStep(peers, after, next, targets[..i], c, m);
      after := next;
      i := i + 1;
    }
    assert targets[..i] == targets;
  }

  /** A broadcast keeps every socket as open or closed as it was, and only shrinks the list
      and the username table. */
  ghost predicate Shrunk(n0: Net, n1: Net)
  {
    SameLiveness(n0.peers, n1.peers)
    && (forall c :: c in n1.connections ==> c in n0.connections)
    && n1.usernames.Keys <= n0.usernames.Keys
  }

  lemma BroadcastShrinks(n0: Net, n1: Net, msgs: seq<Message>)
    requires Broadcasted(n0, n1, msgs)
    ensures Shrunk(n0, n1)
  {
  }

  /** A PEER_TO_PEER or FILE message for "Server" or for the server's own user (`own`),
      compared ignoring case, stays here. */
  predicate ForServer(receiver: string, own: string)
  {
    EqualsIgnoreCase(receiver, "Server") || EqualsIgnoreCase(receiver, own)
  }

  /** Case is ignored beyond ASCII too: a message for "JOSÉ" stays on a server whose user is
      "josé", while one for "jose" does not. */
  lemma ForServerIgnoresLatin1Case()
    ensures ForServer("JOSÉ", "josé")
    ensures !ForServer("jose", "josé")
  {
    assert EqualsIgnoreCase("JOSÉ", "josé") by {
      forall i | 0 <= i < 4 ensures Fold("JOSÉ"[i]) == Fold("josé"[i]) { }
    }
    assert Fold("jose"[3]) != Fold("josé"[3]);
    assert Fold("jose"[0]) != Fold("Server"[0]);
  }

  /** A rebroadcast from `n0` to `n1`: `m` and then `sent` reach every open connection of
      the list, `sent` holds peer lists only, and one of them lists the final table. */
  ghost predicate Announced(n0: Net, n1: Net, m: Message, sent: seq<Message>)
  {
    PeerListsOnly(sent) && Broadcasted(n0, n1, [m] + sent)
    && exists i :: 0 <= i < |sent| && IsPeerListFor(sent[i], n1.usernames)
  }

  /** A PEER_TO_PEER or FILE message: kept if it is for this server (`own` being its own
      username), otherwise forwarded to one connection named as its receiver, if any. */
  ghost predicate Forwarded(m: Message, own: string, n0: Net, n1: Net, target: Option<ConnId>)
  {
    n1.connections == n0.connections && n1.usernames == n0.usernames
    && (target.Some? <==> !ForServer(m.receiver, own) && m.receiver in n0.usernames.Values)
    && (match target
        case Some(c) => c in n0.usernames && n0.usernames[c] == m.receiver && SentTo(n0.peers, n1.peers, [c], [m])
        case None => n1.peers == n0.peers)
  }

  /** A HEARTBEAT from `conn`: only that connection gets the pong. */
  ghost predicate Ponged(m: Message, conn: ConnId, n0: Net, n1: Net)
  {
    n1.connections == n0.connections && n1.usernames == n0.usernames
    && SentTo(n0.peers, n1.peers, [conn], [PongMessage(m.sender)])
  }

  /** What routing one inbound message `m`, read from `conn` at time `now`, does to the state
      (`n0`, `h0` the sockets, list, username table and heartbeat table before; `n1`, `h1`
      after). `sent` is what followed `m` on the broadcast kinds and `target` the connection a
      direct message was forwarded to. */
  ghost predicate Routed(m: Message, conn: ConnId, now: int, own: string,
                         n0: Net, h0: map<ConnId, int>, n1: Net, h1: map<ConnId, int>,
                         sent: seq<Message>, target: Option<ConnId>)
  {
    match m.kind
    case UserJoin => h1 == h0 && Announced(n0.(usernames := n0.usernames[conn := m.sender]), n1, m, sent)
    case UserLeave => h1 == h0 && Announced(n0.(usernames := n0.usernames - {conn}), n1, m, sent)
    case PeerToPeer => h1 == h0 && Forwarded(m, own, n0, n1, target)
    case File => h1 == h0 && Forwarded(m, own, n0, n1, target)
    case Heartbeat => h1 == h0[conn := now] && Ponged(m, conn, n0, n1)
    case ClassJoin => n1 == n0 && h1 == h0
    case ClassLeave => n1 == n0 && h1 == h0
    case _ =>
      // TEXT, BROADCAST, QUIZ_START, QUIZ_ANSWER and every other kind.
      h1 == h0 && PeerListsOnly(sent) && Broadcasted(n0, n1, [m] + sent)
  }

  /** A named connection's removal from `n0` (already without it) to `n1`: the peer list of
      `n0`'s table, then `leave`, each broadcast with its own cleanup. */
  ghost predicate Departed(n0: Net, n1: Net, leave: Message, listing: seq<Message>, extras: seq<Message>)
  {
    |listing| >= 1 && IsPeerListFor(listing[0], n0.usernames)
    && PeerListsOnly(listing) && PeerListsOnly(extras)
    && Broadcasted(n0, n1, listing + [leave] + extras)
  }

  /** A rebroadcast followed by a peer-list broadcast is an announcement. */
  lemma AnnouncedInTwo(n1: Net, n2: Net, n3: Net, m: Message, extras: seq<Message>, listing: seq<Message>)
    requires forall c :: c in n1.connections ==> c in n1.peers
    requires Broadcasted(n1, n2, [m] + extras) && Broadcasted(n2, n3, listing)
    requires PeerListsOnly(extras) && PeerListsOnly(listing)
    requires |listing| >= 1 && IsPeerListFor(listing[0], n2.usernames)
    ensures Announced(n1, n3, m, extras + listing) && Shrunk(n1, n3)
  {
    var sent := extras + listing;
    assert Broadcasted(n1, n3, [m] + sent) && n3.usernames == n2.usernames by {
      BroadcastCompose(n1, n2, n3, [m] + extras, listing);
      AppendAssoc([m], extras, listing);
    }
    BroadcastShrinks(n1, n3, [m] + sent);
    PeerListsConcat(extras, listing);
    assert IsPeerListFor(sent[|extras|], n3.usernames) by {
      assert sent[|extras|] == listing[0];
    }
  }

  /** A peer-list broadcast followed by the leave notice is a departure. */
  lemma DepartedInTwo(n1: Net, n2: Net, n3: Net, leave: Message, listing: seq<Message>, extras: seq<Message>)
    requires forall c :: c in n1.connections ==> c in n1.peers
    requires Broadcasted(n1, n2, listing) && Broadcasted(n2, n3, [leave] + extras)
    requires PeerListsOnly(extras) && PeerListsOnly(listing)
    requires |listing| >= 1 && IsPeerListFor(listing[0], n1.usernames)
    ensures Departed(n1, n3, leave, listing, extras) && Shrunk(n1, n3)
  {
    BroadcastCompose(n1, n2, n3, listing, [leave] + extras);
    AppendAssoc(listing, [leave], extras);
    BroadcastShrinks(n1, n3, listing + [leave] + extras);
  }

  /** `stop` took the sockets from `p0` to `p1`: `msgs` reached every open connection of the
      list `cs`, and then every connection of the list was closed; no other socket changed. */
  ghost predicate ShutDown(p0: map<ConnId, Peer>, p1: map<ConnId, Peer>, cs: seq<ConnId>, msgs: seq<Message>)
  {
    p1.Keys == p0.Keys
    && forall c :: c in p0 ==>
      p1[c] == Peer(p0[c].alive && c !in cs, p0[c].outbox + (if c in cs && p0[c].alive then msgs else []))
  }

  /** A broadcast from `n0` to `n1` followed by closing every connection left in the list
      is a shutdown of `n0`'s list. */
  lemma StopCloses(n0: Net, n1: Net, p2: map<ConnId, Peer>, msgs: seq<Message>)
    requires Broadcasted(n0, n1, msgs)
    requires forall c :: c in n0.connections ==> c in n0.peers
    requires p2.Keys == n1.peers.Keys
    requires forall c :: c in n1.peers ==> p2[c] == Peer(n1.peers[c].alive && c !in n1.connections, n1.peers[c].outbox)
    ensures ShutDown(n0.peers, p2, n0.connections, msgs)
  {
    forall c | c in n0.peers
      ensures p2[c].alive == (n0.peers[c].alive && c !in n0.connections)
    {
      if c in n0.connections && n0.peers[c].alive {
        assert c !in Closed(n0);
      }
    }
  }

  /** What `removePeerConnection` did to `n0`: `conn` left the list; if it had a username,
      it left the table too, and a peer list, the USER_LEAVE notice for that name and the
      cleanups' peer lists followed. */
  ghost predicate Removed(n0: Net, conn: ConnId, n1: Net, listing: seq<Message>, extras: seq<Message>)
  {
    (conn !in n0.usernames ==>
       n1 == n0.(connections := RemoveFirst(n0.connections, conn)) && listing == [] && extras == [])
    && (conn in n0.usernames ==>
       Departed(Unnamed(n0, conn), n1, LeaveMessage(n0.usernames[conn]), listing, extras))
  }

  /** `n` with the socket `c` closed. */
  ghost function CloseIn(n: Net, c: ConnId): Net
    requires c in n.peers
  {
    n.(peers := n.peers[c := Peer(false, n.peers[c].outbox)])
  }

  /** What evicting `d` from `n0` leaves of everyone else in `n1`: only `d` was closed, no
      outbox lost a message, the list only lost connections, an open connection other than
      `d` kept its place in the list and its username, and if `d` had a username, the
      USER_LEAVE notice for it reached every open connection still listed. */
  ghost predicate EvictStep(n0: Net, d: ConnId, n1: Net)
  {
    n1.peers.Keys == n0.peers.Keys
    && (forall c :: c in n0.peers ==>
          n1.peers[c].alive == (n0.peers[c].alive && c != d) && n0.peers[c].outbox <= n1.peers[c].outbox)
    && (forall c :: c in n1.connections ==> c in n0.connections)
    && (forall c :: c in n0.connections && c in n0.peers && n0.peers[c].alive && c != d ==> c in n1.connections)
    && (forall c :: c in n0.usernames && c in n0.peers && n0.peers[c].alive && c != d ==>
          c in n1.usernames && n1.usernames[c] == n0.usernames[c])
    && (d in n0.usernames ==>
          forall c :: c in n1.connections && c in n1.peers && n1.peers[c].alive ==>
            LeaveMessage(n0.usernames[d]) in n1.peers[c].outbox)
  }

  /** What a broadcast of `msgs` keeps: no outbox loses a message, every open connection
      still listed got `msgs`, and the open connections keep their place in the list and
      their usernames. */
  lemma BroadcastKeeps(n0: Net, n1: Net, msgs: seq<Message>)
    requires Broadcasted(n0, n1, msgs)
    requires forall c :: c in n0.connections ==> c in n0.peers
    ensures forall c :: c in n0.peers ==> n0.peers[c].outbox <= n1.peers[c].outbox
    ensures forall c :: c in n1.connections && n1.peers[c].alive ==>
      c in n0.connections && n1.peers[c].outbox == n0.peers[c].outbox + msgs
    ensures forall c :: c in n0.connections && n0.peers[c].alive ==> c in n1.connections
    ensures forall c :: c in n0.usernames && c in n0.peers && n0.peers[c].alive ==>
      c in n1.usernames && n1.usernames[c] == n0.usernames[c]
  {
    forall c | c in n0.peers ensures n0.peers[c].outbox <= n1.peers[c].outbox {
      var extra := if c in n0.connections && n0.peers[c].alive then msgs else [];
      assert n1.peers[c].outbox == n0.peers[c].outbox + extra;
    }
  }

  /** A message of `a` is a message of every extension of `a`. */
  lemma InPrefix(x: Message, a: seq<Message>, b: seq<Message>)
    requires x in a && a <= b
    ensures x in b
  {
    var i :| 0 <= i < |a| && a[i] == x;
    assert b[i] == x;
  }

  /** What removing `d` from `n0` leaves of everyone else in `n1`: the same sockets, just as
      open, with no message lost from any outbox; the list only lost connections, `d` among
      them, and no open one but `d`; the open connections other than `d` kept their
      usernames; and if `d` had a username, the USER_LEAVE notice for it reached every open
      connection still listed. */
  ghost predicate Departing(n0: Net, d: ConnId, n1: Net)
  {
    n1.peers.Keys == n0.peers.Keys
    && (forall c :: c in n0.peers ==>
          n1.peers[c].alive == n0.peers[c].alive && n0.peers[c].outbox <= n1.peers[c].outbox)
    && (forall c :: c in n1.connections ==> c in n0.connections && c != d)
    && (forall c :: c in n0.connections && c in n0.peers && n0.peers[c].alive && c != d ==> c in n1.connections)
    && (forall c :: c in n0.usernames && c in n0.peers && n0.peers[c].alive && c != d ==>
          c in n1.usernames && n1.usernames[c] == n0.usernames[c])
    && (d in n0.usernames ==>
          forall c :: c in n1.connections && c in n1.peers && n1.peers[c].alive ==>
            LeaveMessage(n0.usernames[d]) in n1.peers[c].outbox)
  }

  /** Removing the connection `d` and then closing its socket is one eviction step. */
  lemma RemovedThenClosed(n0: Net, d: ConnId, mid: Net, listing: seq<Message>, extras: seq<Message>)
    requires NoDups(n0.connections) && (forall c :: c in n0.connections ==> c in n0.peers)
    requires d in n0.peers && Removed(n0, d, mid, listing, extras)
    ensures d in mid.peers && d !in mid.connections
    ensures EvictStep(n0, d, CloseIn(mid, d))
  {
    RemoveFirstIsWithout(n0.connections, d);
    if d in n0.usernames {
      NamedDeparting(n0, d, mid, listing, extras);
    } else {
      assert mid == n0.(connections := Without(n0.connections, {d}));
    }
    DepartingThenClosed(n0, d, mid);
  }

  /** A departure broadcast for a connection with a username is a `Departing`. */
  lemma NamedDeparting(n0: Net, d: ConnId, mid: Net, listing: seq<Message>, extras: seq<Message>)
    requires (forall c :: c in n0.connections ==> c in n0.peers)
    requires RemoveFirst(n0.connections, d) == Without(n0.connections, {d})
    requires d in n0.usernames
    requires Departed(Unnamed(n0, d), mid, LeaveMessage(n0.usernames[d]), listing, extras)
    ensures Departing(n0, d, mid)
  {
    var leave := LeaveMessage(n0.usernames[d]);
    var msgs := listing + [leave] + extras;
    BroadcastKeeps(Unnamed(n0, d), mid, msgs);
    assert leave in msgs by { assert msgs[|listing|] == leave; }
    forall c | c in mid.connections && mid.peers[c].alive ensures leave in mid.peers[c].outbox {
      assert mid.peers[c].outbox == Unnamed(n0, d).peers[c].outbox + msgs;
    }
  }

  /** Closing the socket of a departed connection completes its eviction. */
  lemma DepartingThenClosed(n0: Net, d: ConnId, mid: Net)
    requires d in n0.peers && Departing(n0, d, mid)
    ensures d in mid.peers && d !in mid.connections
    ensures EvictStep(n0, d, CloseIn(mid, d))
  {
  }

  /** The state of the sweep after the connections `gone` were evicted from the state whose
      sockets, list and table were `p0`, `cs0` and `u0`: `EvictStep` composed over `gone`. */
  ghost predicate Swept(p0: map<ConnId, Peer>, cs0: seq<ConnId>, u0: map<ConnId, string>,
                        gone: set<ConnId>, n: Net)
  {
    n.peers.Keys == p0.Keys
    && (forall c :: c in p0 ==>
          n.peers[c].alive == (p0[c].alive && c !in gone) && p0[c].outbox <= n.peers[c].outbox)
    && (forall c :: c in n.connections ==> c in cs0)
    && (forall c :: c in cs0 && c in p0 && p0[c].alive && c !in gone ==> c in n.connections)
    && (forall c :: c in u0 && c in p0 && p0[c].alive && c !in gone ==>
          c in n.usernames && n.usernames[c] == u0[c])
    && (forall d, c ::
          d in gone && d in u0 && d in p0 && p0[d].alive && c in n.connections && c in n.peers && n.peers[c].alive
          ==> LeaveMessage(u0[d]) in n.peers[c].outbox)
  }

  /** Before the sweep evicts anyone, nothing has changed. */
  lemma SweptNone(n: Net)
    ensures Swept(n.peers, n.connections, n.usernames, {}, n)
  {
  }

  /** One more eviction keeps the account of the sweep. */
  lemma SweptStep(p0: map<ConnId, Peer>, cs0: seq<ConnId>, u0: map<ConnId, string>,
                  gone: set<ConnId>, n: Net, d: ConnId, n1: Net)
    requires Swept(p0, cs0, u0, gone, n) && EvictStep(n, d, n1)
    ensures Swept(p0, cs0, u0, gone + {d}, n1)
  {
    forall c | c in p0 ensures p0[c].outbox <= n1.peers[c].outbox {
      assert p0[c].outbox <= n.peers[c].outbox <= n1.peers[c].outbox;
    }
    LeavesStep(p0, cs0, u0, gone, n, d, n1);
  }

  /** The USER_LEAVE notices of the sweep still reach every open listed connection after one
      more eviction, and so does the new one's. */
  lemma LeavesStep(p0: map<ConnId, Peer>, cs0: seq<ConnId>, u0: map<ConnId, string>,
                   gone: set<ConnId>, n: Net, d: ConnId, n1: Net)
    requires Swept(p0, cs0, u0, gone, n) && EvictStep(n, d, n1)
    ensures forall e, c ::
      e in gone + {d} && e in u0 && e in p0 && p0[e].alive && c in n1.connections && c in n1.peers && n1.peers[c].alive
      ==> LeaveMessage(u0[e]) in n1.peers[c].outbox
  {
    forall e, c | e in gone + {d} && e in u0 && e in p0 && p0[e].alive && c in n1.connections && c in n1.peers && n1.peers[c].alive
      ensures LeaveMessage(u0[e]) in n1.peers[c].outbox
    {
      if e in gone {
        assert c in n.connections && n.peers[c].alive;
        InPrefix(LeaveMessage(u0[e]), n.peers[c].outbox, n1.peers[c].outbox);
      } else {
        assert e !in gone && e in u0 && e in p0 && p0[e].alive;
        assert d in n.usernames && n.usernames[d] == u0[d];
      }
    }
  }

  // ---------------------------------------------------------------- the server

  class Server {
    const port: int
    const currentUsername: string
    var running: bool
    /** Every socket ever accepted. */
    var peers: map<ConnId, Peer>
    /** `connections`, in accept order. */
    var connections: seq<ConnId>
    /** `connectionUsernames`. */
    var usernames: map<ConnId, string>
    /** `lastHeartbeatTime`, epoch milliseconds. */
    var heartbeats: map<ConnId, int>
    /** The next fresh connection id. */
    var nextId: nat
    /** Every call of the application handler's `onMessageReceived`, in order. */
    var delivered: seq<(Message, ConnId)>

    /** The list names accepted sockets, each once. */
    ghost predicate Listed()
      reads this
    {
      (forall c :: c in connections ==> c in peers) && NoDups(connections)
    }

    ghost predicate Valid()
      reads this
    {
      Listed()
      && usernames.Keys <= peers.Keys
      && heartbeats.Keys <= peers.Keys
      && (forall c :: c in peers ==> c < nextId)
    }

    constructor (port: int, currentUsername: string)
      ensures Valid()
      ensures this.port == port && this.currentUsername == currentUsername
      ensures !running && peers == map[] && connections == [] && usernames == map[]
      ensures heartbeats == map[] && delivered == []
    {
      this.port := port;
      this.currentUsername := currentUsername;
      running := false;
      peers := map[];
      connections := [];
      usernames := map[];
      heartbeats := map[];
      nextId := 0;
      delivered := [];
    }

    /** The fields a broadcast reads and writes. */
    ghost function State(): Net
      reads this
    {
      Net(peers, connections, usernames)
    }

    /** The fields a broadcast leaves alone. */
    ghost function Rest(): (map<ConnId, int>, bool, nat, seq<(Message, ConnId)>)
      reads this
    {
      (heartbeats, running, nextId, delivered)
    }

    /** `start`: a second start does nothing. Binding the socket and the accept loop run on
        another thread and are not modelled. */
    method Start()
      requires Valid()
      modifies this
      ensures Valid() && running
      ensures peers == old(peers) && connections == old(connections) && usernames == old(usernames)
      ensures heartbeats == old(heartbeats) && nextId == old(nextId) && delivered == old(delivered)
    {
      if running {
        return;
      }
      running := true;
    }

    /** One iteration of the accept loop: a fresh open connection joins the list, with its
        heartbeat stamped `now` and no username. */
    method Accept(now: int) returns (conn: ConnId)
      requires Valid() && running
      modifies this
      ensures Valid()
      ensures conn !in old(peers)
      ensures peers == old(peers)[conn := Peer(true, [])]
      ensures connections == old(connections) + [conn]
      ensures heartbeats == old(heartbeats)[conn := now]
      ensures usernames == old(usernames)
      ensures running == old(running) && delivered == old(delivered)
    {
      conn := nextId;
      nextId := nextId + 1;
      peers := peers[conn := Peer(true, [])];
      connections := connections + [conn];
      heartbeats := heartbeats[conn := now];
    }

    /** `PeerConnection.close`, whether the server calls it or the connection's own reader
        thread does when its stream ends. Nothing else is touched: the reader thread never
        reports the loss to the server. */
    method Close(c: ConnId)
      requires c in peers
      modifies this
      ensures peers == old(peers)[c := Peer(false, old(peers)[c].outbox)]
      ensures connections == old(connections) && usernames == old(usernames)
      ensures heartbeats == old(heartbeats) && running == old(running)
      ensures nextId == old(nextId) && delivered == old(delivered)
    {
      peers := peers[c := Peer(false, peers[c].outbox)];
    }

    /** `PeerConnection.sendMessage`: a no-op on a closed connection. */
    method Send(c: ConnId, m: Message)
      requires c in peers
      modifies this
      ensures SentTo(old(peers), peers, [c], [m])
      ensures connections == old(connections) && usernames == old(usernames)
      ensures heartbeats == old(heartbeats) && running == old(running)
      ensures nextId == old(nextId) && delivered == old(delivered)
    {
      if peers[c].alive {
        peers := peers[c := Peer(true, peers[c].outbox + [m])];
      }
    }

    /** `broadcast`: write `m` to every open connection of a snapshot of the list, then drop
        the closed ones from the list and the username table. Each dropped connection that
        had a username triggers a peer-list broadcast, whose own messages are `extras`. */
    method Broadcast(m: Message) returns (ghost extras: seq<Message>)
      requires Listed()
      modifies this
      decreases |usernames|, 5
      ensures Listed()
      ensures Broadcasted(old(State()), State(), [m] + extras)
      ensures PeerListsOnly(extras)
      ensures |extras| == |NamedClosed(old(State()))|
      ensures Closed(old(State())) == {} ==> extras == []
      ensures Rest() == old(Rest())
    {
      ghost var n0 := State();
      var dead := WriteAll(m);
      ghost var n1 := State();
      if dead != [] {
        extras := RemoveClosed(dead);
      } else {
        extras := [];
        NothingClosed(n1);
      }
      WriteThenClean(n0, n1, State(), m, extras);
    }

    /** The first loop of `broadcast`; `dead` is empty exactly when the list holds no closed
        connection. */
    method WriteAll(m: Message) returns (dead: seq<ConnId>)
      requires Listed()
      modifies this
      ensures Listed()
      ensures WroteAll(old(State()), State(), m)
      ensures dead == Keep(connections, DeadIds(peers))
      ensures dead == [] <==> Closed(old(State())) == {}
      ensures Closed(State()) == Closed(old(State()))
      ensures Rest() == old(Rest())
    {
      ghost var n0 := State();
      var ps;
      ps, dead := WriteToAll(peers, connections, m);
      peers := ps;
      WriteKeepsDead(n0, State(), m, dead);
    }

    /** The second half of `broadcast`: drop each closed connection of the snapshot (`dead`,
        in list order) from the list and the username table; each one that had a username
        triggers a peer-list broadcast, whose messages are `extras`. Once the first of those
        has run, the list holds no closed connection and later iterations change nothing. */
    method RemoveClosed(dead: seq<ConnId>) returns (ghost extras: seq<Message>)
      requires Listed() && dead == Keep(connections, DeadIds(peers))
      modifies this
      decreases |usernames|, 4
      ensures Listed()
      ensures Broadcasted(old(State()), State(), extras)
      ensures PeerListsOnly(extras)
      ensures |extras| == |NamedClosed(old(State()))|
      ensures Rest() == old(Rest())
    {
      ghost var n0 := State();
      DeadListFacts(connections, peers, dead);
      ClearedStart(connections, peers, usernames, Elems(dead), State());
      ghost var gone;
      extras, gone := VisitAllClosed(dead, n0.connections, n0.peers, n0.usernames);
      ClearedAll(n0.connections, n0.peers, n0.usernames, gone, extras, State());
    }

    /** The cleanup loop of `broadcast`, visiting each connection of `dead` in turn; `gone`
        ends up holding every one of them. */
    method VisitAllClosed(dead: seq<ConnId>, ghost snapshot: seq<ConnId>, ghost p1: map<ConnId, Peer>,
                          ghost u0: map<ConnId, string>)
      returns (ghost extras: seq<Message>, ghost gone: set<ConnId>)
      requires Listed() && NoDups(snapshot) && NoDups(dead) && Elems(dead) == DeadIn(snapshot, p1)
      requires Cleared(snapshot, p1, u0, Elems(dead), {}, [], State())
      modifies this
      decreases |usernames|, 3
      ensures Listed() && Rest() == old(Rest())
      ensures Elems(dead) <= gone
      ensures Cleared(snapshot, p1, u0, Elems(dead), gone, extras, State())
    {
      ghost var rest0 := Rest();
      ghost var e := Elems(dead);
      extras := [];
      // The connections already gone from the list and the table: every one visited so far,
      // and all of them once a nested peer-list broadcast has run.
      gone := {};
      var j := 0;
      while j < |dead|
        invariant 0 <= j <= |dead|
        invariant Listed() && Rest() == rest0
        invariant Elems(dead[..j]) <= gone
        invariant Cleared(snapshot, p1, u0, e, gone, extras, State())
      {
        var c := dead[j];
        ElemsPrefixStep(dead, j);
        var more := VisitClosed(c, snapshot, p1, u0, e, gone, extras);
        extras := extras + more;
        gone := NextGone(u0, gone, e, c);
        j := j + 1;
      }
      assert dead[..j] == dead;
    }

    /** The cleanup loop visits the closed connection `c`, keeping the loop's account of
        what is gone and what was sent. */
    method VisitClosed(c: ConnId, ghost snapshot: seq<ConnId>, ghost p1: map<ConnId, Peer>,
                       ghost u0: map<ConnId, string>, ghost e: set<ConnId>, ghost gone: set<ConnId>,
                       ghost sent: seq<Message>)
      returns (ghost more: seq<Message>)
      requires Listed() && NoDups(snapshot) && e == DeadIn(snapshot, p1) && c in e
      requires Cleared(snapshot, p1, u0, e, gone, sent, State())
      modifies this
      decreases |usernames|, 2
      ensures Listed() && Rest() == old(Rest())
      ensures gone + {c} <= NextGone(u0, gone, e, c)
      ensures Cleared(snapshot, p1, u0, e, NextGone(u0, gone, e, c), sent + more, State())
    {
      ghost var nb := State();
      more := DropClosed(c);
      CleanupStep(snapshot, p1, e, u0, gone, c, sent, nb, State(), more);
    }

    /** One iteration of the cleanup loop of `broadcast`: `c` leaves the list and, if it had a
        username, the table, which is then broadcast as a peer list. */
    method DropClosed(c: ConnId) returns (ghost more: seq<Message>)
      requires Listed()
      modifies this
      decreases |usernames|, 1
      ensures Listed()
      ensures Dropped(old(State()), c, State(), more)
      ensures Rest() == old(Rest())
    {
      ghost var n0 := State();
      RemoveFirstIsWithout(connections, c);
      WithoutNoDups(connections, {c});
      connections := RemoveFirst(connections, c);
      assert Listed();
      if c in usernames {
        more := DropName(c, n0);
      } else {
        more := [];
      }
    }

    /** The named half of `DropClosed`: `c`, already out of the list, leaves the table, and
        the table is broadcast as a peer list. */
    method DropName(c: ConnId, ghost n0: Net) returns (ghost more: seq<Message>)
      requires Listed() && c in n0.usernames && c in usernames
      requires State() == n0.(connections := RemoveFirst(n0.connections, c))
      modifies this
      decreases |usernames|, 0
      ensures Listed() && Rest() == old(Rest())
      ensures Dropped(n0, c, State(), more)
    {
      MapRemoveCard(usernames, c);
      usernames := usernames - {c};
      ghost var nm := Unnamed(n0, c);
      assert State() == nm;
      more := BroadcastPeerList();
      DroppedNamed(n0, c, nm, State(), more);
    }

    /** The comma-terminated list of usernames, in the map's iteration order. */
    method PeerListing() returns (list: string, ghost order: seq<ConnId>)
      ensures IsOrderingOf(order, usernames.Keys) && list == Listing(usernames, order)
    {
      list := "";
      var remaining := usernames.Keys;
      order := [];
      while remaining != {}
        invariant remaining <= usernames.Keys
        invariant IsOrderingOf(order, usernames.Keys - remaining)
        invariant list == Listing(usernames, order)
        decreases |remaining|
      {
        var c :| c in remaining;
        OrderingExtend(order, usernames.Keys - remaining, c);
        assert (order + [c])[..|order|] == order;
        list := list + usernames[c] + ",";
        order := order + [c];
        assert usernames.Keys - (remaining - {c}) == (usernames.Keys - remaining) + {c};
        remaining := remaining - {c};
      }
      assert usernames.Keys - remaining == usernames.Keys;
    }

    /** `broadcastPeerList`: every username followed by a comma, in the table's iteration
        order, broadcast from "Server" to "all". `sent` is that message followed by whatever
        the broadcast's cleanup sent. */
    method BroadcastPeerList() returns (ghost sent: seq<Message>)
      requires Listed()
      modifies this
      decreases |usernames|, 6
      ensures Listed()
      ensures |sent| >= 1 && IsPeerListFor(sent[0], old(usernames))
      ensures PeerListsOnly(sent)
      ensures |sent| == 1 + |NamedClosed(old(State()))|
      ensures Closed(old(State())) == {} ==> |sent| == 1
      ensures Broadcasted(old(State()), State(), sent)
      ensures Rest() == old(Rest())
    {
      var list, order := PeerListing();
      var msg := Msg("Server", "all", list, PeerList);
      assert IsOrderingOf(order, usernames.Keys) && msg == Msg("Server", "all", Listing(usernames, order), PeerList);
      var extras := Broadcast(msg);
      sent := [msg] + extras;
      assert sent[1..] == extras;
    }

    // -------------------------------------------------------------- routing of inbound messages

    /** USER_JOIN: the sender becomes this connection's username, the join message is
        rebroadcast unchanged, then the peer list is broadcast; the list therefore reflects
        the table left by the join's own cleanup. */
    method Join(m: Message, conn: ConnId) returns (ghost sent: seq<Message>)
      requires Valid() && conn in peers
      modifies this
      ensures Valid()
      ensures Announced(old(State()).(usernames := old(usernames)[conn := m.sender]), State(), m, sent)
      ensures Rest() == old(Rest())
    {
      usernames := usernames[conn := m.sender];
      sent := Announce(m);
    }

    /** USER_LEAVE: this connection's username is dropped, the leave message is rebroadcast
        unchanged, then the peer list is broadcast. */
    method Leave(m: Message, conn: ConnId) returns (ghost sent: seq<Message>)
      requires Valid()
      modifies this
      ensures Valid()
      ensures Announced(old(State()).(usernames := old(usernames) - {conn}), State(), m, sent)
      ensures Rest() == old(Rest())
    {
      usernames := usernames - {conn};
      sent := Announce(m);
    }

    /** The common tail of a join and a leave: rebroadcast `m`, then the peer list. */
    method Announce(m: Message) returns (ghost sent: seq<Message>)
      requires Valid()
      modifies this
      ensures Valid()
      ensures Announced(old(State()), State(), m, sent)
      ensures Rest() == old(Rest())
    {
      ghost var n1 := State();
      var extras := Broadcast(m);
      ghost var n2 := State();
      var listing := BroadcastPeerList();
      AnnouncedInTwo(n1, n2, State(), m, extras, listing);
      sent := extras + listing;
    }

    /** PEER_TO_PEER and FILE: unless the message is for this server, it goes unchanged to one
        connection whose username equals the receiver exactly, or nowhere if there is none. */
    method Direct(m: Message) returns (ghost target: Option<ConnId>)
      requires Valid()
      modifies this
      ensures Valid()
      ensures Forwarded(m, currentUsername, old(State()), State(), target)
      ensures Rest() == old(Rest())
    {
      target := None;
      if ForServer(m.receiver, currentUsername) {
        return;
      }
      if c :| c in usernames && usernames[c] == m.receiver {
        Send(c, m);
        target := Some(c);
      }
    }

    /** HEARTBEAT: stamp this connection with `now` and answer it alone with a pong. */
    method AnswerHeartbeat(m: Message, conn: ConnId, now: int)
      requires Valid() && conn in peers
      modifies this
      ensures Valid()
      ensures heartbeats == old(heartbeats)[conn := now]
      ensures Ponged(m, conn, old(State()), State())
      ensures running == old(running) && nextId == old(nextId) && delivered == old(delivered)
    {
      heartbeats := heartbeats[conn := now];
      Send(conn, PongMessage(m.sender));
    }

    /** The switch of `handleClientMessage`, after the handler has seen the message. */
    method Route(m: Message, conn: ConnId, now: int) returns (ghost sent: seq<Message>, ghost target: Option<ConnId>)
      requires Valid() && conn in peers
      modifies this
      ensures Valid()
      ensures running == old(running) && nextId == old(nextId) && delivered == old(delivered)
      ensures Routed(m, conn, now, currentUsername, old(State()), old(heartbeats), State(), heartbeats, sent, target)
    {
      sent := [];
      target := None;
      match m.kind {
        case UserJoin => sent := Join(m, conn);
        case UserLeave => sent := Leave(m, conn);
        case PeerToPeer => target := Direct(m);
        case File => target := Direct(m);
        case Heartbeat => AnswerHeartbeat(m, conn, now);
        case ClassJoin =>
        case ClassLeave =>
        case _ => sent := Rebroadcast(m);
      }
    }

    /** Every other kind: `m` goes unchanged to every connection of the list. */
    method Rebroadcast(m: Message) returns (ghost sent: seq<Message>)
      requires Valid()
      modifies this
      ensures Valid() && Rest() == old(Rest())
      ensures PeerListsOnly(sent) && Broadcasted(old(State()), State(), [m] + sent)
    {
      sent := Broadcast(m);
      BroadcastShrinks(old(State()), State(), [m] + sent);
    }

    /** `handleClientMessage`: the application handler sees every message first, and a
        CLASS_JOIN or CLASS_LEAVE a second time from the switch, which changes nothing
        else for those two kinds. */
    method HandleClientMessage(m: Message, conn: ConnId, now: int)
      returns (ghost sent: seq<Message>, ghost target: Option<ConnId>)
      requires Valid() && conn in peers
      modifies this
      ensures Valid()
      ensures delivered == old(delivered) + [(m, conn)] + (if m.kind in {ClassJoin, ClassLeave} then [(m, conn)] else [])
      ensures running == old(running) && nextId == old(nextId)
      ensures Routed(m, conn, now, currentUsername, old(State()), old(heartbeats), State(), heartbeats, sent, target)
    {
      delivered := delivered + [(m, conn)];
      sent, target := Route(m, conn, now);
      if m.kind == ClassJoin || m.kind == ClassLeave {
        delivered := delivered + [(m, conn)];
      }
    }

    // -------------------------------------------------------------- removal, shutdown, sweep

    /** `removePeerConnection`: the connection leaves the list, the username table and the
        heartbeat table. Only if it had a username, the peer list and then a USER_LEAVE
        "<name> has left the chat" are broadcast. */
    method RemovePeerConnection(conn: ConnId) returns (ghost listing: seq<Message>, ghost extras: seq<Message>)
      requires Valid()
      modifies this
      ensures Valid()
      ensures conn !in connections && conn !in usernames
      ensures heartbeats == old(heartbeats) - {conn}
      ensures Shrunk(old(State()), State())
      ensures running == old(running) && nextId == old(nextId) && delivered == old(delivered)
      ensures Removed(old(State()), conn, State(), listing, extras)
    {
      ghost var cs0 := connections;
      connections := RemoveFirst(connections, conn);
      RemoveFirstIsWithout(cs0, conn);
      WithoutNoDups(cs0, {conn});
      listing := [];
      extras := [];
      if conn in usernames {
        listing, extras := ForgetNamed(conn);
      } else {
        heartbeats := heartbeats - {conn};
      }
    }

    /** `removePeerConnection` for a connection with a username, once it is off the list:
        the name and the heartbeat go, then the peer list and the USER_LEAVE notice follow. */
    method ForgetNamed(conn: ConnId) returns (ghost listing: seq<Message>, ghost extras: seq<Message>)
      requires Valid() && conn in usernames && conn !in connections
      modifies this
      ensures Valid() && conn !in connections && conn !in usernames
      ensures heartbeats == old(heartbeats) - {conn}
      ensures Shrunk(old(State()), State())
      ensures running == old(running) && nextId == old(nextId) && delivered == old(delivered)
      ensures Departed(old(State()).(usernames := old(usernames) - {conn}), State(),
                       LeaveMessage(old(usernames)[conn]), listing, extras)
    {
      var username := usernames[conn];
      usernames := usernames - {conn};
      heartbeats := heartbeats - {conn};
      listing, extras := Depart(username);
    }

    /** The tail of `removePeerConnection` for a named connection: the peer list, then the
        USER_LEAVE notice. */
    method Depart(username: string) returns (ghost listing: seq<Message>, ghost extras: seq<Message>)
      requires Listed()
      modifies this
      ensures Listed() && Rest() == old(Rest())
      ensures Departed(old(State()), State(), LeaveMessage(username), listing, extras)
      ensures Shrunk(old(State()), State())
    {
      ghost var n1 := State();
      listing := BroadcastPeerList();
      ghost var n2 := State();
      var leave := LeaveMessage(username);
      extras := Broadcast(leave);
      DepartedInTwo(n1, n2, State(), leave, listing, extras);
    }

    /** `stop`: the SERVER_SHUTDOWN notice is broadcast, then every listed connection is
        closed and the three tables are emptied. `extras` is what the broadcast's cleanup
        sent after the notice. */
    method Stop() returns (ghost extras: seq<Message>)
      requires Valid()
      modifies this
      ensures Valid() && !running
      ensures connections == [] && usernames == map[] && heartbeats == map[]
      ensures ShutDown(old(peers), peers, old(connections), [ShutdownMessage()] + extras)
      ensures PeerListsOnly(extras)
      ensures nextId == old(nextId) && delivered == old(delivered)
    {
      running := false;
      extras := BroadcastAndClose(ShutdownMessage());
      connections := [];
      usernames := map[];
      heartbeats := map[];
    }

    /** The first half of `stop`: broadcast `m`, then close every connection left in the list. */
    method BroadcastAndClose(m: Message) returns (ghost extras: seq<Message>)
      requires Listed()
      modifies this
      ensures Listed() && Rest() == old(Rest())
      ensures ShutDown(old(peers), peers, old(connections), [m] + extras)
      ensures PeerListsOnly(extras)
    {
      ghost var n0 := State();
      extras := Broadcast(m);
      ghost var n1 := State();
      CloseListed();
      StopCloses(n0, n1, peers, [m] + extras);
    }

    /** The closing loop of `stop`: every listed connection is closed, in list order. */
    method CloseListed()
      requires Listed()
      modifies this
      ensures Listed() && connections == old(connections) && usernames == old(usernames)
      ensures Rest() == old(Rest())
      ensures peers.Keys == old(peers).Keys
      ensures forall c :: c in old(peers) ==> peers[c] == Peer(old(peers)[c].alive && c !in connections, old(peers)[c].outbox)
    {
      ghost var p0 := peers;
      ghost var rest0 := Rest();
      var i := 0;
      while i < |connections|
        invariant 0 <= i <= |connections|
        invariant Listed() && connections == old(connections) && usernames == old(usernames)
        invariant Rest() == rest0 && peers.Keys == p0.Keys
        invariant forall c :: c in p0 ==> peers[c] == Peer(p0[c].alive && c !in connections[..i], p0[c].outbox)
      {
        TakeSnoc(connections, i);
        Close(connections[i]);
        i := i + 1;
      }
      assert connections[..i] == connections;
    }

    /** One pass of the connection monitor at time `now`: every connection whose last
        heartbeat is more than `ClientTimeout` old is removed as by `removePeerConnection`
        and then closed. A stopped server's monitor does nothing. */
    method MonitorSweep(now: int)
      requires Valid()
      modifies this
      ensures Valid()
      ensures running == old(running) && nextId == old(nextId) && delivered == old(delivered)
      ensures !old(running) ==> State() == old(State()) && heartbeats == old(heartbeats)
      ensures old(running) ==> heartbeats == old(heartbeats) - TimedOut(old(heartbeats), now)
      ensures old(running) ==> forall c :: c in TimedOut(old(heartbeats), now) ==> Evicted(c)
      ensures old(running) ==>
        Swept(old(peers), old(connections), old(usernames), TimedOut(old(heartbeats), now), State())
    {
      if !running {
        return;
      }
      var expired := Expired(now);
      ghost var h0 := heartbeats;
      ghost var n0 := State();
      SweptNone(n0);
      assert h0 - {} == h0;
      var i := 0;
      while i < |expired|
        invariant 0 <= i <= |expired|
        invariant running == old(running) && nextId == old(nextId) && delivered == old(delivered)
        invariant Sweeping(n0, h0, Elems(expired[..i]))
      {
        var c := expired[i];
        ElemsPrefixStep(expired, i);
        SweepOne(c, n0, h0, Elems(expired[..i]));
        i := i + 1;
      }
      assert expired[..i] == expired;
    }

    /** The sweep's loop has evicted the connections `gone` since the state `n0` with the
        heartbeat table `h0`. */
    ghost predicate Sweeping(n0: Net, h0: map<ConnId, int>, gone: set<ConnId>)
      reads this
    {
      Valid() && heartbeats == h0 - gone && (forall d :: d in gone ==> Evicted(d))
      && Swept(n0.peers, n0.connections, n0.usernames, gone, State())
    }

    /** One turn of the sweep's loop. */
    method SweepOne(c: ConnId, ghost n0: Net, ghost h0: map<ConnId, int>, ghost gone: set<ConnId>)
      requires Sweeping(n0, h0, gone) && c in n0.peers
      modifies this
      ensures Sweeping(n0, h0, gone + {c})
      ensures running == old(running) && nextId == old(nextId) && delivered == old(delivered)
    {
      SubtractOneMore(h0, gone, c);
      assert c !in h0 - gone ==> heartbeats - {c} == heartbeats;
      ghost var nb := State();
      ghost var mid, listing, extras := Evict(c);
      SweptStep(n0.peers, n0.connections, n0.usernames, gone, nb, c, State());
    }

    /** `c` is closed and neither listed nor named. */
    ghost predicate Evicted(c: ConnId)
      reads this
    {
      c in peers && !peers[c].alive && c !in connections && c !in usernames
    }

    /** One turn of the sweep: `removePeerConnection`, then the socket is closed. */
    method Evict(c: ConnId) returns (ghost mid: Net, ghost listing: seq<Message>, ghost extras: seq<Message>)
      requires Valid() && c in peers
      modifies this
      ensures Valid() && Evicted(c)
      ensures Removed(old(State()), c, mid, listing, extras) && c in mid.peers && State() == CloseIn(mid, c)
      ensures EvictStep(old(State()), c, State())
      ensures heartbeats == old(heartbeats) - {c}
      ensures running == old(running) && nextId == old(nextId) && delivered == old(delivered)
      ensures forall d :: old(Evicted(d)) ==> Evicted(d)
    {
      ghost var n0 := State();
      listing, extras := RemovePeerConnection(c);
      ghost var n1 := State();
      mid := n1;
      RemovedThenClosed(n0, c, mid, listing, extras);
      Close(c);
      forall d | old(Evicted(d)) ensures Evicted(d) {
        assert d in n0.peers && !n0.peers[d].alive;
        assert d in n1.peers && !n1.peers[d].alive;
      }
    }

    /** The first loop of the sweep: the connections of the heartbeat table whose last
        heartbeat is more than `ClientTimeout` old, in the table's iteration order. */
    method Expired(now: int) returns (expired: seq<ConnId>)
      requires Valid()
      ensures Elems(expired) == TimedOut(heartbeats, now)
      ensures forall c :: c in expired ==> c in peers
    {
      expired := [];
      var remaining := heartbeats.Keys;
      while remaining != {}
        invariant remaining <= heartbeats.Keys
        invariant forall c :: c in expired <==> c in heartbeats && c !in remaining && now - heartbeats[c] > ClientTimeout
        decreases |remaining|
      {
        var c :| c in remaining;
        if now - heartbeats[c] > ClientTimeout {
          expired := expired + [c];
        }
        remaining := remaining - {c};
      }
    }
  }
}
