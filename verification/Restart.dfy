/** Shutting processes down: `reset` marks the users of every process offline,
    not only those of the process that ends. */
module Restart {
  import opened ChatTypes
  import opened UserTable
  import opened OfflineTable
  import opened RedisBroker
  import opened ChatServer
  import opened ClusterModel
  import opened Sessions
  import opened Accounting
  import opened Mailbox

  // ----- Several processes --------------------------------------------------------

  /** What survives: an online user is mapped by some process, and every process
      is subscribed to exactly the users it maps. */
  ghost predicate Backed(c: Cluster) {
    && WellFormed(c)
    && -1 !in c.world.users
    && OneUserPerConn(c)
    && (forall i: nat, u | i < |c.conns| :: u in c.world.inboxes[i].subs <==> Maps(c, i, u))
    && (forall u | IsOnline(c.world, u) :: MappedSomewhere(c, u))
  }

  /** Agreement is more than that, so runs may start wherever it holds. */
  lemma AgreeingIsBacked(c: Cluster)
    requires Inv(c)
    ensures Backed(c)
  {
  }

  lemma SameSessionsKeepBacked(c: Cluster, w: World)
    requires SameSessions(c.world, w) && Backed(c)
    ensures Backed(c.(world := w))
  {
    var c' := c.(world := w);
    SameSessionsKeepInv(c, w);
    assert forall i, u :: Maps(c', i, u) == Maps(c, i, u);
    assert forall u :: MappedSomewhere(c', u) == MappedSomewhere(c, u);
    assert forall u :: IsOnline(c'.world, u) == IsOnline(c.world, u);
  }

  lemma AcceptKeepsBacked(c: Cluster, i: nat, conn: Conn, u: UserId)
    requires Backed(c) && i < |c.conns| && BoundUsers(c.conns[i], conn) == {}
    ensures var v := Accept(i, c.conns[i], c.world, conn, u);
            Backed(Cluster(c.conns[i := v.conns], v.world))
  {
    var v := Accept(i, c.conns[i], c.world, conn, u);
    var c' := Cluster(c.conns[i := v.conns], v.world);
    assert forall j, x :: Maps(c', j, x) <==> Maps(c, j, x) || (j == i && x == u);
    forall x | x in c.conns[i] ensures c.conns[i][x] != conn {
      assert x !in BoundUsers(c.conns[i], conn);
    }
    assert Maps(c', i, u);
    forall x | IsOnline(c'.world, x) ensures MappedSomewhere(c', x) {
      if x != u {
        assert IsOnline(c.world, x) && MappedSomewhere(c, x);
        var j :| Maps(c, j, x);
        assert Maps(c', j, x);
      }
    }
  }

  lemma RemovedKeepsBacked(c: Cluster, i: nat, u: UserId, c': Cluster)
    requires Backed(c) && Maps(c, i, u) && WellFormed(c')
    requires c'.conns == c.conns[i := c.conns[i] - {u}]
    requires c'.world.users == UpdateState(c.world.users, u, Offline)
    requires c'.world.inboxes == Unsubscribe(c.world.inboxes, i, u)
    ensures Backed(c')
  {
    assert forall j, x :: Maps(c', j, x) <==> Maps(c, j, x) && !(j == i && x == u);
    forall x | IsOnline(c'.world, x) ensures MappedSomewhere(c', x) {
      assert IsOnline(c.world, x) && x != u;
      var j :| Maps(c, j, x);
      assert Maps(c', j, x);
    }
  }

  lemma CloseKeepsBacked(c: Cluster, i: nat, conn: Conn, last: UserId)
    requires Backed(c) && i < |c.conns| && Allowed(c, Disconnect(i, conn, last))
    ensures Backed(Apply(c, Disconnect(i, conn, last)))
  {
    var bound := BoundUsers(c.conns[i], conn);
    var c' := Apply(c, Disconnect(i, conn, last));
    if bound == {} {
      assert c' == c;
    } else {
      assert Maps(c, i, last);
      OnlyUserOf(c, i, last);
      if last == -1 {
        assert UpdateState(c.world.users, last, Offline) == c.world.users;
      }
      RemovedKeepsBacked(c, i, last, c');
    }
  }

  lemma ExitKeepsBacked(c: Cluster, i: nat)
    requires Backed(c) && i < |c.conns|
    ensures Backed(Exit(c, i))
  {
  }

  lemma MessageKeepsBacked(c: Cluster, i: nat, conn: Conn, js: Json, insertId: int)
    requires Backed(c) && i < |c.conns| && Allowed(c, Message(i, conn, js, insertId))
    ensures Backed(Apply(c, Message(i, conn, js, insertId)))
  {
    var c' := Apply(c, Message(i, conn, js, insertId));
    if js.kind == Some(LOGIN_MSG) && LoginAccepted(c.world, js) {
      AcceptKeepsBacked(c, i, conn, js.id.value);
    } else if js.kind == Some(LOG_OUT_MSG) && js.id.Some? && js.id.value in c.conns[i] {
      RemovedKeepsBacked(c, i, js.id.value, c');
    } else {
      assert c' == c.(world := c'.world);
      if js.kind == Some(REG_MSG) {
        assert forall u :: IsOnline(c'.world, u) == IsOnline(c.world, u);
        assert forall j, u :: Maps(c', j, u) == Maps(c, j, u);
        assert forall u :: MappedSomewhere(c', u) == MappedSomewhere(c, u);
      } else {
        if js.kind == Some(PRIVATE_CHAT_MSG) || js.kind == Some(GROUP_CHAT_MSG) {
          ChatStep(c, i, conn, js, insertId);
          RouteAllKeepsSessions(c.conns[i], c.world, Targets(c.world, js), js);
        }
        SameSessionsKeepBacked(c, c'.world);
      }
    }
  }

  /** Every allowed step keeps it, shutdowns included. */
  lemma StepKeepsBacked(c: Cluster, e: Event)
    requires Backed(c) && Allowed(c, e)
    ensures Backed(Apply(c, e))
  {
    if e.srv < |c.conns| {
      match e
      case Message(i, conn, js, insertId) => MessageKeepsBacked(c, i, conn, js, insertId);
      case Disconnect(i, conn, last) => CloseKeepsBacked(c, i, conn, last);
      case Shutdown(i) => ExitKeepsBacked(c, i);
      case Receive(i) =>
        var w := ReceiveOne(i, c.conns[i], c.world);
        assert SameSessions(c.world, w);
        SameSessionsKeepBacked(c, w);
    }
  }

  lemma {:induction false} RunKeepsBacked(c: Cluster, events: seq<Event>)
    requires Backed(c) && AllowedRun(c, events, true)
    ensures Backed(Run(c, events))
  {
    if events != [] {
      RunKeepsBacked(c, events[..|events| - 1]);
      StepKeepsBacked(Run(c, events[..|events| - 1]), events[|events| - 1]);
    }
  }

  // ----- The balance with shutdowns -------------------------------------------------

  /** The messages a shutdown loses: those its own process had not read. */
  function LostAtExit(c: Cluster, e: Event): Bag
    requires WellFormed(c)
  {
    if e.srv < |c.conns| && e.Shutdown? then multiset(c.world.inboxes[e.srv].queue) else multiset{}
  }

  /** The duplicates a send makes when several processes map its user. */
  function ExtraBy(c: Cluster, e: Event): Bag
    requires WellFormed(c)
  {
    if e.srv < |c.conns| && e.Message?
    then ExtraCopies(c.conns[e.srv], c.world, Targets(c.world, e.js), e.js) else multiset{}
  }

  function LostOver(c: Cluster, events: seq<Event>): Bag
    requires WellFormed(c)
  {
    if events == [] then multiset{}
    else LostOver(c, events[..|events| - 1]) + LostAtExit(Run(c, events[..|events| - 1]), events[|events| - 1])
  }

  function ExtraOver(c: Cluster, events: seq<Event>): Bag
    requires WellFormed(c)
  {
    if events == [] then multiset{}
    else ExtraOver(c, events[..|events| - 1]) + ExtraBy(Run(c, events[..|events| - 1]), events[|events| - 1])
  }

  /** While online users are backed, every publication finds a subscriber. */
  lemma {:induction false} BackedLosesNothing(c: Cluster, i: nat, users: seq<UserId>, msg: Json)
    requires Backed(c) && i < |c.conns|
    ensures LostCopies(c.conns[i], c.world, users, msg) == multiset{}
  {
    if users != [] {
      var u := users[|users| - 1];
      BackedLosesNothing(c, i, users[..|users| - 1], msg);
      if IsOnline(c.world, u) {
        assert MappedSomewhere(c, u);
        var j: nat :| Maps(c, j, u);
        assert u in c.world.inboxes[j].subs;
      }
      NoSubscribers(c.world.inboxes, u);
    }
  }

  lemma BackedSendBalances(c: Cluster, i: nat, users: seq<UserId>, msg: Json)
    requires Backed(c) && i < |c.conns|
    ensures Total(RouteAll(c.conns[i], c.world, users, msg))
         == Total(c.world) + CopiesFor(users, msg) + ExtraCopies(c.conns[i], c.world, users, msg)
  {
    BackedLosesNothing(c, i, users, msg);
    SendLedger(c.conns[i], c.world, users, msg);
    Cancel(Total(RouteAll(c.conns[i], c.world, users, msg)),
           Total(c.world) + CopiesFor(users, msg) + ExtraCopies(c.conns[i], c.world, users, msg), multiset{});
  }

  lemma AcceptKeepsTotal(i: nat, conns: ConnMap, w: World, conn: Conn, u: UserId)
    requires i < |w.inboxes|
    ensures Total(Accept(i, conns, w, conn, u).world) == Total(w)
  {
    var v := Accept(i, conns, w, conn, u).world;
    var got := multiset(AddressedTo(u, MessagesFor(w.rows, u)));
    AcceptMovesRows(i, conns, w, conn, u);
    Moved(Delivered(w.wire), got, Pending(v));
  }

  lemma Moved(a: Bag, b: Bag, c: Bag)
    ensures (a + b) + c == a + (c + b)
  {
  }

  lemma LoginKeepsTotal(i: nat, conns: ConnMap, w: World, conn: Conn, js: Json)
    requires i < |w.inboxes|
    ensures Total(Login(i, conns, w, conn, js).world) == Total(w)
  {
    if js.id.Some? && js.password.Some? {
      match LoginRefusal(w.users, js.id.value, js.password.value)
      case Some(reason) => RefusalDeliversNothing(w, conn, js.id.value, reason);
      case None => AcceptKeepsTotal(i, conns, w, conn, js.id.value);
    }
  }

  /** Steps that neither send nor end a process move copies but keep their number. */
  lemma HandleKeepsTotal(i: nat, conns: ConnMap, w: World, conn: Conn, js: Json, insertId: int)
    requires i < |w.inboxes|
    requires js.kind != Some(PRIVATE_CHAT_MSG) && js.kind != Some(GROUP_CHAT_MSG)
    ensures Total(Handle(i, conns, w, conn, js, insertId).world) == Total(w)
  {
    if js.kind == Some(LOGIN_MSG) {
      LoginKeepsTotal(i, conns, w, conn, js);
      assert Handle(i, conns, w, conn, js, insertId) == Login(i, conns, w, conn, js);
    } else if js.kind == Some(LOG_OUT_MSG) && js.id.Some? {
      LogOutKeepsTotal(i, conns, w, js.id.value);
      assert Handle(i, conns, w, conn, js, insertId) == LogOut(i, conns, w, js.id.value);
    } else {
      OtherRequests(i, conns, w, conn, js, insertId);
      SameTotal(w, Handle(i, conns, w, conn, js, insertId).world);
    }
  }

  lemma SameTotal(a: World, b: World)
    requires a.wire == b.wire && a.rows == b.rows && a.inboxes == b.inboxes
    ensures Total(a) == Total(b)
  {
  }

  lemma LogOutKeepsTotal(i: nat, conns: ConnMap, w: World, u: UserId)
    requires i < |w.inboxes|
    ensures Total(LogOut(i, conns, w, u).world) == Total(w)
  {
    SubsDoNotMoveCopies(w.inboxes, i, w.inboxes[i].subs - {u});
  }

  lemma MessageBalances(c: Cluster, i: nat, conn: Conn, js: Json, insertId: int)
    requires Backed(c) && i < |c.conns|
    ensures var e := Message(i, conn, js, insertId);
            Total(Apply(c, e).world) == Total(c.world) + SentBy(c, e) + ExtraBy(c, e)
  {
    if js.kind == Some(PRIVATE_CHAT_MSG) || js.kind == Some(GROUP_CHAT_MSG) {
      ChatStep(c, i, conn, js, insertId);
      BackedSendBalances(c, i, Targets(c.world, js), js);
    } else {
      HandleKeepsTotal(i, c.conns[i], c.world, conn, js, insertId);
    }
  }

  lemma ExitBalances(c: Cluster, i: nat)
    requires WellFormed(c) && i < |c.conns|
    ensures Total(Exit(c, i).world) + multiset(c.world.inboxes[i].queue) == Total(c.world)
  {
    QueuedUpdate(c.world.inboxes, i, Inbox({}, []));
    TookFromQueues(Delivered(c.world.wire), multiset(c.world.rows), Queued(Exit(c, i).world.inboxes),
                   multiset(c.world.inboxes[i].queue), Queued(c.world.inboxes));
  }

  lemma TookFromQueues(delivered: Bag, rows: Bag, rest: Bag, took: Bag, all: Bag)
    requires rest + took == all + multiset{}
    ensures (delivered + (rows + rest)) + took == delivered + (rows + all)
  {
    assert (delivered + (rows + rest)) + took == delivered + (rows + (rest + took));
  }

  lemma CloseKeepsTotal(i: nat, conns: ConnMap, w: World, conn: Conn, last: UserId)
    requires i < |w.inboxes|
    ensures Total(ClientClose(i, conns, w, conn, last).world) == Total(w)
  {
    SubsDoNotMoveCopies(w.inboxes, i, w.inboxes[i].subs - BoundUsers(conns, conn));
  }

  lemma StepBalances(c: Cluster, e: Event)
    requires Backed(c) && Allowed(c, e)
    ensures Total(Apply(c, e).world) + LostAtExit(c, e) == Total(c.world) + SentBy(c, e) + ExtraBy(c, e)
  {
    if e.srv < |c.conns| {
      match e
      case Receive(i) => ReceiveKeepsTotal(i, c.conns[i], c.world);
      case Shutdown(i) => ExitBalances(c, i);
      case Disconnect(i, conn, last) => CloseKeepsTotal(i, c.conns[i], c.world, conn, last);
      case Message(i, conn, js, insertId) => MessageBalances(c, i, conn, js, insertId);
    }
  }

  /** With any number of shutdowns, the only copies ever lost are those queued at
      a process when it ends. Copies may be duplicated, exactly when
      `DuplicatesExactlyWhen` says. */
  lemma {:induction false} OnlyUnreadMessagesAreLost(c: Cluster, events: seq<Event>)
    requires Backed(c) && AllowedRun(c, events, true)
    ensures Total(Run(c, events).world) + LostOver(c, events)
         == Total(c.world) + SentOver(c, events) + ExtraOver(c, events)
  {
    if events != [] {
      var before, e := events[..|events| - 1], events[|events| - 1];
      var b := Run(c, before);
      OnlyUnreadMessagesAreLost(c, before);
      RunKeepsBacked(c, before);
      StepBalances(b, e);
      RegroupBalance(Total(c.world), Total(b.world), Total(Apply(b, e).world),
                     LostOver(c, before), LostAtExit(b, e),
                     SentOver(c, before), SentBy(b, e), ExtraOver(c, before), ExtraBy(b, e));
    }
  }

  // ----- When a step duplicates -------------------------------------------------------

  /** Two processes map the user. */
  ghost predicate MappedTwice(c: Cluster, u: UserId) {
    exists i: nat, j: nat :: i < j && Maps(c, i, u) && Maps(c, j, u)
  }

  lemma {:induction false} SeveralSubscribers(inboxes: seq<Inbox>, u: UserId)
    ensures Subscribers(inboxes, u) > 1 <==>
            exists i: nat, j: nat :: i < j < |inboxes| && u in inboxes[i].subs && u in inboxes[j].subs
  {
    if inboxes != [] {
      var n := |inboxes| - 1;
      var rest := inboxes[..n];
      SeveralSubscribers(rest, u);
      NoSubscribers(rest, u);
      assert forall k: nat | k < n :: rest[k] == inboxes[k];
      if Subscribers(rest, u) > 1 {
        var i: nat, j: nat :| i < j < n && u in rest[i].subs && u in rest[j].subs;
        assert u in inboxes[i].subs && u in inboxes[j].subs;
      } else if Subscribers(rest, u) == 1 && u in inboxes[n].subs {
        var k :| 0 <= k < n && u in rest[k].subs;
        assert u in inboxes[k].subs;
      }
    }
  }

  lemma BackedReachesSeveral(c: Cluster, i: nat, u: UserId)
    requires Backed(c) && i < |c.conns|
    ensures ReachesSeveral(c.conns[i], c.world, u) <==> Published(c.conns[i], c.world, u) && MappedTwice(c, u)
  {
    SeveralSubscribers(c.world.inboxes, u);
    assert forall k: nat | k < |c.conns| :: u in c.world.inboxes[k].subs <==> Maps(c, k, u);
    if MappedTwice(c, u) {
      var j: nat, k: nat :| j < k && Maps(c, j, u) && Maps(c, k, u);
      assert u in c.world.inboxes[j].subs && u in c.world.inboxes[k].subs;
    }
  }

  /** A step duplicates something if and only if it publishes to a user whom two or
      more processes map. */
  lemma DuplicatesExactlyWhen(c: Cluster, e: Event)
    requires Backed(c)
    ensures ExtraBy(c, e) != multiset{} <==>
            e.srv < |c.conns| && e.Message? &&
            exists u | u in Targets(c.world, e.js) :: Published(c.conns[e.srv], c.world, u) && MappedTwice(c, u)
  {
    if e.srv < |c.conns| && e.Message? {
      SendDoublesSome(c.conns[e.srv], c.world, Targets(c.world, e.js), e.js);
      forall u {
        BackedReachesSeveral(c, e.srv, u);
      }
    }
  }

  /** What does not survive: a user of process `j` can log in again on the
      process that restarted, and is then mapped twice and published to twice. */
  lemma ShutdownAllowsTwoSessions(c: Cluster, i: nat, j: nat, u: UserId, conn: Conn, js: Json)
    requires Agree(c) && i < |c.conns| && i != j && Maps(c, j, u)
    requires u in c.world.users
    requires js.kind == Some(LOGIN_MSG) && js.id == Some(u) && js.password == Some(c.world.users[u].password)
    ensures var c' := Apply(Apply(c, Shutdown(i)), Message(i, conn, js, 1));
            Maps(c', i, u) && Maps(c', j, u) && Subscribers(c'.world.inboxes, u) == 2
  {
    assert MappedSomewhere(c, u) && IsOnline(c.world, u);
    var x := Exit(c, i);
    assert LoginAccepted(x.world, js);
    var c' := Apply(x, Message(i, conn, js, 1));
    var inboxes := c'.world.inboxes;
    forall k: nat | k < |inboxes| ensures u in inboxes[k].subs <==> k == i || k == j {
      assert u in c.world.inboxes[k].subs <==> Maps(c, k, u);
    }
    TwoSubscribers(inboxes, u, i, j);
  }

  // ----- One process ----------------------------------------------------------------

  ghost predicate Solo(c: Cluster) {
    |c.conns| == 1 && Inv(c) && c.world.inboxes[0].queue == []
  }

  /** With one process the publish branch is dead: who is not mapped is offline. */
  lemma SoloNeverPublishes(c: Cluster, u: UserId)
    requires Solo(c)
    ensures !Published(c.conns[0], c.world, u)
  {
  }

  lemma {:induction false} SoloSendQueuesNothing(c: Cluster, users: seq<UserId>, msg: Json)
    requires Solo(c)
    ensures RouteAll(c.conns[0], c.world, users, msg).inboxes == c.world.inboxes
  {
    if users != [] {
      SoloSendQueuesNothing(c, users[..|users| - 1], msg);
      RouteAllKeepsSessions(c.conns[0], c.world, users[..|users| - 1], msg);
      SoloNeverPublishes(c, users[|users| - 1]);
    }
  }

  lemma SoloQueuesNothing(c: Cluster, e: Event)
    requires Solo(c)
    ensures Apply(c, e).world.inboxes[0].queue == []
  {
    if e.Message? && e.srv == 0 && (e.js.kind == Some(PRIVATE_CHAT_MSG) || e.js.kind == Some(GROUP_CHAT_MSG)) {
      ChatStep(c, 0, e.conn, e.js, e.insertId);
      SoloSendQueuesNothing(c, Targets(c.world, e.js), e.js);
    }
  }

  lemma SoloRestart(c: Cluster)
    requires Solo(c)
    ensures Solo(Exit(c, 0)) && Total(Exit(c, 0).world) == Total(c.world)
  {
  }

  lemma SoloStep(c: Cluster, e: Event)
    requires Solo(c) && Allowed(c, e)
    ensures Solo(Apply(c, e))
    ensures Total(Apply(c, e).world) == Total(c.world) + SentBy(c, e)
  {
    if e.Shutdown? {
      SoloRestart(c);
    } else {
      StepKeepsInv(c, e);
      SoloQueuesNothing(c, e);
      StepSimulates(c, e);
      MailConserves(AsMail(c), ActionOf(c, e));
    }
  }

  /** One process: the agreement, and exactly-once, hold across any number of
      restarts. */
  lemma {:induction false} SoloRun(c: Cluster, events: seq<Event>)
    requires Solo(c) && AllowedRun(c, events, true)
    ensures Solo(Run(c, events))
    ensures Total(Run(c, events).world) == Total(c.world) + SentOver(c, events)
  {
    if events != [] {
      SoloRun(c, events[..|events| - 1]);
      SoloStep(Run(c, events[..|events| - 1]), events[|events| - 1]);
    }
  }
}
