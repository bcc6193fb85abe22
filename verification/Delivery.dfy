/** What reaches a socket: only the addressee, once per membership row, and in
    the order it was published. */
module Delivery {
  import opened ChatTypes
  import opened OfflineTable
  import opened GroupTable
  import opened RedisBroker
  import opened ChatServer
  import opened ClusterModel
  import opened Sessions
  import opened Accounting

  // ----- Where a fan-out lands ----------------------------------------------------

  function RowCount(members: seq<Member>, groupid: GroupId, u: UserId): nat {
    if members == [] then 0
    else
      var last := members[|members| - 1];
      RowCount(members[..|members| - 1], groupid, u) + (if last.groupid == groupid && last.user == u then 1 else 0)
  }

  /** The query lists the other members, each as often as it has rows. */
  lemma {:induction false} GroupUsersCount(members: seq<Member>, id: UserId, groupid: GroupId, u: UserId)
    ensures multiset(GroupUsers(members, id, groupid))[u] == if u == id then 0 else RowCount(members, groupid, u)
  {
    if members != [] {
      GroupUsersCount(members[..|members| - 1], id, groupid, u);
    }
  }

  /** How often a copy occurs among the targets of a send. */
  function Occurs(users: seq<UserId>, msg: Json, cp: Copy): nat {
    if cp.msg == msg then multiset(users)[cp.user] else 0
  }

  /** From `w` to `r`, `n` more copies: on the socket of a user mapped here,
      among the stored rows of an offline user, in the queues otherwise. */
  ghost predicate Lands(conns: ConnMap, w: World, r: World, cp: Copy, n: nat) {
    var online := IsOnline(w, cp.user);
    && Delivered(r.wire)[cp] == Delivered(w.wire)[cp] + (if cp.user in conns then n else 0)
    && multiset(r.rows)[cp] == multiset(w.rows)[cp] + (if cp.user !in conns && !online then n else 0)
    && Queued(r.inboxes)[cp] == Queued(w.inboxes)[cp] + (if cp.user !in conns && online then n else 0)
  }

  ghost predicate OneSubscriber(conns: ConnMap, w: World, u: UserId) {
    Published(conns, w, u) ==> Subscribers(w.inboxes, u) == 1
  }

  lemma PublishedLands(inboxes: seq<Inbox>, sent: Copy, cp: Copy)
    ensures Queued(Publish(inboxes, sent))[cp]
         == Queued(inboxes)[cp] + (if cp == sent then Subscribers(inboxes, sent.user) else 0)
  {
    QueuedPublish(inboxes, sent);
    var n := Subscribers(inboxes, sent.user);
    assert Times(sent, n)[cp] == if cp == sent then n else 0;
  }

  lemma OneLands(conns: ConnMap, w: World, sent: Copy, cp: Copy)
    requires OneSubscriber(conns, w, cp.user)
    ensures Lands(conns, w, Route(conns, w, sent), cp, if cp == sent then 1 else 0)
  {
    if sent.user in conns {
      DeliveredAppend(w.wire, Chat(conns[sent.user], sent.user, sent.msg, Direct));
    } else if IsOnline(w, sent.user) {
      PublishedLands(w.inboxes, sent, cp);
    }
  }

  lemma AnotherLands(conns: ConnMap, w: World, r: World, sent: Copy, cp: Copy, n: nat)
    requires SameSessions(w, r) && OneSubscriber(conns, w, cp.user) && Lands(conns, w, r, cp, n)
    ensures Lands(conns, w, Route(conns, r, sent), cp, if cp == sent then n + 1 else n)
  {
    SubscribersSame(w.inboxes, r.inboxes, cp.user);
    OneLands(conns, r, sent, cp);
  }

  lemma LastOne(users: seq<UserId>)
    requires users != []
    ensures users == users[..|users| - 1] + [users[|users| - 1]]
  {
  }

  lemma OccursOneMore(users: seq<UserId>, msg: Json, cp: Copy)
    requires users != []
    ensures var before := Occurs(users[..|users| - 1], msg, cp);
            Occurs(users, msg, cp) == if cp == Copy(users[|users| - 1], msg) then before + 1 else before
  {
    LastOne(users);
  }

  lemma {:induction false} SendLands(conns: ConnMap, w: World, users: seq<UserId>, msg: Json, cp: Copy)
    requires OneSubscriber(conns, w, cp.user)
    ensures Lands(conns, w, RouteAll(conns, w, users, msg), cp, Occurs(users, msg, cp))
  {
    if users != [] {
      var rest := users[..|users| - 1];
      SendLands(conns, w, rest, msg, cp);
      RouteAllKeepsSessions(conns, w, rest, msg);
      OccursOneMore(users, msg, cp);
      AnotherLands(conns, w, RouteAll(conns, w, rest, msg), Copy(users[|users| - 1], msg), cp, Occurs(rest, msg, cp));
    }
  }

  lemma AgreeMeansOneSubscriber(c: Cluster, i: nat, u: UserId)
    requires Agree(c) && i < |c.conns|
    ensures IsOnline(c.world, u) ==> Subscribers(c.world.inboxes, u) == 1
    ensures OneSubscriber(c.conns[i], c.world, u)
  {
    ThreeWayAgreement(c, u);
  }

  lemma FanOutLands(conns: ConnMap, w: World, sender: UserId, groupid: GroupId, js: Json, u: UserId)
    requires OneSubscriber(conns, w, u)
    ensures var w' := RouteAll(conns, w, GroupUsers(w.members, sender, groupid), js);
            && Lands(conns, w, w', Copy(u, js), if u == sender then 0 else RowCount(w.members, groupid, u))
            && SameSessions(w, w') && w'.members == w.members && w'.groups == w.groups
  {
    var users := GroupUsers(w.members, sender, groupid);
    RouteAllKeepsSessions(conns, w, users, js);
    SendLands(conns, w, users, js, Copy(u, js));
    GroupUsersCount(w.members, sender, groupid, u);
  }

  /** From `c` to `c'`, the group message `js` reaches user `u`. */
  ghost predicate FansOut(c: Cluster, c': Cluster, i: nat, js: Json, u: UserId)
    requires i < |c.conns| && js.id.Some? && js.groupid.Some?
  {
    && Lands(c.conns[i], c.world, c'.world, Copy(u, js),
             if u == js.id.value then 0 else RowCount(c.world.members, js.groupid.value, u))
    && (IsOnline(c.world, u) ==> Subscribers(c.world.inboxes, u) == 1)
    && c'.conns == c.conns && SameSessions(c.world, c'.world)
    && c'.world.members == c.world.members && c'.world.groups == c.world.groups
  }

  lemma RoutedFansOut(c: Cluster, c': Cluster, i: nat, js: Json, u: UserId)
    requires Agree(c) && i < |c.conns| && js.id.Some? && js.groupid.Some?
    requires var users := GroupUsers(c.world.members, js.id.value, js.groupid.value);
             c' == c.(world := RouteAll(c.conns[i], c.world, users, js))
    ensures FansOut(c, c', i, js, u)
  {
    AgreeMeansOneSubscriber(c, i, u);
    FanOutLands(c.conns[i], c.world, js.id.value, js.groupid.value, js, u);
  }

  /** A group message: every other user gains exactly as many copies as it has
      rows in the group, on its socket if it is mapped here, else among the stored
      rows if it is offline, else in a queue (of its one process); the sender gains
      none; and nobody's session or membership changes. */
  lemma GroupFanOut(c: Cluster, i: nat, conn: Conn, js: Json, insertId: int, u: UserId)
    requires Agree(c) && i < |c.conns|
    requires js.kind == Some(GROUP_CHAT_MSG) && js.id.Some? && js.groupid.Some?
    ensures FansOut(c, Apply(c, Message(i, conn, js, insertId)), i, js, u)
  {
    ChatStep(c, i, conn, js, insertId);
    RoutedFansOut(c, Apply(c, Message(i, conn, js, insertId)), i, js, u);
  }

  // ----- No misdelivery -----------------------------------------------------------

  ghost predicate HasRow(members: seq<Member>, groupid: GroupId, u: UserId) {
    exists m | m in members :: m.groupid == groupid && m.user == u
  }

  /** The content of the message names its user: the `to` of a private message,
      another member of the group of a group message. */
  ghost predicate Addressed(members: seq<Member>, cp: Copy) {
    var js := cp.msg;
    || (js.kind == Some(PRIVATE_CHAT_MSG) && js.to == Some(cp.user))
    || (js.kind == Some(GROUP_CHAT_MSG) && js.id.Some? && js.groupid.Some? &&
        cp.user != js.id.value && HasRow(members, js.groupid.value, cp.user))
  }

  /** Every stored row and every queue entry holds a message for its user. */
  ghost predicate WellAddressed(w: World) {
    && (forall cp | cp in w.rows :: Addressed(w.members, cp))
    && (forall i, cp | 0 <= i < |w.inboxes| && cp in w.inboxes[i].queue :: Addressed(w.members, cp))
  }

  /** A write is right when the connection carries, at that moment, the one user
      the messages in it are addressed to. */
  ghost predicate RightlyWritten(conns: ConnMap, members: seq<Member>, f: Frame) {
    match f
    case Chat(conn, user, msg, _) =>
      BoundUsers(conns, conn) == {user} && Addressed(members, Copy(user, msg))
    case Reply(conn, id, Accepted(_, offline)) =>
      BoundUsers(conns, conn) == {id} && forall m | m in offline :: Addressed(members, Copy(id, m))
    case Reply(_, _, Refused(_)) => true
  }

  lemma {:induction false} GroupUsersHaveRows(members: seq<Member>, id: UserId, groupid: GroupId)
    ensures forall u | u in GroupUsers(members, id, groupid) :: u != id && HasRow(members, groupid, u)
  {
    if members != [] {
      var rest, last := members[..|members| - 1], members[|members| - 1];
      GroupUsersHaveRows(rest, id, groupid);
      assert last in members;
      forall u | u in GroupUsers(members, id, groupid) ensures u != id && HasRow(members, groupid, u) {
        if u in GroupUsers(rest, id, groupid) {
          var m :| m in rest && m.groupid == groupid && m.user == u;
          assert m in members;
        }
      }
    }
  }

  lemma TargetsAreAddressed(w: World, js: Json)
    ensures forall u | u in Targets(w, js) :: Addressed(w.members, Copy(u, js))
  {
    if js.kind == Some(GROUP_CHAT_MSG) && js.id.Some? && js.groupid.Some? {
      GroupUsersHaveRows(w.members, js.id.value, js.groupid.value);
    }
  }

  lemma RouteAdds(conns: ConnMap, w: World, cp: Copy)
    ensures var r := Route(conns, w, cp);
            && (r.wire == w.wire || (cp.user in conns &&
                  r.wire == w.wire + [Chat(conns[cp.user], cp.user, cp.msg, Direct)]))
            && (forall x | x in r.rows :: x in w.rows || x == cp)
            && (forall i, x | 0 <= i < |r.inboxes| && x in r.inboxes[i].queue :: x in w.inboxes[i].queue || x == cp)
  {
  }

  /** What a fan-out adds: direct writes to mapped targets, and copies for
      targets. */
  lemma {:induction false} SendAdds(conns: ConnMap, w: World, users: seq<UserId>, msg: Json)
    ensures var r := RouteAll(conns, w, users, msg);
            && w.wire <= r.wire
            && (forall k | |w.wire| <= k < |r.wire| :: r.wire[k].Chat? &&
                  var u := r.wire[k].user; u in users && u in conns && r.wire[k] == Chat(conns[u], u, msg, Direct))
            && (forall cp | cp in r.rows :: cp in w.rows || (cp.user in users && cp.msg == msg))
            && (forall i, cp | 0 <= i < |r.inboxes| && cp in r.inboxes[i].queue ::
                  cp in w.inboxes[i].queue || (cp.user in users && cp.msg == msg))
  {
    if users != [] {
      var rest, u := users[..|users| - 1], users[|users| - 1];
      SendAdds(conns, w, rest, msg);
      assert users == rest + [u];
      RouteAdds(conns, RouteAll(conns, w, rest, msg), Copy(u, msg));
    }
  }

  /** The writes of one event. */
  function NewFrames(c: Cluster, e: Event): seq<Frame>
    requires WellFormed(c)
  {
    var wire, wire' := c.world.wire, Apply(c, e).world.wire;
    if |wire| <= |wire'| then wire'[|wire|..] else []
  }

  ghost predicate StepIsRight(c: Cluster, e: Event)
    requires WellFormed(c)
  {
    var c' := Apply(c, e);
    && c.world.wire <= c'.world.wire
    && WellAddressed(c'.world)
    && (e.srv < |c.conns| ==>
          forall f | f in NewFrames(c, e) :: RightlyWritten(c'.conns[e.srv], c'.world.members, f))
  }

  lemma ChatIsRight(c: Cluster, i: nat, conn: Conn, js: Json, insertId: int)
    requires WellFormed(c) && OneUserPerConn(c) && WellAddressed(c.world) && i < |c.conns|
    requires js.kind == Some(PRIVATE_CHAT_MSG) || js.kind == Some(GROUP_CHAT_MSG)
    ensures StepIsRight(c, Message(i, conn, js, insertId))
  {
    var conns, users := c.conns[i], Targets(c.world, js);
    ChatStep(c, i, conn, js, insertId);
    RouteAllKeepsSessions(conns, c.world, users, js);
    SendAdds(conns, c.world, users, js);
    TargetsAreAddressed(c.world, js);
    forall u | u in users && u in conns ensures BoundUsers(conns, conns[u]) == {u} {
      assert Maps(c, i, u);
      OnlyUserOf(c, i, u);
    }
  }

  lemma LoginIsRight(c: Cluster, i: nat, conn: Conn, js: Json, insertId: int)
    requires Inv(c) && WellAddressed(c.world) && i < |c.conns|
    requires js.kind == Some(LOGIN_MSG) && (LoginAccepted(c.world, js) ==> BoundUsers(c.conns[i], conn) == {})
    ensures StepIsRight(c, Message(i, conn, js, insertId))
  {
    if LoginAccepted(c.world, js) {
      var u := js.id.value;
      var v := Accept(i, c.conns[i], c.world, conn, u);
      assert !IsOnline(c.world, u) && !MappedSomewhere(c, u) && !Maps(c, i, u);
      forall x ensures x in BoundUsers(v.conns, conn) <==> x in {u} {
        assert x !in BoundUsers(c.conns[i], conn);
      }
      assert BoundUsers(v.conns, conn) == {u};
      MessagesAreRows(c.world.rows, u);
      NoRowsLeft(c.world.rows, u);
    }
  }

  lemma ReceiveIsRight(c: Cluster, i: nat)
    requires WellFormed(c) && OneUserPerConn(c) && WellAddressed(c.world) && i < |c.conns|
    ensures StepIsRight(c, Receive(i))
  {
    var queue := c.world.inboxes[i].queue;
    if queue != [] {
      assert queue[0] in queue;
      if queue[0].user in c.conns[i] {
        assert Maps(c, i, queue[0].user);
        OnlyUserOf(c, i, queue[0].user);
      }
    }
  }

  lemma MoreRowsStillAddressed(w: World, m: Member)
    requires WellAddressed(w)
    ensures WellAddressed(w.(members := w.members + [m]))
  {
    forall cp | Addressed(w.members, cp) ensures Addressed(w.members + [m], cp) {
      if cp.msg.kind == Some(GROUP_CHAT_MSG) {
        var r :| r in w.members && r.groupid == cp.msg.groupid.value && r.user == cp.user;
        assert r in w.members + [m];
      }
    }
  }

  /** Every step but a login needs only that connections carry one user. */
  lemma PlainStepIsRight(c: Cluster, e: Event)
    requires WellFormed(c) && OneUserPerConn(c) && WellAddressed(c.world) && !e.Shutdown?
    requires e.Message? ==> e.js.kind != Some(LOGIN_MSG)
    ensures StepIsRight(c, e)
  {
    if e.srv < |c.conns| {
      match e
      case Receive(i) => ReceiveIsRight(c, i);
      case Disconnect(_, _, _) =>
      case Message(i, conn, js, insertId) =>
        if js.kind == Some(PRIVATE_CHAT_MSG) || js.kind == Some(GROUP_CHAT_MSG) {
          ChatIsRight(c, i, conn, js, insertId);
        } else if js.kind == Some(CREATE_GROUP_MSG) && js.id.Some? && js.name.Some? {
          var created := CreatedId(c.world.groups, js.name.value, insertId);
          MoreRowsStillAddressed(c.world, Member(created, js.id.value, Admin));
        } else if js.kind == Some(JOIN_GROUP_MSG) && js.id.Some? && js.groupid.Some? {
          MoreRowsStillAddressed(c.world, Member(js.groupid.value, js.id.value, Normal));
        }
    }
  }

  lemma StepDeliversRight(c: Cluster, e: Event)
    requires Inv(c) && WellAddressed(c.world) && Allowed(c, e) && !e.Shutdown?
    ensures StepIsRight(c, e)
  {
    if e.Message? && e.js.kind == Some(LOGIN_MSG) {
      if e.srv < |c.conns| {
        LoginIsRight(c, e.srv, e.conn, e.js, e.insertId);
      }
    } else {
      PlainStepIsRight(c, e);
    }
  }

  /** No misdelivery over whole runs: whatever event comes next, every write it
      makes goes to the connection of the one user the message is for. */
  lemma {:induction false} NoMisdelivery(c: Cluster, events: seq<Event>, e: Event)
    requires Inv(c) && WellAddressed(c.world) && AllowedRun(c, events, false)
    requires Allowed(Run(c, events), e) && !e.Shutdown?
    ensures StepIsRight(Run(c, events), e)
  {
    if events != [] {
      NoMisdelivery(c, events[..|events| - 1], events[|events| - 1]);
    }
    RunKeepsInv(c, events);
    StepDeliversRight(Run(c, events), e);
  }

  // ----- Order ----------------------------------------------------------------------

  /** The messages written to a user from the broker, oldest first. */
  function BrokerWrites(wire: seq<Frame>, u: UserId): seq<Json> {
    if wire == [] then []
    else
      var last := wire[|wire| - 1];
      BrokerWrites(wire[..|wire| - 1], u) +
      (if last.Chat? && last.user == u && last.via == Broker then [last.msg] else [])
  }

  function Repeat(msg: Json, n: nat): seq<Json> {
    seq(n, _ => msg)
  }

  /** What an event publishes on a user's channel, in order. */
  function PublishedBy(c: Cluster, e: Event, u: UserId): seq<Json>
    requires WellFormed(c)
  {
    if e.srv < |c.conns| && e.Message?
    then PublishedTo(c.conns[e.srv], c.world, Targets(c.world, e.js), e.js, u)
    else []
  }

  function PublishedOver(c: Cluster, events: seq<Event>, u: UserId): seq<Json>
    requires WellFormed(c)
  {
    if events == [] then []
    else
      var before := events[..|events| - 1];
      PublishedOver(c, before, u) + PublishedBy(Run(c, before), events[|events| - 1], u)
  }

  /** Written from the broker, then still unread at process `r`. */
  function BrokerLine(c: Cluster, r: nat, u: UserId): seq<Json>
    requires WellFormed(c) && r < |c.conns|
  {
    BrokerWrites(c.world.wire, u) + MessagesFor(c.world.inboxes[r].queue, u)
  }

  ghost predicate StaysMapped(c: Cluster, events: seq<Event>, r: nat, u: UserId)
    requires WellFormed(c)
  {
    Maps(Run(c, events), r, u) && (events != [] ==> StaysMapped(c, events[..|events| - 1], r, u))
  }

  lemma BrokerWritesAppend(wire: seq<Frame>, f: Frame, u: UserId)
    ensures BrokerWrites(wire + [f], u)
         == BrokerWrites(wire, u) + (if f.Chat? && f.user == u && f.via == Broker then [f.msg] else [])
  {
  }

  lemma MessagesForAppend(queue: seq<Copy>, cp: Copy, u: UserId)
    ensures MessagesFor(queue + [cp], u) == MessagesFor(queue, u) + (if cp.user == u then [cp.msg] else [])
  {
  }

  lemma {:induction false} MessagesForHead(queue: seq<Copy>, u: UserId)
    requires queue != []
    ensures MessagesFor(queue, u) == (if queue[0].user == u then [queue[0].msg] else []) + MessagesFor(queue[1..], u)
  {
    var n := |queue| - 1;
    if n > 0 {
      MessagesForHead(queue[..n], u);
      assert queue[..n][1..] == queue[1..][..n - 1];
      assert queue[1..][n - 1] == queue[n];
    }
  }

  /** From `w` to `w'`, `line` joins the end of the user's part of queue `r`. */
  ghost predicate LinesUp(w: World, w': World, r: nat, u: UserId, line: seq<Json>) {
    && |w.inboxes| == |w'.inboxes| && r < |w.inboxes|
    && BrokerWrites(w'.wire, u) == BrokerWrites(w.wire, u)
    && MessagesFor(w'.inboxes[r].queue, u) == MessagesFor(w.inboxes[r].queue, u) + line
  }

  lemma RouteLinesUp(conns: ConnMap, w: World, cp: Copy, r: nat, u: UserId)
    requires r < |w.inboxes| && u in w.inboxes[r].subs
    ensures LinesUp(w, Route(conns, w, cp), r, u, if Published(conns, w, u) && cp.user == u then [cp.msg] else [])
  {
    var queue := w.inboxes[r].queue;
    assert MessagesFor(queue, u) + [] == MessagesFor(queue, u);
    if cp.user in conns {
      BrokerWritesAppend(w.wire, Chat(conns[cp.user], cp.user, cp.msg, Direct), u);
    } else if IsOnline(w, cp.user) {
      MessagesForAppend(queue, cp, u);
    }
  }

  lemma AnotherLinesUp(conns: ConnMap, w: World, w': World, cp: Copy, r: nat, u: UserId, line: seq<Json>)
    requires SameSessions(w, w') && r < |w.inboxes| && u in w.inboxes[r].subs && LinesUp(w, w', r, u, line)
    ensures LinesUp(w, Route(conns, w', cp), r, u,
                    if Published(conns, w, u) && cp.user == u then line + [cp.msg] else line)
  {
    RouteLinesUp(conns, w', cp, r, u);
  }

  function PublishedTo(conns: ConnMap, w: World, users: seq<UserId>, msg: Json, u: UserId): seq<Json> {
    if Published(conns, w, u) then Repeat(msg, multiset(users)[u]) else []
  }

  lemma PublishedOneMore(conns: ConnMap, w: World, users: seq<UserId>, msg: Json, u: UserId)
    requires users != []
    ensures var before := PublishedTo(conns, w, users[..|users| - 1], msg, u);
            PublishedTo(conns, w, users, msg, u)
            == if Published(conns, w, u) && users[|users| - 1] == u then before + [msg] else before
  {
    LastOne(users);
  }

  lemma {:induction false} SendLinesUp(conns: ConnMap, w: World, users: seq<UserId>, msg: Json, r: nat, u: UserId)
    requires r < |w.inboxes| && u in w.inboxes[r].subs
    ensures LinesUp(w, RouteAll(conns, w, users, msg), r, u, PublishedTo(conns, w, users, msg, u))
  {
    if users != [] {
      var rest := users[..|users| - 1];
      SendLinesUp(conns, w, rest, msg, r, u);
      RouteAllKeepsSessions(conns, w, rest, msg);
      AnotherLinesUp(conns, w, RouteAll(conns, w, rest, msg), Copy(users[|users| - 1], msg), r, u,
                     PublishedTo(conns, w, rest, msg, u));
      PublishedOneMore(conns, w, users, msg, u);
    }
  }

  /** One turn of the notify loop: the oldest message is written, or is stored. */
  lemma ReceiveOneWrites(i: nat, conns: ConnMap, w: World, u: UserId)
    requires i < |w.inboxes| && w.inboxes[i].queue != []
    ensures var r, cp := ReceiveOne(i, conns, w), w.inboxes[i].queue[0];
            && r.inboxes == w.inboxes[i := w.inboxes[i].(queue := w.inboxes[i].queue[1..])]
            && BrokerWrites(r.wire, u)
               == BrokerWrites(w.wire, u) + (if cp.user == u && u in conns then [cp.msg] else [])
  {
    var cp := w.inboxes[i].queue[0];
    if cp.user in conns {
      BrokerWritesAppend(w.wire, Chat(conns[cp.user], cp.user, cp.msg, Broker), u);
    }
  }

  lemma HeadMoves(written: seq<Json>, head: seq<Json>, unread: seq<Json>)
    ensures (written + head) + unread == written + (head + unread)
  {
  }

  lemma ReceiveLinesUp(c: Cluster, i: nat, r: nat, u: UserId)
    requires Agree(c) && Maps(c, r, u) && i < |c.conns|
    ensures BrokerLine(Apply(c, Receive(i)), r, u) == BrokerLine(c, r, u)
  {
    var w := c.world;
    var queue := w.inboxes[i].queue;
    if queue != [] {
      assert u in c.conns[i] <==> Maps(c, i, u);
      ReceiveOneWrites(i, c.conns[i], w, u);
      MessagesForHead(queue, u);
      HeadMoves(BrokerWrites(w.wire, u), if queue[0].user == u then [queue[0].msg] else [], MessagesFor(queue[1..], u));
    }
  }

  lemma LoginWritesNoChat(c: Cluster, i: nat, conn: Conn, js: Json, r: nat, u: UserId)
    requires WellFormed(c) && i < |c.conns| && r < |c.conns|
    ensures var v := Login(i, c.conns[i], c.world, conn, js).world;
            BrokerWrites(v.wire, u) == BrokerWrites(c.world.wire, u) &&
            v.inboxes[r].queue == c.world.inboxes[r].queue
  {
  }

  lemma ChatLinesUp(c: Cluster, i: nat, conn: Conn, js: Json, insertId: int, r: nat, u: UserId)
    requires Agree(c) && Maps(c, r, u) && i < |c.conns|
    requires js.kind == Some(PRIVATE_CHAT_MSG) || js.kind == Some(GROUP_CHAT_MSG)
    ensures var e := Message(i, conn, js, insertId);
            BrokerLine(Apply(c, e), r, u) == BrokerLine(c, r, u) + PublishedBy(c, e, u)
  {
    assert u in c.world.inboxes[r].subs;
    ChatStep(c, i, conn, js, insertId);
    SendLinesUp(c.conns[i], c.world, Targets(c.world, js), js, r, u);
  }

  lemma OthersLineUp(c: Cluster, i: nat, conn: Conn, js: Json, insertId: int, r: nat, u: UserId)
    requires WellFormed(c) && i < |c.conns| && r < |c.conns|
    requires js.kind != Some(PRIVATE_CHAT_MSG) && js.kind != Some(GROUP_CHAT_MSG)
    ensures BrokerLine(Apply(c, Message(i, conn, js, insertId)), r, u) == BrokerLine(c, r, u)
  {
    if js.kind == Some(LOGIN_MSG) {
      LoginWritesNoChat(c, i, conn, js, r, u);
    } else if !(js.kind == Some(LOG_OUT_MSG) && js.id.Some?) {
      OtherRequests(i, c.conns[i], c.world, conn, js, insertId);
    }
  }

  lemma MessageLinesUp(c: Cluster, i: nat, conn: Conn, js: Json, insertId: int, r: nat, u: UserId)
    requires Agree(c) && Maps(c, r, u) && i < |c.conns|
    ensures var e := Message(i, conn, js, insertId);
            BrokerLine(Apply(c, e), r, u) == BrokerLine(c, r, u) + PublishedBy(c, e, u)
  {
    if js.kind == Some(PRIVATE_CHAT_MSG) || js.kind == Some(GROUP_CHAT_MSG) {
      ChatLinesUp(c, i, conn, js, insertId, r, u);
    } else {
      OthersLineUp(c, i, conn, js, insertId, r, u);
      assert PublishedBy(c, Message(i, conn, js, insertId), u) == [];
    }
  }

  lemma StepLinesUp(c: Cluster, e: Event, r: nat, u: UserId)
    requires Agree(c) && Maps(c, r, u) && !e.Shutdown?
    ensures BrokerLine(Apply(c, e), r, u) == BrokerLine(c, r, u) + PublishedBy(c, e, u)
  {
    if e.srv < |c.conns| {
      match e
      case Receive(i) => ReceiveLinesUp(c, i, r, u);
      case Disconnect(_, _, _) =>
      case Message(i, conn, js, insertId) => MessageLinesUp(c, i, conn, js, insertId, r, u);
    }
  }

  /** Order: while a user stays logged in on one process, what the broker has
      handed it, followed by what is still unread there, is what was there at the
      start followed by everything published to it since, in publication order. */
  lemma {:induction false} PublishedInOrder(c: Cluster, events: seq<Event>, r: nat, u: UserId)
    requires Inv(c) && AllowedRun(c, events, false) && StaysMapped(c, events, r, u)
    ensures r < |c.conns|
    ensures BrokerLine(Run(c, events), r, u) == BrokerLine(c, r, u) + PublishedOver(c, events, u)
  {
    if events != [] {
      var before := events[..|events| - 1];
      PublishedInOrder(c, before, r, u);
      RunKeepsInv(c, before);
      StepLinesUp(Run(c, before), events[|events| - 1], r, u);
    }
  }

  // ----- Order of each sender ---------------------------------------------------------

  /** A message and the process that published it, which the queue does not record. */
  datatype Sourced = Sourced(srv: nat, msg: Json)

  function Contents(line: seq<Sourced>): seq<Json> {
    seq(|line|, k requires 0 <= k < |line| => line[k].msg)
  }

  /** The part of the line that process `p` published. */
  function From(line: seq<Sourced>, p: nat): seq<Json> {
    if line == [] then []
    else From(line[..|line| - 1], p) + (if line[|line| - 1].srv == p then [line[|line| - 1].msg] else [])
  }

  function Tagged(srv: nat, msgs: seq<Json>): seq<Sourced> {
    seq(|msgs|, k requires 0 <= k < |msgs| => Sourced(srv, msgs[k]))
  }

  function SourcedOver(c: Cluster, events: seq<Event>, u: UserId): seq<Sourced>
    requires WellFormed(c)
  {
    if events == [] then []
    else
      var before, e := events[..|events| - 1], events[|events| - 1];
      SourcedOver(c, before, u) + Tagged(e.srv, PublishedBy(Run(c, before), e, u))
  }

  /** What process `p` publishes on the user's channel, in order. */
  function PublishedFrom(c: Cluster, events: seq<Event>, u: UserId, p: nat): seq<Json>
    requires WellFormed(c)
  {
    if events == [] then []
    else
      var before, e := events[..|events| - 1], events[|events| - 1];
      PublishedFrom(c, before, u, p) + (if e.srv == p then PublishedBy(Run(c, before), e, u) else [])
  }

  lemma {:induction false} FromConcat(a: seq<Sourced>, b: seq<Sourced>, p: nat)
    ensures From(a + b, p) == From(a, p) + From(b, p)
  {
    if b == [] {
      assert a + b == a;
    } else {
      assert (a + b)[..|a + b| - 1] == a + b[..|b| - 1];
      FromConcat(a, b[..|b| - 1], p);
    }
  }

  lemma {:induction false} FromTagged(srv: nat, msgs: seq<Json>, p: nat)
    ensures From(Tagged(srv, msgs), p) == if srv == p then msgs else []
  {
    if msgs != [] {
      var n := |msgs| - 1;
      assert Tagged(srv, msgs)[..n] == Tagged(srv, msgs[..n]);
      FromTagged(srv, msgs[..n], p);
    }
  }

  lemma ContentsConcat(a: seq<Sourced>, b: seq<Sourced>)
    ensures Contents(a + b) == Contents(a) + Contents(b)
  {
  }

  /** A line cut where what was read of it ends. */
  lemma CutLine(line: seq<Sourced>, read: seq<Json>, unread: seq<Json>, p: nat)
    requires Contents(line) == read + unread
    ensures |read| <= |line|
    ensures Contents(line[..|read|]) == read && Contents(line[|read|..]) == unread
    ensures From(line[..|read|], p) + From(line[|read|..], p) == From(line, p)
  {
    assert |Contents(line)| == |line|;
    var a, b := line[..|read|], line[|read|..];
    assert line == a + b;
    ContentsConcat(a, b);
    FromConcat(a, b, p);
    assert Contents(line)[..|read|] == read && Contents(line)[|read|..] == unread;
  }

  lemma {:induction false} SourcedOverIsPublished(c: Cluster, events: seq<Event>, u: UserId, p: nat)
    requires WellFormed(c)
    ensures Contents(SourcedOver(c, events, u)) == PublishedOver(c, events, u)
    ensures From(SourcedOver(c, events, u), p) == PublishedFrom(c, events, u, p)
  {
    if events != [] {
      var before, e := events[..|events| - 1], events[|events| - 1];
      var msgs := PublishedBy(Run(c, before), e, u);
      SourcedOverIsPublished(c, before, u, p);
      FromConcat(SourcedOver(c, before, u), Tagged(e.srv, msgs), p);
      FromTagged(e.srv, msgs, p);
      ContentsConcat(SourcedOver(c, before, u), Tagged(e.srv, msgs));
      assert Contents(Tagged(e.srv, msgs)) == msgs;
    }
  }

  /** The order of each sender: whoever published what was there at the start, the
      line can be cut where reading has got to, and on both sides of the cut the
      messages of process `p` are those it published, in its own order. */
  lemma SendersKeepTheirOrder(c: Cluster, events: seq<Event>, r: nat, u: UserId, p: nat, start: seq<Sourced>)
    requires Inv(c) && AllowedRun(c, events, false) && StaysMapped(c, events, r, u)
    requires r < |c.conns| && Contents(start) == BrokerLine(c, r, u)
    ensures var line, w := start + SourcedOver(c, events, u), Run(c, events).world;
            var read := |BrokerWrites(w.wire, u)|;
            && read <= |line|
            && Contents(line[..read]) == BrokerWrites(w.wire, u)
            && Contents(line[read..]) == MessagesFor(w.inboxes[r].queue, u)
            && From(line[..read], p) + From(line[read..], p) == From(start, p) + PublishedFrom(c, events, u, p)
  {
    PublishedInOrder(c, events, r, u);
    SourcedOverIsPublished(c, events, u, p);
    var since, w := SourcedOver(c, events, u), Run(c, events).world;
    ContentsConcat(start, since);
    FromConcat(start, since, p);
    CutLine(start + since, BrokerWrites(w.wire, u), MessagesFor(w.inboxes[r].queue, u), p);
  }
}
