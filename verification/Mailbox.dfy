/** The cluster as one mailbox: which process a user or a sender is on cannot be
    told from outside, and no message is lost or duplicated. */
module Mailbox {
  import opened ChatTypes
  import opened UserTable
  import opened OfflineTable
  import opened RedisBroker
  import opened ChatServer
  import opened ClusterModel
  import opened Sessions
  import opened Accounting

  /** One machine, no processes: who is online, what waits, what was handed over. */
  datatype Mail = Mail(online: set<UserId>, pending: Bag, delivered: Bag)

  datatype Action =
    | Post(now: Bag, later: Bag)
    | Connect(user: UserId, got: Bag)
    | Leave(user: UserId)
    | Push(cp: Copy)
    | Idle

  /** Messages reach only online users. A connecting user takes waiting messages
      of its own. */
  ghost predicate Enabled(m: Mail, a: Action) {
    match a
    case Post(now, _) => forall cp | cp in now :: cp.user in m.online
    case Connect(u, got) => u !in m.online && got <= m.pending && forall cp | cp in got :: cp.user == u
    case Leave(u) => u in m.online
    case Push(cp) => cp in m.pending && cp.user in m.online
    case Idle => true
  }

  function Perform(m: Mail, a: Action): Mail {
    match a
    case Post(now, later) => m.(pending := m.pending + later, delivered := m.delivered + now)
    case Connect(u, got) => Mail(m.online + {u}, m.pending - got, m.delivered + got)
    case Leave(u) => m.(online := m.online - {u})
    case Push(cp) => m.(pending := m.pending - multiset{cp}, delivered := m.delivered + multiset{cp})
    case Idle => m
  }

  function Posted(a: Action): Bag {
    if a.Post? then a.now + a.later else multiset{}
  }

  /** The mailbox neither loses nor invents a copy. */
  lemma MailConserves(m: Mail, a: Action)
    requires Enabled(m, a)
    ensures var m' := Perform(m, a);
            m'.delivered + m'.pending == m.delivered + m.pending + Posted(a)
  {
  }

  // ----- The cluster seen as a mailbox --------------------------------------------

  ghost function OnlineUsers(w: World): set<UserId> {
    set u | u in w.users && w.users[u].state == Online
  }

  ghost function AsMail(c: Cluster): Mail {
    Mail(OnlineUsers(c.world), Pending(c.world), Delivered(c.world.wire))
  }

  /** The copies not written at once. */
  function LaterCopies(conns: ConnMap, users: seq<UserId>, msg: Json): Bag {
    if users == [] then multiset{}
    else
      var u := users[|users| - 1];
      LaterCopies(conns, users[..|users| - 1], msg) + (if u in conns then multiset{} else multiset{Copy(u, msg)})
  }

  ghost function ActionOf(c: Cluster, e: Event): Action
    requires WellFormed(c)
  {
    if e.srv >= |c.conns| then Idle
    else
      var conns, w := c.conns[e.srv], c.world;
      match e
      case Message(_, conn, js, _) =>
        if js.kind == Some(LOGIN_MSG) then
          if LoginAccepted(w, js)
          then Connect(js.id.value, multiset(AddressedTo(js.id.value, MessagesFor(w.rows, js.id.value))))
          else Idle
        else if js.kind == Some(PRIVATE_CHAT_MSG) || js.kind == Some(GROUP_CHAT_MSG) then
          Post(NowCopies(conns, Targets(w, js), js), LaterCopies(conns, Targets(w, js), js))
        else if js.kind == Some(LOG_OUT_MSG) && js.id.Some? && js.id.value in conns then Leave(js.id.value)
        else Idle
      case Disconnect(_, conn, last) => if BoundUsers(conns, conn) == {} then Idle else Leave(last)
      case Receive(i) =>
        var queue := w.inboxes[i].queue;
        if queue != [] && queue[0].user in conns then Push(queue[0]) else Idle
      case Shutdown(_) => Idle
  }

  /** What an event sends. */
  function SentBy(c: Cluster, e: Event): Bag
    requires WellFormed(c)
  {
    if e.srv < |c.conns| && e.Message? then CopiesFor(Targets(c.world, e.js), e.js) else multiset{}
  }

  lemma {:induction false} NowAndLater(conns: ConnMap, users: seq<UserId>, msg: Json)
    ensures NowCopies(conns, users, msg) + LaterCopies(conns, users, msg) == CopiesFor(users, msg)
    ensures forall cp | cp in NowCopies(conns, users, msg) :: cp.user in conns && cp.msg == msg && cp.user in users
  {
    if users != [] {
      NowAndLater(conns, users[..|users| - 1], msg);
    }
  }

  /** With the agreement, no send loses a copy or makes an extra one. */
  lemma {:induction false} NoLossNoExtra(c: Cluster, i: nat, users: seq<UserId>, msg: Json)
    requires Agree(c) && i < |c.conns|
    ensures LostCopies(c.conns[i], c.world, users, msg) == multiset{}
    ensures ExtraCopies(c.conns[i], c.world, users, msg) == multiset{}
  {
    if users != [] {
      NoLossNoExtra(c, i, users[..|users| - 1], msg);
      ThreeWayAgreement(c, users[|users| - 1]);
      assert Times(Copy(users[|users| - 1], msg), 0) == multiset{};
    }
  }

  lemma SubsDoNotMoveCopies(inboxes: seq<Inbox>, i: nat, subs: set<UserId>)
    requires i < |inboxes|
    ensures Queued(inboxes[i := inboxes[i].(subs := subs)]) == Queued(inboxes)
  {
    QueuedUpdate(inboxes, i, inboxes[i].(subs := subs));
    Cancel(Queued(inboxes[i := inboxes[i].(subs := subs)]), Queued(inboxes), multiset(inboxes[i].queue));
  }

  lemma AddressedUser(id: UserId, msgs: seq<Json>)
    ensures forall cp | cp in multiset(AddressedTo(id, msgs)) :: cp.user == id
  {
  }

  lemma RefusalDeliversNothing(w: World, conn: Conn, id: UserId, reason: Refusal)
    ensures Delivered(Refuse(w, conn, id, reason).wire) == Delivered(w.wire)
  {
  }

  lemma AcceptMovesRows(i: nat, conns: ConnMap, w: World, conn: Conn, u: UserId)
    requires i < |w.inboxes|
    ensures var v := Accept(i, conns, w, conn, u).world;
            var got := multiset(AddressedTo(u, MessagesFor(w.rows, u)));
            Delivered(v.wire) == Delivered(w.wire) + got && Pending(v) + got == Pending(w)
  {
    DeliveredAppend(w.wire, Reply(conn, u, Accepted(QueryUser(w.users, u).name, MessagesFor(w.rows, u))));
    RowsSplit(w.rows, u);
    SubsDoNotMoveCopies(w.inboxes, i, w.inboxes[i].subs + {u});
    AddToBoth(multiset(WithoutRows(w.rows, u)), multiset(AddressedTo(u, MessagesFor(w.rows, u))),
              multiset(w.rows), multiset{}, Queued(w.inboxes));
  }

  lemma Took(rest: Bag, got: Bag, all: Bag)
    requires rest + got == all
    ensures got <= all && rest == all - got
  {
  }

  lemma AcceptGoesOnline(i: nat, conns: ConnMap, w: World, conn: Conn, u: UserId)
    requires i < |w.inboxes| && u in w.users
    ensures OnlineUsers(Accept(i, conns, w, conn, u).world) == OnlineUsers(w) + {u}
  {
  }

  lemma AcceptSimulates(c: Cluster, i: nat, conn: Conn, u: UserId)
    requires WellFormed(c) && i < |c.conns| && u in c.world.users && !IsOnline(c.world, u)
    ensures var v := Accept(i, c.conns[i], c.world, conn, u);
            var a := Connect(u, multiset(AddressedTo(u, MessagesFor(c.world.rows, u))));
            Enabled(AsMail(c), a) && AsMail(Cluster(c.conns[i := v.conns], v.world)) == Perform(AsMail(c), a)
  {
    var v := Accept(i, c.conns[i], c.world, conn, u).world;
    AcceptMovesRows(i, c.conns[i], c.world, conn, u);
    AcceptGoesOnline(i, c.conns[i], c.world, conn, u);
    AddressedUser(u, MessagesFor(c.world.rows, u));
    Took(Pending(v), multiset(AddressedTo(u, MessagesFor(c.world.rows, u))), Pending(c.world));
  }

  lemma AcceptedLogin(c: Cluster, i: nat, conn: Conn, js: Json, insertId: int)
    requires WellFormed(c) && i < |c.conns| && js.kind == Some(LOGIN_MSG) && LoginAccepted(c.world, js)
    ensures var e, u := Message(i, conn, js, insertId), js.id.value;
            var v := Accept(i, c.conns[i], c.world, conn, u);
            Apply(c, e) == Cluster(c.conns[i := v.conns], v.world) &&
            ActionOf(c, e) == Connect(u, multiset(AddressedTo(u, MessagesFor(c.world.rows, u))))
  {
  }

  lemma RefusedLogin(c: Cluster, i: nat, conn: Conn, js: Json, insertId: int)
    requires WellFormed(c) && i < |c.conns| && js.kind == Some(LOGIN_MSG) && !LoginAccepted(c.world, js)
    ensures var e := Message(i, conn, js, insertId);
            ActionOf(c, e) == Idle && AsMail(Apply(c, e)) == AsMail(c)
  {
  }

  lemma LoginSimulates(c: Cluster, i: nat, conn: Conn, js: Json, insertId: int)
    requires WellFormed(c) && i < |c.conns| && js.kind == Some(LOGIN_MSG)
    ensures var e := Message(i, conn, js, insertId);
            Enabled(AsMail(c), ActionOf(c, e)) && AsMail(Apply(c, e)) == Perform(AsMail(c), ActionOf(c, e))
  {
    if LoginAccepted(c.world, js) {
      AcceptedLogin(c, i, conn, js, insertId);
      AcceptSimulates(c, i, conn, js.id.value);
    } else {
      RefusedLogin(c, i, conn, js, insertId);
    }
  }

  lemma MappedIsOnline(c: Cluster, i: nat, u: UserId)
    requires Agree(c) && Maps(c, i, u)
    ensures u in OnlineUsers(c.world)
  {
    assert MappedSomewhere(c, u);
  }

  lemma SendConserves(c: Cluster, i: nat, users: seq<UserId>, msg: Json)
    requires Agree(c) && i < |c.conns|
    ensures Total(RouteAll(c.conns[i], c.world, users, msg)) == Total(c.world) + CopiesFor(users, msg)
  {
    NoLossNoExtra(c, i, users, msg);
    SendLedger(c.conns[i], c.world, users, msg);
    Cancel(Total(RouteAll(c.conns[i], c.world, users, msg)), Total(c.world) + CopiesFor(users, msg), multiset{});
  }

  lemma SendMovesCopies(c: Cluster, i: nat, users: seq<UserId>, msg: Json)
    requires Agree(c) && i < |c.conns|
    ensures var r := RouteAll(c.conns[i], c.world, users, msg);
            && Delivered(r.wire) == Delivered(c.world.wire) + NowCopies(c.conns[i], users, msg)
            && Pending(r) == Pending(c.world) + LaterCopies(c.conns[i], users, msg)
  {
    var conns, w := c.conns[i], c.world;
    SendConserves(c, i, users, msg);
    SendDelivers(conns, w, users, msg);
    NowAndLater(conns, users, msg);
    var r := RouteAll(conns, w, users, msg);
    SplitTotal(Delivered(w.wire), Pending(w), NowCopies(conns, users, msg), LaterCopies(conns, users, msg), Pending(r));
  }

  lemma SplitTotal(delivered: Bag, pending: Bag, now: Bag, later: Bag, pending': Bag)
    requires (delivered + now) + pending' == (delivered + pending) + (now + later)
    ensures pending' == pending + later
  {
    forall cp ensures pending'[cp] == (pending + later)[cp] {
      assert ((delivered + now) + pending')[cp] == ((delivered + pending) + (now + later))[cp];
    }
  }

  lemma RoutedSimulates(c: Cluster, i: nat, users: seq<UserId>, js: Json)
    requires Agree(c) && i < |c.conns|
    ensures var c' := c.(world := RouteAll(c.conns[i], c.world, users, js));
            var a := Post(NowCopies(c.conns[i], users, js), LaterCopies(c.conns[i], users, js));
            Enabled(AsMail(c), a) && AsMail(c') == Perform(AsMail(c), a)
  {
    var conns := c.conns[i];
    RouteAllKeepsSessions(conns, c.world, users, js);
    SendMovesCopies(c, i, users, js);
    NowAndLater(conns, users, js);
    forall cp | cp in NowCopies(conns, users, js) ensures cp.user in OnlineUsers(c.world) {
      MappedIsOnline(c, i, cp.user);
    }
    assert OnlineUsers(RouteAll(conns, c.world, users, js)) == OnlineUsers(c.world);
  }

  lemma ActionOfChat(c: Cluster, i: nat, conn: Conn, js: Json, insertId: int)
    requires WellFormed(c) && i < |c.conns|
    requires js.kind == Some(PRIVATE_CHAT_MSG) || js.kind == Some(GROUP_CHAT_MSG)
    ensures var e, users := Message(i, conn, js, insertId), Targets(c.world, js);
            && ActionOf(c, e) == Post(NowCopies(c.conns[i], users, js), LaterCopies(c.conns[i], users, js))
            && Posted(ActionOf(c, e)) == SentBy(c, e)
  {
    NowAndLater(c.conns[i], Targets(c.world, js), js);
  }

  lemma ChatSimulates(c: Cluster, i: nat, conn: Conn, js: Json, insertId: int)
    requires Agree(c) && i < |c.conns|
    requires js.kind == Some(PRIVATE_CHAT_MSG) || js.kind == Some(GROUP_CHAT_MSG)
    ensures var e := Message(i, conn, js, insertId);
            var a := ActionOf(c, e);
            Enabled(AsMail(c), a) && AsMail(Apply(c, e)) == Perform(AsMail(c), a) && Posted(a) == SentBy(c, e)
  {
    ChatStep(c, i, conn, js, insertId);
    ActionOfChat(c, i, conn, js, insertId);
    RoutedSimulates(c, i, Targets(c.world, js), js);
  }

  lemma ReceiveMovesCopy(i: nat, conns: ConnMap, w: World)
    requires i < |w.inboxes| && w.inboxes[i].queue != []
    ensures var cp, r := w.inboxes[i].queue[0], ReceiveOne(i, conns, w);
            if cp.user in conns then
              Delivered(r.wire) == Delivered(w.wire) + multiset{cp} && Pending(r) + multiset{cp} == Pending(w)
            else
              Delivered(r.wire) == Delivered(w.wire) && Pending(r) == Pending(w)
  {
    var cp := w.inboxes[i].queue[0];
    QueuedPop(w.inboxes, i);
    if cp.user in conns {
      DeliveredAppend(w.wire, Chat(conns[cp.user], cp.user, cp.msg, Broker));
    }
  }

  lemma ReceiveKeepsTotal(i: nat, conns: ConnMap, w: World)
    requires i < |w.inboxes|
    ensures Total(ReceiveOne(i, conns, w)) == Total(w)
  {
    if w.inboxes[i].queue != [] {
      ReceiveMovesCopy(i, conns, w);
    }
  }

  lemma PushSimulates(c: Cluster, i: nat)
    requires Agree(c) && i < |c.conns| && c.world.inboxes[i].queue != []
    requires c.world.inboxes[i].queue[0].user in c.conns[i]
    ensures var cp, c' := c.world.inboxes[i].queue[0], c.(world := ReceiveOne(i, c.conns[i], c.world));
            Enabled(AsMail(c), Push(cp)) && AsMail(c') == Perform(AsMail(c), Push(cp))
  {
    var cp, r := c.world.inboxes[i].queue[0], ReceiveOne(i, c.conns[i], c.world);
    MappedIsOnline(c, i, cp.user);
    ReceiveMovesCopy(i, c.conns[i], c.world);
    Took(Pending(r), multiset{cp}, Pending(c.world));
  }

  /** A message for a user who has left is stored, and stays pending. */
  lemma StoreSimulates(c: Cluster, i: nat)
    requires WellFormed(c) && i < |c.conns| && c.world.inboxes[i].queue != []
    requires c.world.inboxes[i].queue[0].user !in c.conns[i]
    ensures AsMail(c.(world := ReceiveOne(i, c.conns[i], c.world))) == AsMail(c)
  {
    ReceiveMovesCopy(i, c.conns[i], c.world);
  }

  lemma ReceiveSimulates(c: Cluster, i: nat)
    requires Agree(c) && i < |c.conns|
    ensures var a := ActionOf(c, Receive(i));
            Enabled(AsMail(c), a) && AsMail(Apply(c, Receive(i))) == Perform(AsMail(c), a)
  {
    var queue := c.world.inboxes[i].queue;
    if queue != [] && queue[0].user in c.conns[i] {
      PushSimulates(c, i);
    } else if queue != [] {
      StoreSimulates(c, i);
    }
  }

  lemma LeaveSimulates(c: Cluster, i: nat, u: UserId, c': Cluster)
    requires Agree(c) && Maps(c, i, u)
    requires c'.world == c.world.(users := UpdateState(c.world.users, u, Offline),
                                  inboxes := Unsubscribe(c.world.inboxes, i, u))
    ensures Enabled(AsMail(c), Leave(u)) && AsMail(c') == Perform(AsMail(c), Leave(u))
  {
    MappedIsOnline(c, i, u);
    SubsDoNotMoveCopies(c.world.inboxes, i, c.world.inboxes[i].subs - {u});
    assert OnlineUsers(c'.world) == OnlineUsers(c.world) - {u};
  }

  lemma DisconnectSimulates(c: Cluster, i: nat, conn: Conn, last: UserId)
    requires Inv(c) && i < |c.conns| && Allowed(c, Disconnect(i, conn, last))
    ensures var e := Disconnect(i, conn, last);
            var a := ActionOf(c, e);
            Enabled(AsMail(c), a) && AsMail(Apply(c, e)) == Perform(AsMail(c), a)
  {
    var bound := BoundUsers(c.conns[i], conn);
    if bound == {} {
      assert Apply(c, Disconnect(i, conn, last)) == c;
    } else {
      assert Maps(c, i, last);
      OnlyUserOf(c, i, last);
      MappedIsOnline(c, i, last);
      LeaveSimulates(c, i, last, Apply(c, Disconnect(i, conn, last)));
    }
  }

  lemma MessageSimulates(c: Cluster, i: nat, conn: Conn, js: Json, insertId: int)
    requires Agree(c) && i < |c.conns| && Allowed(c, Message(i, conn, js, insertId))
    ensures var e := Message(i, conn, js, insertId);
            var a := ActionOf(c, e);
            Enabled(AsMail(c), a) && AsMail(Apply(c, e)) == Perform(AsMail(c), a) && Posted(a) == SentBy(c, e)
  {
    var e := Message(i, conn, js, insertId);
    if js.kind == Some(PRIVATE_CHAT_MSG) || js.kind == Some(GROUP_CHAT_MSG) {
      ChatSimulates(c, i, conn, js, insertId);
    } else if js.kind == Some(LOGIN_MSG) {
      LoginSimulates(c, i, conn, js, insertId);
    } else if js.kind == Some(LOG_OUT_MSG) && js.id.Some? && js.id.value in c.conns[i] {
      LeaveSimulates(c, i, js.id.value, Apply(c, e));
    } else {
      assert OnlineUsers(Apply(c, e).world) == OnlineUsers(c.world);
    }
  }

  /** Forward simulation: every step of the cluster is one enabled step of the
      mailbox, and sends exactly what that step posts. */
  lemma StepSimulates(c: Cluster, e: Event)
    requires Inv(c) && Allowed(c, e) && !e.Shutdown?
    ensures Enabled(AsMail(c), ActionOf(c, e))
    ensures AsMail(Apply(c, e)) == Perform(AsMail(c), ActionOf(c, e))
    ensures Posted(ActionOf(c, e)) == SentBy(c, e)
  {
    if e.srv < |c.conns| {
      match e
      case Disconnect(i, conn, last) => DisconnectSimulates(c, i, conn, last);
      case Receive(i) => ReceiveSimulates(c, i);
      case Message(i, conn, js, insertId) => MessageSimulates(c, i, conn, js, insertId);
    }
  }

  // ----- Whole runs -----------------------------------------------------------------

  ghost function ActionsOf(c: Cluster, events: seq<Event>): seq<Action>
    requires WellFormed(c)
  {
    if events == [] then []
    else
      var before := events[..|events| - 1];
      ActionsOf(c, before) + [ActionOf(Run(c, before), events[|events| - 1])]
  }

  function PerformAll(m: Mail, actions: seq<Action>): Mail {
    if actions == [] then m else Perform(PerformAll(m, actions[..|actions| - 1]), actions[|actions| - 1])
  }

  ghost predicate EnabledAll(m: Mail, actions: seq<Action>) {
    actions == [] ||
    var before := actions[..|actions| - 1];
    EnabledAll(m, before) && Enabled(PerformAll(m, before), actions[|actions| - 1])
  }

  function SentOver(c: Cluster, events: seq<Event>): Bag
    requires WellFormed(c)
  {
    if events == [] then multiset{}
    else
      var before := events[..|events| - 1];
      SentOver(c, before) + SentBy(Run(c, before), events[|events| - 1])
  }

  /** Refinement: every run of the cluster is a run of the mailbox. */
  lemma {:induction false} RunSimulates(c: Cluster, events: seq<Event>)
    requires Inv(c) && AllowedRun(c, events, false)
    ensures EnabledAll(AsMail(c), ActionsOf(c, events))
    ensures AsMail(Run(c, events)) == PerformAll(AsMail(c), ActionsOf(c, events))
  {
    if events != [] {
      var before := events[..|events| - 1];
      RunSimulates(c, before);
      RunKeepsInv(c, before);
      StepSimulates(Run(c, before), events[|events| - 1]);
      var actions := ActionsOf(c, events);
      assert actions[..|actions| - 1] == ActionsOf(c, before);
    }
  }

  /** Exactly once: whatever was sent is delivered, stored or queued, each copy
      in one place, after any run. (Copies name their user, so the equation holds
      for each user separately.) */
  lemma {:induction false} ExactlyOnce(c: Cluster, events: seq<Event>)
    requires Inv(c) && AllowedRun(c, events, false)
    ensures Total(Run(c, events).world) == Total(c.world) + SentOver(c, events)
  {
    if events != [] {
      var before, e := events[..|events| - 1], events[|events| - 1];
      var b := Run(c, before);
      ExactlyOnce(c, before);
      RunKeepsInv(c, before);
      StepSimulates(b, e);
      MailConserves(AsMail(b), ActionOf(b, e));
      assert Total(Apply(b, e).world) == Total(b.world) + SentBy(b, e);
    }
  }
}
