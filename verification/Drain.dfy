/** Nothing waits forever: from any reachable state a finite schedule hands a
    registered user every message ever sent to it. */
module Drain {
  import opened ChatTypes
  import opened UserTable
  import opened RedisBroker
  import opened ChatServer
  import opened CommandLine
  import opened ClusterModel
  import opened Sessions
  import opened Accounting
  import opened Mailbox

  /** The measure the schedule decreases: messages unread at all processes. */
  function Unread(inboxes: seq<Inbox>): nat {
    if inboxes == [] then 0
    else Unread(inboxes[..|inboxes| - 1]) + |inboxes[|inboxes| - 1].queue|
  }

  ghost predicate AllRead(inboxes: seq<Inbox>) {
    forall i | 0 <= i < |inboxes| :: inboxes[i].queue == []
  }

  lemma {:induction false} UnreadUpdate(inboxes: seq<Inbox>, i: nat, inbox: Inbox)
    requires i < |inboxes|
    ensures Unread(inboxes[i := inbox]) + |inboxes[i].queue| == Unread(inboxes) + |inbox.queue|
  {
    var n := |inboxes| - 1;
    if i == n {
      assert inboxes[i := inbox][..n] == inboxes[..n];
    } else {
      assert inboxes[i := inbox][..n] == inboxes[..n][i := inbox];
      UnreadUpdate(inboxes[..n], i, inbox);
    }
  }

  lemma {:induction false} NothingQueued(inboxes: seq<Inbox>)
    requires AllRead(inboxes)
    ensures Queued(inboxes) == multiset{}
  {
    if inboxes != [] {
      NothingQueued(inboxes[..|inboxes| - 1]);
    }
  }

  lemma RunOneMore(c: Cluster, events: seq<Event>, e: Event, exits: bool)
    requires WellFormed(c) && AllowedRun(c, events, exits) && Allowed(Run(c, events), e) && !e.Shutdown?
    ensures AllowedRun(c, events + [e], exits) && Run(c, events + [e]) == Apply(Run(c, events), e)
    ensures SentOver(c, events + [e]) == SentOver(c, events) + SentBy(Run(c, events), e)
  {
  }

  lemma ReadOne(c: Cluster, i: nat)
    requires WellFormed(c) && i < |c.conns| && c.world.inboxes[i].queue != []
    ensures var r := Apply(c, Receive(i));
            && Unread(r.world.inboxes) < Unread(c.world.inboxes)
            && r.conns == c.conns && r.world.users == c.world.users
  {
    var inbox := c.world.inboxes[i];
    UnreadUpdate(c.world.inboxes, i, inbox.(queue := inbox.queue[1..]));
  }

  /** `all` is `events` and then receives. */
  predicate ReadsOn(events: seq<Event>, all: seq<Event>) {
    events <= all && forall k | |events| <= k < |all| :: all[k].Receive?
  }

  lemma ReadsOnOneMore(events: seq<Event>, i: nat, all: seq<Event>)
    requires ReadsOn(events + [Receive(i)], all)
    ensures ReadsOn(events, all)
  {
    var one := events + [Receive(i)];
    assert all[..|one|] == one && all[..|events|] == all[..|one|][..|events|] == events;
    assert all[|events|] == all[..|one|][|events|] == Receive(i);
  }

  /** Reading every queue to its end: receives, and nothing else, after the run. */
  lemma {:induction false} ReadAllQueues(c: Cluster, events: seq<Event>) returns (all: seq<Event>)
    requires WellFormed(c) && AllowedRun(c, events, false)
    ensures AllowedRun(c, all, false) && AllRead(Run(c, all).world.inboxes)
    ensures Run(c, all).conns == Run(c, events).conns && Run(c, all).world.users == Run(c, events).world.users
    ensures SentOver(c, all) == SentOver(c, events)
    ensures ReadsOn(events, all)
    decreases Unread(Run(c, events).world.inboxes)
  {
    var b := Run(c, events);
    if i: nat :| i < |b.conns| && b.world.inboxes[i].queue != [] {
      ReadOne(b, i);
      RunOneMore(c, events, Receive(i), false);
      all := ReadAllQueues(c, events + [Receive(i)]);
      ReadsOnOneMore(events, i, all);
    } else {
      all := events;
    }
  }

  /** Maps only shrink. */
  ghost predicate Shrinks(a: Cluster, b: Cluster) {
    |a.conns| == |b.conns| && forall i: nat, v | Maps(b, i, v) :: Maps(a, i, v) && b.conns[i][v] == a.conns[i][v]
  }

  lemma LogOutAt(c: Cluster, i: nat, u: UserId, e: Event)
    requires Agree(c) && Maps(c, i, u) && AllRead(c.world.inboxes)
    requires e.Message? && e.srv == i && e.js == LogOutRequest(u)
    ensures var r := Apply(c, e);
            && AllRead(r.world.inboxes) && SentBy(c, e) == multiset{}
            && r.world.users == UpdateState(c.world.users, u, Offline)
            && Shrinks(c, r)
  {
  }

  lemma AlreadyOffline(w: World, u: UserId)
    requires !IsOnline(w, u)
    ensures UpdateState(w.users, u, Offline) == w.users
  {
  }

  /** If the user is logged in anywhere, it logs out there. */
  lemma LogOutIfOnline(c: Cluster, events: seq<Event>, u: UserId, conn: Conn) returns (all: seq<Event>)
    requires Inv(c) && AllowedRun(c, events, false) && AllRead(Run(c, events).world.inboxes)
    ensures AllowedRun(c, all, false) && AllRead(Run(c, all).world.inboxes)
    ensures SentOver(c, all) == SentOver(c, events)
    ensures Run(c, all).world.users == UpdateState(Run(c, events).world.users, u, Offline)
    ensures Shrinks(Run(c, events), Run(c, all))
  {
    var b := Run(c, events);
    RunKeepsInv(c, events);
    if IsOnline(b.world, u) {
      assert MappedSomewhere(b, u);
      var i :| Maps(b, i, u);
      var e := Message(i, conn, LogOutRequest(u), 1);
      LogOutAt(b, i, u, e);
      RunOneMore(c, events, e, false);
      all := events + [e];
    } else {
      AlreadyOffline(b.world, u);
      all := events;
    }
  }

  /** An offline user logs in and so takes every stored row of its own. */
  lemma LoginTakesTheRest(c: Cluster, u: UserId, s: nat, conn: Conn, js: Json)
    requires Inv(c) && AllRead(c.world.inboxes) && s < |c.conns|
    requires js.kind == Some(LOGIN_MSG) && LoginAccepted(c.world, js) && js.id == Some(u)
    ensures var r := Apply(c, Message(s, conn, js, 1)).world;
            IsOnline(r, u) && forall cp | cp in Pending(r) :: cp.user != u
  {
    var r := Accept(s, c.conns[s], c.world, conn, u).world;
    assert AllRead(r.inboxes);
    NothingQueued(r.inboxes);
    NoRowsLeft(c.world.rows, u);
  }

  lemma StillFree(a: Cluster, b: Cluster, s: nat, conn: Conn)
    requires s < |a.conns| && Shrinks(a, b) && BoundUsers(a.conns[s], conn) == {}
    ensures BoundUsers(b.conns[s], conn) == {}
  {
    forall v ensures v in BoundUsers(b.conns[s], conn) <==> v in {} {
      assert v !in BoundUsers(a.conns[s], conn);
      assert v in b.conns[s] ==> Maps(b, s, v);
    }
  }

  lemma LogInLast(c: Cluster, events: seq<Event>, u: UserId, s: nat, conn: Conn) returns (all: seq<Event>)
    requires Inv(c) && AllowedRun(c, events, false) && s < |c.conns|
    requires AllRead(Run(c, events).world.inboxes) && BoundUsers(Run(c, events).conns[s], conn) == {}
    requires u in Run(c, events).world.users && !IsOnline(Run(c, events).world, u)
    ensures AllowedRun(c, all, false) && SentOver(c, all) == SentOver(c, events)
    ensures IsOnline(Run(c, all).world, u)
    ensures forall cp | cp in Pending(Run(c, all).world) :: cp.user != u
  {
    RunKeepsInv(c, events);
    var b := Run(c, events);
    var js := LoginRequest(u, b.world.users[u].password);
    LoginTakesTheRest(b, u, s, conn, js);
    RunOneMore(c, events, Message(s, conn, js, 1), false);
    all := events + [Message(s, conn, js, 1)];
  }

  /** Everything is drained: read all queues, log the user out if it is online,
      and log it in on any process `s` over any connection free there. */
  lemma EveryMessageCanBeDrained(c: Cluster, u: UserId, s: nat, conn: Conn) returns (events: seq<Event>)
    requires Inv(c) && u in c.world.users && s < |c.conns| && BoundUsers(c.conns[s], conn) == {}
    ensures AllowedRun(c, events, false)
    ensures IsOnline(Run(c, events).world, u)
    ensures forall cp | cp in Pending(Run(c, events).world) :: cp.user != u
    ensures forall m :: Delivered(Run(c, events).world.wire)[Copy(u, m)] == Total(c.world)[Copy(u, m)]
  {
    var allRead := ReadAllQueues(c, []);
    var offline := LogOutIfOnline(c, allRead, u, conn);
    StillFree(c, Run(c, offline), s, conn);
    events := LogInLast(c, offline, u, s, conn);
    ExactlyOnce(c, events);
    var r := Run(c, events).world;
    forall m ensures Delivered(r.wire)[Copy(u, m)] == Total(c.world)[Copy(u, m)] {
      assert Copy(u, m) !in Pending(r);
      assert Total(r)[Copy(u, m)] == Total(c.world)[Copy(u, m)] + SentOver(c, events)[Copy(u, m)];
    }
  }

  /** So after any run, a user can be handed exactly what was ever sent to it. */
  lemma SentCanBeDelivered(c: Cluster, run: seq<Event>, u: UserId, s: nat, conn: Conn) returns (schedule: seq<Event>)
    requires Inv(c) && AllowedRun(c, run, false) && Total(c.world) == multiset{}
    requires u in Run(c, run).world.users && s < |c.conns| && BoundUsers(Run(c, run).conns[s], conn) == {}
    ensures AllowedRun(c, run + schedule, false)
    ensures forall m ::
              Delivered(Run(c, run + schedule).world.wire)[Copy(u, m)] == SentOver(c, run)[Copy(u, m)]
  {
    RunKeepsInv(c, run);
    ExactlyOnce(c, run);
    schedule := EveryMessageCanBeDrained(Run(c, run), u, s, conn);
    RunConcat(c, run, schedule);
    AllowedConcat(c, run, schedule, false);
  }
}
