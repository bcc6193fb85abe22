/** The cluster as a state machine: every handler is one step of one process. */
module ClusterModel {
  import opened ChatTypes
  import opened UserTable
  import opened ChatServer

  /** `insertId` is the key the database picks for a new row, and `last` the
      entry the close scan happens to visit last. */
  datatype Event =
    | Message(srv: nat, conn: Conn, js: Json, insertId: int)
    | Disconnect(srv: nat, conn: Conn, last: UserId)
    | Receive(srv: nat)
    | Shutdown(srv: nat)

  predicate WellFormed(c: Cluster) {
    |c.conns| == |c.world.inboxes|
  }

  /** Process `i` ends: every account goes offline, and its map, its
      subscriptions and its unread messages are gone. */
  function Exit(c: Cluster, i: nat): Cluster
    requires WellFormed(c) && i < |c.conns|
  {
    Cluster(c.conns[i := map[]],
            c.world.(users := ResetStates(c.world.users),
                     inboxes := c.world.inboxes[i := Inbox({}, [])]))
  }

  function Apply(c: Cluster, e: Event): (r: Cluster)
    requires WellFormed(c)
    ensures WellFormed(r) && |r.conns| == |c.conns|
  {
    if e.srv >= |c.conns| then c
    else
      var i, conns, w := e.srv, c.conns[e.srv], c.world;
      match e
      case Message(_, conn, js, insertId) =>
        var v := Handle(i, conns, w, conn, js, insertId);
        Cluster(c.conns[i := v.conns], v.world)
      case Disconnect(_, conn, last) =>
        var v := ClientClose(i, conns, w, conn, last);
        Cluster(c.conns[i := v.conns], v.world)
      case Receive(_) => c.(world := ReceiveOne(i, conns, w))
      case Shutdown(_) => Exit(c, i)
  }

  /** What the runs below take for granted: the database picks fresh positive
      keys, the close scan ends on an entry it erased, and no login passes its check
      over a connection that carries a user. The last is proved of the clients, in
      module ClientSystem. */
  ghost predicate Allowed(c: Cluster, e: Event) {
    e.srv < |c.conns| ==>
      match e
      case Message(i, conn, js, insertId) =>
        && insertId > 0
        && (js.kind == Some(REG_MSG) ==> insertId !in c.world.users)
        && (js.kind == Some(CREATE_GROUP_MSG) ==> insertId !in c.world.groups)
        && (js.kind == Some(LOGIN_MSG) && LoginAccepted(c.world, js) ==> BoundUsers(c.conns[i], conn) == {})
      case Disconnect(i, conn, last) =>
        BoundUsers(c.conns[i], conn) != {} ==> last in BoundUsers(c.conns[i], conn)
      case Receive(_) => true
      case Shutdown(_) => true
  }

  function Run(c: Cluster, events: seq<Event>): (r: Cluster)
    requires WellFormed(c)
    ensures WellFormed(r) && |r.conns| == |c.conns|
  {
    if events == [] then c else Apply(Run(c, events[..|events| - 1]), events[|events| - 1])
  }

  /** Every event is allowed where it happens; `exits` says whether processes
      may shut down. */
  ghost predicate AllowedRun(c: Cluster, events: seq<Event>, exits: bool)
    requires WellFormed(c)
  {
    events == [] ||
    var before, e := events[..|events| - 1], events[|events| - 1];
    AllowedRun(c, before, exits) && Allowed(Run(c, before), e) && (e.Shutdown? ==> exits)
  }

  lemma {:induction false} RunConcat(c: Cluster, a: seq<Event>, b: seq<Event>)
    requires WellFormed(c)
    ensures Run(c, a + b) == Run(Run(c, a), b)
  {
    if b == [] {
      assert a + b == a;
    } else {
      assert (a + b)[..|a + b| - 1] == a + b[..|b| - 1];
      RunConcat(c, a, b[..|b| - 1]);
    }
  }

  lemma {:induction false} AllowedConcat(c: Cluster, a: seq<Event>, b: seq<Event>, exits: bool)
    requires WellFormed(c) && AllowedRun(c, a, exits) && AllowedRun(Run(c, a), b, exits)
    ensures AllowedRun(c, a + b, exits)
  {
    if b == [] {
      assert a + b == a;
    } else {
      var b' := b[..|b| - 1];
      assert (a + b)[..|a + b| - 1] == a + b';
      AllowedConcat(c, a, b', exits);
      RunConcat(c, a, b');
    }
  }
}
