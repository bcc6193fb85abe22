/** The same cluster with login, logout and close cut at every access to shared
    state, so that the handlers of different connections interleave. One
    connection's requests are served by one thread, so a connection has at most
    one handler running. The mutex of a process is held across a logout and
    across the scan of a close; inserting a login, sending and receiving wait
    for it. */
module SmallStep {
  import opened ChatTypes
  import opened UserTable
  import opened OfflineTable
  import opened RedisBroker
  import opened ChatServer
  import opened ClusterModel
  import opened Sessions

  /** How far a login has come. */
  datatype LoginStage =
    | Checked
    | Fetched(offline: seq<Json>)
    | Removed
    | Marked
    | Inserted

  datatype CloseStage = Erased | Scanning | Released

  /** A handler between two of its steps. */
  datatype Op =
    | LoggingIn(srv: nat, user: UserId, stage: LoginStage)
    | LoggingOut(srv: nat, user: UserId, marked: bool)
    | Closing(srv: nat, user: UserId, scan: CloseStage)

  datatype Fine = Fine(c: Cluster, lock: seq<Option<Conn>>, ops: map<Conn, Op>)

  /** `Proceed` takes the next step of the handler running for a connection;
      `pick` is the entry a close scan visits next, if there is another. */
  datatype Step =
    | LoginCheck(srv: nat, conn: Conn, js: Json)
    | LogOutStart(srv: nat, conn: Conn, user: UserId)
    | CloseStart(srv: nat, conn: Conn, pick: UserId)
    | Proceed(conn: Conn, pick: UserId)
    | Request(srv: nat, conn: Conn, js: Json, insertId: int)
    | Read(srv: nat)

  predicate WellShaped(z: Fine) {
    && WellFormed(z.c) && |z.lock| == |z.c.conns|
    && forall conn | conn in z.ops :: z.ops[conn].srv < |z.c.conns|
  }

  predicate Free(z: Fine, i: nat) {
    i < |z.lock| && z.lock[i].None?
  }

  predicate IsChat(js: Json) {
    js.kind == Some(PRIVATE_CHAT_MSG) || js.kind == Some(GROUP_CHAT_MSG)
  }

  function SetWorld(z: Fine, w: World): Fine {
    z.(c := z.c.(world := w))
  }

  function EraseEntry(z: Fine, i: nat, u: UserId): Fine
    requires i < |z.c.conns|
  {
    z.(c := z.c.(conns := z.c.conns[i := z.c.conns[i] - {u}]))
  }

  /** From line 73 on. Writing the reply and deleting the rows are one step: no
      other handler reads what the reply writes. */
  function LoginStep(z: Fine, conn: Conn): (r: Fine)
    requires WellShaped(z) && conn in z.ops && z.ops[conn].LoggingIn?
    ensures WellShaped(r)
  {
    var op, w := z.ops[conn], z.c.world;
    var i, u := op.srv, op.user;
    match op.stage
    case Checked => z.(ops := z.ops[conn := op.(stage := Fetched(MessagesFor(w.rows, u)))])
    case Fetched(offline) =>
      var reply := Reply(conn, u, Accepted(QueryUser(w.users, u).name, offline));
      SetWorld(z, w.(wire := w.wire + [reply], rows := WithoutRows(w.rows, u)))
      .(ops := z.ops[conn := op.(stage := Removed)])
    case Removed =>
      SetWorld(z, w.(users := UpdateState(w.users, u, Online))).(ops := z.ops[conn := op.(stage := Marked)])
    case Marked =>
      if !Free(z, i) then z
      else
        var conns := z.c.conns[i];
        z.(c := z.c.(conns := z.c.conns[i := if u in conns then conns else conns[u := conn]]),
           ops := z.ops[conn := op.(stage := Inserted)])
    case Inserted =>
      SetWorld(z, w.(inboxes := Subscribe(w.inboxes, i, u))).(ops := z.ops - {conn})
  }

  /** Offline first, then unsubscribed; the lock goes with the last step. */
  function LogOutStep(z: Fine, conn: Conn): (r: Fine)
    requires WellShaped(z) && conn in z.ops && z.ops[conn].LoggingOut?
    ensures WellShaped(r)
  {
    var op, w := z.ops[conn], z.c.world;
    if !op.marked then
      SetWorld(z, w.(users := UpdateState(w.users, op.user, Offline))).(ops := z.ops[conn := op.(marked := true)])
    else
      SetWorld(z, w.(inboxes := Unsubscribe(w.inboxes, op.srv, op.user)))
      .(lock := z.lock[op.srv := None], ops := z.ops - {conn})
  }

  /** Unsubscribed first, then, after the scan and without the lock, offline. */
  function CloseStep(z: Fine, conn: Conn, pick: UserId): (r: Fine)
    requires WellShaped(z) && conn in z.ops && z.ops[conn].Closing?
    ensures WellShaped(r)
  {
    var op, w := z.ops[conn], z.c.world;
    var i := op.srv;
    match op.scan
    case Erased =>
      SetWorld(z, w.(inboxes := Unsubscribe(w.inboxes, i, op.user)))
      .(ops := z.ops[conn := op.(scan := Scanning)])
    case Scanning =>
      var bound := BoundUsers(z.c.conns[i], conn);
      if bound == {} then z.(lock := z.lock[i := None], ops := z.ops[conn := op.(scan := Released)])
      else if pick in bound then EraseEntry(z, i, pick).(ops := z.ops[conn := Closing(i, pick, Erased)])
      else z
    case Released =>
      SetWorld(z, if op.user != -1 then w.(users := UpdateState(w.users, op.user, Offline)) else w)
      .(ops := z.ops - {conn})
  }

  function Advance(z: Fine, conn: Conn, pick: UserId): (r: Fine)
    requires WellShaped(z) && conn in z.ops
    ensures WellShaped(r)
  {
    match z.ops[conn]
    case LoggingIn(_, _, _) => LoginStep(z, conn)
    case LoggingOut(_, _, _) => LogOutStep(z, conn)
    case Closing(_, _, _) => CloseStep(z, conn, pick)
  }

  /** A step that has to wait, or has nothing to do, changes nothing. */
  function Take(z: Fine, s: Step): (r: Fine)
    requires WellShaped(z)
    ensures WellShaped(r)
  {
    match s
    case Proceed(conn, pick) => if conn in z.ops then Advance(z, conn, pick) else z
    case LoginCheck(i, conn, js) =>
      if i >= |z.c.conns| || conn in z.ops || js.id.None? || js.password.None? then z
      else (
        match LoginRefusal(z.c.world.users, js.id.value, js.password.value)
        case Some(reason) => SetWorld(z, Refuse(z.c.world, conn, js.id.value, reason))
        case None => z.(ops := z.ops[conn := LoggingIn(i, js.id.value, Checked)])
      )
    case LogOutStart(i, conn, u) =>
      if conn in z.ops || !Free(z, i) || u !in z.c.conns[i] then z
      else EraseEntry(z, i, u).(lock := z.lock[i := Some(conn)], ops := z.ops[conn := LoggingOut(i, u, false)])
    case CloseStart(i, conn, u) =>
      if conn in z.ops || !Free(z, i) || u !in BoundUsers(z.c.conns[i], conn) then z
      else EraseEntry(z, i, u).(lock := z.lock[i := Some(conn)], ops := z.ops[conn := Closing(i, u, Erased)])
    case Request(i, conn, js, insertId) =>
      if i >= |z.c.conns| || js.kind == Some(LOGIN_MSG) || js.kind == Some(LOG_OUT_MSG)
         || (IsChat(js) && !Free(z, i)) then z
      else SetWorld(z, Handle(i, z.c.conns[i], z.c.world, conn, js, insertId).world)
    case Read(i) =>
      if !Free(z, i) then z else SetWorld(z, ReceiveOne(i, z.c.conns[i], z.c.world))
  }

  /** No login passes its check while another one of the same id is between its check
      and its insert, and the database picks a fresh key. A login that is refused
      overlaps with nothing. */
  ghost predicate NoOverlap(z: Fine, s: Step) {
    match s
    case LoginCheck(_, _, js) =>
      LoginAccepted(z.c.world, js) ==>
        forall other | other in z.ops && z.ops[other].LoggingIn? && z.ops[other].stage != Inserted ::
          js.id != Some(z.ops[other].user)
    case Request(_, _, js, insertId) => js.kind == Some(REG_MSG) ==> insertId !in z.c.world.users
    case _ => true
  }

  /** A login that passes its check comes over a connection that carries nobody; keys
      are fresh and positive. */
  ghost predicate OverFreeConnection(z: Fine, s: Step) {
    match s
    case LoginCheck(i, conn, js) =>
      i < |z.c.conns| && LoginAccepted(z.c.world, js) ==> BoundUsers(z.c.conns[i], conn) == {}
    case Request(_, _, js, insertId) =>
      insertId > 0 && (js.kind == Some(REG_MSG) ==> insertId !in z.c.world.users)
    case _ => true
  }

  /** No logout takes out a user between the insert and the subscription of its login.
      Any other logout, whoever asks for it, is welcome. */
  ghost predicate SparesInserted(z: Fine, s: Step) {
    s.LogOutStart? && s.conn !in z.ops && Maps(z.c, s.srv, s.user) ==>
      var owner := z.c.conns[s.srv][s.user];
      !(owner in z.ops && z.ops[owner] == LoggingIn(s.srv, s.user, Inserted))
  }

  /** What an exact account of the subscriptions rests on. */
  ghost predicate Permitted(z: Fine, s: Step) {
    NoOverlap(z, s) && OverFreeConnection(z, s) && SparesInserted(z, s)
  }

  function Execute(z: Fine, steps: seq<Step>): (r: Fine)
    requires WellShaped(z)
    ensures WellShaped(r)
  {
    if steps == [] then z else Take(Execute(z, steps[..|steps| - 1]), steps[|steps| - 1])
  }

  ghost predicate NoOverlapRun(z: Fine, steps: seq<Step>)
    requires WellShaped(z)
  {
    steps != [] ==>
      var before := steps[..|steps| - 1];
      NoOverlapRun(z, before) && NoOverlap(Execute(z, before), steps[|steps| - 1])
  }

  ghost predicate PermittedRun(z: Fine, steps: seq<Step>)
    requires WellShaped(z)
  {
    steps != [] ==>
      var before := steps[..|steps| - 1];
      PermittedRun(z, before) && Permitted(Execute(z, before), steps[|steps| - 1])
  }

  // ----- Handlers that run undisturbed ---------------------------------------------------

  /** The next `n` steps of the handler running for a connection. */
  function Proceeds(z: Fine, conn: Conn, pick: UserId, n: nat): (r: Fine)
    requires WellShaped(z)
    ensures WellShaped(r)
  {
    if n == 0 then z else Take(Proceeds(z, conn, pick, n - 1), Proceed(conn, pick))
  }

  lemma ProceedsOneMore(z: Fine, conn: Conn, pick: UserId, n: nat)
    requires WellShaped(z)
    ensures Proceeds(z, conn, pick, n + 1) == Take(Proceeds(z, conn, pick, n), Proceed(conn, pick))
  {
  }

  /** The state in which a login of `u` has written its reply, deleted the rows and
      marked the user online, and nothing else has moved. */
  function MarkedBy(z: Fine, i: nat, conn: Conn, u: UserId): Fine {
    var w := z.c.world;
    SetWorld(z, w.(wire := w.wire + [Reply(conn, u, Accepted(QueryUser(w.users, u).name, MessagesFor(w.rows, u)))],
                   rows := WithoutRows(w.rows, u),
                   users := UpdateState(w.users, u, Online)))
    .(ops := z.ops[conn := LoggingIn(i, u, Marked)])
  }

  lemma LoginRunsToMark(z: Fine, i: nat, conn: Conn, js: Json, pick: UserId)
    requires WellShaped(z) && i < |z.c.conns| && conn !in z.ops && LoginAccepted(z.c.world, js)
    ensures Proceeds(Take(z, LoginCheck(i, conn, js)), conn, pick, 3) == MarkedBy(z, i, conn, js.id.value)
  {
    var u := js.id.value;
    var z1 := z.(ops := z.ops[conn := LoggingIn(i, u, Checked)]);
    var z2 := z1.(ops := z.ops[conn := LoggingIn(i, u, Fetched(MessagesFor(z.c.world.rows, u)))]);
    assert Take(z, LoginCheck(i, conn, js)) == Proceeds(z1, conn, pick, 0) == z1;
    assert Proceeds(z1, conn, pick, 1) == LoginStep(z1, conn) == z2;
    var z3 := LoginStep(z2, conn);
    assert Proceeds(z1, conn, pick, 2) == z3;
    assert LoginStep(z3, conn).ops == z.ops[conn := LoggingIn(i, u, Marked)];
  }

  function WithEntry(z: Fine, i: nat, u: UserId, conn: Conn): Fine
    requires i < |z.c.conns|
  {
    var conns: ConnMap := z.c.conns[i];
    z.(c := z.c.(conns := z.c.conns[i := if u in conns then conns else conns[u := conn]]))
  }

  function WithSubscription(z: Fine, i: nat, u: UserId): Fine
    requires i < |z.c.world.inboxes|
  {
    SetWorld(z, z.c.world.(inboxes := Subscribe(z.c.world.inboxes, i, u)))
  }

  /** The next step, on a process whose lock is free. */
  function InsertedBy(z: Fine, i: nat, conn: Conn, u: UserId): Fine
    requires i < |z.c.conns|
  {
    WithEntry(MarkedBy(z, i, conn, u), i, u, conn).(ops := z.ops[conn := LoggingIn(i, u, Inserted)])
  }

  lemma LoginRunsToEntry(z: Fine, i: nat, conn: Conn, js: Json, pick: UserId)
    requires WellShaped(z) && Free(z, i) && conn !in z.ops && LoginAccepted(z.c.world, js)
    ensures Proceeds(Take(z, LoginCheck(i, conn, js)), conn, pick, 4) == InsertedBy(z, i, conn, js.id.value)
  {
    var u := js.id.value;
    LoginRunsToMark(z, i, conn, js, pick);
    assert LoginStep(MarkedBy(z, i, conn, u), conn) == InsertedBy(z, i, conn, u);
  }

  /** A whole login. */
  function LoggedInBy(z: Fine, i: nat, conn: Conn, u: UserId): Fine
    requires i < |z.c.conns| && i < |z.c.world.inboxes|
  {
    WithSubscription(WithEntry(MarkedBy(z, i, conn, u), i, u, conn), i, u).(ops := z.ops)
  }

  lemma SubscribeEnds(z: Fine, i: nat, conn: Conn, u: UserId)
    requires WellShaped(z) && i < |z.c.conns| && conn !in z.ops && WellShaped(InsertedBy(z, i, conn, u))
    ensures LoginStep(InsertedBy(z, i, conn, u), conn) == LoggedInBy(z, i, conn, u)
  {
    assert LoginStep(InsertedBy(z, i, conn, u), conn).ops == z.ops;
  }

  lemma LoginRunsToEnd(z: Fine, i: nat, conn: Conn, js: Json, pick: UserId)
    requires WellShaped(z) && Free(z, i) && conn !in z.ops && LoginAccepted(z.c.world, js)
    ensures Proceeds(Take(z, LoginCheck(i, conn, js)), conn, pick, 5) == LoggedInBy(z, i, conn, js.id.value)
  {
    var z1 := Take(z, LoginCheck(i, conn, js));
    LoginRunsToEntry(z, i, conn, js, pick);
    SubscribeEnds(z, i, conn, js.id.value);
    assert Proceeds(z1, conn, pick, 5) == Take(Proceeds(z1, conn, pick, 4), Proceed(conn, pick));
  }

  /** A logout erases its user and marks it offline, and has not unsubscribed it. */
  function LeavingBy(z: Fine, i: nat, conn: Conn, u: UserId): Fine
    requires i < |z.c.conns| == |z.lock|
  {
    SetWorld(EraseEntry(z, i, u), z.c.world.(users := UpdateState(z.c.world.users, u, Offline)))
    .(lock := z.lock[i := Some(conn)], ops := z.ops[conn := LoggingOut(i, u, true)])
  }

  lemma LogOutRunsToMark(z: Fine, i: nat, conn: Conn, u: UserId, pick: UserId)
    requires WellShaped(z) && Free(z, i) && Maps(z.c, i, u) && conn !in z.ops
    ensures Proceeds(Take(z, LogOutStart(i, conn, u)), conn, pick, 1) == LeavingBy(z, i, conn, u)
  {
    var z1 := EraseEntry(z, i, u).(lock := z.lock[i := Some(conn)], ops := z.ops[conn := LoggingOut(i, u, false)]);
    assert Take(z, LogOutStart(i, conn, u)) == Proceeds(z1, conn, pick, 0) == z1;
    assert LogOutStep(z1, conn).ops == z.ops[conn := LoggingOut(i, u, true)];
  }

  // ----- The two layers agree -------------------------------------------------------

  /** Nothing is running. */
  predicate Quiet(z: Fine) {
    WellShaped(z) && z.ops == map[] && forall i | 0 <= i < |z.lock| :: z.lock[i].None?
  }

  /** Any other request that does not have to wait is one step, as is a receive. */
  lemma RequestCollapses(z: Fine, i: nat, conn: Conn, js: Json, insertId: int)
    requires WellShaped(z) && i < |z.c.conns| && js.kind != Some(LOGIN_MSG) && js.kind != Some(LOG_OUT_MSG)
    requires IsChat(js) ==> Free(z, i)
    ensures Take(z, Request(i, conn, js, insertId)) == z.(c := Apply(z.c, Message(i, conn, js, insertId)))
    ensures Apply(z.c, Message(i, conn, js, insertId)).conns == z.c.conns
  {
    assert Handle(i, z.c.conns[i], z.c.world, conn, js, insertId).conns == z.c.conns[i];
    assert z.c.conns[i := z.c.conns[i]] == z.c.conns;
  }

  lemma ReadCollapses(z: Fine, i: nat)
    requires WellShaped(z) && Free(z, i)
    ensures Take(z, Read(i)) == z.(c := Apply(z.c, Receive(i)))
  {
  }

  lemma {:induction false} NothingProceeds(z: Fine, conn: Conn, pick: UserId, n: nat)
    requires WellShaped(z) && conn !in z.ops
    ensures Proceeds(z, conn, pick, n) == z
  {
    if n > 0 {
      NothingProceeds(z, conn, pick, n - 1);
    }
  }

  /** A handler that runs undisturbed does what the atomic handler does. */
  lemma LoginCollapses(z: Fine, i: nat, conn: Conn, js: Json, insertId: int, pick: UserId)
    requires Quiet(z) && i < |z.c.conns| && js.kind == Some(LOGIN_MSG)
    ensures Proceeds(Take(z, LoginCheck(i, conn, js)), conn, pick, 5)
         == z.(c := Apply(z.c, Message(i, conn, js, insertId)))
  {
    if LoginAccepted(z.c.world, js) {
      LoginRunsToEnd(z, i, conn, js, pick);
    } else {
      NothingProceeds(Take(z, LoginCheck(i, conn, js)), conn, pick, 5);
    }
  }

  lemma LogOutEnds(z: Fine, i: nat, conn: Conn, u: UserId, js: Json, insertId: int)
    requires Quiet(z) && Maps(z.c, i, u) && js.kind == Some(LOG_OUT_MSG) && js.id == Some(u)
    ensures LogOutStep(LeavingBy(z, i, conn, u), conn) == z.(c := Apply(z.c, Message(i, conn, js, insertId)))
  {
    var r := LogOutStep(LeavingBy(z, i, conn, u), conn);
    assert r.ops == z.ops && r.lock == z.lock;
  }

  lemma LogOutCollapses(z: Fine, i: nat, conn: Conn, u: UserId, js: Json, insertId: int, pick: UserId)
    requires Quiet(z) && i < |z.c.conns| && js.kind == Some(LOG_OUT_MSG) && js.id == Some(u)
    ensures Proceeds(Take(z, LogOutStart(i, conn, u)), conn, pick, 2)
         == z.(c := Apply(z.c, Message(i, conn, js, insertId)))
  {
    var z1 := Take(z, LogOutStart(i, conn, u));
    if u in z.c.conns[i] {
      LogOutRunsToMark(z, i, conn, u, pick);
      LogOutEnds(z, i, conn, u, js, insertId);
      var z2 := LeavingBy(z, i, conn, u);
      ProceedsOneMore(z1, conn, pick, 1);
      assert Proceeds(z1, conn, pick, 2) == Take(z2, Proceed(conn, pick)) == LogOutStep(z2, conn);
    } else {
      assert z1 == z && Apply(z.c, Message(i, conn, js, insertId)) == z.c;
      NothingProceeds(z, conn, pick, 2);
    }
  }

  // A close that finds several entries.

  /** The callback takes the entries of its connection out in the order `order`. */
  function CloseRun(z: Fine, i: nat, conn: Conn, order: seq<UserId>): (r: Fine)
    requires WellShaped(z) && order != []
    ensures WellShaped(r)
  {
    var n := |order| - 1;
    if n == 0 then Proceeds(Take(z, CloseStart(i, conn, order[0])), conn, order[0], 1)
    else Proceeds(CloseRun(z, i, conn, order[..n]), conn, order[n], 2)
  }

  function Elements(order: seq<UserId>): set<UserId> {
    set u | u in order
  }

  predicate Distinct(order: seq<UserId>) {
    forall j, k | 0 <= j < k < |order| :: order[j] != order[k]
  }

  /** The lock is held, `gone` are erased and unsubscribed, and the scan goes on. */
  function Scanned(z: Fine, i: nat, conn: Conn, gone: set<UserId>, last: UserId): Fine
    requires i < |z.c.conns| == |z.lock| && i < |z.c.world.inboxes|
  {
    var conns: ConnMap := z.c.conns[i];
    Fine(Cluster(z.c.conns[i := conns - gone],
                 z.c.world.(inboxes := UnsubscribeAll(z.c.world.inboxes, i, gone))),
         z.lock[i := Some(conn)], z.ops[conn := Closing(i, last, Scanning)])
  }

  lemma ScanStarts(z: Fine, i: nat, conn: Conn, u: UserId)
    requires WellShaped(z) && Free(z, i) && conn !in z.ops && u in BoundUsers(z.c.conns[i], conn)
    ensures CloseRun(z, i, conn, [u]) == Scanned(z, i, conn, {u}, u)
  {
    var z1 := Take(z, CloseStart(i, conn, u));
    assert CloseRun(z, i, conn, [u]) == Proceeds(z1, conn, u, 1) == Take(Proceeds(z1, conn, u, 0), Proceed(conn, u));
    assert z1.ops[conn := Closing(i, u, Scanning)] == z.ops[conn := Closing(i, u, Scanning)];
  }

  lemma ScanGoesOn(z: Fine, i: nat, conn: Conn, gone: set<UserId>, last: UserId, u: UserId)
    requires WellShaped(z) && i < |z.c.conns| && u in BoundUsers(z.c.conns[i], conn) && u !in gone
    ensures Proceeds(Scanned(z, i, conn, gone, last), conn, u, 2) == Scanned(z, i, conn, gone + {u}, u)
  {
    var s0 := Scanned(z, i, conn, gone, last);
    assert u in BoundUsers(s0.c.conns[i], conn);
    var s1 := EraseEntry(s0, i, u).(ops := z.ops[conn := Closing(i, u, Erased)]);
    assert CloseStep(s0, conn, u).ops == s1.ops;
    assert CloseStep(s0, conn, u) == s1;
    var s2 := CloseStep(s1, conn, u);
    UnsubscribeOneMore(z.c.world.inboxes, i, gone, u);
    var conns: ConnMap := z.c.conns[i];
    assert (conns - gone) - {u} == conns - (gone + {u});
    assert s2.ops == z.ops[conn := Closing(i, u, Scanning)];
    assert Proceeds(s0, conn, u, 2) == Take(Take(Proceeds(s0, conn, u, 0), Proceed(conn, u)), Proceed(conn, u));
  }

  lemma {:induction false} CloseRunScans(z: Fine, i: nat, conn: Conn, order: seq<UserId>)
    requires WellShaped(z) && Free(z, i) && conn !in z.ops && order != [] && Distinct(order)
    requires Elements(order) <= BoundUsers(z.c.conns[i], conn)
    ensures CloseRun(z, i, conn, order) == Scanned(z, i, conn, Elements(order), order[|order| - 1])
  {
    var n := |order| - 1;
    var u := order[n];
    assert u in Elements(order);
    if n == 0 {
      assert order == [u] && Elements(order) == {u};
      ScanStarts(z, i, conn, u);
    } else {
      var before := order[..n];
      assert Elements(order) == Elements(before) + {u};
      CloseRunScans(z, i, conn, before);
      ScanGoesOn(z, i, conn, Elements(before), before[n - 1], u);
    }
  }

  lemma ScanEnds(z: Fine, i: nat, conn: Conn, last: UserId, pick: UserId)
    requires Quiet(z) && i < |z.c.conns| && last in BoundUsers(z.c.conns[i], conn)
    ensures Proceeds(Scanned(z, i, conn, BoundUsers(z.c.conns[i], conn), last), conn, pick, 2)
         == z.(c := Apply(z.c, Disconnect(i, conn, last)))
  {
    var bound := BoundUsers(z.c.conns[i], conn);
    var s0 := Scanned(z, i, conn, bound, last);
    var left := BoundUsers(s0.c.conns[i], conn);
    assert (forall u :: u !in left) ==> left == {};
    var s1 := CloseStep(s0, conn, pick);
    var s2 := CloseStep(s1, conn, pick);
    assert s2.ops == z.ops && s2.lock == z.lock;
    assert s2.c == Apply(z.c, Disconnect(i, conn, last));
    ProceedsOneMore(s0, conn, pick, 0);
    ProceedsOneMore(s0, conn, pick, 1);
  }

  /** However many users the connection carried, and in whatever order the scan meets
      them, an undisturbed close is the atomic one. */
  lemma CloseCollapses(z: Fine, i: nat, conn: Conn, order: seq<UserId>, pick: UserId)
    requires Quiet(z) && i < |z.c.conns| && order != [] && Distinct(order)
    requires Elements(order) == BoundUsers(z.c.conns[i], conn)
    ensures Proceeds(CloseRun(z, i, conn, order), conn, pick, 2)
         == z.(c := Apply(z.c, Disconnect(i, conn, order[|order| - 1])))
  {
    CloseRunScans(z, i, conn, order);
    ScanEnds(z, i, conn, order[|order| - 1], pick);
  }
}
