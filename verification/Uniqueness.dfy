/** Session uniqueness under every interleaving, with nothing assumed but that
    logins of one id do not overlap. */
module SessionUniqueness {
  import opened ChatTypes
  import opened OfflineTable
  import opened ChatServer
  import opened ClusterModel
  import opened Sessions
  import opened Accounting
  import opened SmallStep

  // ----- The invariant --------------------------------------------------------------

  predicate JustInserted(op: Op) {
    op.LoggingIn? && op.stage == Inserted
  }

  /** The handler alone stands for its user, whom no process maps: from the check of
      a login to its insert, from the erase of a logout to the offline mark, and
      through a whole close. */
  predicate Stands(op: Op) {
    match op
    case LoggingIn(_, _, stage) => stage != Inserted
    case LoggingOut(_, _, marked) => !marked
    case Closing(_, _, _) => true
  }

  /** The user's row while the handler stands for it. */
  predicate MarkedOnline(op: Op) {
    Stands(op) && !MarkedOffline(op)
  }

  predicate MarkedOffline(op: Op) {
    op.LoggingIn? && op.stage != Marked && op.stage != Inserted
  }

  ghost predicate StandInv(z: Fine, op: Op) {
    && (Stands(op) ==> forall i :: !Maps(z.c, i, op.user))
    && (MarkedOnline(op) ==> IsOnline(z.c.world, op.user))
    && (MarkedOffline(op) ==> !IsOnline(z.c.world, op.user) && op.user in z.c.world.users)
    && (op.LoggingIn? && op.stage.Fetched? ==> op.stage.offline <= MessagesFor(z.c.world.rows, op.user))
  }

  ghost predicate StandsInv(z: Fine) {
    forall conn | conn in z.ops :: StandInv(z, z.ops[conn])
  }

  /** No two handlers stand for one user. */
  ghost predicate OneStands(z: Fine) {
    forall a, b | a in z.ops && b in z.ops && z.ops[a].user == z.ops[b].user && Stands(z.ops[a]) && Stands(z.ops[b]) ::
      a == b
  }

  /** No user is in two maps, and every mapped user is marked online. */
  ghost predicate MapsInv(c: Cluster) {
    && (forall i, j, u :: Maps(c, i, u) && Maps(c, j, u) ==> i == j)
    && (forall i, u :: Maps(c, i, u) ==> IsOnline(c.world, u))
  }

  ghost predicate CoreInv(z: Fine) {
    WellShaped(z) && MapsInv(z.c) && StandsInv(z) && OneStands(z)
  }

  lemma QuietIsCore(z: Fine)
    requires Quiet(z) && Agree(z.c)
    ensures CoreInv(z)
  {
  }

  // ----- Steps that only send, store or deliver ---------------------------------------

  lemma {:induction false} RowsAppended(rows: seq<Copy>, more: seq<Copy>, u: UserId)
    ensures MessagesFor(rows, u) <= MessagesFor(rows + more, u)
  {
    if more == [] {
      assert rows + more == rows;
    } else {
      var n := |more| - 1;
      assert (rows + more)[..|rows + more| - 1] == rows + more[..n];
      RowsAppended(rows, more[..n], u);
    }
  }

  lemma {:induction false} OtherRowsKept(rows: seq<Copy>, gone: UserId, u: UserId)
    requires u != gone
    ensures MessagesFor(WithoutRows(rows, gone), u) == MessagesFor(rows, u)
  {
    if rows != [] {
      var n := |rows| - 1;
      OtherRowsKept(rows[..n], gone, u);
      var kept := WithoutRows(rows[..n], gone);
      if rows[n].user != gone {
        assert WithoutRows(rows, gone) == kept + [rows[n]];
        assert (kept + [rows[n]])[..|kept|] == kept;
      } else {
        assert WithoutRows(rows, gone) == kept;
        assert MessagesFor(rows, u) == MessagesFor(rows[..n], u);
      }
    }
  }

  /** `b` has the accounts' states and the subscriptions of `a`, and its rows grow. */
  ghost predicate Harmless(a: World, b: World) {
    && |a.inboxes| == |b.inboxes|
    && (forall u :: IsOnline(a, u) == IsOnline(b, u))
    && (forall u | u in a.users :: u in b.users)
    && (forall i | 0 <= i < |a.inboxes| :: a.inboxes[i].subs == b.inboxes[i].subs)
    && (forall u :: MessagesFor(a.rows, u) <= MessagesFor(b.rows, u))
  }

  lemma HarmlessKeepsCore(z: Fine, w: World)
    requires CoreInv(z) && Harmless(z.c.world, w)
    ensures CoreInv(SetWorld(z, w))
  {
    var z' := SetWorld(z, w);
    assert forall i, u :: Maps(z'.c, i, u) == Maps(z.c, i, u);
    forall conn | conn in z.ops ensures StandInv(z', z.ops[conn]) {
      assert StandInv(z, z.ops[conn]);
    }
  }

  lemma {:induction false} SendGrowsRows(conns: ConnMap, w: World, users: seq<UserId>, msg: Json, u: UserId)
    ensures MessagesFor(w.rows, u) <= MessagesFor(RouteAll(conns, w, users, msg).rows, u)
  {
    if users != [] {
      SendGrowsRows(conns, w, users[..|users| - 1], msg, u);
      RowsAppended(RouteAll(conns, w, users[..|users| - 1], msg).rows, [Copy(users[|users| - 1], msg)], u);
    }
  }

  lemma SendIsHarmless(conns: ConnMap, w: World, users: seq<UserId>, msg: Json)
    ensures Harmless(w, RouteAll(conns, w, users, msg))
  {
    RouteAllKeepsSessions(conns, w, users, msg);
    forall u ensures MessagesFor(w.rows, u) <= MessagesFor(RouteAll(conns, w, users, msg).rows, u) {
      SendGrowsRows(conns, w, users, msg, u);
    }
  }

  lemma ReadIsHarmless(i: nat, conns: ConnMap, w: World)
    requires i < |w.inboxes|
    ensures Harmless(w, ReceiveOne(i, conns, w))
  {
    if w.inboxes[i].queue != [] {
      forall u ensures MessagesFor(w.rows, u) <= MessagesFor(ReceiveOne(i, conns, w).rows, u) {
        RowsAppended(w.rows, [w.inboxes[i].queue[0]], u);
      }
    }
  }

  /** What a request leaves behind, if it does not have to wait. */
  lemma RequestIsHarmless(i: nat, conns: ConnMap, w: World, conn: Conn, js: Json, insertId: int)
    requires i < |w.inboxes| && js.kind != Some(LOGIN_MSG) && js.kind != Some(LOG_OUT_MSG)
    requires js.kind == Some(REG_MSG) ==> insertId !in w.users
    ensures Harmless(w, Handle(i, conns, w, conn, js, insertId).world)
  {
    if IsChat(js) {
      ChatIsFanOut(i, conns, w, conn, js, insertId);
      SendIsHarmless(conns, w, Targets(w, js), js);
    }
  }

  // ----- Steps of a handler -------------------------------------------------------------

  /** A handler's step that leaves the maps alone: what it must do for its own user,
      and leave for the others. */
  ghost predicate TouchesOnly(z: Fine, z': Fine, conn: Conn, me: UserId) {
    && WellShaped(z') && |z'.c.conns| == |z.c.conns|
    && (forall other | other in z'.ops && other != conn :: other in z.ops && z'.ops[other] == z.ops[other])
    && (forall i, u | u != me :: Maps(z'.c, i, u) <==> Maps(z.c, i, u))
    && (forall u | u != me :: IsOnline(z'.c.world, u) == IsOnline(z.c.world, u))
    && (forall u | u != me && u in z.c.world.users :: u in z'.c.world.users)
    && (forall u | u != me :: MessagesFor(z.c.world.rows, u) <= MessagesFor(z'.c.world.rows, u))
  }

  /** Everybody else's handlers are as they were when nobody else stands for `me`. */
  lemma OthersStand(z: Fine, z': Fine, conn: Conn, me: UserId)
    requires CoreInv(z) && TouchesOnly(z, z', conn, me)
    requires forall other | other in z.ops && other != conn && z.ops[other].user == me :: !Stands(z.ops[other])
    requires forall i, j :: Maps(z'.c, i, me) && Maps(z'.c, j, me) ==> i == j && IsOnline(z'.c.world, me)
    requires conn in z'.ops ==> z'.ops[conn].user == me && StandInv(z', z'.ops[conn])
    ensures CoreInv(z')
  {
    forall other | other in z'.ops ensures StandInv(z', z'.ops[other]) {
      if other != conn {
        assert StandInv(z, z.ops[other]);
      }
    }
  }

  lemma InsertKeepsCore(z: Fine, conn: Conn)
    requires CoreInv(z) && conn in z.ops && z.ops[conn].LoggingIn? && z.ops[conn].stage == Marked
    ensures CoreInv(LoginStep(z, conn))
  {
    var z', i, me := LoginStep(z, conn), z.ops[conn].srv, z.ops[conn].user;
    assert StandInv(z, z.ops[conn]);
    if z' != z {
      assert forall j, u :: Maps(z'.c, j, u) <==> Maps(z.c, j, u) || (j == i && u == me);
      OthersStand(z, z', conn, me);
    }
  }

  /** The steps of a login before the insert. */
  lemma LoginKeepsCore(z: Fine, conn: Conn)
    requires CoreInv(z) && conn in z.ops && z.ops[conn].LoggingIn?
    requires z.ops[conn].stage != Marked && z.ops[conn].stage != Inserted
    ensures CoreInv(LoginStep(z, conn))
  {
    var z', me := LoginStep(z, conn), z.ops[conn].user;
    assert StandInv(z, z.ops[conn]);
    assert forall i, u :: Maps(z'.c, i, u) == Maps(z.c, i, u);
    if z.ops[conn].stage.Fetched? {
      forall u | u != me ensures MessagesFor(z.c.world.rows, u) <= MessagesFor(z'.c.world.rows, u) {
        OtherRowsKept(z.c.world.rows, me, u);
      }
    }
    OthersStand(z, z', conn, me);
  }

  lemma SubscribeKeepsCore(z: Fine, conn: Conn)
    requires CoreInv(z) && conn in z.ops && z.ops[conn].LoggingIn? && z.ops[conn].stage == Inserted
    ensures CoreInv(LoginStep(z, conn))
  {
    var z' := LoginStep(z, conn);
    EndKeepsCore(z, z', conn);
  }

  /** A handler that stands for nobody ends. */
  lemma EndKeepsCore(z: Fine, z': Fine, conn: Conn)
    requires CoreInv(z) && conn in z.ops && WellShaped(z') && z'.c.conns == z.c.conns && z'.ops == z.ops - {conn}
    requires z'.c.world.users == z.c.world.users && z'.c.world.rows == z.c.world.rows
    ensures CoreInv(z')
  {
    assert forall i, u :: Maps(z'.c, i, u) == Maps(z.c, i, u);
    forall other | other in z'.ops ensures StandInv(z', z'.ops[other]) {
      assert StandInv(z, z.ops[other]);
    }
  }

  lemma LogOutKeepsCore(z: Fine, conn: Conn)
    requires CoreInv(z) && conn in z.ops && z.ops[conn].LoggingOut?
    ensures CoreInv(LogOutStep(z, conn))
  {
    var z' := LogOutStep(z, conn);
    assert StandInv(z, z.ops[conn]);
    if z.ops[conn].marked {
      EndKeepsCore(z, z', conn);
    } else {
      assert forall i, u :: Maps(z'.c, i, u) == Maps(z.c, i, u);
      OthersStand(z, z', conn, z.ops[conn].user);
    }
  }

  /** Whoever erases an entry stands for its user: nobody else did, since the user
      was mapped. A close scan that goes on to another entry leaves the one before
      online and in no map. */
  lemma EraseKeepsCore(z: Fine, z': Fine, conn: Conn, i: nat, u: UserId, op: Op)
    requires CoreInv(z) && Maps(z.c, i, u) && Stands(op) && MarkedOnline(op) && op.user == u && op.srv == i
    requires z'.c == EraseEntry(z, i, u).c && z'.ops == z.ops[conn := op] && |z'.lock| == |z.lock|
    ensures CoreInv(z')
  {
    forall other | other in z.ops && z.ops[other].user == u ensures !Stands(z.ops[other]) {
      assert StandInv(z, z.ops[other]);
    }
    assert forall j, v :: Maps(z'.c, j, v) <==> Maps(z.c, j, v) && !(j == i && v == u);
    OthersStand(z, z', conn, u);
  }

  lemma CloseKeepsCore(z: Fine, conn: Conn, pick: UserId)
    requires CoreInv(z) && conn in z.ops && z.ops[conn].Closing?
    ensures CoreInv(CloseStep(z, conn, pick))
  {
    var z', op := CloseStep(z, conn, pick), z.ops[conn];
    assert StandInv(z, op);
    if op.scan == Scanning && pick in BoundUsers(z.c.conns[op.srv], conn) {
      EraseKeepsCore(z, z', conn, op.srv, pick, Closing(op.srv, pick, Erased));
    } else {
      assert forall i, u :: Maps(z'.c, i, u) == Maps(z.c, i, u);
      OthersStand(z, z', conn, op.user);
    }
  }

  lemma AdvanceKeepsCore(z: Fine, conn: Conn, pick: UserId)
    requires CoreInv(z) && conn in z.ops
    ensures CoreInv(Advance(z, conn, pick))
  {
    match z.ops[conn]
    case LoggingIn(_, _, stage) =>
      match stage {
        case Marked => InsertKeepsCore(z, conn);
        case Inserted => SubscribeKeepsCore(z, conn);
        case _ => LoginKeepsCore(z, conn);
      }
    case LoggingOut(_, _, _) => LogOutKeepsCore(z, conn);
    case Closing(_, _, _) => CloseKeepsCore(z, conn, pick);
  }

  // ----- Every step, every run --------------------------------------------------------

  lemma CheckKeepsCore(z: Fine, i: nat, conn: Conn, js: Json)
    requires CoreInv(z) && NoOverlap(z, LoginCheck(i, conn, js))
    ensures CoreInv(Take(z, LoginCheck(i, conn, js)))
  {
    var z' := Take(z, LoginCheck(i, conn, js));
    if z'.ops == z.ops {
      HarmlessKeepsCore(z, z'.c.world);
    } else {
      var u := js.id.value;
      forall other | other in z.ops && z.ops[other].user == u ensures !Stands(z.ops[other]) {
        assert StandInv(z, z.ops[other]);
      }
      assert forall j, v :: Maps(z'.c, j, v) == Maps(z.c, j, v);
      OthersStand(z, z', conn, u);
    }
  }

  lemma TakeKeepsCore(z: Fine, s: Step)
    requires CoreInv(z) && NoOverlap(z, s)
    ensures CoreInv(Take(z, s))
  {
    var z' := Take(z, s);
    match s
    case LoginCheck(i, conn, js) => CheckKeepsCore(z, i, conn, js);
    case Proceed(conn, pick) => if conn in z.ops { AdvanceKeepsCore(z, conn, pick); }
    case LogOutStart(i, conn, u) => if z' != z { EraseKeepsCore(z, z', conn, i, u, LoggingOut(i, u, false)); }
    case CloseStart(i, conn, u) => if z' != z { EraseKeepsCore(z, z', conn, i, u, Closing(i, u, Erased)); }
    case Request(i, conn, js, insertId) =>
      if z' != z {
        RequestIsHarmless(i, z.c.conns[i], z.c.world, conn, js, insertId);
        HarmlessKeepsCore(z, Handle(i, z.c.conns[i], z.c.world, conn, js, insertId).world);
      }
    case Read(i) =>
      if Free(z, i) {
        ReadIsHarmless(i, z.c.conns[i], z.c.world);
        HarmlessKeepsCore(z, ReceiveOne(i, z.c.conns[i], z.c.world));
      }
  }

  lemma {:induction false} ExecuteKeepsCore(z: Fine, steps: seq<Step>)
    requires CoreInv(z) && NoOverlapRun(z, steps)
    ensures CoreInv(Execute(z, steps))
  {
    if steps != [] {
      ExecuteKeepsCore(z, steps[..|steps| - 1]);
      TakeKeepsCore(Execute(z, steps[..|steps| - 1]), steps[|steps| - 1]);
    }
  }

  /** Session uniqueness, whatever the interleaving: no user is ever in two maps,
      and every mapped user is marked online. Requests may be hostile: a connection
      may log in while it carries users, and may log out anybody's user. */
  lemma SessionsAreUnique(z: Fine, steps: seq<Step>)
    requires Quiet(z) && Agree(z.c) && NoOverlapRun(z, steps)
    ensures var r := Execute(z, steps).c;
            && (forall i, j, u :: Maps(r, i, u) && Maps(r, j, u) ==> i == j)
            && (forall i, u :: Maps(r, i, u) ==> IsOnline(r.world, u))
  {
    QuietIsCore(z);
    ExecuteKeepsCore(z, steps);
  }

  // ----- Why logins of one id must not overlap ------------------------------------------

  lemma {:induction false} ProceedsFirst(z: Fine, conn: Conn, pick: UserId, n: nat)
    requires WellShaped(z) && n > 0
    ensures Proceeds(z, conn, pick, n) == Proceeds(Take(z, Proceed(conn, pick)), conn, pick, n - 1)
  {
    if n > 1 {
      ProceedsFirst(z, conn, pick, n - 1);
    }
  }

  /** How many steps a login has left up to its online mark. */
  function ToMark(op: Op): nat {
    if !op.LoggingIn? then 0
    else
      match op.stage
      case Checked => 3
      case Fetched(_) => 2
      case Removed => 1
      case _ => 0
  }

  /** Up to the mark a login touches no map, no lock and no other handler. */
  lemma {:induction false} LoginRunsToMarked(z: Fine, conn: Conn, pick: UserId)
    requires WellShaped(z) && conn in z.ops && MarkedOffline(z.ops[conn])
    ensures var op, r := z.ops[conn], Proceeds(z, conn, pick, ToMark(z.ops[conn]));
            && r.c.conns == z.c.conns && r.lock == z.lock
            && r.ops == z.ops[conn := LoggingIn(op.srv, op.user, Marked)]
    decreases ToMark(z.ops[conn])
  {
    var op, z1 := z.ops[conn], LoginStep(z, conn);
    ProceedsFirst(z, conn, pick, ToMark(op));
    if op.stage == Removed {
      assert z1.ops == z.ops[conn := LoggingIn(op.srv, op.user, Marked)];
    } else {
      LoginRunsToMarked(z1, conn, pick);
      assert z1.ops[conn := LoggingIn(op.srv, op.user, Marked)] == z.ops[conn := LoggingIn(op.srv, op.user, Marked)];
    }
  }

  /** The step after the mark makes the user mapped. */
  lemma LoginRunsToInsert(z: Fine, conn: Conn, pick: UserId)
    requires WellShaped(z) && conn in z.ops && MarkedOffline(z.ops[conn]) && Free(z, z.ops[conn].srv)
    ensures var r := Proceeds(z, conn, pick, ToMark(z.ops[conn]) + 1);
            && Maps(r.c, z.ops[conn].srv, z.ops[conn].user) && r.lock == z.lock
            && (forall j, v :: Maps(z.c, j, v) ==> Maps(r.c, j, v))
            && (forall other | other in z.ops && other != conn :: other in r.ops && r.ops[other] == z.ops[other])
  {
    LoginRunsToMarked(z, conn, pick);
  }

  /** The overlap that `NoOverlap` excludes. */
  ghost predicate Overlaps(z: Fine, a: Conn, js: Json) {
    a in z.ops && MarkedOffline(z.ops[a]) && js.id == Some(z.ops[a].user) && LoginAccepted(z.c.world, js)
  }

  /** In the states the invariant allows these are exactly the checks that `NoOverlap`
      turns away. */
  lemma NoOverlapExactly(z: Fine, i: nat, conn: Conn, js: Json)
    requires CoreInv(z)
    ensures NoOverlap(z, LoginCheck(i, conn, js)) <==> forall a :: !Overlaps(z, a, js)
  {
    forall a | a in z.ops && z.ops[a].LoggingIn? && z.ops[a].stage != Inserted && js.id == Some(z.ops[a].user)
      ensures LoginAccepted(z.c.world, js) ==> Overlaps(z, a, js)
    {
      assert StandInv(z, z.ops[a]);
    }
  }

  /** Nothing between the check and the mark keeps a second login out: wherever a check
      overlaps a login on another process, and the locks of both are free, a schedule
      leaves the user in two maps. */
  lemma OverlapEndsInTwoMaps(z: Fine, a: Conn, j: nat, b: Conn, js: Json, pick: UserId)
    requires WellShaped(z) && Overlaps(z, a, js) && b !in z.ops && j < |z.c.conns| && j != z.ops[a].srv
    requires Free(z, z.ops[a].srv) && Free(z, j)
    ensures var i, u := z.ops[a].srv, z.ops[a].user;
            var checked := Take(z, LoginCheck(j, b, js));
            var r := Proceeds(Proceeds(checked, a, pick, ToMark(z.ops[a]) + 1), b, pick, 4);
            i != j && Maps(r.c, i, u) && Maps(r.c, j, u)
  {
    var checked := Take(z, LoginCheck(j, b, js));
    LoginRunsToInsert(checked, a, pick);
    LoginRunsToInsert(Proceeds(checked, a, pick, ToMark(z.ops[a]) + 1), b, pick);
  }

  /** From any quiet state two accepted logins are two checks away from that. */
  lemma OverlappingLoginsBreakUniqueness(z: Fine, i: nat, j: nat, a: Conn, b: Conn, js: Json, pick: UserId)
    requires Quiet(z) && i < |z.c.conns| && j < |z.c.conns| && i != j && a != b && LoginAccepted(z.c.world, js)
    ensures var checked := Take(Take(z, LoginCheck(i, a, js)), LoginCheck(j, b, js));
            var r := Proceeds(Proceeds(checked, a, pick, 4), b, pick, 4);
            i != j && Maps(r.c, i, js.id.value) && Maps(r.c, j, js.id.value)
  {
    var z1 := Take(z, LoginCheck(i, a, js));
    assert z1 == z.(ops := map[a := LoggingIn(i, js.id.value, Checked)]);
    OverlapEndsInTwoMaps(z1, a, j, b, js, pick);
  }

  /** And one more ends the login. */
  lemma LoginRunsOut(z: Fine, conn: Conn, pick: UserId)
    requires WellShaped(z) && conn in z.ops && MarkedOffline(z.ops[conn]) && Free(z, z.ops[conn].srv)
    ensures var r := Proceeds(z, conn, pick, ToMark(z.ops[conn]) + 2);
            && Maps(r.c, z.ops[conn].srv, z.ops[conn].user) && r.lock == z.lock && r.ops == z.ops - {conn}
  {
    var op := z.ops[conn];
    LoginRunsToMarked(z, conn, pick);
    var m := Proceeds(z, conn, pick, ToMark(op));
    var inserted := LoginStep(m, conn);
    assert Proceeds(z, conn, pick, ToMark(op) + 1) == Take(m, Proceed(conn, pick)) == inserted;
    assert inserted.ops == z.ops[conn := LoggingIn(op.srv, op.user, Inserted)];
    assert LoginStep(inserted, conn).ops == z.ops - {conn};
  }

  /** On one process the overlap leaves the user mapped and marked offline: `b` checks
      while `a` logs in, `a` goes on to its end, `b` to its mark, `a` logs out, `b`
      inserts. */
  lemma OverlapEndsOffline(z: Fine, a: Conn, b: Conn, js: Json, pick: UserId)
    requires WellShaped(z) && Overlaps(z, a, js) && b !in z.ops && Free(z, z.ops[a].srv)
    ensures var i, u := z.ops[a].srv, z.ops[a].user;
            var checked := Take(z, LoginCheck(i, b, js));
            var marked := Proceeds(Proceeds(checked, a, pick, ToMark(z.ops[a]) + 2), b, pick, 3);
            var out := Proceeds(Take(marked, LogOutStart(i, a, u)), a, pick, 2);
            var r := Proceeds(out, b, pick, 1);
            Maps(r.c, i, u) && !IsOnline(r.c.world, u)
  {
    var i, u := z.ops[a].srv, z.ops[a].user;
    var checked := Take(z, LoginCheck(i, b, js));
    assert checked == z.(ops := z.ops[b := LoggingIn(i, u, Checked)]);
    LoginRunsOut(checked, a, pick);
    var in' := Proceeds(checked, a, pick, ToMark(z.ops[a]) + 2);
    LoginRunsToMarked(in', b, pick);
    var marked := Proceeds(in', b, pick, 3);
    LogOutRunsToMark(marked, i, a, u, pick);
    InsertAfterLogOut(marked, i, a, b, u, pick);
  }

  lemma InsertAfterLogOut(z: Fine, i: nat, a: Conn, b: Conn, u: UserId, pick: UserId)
    requires WellShaped(z) && Free(z, i) && Maps(z.c, i, u) && a !in z.ops && a != b
    requires b in z.ops && z.ops[b] == LoggingIn(i, u, Marked)
    requires Proceeds(Take(z, LogOutStart(i, a, u)), a, pick, 1) == LeavingBy(z, i, a, u)
    ensures var r := Proceeds(Proceeds(Take(z, LogOutStart(i, a, u)), a, pick, 2), b, pick, 1);
            Maps(r.c, i, u) && !IsOnline(r.c.world, u)
  {
    var start, leaving := Take(z, LogOutStart(i, a, u)), LeavingBy(z, i, a, u);
    var out := LogOutStep(leaving, a);
    assert Proceeds(start, a, pick, 2) == Take(Proceeds(start, a, pick, 1), Proceed(a, pick)) == out;
    assert Proceeds(out, b, pick, 1) == Take(Proceeds(out, b, pick, 0), Proceed(b, pick)) == LoginStep(out, b);
  }
}
