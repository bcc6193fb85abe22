/** What every interleaving of the small steps keeps. */
module SmallStepSafety {
  import opened ChatTypes
  import opened ChatServer
  import opened ClusterModel
  import opened Sessions
  import opened Accounting
  import opened SmallStep
  import opened SessionUniqueness

  // ----- The invariant --------------------------------------------------------------

  /** The handler answers for its user's session: it stands for the user, or has
      just inserted it. */
  predicate Owns(op: Op) {
    Stands(op) || JustInserted(op)
  }

  predicate HoldsLock(op: Op) {
    op.LoggingOut? || (op.Closing? && op.scan != Released)
  }

  /** The handler has erased its user but not unsubscribed it. */
  predicate StillSubscribed(op: Op) {
    op.LoggingOut? || (op.Closing? && op.scan == Erased)
  }

  ghost predicate OpInv(z: Fine, conn: Conn, op: Op) {
    && op.srv < |z.c.conns| == |z.lock|
    && (HoldsLock(op) ==> z.lock[op.srv] == Some(conn))
    && (JustInserted(op) ==> Maps(z.c, op.srv, op.user) && z.c.conns[op.srv][op.user] == conn)
    && (!JustInserted(op) && !op.LoggingOut? ==> forall u | u in z.c.conns[op.srv] :: z.c.conns[op.srv][u] != conn)
    && (op.LoggingOut? ==> op.user !in z.c.conns[op.srv])
  }

  ghost predicate OpsInv(z: Fine) {
    forall conn | conn in z.ops :: OpInv(z, conn, z.ops[conn])
  }

  ghost predicate LocksInv(z: Fine) {
    forall i: nat | i < |z.lock| && z.lock[i].Some? ::
      z.lock[i].value in z.ops && HoldsLock(z.ops[z.lock[i].value]) && z.ops[z.lock[i].value].srv == i
  }

  ghost predicate ConnsInv(z: Fine) {
    -1 !in z.c.world.users && OneUserPerConn(z.c)
  }

  ghost predicate Owned(z: Fine, u: UserId) {
    exists conn :: conn in z.ops && z.ops[conn].user == u && Owns(z.ops[conn])
  }

  /** An online user is mapped, or some handler stands for it. */
  ghost predicate OnlineInv(z: Fine) {
    forall u | IsOnline(z.c.world, u) :: MappedSomewhere(z.c, u) || Owned(z, u)
  }

  /** Who is subscribed, exactly. */
  ghost predicate Expected(z: Fine, i: nat, u: UserId)
    requires i < |z.c.conns| == |z.lock|
  {
    || (u in z.c.conns[i] && !(z.c.conns[i][u] in z.ops && z.ops[z.c.conns[i][u]] == LoggingIn(i, u, Inserted)))
    || (z.lock[i].Some? && z.lock[i].value in z.ops
        && z.ops[z.lock[i].value].user == u && StillSubscribed(z.ops[z.lock[i].value]))
  }

  ghost predicate SubsInv(z: Fine) {
    WellShaped(z) && forall i: nat, u | i < |z.c.conns| :: u in z.c.world.inboxes[i].subs <==> Expected(z, i, u)
  }

  /** What is kept besides, in runs whose steps are permitted. */
  ghost predicate RestInv(z: Fine) {
    ConnsInv(z) && OpsInv(z) && LocksInv(z) && OnlineInv(z) && SubsInv(z)
  }

  ghost predicate FineInv(z: Fine) {
    CoreInv(z) && RestInv(z)
  }

  /** With no handler running this is the agreement of the atomic layer. */
  lemma QuietMeansAgree(z: Fine)
    requires Quiet(z)
    ensures FineInv(z) <==> Inv(z.c)
  {
  }

  /** No two handlers answer for one session. */
  lemma OneOwner(z: Fine, a: Conn, b: Conn)
    requires FineInv(z) && a in z.ops && b in z.ops && z.ops[a].user == z.ops[b].user
    requires Owns(z.ops[a]) && Owns(z.ops[b])
    ensures a == b
  {
    assert OpInv(z, a, z.ops[a]) && OpInv(z, b, z.ops[b]);
    assert StandInv(z, z.ops[a]) && StandInv(z, z.ops[b]);
  }

  // ----- Steps that only send, store or deliver ---------------------------------------

  lemma HarmlessKeepsRest(z: Fine, w: World)
    requires FineInv(z) && Harmless(z.c.world, w) && -1 !in w.users
    ensures RestInv(SetWorld(z, w))
  {
    var z' := SetWorld(z, w);
    assert forall i, u :: Maps(z'.c, i, u) == Maps(z.c, i, u);
    assert forall u :: MappedSomewhere(z'.c, u) == MappedSomewhere(z.c, u);
    assert forall u :: Owned(z', u) == Owned(z, u);
    assert forall i: nat, u | i < |z.c.conns| :: Expected(z', i, u) == Expected(z, i, u);
    forall conn | conn in z.ops ensures OpInv(z', conn, z.ops[conn]) {
      assert OpInv(z, conn, z.ops[conn]);
    }
  }

  lemma RequestAddsNoBadKey(i: nat, conns: ConnMap, w: World, conn: Conn, js: Json, insertId: int)
    requires i < |w.inboxes| && js.kind != Some(LOGIN_MSG) && js.kind != Some(LOG_OUT_MSG)
    requires -1 !in w.users && insertId > 0
    ensures -1 !in Handle(i, conns, w, conn, js, insertId).world.users
  {
    if IsChat(js) {
      ChatIsFanOut(i, conns, w, conn, js, insertId);
      RouteAllKeepsSessions(conns, w, Targets(w, js), js);
    }
  }

  lemma RequestKeepsRest(z: Fine, s: Step)
    requires FineInv(z) && Permitted(z, s) && s.Request?
    ensures RestInv(Take(z, s))
  {
    if Take(z, s) != z {
      var conns, w := z.c.conns[s.srv], z.c.world;
      RequestIsHarmless(s.srv, conns, w, s.conn, s.js, s.insertId);
      RequestAddsNoBadKey(s.srv, conns, w, s.conn, s.js, s.insertId);
      HarmlessKeepsRest(z, Handle(s.srv, conns, w, s.conn, s.js, s.insertId).world);
    }
  }

  lemma ReadKeepsRest(z: Fine, i: nat)
    requires FineInv(z)
    ensures RestInv(Take(z, Read(i)))
  {
    if Free(z, i) {
      ReadIsHarmless(i, z.c.conns[i], z.c.world);
      HarmlessKeepsRest(z, ReceiveOne(i, z.c.conns[i], z.c.world));
    }
  }

  // ----- Login ------------------------------------------------------------------------

  lemma LoginCheckKeepsRest(z: Fine, i: nat, conn: Conn, js: Json)
    requires FineInv(z) && Permitted(z, LoginCheck(i, conn, js))
    ensures RestInv(Take(z, LoginCheck(i, conn, js)))
  {
    var z' := Take(z, LoginCheck(i, conn, js));
    if z'.ops == z.ops {
      HarmlessKeepsRest(z, z'.c.world);
    } else {
      forall x | x in z.c.conns[i] ensures z.c.conns[i][x] != conn {
        assert x !in BoundUsers(z.c.conns[i], conn);
      }
      forall other | other in z'.ops ensures OpInv(z', other, z'.ops[other]) {
        if other != conn {
          assert OpInv(z, other, z.ops[other]);
        }
      }
      NewOpKeepsOthers(z, z', conn);
    }
  }

  /** A new handler that neither holds a lock nor has inserted its user changes
      nothing for the rest. */
  lemma NewOpKeepsOthers(z: Fine, z': Fine, conn: Conn)
    requires OnlineInv(z) && LocksInv(z) && SubsInv(z)
    requires conn !in z.ops && conn in z'.ops && z'.c == z.c && z'.lock == z.lock
    requires z'.ops == z.ops[conn := z'.ops[conn]] && !JustInserted(z'.ops[conn])
    ensures OnlineInv(z') && LocksInv(z') && (WellShaped(z') ==> SubsInv(z'))
  {
    forall u | IsOnline(z'.c.world, u) ensures MappedSomewhere(z'.c, u) || Owned(z', u) {
      if Owned(z, u) {
        var other :| other in z.ops && z.ops[other].user == u && Owns(z.ops[other]);
        assert other in z'.ops && z'.ops[other] == z.ops[other];
      }
    }
    forall i: nat, u | i < |z.c.conns| ensures Expected(z', i, u) == Expected(z, i, u) {
      if z.lock[i].Some? {
        assert z.lock[i].value in z.ops;
      }
    }
  }

  lemma FetchKeepsRest(z: Fine, conn: Conn)
    requires FineInv(z) && conn in z.ops && z.ops[conn].LoggingIn? && z.ops[conn].stage == Checked
    ensures RestInv(LoginStep(z, conn))
  {
    var z' := LoginStep(z, conn);
    SameOpsKeepRest(z, z', conn);
    forall other | other in z'.ops ensures OpInv(z', other, z'.ops[other]) {
      assert OpInv(z, other, z.ops[other]);
    }
  }

  lemma RemoveKeepsRest(z: Fine, conn: Conn)
    requires FineInv(z) && conn in z.ops && z.ops[conn].LoggingIn? && z.ops[conn].stage.Fetched?
    ensures RestInv(LoginStep(z, conn))
  {
    var z' := LoginStep(z, conn);
    SameOpsKeepRest(z, z', conn);
    assert forall i, u :: Maps(z'.c, i, u) == Maps(z.c, i, u);
    forall other | other in z'.ops ensures OpInv(z', other, z'.ops[other]) {
      assert OpInv(z, other, z.ops[other]);
    }
  }

  /** A handler's step that changes no map, no lock and no claim to a subscription
      leaves everybody's expected subscriptions as they are. */
  lemma SameExpected(z: Fine, z': Fine, conn: Conn)
    requires WellShaped(z) && WellShaped(z') && conn in z.ops && conn in z'.ops
    requires z'.c.conns == z.c.conns && z'.lock == z.lock
    requires z'.ops.Keys == z.ops.Keys && z'.ops[conn].user == z.ops[conn].user
    requires StillSubscribed(z'.ops[conn]) == StillSubscribed(z.ops[conn])
    requires !JustInserted(z'.ops[conn]) && !JustInserted(z.ops[conn])
    requires forall other | other in z.ops && other != conn :: z'.ops[other] == z.ops[other]
    ensures forall i: nat, u | i < |z.c.conns| :: Expected(z', i, u) == Expected(z, i, u)
  {
  }

  /** What keeps online users mapped or stood for, across a step of one handler. */
  lemma BackingKept(z: Fine, z': Fine, conn: Conn)
    requires OnlineInv(z) && conn in z.ops
    requires forall i, u | Maps(z.c, i, u) :: Maps(z'.c, i, u)
    requires forall other | other in z.ops && other != conn :: other in z'.ops && z'.ops[other] == z.ops[other]
    requires forall u | IsOnline(z'.c.world, u) :: u == z.ops[conn].user || IsOnline(z.c.world, u)
    requires var u := z.ops[conn].user; IsOnline(z'.c.world, u) ==> MappedSomewhere(z'.c, u) || Owned(z', u)
    ensures OnlineInv(z')
  {
  }

  /** The handler itself stands for its user. */
  lemma OwnedBy(z: Fine, conn: Conn)
    requires conn in z.ops && Owns(z.ops[conn])
    ensures Owned(z, z.ops[conn].user)
  {
  }

  /** A handler takes a step that no lock, map, account or subscription shows. */
  lemma SameOpsKeepRest(z: Fine, z': Fine, conn: Conn)
    requires FineInv(z) && WellShaped(z') && conn in z.ops && z.ops[conn].LoggingIn?
    requires z'.c.conns == z.c.conns && z'.lock == z.lock && SameSessions(z.c.world, z'.c.world)
    requires z'.ops.Keys == z.ops.Keys && z'.ops[conn].LoggingIn?
    requires z'.ops[conn].user == z.ops[conn].user && !JustInserted(z'.ops[conn]) && !JustInserted(z.ops[conn])
    requires forall other | other in z.ops && other != conn :: z'.ops[other] == z.ops[other]
    ensures ConnsInv(z') && LocksInv(z') && OnlineInv(z') && SubsInv(z')
  {
    assert forall i, u :: Maps(z'.c, i, u) == Maps(z.c, i, u);
    OwnedBy(z', conn);
    BackingKept(z, z', conn);
    SameExpected(z, z', conn);
  }

  lemma MarkKeepsOps(z: Fine, conn: Conn)
    requires FineInv(z) && conn in z.ops && z.ops[conn].LoggingIn? && z.ops[conn].stage == Removed
    ensures OpsInv(LoginStep(z, conn))
  {
    var z' := LoginStep(z, conn);
    assert OpInv(z, conn, z.ops[conn]);
    assert forall i, u :: Maps(z'.c, i, u) == Maps(z.c, i, u);
    forall other | other in z'.ops ensures OpInv(z', other, z'.ops[other]) {
      assert OpInv(z, other, z.ops[other]);
    }
  }

  lemma MarkKeepsRest(z: Fine, conn: Conn)
    requires FineInv(z) && conn in z.ops && z.ops[conn].LoggingIn? && z.ops[conn].stage == Removed
    ensures RestInv(LoginStep(z, conn))
  {
    var z' := LoginStep(z, conn);
    assert forall i, u :: Maps(z'.c, i, u) == Maps(z.c, i, u);
    MarkKeepsOps(z, conn);
    OwnedBy(z', conn);
    BackingKept(z, z', conn);
    SameExpected(z, z', conn);
  }

  lemma InsertKeepsRest(z: Fine, conn: Conn)
    requires FineInv(z) && conn in z.ops && z.ops[conn].LoggingIn? && z.ops[conn].stage == Marked
    ensures RestInv(LoginStep(z, conn))
  {
    if Free(z, z.ops[conn].srv) {
      InsertKeepsOps(z, conn);
      InsertKeepsSubs(z, conn);
      var z' := LoginStep(z, conn);
      assert Maps(z'.c, z.ops[conn].srv, z.ops[conn].user);
      BackingKept(z, z', conn);
    }
  }

  lemma InsertKeepsOps(z: Fine, conn: Conn)
    requires FineInv(z) && conn in z.ops && z.ops[conn].LoggingIn? && z.ops[conn].stage == Marked
    requires Free(z, z.ops[conn].srv)
    ensures OpsInv(LoginStep(z, conn)) && ConnsInv(LoginStep(z, conn))
  {
    var z' := LoginStep(z, conn);
    var i, me := z.ops[conn].srv, z.ops[conn].user;
    assert OpInv(z, conn, z.ops[conn]);
    assert !Maps(z.c, i, me);
    assert forall j, u :: Maps(z'.c, j, u) <==> Maps(z.c, j, u) || (j == i && u == me);
    forall other | other in z'.ops ensures OpInv(z', other, z'.ops[other]) {
      assert OpInv(z, other, z.ops[other]);
    }
  }

  lemma InsertKeepsSubs(z: Fine, conn: Conn)
    requires SubsInv(z) && LocksInv(z) && conn in z.ops && OpInv(z, conn, z.ops[conn])
    requires StandInv(z, z.ops[conn]) && z.ops[conn].LoggingIn? && z.ops[conn].stage == Marked
    requires Free(z, z.ops[conn].srv)
    ensures SubsInv(LoginStep(z, conn)) && LocksInv(LoginStep(z, conn))
  {
    var z' := LoginStep(z, conn);
    assert !Maps(z.c, z.ops[conn].srv, z.ops[conn].user);
    forall j: nat, u | j < |z.c.conns| ensures Expected(z', j, u) == Expected(z, j, u) {
      if z.lock[j].Some? {
        assert HoldsLock(z.ops[z.lock[j].value]);
      }
    }
  }

  lemma SubscribeKeepsRest(z: Fine, conn: Conn)
    requires FineInv(z) && conn in z.ops && z.ops[conn].LoggingIn? && z.ops[conn].stage == Inserted
    ensures RestInv(LoginStep(z, conn))
  {
    var z' := LoginStep(z, conn);
    var i, me := z.ops[conn].srv, z.ops[conn].user;
    assert OpInv(z, conn, z.ops[conn]);
    assert forall j, u :: Maps(z'.c, j, u) == Maps(z.c, j, u);
    forall other | other in z'.ops ensures OpInv(z', other, z'.ops[other]) {
      assert OpInv(z, other, z.ops[other]);
    }
    assert Maps(z'.c, i, me);
    BackingKept(z, z', conn);
    forall j: nat, u | j < |z.c.conns| ensures u in z'.c.world.inboxes[j].subs <==> Expected(z', j, u) {
      assert u in z.c.world.inboxes[j].subs <==> Expected(z, j, u);
      if z.lock[j].Some? {
        assert HoldsLock(z.ops[z.lock[j].value]);
      }
    }
  }

  // ----- Logout and close ---------------------------------------------------------------

  /** Taking the lock and erasing an entry, for a logout or a close. */
  function EraseFor(z: Fine, i: nat, conn: Conn, u: UserId, op: Op): Fine
    requires i < |z.c.conns| == |z.lock|
  {
    EraseEntry(z, i, u).(lock := z.lock[i := Some(conn)], ops := z.ops[conn := op])
  }

  /** A close erases entries of its own connection; a logout any but one whose login
      has not subscribed yet. */
  ghost predicate MayErase(z: Fine, i: nat, conn: Conn, u: UserId, op: Op) {
    && conn !in z.ops && Free(z, i) && Maps(z.c, i, u)
    && (var owner := z.c.conns[i][u];
        || (op == Closing(i, u, Erased) && owner == conn)
        || (op == LoggingOut(i, u, false) && !(owner in z.ops && z.ops[owner] == LoggingIn(i, u, Inserted))))
  }

  ghost predicate CanErase(z: Fine, i: nat, conn: Conn, u: UserId, op: Op) {
    FineInv(z) && MayErase(z, i, conn, u, op)
  }

  lemma NobodyElseOwns(z: Fine, i: nat, conn: Conn, u: UserId, op: Op)
    requires CanErase(z, i, conn, u, op)
    ensures forall other | other in z.ops && z.ops[other].user == u :: !Owns(z.ops[other])
  {
  }

  lemma EraseKeepsOps(z: Fine, i: nat, conn: Conn, u: UserId, op: Op)
    requires CanErase(z, i, conn, u, op)
    ensures OpsInv(EraseFor(z, i, conn, u, op)) && ConnsInv(EraseFor(z, i, conn, u, op))
  {
    var z' := EraseFor(z, i, conn, u, op);
    assert forall j, v :: Maps(z'.c, j, v) <==> Maps(z.c, j, v) && !(j == i && v == u);
    if op.Closing? {
      forall v | v in z'.c.conns[i] ensures z'.c.conns[i][v] != conn {
        assert Maps(z.c, i, v);
      }
    }
    NobodyElseOwns(z, i, conn, u, op);
    forall other | other in z'.ops ensures OpInv(z', other, z'.ops[other]) {
      if other != conn {
        assert OpInv(z, other, z.ops[other]);
      }
    }
  }

  lemma EraseKeepsBacking(z: Fine, i: nat, conn: Conn, u: UserId, op: Op)
    requires CanErase(z, i, conn, u, op)
    ensures OnlineInv(EraseFor(z, i, conn, u, op))
  {
    var z' := EraseFor(z, i, conn, u, op);
    forall v | IsOnline(z'.c.world, v) ensures MappedSomewhere(z'.c, v) || Owned(z', v) {
      if v == u {
        assert conn in z'.ops && z'.ops[conn].user == v && Owns(z'.ops[conn]);
      } else if MappedSomewhere(z.c, v) {
        var j :| Maps(z.c, j, v);
        assert Maps(z'.c, j, v);
      } else {
        var other :| other in z.ops && z.ops[other].user == v && Owns(z.ops[other]);
        assert other in z'.ops && z'.ops[other] == z.ops[other];
      }
    }
  }

  lemma EraseKeepsSubs(z: Fine, i: nat, conn: Conn, u: UserId, op: Op)
    requires SubsInv(z) && LocksInv(z) && MayErase(z, i, conn, u, op)
    ensures SubsInv(EraseFor(z, i, conn, u, op)) && LocksInv(EraseFor(z, i, conn, u, op))
  {
    var z' := EraseFor(z, i, conn, u, op);
    forall j: nat, v | j < |z.c.conns| ensures v in z'.c.world.inboxes[j].subs <==> Expected(z', j, v) {
      assert v in z.c.world.inboxes[j].subs <==> Expected(z, j, v);
      if z.lock[j].Some? {
        assert z.lock[j].value in z.ops;
      }
    }
  }

  lemma EraseKeepsRest(z: Fine, i: nat, conn: Conn, u: UserId, op: Op)
    requires CanErase(z, i, conn, u, op)
    ensures RestInv(EraseFor(z, i, conn, u, op))
  {
    NobodyElseOwns(z, i, conn, u, op);
    EraseKeepsOps(z, i, conn, u, op);
    EraseKeepsBacking(z, i, conn, u, op);
    EraseKeepsSubs(z, i, conn, u, op);
  }

  lemma MarkOfflineKeepsOps(z: Fine, conn: Conn)
    requires FineInv(z) && conn in z.ops && z.ops[conn].LoggingOut? && !z.ops[conn].marked
    ensures OpsInv(LogOutStep(z, conn))
  {
    var z' := LogOutStep(z, conn);
    assert forall j, u :: Maps(z'.c, j, u) == Maps(z.c, j, u);
    forall other | other in z'.ops ensures OpInv(z', other, z'.ops[other]) {
      assert OpInv(z, other, z.ops[other]);
    }
  }

  lemma MarkOfflineKeepsRest(z: Fine, conn: Conn)
    requires FineInv(z) && conn in z.ops && z.ops[conn].LoggingOut? && !z.ops[conn].marked
    ensures RestInv(LogOutStep(z, conn))
  {
    var z' := LogOutStep(z, conn);
    assert OpInv(z, conn, z.ops[conn]);
    assert forall j, u :: Maps(z'.c, j, u) == Maps(z.c, j, u);
    MarkOfflineKeepsOps(z, conn);
    BackingKept(z, z', conn);
    SameExpected(z, z', conn);
  }

  lemma UnsubscribeKeepsOps(z: Fine, conn: Conn)
    requires FineInv(z) && conn in z.ops && z.ops[conn].LoggingOut? && z.ops[conn].marked
    ensures OpsInv(LogOutStep(z, conn)) && LocksInv(LogOutStep(z, conn))
  {
    var z' := LogOutStep(z, conn);
    assert OpInv(z, conn, z.ops[conn]);
    assert forall j, u :: Maps(z'.c, j, u) == Maps(z.c, j, u);
    forall other | other in z'.ops ensures OpInv(z', other, z'.ops[other]) {
      assert OpInv(z, other, z.ops[other]);
    }
  }

  lemma UnsubscribeKeepsSubs(z: Fine, conn: Conn)
    requires SubsInv(z) && LocksInv(z) && conn in z.ops && OpInv(z, conn, z.ops[conn])
    requires z.ops[conn].LoggingOut? && z.ops[conn].marked
    ensures SubsInv(LogOutStep(z, conn))
  {
    var z' := LogOutStep(z, conn);
    forall j: nat, u | j < |z.c.conns| ensures u in z'.c.world.inboxes[j].subs <==> Expected(z', j, u) {
      assert u in z.c.world.inboxes[j].subs <==> Expected(z, j, u);
      if z.lock[j].Some? {
        assert HoldsLock(z.ops[z.lock[j].value]) && z.ops[z.lock[j].value].srv == j;
      }
    }
  }

  lemma UnsubscribeKeepsRest(z: Fine, conn: Conn)
    requires FineInv(z) && conn in z.ops && z.ops[conn].LoggingOut? && z.ops[conn].marked
    ensures RestInv(LogOutStep(z, conn))
  {
    var z' := LogOutStep(z, conn);
    assert OpInv(z, conn, z.ops[conn]);
    UnsubscribeKeepsOps(z, conn);
    UnsubscribeKeepsSubs(z, conn);
    assert forall j, u :: Maps(z'.c, j, u) == Maps(z.c, j, u);
    forall u | IsOnline(z'.c.world, u) ensures MappedSomewhere(z'.c, u) || Owned(z', u) {
      StillBacked(z, z', conn, u);
    }
  }

  /** A handler that stands for no session can end. */
  lemma StillBacked(z: Fine, z': Fine, conn: Conn, u: UserId)
    requires conn in z.ops && !Owns(z.ops[conn]) && (MappedSomewhere(z.c, u) || Owned(z, u))
    requires forall i | Maps(z.c, i, u) :: Maps(z'.c, i, u)
    requires forall other | other in z.ops && other != conn :: other in z'.ops && z'.ops[other] == z.ops[other]
    ensures MappedSomewhere(z'.c, u) || Owned(z', u)
  {
  }

  lemma CloseUnsubscribeKeepsSubs(z: Fine, conn: Conn, pick: UserId)
    requires SubsInv(z) && LocksInv(z) && conn in z.ops && OpInv(z, conn, z.ops[conn])
    requires StandInv(z, z.ops[conn]) && z.ops[conn].Closing? && z.ops[conn].scan == Erased
    ensures SubsInv(CloseStep(z, conn, pick)) && LocksInv(CloseStep(z, conn, pick))
  {
    var z' := CloseStep(z, conn, pick);
    assert !Maps(z.c, z.ops[conn].srv, z.ops[conn].user);
    forall j: nat, u | j < |z.c.conns| ensures u in z'.c.world.inboxes[j].subs <==> Expected(z', j, u) {
      assert u in z.c.world.inboxes[j].subs <==> Expected(z, j, u);
      if z.lock[j].Some? {
        assert HoldsLock(z.ops[z.lock[j].value]) && z.ops[z.lock[j].value].srv == j;
      }
    }
  }

  lemma CloseUnsubscribeKeepsRest(z: Fine, conn: Conn, pick: UserId)
    requires FineInv(z) && conn in z.ops && z.ops[conn].Closing? && z.ops[conn].scan == Erased
    ensures RestInv(CloseStep(z, conn, pick))
  {
    var z' := CloseStep(z, conn, pick);
    assert OpInv(z, conn, z.ops[conn]) && StandInv(z, z.ops[conn]);
    assert forall j, u :: Maps(z'.c, j, u) == Maps(z.c, j, u);
    forall other | other in z'.ops ensures OpInv(z', other, z'.ops[other]) {
      assert OpInv(z, other, z.ops[other]);
    }
    CloseUnsubscribeKeepsSubs(z, conn, pick);
    OwnedBy(z', conn);
    BackingKept(z, z', conn);
  }

  lemma NothingBound(conns: ConnMap, conn: Conn)
    requires forall u | u in conns :: conns[u] != conn
    ensures BoundUsers(conns, conn) == {}
  {
    var bound := BoundUsers(conns, conn);
    assert (forall u :: u !in bound) ==> bound == {};
  }

  lemma ScanKeepsOps(z: Fine, conn: Conn, pick: UserId)
    requires FineInv(z) && conn in z.ops && z.ops[conn].Closing? && z.ops[conn].scan == Scanning
    ensures BoundUsers(z.c.conns[z.ops[conn].srv], conn) == {}
    ensures OpsInv(CloseStep(z, conn, pick))
  {
    assert OpInv(z, conn, z.ops[conn]);
    NothingBound(z.c.conns[z.ops[conn].srv], conn);
    var z' := CloseStep(z, conn, pick);
    assert forall j, u :: Maps(z'.c, j, u) == Maps(z.c, j, u);
    forall other | other in z'.ops ensures OpInv(z', other, z'.ops[other]) {
      assert OpInv(z, other, z.ops[other]);
    }
  }

  lemma ScanKeepsSubs(z: Fine, conn: Conn, pick: UserId)
    requires SubsInv(z) && LocksInv(z) && conn in z.ops && OpInv(z, conn, z.ops[conn])
    requires z.ops[conn].Closing? && z.ops[conn].scan == Scanning
    requires BoundUsers(z.c.conns[z.ops[conn].srv], conn) == {}
    ensures SubsInv(CloseStep(z, conn, pick)) && LocksInv(CloseStep(z, conn, pick))
  {
    var z' := CloseStep(z, conn, pick);
    forall j: nat, u | j < |z.c.conns| ensures Expected(z', j, u) == Expected(z, j, u) {
      if z.lock[j].Some? {
        assert HoldsLock(z.ops[z.lock[j].value]) && z.ops[z.lock[j].value].srv == j;
      }
    }
  }

  /** The scan finds no second entry, and lets the lock go. */
  lemma ScanKeepsRest(z: Fine, conn: Conn, pick: UserId)
    requires FineInv(z) && conn in z.ops && z.ops[conn].Closing? && z.ops[conn].scan == Scanning
    ensures RestInv(CloseStep(z, conn, pick))
  {
    ScanKeepsOps(z, conn, pick);
    ScanKeepsSubs(z, conn, pick);
    var z' := CloseStep(z, conn, pick);
    assert forall j, u :: Maps(z'.c, j, u) == Maps(z.c, j, u);
    OwnedBy(z', conn);
    BackingKept(z, z', conn);
  }

  lemma ReleaseKeepsOps(z: Fine, conn: Conn, pick: UserId)
    requires FineInv(z) && conn in z.ops && z.ops[conn].Closing? && z.ops[conn].scan == Released
    ensures OpsInv(CloseStep(z, conn, pick))
  {
    var z' := CloseStep(z, conn, pick);
    assert forall j, u :: Maps(z'.c, j, u) == Maps(z.c, j, u);
    forall other | other in z'.ops ensures OpInv(z', other, z'.ops[other]) {
      assert OpInv(z, other, z.ops[other]);
    }
  }

  lemma ReleaseKeepsSubs(z: Fine, conn: Conn, pick: UserId)
    requires SubsInv(z) && LocksInv(z) && conn in z.ops && OpInv(z, conn, z.ops[conn])
    requires z.ops[conn].Closing? && z.ops[conn].scan == Released
    ensures SubsInv(CloseStep(z, conn, pick)) && LocksInv(CloseStep(z, conn, pick))
  {
    var z' := CloseStep(z, conn, pick);
    forall j: nat, u | j < |z.c.conns| ensures Expected(z', j, u) == Expected(z, j, u) {
      if z.lock[j].Some? {
        assert HoldsLock(z.ops[z.lock[j].value]) && z.ops[z.lock[j].value].srv == j;
      }
    }
  }

  lemma ReleaseKeepsRest(z: Fine, conn: Conn, pick: UserId)
    requires FineInv(z) && conn in z.ops && z.ops[conn].Closing? && z.ops[conn].scan == Released
    ensures RestInv(CloseStep(z, conn, pick))
  {
    var z' := CloseStep(z, conn, pick);
    assert OpInv(z, conn, z.ops[conn]);
    assert forall j, u :: Maps(z'.c, j, u) == Maps(z.c, j, u);
    ReleaseKeepsOps(z, conn, pick);
    ReleaseKeepsSubs(z, conn, pick);
    BackingKept(z, z', conn);
  }

  // ----- Every step, every run --------------------------------------------------------

  lemma AdvanceKeepsRest(z: Fine, conn: Conn, pick: UserId)
    requires FineInv(z) && conn in z.ops
    ensures RestInv(Advance(z, conn, pick))
  {
    match z.ops[conn]
    case LoggingIn(_, _, stage) =>
      match stage {
        case Checked => FetchKeepsRest(z, conn);
        case Fetched(_) => RemoveKeepsRest(z, conn);
        case Removed => MarkKeepsRest(z, conn);
        case Marked => InsertKeepsRest(z, conn);
        case Inserted => SubscribeKeepsRest(z, conn);
      }
    case LoggingOut(_, _, marked) =>
      if marked { UnsubscribeKeepsRest(z, conn); } else { MarkOfflineKeepsRest(z, conn); }
    case Closing(_, _, scan) =>
      match scan {
        case Erased => CloseUnsubscribeKeepsRest(z, conn, pick);
        case Scanning => ScanKeepsRest(z, conn, pick);
        case Released => ReleaseKeepsRest(z, conn, pick);
      }
  }

  lemma TakeKeepsRest(z: Fine, s: Step)
    requires FineInv(z) && Permitted(z, s)
    ensures RestInv(Take(z, s))
  {
    match s
    case LoginCheck(i, conn, js) => LoginCheckKeepsRest(z, i, conn, js);
    case Request(_, _, _, _) => RequestKeepsRest(z, s);
    case Read(i) => ReadKeepsRest(z, i);
    case Proceed(conn, pick) => if conn in z.ops { AdvanceKeepsRest(z, conn, pick); }
    case LogOutStart(i, conn, u) =>
      if conn !in z.ops && Free(z, i) && u in z.c.conns[i] {
        EraseKeepsRest(z, i, conn, u, LoggingOut(i, u, false));
      }
    case CloseStart(i, conn, u) =>
      if conn !in z.ops && Free(z, i) && u in BoundUsers(z.c.conns[i], conn) {
        EraseKeepsRest(z, i, conn, u, Closing(i, u, Erased));
      }
  }

  lemma TakeKeepsInv(z: Fine, s: Step)
    requires FineInv(z) && Permitted(z, s)
    ensures FineInv(Take(z, s))
  {
    TakeKeepsCore(z, s);
    TakeKeepsRest(z, s);
  }

  lemma {:induction false} ExecuteKeepsInv(z: Fine, steps: seq<Step>)
    requires FineInv(z) && PermittedRun(z, steps)
    ensures FineInv(Execute(z, steps))
  {
    if steps != [] {
      ExecuteKeepsInv(z, steps[..|steps| - 1]);
      TakeKeepsInv(Execute(z, steps[..|steps| - 1]), steps[|steps| - 1]);
    }
  }
}
