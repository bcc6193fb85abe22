/** No misdelivery while handlers interleave. */
module FineDelivery {
  import opened ChatTypes
  import opened UserTable
  import opened OfflineTable
  import opened ClusterModel
  import opened Accounting
  import opened Delivery
  import opened SmallStep
  import opened SessionUniqueness
  import opened SmallStepSafety

  /** The socket writes of a step. */
  function Writes(z: Fine, z': Fine): seq<Frame> {
    var wire, wire' := z.c.world.wire, z'.c.world.wire;
    if |wire| <= |wire'| then wire'[|wire|..] else []
  }

  /** A chat message goes to a connection that carries, at that moment, the one user it
      is addressed to; a login reply to the connection whose login of that user is
      under way, with messages addressed to that user. */
  ghost predicate WrittenRight(z: Fine, s: Step, members: seq<Member>, f: Frame) {
    match f
    case Chat(conn, user, msg, _) =>
      && (s.Request? || s.Read?) && s.srv < |z.c.conns|
      && BoundUsers(z.c.conns[s.srv], conn) == {user} && Addressed(members, Copy(user, msg))
    case Reply(conn, id, Accepted(_, offline)) =>
      && s.Proceed? && s.conn == conn && conn in z.ops && z.ops[conn].LoggingIn? && z.ops[conn].user == id
      && forall m | m in offline :: Addressed(members, Copy(id, m))
    case Reply(conn, _, Refused(_)) => s.LoginCheck? && s.conn == conn
  }

  ghost predicate StepWritesRight(z: Fine, s: Step)
    requires WellShaped(z)
  {
    var z' := Take(z, s);
    && WellAddressed(z'.c.world)
    && z.c.world.wire <= z'.c.world.wire
    && forall f | f in Writes(z, z') :: WrittenRight(z, s, z'.c.world.members, f)
  }

  /** A send or a receive is the atomic step. */
  lemma SendWritesRight(z: Fine, s: Step)
    requires FineInv(z) && WellAddressed(z.c.world) && (s.Request? || s.Read?) && Take(z, s) != z
    ensures StepWritesRight(z, s)
  {
    var e := if s.Request? then Message(s.srv, s.conn, s.js, s.insertId) else Receive(s.srv);
    SendIsEvent(z, s, e);
    PlainStepIsRight(z.c, e);
    OnlyChatIsWritten(z.c, e);
    var z' := Take(z, s);
    assert Writes(z, z') == NewFrames(z.c, e);
    forall f | f in Writes(z, z') ensures WrittenRight(z, s, z'.c.world.members, f) {
      assert RightlyWritten(z'.c.conns[e.srv], z'.c.world.members, f);
    }
  }

  lemma SendIsEvent(z: Fine, s: Step, e: Event)
    requires WellShaped(z) && Take(z, s) != z
    requires (s.Request? && e == Message(s.srv, s.conn, s.js, s.insertId)) || (s.Read? && e == Receive(s.srv))
    ensures s.srv < |z.c.conns| && (s.Request? ==> s.js.kind != Some(LOGIN_MSG) && s.js.kind != Some(LOG_OUT_MSG))
    ensures Take(z, s).c == Apply(z.c, e) && Apply(z.c, e).conns == z.c.conns
  {
    if s.Request? {
      RequestCollapses(z, s.srv, s.conn, s.js, s.insertId);
    } else {
      ReadCollapses(z, s.srv);
    }
  }

  lemma OnlyChatIsWritten(c: Cluster, e: Event)
    requires WellFormed(c) && (e.Receive? || (e.Message? && e.js.kind != Some(LOGIN_MSG)))
    ensures forall f | f in NewFrames(c, e) :: f.Chat?
  {
    if e.srv < |c.conns| && e.Message? && IsChat(e.js) {
      ChatStep(c, e.srv, e.conn, e.js, e.insertId);
      SendAdds(c.conns[e.srv], c.world, Targets(c.world, e.js), e.js);
    }
  }

  /** The step of a login that writes its reply and deletes the rows. */
  lemma ReplyWritesRight(z: Fine, conn: Conn, pick: UserId)
    requires FineInv(z) && WellAddressed(z.c.world) && conn in z.ops
    requires z.ops[conn].LoggingIn? && z.ops[conn].stage.Fetched?
    ensures StepWritesRight(z, Proceed(conn, pick))
  {
    var op, w := z.ops[conn], z.c.world;
    FetchedIsAddressed(z, conn);
    NoRowsLeft(w.rows, op.user);
    var f := Reply(conn, op.user, Accepted(QueryUser(w.users, op.user).name, op.stage.offline));
    assert Writes(z, LoginStep(z, conn)) == [f];
  }

  lemma FetchedIsAddressed(z: Fine, conn: Conn)
    requires CoreInv(z) && WellAddressed(z.c.world) && conn in z.ops
    requires z.ops[conn].LoggingIn? && z.ops[conn].stage.Fetched?
    ensures forall m | m in z.ops[conn].stage.offline :: Addressed(z.c.world.members, Copy(z.ops[conn].user, m))
  {
    var op, w := z.ops[conn], z.c.world;
    assert StandInv(z, op);
    MessagesAreRows(w.rows, op.user);
    assert forall m | m in op.stage.offline :: m in MessagesFor(w.rows, op.user);
  }

  lemma OtherAdvanceWritesNothing(z: Fine, conn: Conn, pick: UserId)
    requires WellShaped(z) && WellAddressed(z.c.world) && conn in z.ops
    requires !(z.ops[conn].LoggingIn? && z.ops[conn].stage.Fetched?)
    ensures StepWritesRight(z, Proceed(conn, pick))
  {
    var w, w' := z.c.world, Advance(z, conn, pick).c.world;
    assert w'.wire == w.wire && w'.rows == w.rows && w'.members == w.members;
    assert |w'.inboxes| == |w.inboxes| && forall i | 0 <= i < |w.inboxes| :: w'.inboxes[i].queue == w.inboxes[i].queue;
  }

  lemma StartWritesRight(z: Fine, s: Step)
    requires WellShaped(z) && WellAddressed(z.c.world) && (s.LoginCheck? || s.LogOutStart? || s.CloseStart?)
    ensures StepWritesRight(z, s)
  {
  }

  lemma StandsStillRight(z: Fine, s: Step)
    requires WellShaped(z) && WellAddressed(z.c.world) && Take(z, s) == z
    ensures StepWritesRight(z, s)
  {
  }

  /** One step of any interleaving. */
  lemma FineStepIsRight(z: Fine, s: Step)
    requires FineInv(z) && WellAddressed(z.c.world)
    ensures StepWritesRight(z, s)
  {
    if Take(z, s) == z {
      StandsStillRight(z, s);
    } else {
      match s
      case Request(_, _, _, _) => SendWritesRight(z, s);
      case Read(_) => SendWritesRight(z, s);
      case Proceed(conn, pick) =>
        if z.ops[conn].LoggingIn? && z.ops[conn].stage.Fetched? {
          ReplyWritesRight(z, conn, pick);
        } else {
          OtherAdvanceWritesNothing(z, conn, pick);
        }
      case _ => StartWritesRight(z, s);
    }
  }

  /** Whatever the interleaving, no chat message, direct, published or in a login
      reply, reaches anyone but the user its content names. */
  lemma {:induction false} NoMisdeliveryInterleaved(z: Fine, steps: seq<Step>, s: Step)
    requires FineInv(z) && WellAddressed(z.c.world) && PermittedRun(z, steps)
    ensures StepWritesRight(Execute(z, steps), s)
  {
    if steps != [] {
      NoMisdeliveryInterleaved(z, steps[..|steps| - 1], steps[|steps| - 1]);
    }
    ExecuteKeepsInv(z, steps);
    FineStepIsRight(Execute(z, steps), s);
  }
}
