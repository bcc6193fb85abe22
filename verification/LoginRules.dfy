/** Who is let in, and what a login is answered. */
module LoginRules {
  import opened ChatTypes
  import opened OfflineTable
  import opened ChatServer
  import opened ClusterModel
  import opened Sessions
  import opened Accounting
  import opened SmallStep

  /** The request names a registered offline account and its password. */
  predicate RightLogin(w: World, js: Json) {
    && js.id.Some? && js.password.Some?
    && js.id.value in w.users && js.id.value != -1
    && js.password.value == w.users[js.id.value].password
    && w.users[js.id.value].state == Offline
  }

  /** A login is accepted if and only if it is right. (Key -1 stands for no row.) */
  lemma AcceptedExactly(w: World, js: Json)
    ensures LoginAccepted(w, js) <==> RightLogin(w, js)
  {
  }

  /** The one reply to `conn` is all that a refused login changes. */
  function Answered(c: Cluster, conn: Conn, id: UserId, reason: Refusal): Cluster {
    c.(world := c.world.(wire := c.world.wire + [Reply(conn, id, Refused(reason))]))
  }

  /** The refusals, in the order the handler makes them: nobody by that id, the wrong
      password, already online; and nothing at all for an incomplete request. */
  lemma RefusedLogin(c: Cluster, i: nat, conn: Conn, js: Json, insertId: int)
    requires WellFormed(c) && i < |c.conns| && js.kind == Some(LOGIN_MSG) && !RightLogin(c.world, js)
    ensures var r, users := Apply(c, Message(i, conn, js, insertId)), c.world.users;
            if js.id.None? || js.password.None? then r == c
            else
              var id := js.id.value;
              if id == -1 || id !in users then r == Answered(c, conn, id, NoSuchUser)
              else if js.password.value != users[id].password then r == Answered(c, conn, id, WrongPassword)
              else r == Answered(c, conn, id, AlreadyOnline)
  {
  }

  /** The account keeps its name and its password and is online. */
  predicate GoesOnline(w: World, w': World, id: UserId)
    requires id in w.users
  {
    w'.users == w.users[id := Account(w.users[id].name, w.users[id].password, Online)]
  }

  /** A right login is answered with the account's name and all its stored messages,
      which are then deleted; the user goes online, is mapped to this connection if it
      was not mapped, and subscribed. Nothing else changes. */
  lemma AcceptedLogin(c: Cluster, i: nat, conn: Conn, js: Json, insertId: int)
    requires WellFormed(c) && i < |c.conns| && js.kind == Some(LOGIN_MSG) && RightLogin(c.world, js)
    ensures var r, w, id := Apply(c, Message(i, conn, js, insertId)), c.world, js.id.value;
            && r.world.wire == w.wire + [Reply(conn, id, Accepted(w.users[id].name, MessagesFor(w.rows, id)))]
            && MessagesFor(r.world.rows, id) == []
            && (forall u | u != id :: MessagesFor(r.world.rows, u) == MessagesFor(w.rows, u))
            && GoesOnline(w, r.world, id)
            && (forall j: nat, u | j < |c.conns| ::
                  u in r.conns[j] <==> u in c.conns[j] || (j == i && u == id))
            && (id !in c.conns[i] ==> r.conns[i][id] == conn)
            && (forall j: nat, u | j < |c.conns| && u in c.conns[j] :: r.conns[j][u] == c.conns[j][u])
            && |r.world.inboxes| == |w.inboxes|
            && (forall j: nat, u | j < |c.conns| ::
                  u in r.world.inboxes[j].subs <==> u in w.inboxes[j].subs || (j == i && u == id))
            && (forall j: nat | j < |c.conns| :: r.world.inboxes[j].queue == w.inboxes[j].queue)
            && r.world.groups == w.groups && r.world.members == w.members
  {
    var w, id := c.world, js.id.value;
    forall u ensures MessagesFor(WithoutRows(w.rows, id), u) == if u == id then [] else MessagesFor(w.rows, u) {
      RowsLeft(w.rows, id, u);
    }
  }

  /** The delete takes the messages of one user and of nobody else. */
  lemma {:induction false} RowsLeft(rows: seq<Copy>, gone: UserId, u: UserId)
    ensures MessagesFor(WithoutRows(rows, gone), u) == if u == gone then [] else MessagesFor(rows, u)
  {
    if rows != [] {
      var before, last := rows[..|rows| - 1], rows[|rows| - 1];
      assert rows == before + [last];
      RowsLeft(before, gone, u);
      OneMoreMessage(before, last, gone);
      OneMoreMessage(before, last, u);
      OneMoreMessage(WithoutRows(before, gone), last, u);
    }
  }

  // ----- Over runs -----------------------------------------------------------------------

  /** Event `k` was a login on process `i` that named `u` and the password `u` had. */
  ghost predicate LetIn(c: Cluster, events: seq<Event>, k: nat, i: nat, u: UserId)
    requires WellFormed(c)
  {
    k < |events| && events[k].Message? && events[k].srv == i &&
    var js, users := events[k].js, Run(c, events[..k]).world.users;
    js.kind == Some(LOGIN_MSG) && js.id == Some(u) && u in users && js.password == Some(users[u].password)
  }

  /** Where an entry of a map comes from. */
  ghost predicate KeptOrLetIn(c: Cluster, events: seq<Event>, i: nat, u: UserId)
    requires WellFormed(c) && Maps(Run(c, events), i, u)
  {
    var conn := Run(c, events).conns[i][u];
    || (Maps(c, i, u) && c.conns[i][u] == conn)
    || (exists k: nat :: LetIn(c, events, k, i, u) && events[k].conn == conn)
  }

  /** Only a right login makes a new entry. */
  lemma NewEntry(c: Cluster, e: Event, i: nat, u: UserId)
    requires WellFormed(c) && Maps(Apply(c, e), i, u)
    ensures (Maps(c, i, u) && c.conns[i][u] == Apply(c, e).conns[i][u])
         || (e.Message? && e.srv == i && e.js.kind == Some(LOGIN_MSG) && e.js.id == Some(u) &&
             RightLogin(c.world, e.js) && e.conn == Apply(c, e).conns[i][u])
  {
    if e.Message? {
      AcceptedExactly(c.world, e.js);
    }
  }

  /** Whoever is mapped after a run was mapped to that connection before, or logged in
      over it with the account's password at some step: no other request, no close,
      no receive and no shutdown ever lets anybody in. */
  lemma {:induction false} MappedByPassword(c: Cluster, events: seq<Event>, i: nat, u: UserId)
    requires WellFormed(c) && Maps(Run(c, events), i, u)
    ensures KeptOrLetIn(c, events, i, u)
  {
    if events != [] {
      var n := |events| - 1;
      var before, e := events[..n], events[n];
      var b := Run(c, before);
      NewEntry(b, e, i, u);
      if Maps(b, i, u) && b.conns[i][u] == Run(c, events).conns[i][u] {
        assert Apply(b, e) == Run(c, events);
        MappedByPassword(c, before, i, u);
        if k: nat :| LetIn(c, before, k, i, u) && before[k].conn == b.conns[i][u] {
          assert before[..k] == events[..k];
          assert LetIn(c, events, k, i, u);
        }
      } else {
        assert LetIn(c, events, n, i, u);
      }
    }
  }

  // ----- Over interleavings ----------------------------------------------------------------

  /** Step `k` was the check of a right login of `u` over `conn` on process `i`. */
  ghost predicate CheckedAt(z: Fine, steps: seq<Step>, k: nat, i: nat, conn: Conn, u: UserId)
    requires WellShaped(z)
  {
    k < |steps| && steps[k].LoginCheck? && steps[k].srv == i && steps[k].conn == conn &&
    steps[k].js.id == Some(u) && RightLogin(Execute(z, steps[..k]).c.world, steps[k].js)
  }

  ghost predicate Checked(z: Fine, steps: seq<Step>, i: nat, conn: Conn, u: UserId)
    requires WellShaped(z)
  {
    exists k: nat :: CheckedAt(z, steps, k, i, conn, u)
  }

  lemma CheckedBefore(z: Fine, steps: seq<Step>, i: nat, conn: Conn, u: UserId)
    requires WellShaped(z) && steps != [] && Checked(z, steps[..|steps| - 1], i, conn, u)
    ensures Checked(z, steps, i, conn, u)
  {
    var before := steps[..|steps| - 1];
    var k: nat :| CheckedAt(z, before, k, i, conn, u);
    assert before[..k] == steps[..k];
    assert CheckedAt(z, steps, k, i, conn, u);
  }

  /** A login under way was under way before, or its check has just passed. */
  lemma NewLogin(z: Fine, s: Step, conn: Conn)
    requires WellShaped(z) && conn in Take(z, s).ops && Take(z, s).ops[conn].LoggingIn?
    ensures var op := Take(z, s).ops[conn];
            || (conn in z.ops && z.ops[conn].LoggingIn? && z.ops[conn].srv == op.srv && z.ops[conn].user == op.user)
            || (s.LoginCheck? && s.conn == conn && s.srv == op.srv && s.js.id == Some(op.user) &&
                RightLogin(z.c.world, s.js))
  {
    if s.LoginCheck? {
      AcceptedExactly(z.c.world, s.js);
    }
  }

  /** An entry was there before, or is the work of a login under way. */
  lemma NewEntryOf(z: Fine, s: Step, i: nat, u: UserId)
    requires WellShaped(z) && Maps(Take(z, s).c, i, u)
    ensures var conn := Take(z, s).c.conns[i][u];
            || (Maps(z.c, i, u) && z.c.conns[i][u] == conn)
            || (conn in z.ops && z.ops[conn].LoggingIn? && z.ops[conn].srv == i && z.ops[conn].user == u)
  {
  }

  lemma {:induction false} LoginsWereChecked(z: Fine, steps: seq<Step>, conn: Conn)
    requires Quiet(z) && conn in Execute(z, steps).ops && Execute(z, steps).ops[conn].LoggingIn?
    ensures var op := Execute(z, steps).ops[conn]; Checked(z, steps, op.srv, conn, op.user)
  {
    if steps != [] {
      var n := |steps| - 1;
      var b, op := Execute(z, steps[..n]), Execute(z, steps).ops[conn];
      NewLogin(b, steps[n], conn);
      if conn in b.ops && b.ops[conn].LoggingIn? && b.ops[conn].srv == op.srv && b.ops[conn].user == op.user {
        LoginsWereChecked(z, steps[..n], conn);
        CheckedBefore(z, steps, op.srv, conn, op.user);
      } else {
        assert CheckedAt(z, steps, n, op.srv, conn, op.user);
      }
    }
  }

  /** However the handlers interleave, and whatever else is asked: whoever is mapped was
      mapped to that connection before, or passed the check of its own password over it
      on that process. */
  lemma {:induction false} MappedByPasswordInterleaved(z: Fine, steps: seq<Step>, i: nat, u: UserId)
    requires Quiet(z) && Maps(Execute(z, steps).c, i, u)
    ensures var conn := Execute(z, steps).c.conns[i][u];
            (Maps(z.c, i, u) && z.c.conns[i][u] == conn) || Checked(z, steps, i, conn, u)
  {
    if steps != [] {
      var n := |steps| - 1;
      var b, conn := Execute(z, steps[..n]), Execute(z, steps).c.conns[i][u];
      NewEntryOf(b, steps[n], i, u);
      if Maps(b.c, i, u) && b.c.conns[i][u] == conn {
        MappedByPasswordInterleaved(z, steps[..n], i, u);
        if Checked(z, steps[..n], i, conn, u) {
          CheckedBefore(z, steps, i, conn, u);
        }
      } else {
        LoginsWereChecked(z, steps[..n], conn);
        CheckedBefore(z, steps, i, conn, u);
      }
    }
  }
}
