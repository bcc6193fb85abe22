/** Interleavings that do what the exact conditions say they can: a message lost, a
    message doubled, a subscription left behind. */
module Shortfalls {
  import opened ChatTypes
  import opened OfflineTable
  import opened RedisBroker
  import opened ChatServer
  import opened ClusterModel
  import opened Sessions
  import opened Accounting
  import opened SmallStep
  import opened SmallStepSafety
  import opened LossLedger

  // ----- Lost ----------------------------------------------------------------------------

  lemma OfflineIsNowhere(c: Cluster, u: UserId)
    requires Agree(c) && !IsOnline(c.world, u)
    ensures forall j :: !Maps(c, j, u)
    ensures Subscribers(c.world.inboxes, u) == 0
  {
    assert !MappedSomewhere(c, u);
    ThreeWayAgreement(c, u);
  }

  /** A private chat that reaches any process once a login of its user has marked
      the user online, and before it subscribes, is lost. */
  lemma SendIntoLoginIsLost(z: Fine, i: nat, conn: Conn, js: Json, k: nat, from: Conn, chat: Json,
                            insertId: int, pick: UserId)
    requires Quiet(z) && Agree(z.c) && i < |z.c.conns| && k < |z.c.conns| && LoginAccepted(z.c.world, js)
    requires chat.kind == Some(PRIVATE_CHAT_MSG) && chat.to == js.id
    ensures var marked := Proceeds(Take(z, LoginCheck(i, conn, js)), conn, pick, 3);
            Lost(marked, Request(k, from, chat, insertId)) == multiset{Copy(js.id.value, chat)}
  {
    var u := js.id.value;
    var m := MarkedBy(z, i, conn, u);
    LoginRunsToMark(z, i, conn, js, pick);
    OfflineIsNowhere(z.c, u);
    assert !Maps(z.c, k, u);
    OneTarget(m, k, from, chat, insertId, u);
  }

  lemma OneTarget(z: Fine, k: nat, from: Conn, chat: Json, insertId: int, u: UserId)
    requires k < |z.c.conns| && Free(z, k) && chat.kind == Some(PRIVATE_CHAT_MSG) && chat.to == Some(u)
    ensures var s, cp := Request(k, from, chat, insertId), Copy(u, chat);
            && Lost(z, s) == LostCopy(z.c.conns[k], z.c.world, cp)
            && Extra(z, s) == ExtraCopy(z.c.conns[k], z.c.world, cp)
  {
    var conns, w, users := z.c.conns[k], z.c.world, [u];
    assert Targets(w, chat) == users && users[..|users| - 1] == [];
    assert LostCopies(conns, w, [], chat) == multiset{} && ExtraCopies(conns, w, [], chat) == multiset{};
    assert LostCopies(conns, w, users, chat) == multiset{} + LostCopy(conns, w, Copy(u, chat));
    assert ExtraCopies(conns, w, users, chat) == multiset{} + ExtraCopy(conns, w, Copy(u, chat));
  }

  /** A message stored between a login's query and its delete is deleted unread. */
  lemma RowStoredMeanwhileIsLost(z: Fine, i: nat, conn: Conn, js: Json, k: nat, from: Conn, chat: Json,
                                 insertId: int, pick: UserId)
    requires Quiet(z) && Agree(z.c) && i < |z.c.conns| && k < |z.c.conns| && LoginAccepted(z.c.world, js)
    requires chat.kind == Some(PRIVATE_CHAT_MSG) && chat.to == js.id
    ensures var go := Proceed(conn, pick);
            var fetched := Take(Take(z, LoginCheck(i, conn, js)), go);
            Lost(Take(fetched, Request(k, from, chat, insertId)), go) == multiset{Copy(js.id.value, chat)}
  {
    var u, w := js.id.value, z.c.world;
    var offline, stored := MessagesFor(w.rows, u), w.(rows := w.rows + [Copy(u, chat)]);
    OfflineIsNowhere(z.c, u);
    assert !Maps(z.c, k, u);
    var fetched := z.(ops := z.ops[conn := LoggingIn(i, u, Fetched(offline))]);
    assert Take(Take(z, LoginCheck(i, conn, js)), Proceed(conn, pick)) == fetched;
    assert Take(fetched, Request(k, from, chat, insertId)) == SetWorld(fetched, stored);
    assert MessagesFor(stored.rows, u) == offline + [chat];
    assert (offline + [chat])[|offline|..] == [chat];
    assert AddressedTo(u, [chat]) == [Copy(u, chat)];
  }

  // ----- Doubled ---------------------------------------------------------------------------

  /** A user who logs in on process `j` while its logout on `i` is between the
      offline mark and the unsubscription is subscribed twice: a private chat from a
      third process is then doubled. */
  lemma SendDuringLogoutIsDoubled(z: Fine, i: nat, a: Conn, j: nat, b: Conn, js: Json, k: nat, from: Conn, chat: Json,
                                  insertId: int, pick: UserId)
    requires Quiet(z) && Agree(z.c) && j < |z.c.conns| && k < |z.c.conns| && i != j && k != i && k != j && a != b
    requires js.id.Some? && js.password.Some? && Maps(z.c, i, js.id.value)
    requires LoginRefusal(z.c.world.users, js.id.value, js.password.value) == Some(AlreadyOnline)
    requires chat.kind == Some(PRIVATE_CHAT_MSG) && chat.to == js.id
    ensures var leaving := Proceeds(Take(z, LogOutStart(i, a, js.id.value)), a, pick, 1);
            var back := Proceeds(Take(leaving, LoginCheck(j, b, js)), b, pick, 5);
            Extra(back, Request(k, from, chat, insertId)) == multiset{Copy(js.id.value, chat)}
  {
    var u := js.id.value;
    var leaving := LeavingBy(z, i, a, u);
    LogOutRunsToMark(z, i, a, u, pick);
    assert !Maps(z.c, j, u) && !Maps(z.c, k, u);
    assert LoginAccepted(leaving.c.world, js) && WellShaped(leaving);
    LoginRunsToEnd(leaving, j, b, js, pick);
    BackWhileLeaving(z, i, a, j, b, u);
    OneTarget(LoggedInBy(leaving, j, b, u), k, from, chat, insertId, u);
  }

  lemma BackWhileLeaving(z: Fine, i: nat, a: Conn, j: nat, b: Conn, u: UserId)
    requires Quiet(z) && Agree(z.c) && i != j && j < |z.c.conns| && Maps(z.c, i, u)
    ensures var r := LoggedInBy(LeavingBy(z, i, a, u), j, b, u);
            && IsOnline(r.c.world, u) && Subscribers(r.c.world.inboxes, u) == 2
            && (forall k: nat | k < |z.c.conns| && k != i && k != j :: u !in r.c.conns[k] && Free(r, k))
  {
    var r := LoggedInBy(LeavingBy(z, i, a, u), j, b, u);
    assert MappedSomewhere(z.c, u);
    forall n | 0 <= n < |r.c.world.inboxes| ensures u in r.c.world.inboxes[n].subs <==> n == i || n == j {
      assert u in z.c.world.inboxes[n].subs <==> Maps(z.c, n, u);
    }
    TwoSubscribers(r.c.world.inboxes, u, i, j);
    forall k: nat | k < |z.c.conns| && k != i && k != j ensures u !in r.c.conns[k] {
      assert !Maps(z.c, k, u);
    }
  }

  // ----- Left behind ----------------------------------------------------------------------

  /** Nothing runs, the user is offline and in no map, and process `i` is still
      subscribed to it. */
  ghost predicate LeftBehind(z: Fine, i: nat, u: UserId) {
    && Quiet(z) && !IsOnline(z.c.world, u) && (forall j :: !Maps(z.c, j, u))
    && i < |z.c.world.inboxes| && u in z.c.world.inboxes[i].subs
  }

  lemma InsertedIsReady(z: Fine, i: nat, conn: Conn, u: UserId)
    requires Quiet(z) && i < |z.c.conns| && u !in z.c.conns[i]
    ensures var r := InsertedBy(z, i, conn, u);
            && WellShaped(r) && Free(r, i) && Maps(r.c, i, u)
            && r.ops == map[conn := LoggingIn(i, u, Inserted)]
  {
  }

  /** The logout by `b`, then the last step of `a`. */
  lemma LogOutAgainst(z: Fine, i: nat, a: Conn, b: Conn, u: UserId, pick: UserId)
    requires WellShaped(z) && Free(z, i) && Maps(z.c, i, u) && a in z.ops && b !in z.ops && a != b
    requires z.ops[a] == LoggingIn(i, u, Inserted)
    ensures WellShaped(LeavingBy(z, i, b, u)) && WellShaped(LogOutStep(LeavingBy(z, i, b, u), b))
    ensures Proceeds(Proceeds(Take(z, LogOutStart(i, b, u)), b, pick, 2), a, pick, 1)
         == LoginStep(LogOutStep(LeavingBy(z, i, b, u), b), a)
  {
    var started, leaving := Take(z, LogOutStart(i, b, u)), LeavingBy(z, i, b, u);
    LogOutRunsToMark(z, i, b, u, pick);
    ProceedsOneMore(started, b, pick, 1);
    var out := LogOutStep(leaving, b);
    assert Take(leaving, Proceed(b, pick)) == out;
    ProceedsOneMore(out, a, pick, 0);
    assert Proceeds(out, a, pick, 1) == Take(out, Proceed(a, pick)) == LoginStep(out, a);
  }

  /** Why an exact account of the subscriptions needs logouts to spare a user between
      the insert and the subscription of its login: wherever one does not, three more
      steps leave the user offline, not mapped there and still subscribed. */
  lemma LogoutOfInsertedLeavesSubscription(z: Fine, i: nat, a: Conn, b: Conn, u: UserId, pick: UserId)
    requires FineInv(z) && Free(z, i) && Maps(z.c, i, u) && b !in z.ops && z.c.conns[i][u] == a
    requires !SparesInserted(z, LogOutStart(i, b, u))
    ensures var r := Proceeds(Proceeds(Take(z, LogOutStart(i, b, u)), b, pick, 2), a, pick, 1);
            && r.ops == z.ops - {a} && !IsOnline(r.c.world, u) && (forall j :: !Maps(r.c, j, u))
            && i < |r.c.world.inboxes| && u in r.c.world.inboxes[i].subs
  {
    LogOutAgainst(z, i, a, b, u, pick);
    var out := LogOutStep(LeavingBy(z, i, b, u), b);
    var r := LoginStep(out, a);
    assert out.ops == z.ops;
    assert forall j :: Maps(r.c, j, u) ==> Maps(z.c, j, u) && j != i;
  }

  /** From any quiet state such a logout, by another connection, ends with nothing
      running. */
  lemma ForeignLogoutLeavesSubscription(z: Fine, i: nat, a: Conn, b: Conn, js: Json, pick: UserId)
    requires Quiet(z) && Agree(z.c) && i < |z.c.conns| && a != b && LoginAccepted(z.c.world, js)
    ensures var u := js.id.value;
            var inserted := Proceeds(Take(z, LoginCheck(i, a, js)), a, pick, 4);
            var out := Proceeds(Take(inserted, LogOutStart(i, b, u)), b, pick, 2);
            var r := Proceeds(out, a, pick, 1);
            LeftBehind(r, i, u)
  {
    var u := js.id.value;
    OfflineIsNowhere(z.c, u);
    assert !Maps(z.c, i, u);
    LoginRunsToEntry(z, i, a, js, pick);
    InsertedIsReady(z, i, a, u);
    LogOutAgainst(InsertedBy(z, i, a, u), i, a, b, u, pick);
    SubscribedAfterAll(z, i, a, b, u);
  }

  lemma SubscribedAfterAll(z: Fine, i: nat, a: Conn, b: Conn, u: UserId)
    requires Quiet(z) && i < |z.c.conns| && a != b && forall j :: !Maps(z.c, j, u)
    requires WellShaped(LeavingBy(InsertedBy(z, i, a, u), i, b, u))
    ensures var r := LoginStep(LogOutStep(LeavingBy(InsertedBy(z, i, a, u), i, b, u), b), a);
            LeftBehind(r, i, u)
  {
    var out := LogOutStep(LeavingBy(InsertedBy(z, i, a, u), i, b, u), b);
    var r := LoginStep(out, a);
    assert out.ops == z.ops[a := LoggingIn(i, u, Inserted)];
    assert r.ops == map[];
    assert forall j :: Maps(r.c, j, u) ==> Maps(z.c, j, u);
  }
}
