/** What interleaving costs: the exact ledger of lost and extra copies. */
module LossLedger {
  import opened ChatTypes
  import opened UserTable
  import opened OfflineTable
  import opened RedisBroker
  import opened ChatServer
  import opened ClusterModel
  import opened Sessions
  import opened Accounting
  import opened Mailbox
  import opened SmallStep
  import opened SessionUniqueness
  import opened SmallStepSafety

  // ----- The ledger -------------------------------------------------------------------

  /** A chat request that does not have to wait. */
  predicate Sends(z: Fine, s: Step) {
    s.Request? && Free(z, s.srv) && s.srv < |z.c.conns| && IsChat(s.js)
  }

  /** A login about to write its reply and delete the rows. */
  predicate Deletes(z: Fine, s: Step) {
    s.Proceed? && s.conn in z.ops && z.ops[s.conn].LoggingIn? && z.ops[s.conn].stage.Fetched?
  }

  function Sent(z: Fine, s: Step): Bag {
    if Sends(z, s) then CopiesFor(Targets(z.c.world, s.js), s.js) else multiset{}
  }

  /** The messages stored for a user after the first `n`. */
  function StoredSince(w: World, u: UserId, n: nat): seq<Json> {
    var msgs := MessagesFor(w.rows, u);
    if n <= |msgs| then msgs[n..] else []
  }

  /** Rows stored between a login's query and its delete are deleted unread; a
      copy published to no subscriber goes nowhere. */
  function Lost(z: Fine, s: Step): Bag {
    if Deletes(z, s) then
      var op := z.ops[s.conn];
      multiset(AddressedTo(op.user, StoredSince(z.c.world, op.user, |op.stage.offline|)))
    else if Sends(z, s) then LostCopies(z.c.conns[s.srv], z.c.world, Targets(z.c.world, s.js), s.js)
    else multiset{}
  }

  function Extra(z: Fine, s: Step): Bag {
    if Sends(z, s) then ExtraCopies(z.c.conns[s.srv], z.c.world, Targets(z.c.world, s.js), s.js) else multiset{}
  }

  lemma SplitAddressed(id: UserId, all: seq<Json>, n: nat)
    requires n <= |all|
    ensures multiset(AddressedTo(id, all)) == multiset(AddressedTo(id, all[..n])) + multiset(AddressedTo(id, all[n..]))
  {
    assert AddressedTo(id, all) == AddressedTo(id, all[..n]) + AddressedTo(id, all[n..]);
  }

  lemma DeleteBalance(delivered: Bag, got: Bag, unread: Bag, kept: Bag, rows: Bag, queued: Bag)
    requires (got + unread) + kept == rows
    ensures ((delivered + got) + (kept + queued)) + unread == delivered + (rows + queued)
  {
  }

  lemma FetchedThenRest(rows: seq<Copy>, u: UserId, offline: seq<Json>)
    requires offline <= MessagesFor(rows, u)
    ensures var since := MessagesFor(rows, u)[|offline|..];
            (multiset(AddressedTo(u, offline)) + multiset(AddressedTo(u, since))) + multiset(WithoutRows(rows, u))
            == multiset(rows)
  {
    var all := MessagesFor(rows, u);
    assert all[..|offline|] == offline;
    SplitAddressed(u, all, |offline|);
    RowsSplit(rows, u);
  }

  /** What a delete leaves. */
  function Deleted(w: World, conn: Conn, u: UserId, offline: seq<Json>): World {
    w.(wire := w.wire + [Reply(conn, u, Accepted(QueryUser(w.users, u).name, offline))],
       rows := WithoutRows(w.rows, u))
  }

  lemma DeletedTotal(w: World, conn: Conn, u: UserId, offline: seq<Json>)
    requires offline <= MessagesFor(w.rows, u)
    ensures var unread := MessagesFor(w.rows, u)[|offline|..];
            Total(Deleted(w, conn, u, offline)) + multiset(AddressedTo(u, unread)) == Total(w)
  {
    FetchedThenRest(w.rows, u, offline);
    DeliveredAppend(w.wire, Reply(conn, u, Accepted(QueryUser(w.users, u).name, offline)));
    DeleteBalance(Delivered(w.wire), multiset(AddressedTo(u, offline)),
                  multiset(AddressedTo(u, MessagesFor(w.rows, u)[|offline|..])),
                  multiset(WithoutRows(w.rows, u)), multiset(w.rows), Queued(w.inboxes));
  }

  lemma DeleteIsDeleted(z: Fine, s: Step)
    requires CoreInv(z) && Deletes(z, s)
    ensures var op, w := z.ops[s.conn], z.c.world;
            var msgs := MessagesFor(w.rows, op.user);
            && Take(z, s).c.world == Deleted(w, s.conn, op.user, op.stage.offline)
            && op.stage.offline <= msgs
            && Lost(z, s) == multiset(AddressedTo(op.user, msgs[|op.stage.offline|..]))
  {
    assert StandInv(z, z.ops[s.conn]);
  }

  lemma DeleteBalances(z: Fine, s: Step)
    requires CoreInv(z) && Deletes(z, s)
    ensures Total(Take(z, s).c.world) + Lost(z, s) == Total(z.c.world)
  {
    DeleteIsDeleted(z, s);
    DeletedTotal(z.c.world, s.conn, z.ops[s.conn].user, z.ops[s.conn].stage.offline);
  }

  /** What a send leaves. */
  lemma SendIsRouteAll(z: Fine, s: Step)
    requires WellShaped(z) && Sends(z, s)
    ensures Take(z, s).c.world == RouteAll(z.c.conns[s.srv], z.c.world, Targets(z.c.world, s.js), s.js)
  {
    ChatIsFanOut(s.srv, z.c.conns[s.srv], z.c.world, s.conn, s.js, s.insertId);
  }

  lemma SendBalances(z: Fine, s: Step)
    requires WellShaped(z) && Sends(z, s)
    ensures Total(Take(z, s).c.world) + Lost(z, s) == Total(z.c.world) + Sent(z, s) + Extra(z, s)
  {
    SendIsRouteAll(z, s);
    SendLedger(z.c.conns[s.srv], z.c.world, Targets(z.c.world, s.js), s.js);
  }

  lemma ReadStepKeepsTotal(z: Fine, i: nat)
    requires WellShaped(z)
    ensures Total(Take(z, Read(i)).c.world) == Total(z.c.world)
  {
    if Free(z, i) {
      ReceiveKeepsTotal(i, z.c.conns[i], z.c.world);
    }
  }

  lemma RefuseKeepsTotal(w: World, conn: Conn, id: UserId, reason: Refusal)
    ensures Total(Refuse(w, conn, id, reason)) == Total(w)
  {
  }

  lemma {:induction false} SameQueues(a: seq<Inbox>, b: seq<Inbox>)
    requires |a| == |b| && forall i | 0 <= i < |a| :: a[i].queue == b[i].queue
    ensures Queued(a) == Queued(b)
  {
    if a != [] {
      SameQueues(a[..|a| - 1], b[..|b| - 1]);
    }
  }

  lemma AdvanceKeepsTotal(z: Fine, conn: Conn, pick: UserId)
    requires WellShaped(z) && conn in z.ops && !(z.ops[conn].LoggingIn? && z.ops[conn].stage.Fetched?)
    ensures Total(Advance(z, conn, pick).c.world) == Total(z.c.world)
  {
    var w, w' := z.c.world, Advance(z, conn, pick).c.world;
    assert w'.wire == w.wire && w'.rows == w.rows;
    SameQueues(w.inboxes, w'.inboxes);
  }

  lemma CheckKeepsTotal(z: Fine, i: nat, conn: Conn, js: Json)
    requires WellShaped(z)
    ensures Total(Take(z, LoginCheck(i, conn, js)).c.world) == Total(z.c.world)
  {
    if js.id.Some? && js.password.Some? {
      var refusal := LoginRefusal(z.c.world.users, js.id.value, js.password.value);
      if refusal.Some? {
        RefuseKeepsTotal(z.c.world, conn, js.id.value, refusal.value);
      }
    }
  }

  lemma QuietRequestKeepsTotal(z: Fine, s: Step)
    requires WellShaped(z) && s.Request? && !Sends(z, s)
    ensures Total(Take(z, s).c.world) == Total(z.c.world)
  {
    var w, w' := z.c.world, Take(z, s).c.world;
    assert w'.wire == w.wire && w'.rows == w.rows && w'.inboxes == w.inboxes;
  }

  lemma StartKeepsTotal(z: Fine, s: Step)
    requires WellShaped(z) && (s.LogOutStart? || s.CloseStart?)
    ensures Total(Take(z, s).c.world) == Total(z.c.world)
  {
    assert Take(z, s).c.world == z.c.world;
  }

  lemma ProceedKeepsTotal(z: Fine, s: Step)
    requires WellShaped(z) && s.Proceed? && !Deletes(z, s)
    ensures Total(Take(z, s).c.world) == Total(z.c.world)
  {
    if s.conn in z.ops {
      assert Take(z, s) == Advance(z, s.conn, s.pick);
      AdvanceKeepsTotal(z, s.conn, s.pick);
    } else {
      assert Take(z, s) == z;
    }
  }

  lemma OtherStepsBalance(z: Fine, s: Step)
    requires WellShaped(z) && !Sends(z, s) && !Deletes(z, s)
    ensures Total(Take(z, s).c.world) == Total(z.c.world)
  {
    if s.LoginCheck? {
      CheckKeepsTotal(z, s.srv, s.conn, s.js);
    } else if s.Read? {
      ReadStepKeepsTotal(z, s.srv);
    } else if s.Request? {
      QuietRequestKeepsTotal(z, s);
    } else if s.Proceed? {
      ProceedKeepsTotal(z, s);
    } else {
      StartKeepsTotal(z, s);
    }
  }

  /** The balance of one step, in every state an interleaving can reach. */
  lemma StepLedger(z: Fine, s: Step)
    requires CoreInv(z)
    ensures Total(Take(z, s).c.world) + Lost(z, s) == Total(z.c.world) + Sent(z, s) + Extra(z, s)
  {
    if Deletes(z, s) {
      DeleteBalances(z, s);
    } else if Sends(z, s) {
      SendBalances(z, s);
    } else {
      OtherStepsBalance(z, s);
    }
  }

  function SentIn(z: Fine, steps: seq<Step>): Bag
    requires WellShaped(z)
  {
    if steps == [] then multiset{}
    else SentIn(z, steps[..|steps| - 1]) + Sent(Execute(z, steps[..|steps| - 1]), steps[|steps| - 1])
  }

  function LostIn(z: Fine, steps: seq<Step>): Bag
    requires WellShaped(z)
  {
    if steps == [] then multiset{}
    else LostIn(z, steps[..|steps| - 1]) + Lost(Execute(z, steps[..|steps| - 1]), steps[|steps| - 1])
  }

  function ExtraIn(z: Fine, steps: seq<Step>): Bag
    requires WellShaped(z)
  {
    if steps == [] then multiset{}
    else ExtraIn(z, steps[..|steps| - 1]) + Extra(Execute(z, steps[..|steps| - 1]), steps[|steps| - 1])
  }

  /** The exact loss ledger, over every interleaving: what was there and was sent,
      plus the extra copies, is delivered, stored, queued or lost. */
  lemma {:induction false} Ledger(z: Fine, steps: seq<Step>)
    requires CoreInv(z) && NoOverlapRun(z, steps)
    ensures Total(Execute(z, steps).c.world) + LostIn(z, steps)
         == Total(z.c.world) + SentIn(z, steps) + ExtraIn(z, steps)
  {
    if steps != [] {
      var before, s := steps[..|steps| - 1], steps[|steps| - 1];
      var b := Execute(z, before);
      Ledger(z, before);
      ExecuteKeepsCore(z, before);
      StepLedger(b, s);
      RegroupBalance(Total(z.c.world), Total(b.c.world), Total(Take(b, s).c.world),
                     LostIn(z, before), Lost(b, s), SentIn(z, before), Sent(b, s), ExtraIn(z, before), Extra(b, s));
    }
  }

  // ----- When copies are lost or doubled ------------------------------------------------

  /** From the online mark of a login to its subscription (lines 110 to 118), or
      from the unsubscription of a close to its offline mark (152 to 158). */
  predicate InGap(op: Op) {
    || (op.LoggingIn? && (op.stage == Marked || op.stage == Inserted))
    || (op.Closing? && op.scan != Erased)
  }

  ghost predicate GapOpen(z: Fine, u: UserId) {
    exists conn :: conn in z.ops && z.ops[conn].user == u && InGap(z.ops[conn])
  }

  /** A logout of the user on process `i` is between its offline mark and its
      unsubscription (lines 250 to 252). */
  predicate Lingers(z: Fine, i: nat, u: UserId) {
    i < |z.lock| && z.lock[i].Some? && z.lock[i].value in z.ops
    && z.ops[z.lock[i].value] == LoggingOut(i, u, true)
  }

  /** On how many of the first `n` processes it does. */
  function LingeringUpTo(z: Fine, n: nat, u: UserId): nat {
    if n == 0 then 0 else LingeringUpTo(z, n - 1, u) + (if Lingers(z, n - 1, u) then 1 else 0)
  }

  function Lingering(z: Fine, u: UserId): nat {
    LingeringUpTo(z, |z.lock|, u)
  }

  lemma {:induction false} CountHomeAndLingering(z: Fine, inboxes: seq<Inbox>, u: UserId, home: int)
    requires forall i: nat | i < |inboxes| :: u in inboxes[i].subs <==> Lingers(z, i, u) || i == home
    requires forall i: nat | i < |inboxes| && i == home :: !Lingers(z, i, u)
    ensures Subscribers(inboxes, u) == LingeringUpTo(z, |inboxes|, u) + (if 0 <= home < |inboxes| then 1 else 0)
  {
    if inboxes != [] {
      var n := |inboxes| - 1;
      CountHomeAndLingering(z, inboxes[..n], u, home);
      assert inboxes[n].subs == inboxes[n].subs;
    }
  }

  /** In a gap the only subscriptions left are those of lingering logouts. */
  lemma OnlyLingering(z: Fine, u: UserId, i: nat)
    requires FineInv(z) && GapOpen(z, u) && i < |z.c.conns|
    ensures u in z.c.world.inboxes[i].subs <==> Lingers(z, i, u)
  {
    var conn :| conn in z.ops && z.ops[conn].user == u && InGap(z.ops[conn]);
    assert OpInv(z, conn, z.ops[conn]) && StandInv(z, z.ops[conn]);
    assert u in z.c.world.inboxes[i].subs <==> Expected(z, i, u);
    if u in z.c.conns[i] {
      assert Maps(z.c, i, u) && Maps(z.c, z.ops[conn].srv, u);
    }
    if z.lock[i].Some? {
      assert HoldsLock(z.ops[z.lock[i].value]) && z.ops[z.lock[i].value].srv == i;
    }
  }

  /** Outside the gaps an online user has one subscription of its own: on the
      process that maps it, or whose logout or close has only just erased it. */
  lemma OneHome(z: Fine, u: UserId) returns (home: nat)
    requires FineInv(z) && IsOnline(z.c.world, u) && !GapOpen(z, u)
    ensures home < |z.c.conns| && !Lingers(z, home, u)
    ensures forall i: nat | i < |z.c.conns| :: u in z.c.world.inboxes[i].subs <==> Lingers(z, i, u) || i == home
  {
    if i: nat :| Maps(z.c, i, u) {
      home := i;
      MappedHome(z, u, i);
    } else {
      assert !MappedSomewhere(z.c, u) && Owned(z, u);
      var conn :| conn in z.ops && z.ops[conn].user == u && Owns(z.ops[conn]);
      home := z.ops[conn].srv;
      ErasedHome(z, u, conn);
    }
  }

  lemma LingeringIsErased(z: Fine, i: nat, u: UserId)
    requires FineInv(z) && i < |z.c.conns|
    ensures Lingers(z, i, u) ==> u !in z.c.conns[i]
  {
  }

  lemma MappedHome(z: Fine, u: UserId, home: nat)
    requires FineInv(z) && !GapOpen(z, u) && Maps(z.c, home, u)
    ensures !Lingers(z, home, u)
    ensures forall i: nat | i < |z.c.conns| :: u in z.c.world.inboxes[i].subs <==> Lingers(z, i, u) || i == home
  {
    forall conn | conn in z.ops && z.ops[conn].user == u ensures z.ops[conn].LoggingOut? && z.ops[conn].marked {
      assert OpInv(z, conn, z.ops[conn]) && StandInv(z, z.ops[conn]);
      assert !InGap(z.ops[conn]);
    }
    LingeringIsErased(z, home, u);
    forall i: nat | i < |z.c.conns| ensures u in z.c.world.inboxes[i].subs <==> Lingers(z, i, u) || i == home {
      assert u in z.c.world.inboxes[i].subs <==> Expected(z, i, u);
      assert u in z.c.conns[i] <==> Maps(z.c, i, u);
      if z.lock[i].Some? {
        assert z.ops[z.lock[i].value].srv == i;
      }
    }
  }

  lemma ErasedHome(z: Fine, u: UserId, conn: Conn)
    requires FineInv(z) && IsOnline(z.c.world, u) && !GapOpen(z, u) && !MappedSomewhere(z.c, u)
    requires conn in z.ops && z.ops[conn].user == u && Owns(z.ops[conn])
    ensures var home := z.ops[conn].srv;
            && home < |z.c.conns| && !Lingers(z, home, u)
            && forall i: nat | i < |z.c.conns| :: u in z.c.world.inboxes[i].subs <==> Lingers(z, i, u) || i == home
  {
    var op := z.ops[conn];
    assert OpInv(z, conn, op) && StandInv(z, op) && !InGap(op);
    assert op == LoggingOut(op.srv, u, false) || op == Closing(op.srv, u, Erased);
    assert z.lock[op.srv] == Some(conn);
    forall i: nat | i < |z.c.conns| ensures u in z.c.world.inboxes[i].subs <==> Lingers(z, i, u) || i == op.srv {
      assert u in z.c.world.inboxes[i].subs <==> Expected(z, i, u);
      assert !Maps(z.c, i, u);
      if z.lock[i].Some? {
        assert z.lock[i].value in z.ops && z.ops[z.lock[i].value].srv == i;
      }
    }
  }

  /** How many processes a publication to an online user reaches, exactly: one per
      lingering logout, and one more unless a gap is open. */
  lemma SubscribersExactly(z: Fine, u: UserId)
    requires FineInv(z) && IsOnline(z.c.world, u)
    ensures Subscribers(z.c.world.inboxes, u) == Lingering(z, u) + (if GapOpen(z, u) then 0 else 1)
  {
    var inboxes := z.c.world.inboxes;
    if GapOpen(z, u) {
      forall i: nat | i < |inboxes| ensures u in inboxes[i].subs <==> Lingers(z, i, u) || i == -1 {
        OnlyLingering(z, u, i);
      }
      CountHomeAndLingering(z, inboxes, u, -1);
    } else {
      var home := OneHome(z, u);
      CountHomeAndLingering(z, inboxes, u, home);
    }
  }

  /** A published copy is lost exactly when it falls in a gap with no lingering
      logout, and gains exactly one extra copy for each lingering logout, less one
      in a gap. */
  lemma FateOfAPublishedCopy(z: Fine, i: nat, cp: Copy)
    requires FineInv(z) && i < |z.c.conns| && Published(z.c.conns[i], z.c.world, cp.user)
    ensures var gap, lingering := GapOpen(z, cp.user), Lingering(z, cp.user);
            && LostCopy(z.c.conns[i], z.c.world, cp) == (if gap && lingering == 0 then multiset{cp} else multiset{})
            && ExtraCopy(z.c.conns[i], z.c.world, cp)
               == (if !gap then Times(cp, lingering)
                   else if lingering == 0 then multiset{} else Times(cp, lingering - 1))
  {
    SubscribersExactly(z, cp.user);
  }

  /** A publication on process `i` to a user in a gap, with no lingering logout. */
  ghost predicate FallsInGap(z: Fine, i: nat, u: UserId)
    requires i < |z.c.conns|
  {
    Published(z.c.conns[i], z.c.world, u) && GapOpen(z, u) && Lingering(z, u) == 0
  }

  /** A publication on process `i` to a user with one subscription to spare: a
      lingering logout, or in a gap two. */
  ghost predicate ReachesTwo(z: Fine, i: nat, u: UserId)
    requires i < |z.c.conns|
  {
    Published(z.c.conns[i], z.c.world, u) && Lingering(z, u) > (if GapOpen(z, u) then 1 else 0)
  }

  /** For a publication, no subscriber means a gap with no lingering logout, and more
      than one what `ReachesTwo` says. */
  lemma SubscribersMean(z: Fine, i: nat, u: UserId)
    requires FineInv(z) && i < |z.c.conns|
    ensures Reaches(z.c.conns[i], z.c.world, u, 0) <==> FallsInGap(z, i, u)
    ensures ReachesSeveral(z.c.conns[i], z.c.world, u) <==> ReachesTwo(z, i, u)
  {
    if Published(z.c.conns[i], z.c.world, u) {
      SubscribersExactly(z, u);
    }
  }

  /** A login deletes rows stored after it read them, or a send publishes to a user
      in a gap and no logout of that user lingers. */
  ghost predicate LosesNow(z: Fine, s: Step) {
    || (Deletes(z, s) && z.ops[s.conn].stage.offline != MessagesFor(z.c.world.rows, z.ops[s.conn].user))
    || (Sends(z, s) && exists u | u in Targets(z.c.world, s.js) :: FallsInGap(z, s.srv, u))
  }

  /** A send publishes to a user who is online again while an earlier logout of it
      lingers; in a gap, while two do. */
  ghost predicate DoublesNow(z: Fine, s: Step) {
    Sends(z, s) && exists u | u in Targets(z.c.world, s.js) :: ReachesTwo(z, s.srv, u)
  }

  /** Exactly when a step loses something. */
  lemma LostExactlyWhen(z: Fine, s: Step)
    requires FineInv(z)
    ensures Lost(z, s) != multiset{} <==> LosesNow(z, s)
  {
    if Deletes(z, s) {
      var op := z.ops[s.conn];
      assert StandInv(z, op);
      var since := StoredSince(z.c.world, op.user, |op.stage.offline|);
      assert MessagesFor(z.c.world.rows, op.user) == op.stage.offline + since;
      assert |multiset(AddressedTo(op.user, since))| == |since|;
    } else if Sends(z, s) {
      SendLosesSome(z.c.conns[s.srv], z.c.world, Targets(z.c.world, s.js), s.js);
      forall u {
        SubscribersMean(z, s.srv, u);
      }
    }
  }

  /** Exactly when a step makes extra copies. */
  lemma ExtraExactlyWhen(z: Fine, s: Step)
    requires FineInv(z)
    ensures Extra(z, s) != multiset{} <==> DoublesNow(z, s)
  {
    if Sends(z, s) {
      SendDoublesSome(z.c.conns[s.srv], z.c.world, Targets(z.c.world, s.js), s.js);
      forall u {
        SubscribersMean(z, s.srv, u);
      }
    }
  }

  // ----- A logout alone loses nothing ---------------------------------------------------

  /** Logins and closes run undisturbed: while one is under way only handlers
      already running move. Logouts stay split. */
  ghost predicate OnlyLogoutsSplit(z: Fine, s: Step) {
    (exists conn :: conn in z.ops && !z.ops[conn].LoggingOut?) ==> s.Proceed?
  }

  /** No login of a user passes its check elsewhere while a logout of it is still under
      way. */
  ghost predicate NoLoginElsewhere(z: Fine, s: Step) {
    s.LoginCheck? && LoginAccepted(z.c.world, s.js) ==>
      forall conn | conn in z.ops && z.ops[conn].LoggingOut? && z.ops[conn].srv != s.srv ::
        s.js.id != Some(z.ops[conn].user)
  }

  /** Nothing is asked of logouts, and nothing of overlaps: whichever connection names
      whichever user, undisturbed logins leave no harm for it to do. */
  ghost predicate SplitRun(z: Fine, steps: seq<Step>, strict: bool)
    requires WellShaped(z)
  {
    steps != [] ==>
      var before, s := steps[..|steps| - 1], steps[|steps| - 1];
      var b := Execute(z, before);
      && SplitRun(z, before, strict)
      && OverFreeConnection(b, s) && OnlyLogoutsSplit(b, s) && (strict ==> NoLoginElsewhere(b, s))
  }

  ghost predicate OneSession(z: Fine) {
    forall a, b | a in z.ops && b in z.ops && !z.ops[a].LoggingOut? && !z.ops[b].LoggingOut? :: a == b
  }

  ghost predicate FetchedAll(z: Fine) {
    forall conn | conn in z.ops && z.ops[conn].LoggingIn? && z.ops[conn].stage.Fetched? ::
      z.ops[conn].stage.offline == MessagesFor(z.c.world.rows, z.ops[conn].user)
  }

  ghost predicate SplitInv(z: Fine) {
    FineInv(z) && OneSession(z) && FetchedAll(z)
  }

  lemma AdvanceKeepsRows(z: Fine, conn: Conn, pick: UserId)
    requires WellShaped(z) && conn in z.ops && !(z.ops[conn].LoggingIn? && z.ops[conn].stage.Fetched?)
    ensures Advance(z, conn, pick).c.world.rows == z.c.world.rows
  {
  }

  lemma AdvanceKeepsSplit(z: Fine, conn: Conn, pick: UserId)
    requires WellShaped(z) && OneSession(z) && FetchedAll(z) && conn in z.ops
    ensures OneSession(Advance(z, conn, pick)) && FetchedAll(Advance(z, conn, pick))
  {
    var z' := Advance(z, conn, pick);
    assert forall other | other in z'.ops && other != conn :: other in z.ops && z'.ops[other] == z.ops[other];
    assert conn in z'.ops ==> (z'.ops[conn].LoggingOut? <==> z.ops[conn].LoggingOut?);
    if !(z.ops[conn].LoggingIn? && z.ops[conn].stage.Fetched?) {
      AdvanceKeepsRows(z, conn, pick);
    }
  }

  lemma StartKeepsSplit(z: Fine, s: Step)
    requires WellShaped(z) && !s.Proceed? && forall conn | conn in z.ops :: z.ops[conn].LoggingOut?
    ensures OneSession(Take(z, s)) && FetchedAll(Take(z, s))
  {
    var z' := Take(z, s);
    if !s.Request? && !s.Read? {
      assert forall conn | conn in z'.ops && conn != s.conn :: conn in z.ops && z'.ops[conn] == z.ops[conn];
    }
  }

  lemma NothingButLogouts(z: Fine, s: Step)
    requires OnlyLogoutsSplit(z, s) && !s.Proceed?
    ensures forall conn | conn in z.ops :: z.ops[conn].LoggingOut?
  {
  }

  lemma SplitIsPermitted(z: Fine, s: Step)
    requires OverFreeConnection(z, s) && OnlyLogoutsSplit(z, s)
    ensures Permitted(z, s)
  {
    if !s.Proceed? {
      NothingButLogouts(z, s);
    }
  }

  lemma SplitStepKeepsInv(z: Fine, s: Step)
    requires SplitInv(z) && OverFreeConnection(z, s) && OnlyLogoutsSplit(z, s)
    ensures SplitInv(Take(z, s))
  {
    SplitIsPermitted(z, s);
    TakeKeepsInv(z, s);
    if s.Proceed? {
      if s.conn in z.ops {
        AdvanceKeepsSplit(z, s.conn, s.pick);
      }
    } else {
      NothingButLogouts(z, s);
      StartKeepsSplit(z, s);
    }
  }

  lemma {:induction false} SplitSendLosesNothing(z: Fine, i: nat, users: seq<UserId>, msg: Json)
    requires FineInv(z) && i < |z.c.conns| && forall conn | conn in z.ops :: z.ops[conn].LoggingOut?
    ensures LostCopies(z.c.conns[i], z.c.world, users, msg) == multiset{}
  {
    if users != [] {
      var cp := Copy(users[|users| - 1], msg);
      SplitSendLosesNothing(z, i, users[..|users| - 1], msg);
      assert !GapOpen(z, cp.user);
      if Published(z.c.conns[i], z.c.world, cp.user) {
        FateOfAPublishedCopy(z, i, cp);
      }
    }
  }

  lemma SplitStepLosesNothing(z: Fine, s: Step)
    requires SplitInv(z) && OnlyLogoutsSplit(z, s)
    ensures Lost(z, s) == multiset{}
  {
    if Deletes(z, s) {
      assert Lost(z, s) == multiset(AddressedTo(z.ops[s.conn].user, []));
    } else if Sends(z, s) {
      NothingButLogouts(z, s);
      SplitSendLosesNothing(z, s.srv, Targets(z.c.world, s.js), s.js);
    }
  }

  lemma SplitStepBalances(z: Fine, s: Step)
    requires SplitInv(z) && OnlyLogoutsSplit(z, s)
    ensures Lost(z, s) == multiset{}
    ensures Total(Take(z, s).c.world) == Total(z.c.world) + Sent(z, s) + Extra(z, s)
  {
    SplitStepLosesNothing(z, s);
    StepLedger(z, s);
    Cancel(Total(Take(z, s).c.world), Total(z.c.world) + Sent(z, s) + Extra(z, s), multiset{});
  }

  /** A split logout loses nothing: with sends from anywhere between its erase, its
      offline mark and its unsubscription, every message is still delivered,
      stored or queued, at worst more than once. */
  lemma {:induction false} SplitLogoutLosesNothing(z: Fine, steps: seq<Step>)
    requires SplitInv(z) && SplitRun(z, steps, false)
    ensures SplitInv(Execute(z, steps))
    ensures LostIn(z, steps) == multiset{}
    ensures Total(Execute(z, steps).c.world) == Total(z.c.world) + SentIn(z, steps) + ExtraIn(z, steps)
  {
    if steps != [] {
      var before, s := steps[..|steps| - 1], steps[|steps| - 1];
      var b := Execute(z, before);
      SplitLogoutLosesNothing(z, before);
      SplitStepBalances(b, s);
      SplitStepKeepsInv(b, s);
      RegroupSent(Total(z.c.world), Total(b.c.world), SentIn(z, before), Sent(b, s), ExtraIn(z, before), Extra(b, s));
    }
  }

  lemma RegroupSent(t0: Bag, t1: Bag, sent1: Bag, sent2: Bag, extra1: Bag, extra2: Bag)
    requires t1 == t0 + sent1 + extra1
    ensures t1 + sent2 + extra2 == t0 + (sent1 + sent2) + (extra1 + extra2)
  {
  }

  ghost predicate LogsIn(z: Fine, u: UserId) {
    exists conn :: conn in z.ops && z.ops[conn].LoggingIn? && z.ops[conn].user == u
  }

  /** A user whose logout is past its offline mark comes back only through a login on
      the same process, which cannot insert it before the logout lets the lock go. */
  ghost predicate ComesBackHere(z: Fine) {
    forall conn | conn in z.ops && z.ops[conn].LoggingOut? && z.ops[conn].marked ::
      && (IsOnline(z.c.world, z.ops[conn].user) ==> LogsIn(z, z.ops[conn].user))
      && forall other | other in z.ops && z.ops[other].LoggingIn? && z.ops[other].user == z.ops[conn].user ::
           z.ops[other].srv == z.ops[conn].srv && z.ops[other].stage != Inserted
  }

  lemma {:induction false} NoneLingers(z: Fine, n: nat, u: UserId)
    requires ComesBackHere(z) && IsOnline(z.c.world, u) && forall conn | conn in z.ops :: z.ops[conn].LoggingOut?
    ensures LingeringUpTo(z, n, u) == 0
  {
    if n > 0 {
      NoneLingers(z, n - 1, u);
    }
  }

  lemma {:induction false} StrictSendDoublesNothing(z: Fine, i: nat, users: seq<UserId>, msg: Json)
    requires FineInv(z) && ComesBackHere(z) && i < |z.c.conns|
    requires forall conn | conn in z.ops :: z.ops[conn].LoggingOut?
    ensures ExtraCopies(z.c.conns[i], z.c.world, users, msg) == multiset{}
  {
    if users != [] {
      var cp := Copy(users[|users| - 1], msg);
      StrictSendDoublesNothing(z, i, users[..|users| - 1], msg);
      if Published(z.c.conns[i], z.c.world, cp.user) {
        NoneLingers(z, |z.lock|, cp.user);
        FateOfAPublishedCopy(z, i, cp);
        assert Times(cp, 0) == multiset{};
      }
    }
  }

  /** Steps that start no login and move no handler's account. */
  lemma SameStatesComeBack(z: Fine, z': Fine)
    requires ComesBackHere(z) && z'.ops == z.ops
    requires forall u :: IsOnline(z'.c.world, u) ==> IsOnline(z.c.world, u)
    ensures ComesBackHere(z')
  {
    assert forall u :: LogsIn(z', u) == LogsIn(z, u);
  }

  lemma CheckComesBack(z: Fine, i: nat, conn: Conn, js: Json)
    requires FineInv(z) && ComesBackHere(z) && NoLoginElsewhere(z, LoginCheck(i, conn, js))
    ensures ComesBackHere(Take(z, LoginCheck(i, conn, js)))
  {
    var z' := Take(z, LoginCheck(i, conn, js));
    if z'.ops == z.ops {
      SameStatesComeBack(z, z');
    } else {
      forall u | LogsIn(z, u) ensures LogsIn(z', u) {
        var other :| other in z.ops && z.ops[other].LoggingIn? && z.ops[other].user == u;
        assert other in z'.ops && z'.ops[other] == z.ops[other];
      }
    }
  }

  /** A logout or a close that starts. */
  lemma StartComesBack(z: Fine, z': Fine, conn: Conn)
    requires ComesBackHere(z) && conn !in z.ops && conn in z'.ops && z'.ops == z.ops[conn := z'.ops[conn]]
    requires z'.ops[conn].Closing? || (z'.ops[conn].LoggingOut? && !z'.ops[conn].marked)
    requires z'.c.world == z.c.world
    ensures ComesBackHere(z')
  {
    forall u | LogsIn(z, u) ensures LogsIn(z', u) {
      var other :| other in z.ops && z.ops[other].LoggingIn? && z.ops[other].user == u;
      assert other in z'.ops && z'.ops[other] == z.ops[other];
    }
  }

  lemma RequestComesBack(z: Fine, s: Step)
    requires FineInv(z) && ComesBackHere(z) && Permitted(z, s) && s.Request?
    ensures ComesBackHere(Take(z, s))
  {
    var z' := Take(z, s);
    if z' != z {
      RequestIsHarmless(s.srv, z.c.conns[s.srv], z.c.world, s.conn, s.js, s.insertId);
      SameStatesComeBack(z, z');
    }
  }

  /** The login of a user with a lingering logout gets no further than the insert. */
  lemma LoginWaits(z: Fine, conn: Conn, out: Conn)
    requires FineInv(z) && ComesBackHere(z) && conn in z.ops && z.ops[conn].LoggingIn?
    requires out in z.ops && z.ops[out].LoggingOut? && z.ops[out].marked && z.ops[out].user == z.ops[conn].user
    ensures var r := LoginStep(z, conn);
            conn in r.ops && r.ops[conn].LoggingIn? && r.ops[conn].stage != Inserted &&
            r.ops[conn].user == z.ops[conn].user && r.ops[conn].srv == z.ops[out].srv
  {
    assert OpInv(z, out, z.ops[out]);
  }

  /** A step of a login or a close, told by what it leaves. */
  lemma OthersComeBack(z: Fine, z': Fine, conn: Conn, me: UserId)
    requires ComesBackHere(z) && conn in z.ops && z.ops[conn].user == me
    requires forall other | other != conn :: other in z'.ops <==> other in z.ops
    requires forall other | other != conn && other in z.ops :: z'.ops[other] == z.ops[other]
    requires conn in z'.ops ==> !z'.ops[conn].LoggingOut?
    requires conn in z'.ops && z'.ops[conn].LoggingIn? ==> z.ops[conn].LoggingIn? && z'.ops[conn].user == me
    requires forall u | IsOnline(z'.c.world, u) :: IsOnline(z.c.world, u) || (z.ops[conn].LoggingIn? && u == me)
    requires z.ops[conn].LoggingIn? ==>
               forall out | out in z.ops && z.ops[out] == LoggingOut(z.ops[out].srv, me, true) ::
               conn in z'.ops && z'.ops[conn].LoggingIn? && z'.ops[conn].stage != Inserted &&
               z'.ops[conn].srv == z.ops[out].srv
    ensures ComesBackHere(z')
  {
    forall out | out in z'.ops && z'.ops[out].LoggingOut? && z'.ops[out].marked
      ensures IsOnline(z'.c.world, z'.ops[out].user) ==> LogsIn(z', z'.ops[out].user)
    {
      var u := z.ops[out].user;
      if u == me && z.ops[conn].LoggingIn? {
        assert conn in z'.ops && z'.ops[conn].LoggingIn? && z'.ops[conn].user == u;
      } else if IsOnline(z'.c.world, u) {
        var other :| other in z.ops && z.ops[other].LoggingIn? && z.ops[other].user == u;
        assert other in z'.ops && z'.ops[other] == z.ops[other];
      }
    }
  }

  lemma LoginTouches(z: Fine, conn: Conn)
    requires WellShaped(z) && conn in z.ops && z.ops[conn].LoggingIn?
    ensures var r := LoginStep(z, conn);
            && (forall other | other != conn :: other in r.ops <==> other in z.ops)
            && (forall other | other != conn && other in z.ops :: r.ops[other] == z.ops[other])
            && (conn in r.ops ==> r.ops[conn].LoggingIn? && r.ops[conn].user == z.ops[conn].user)
            && (forall u | IsOnline(r.c.world, u) :: IsOnline(z.c.world, u) || u == z.ops[conn].user)
  {
  }

  lemma LoginComesBack(z: Fine, conn: Conn)
    requires FineInv(z) && ComesBackHere(z) && conn in z.ops && z.ops[conn].LoggingIn?
    ensures ComesBackHere(LoginStep(z, conn))
  {
    var me := z.ops[conn].user;
    LoginTouches(z, conn);
    forall out | out in z.ops && z.ops[out] == LoggingOut(z.ops[out].srv, me, true) {
      LoginWaits(z, conn, out);
    }
    OthersComeBack(z, LoginStep(z, conn), conn, me);
  }

  lemma LogOutComesBack(z: Fine, conn: Conn)
    requires FineInv(z) && ComesBackHere(z) && conn in z.ops && z.ops[conn].LoggingOut?
    ensures ComesBackHere(LogOutStep(z, conn))
  {
    var z' := LogOutStep(z, conn);
    forall u | LogsIn(z, u) ensures LogsIn(z', u) {
      var other :| other in z.ops && z.ops[other].LoggingIn? && z.ops[other].user == u;
      assert other in z'.ops && z'.ops[other] == z.ops[other];
    }
    if !z.ops[conn].marked {
      assert StandInv(z, z.ops[conn]);
      forall other | other in z.ops && z.ops[other].LoggingIn? ensures z.ops[other].user != z.ops[conn].user {
        if z.ops[other].user == z.ops[conn].user {
          OneOwner(z, other, conn);
        }
      }
    }
  }

  lemma CloseComesBack(z: Fine, conn: Conn, pick: UserId)
    requires FineInv(z) && ComesBackHere(z) && conn in z.ops && z.ops[conn].Closing?
    ensures ComesBackHere(CloseStep(z, conn, pick))
  {
    OthersComeBack(z, CloseStep(z, conn, pick), conn, z.ops[conn].user);
  }

  lemma StrictStepComesBack(z: Fine, s: Step)
    requires FineInv(z) && ComesBackHere(z) && Permitted(z, s) && NoLoginElsewhere(z, s)
    ensures ComesBackHere(Take(z, s))
  {
    var z' := Take(z, s);
    match s
    case LoginCheck(i, conn, js) => CheckComesBack(z, i, conn, js);
    case Request(_, _, _, _) => RequestComesBack(z, s);
    case Read(_) => SameStatesComeBack(z, z');
    case LogOutStart(_, conn, _) => if z' != z { StartComesBack(z, z', conn); }
    case CloseStart(_, conn, _) => if z' != z { StartComesBack(z, z', conn); }
    case Proceed(conn, pick) =>
      if conn in z.ops {
        match z.ops[conn] {
          case LoggingIn(_, _, _) => LoginComesBack(z, conn);
          case LoggingOut(_, _, _) => LogOutComesBack(z, conn);
          case Closing(_, _, _) => CloseComesBack(z, conn, pick);
        }
      }
  }

  /** Where these runs can start. */
  lemma QuietIsSplit(z: Fine)
    requires Quiet(z) && Inv(z.c)
    ensures SplitInv(z) && ComesBackHere(z)
  {
    QuietMeansAgree(z);
  }

  lemma StrictStepBalances(z: Fine, s: Step)
    requires SplitInv(z) && ComesBackHere(z) && OnlyLogoutsSplit(z, s)
    ensures Total(Take(z, s).c.world) == Total(z.c.world) + Sent(z, s)
  {
    SplitStepBalances(z, s);
    if Sends(z, s) {
      NothingButLogouts(z, s);
      StrictSendDoublesNothing(z, s.srv, Targets(z.c.world, s.js), s.js);
    }
  }

  /** If moreover the user does not log in elsewhere before its logout is done, every
      message is delivered, stored or queued exactly once. It may log in again on the
      same process meanwhile: that login waits for the lock of the logout. */
  lemma {:induction false} SplitLogoutIsExactlyOnce(z: Fine, steps: seq<Step>)
    requires SplitInv(z) && ComesBackHere(z) && SplitRun(z, steps, true)
    ensures SplitInv(Execute(z, steps)) && ComesBackHere(Execute(z, steps))
    ensures Total(Execute(z, steps).c.world) == Total(z.c.world) + SentIn(z, steps)
  {
    if steps != [] {
      var before, s := steps[..|steps| - 1], steps[|steps| - 1];
      var b := Execute(z, before);
      SplitLogoutIsExactlyOnce(z, before);
      StrictStepBalances(b, s);
      SplitStepKeepsInv(b, s);
      SplitIsPermitted(b, s);
      StrictStepComesBack(b, s);
      var start, sent := Total(z.c.world), SentIn(z, before);
      assert (start + sent) + Sent(b, s) == start + (sent + Sent(b, s));
    }
  }
}
