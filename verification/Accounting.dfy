/** Counting copies: where every copy of a message is, as a multiset. */
module Accounting {
  import opened ChatTypes
  import opened OfflineTable
  import opened GroupTable
  import opened RedisBroker
  import opened ChatServer
  import opened ClusterModel
  import opened Sessions

  type Bag = multiset<Copy>

  function Times(cp: Copy, n: nat): Bag {
    multiset{}[cp := n]
  }

  function AddressedTo(id: UserId, msgs: seq<Json>): seq<Copy> {
    seq(|msgs|, k requires 0 <= k < |msgs| => Copy(id, msgs[k]))
  }

  /** The copies one socket write hands over; an accepted login carries the
      stored messages. */
  function FrameCopies(f: Frame): Bag {
    match f
    case Chat(_, user, msg, _) => multiset{Copy(user, msg)}
    case Reply(_, id, Accepted(_, offline)) => multiset(AddressedTo(id, offline))
    case Reply(_, _, Refused(_)) => multiset{}
  }

  function Delivered(wire: seq<Frame>): Bag {
    if wire == [] then multiset{}
    else Delivered(wire[..|wire| - 1]) + FrameCopies(wire[|wire| - 1])
  }

  function Queued(inboxes: seq<Inbox>): Bag {
    if inboxes == [] then multiset{}
    else Queued(inboxes[..|inboxes| - 1]) + multiset(inboxes[|inboxes| - 1].queue)
  }

  /** Stored or queued at some process. */
  function Pending(w: World): Bag {
    multiset(w.rows) + Queued(w.inboxes)
  }

  function Total(w: World): Bag {
    Delivered(w.wire) + Pending(w)
  }

  // ----- Single changes ---------------------------------------------------------

  lemma DeliveredAppend(wire: seq<Frame>, f: Frame)
    ensures Delivered(wire + [f]) == Delivered(wire) + FrameCopies(f)
  {
  }

  lemma AddToBoth(a: Bag, b: Bag, c: Bag, d: Bag, e: Bag)
    requires a + b == c + d
    ensures (a + e) + b == (c + e) + d
  {
    assert (a + e) + b == (a + b) + e;
  }

  lemma {:induction false} QueuedUpdate(inboxes: seq<Inbox>, i: nat, inbox: Inbox)
    requires i < |inboxes|
    ensures Queued(inboxes[i := inbox]) + multiset(inboxes[i].queue) == Queued(inboxes) + multiset(inbox.queue)
  {
    var n := |inboxes| - 1;
    if i == n {
      assert inboxes[i := inbox][..n] == inboxes[..n];
    } else {
      assert inboxes[i := inbox][..n] == inboxes[..n][i := inbox];
      QueuedUpdate(inboxes[..n], i, inbox);
      assert inboxes[..n][i] == inboxes[i] && inboxes[i := inbox][n] == inboxes[n];
      AddToBoth(Queued(inboxes[..n][i := inbox]), multiset(inboxes[i].queue),
                Queued(inboxes[..n]), multiset(inbox.queue), multiset(inboxes[n].queue));
    }
  }

  lemma Cancel(a: Bag, b: Bag, c: Bag)
    requires a + c == b + c
    ensures a == b
  {
    forall cp ensures a[cp] == b[cp] {
      assert (a + c)[cp] == (b + c)[cp];
    }
  }

  /** A publication adds one copy for each subscriber. */
  lemma {:induction false} QueuedPublish(inboxes: seq<Inbox>, cp: Copy)
    ensures Queued(Publish(inboxes, cp)) == Queued(inboxes) + Times(cp, Subscribers(inboxes, cp.user))
  {
    if inboxes != [] {
      var n := |inboxes| - 1;
      assert Publish(inboxes, cp)[..n] == Publish(inboxes[..n], cp);
      QueuedPublish(inboxes[..n], cp);
    } else {
      assert Publish(inboxes, cp) == [];
    }
  }

  /** Taking the oldest message off a queue. */
  lemma QueuedPop(inboxes: seq<Inbox>, i: nat)
    requires i < |inboxes| && inboxes[i].queue != []
    ensures var inbox := inboxes[i];
            Queued(inboxes) == Queued(inboxes[i := inbox.(queue := inbox.queue[1..])]) + multiset{inbox.queue[0]}
  {
    var inbox := inboxes[i];
    QueuedUpdate(inboxes, i, inbox.(queue := inbox.queue[1..]));
    assert inbox.queue == [inbox.queue[0]] + inbox.queue[1..];
    Cancel(Queued(inboxes), Queued(inboxes[i := inbox.(queue := inbox.queue[1..])]) + multiset{inbox.queue[0]},
           multiset(inbox.queue[1..]));
  }

  lemma AddressedAppend(id: UserId, msgs: seq<Json>, m: Json)
    ensures AddressedTo(id, msgs + [m]) == AddressedTo(id, msgs) + [Copy(id, m)]
  {
  }

  lemma FirstGrows(a: Bag, b: Bag, c: Bag, e: Bag)
    requires a + b == c
    ensures (a + e) + b == c + e
  {
    assert (a + e) + b == (a + b) + e;
  }

  lemma SecondGrows(a: Bag, b: Bag, c: Bag, e: Bag)
    requires a + b == c
    ensures a + (b + e) == c + e
  {
    assert a + (b + e) == (a + b) + e;
  }

  lemma OneMoreMessage(rows: seq<Copy>, cp: Copy, id: UserId)
    ensures var msgs, others := MessagesFor(rows, id), WithoutRows(rows, id);
            && MessagesFor(rows + [cp], id) == (if cp.user == id then msgs + [cp.msg] else msgs)
            && WithoutRows(rows + [cp], id) == (if cp.user == id then others else others + [cp])
  {
    assert (rows + [cp])[..|rows|] == rows;
  }

  lemma OwnRowSplits(rows: seq<Copy>, cp: Copy, id: UserId)
    requires cp.user == id
    requires multiset(AddressedTo(id, MessagesFor(rows, id))) + multiset(WithoutRows(rows, id)) == multiset(rows)
    ensures multiset(AddressedTo(id, MessagesFor(rows + [cp], id))) + multiset(WithoutRows(rows + [cp], id))
         == multiset(rows + [cp])
  {
    OneMoreMessage(rows, cp, id);
    AddressedAppend(id, MessagesFor(rows, id), cp.msg);
    FirstGrows(multiset(AddressedTo(id, MessagesFor(rows, id))), multiset(WithoutRows(rows, id)), multiset(rows),
               multiset{cp});
  }

  lemma OtherRowSplits(rows: seq<Copy>, cp: Copy, id: UserId)
    requires cp.user != id
    requires multiset(AddressedTo(id, MessagesFor(rows, id))) + multiset(WithoutRows(rows, id)) == multiset(rows)
    ensures multiset(AddressedTo(id, MessagesFor(rows + [cp], id))) + multiset(WithoutRows(rows + [cp], id))
         == multiset(rows + [cp])
  {
    OneMoreMessage(rows, cp, id);
    SecondGrows(multiset(AddressedTo(id, MessagesFor(rows, id))), multiset(WithoutRows(rows, id)), multiset(rows),
                multiset{cp});
  }

  /** What the query reads and what the delete leaves make up the whole table. */
  lemma {:induction false} RowsSplit(rows: seq<Copy>, id: UserId)
    ensures multiset(AddressedTo(id, MessagesFor(rows, id))) + multiset(WithoutRows(rows, id)) == multiset(rows)
  {
    if rows != [] {
      var before, last := rows[..|rows| - 1], rows[|rows| - 1];
      assert rows == before + [last];
      RowsSplit(before, id);
      if last.user == id {
        OwnRowSplits(before, last, id);
      } else {
        OtherRowSplits(before, last, id);
      }
    }
  }

  lemma {:induction false} NoRowsLeft(rows: seq<Copy>, id: UserId)
    ensures forall cp | cp in WithoutRows(rows, id) :: cp.user != id && cp in rows
  {
    if rows != [] {
      NoRowsLeft(rows[..|rows| - 1], id);
    }
  }

  lemma {:induction false} MessagesAreRows(rows: seq<Copy>, id: UserId)
    ensures forall m | m in MessagesFor(rows, id) :: Copy(id, m) in rows
  {
    if rows != [] {
      MessagesAreRows(rows[..|rows| - 1], id);
    }
  }

  // ----- Sending ------------------------------------------------------------------

  /** Who a chat request is for, one entry per copy. */
  function Targets(w: World, js: Json): seq<UserId> {
    if js.kind == Some(PRIVATE_CHAT_MSG) then
      if js.to.Some? then [js.to.value] else []
    else if js.kind == Some(GROUP_CHAT_MSG) then
      if js.id.None? || js.groupid.None? then [] else GroupUsers(w.members, js.id.value, js.groupid.value)
    else []
  }

  function CopiesFor(users: seq<UserId>, msg: Json): Bag {
    if users == [] then multiset{}
    else CopiesFor(users[..|users| - 1], msg) + multiset{Copy(users[|users| - 1], msg)}
  }

  /** The copies the sender's process writes to a socket at once. */
  function NowCopies(conns: ConnMap, users: seq<UserId>, msg: Json): Bag {
    if users == [] then multiset{}
    else
      var u := users[|users| - 1];
      NowCopies(conns, users[..|users| - 1], msg) + (if u in conns then multiset{Copy(u, msg)} else multiset{})
  }

  predicate Published(conns: ConnMap, w: World, u: UserId) {
    u !in conns && IsOnline(w, u)
  }

  /** A copy published to no subscriber at all is lost. */
  function LostCopy(conns: ConnMap, w: World, cp: Copy): Bag {
    if Published(conns, w, cp.user) && Subscribers(w.inboxes, cp.user) == 0 then multiset{cp} else multiset{}
  }

  /** A copy published to several subscribers: each beyond the first is extra. */
  function ExtraCopy(conns: ConnMap, w: World, cp: Copy): Bag {
    if Published(conns, w, cp.user) && Subscribers(w.inboxes, cp.user) >= 1
    then Times(cp, Subscribers(w.inboxes, cp.user) - 1) else multiset{}
  }

  function LostCopies(conns: ConnMap, w: World, users: seq<UserId>, msg: Json): Bag {
    if users == [] then multiset{}
    else LostCopies(conns, w, users[..|users| - 1], msg) + LostCopy(conns, w, Copy(users[|users| - 1], msg))
  }

  function ExtraCopies(conns: ConnMap, w: World, users: seq<UserId>, msg: Json): Bag {
    if users == [] then multiset{}
    else ExtraCopies(conns, w, users[..|users| - 1], msg) + ExtraCopy(conns, w, Copy(users[|users| - 1], msg))
  }

  lemma {:induction false} SubscribersSame(a: seq<Inbox>, b: seq<Inbox>, u: UserId)
    requires |a| == |b| && forall i | 0 <= i < |a| :: a[i].subs == b[i].subs
    ensures Subscribers(a, u) == Subscribers(b, u)
  {
    if a != [] {
      SubscribersSame(a[..|a| - 1], b[..|b| - 1], u);
    }
  }

  lemma SameSessionsSameFate(conns: ConnMap, a: World, b: World, cp: Copy)
    requires SameSessions(a, b)
    ensures LostCopy(conns, a, cp) == LostCopy(conns, b, cp)
    ensures ExtraCopy(conns, a, cp) == ExtraCopy(conns, b, cp)
  {
    SubscribersSame(a.inboxes, b.inboxes, cp.user);
  }

  lemma RouteLedger(conns: ConnMap, w: World, cp: Copy)
    ensures var r := Route(conns, w, cp);
            var n := Subscribers(w.inboxes, cp.user);
            if cp.user in conns then
              Delivered(r.wire) == Delivered(w.wire) + multiset{cp} && Pending(r) == Pending(w)
            else
              Delivered(r.wire) == Delivered(w.wire) &&
              Pending(r) == Pending(w) + (if IsOnline(w, cp.user) then Times(cp, n) else multiset{cp})
  {
    if cp.user in conns {
      DeliveredAppend(w.wire, Chat(conns[cp.user], cp.user, cp.msg, Direct));
    } else if IsOnline(w, cp.user) {
      QueuedPublish(w.inboxes, cp);
    }
  }

  /** The balance of one copy: it is written now, or is stored or queued, or is
      lost; a publication with several subscribers makes extra copies. */
  lemma RouteBalance(conns: ConnMap, w: World, cp: Copy)
    ensures var r := Route(conns, w, cp);
            Total(r) + LostCopy(conns, w, cp) == Total(w) + multiset{cp} + ExtraCopy(conns, w, cp)
  {
    RouteLedger(conns, w, cp);
  }

  lemma RegroupBalance(t0: Bag, t1: Bag, t2: Bag, lost1: Bag, lost2: Bag,
                       sent1: Bag, sent2: Bag, extra1: Bag, extra2: Bag)
    requires t1 + lost1 == t0 + sent1 + extra1
    requires t2 + lost2 == t1 + sent2 + extra2
    ensures t2 + (lost1 + lost2) == t0 + (sent1 + sent2) + (extra1 + extra2)
  {
    assert t2 + (lost1 + lost2) == (t2 + lost2) + lost1;
    assert (t1 + sent2 + extra2) + lost1 == (t1 + lost1) + sent2 + extra2;
  }

  /** The balance of one whole send. */
  lemma {:induction false} SendLedger(conns: ConnMap, w: World, users: seq<UserId>, msg: Json)
    ensures var r := RouteAll(conns, w, users, msg);
            Total(r) + LostCopies(conns, w, users, msg)
            == Total(w) + CopiesFor(users, msg) + ExtraCopies(conns, w, users, msg)
  {
    if users != [] {
      var rest, cp := users[..|users| - 1], Copy(users[|users| - 1], msg);
      var r := RouteAll(conns, w, rest, msg);
      SendLedger(conns, w, rest, msg);
      RouteAllKeepsSessions(conns, w, rest, msg);
      SameSessionsSameFate(conns, w, r, cp);
      RouteBalance(conns, r, cp);
      RegroupBalance(Total(w), Total(r), Total(Route(conns, r, cp)),
                     LostCopies(conns, w, rest, msg), LostCopy(conns, w, cp),
                     CopiesFor(rest, msg), multiset{cp},
                     ExtraCopies(conns, w, rest, msg), ExtraCopy(conns, w, cp));
    }
  }

  // ----- When a send loses or doubles anything ----------------------------------------

  /** A publication to exactly `n` processes. */
  predicate Reaches(conns: ConnMap, w: World, u: UserId, n: nat) {
    Published(conns, w, u) && Subscribers(w.inboxes, u) == n
  }

  predicate ReachesSeveral(conns: ConnMap, w: World, u: UserId) {
    Published(conns, w, u) && Subscribers(w.inboxes, u) > 1
  }

  lemma EitherBag(a: Bag, b: Bag)
    ensures a + b != multiset{} <==> a != multiset{} || b != multiset{}
  {
    if a + b == multiset{} {
      assert forall cp :: (a + b)[cp] == 0;
    }
  }

  lemma NoneOrSome(cp: Copy, n: nat)
    ensures Times(cp, n) == multiset{} <==> n == 0
    ensures multiset{cp} != multiset{}
  {
    assert Times(cp, n)[cp] == n;
    assert multiset{cp}[cp] == 1;
  }

  lemma CopyLost(conns: ConnMap, w: World, cp: Copy)
    ensures LostCopy(conns, w, cp) != multiset{} <==> Reaches(conns, w, cp.user, 0)
  {
    NoneOrSome(cp, 0);
  }

  lemma CopyDoubled(conns: ConnMap, w: World, cp: Copy)
    ensures ExtraCopy(conns, w, cp) != multiset{} <==> ReachesSeveral(conns, w, cp.user)
  {
    if Subscribers(w.inboxes, cp.user) >= 1 {
      NoneOrSome(cp, Subscribers(w.inboxes, cp.user) - 1);
    }
  }

  /** A send loses something if and only if one of its publications reaches nobody. */
  lemma {:induction false} SendLosesSome(conns: ConnMap, w: World, users: seq<UserId>, msg: Json)
    ensures LostCopies(conns, w, users, msg) != multiset{} <==> exists u | u in users :: Reaches(conns, w, u, 0)
  {
    if users != [] {
      var rest, u := users[..|users| - 1], users[|users| - 1];
      SendLosesSome(conns, w, rest, msg);
      assert users == rest + [u];
      CopyLost(conns, w, Copy(u, msg));
      EitherBag(LostCopies(conns, w, rest, msg), LostCopy(conns, w, Copy(u, msg)));
    }
  }

  /** It makes extra copies if and only if one of them reaches more than one process. */
  lemma {:induction false} SendDoublesSome(conns: ConnMap, w: World, users: seq<UserId>, msg: Json)
    ensures ExtraCopies(conns, w, users, msg) != multiset{} <==> exists u | u in users :: ReachesSeveral(conns, w, u)
  {
    if users != [] {
      var rest, u := users[..|users| - 1], users[|users| - 1];
      SendDoublesSome(conns, w, rest, msg);
      assert users == rest + [u];
      CopyDoubled(conns, w, Copy(u, msg));
      EitherBag(ExtraCopies(conns, w, rest, msg), ExtraCopy(conns, w, Copy(u, msg)));
    }
  }

  lemma {:induction false} SendDelivers(conns: ConnMap, w: World, users: seq<UserId>, msg: Json)
    ensures Delivered(RouteAll(conns, w, users, msg).wire) == Delivered(w.wire) + NowCopies(conns, users, msg)
  {
    if users != [] {
      var rest := users[..|users| - 1];
      SendDelivers(conns, w, rest, msg);
      RouteLedger(conns, RouteAll(conns, w, rest, msg), Copy(users[|users| - 1], msg));
    }
  }

  /** A private chat is the fan-out to one user, a group chat the fan-out to the
      membership rows: both handlers route each copy the same way. */
  lemma ChatIsFanOut(me: nat, conns: ConnMap, w: World, conn: Conn, js: Json, insertId: int)
    requires me < |w.inboxes|
    requires js.kind == Some(PRIVATE_CHAT_MSG) || js.kind == Some(GROUP_CHAT_MSG)
    ensures Handle(me, conns, w, conn, js, insertId) == Local(conns, RouteAll(conns, w, Targets(w, js), js))
  {
  }

  /** A chat request as a step of the cluster. */
  lemma ChatStep(c: Cluster, i: nat, conn: Conn, js: Json, insertId: int)
    requires WellFormed(c) && i < |c.conns|
    requires js.kind == Some(PRIVATE_CHAT_MSG) || js.kind == Some(GROUP_CHAT_MSG)
    ensures Apply(c, Message(i, conn, js, insertId))
         == c.(world := RouteAll(c.conns[i], c.world, Targets(c.world, js), js))
  {
    ChatIsFanOut(i, c.conns[i], c.world, conn, js, insertId);
  }
}
