/** What the notify loop does with a whole queue. */
module NotifyLoop {
  import opened ChatTypes
  import opened OfflineTable
  import opened ChatServer
  import opened ClusterModel
  import opened Accounting
  import opened Mailbox
  import opened Delivery

  /** The loop takes up one message, then the rest. */
  lemma OneThenRest(me: nat, conns: ConnMap, w: World)
    requires me < |w.inboxes| && w.inboxes[me].queue != []
    ensures var r, queue := ReceiveOne(me, conns, w), w.inboxes[me].queue;
            && ReceiveAll(me, conns, w) == ReceiveAll(me, conns, r)
            && r.inboxes == w.inboxes[me := w.inboxes[me].(queue := queue[1..])]
            && r.rows == (if queue[0].user in conns then w.rows else w.rows + [queue[0]])
  {
  }

  /** The queue is empty afterwards, and nothing but rows and sockets is touched
      besides. */
  lemma {:induction false} LoopEmptiesQueue(me: nat, conns: ConnMap, w: World)
    requires me < |w.inboxes|
    ensures var r := ReceiveAll(me, conns, w);
            && r.inboxes == w.inboxes[me := w.inboxes[me].(queue := [])]
            && r.users == w.users && r.groups == w.groups && r.members == w.members
    decreases |w.inboxes[me].queue|
  {
    var queue := w.inboxes[me].queue;
    if queue == [] {
      assert w.inboxes[me := w.inboxes[me].(queue := [])] == w.inboxes;
    } else {
      OneThenRest(me, conns, w);
      LoopEmptiesQueue(me, conns, ReceiveOne(me, conns, w));
    }
  }

  /** No copy is lost or made. */
  lemma {:induction false} LoopKeepsTotal(me: nat, conns: ConnMap, w: World)
    requires me < |w.inboxes|
    ensures Total(ReceiveAll(me, conns, w)) == Total(w)
    decreases |w.inboxes[me].queue|
  {
    if w.inboxes[me].queue != [] {
      OneThenRest(me, conns, w);
      ReceiveKeepsTotal(me, conns, w);
      LoopKeepsTotal(me, conns, ReceiveOne(me, conns, w));
    }
  }

  lemma Shift(a: seq<Json>, b: seq<Json>, c: seq<Json>)
    ensures (a + b) + c == a + (b + c)
  {
  }

  /** A mapped user is written every queued message for it, in queue order; nobody
      else is written anything. */
  lemma {:induction false} LoopWrites(me: nat, conns: ConnMap, w: World, u: UserId)
    requires me < |w.inboxes|
    ensures BrokerWrites(ReceiveAll(me, conns, w).wire, u)
         == BrokerWrites(w.wire, u) + (if u in conns then MessagesFor(w.inboxes[me].queue, u) else [])
    decreases |w.inboxes[me].queue|
  {
    var queue, written := w.inboxes[me].queue, BrokerWrites(w.wire, u);
    if queue == [] {
      assert written + [] == written;
    } else {
      OneThenRest(me, conns, w);
      ReceiveOneWrites(me, conns, w, u);
      MessagesForHead(queue, u);
      LoopWrites(me, conns, ReceiveOne(me, conns, w), u);
      var head, rest := if queue[0].user == u then [queue[0].msg] else [], MessagesFor(queue[1..], u);
      Shift(written, head, rest);
      assert written + [] == written;
    }
  }

  /** Each of those writes goes to the connection the user is mapped to. */
  lemma {:induction false} LoopWritesToMapped(me: nat, conns: ConnMap, w: World)
    requires me < |w.inboxes|
    ensures var r := ReceiveAll(me, conns, w);
            && w.wire <= r.wire
            && forall k | |w.wire| <= k < |r.wire| :: r.wire[k].Chat? && r.wire[k].via == Broker &&
                 r.wire[k].user in conns && conns[r.wire[k].user] == r.wire[k].conn
    decreases |w.inboxes[me].queue|
  {
    if w.inboxes[me].queue != [] {
      OneThenRest(me, conns, w);
      LoopWritesToMapped(me, conns, ReceiveOne(me, conns, w));
    }
  }

  lemma StoredOne(rows: seq<Copy>, cp: Copy, u: UserId)
    ensures MessagesFor(rows + [cp], u) == MessagesFor(rows, u) + (if cp.user == u then [cp.msg] else [])
  {
  }

  /** Every queued message for a user not mapped here is stored, in queue order; no
      other row is added. */
  lemma {:induction false} LoopStores(me: nat, conns: ConnMap, w: World, u: UserId)
    requires me < |w.inboxes|
    ensures MessagesFor(ReceiveAll(me, conns, w).rows, u)
         == MessagesFor(w.rows, u) + (if u in conns then [] else MessagesFor(w.inboxes[me].queue, u))
    decreases |w.inboxes[me].queue|
  {
    var queue, stored := w.inboxes[me].queue, MessagesFor(w.rows, u);
    if queue == [] {
      assert stored + [] == stored;
    } else {
      OneThenRest(me, conns, w);
      StoredOne(w.rows, queue[0], u);
      MessagesForHead(queue, u);
      LoopStores(me, conns, ReceiveOne(me, conns, w), u);
      var head, rest := if queue[0].user == u then [queue[0].msg] else [], MessagesFor(queue[1..], u);
      Shift(stored, head, rest);
      assert stored + [] == stored;
    }
  }

  function Receives(me: nat, n: nat): seq<Event> {
    seq(n, _ => Receive(me))
  }

  /** The loop is that many turns of the cluster's notify thread. */
  lemma {:induction false} LoopIsRun(c: Cluster, me: nat)
    requires WellFormed(c) && me < |c.conns|
    ensures Run(c, Receives(me, |c.world.inboxes[me].queue|))
         == c.(world := ReceiveAll(me, c.conns[me], c.world))
    decreases |c.world.inboxes[me].queue|
  {
    var n := |c.world.inboxes[me].queue|;
    if n == 0 {
      assert Receives(me, n) == [];
    } else {
      OneThenRest(me, c.conns[me], c.world);
      var c1 := Apply(c, Receive(me));
      LoopIsRun(c1, me);
      assert Receives(me, n) == [Receive(me)] + Receives(me, n - 1);
      RunConcat(c, [Receive(me)], Receives(me, n - 1));
      FirstEvent(c, Receive(me));
    }
  }

  lemma FirstEvent(c: Cluster, e: Event)
    requires WellFormed(c)
    ensures Run(c, [e]) == Apply(c, e)
  {
    assert [e][..0] == [];
  }
}
