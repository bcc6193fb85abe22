/** Who is logged in where: the processes' maps, the user table and the broker's
    subscriptions agree in every reachable state. */
module Sessions {
  import opened ChatTypes
  import opened UserTable
  import opened GroupTable
  import opened RedisBroker
  import opened ChatServer
  import opened ClusterModel

  predicate Maps(c: Cluster, i: nat, u: UserId) {
    i < |c.conns| && u in c.conns[i]
  }

  ghost predicate MappedSomewhere(c: Cluster, u: UserId) {
    exists i :: Maps(c, i, u)
  }

  ghost predicate Agree(c: Cluster) {
    && WellFormed(c)
    && -1 !in c.world.users
    && (forall i, j, u :: Maps(c, i, u) && Maps(c, j, u) ==> i == j)
    && (forall i: nat, u | i < |c.conns| :: u in c.world.inboxes[i].subs <==> Maps(c, i, u))
    && (forall u :: IsOnline(c.world, u) <==> MappedSomewhere(c, u))
  }

  ghost predicate OneUserPerConn(c: Cluster) {
    forall i: nat, u, v :: Maps(c, i, u) && Maps(c, i, v) && c.conns[i][u] == c.conns[i][v] ==> u == v
  }

  ghost predicate Inv(c: Cluster) {
    Agree(c) && OneUserPerConn(c)
  }

  /** Two worlds with the same accounts and subscriptions. */
  ghost predicate SameSessions(a: World, b: World) {
    && a.users == b.users
    && |a.inboxes| == |b.inboxes|
    && (forall i | 0 <= i < |a.inboxes| :: a.inboxes[i].subs == b.inboxes[i].subs)
  }

  lemma {:induction false} RouteAllKeepsSessions(conns: ConnMap, w: World, users: seq<UserId>, msg: Json)
    ensures var r := RouteAll(conns, w, users, msg);
            SameSessions(w, r) && r.members == w.members && r.groups == w.groups
  {
    if users != [] {
      RouteAllKeepsSessions(conns, w, users[..|users| - 1], msg);
    }
  }

  lemma SameSessionsKeepInv(c: Cluster, w: World)
    requires SameSessions(c.world, w)
    ensures Agree(c) ==> Agree(c.(world := w))
    ensures OneUserPerConn(c) ==> OneUserPerConn(c.(world := w))
  {
    var c' := c.(world := w);
    assert forall i, u :: Maps(c', i, u) == Maps(c, i, u);
    assert forall u :: MappedSomewhere(c', u) == MappedSomewhere(c, u);
    assert forall u :: IsOnline(c'.world, u) == IsOnline(c.world, u);
  }

  /** A login keeps the agreement whatever its connection already carries. */
  lemma LoginKeepsAgree(c: Cluster, i: nat, conn: Conn, js: Json)
    requires Agree(c) && i < |c.conns|
    ensures var v := Login(i, c.conns[i], c.world, conn, js);
            Agree(Cluster(c.conns[i := v.conns], v.world))
  {
    var v := Login(i, c.conns[i], c.world, conn, js);
    var c' := Cluster(c.conns[i := v.conns], v.world);
    if !LoginAccepted(c.world, js) {
      assert c' == c.(world := v.world);
      SameSessionsKeepInv(c, v.world);
    } else {
      var u := js.id.value;
      assert !IsOnline(c.world, u) && !MappedSomewhere(c, u);
      assert forall j :: !Maps(c, j, u);
      assert forall j, x :: Maps(c', j, x) <==> Maps(c, j, x) || (j == i && x == u);
      forall x ensures IsOnline(c'.world, x) <==> MappedSomewhere(c', x) {
        if x == u {
          assert Maps(c', i, u);
        } else {
          assert MappedSomewhere(c', x) <==> MappedSomewhere(c, x);
        }
      }
    }
  }

  lemma LoginKeepsInv(c: Cluster, i: nat, conn: Conn, js: Json)
    requires Inv(c) && i < |c.conns| && (LoginAccepted(c.world, js) ==> BoundUsers(c.conns[i], conn) == {})
    ensures var v := Login(i, c.conns[i], c.world, conn, js);
            Inv(Cluster(c.conns[i := v.conns], v.world))
  {
    LoginKeepsAgree(c, i, conn, js);
    var v := Login(i, c.conns[i], c.world, conn, js);
    var c' := Cluster(c.conns[i := v.conns], v.world);
    if LoginAccepted(c.world, js) {
      forall x | x in c.conns[i] ensures c.conns[i][x] != conn {
        assert x !in BoundUsers(c.conns[i], conn);
      }
    }
    assert forall j, x :: Maps(c', j, x) ==> Maps(c, j, x) || (j == i && js.id == Some(x));
  }

  lemma LogOutKeepsInv(c: Cluster, i: nat, u: UserId)
    requires Inv(c) && i < |c.conns|
    ensures var v := LogOut(i, c.conns[i], c.world, u);
            Inv(Cluster(c.conns[i := v.conns], v.world))
  {
    var v := LogOut(i, c.conns[i], c.world, u);
    var c' := Cluster(c.conns[i := v.conns], v.world);
    if u in c.conns[i] {
      assert Maps(c, i, u);
      RemovedKeepsInv(c, i, u, c');
    } else {
      assert c' == c;
    }
  }

  /** One user leaves one process completely. */
  lemma RemovedKeepsInv(c: Cluster, i: nat, u: UserId, c': Cluster)
    requires Inv(c) && Maps(c, i, u) && WellFormed(c')
    requires c'.conns == c.conns[i := c.conns[i] - {u}]
    requires c'.world.users == UpdateState(c.world.users, u, Offline)
    requires c'.world.inboxes == Unsubscribe(c.world.inboxes, i, u)
    ensures Inv(c')
  {
    assert forall j, x :: Maps(c', j, x) <==> Maps(c, j, x) && !(j == i && x == u);
    assert MappedSomewhere(c, u);
    forall x ensures IsOnline(c'.world, x) <==> MappedSomewhere(c', x) {
      if x != u {
        assert MappedSomewhere(c', x) <==> MappedSomewhere(c, x);
      }
    }
  }

  /** The connection of a mapped user carries nobody else. */
  lemma OnlyUserOf(c: Cluster, i: nat, u: UserId)
    requires OneUserPerConn(c) && Maps(c, i, u)
    ensures BoundUsers(c.conns[i], c.conns[i][u]) == {u}
  {
    forall v | v in BoundUsers(c.conns[i], c.conns[i][u]) ensures v == u {
      assert Maps(c, i, v);
    }
  }

  lemma CloseKeepsInv(c: Cluster, i: nat, conn: Conn, last: UserId)
    requires Inv(c) && i < |c.conns|
    requires BoundUsers(c.conns[i], conn) != {} ==> last in BoundUsers(c.conns[i], conn)
    ensures var v := ClientClose(i, c.conns[i], c.world, conn, last);
            Inv(Cluster(c.conns[i := v.conns], v.world))
  {
    var v := ClientClose(i, c.conns[i], c.world, conn, last);
    var c' := Cluster(c.conns[i := v.conns], v.world);
    var bound := BoundUsers(c.conns[i], conn);
    if bound == {} {
      assert c' == c;
    } else {
      assert Maps(c, i, last) && MappedSomewhere(c, last);
      OnlyUserOf(c, i, last);
      RemovedKeepsInv(c, i, last, c');
    }
  }

  lemma HandleKeepsInv(c: Cluster, i: nat, conn: Conn, js: Json, insertId: int)
    requires Inv(c) && i < |c.conns| && Allowed(c, Message(i, conn, js, insertId))
    ensures var v := Handle(i, c.conns[i], c.world, conn, js, insertId);
            Inv(Cluster(c.conns[i := v.conns], v.world))
  {
    var v := Handle(i, c.conns[i], c.world, conn, js, insertId);
    var c' := Cluster(c.conns[i := v.conns], v.world);
    if js.kind == Some(LOGIN_MSG) {
      LoginKeepsInv(c, i, conn, js);
    } else if js.kind == Some(LOG_OUT_MSG) && js.id.Some? {
      LogOutKeepsInv(c, i, js.id.value);
    } else {
      assert c' == c.(world := v.world);
      if js.kind == Some(REG_MSG) {
        forall u ensures IsOnline(c'.world, u) == IsOnline(c.world, u) {}
        assert forall j, u :: Maps(c', j, u) == Maps(c, j, u);
        assert forall u :: MappedSomewhere(c', u) == MappedSomewhere(c, u);
      } else {
        if js.kind == Some(GROUP_CHAT_MSG) && js.id.Some? && js.groupid.Some? {
          var users := GroupUsers(c.world.members, js.id.value, js.groupid.value);
          RouteAllKeepsSessions(c.conns[i], c.world, users, js);
        }
        assert SameSessions(c.world, v.world);
        SameSessionsKeepInv(c, v.world);
      }
    }
  }

  /** Every allowed step but a shutdown keeps the agreement. */
  lemma StepKeepsInv(c: Cluster, e: Event)
    requires Inv(c) && Allowed(c, e) && !e.Shutdown?
    ensures Inv(Apply(c, e))
  {
    if e.srv < |c.conns| {
      match e
      case Message(i, conn, js, insertId) => HandleKeepsInv(c, i, conn, js, insertId);
      case Disconnect(i, conn, last) => CloseKeepsInv(c, i, conn, last);
      case Receive(i) =>
        var w := ReceiveOne(i, c.conns[i], c.world);
        assert SameSessions(c.world, w);
        SameSessionsKeepInv(c, w);
    }
  }

  /** Over whole runs, for any number of processes, users and events. */
  lemma {:induction false} RunKeepsInv(c: Cluster, events: seq<Event>)
    requires Inv(c) && AllowedRun(c, events, false)
    ensures Inv(Run(c, events))
  {
    if events != [] {
      RunKeepsInv(c, events[..|events| - 1]);
      StepKeepsInv(Run(c, events[..|events| - 1]), events[|events| - 1]);
    }
  }

  /** A cluster that has just started: nobody online, no map, no subscription. */
  ghost predicate Started(c: Cluster) {
    && WellFormed(c) && -1 !in c.world.users
    && (forall i, u :: !Maps(c, i, u))
    && (forall u :: !IsOnline(c.world, u))
    && (forall i: nat | i < |c.world.inboxes| :: c.world.inboxes[i].subs == {})
  }

  /** So the invariant holds in every state a run from a fresh start reaches. */
  lemma ReachableAgree(c: Cluster, events: seq<Event>)
    requires Started(c) && AllowedRun(c, events, false)
    ensures Inv(Run(c, events))
  {
    assert forall u :: !MappedSomewhere(c, u);
    RunKeepsInv(c, events);
  }

  // ----- What the agreement means ---------------------------------------------

  lemma {:induction false} SubscribersCount(inboxes: seq<Inbox>, u: UserId, j: nat)
    requires j < |inboxes| && u in inboxes[j].subs
    requires forall k | 0 <= k < |inboxes| && k != j :: u !in inboxes[k].subs
    ensures Subscribers(inboxes, u) == 1
  {
    var n := |inboxes| - 1;
    if j == n {
      NoSubscribers(inboxes[..n], u);
    } else {
      SubscribersCount(inboxes[..n], u, j);
    }
  }

  lemma {:induction false} TwoSubscribers(inboxes: seq<Inbox>, u: UserId, i: nat, j: nat)
    requires i < |inboxes| && j < |inboxes| && i != j
    requires forall k | 0 <= k < |inboxes| :: u in inboxes[k].subs <==> k == i || k == j
    ensures Subscribers(inboxes, u) == 2
  {
    var n := |inboxes| - 1;
    if i == n {
      SubscribersCount(inboxes[..n], u, j);
    } else if j == n {
      SubscribersCount(inboxes[..n], u, i);
    } else {
      TwoSubscribers(inboxes[..n], u, i, j);
    }
  }

  lemma {:induction false} NoSubscribers(inboxes: seq<Inbox>, u: UserId)
    ensures Subscribers(inboxes, u) == 0 <==> forall k | 0 <= k < |inboxes| :: u !in inboxes[k].subs
  {
    if inboxes != [] {
      var n := |inboxes| - 1;
      NoSubscribers(inboxes[..n], u);
      assert inboxes[n].subs == inboxes[n].subs;
      assert forall k | 0 <= k < n :: inboxes[..n][k] == inboxes[k];
    }
  }

  /** A user is online exactly when one process maps it, that process and no
      other is subscribed to its channel, and the broker then counts exactly one
      subscriber (otherwise none). */
  lemma ThreeWayAgreement(c: Cluster, u: UserId)
    requires Agree(c)
    ensures IsOnline(c.world, u) <==> exists i :: Maps(c, i, u) && forall j :: Maps(c, j, u) ==> j == i
    ensures forall i: nat | i < |c.conns| :: u in c.world.inboxes[i].subs <==> u in c.conns[i]
    ensures Subscribers(c.world.inboxes, u) == if IsOnline(c.world, u) then 1 else 0
  {
    assert forall i: nat | i < |c.conns| :: u in c.world.inboxes[i].subs <==> Maps(c, i, u);
    if IsOnline(c.world, u) {
      assert MappedSomewhere(c, u);
      var i :| Maps(c, i, u);
      SubscribersCount(c.world.inboxes, u, i);
    } else {
      assert !MappedSomewhere(c, u);
      assert forall i :: !Maps(c, i, u);
      NoSubscribers(c.world.inboxes, u);
    }
  }

  /** A publication, which a process makes only for an online user it does not
      map, is appended to one queue: that of another process, the one that maps
      the user. */
  lemma PublishReachesTheMappingProcess(c: Cluster, i: nat, cp: Copy) returns (j: nat)
    requires Agree(c) && i < |c.conns| && !Maps(c, i, cp.user) && IsOnline(c.world, cp.user)
    ensures Maps(c, j, cp.user) && j != i
    ensures var inbox := c.world.inboxes[j];
            Publish(c.world.inboxes, cp) == c.world.inboxes[j := inbox.(queue := inbox.queue + [cp])]
  {
    assert MappedSomewhere(c, cp.user);
    j :| Maps(c, j, cp.user);
  }

  // ----- Where the agreement breaks -------------------------------------------

  /** A close keeps the agreement exactly when the connection carried at most
      one user: the scan erases every entry but marks only one user offline. */
  lemma CloseKeepsAgreementExactly(c: Cluster, i: nat, conn: Conn, last: UserId)
    requires Agree(c) && i < |c.conns|
    requires BoundUsers(c.conns[i], conn) != {} ==> last in BoundUsers(c.conns[i], conn)
    ensures Agree(Apply(c, Disconnect(i, conn, last))) <==> |BoundUsers(c.conns[i], conn)| <= 1
  {
    var c' := Apply(c, Disconnect(i, conn, last));
    var bound := BoundUsers(c.conns[i], conn);
    if bound == {} {
      assert c' == c;
    } else {
      assert forall j, x :: Maps(c', j, x) <==> Maps(c, j, x) && !(j == i && x in bound);
      assert Maps(c, i, last) && MappedSomewhere(c, last);
      if x :| x in bound && x != last {
        assert |bound| >= 2 by { assert {x, last} <= bound; SubsetSize({x, last}, bound); }
        assert Maps(c, i, x) && MappedSomewhere(c, x);
        assert IsOnline(c'.world, x) && !MappedSomewhere(c', x);
      } else {
        assert forall x | x in bound :: x == last;
        assert bound == {last};
        forall x ensures IsOnline(c'.world, x) <==> MappedSomewhere(c', x) {
          if x != last {
            assert MappedSomewhere(c', x) <==> MappedSomewhere(c, x);
          }
        }
      }
    }
  }

  /** Such a connection is two accepted logins away, and its close then always breaks
      the agreement. */
  lemma TwoLoginsOnOneConnection(c: Cluster, i: nat, conn: Conn, js: Json, js': Json, insertId: int, last: UserId)
    requires Agree(c) && i < |c.conns| && js.kind == Some(LOGIN_MSG) && js'.kind == Some(LOGIN_MSG)
    requires LoginAccepted(c.world, js) && LoginAccepted(c.world, js') && js.id != js'.id
    ensures var c' := Apply(Apply(c, Message(i, conn, js, insertId)), Message(i, conn, js', insertId));
            var bound := BoundUsers(c'.conns[i], conn);
            && Agree(c') && js.id.value in bound && js'.id.value in bound
            && (last in bound ==> !Agree(Apply(c', Disconnect(i, conn, last))))
  {
    var c1 := Apply(c, Message(i, conn, js, insertId));
    LoginKeepsAgree(c, i, conn, js);
    assert c1 == Cluster(c.conns[i := Login(i, c.conns[i], c.world, conn, js).conns],
                         Login(i, c.conns[i], c.world, conn, js).world);
    LoginKeepsAgree(c1, i, conn, js');
    var c' := Apply(c1, Message(i, conn, js', insertId));
    var bound := BoundUsers(c'.conns[i], conn);
    var u, v := js.id.value, js'.id.value;
    assert !MappedSomewhere(c, u) && !MappedSomewhere(c, v) && !Maps(c, i, u) && !Maps(c, i, v);
    assert LoginAccepted(c1.world, js');
    if last in bound {
      SubsetSize({u, v}, bound);
      CloseKeepsAgreementExactly(c', i, conn, last);
    }
  }

  lemma {:induction false} SubsetSize(a: set<UserId>, b: set<UserId>)
    requires a <= b
    ensures |a| <= |b|
  {
    assert b == a + (b - a);
  }

  /** A shutdown keeps the agreement exactly when no other process maps anyone:
      it marks the users of all processes offline. */
  lemma ShutdownKeepsAgreementExactly(c: Cluster, i: nat)
    requires Agree(c) && i < |c.conns|
    ensures Agree(Apply(c, Shutdown(i))) <==> forall j, u :: Maps(c, j, u) ==> j == i
  {
    var c' := Apply(c, Shutdown(i));
    assert forall j, u :: Maps(c', j, u) <==> Maps(c, j, u) && j != i;
    assert forall u :: !IsOnline(c'.world, u);
    if Agree(c') {
      forall j, u | Maps(c, j, u) ensures j == i {
        if j != i {
          assert Maps(c', j, u) && MappedSomewhere(c', u);
        }
      }
    }
  }
}
