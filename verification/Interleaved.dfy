/** Clients, pipes and servers whose handlers interleave: the clients discharge what
    the exact ledger asks of connections, so that only overlapping logins of one id
    remain to be excluded. */
module InterleavedSystem {
  import opened ChatTypes
  import opened UserTable
  import opened ChatServer
  import opened ClusterModel
  import opened Sessions
  import opened Accounting
  import opened Delivery
  import opened SmallStep
  import opened SessionUniqueness
  import opened SmallStepSafety
  import opened LossLedger
  import opened FineDelivery
  import opened ChatClientModel
  import opened ClientSystem

  /** `gone` are the connections whose end the server has seen. */
  datatype Net = Net(z: Fine, peers: map<Conn, Peer>, gone: set<Conn>)

  /** `Begin` takes the next request of a connection; `Lose` is the end of one, and
      `Close` the callback that follows once no handler of it runs. */
  datatype Move =
    | Connect(conn: Conn, srv: nat)
    | OnItsOwn(a: Act)
    | Begin(conn: Conn, insertId: int)
    | Continue(conn: Conn, pick: UserId)
    | ReadQueue(srv: nat)
    | Lose(conn: Conn)
    | Close(conn: Conn, pick: UserId)

  function StepFor(srv: nat, conn: Conn, js: Json, insertId: int): Step {
    if js.kind == Some(LOGIN_MSG) then LoginCheck(srv, conn, js)
    else if js.kind == Some(LOG_OUT_MSG) && js.id.Some? then LogOutStart(srv, conn, js.id.value)
    else Request(srv, conn, js, insertId)
  }

  predicate NeedsLock(js: Json) {
    IsChat(js) || js.kind == Some(LOG_OUT_MSG)
  }

  /** The thread of a connection is idle, has a request, and need not wait for it. */
  predicate Ready(n: Net, conn: Conn) {
    && conn in n.peers && conn !in n.gone && conn !in n.z.ops && n.peers[conn].up != []
    && (NeedsLock(n.peers[conn].up[0]) ==> Free(n.z, n.peers[conn].srv))
  }

  predicate Closable(n: Net, conn: Conn) {
    conn in n.peers && conn in n.gone && conn !in n.z.ops && Free(n.z, n.peers[conn].srv)
  }

  /** The step of the servers a move stands for, if any. */
  function StepOf(n: Net, m: Move): Option<Step> {
    match m
    case Begin(conn, insertId) =>
      if Ready(n, conn) then Some(StepFor(n.peers[conn].srv, conn, n.peers[conn].up[0], insertId)) else None
    case Continue(conn, pick) => Some(Proceed(conn, pick))
    case ReadQueue(srv) => Some(Read(srv))
    case Close(conn, pick) => if Closable(n, conn) then Some(CloseStart(n.peers[conn].srv, conn, pick)) else None
    case _ => None
  }

  /** Of what was written, a connection gets its own. */
  function Fed(p: Peer, frames: seq<Frame>, conn: Conn): Peer {
    p.(down := p.down + FramesFor(frames, conn))
  }

  /** One step of the servers; what it writes goes down the pipes. */
  function Happens(n: Net, s: Step): (r: Net)
    requires WellShaped(n.z)
    ensures WellShaped(r.z)
  {
    var z' := Take(n.z, s);
    var frames := Writes(n.z, z');
    n.(z := z', peers := map conn | conn in n.peers :: Fed(n.peers[conn], frames, conn))
  }

  function Goes(n: Net, m: Move): (r: Net)
    requires WellShaped(n.z)
    ensures WellShaped(r.z)
  {
    match m
    case Connect(conn, srv) =>
      if conn in n.peers then n else n.(peers := n.peers[conn := Peer(srv, FRESH_CLIENT, [], [])])
    case OnItsOwn(a) =>
      if IsOwn(a) && a.conn in n.peers then n.(peers := n.peers[a.conn := Own(n.peers[a.conn], a)]) else n
    case Begin(conn, insertId) =>
      if !Ready(n, conn) then n
      else
        var p := n.peers[conn];
        Happens(n.(peers := n.peers[conn := p.(up := p.up[1..])]), StepFor(p.srv, conn, p.up[0], insertId))
    case Continue(conn, pick) => Happens(n, Proceed(conn, pick))
    case ReadQueue(srv) => Happens(n, Read(srv))
    case Lose(conn) => if conn in n.peers then n.(gone := n.gone + {conn}) else n
    case Close(conn, pick) =>
      if !Closable(n, conn) then n
      else if Carried(n.z.c, n.peers[conn].srv, conn) == {} then
        n.(peers := n.peers - {conn}, gone := n.gone - {conn})
      else
        Happens(n, CloseStart(n.peers[conn].srv, conn, pick))
  }

  /** What the environment chooses: where connections land, and the database's keys. */
  predicate FairMove(n: Net, m: Move) {
    match m
    case Connect(_, srv) => srv < |n.z.c.conns|
    case Begin(_, insertId) => insertId > 0 && insertId !in n.z.c.world.users
    case _ => true
  }

  // ----- The invariant ------------------------------------------------------------------

  /** The login has been taken up, and its reply is not written yet. */
  predicate Unanswered(z: Fine, conn: Conn) {
    conn in z.ops && z.ops[conn].LoggingIn? && (z.ops[conn].stage == Checked || z.ops[conn].stage.Fetched?)
  }

  /** Whom the client may take its connection to carry: from the reply of a login on,
      its user, though the map follows only two steps later. */
  function Promised(z: Fine, srv: nat, conn: Conn): set<UserId> {
    if conn in z.ops && z.ops[conn].LoggingIn? then {z.ops[conn].user} else Carried(z.c, srv, conn)
  }

  predicate LinkInv(z: Fine, conn: Conn, p: Peer) {
    if Unanswered(z, conn) then p.client.phase.Waiting? && p.up == [] && NoReply(p.down)
    else PeerInv(p, Promised(z, p.srv, conn))
  }

  ghost predicate LinksInv(n: Net) {
    forall conn | conn in n.peers ::
      n.peers[conn].srv < |n.z.c.conns| && (conn !in n.gone ==> LinkInv(n.z, conn, n.peers[conn]))
  }

  ghost predicate EntriesInv(n: Net) {
    forall i: nat, u | Maps(n.z.c, i, u) ::
      n.z.c.conns[i][u] in n.peers && n.peers[n.z.c.conns[i][u]].srv == i
  }

  ghost predicate HandlersInv(n: Net) {
    forall conn | conn in n.z.ops ::
      conn in n.peers && n.peers[conn].srv == n.z.ops[conn].srv && (n.z.ops[conn].Closing? ==> conn in n.gone)
  }

  ghost predicate NetInv(n: Net) {
    FineInv(n.z) && LinksInv(n) && EntriesInv(n) && HandlersInv(n)
  }

  // ----- The clients keep the connections in order ---------------------------------------

  /** What the clients see to: a logout names the user of its own connection. */
  predicate LogsOutItsOwn(z: Fine, s: Step) {
    s.LogOutStart? && Maps(z.c, s.srv, s.user) ==> z.c.conns[s.srv][s.user] == s.conn
  }

  /** A request that is taken up meets the conditions of the ledger. */
  lemma BegunIsPermitted(n: Net, conn: Conn, insertId: int)
    requires NetInv(n) && Ready(n, conn) && FairMove(n, Begin(conn, insertId))
    requires NoOverlap(n.z, StepOf(n, Begin(conn, insertId)).value)
    ensures Permitted(n.z, StepOf(n, Begin(conn, insertId)).value)
    ensures LogsOutItsOwn(n.z, StepOf(n, Begin(conn, insertId)).value)
  {
    var p := n.peers[conn];
    var bound := Carried(n.z.c, p.srv, conn);
    assert PeerInv(p, bound);
    if p.up[0].kind == Some(LOGIN_MSG) {
      LoginIsLast(p, bound);
    } else if p.up[0].kind == Some(LOG_OUT_MSG) {
      PopLogOut(p, bound);
      assert p.up[0].id.value in bound;
    }
  }

  lemma MoveIsPermitted(n: Net, m: Move)
    requires NetInv(n) && FairMove(n, m) && StepOf(n, m).Some? && NoOverlap(n.z, StepOf(n, m).value)
    ensures Permitted(n.z, StepOf(n, m).value) && LogsOutItsOwn(n.z, StepOf(n, m).value)
  {
    if m.Begin? {
      BegunIsPermitted(n, m.conn, m.insertId);
    }
  }

  // ----- What one step does to the other connections --------------------------------------

  predicate Moves(s: Step, conn: Conn) {
    !s.Read? && s.conn == conn
  }

  /** Handlers and entries of other connections stay. */
  ghost predicate OthersStay(z: Fine, z': Fine, conn: Conn) {
    && |z'.c.conns| == |z.c.conns|
    && (forall other | other != conn :: other in z'.ops <==> other in z.ops)
    && (forall other | other != conn && other in z.ops :: z'.ops[other] == z.ops[other])
    && (forall i: nat, u | Maps(z.c, i, u) && z.c.conns[i][u] != conn ::
          Maps(z'.c, i, u) && z'.c.conns[i][u] == z.c.conns[i][u])
    && (forall i: nat, u | Maps(z'.c, i, u) && z'.c.conns[i][u] != conn ::
          Maps(z.c, i, u) && z.c.conns[i][u] == z'.c.conns[i][u])
  }

  lemma LoginLeavesOthers(z: Fine, conn: Conn)
    requires WellShaped(z) && conn in z.ops && z.ops[conn].LoggingIn?
    requires z.ops[conn].stage == Marked ==> !Maps(z.c, z.ops[conn].srv, z.ops[conn].user)
    ensures OthersStay(z, LoginStep(z, conn), conn)
  {
  }

  lemma LogOutLeavesOthers(z: Fine, conn: Conn)
    requires WellShaped(z) && conn in z.ops && z.ops[conn].LoggingOut?
    ensures OthersStay(z, LogOutStep(z, conn), conn)
  {
  }

  lemma CloseLeavesOthers(z: Fine, conn: Conn, pick: UserId)
    requires WellShaped(z) && conn in z.ops && z.ops[conn].Closing?
    ensures OthersStay(z, CloseStep(z, conn, pick), conn)
  {
  }

  lemma AdvanceLeavesOthers(z: Fine, conn: Conn, pick: UserId)
    requires FineInv(z) && conn in z.ops
    ensures OthersStay(z, Advance(z, conn, pick), conn)
  {
    assert StandInv(z, z.ops[conn]);
    match z.ops[conn]
    case LoggingIn(_, _, _) => LoginLeavesOthers(z, conn);
    case LoggingOut(_, _, _) => LogOutLeavesOthers(z, conn);
    case Closing(_, _, _) => CloseLeavesOthers(z, conn, pick);
  }

  lemma EraseLeavesOthers(z: Fine, z': Fine, i: nat, u: UserId, conn: Conn)
    requires Maps(z.c, i, u) && z.c.conns[i][u] == conn && z'.c == EraseEntry(z, i, u).c
    requires conn in z'.ops && z'.ops == z.ops[conn := z'.ops[conn]]
    ensures OthersStay(z, z', conn)
  {
  }

  lemma StartLeavesOthers(z: Fine, s: Step)
    requires WellShaped(z) && LogsOutItsOwn(z, s) && (s.LogOutStart? || s.CloseStart? || s.LoginCheck?)
    ensures OthersStay(z, Take(z, s), s.conn)
  {
    if Take(z, s) != z {
      match s
      case LogOutStart(i, conn, u) => EraseLeavesOthers(z, Take(z, s), i, u, conn);
      case CloseStart(i, conn, pick) => EraseLeavesOthers(z, Take(z, s), i, pick, conn);
      case LoginCheck(_, _, _) =>
    }
  }

  lemma SendLeavesOthers(z: Fine, s: Step, conn: Conn)
    requires WellShaped(z) && (s.Request? || s.Read?)
    ensures OthersStay(z, Take(z, s), conn)
  {
    assert Take(z, s).ops == z.ops && Take(z, s).c.conns == z.c.conns;
  }

  lemma StepLeavesOthers(z: Fine, s: Step, conn: Conn)
    requires FineInv(z) && LogsOutItsOwn(z, s) && (Moves(s, conn) || s.Read?)
    ensures OthersStay(z, Take(z, s), conn)
  {
    match s
    case Proceed(_, pick) => if conn in z.ops { AdvanceLeavesOthers(z, conn, pick); }
    case Request(_, _, _, _) => SendLeavesOthers(z, s, conn);
    case Read(_) => SendLeavesOthers(z, s, conn);
    case _ => StartLeavesOthers(z, s);
  }

  lemma SameCarried(z: Fine, z': Fine, conn: Conn, srv: nat, other: Conn)
    requires OthersStay(z, z', conn) && other != conn
    ensures Carried(z'.c, srv, other) == Carried(z.c, srv, other)
  {
    forall u ensures u in Carried(z'.c, srv, other) <==> u in Carried(z.c, srv, other) {
      assert u in Carried(z.c, srv, other) ==> Maps(z.c, srv, u);
      assert u in Carried(z'.c, srv, other) ==> Maps(z'.c, srv, u);
    }
  }

  // ----- What one step writes -------------------------------------------------------------

  /** Every write is a chat message, except a reply to the connection whose login it is. */
  ghost predicate WritesWell(z: Fine, z': Fine, s: Step) {
    && z.c.world.wire <= z'.c.world.wire
    && forall f | f in Writes(z, z') :: f.Chat? || Moves(s, f.conn)
  }

  lemma RequestWrites(z: Fine, s: Step)
    requires WellShaped(z) && s.Request?
    ensures WritesWell(z, Take(z, s), s) && (forall f | f in Writes(z, Take(z, s)) :: f.Chat?)
  {
    if Sends(z, s) {
      SendIsRouteAll(z, s);
      SendAdds(z.c.conns[s.srv], z.c.world, Targets(z.c.world, s.js), s.js);
    } else {
      QuietRequestWrites(z, s);
    }
  }

  lemma QuietRequestWrites(z: Fine, s: Step)
    requires WellShaped(z) && s.Request? && !Sends(z, s)
    ensures Take(z, s).c.world.wire == z.c.world.wire
  {
  }

  lemma ReadWrites(z: Fine, i: nat)
    requires WellShaped(z)
    ensures WritesWell(z, Take(z, Read(i)), Read(i)) && (forall f | f in Writes(z, Take(z, Read(i))) :: f.Chat?)
  {
  }

  lemma AdvanceWrites(z: Fine, conn: Conn, pick: UserId)
    requires WellShaped(z) && conn in z.ops
    ensures WritesWell(z, Advance(z, conn, pick), Proceed(conn, pick))
  {
  }

  lemma StepWrites(z: Fine, s: Step)
    requires WellShaped(z)
    ensures WritesWell(z, Take(z, s), s)
    ensures s.Request? || s.Read? ==> forall f | f in Writes(z, Take(z, s)) :: f.Chat?
  {
    match s
    case Request(_, _, _, _) => RequestWrites(z, s);
    case Read(i) => ReadWrites(z, i);
    case Proceed(conn, pick) => if conn in z.ops { AdvanceWrites(z, conn, pick); }
    case _ =>
  }

  lemma OthersReadChat(z: Fine, s: Step, other: Conn)
    requires WellShaped(z) && (!Moves(s, other) || s.Request?)
    ensures NoReply(FramesFor(Writes(z, Take(z, s)), other))
  {
    StepWrites(z, s);
    FramesForAreOwn(Writes(z, Take(z, s)), other);
  }

  lemma MoreChatKeepsLink(z: Fine, conn: Conn, p: Peer, more: seq<Frame>)
    requires LinkInv(z, conn, p) && NoReply(more)
    ensures LinkInv(z, conn, p.(down := p.down + more))
  {
    if !Unanswered(z, conn) {
      MoreChatKeepsPeerInv(p, Promised(z, p.srv, conn), more);
    }
  }

  /** A step of one connection, or of the notify thread, seen by another connection. */
  lemma OtherLinkKept(z: Fine, s: Step, conn: Conn, other: Conn, p: Peer)
    requires FineInv(z) && LogsOutItsOwn(z, s) && (Moves(s, conn) || s.Read?) && !Moves(s, other)
    requires s.Read? ==> conn != other
    requires LinkInv(z, other, p)
    ensures LinkInv(Take(z, s), other, Fed(p, Writes(z, Take(z, s)), other))
  {
    var z' := Take(z, s);
    StepLeavesOthers(z, s, conn);
    SameCarried(z, z', conn, p.srv, other);
    assert LinkInv(z', other, p);
    OthersReadChat(z, s, other);
    MoreChatKeepsLink(z', other, p, FramesFor(Writes(z, z'), other));
  }

  // ----- What one step does to its own connection -----------------------------------------

  /** A handler stays on its process, and is a close only if it was one or starts one. */
  lemma OwnHandler(z: Fine, s: Step)
    requires WellShaped(z) && !s.Read?
    ensures var z', conn := Take(z, s), s.conn;
            conn in z'.ops ==>
              if conn in z.ops then z'.ops[conn].srv == z.ops[conn].srv && z'.ops[conn].Closing? == z.ops[conn].Closing?
              else (s.LoginCheck? || s.LogOutStart? || s.CloseStart?) && z'.ops[conn].srv == s.srv &&
                   z'.ops[conn].Closing? == s.CloseStart?
  {
  }

  lemma OwnEntries(z: Fine, s: Step, i: nat, u: UserId)
    requires WellShaped(z) && !s.Read? && Maps(Take(z, s).c, i, u) && Take(z, s).c.conns[i][u] == s.conn
    ensures (Maps(z.c, i, u) && z.c.conns[i][u] == s.conn) || (s.conn in z.ops && z.ops[s.conn].srv == i)
  {
  }

  /** The step of a login that writes its reply. */
  lemma ReplyReaches(z: Fine, conn: Conn, p: Peer)
    requires FineInv(z) && Unanswered(z, conn) && LinkInv(z, conn, p)
    ensures var z' := LoginStep(z, conn);
            LinkInv(z', conn, Fed(p, Writes(z, z'), conn))
  {
    var z', u, w := LoginStep(z, conn), z.ops[conn].user, z.c.world;
    if z.ops[conn].stage.Fetched? {
      var f := Reply(conn, u, Accepted(QueryUser(w.users, u).name, z.ops[conn].stage.offline));
      assert Writes(z, z') == [f];
      OneAnswer(p, f, conn, {u});
    } else {
      assert Writes(z, z') == [];
    }
  }

  /** One reply at the end of a pipe of chat messages answers the login. */
  lemma OneAnswer(p: Peer, f: Frame, conn: Conn, bound: set<UserId>)
    requires p.client.phase.Waiting? && p.up == [] && NoReply(p.down) && f.Reply? && f.conn == conn
    requires bound == if f.result.Accepted? then {f.id} else {}
    ensures PeerInv(Fed(p, [f], conn), bound)
  {
    assert [f][..0] == [];
    assert FramesFor([f], conn) == [f];
    var p' := p.(down := p.down + [f]);
    var k := |p.down|;
    assert p'.down[..k] == p.down && p'.down[k + 1..] == [];
  }

  lemma CarriesItsUser(z: Fine, conn: Conn)
    requires FineInv(z) && conn in z.ops && JustInserted(z.ops[conn])
    ensures Carried(z.c, z.ops[conn].srv, conn) == {z.ops[conn].user}
  {
    assert OpInv(z, conn, z.ops[conn]);
    OnlyUserOf(z.c, z.ops[conn].srv, z.ops[conn].user);
  }

  lemma LogsOutSilently(z: Fine, conn: Conn)
    requires WellShaped(z) && conn in z.ops && z.ops[conn].LoggingOut?
    ensures var z', i := LogOutStep(z, conn), z.ops[conn].srv;
            && Writes(z, z') == [] && !Unanswered(z', conn) && Promised(z', i, conn) == Promised(z, i, conn)
  {
  }

  lemma LogsInSilently(z: Fine, conn: Conn)
    requires WellShaped(z) && conn in z.ops && z.ops[conn].LoggingIn? && !Unanswered(z, conn)
    requires z.ops[conn].stage != Inserted
    ensures var z', i := LoginStep(z, conn), z.ops[conn].srv;
            && Writes(z, z') == [] && !Unanswered(z', conn) && Promised(z', i, conn) == Promised(z, i, conn)
  {
  }

  /** Any other step of a login or logout writes nothing and breaks no promise. */
  lemma ContinuesSilently(z: Fine, conn: Conn, pick: UserId)
    requires FineInv(z) && conn in z.ops && !z.ops[conn].Closing? && !Unanswered(z, conn)
    ensures var z', i := Take(z, Proceed(conn, pick)), z.ops[conn].srv;
            && Writes(z, z') == [] && !Unanswered(z', conn) && Promised(z', i, conn) == Promised(z, i, conn)
  {
    if z.ops[conn].LoggingOut? {
      LogsOutSilently(z, conn);
    } else if z.ops[conn].stage == Inserted {
      CarriesItsUser(z, conn);
    } else {
      LogsInSilently(z, conn);
    }
  }

  lemma SamePromise(z: Fine, z': Fine, conn: Conn, p: Peer)
    requires LinkInv(z, conn, p) && !Unanswered(z, conn) && !Unanswered(z', conn)
    requires Promised(z', p.srv, conn) == Promised(z, p.srv, conn)
    ensures LinkInv(z', conn, p)
  {
  }

  lemma NothingFor(p: Peer, conn: Conn)
    ensures Fed(p, [], conn) == p
  {
    assert p.down + [] == p.down;
  }

  /** A handler goes on, for a client that may still be there. */
  lemma ContinuedLink(z: Fine, conn: Conn, pick: UserId, p: Peer)
    requires FineInv(z) && conn in z.ops && !z.ops[conn].Closing? && p.srv == z.ops[conn].srv && LinkInv(z, conn, p)
    ensures var z' := Take(z, Proceed(conn, pick));
            LinkInv(z', conn, Fed(p, Writes(z, z'), conn))
  {
    if Unanswered(z, conn) {
      ReplyReaches(z, conn, p);
    } else {
      ContinuesSilently(z, conn, pick);
      SamePromise(z, Take(z, Proceed(conn, pick)), conn, p);
      NothingFor(p, conn);
    }
  }

  lemma LoginBegun(z: Fine, conn: Conn, p: Peer)
    requires FineInv(z) && conn !in z.ops && p.srv < |z.c.conns| && LinkInv(z, conn, p)
    requires p.up != [] && p.up[0].kind == Some(LOGIN_MSG)
    ensures var z' := Take(z, LoginCheck(p.srv, conn, p.up[0]));
            LinkInv(z', conn, Fed(p.(up := p.up[1..]), Writes(z, z'), conn))
  {
    var js := p.up[0];
    LoginIsLast(p, Carried(z.c, p.srv, conn));
    var z' := Take(z, LoginCheck(p.srv, conn, js));
    if LoginAccepted(z.c.world, js) {
      assert Writes(z, z') == [];
      NothingFor(p.(up := p.up[1..]), conn);
    } else {
      var reason := LoginRefusal(z.c.world.users, js.id.value, js.password.value).value;
      assert Writes(z, z') == [Reply(conn, js.id.value, Refused(reason))];
      OneAnswer(p.(up := p.up[1..]), Reply(conn, js.id.value, Refused(reason)), conn, {});
    }
  }

  lemma LogOutBegun(z: Fine, conn: Conn, p: Peer)
    requires FineInv(z) && conn !in z.ops && Free(z, p.srv) && LinkInv(z, conn, p)
    requires p.up != [] && p.up[0].kind == Some(LOG_OUT_MSG)
    ensures p.up[0].id.Some?
    ensures var z' := Take(z, LogOutStart(p.srv, conn, p.up[0].id.value));
            LinkInv(z', conn, Fed(p.(up := p.up[1..]), Writes(z, z'), conn))
  {
    var bound := Carried(z.c, p.srv, conn);
    PopLogOut(p, bound);
    var u := p.up[0].id.value;
    assert u in bound;
    var z' := Take(z, LogOutStart(p.srv, conn, u));
    forall v ensures v in Carried(z'.c, p.srv, conn) <==> v in {} {
      assert v in bound <==> v == u;
    }
    assert Carried(z'.c, p.srv, conn) == {};
    assert Writes(z, z') == [];
    NothingFor(p.(up := p.up[1..]), conn);
  }

  lemma RequestBegun(z: Fine, conn: Conn, p: Peer, insertId: int)
    requires FineInv(z) && conn !in z.ops && LinkInv(z, conn, p)
    requires p.up != [] && p.up[0].kind != Some(LOGIN_MSG) && p.up[0].kind != Some(LOG_OUT_MSG)
    ensures var z' := Take(z, Request(p.srv, conn, p.up[0], insertId));
            LinkInv(z', conn, Fed(p.(up := p.up[1..]), Writes(z, z'), conn))
  {
    var s := Request(p.srv, conn, p.up[0], insertId);
    var z' := Take(z, s);
    ServedPlain(p, Carried(z.c, p.srv, conn));
    assert z'.ops == z.ops && z'.c.conns == z.c.conns;
    OthersReadChat(z, s, conn);
    MoreChatKeepsLink(z', conn, p.(up := p.up[1..]), FramesFor(Writes(z, z'), conn));
  }

  lemma BegunLink(n: Net, conn: Conn, insertId: int)
    requires NetInv(n) && Ready(n, conn)
    ensures var p, s := n.peers[conn], StepOf(n, Begin(conn, insertId)).value;
            var z' := Take(n.z, s);
            LinkInv(z', conn, Fed(p.(up := p.up[1..]), Writes(n.z, z'), conn))
  {
    var p := n.peers[conn];
    if p.up[0].kind == Some(LOGIN_MSG) {
      LoginBegun(n.z, conn, p);
    } else if p.up[0].kind == Some(LOG_OUT_MSG) {
      LogOutBegun(n.z, conn, p);
    } else {
      RequestBegun(n.z, conn, p, insertId);
    }
  }

  // ----- Every move, every run --------------------------------------------------------------

  /** `m` is `n` with the request that `s` serves taken off its pipe. */
  ghost predicate TakenUp(n: Net, m: Net, s: Step) {
    && m.z == n.z && m.gone == n.gone && m.peers.Keys == n.peers.Keys
    && (forall conn | conn in n.peers :: m.peers[conn].srv == n.peers[conn].srv)
    && (forall conn | conn in n.peers && !Moves(s, conn) :: m.peers[conn] == n.peers[conn])
    && (!s.Read? ==> s.conn in n.peers && (s.CloseStart? ==> s.conn in n.gone))
    && (s.LoginCheck? || s.LogOutStart? || s.CloseStart? ==> s.srv == n.peers[s.conn].srv)
  }

  lemma StepKeepsEntries(n: Net, m: Net, s: Step)
    requires NetInv(n) && Permitted(n.z, s) && LogsOutItsOwn(n.z, s) && TakenUp(n, m, s)
    ensures EntriesInv(Happens(m, s)) && HandlersInv(Happens(m, s))
  {
    var r := Happens(m, s);
    var conn := if s.Read? then 0 else s.conn;
    StepLeavesOthers(n.z, s, conn);
    if s.Read? {
      assert r.z.c.conns == n.z.c.conns && r.z.ops == n.z.ops;
      assert forall i, u :: Maps(r.z.c, i, u) == Maps(n.z.c, i, u);
    } else {
      OwnHandler(n.z, s);
      forall i: nat, u | Maps(r.z.c, i, u)
        ensures r.z.c.conns[i][u] in r.peers && r.peers[r.z.c.conns[i][u]].srv == i
      {
        if r.z.c.conns[i][u] == conn {
          OwnEntries(n.z, s, i, u);
        }
      }
    }
  }

  lemma StepKeepsNet(n: Net, m: Net, s: Step)
    requires NetInv(n) && Permitted(n.z, s) && LogsOutItsOwn(n.z, s) && TakenUp(n, m, s)
    requires !s.Read? && s.conn !in n.gone ==>
               LinkInv(Take(n.z, s), s.conn, Fed(m.peers[s.conn], Writes(n.z, Take(n.z, s)), s.conn))
    ensures NetInv(Happens(m, s))
  {
    var r := Happens(m, s);
    TakeKeepsInv(n.z, s);
    StepKeepsEntries(n, m, s);
    StepLeavesOthers(n.z, s, if s.Read? then 0 else s.conn);
    forall conn | conn in r.peers && conn !in r.gone ensures LinkInv(r.z, conn, r.peers[conn]) {
      if !Moves(s, conn) {
        OtherLinkKept(n.z, s, if s.Read? then conn + 1 else s.conn, conn, n.peers[conn]);
      }
    }
  }

  lemma RequestTakenUp(n: Net, m: Net, conn: Conn, insertId: int)
    requires Ready(n, conn)
    requires m == n.(peers := n.peers[conn := n.peers[conn].(up := n.peers[conn].up[1..])])
    ensures TakenUp(n, m, StepOf(n, Begin(conn, insertId)).value)
  {
  }

  lemma BeginKeepsNet(n: Net, conn: Conn, insertId: int)
    requires NetInv(n) && Ready(n, conn) && FairMove(n, Begin(conn, insertId))
    requires NoOverlap(n.z, StepOf(n, Begin(conn, insertId)).value)
    ensures NetInv(Goes(n, Begin(conn, insertId)))
  {
    var p, s := n.peers[conn], StepOf(n, Begin(conn, insertId)).value;
    var m := n.(peers := n.peers[conn := p.(up := p.up[1..])]);
    BegunIsPermitted(n, conn, insertId);
    BegunLink(n, conn, insertId);
    RequestTakenUp(n, m, conn, insertId);
    StepKeepsNet(n, m, s);
  }

  /** No handler runs for the connection. */
  lemma IdleContinues(n: Net, conn: Conn, pick: UserId)
    requires WellShaped(n.z) && conn !in n.z.ops
    ensures Happens(n, Proceed(conn, pick)) == n
  {
    assert Writes(n.z, n.z) == [];
    forall other | other in n.peers {
      NothingFor(n.peers[other], other);
    }
    assert Happens(n, Proceed(conn, pick)).peers == n.peers;
  }

  lemma NothingTakenUp(n: Net, conn: Conn, pick: UserId)
    requires HandlersInv(n) && conn in n.z.ops
    ensures TakenUp(n, n, Proceed(conn, pick))
  {
  }

  lemma HandlerContinues(n: Net, conn: Conn, pick: UserId)
    requires NetInv(n) && conn in n.z.ops
    ensures NetInv(Happens(n, Proceed(conn, pick)))
  {
    NothingTakenUp(n, conn, pick);
    if conn !in n.gone {
      assert !n.z.ops[conn].Closing? && n.peers[conn].srv == n.z.ops[conn].srv;
      assert LinkInv(n.z, conn, n.peers[conn]);
      ContinuedLink(n.z, conn, pick, n.peers[conn]);
    }
    StepKeepsNet(n, n, Proceed(conn, pick));
  }

  lemma ContinueKeepsNet(n: Net, conn: Conn, pick: UserId)
    requires NetInv(n)
    ensures NetInv(Goes(n, Continue(conn, pick)))
  {
    assert Goes(n, Continue(conn, pick)) == Happens(n, Proceed(conn, pick));
    if conn in n.z.ops {
      HandlerContinues(n, conn, pick);
    } else {
      IdleContinues(n, conn, pick);
    }
  }

  /** The callback of a connection that carries nobody. */
  lemma ForgetKeepsNet(n: Net, conn: Conn)
    requires NetInv(n) && conn in n.peers && conn !in n.z.ops && Carried(n.z.c, n.peers[conn].srv, conn) == {}
    ensures NetInv(n.(peers := n.peers - {conn}, gone := n.gone - {conn}))
  {
    forall i: nat, u | Maps(n.z.c, i, u) ensures n.z.c.conns[i][u] != conn {
      assert u !in Carried(n.z.c, n.peers[conn].srv, conn);
    }
  }

  lemma CloseKeepsNet(n: Net, conn: Conn, pick: UserId)
    requires NetInv(n) && Closable(n, conn)
    ensures NetInv(Goes(n, Close(conn, pick)))
  {
    if Carried(n.z.c, n.peers[conn].srv, conn) == {} {
      ForgetKeepsNet(n, conn);
    } else {
      StepKeepsNet(n, n, CloseStart(n.peers[conn].srv, conn, pick));
    }
  }

  /** A client on its own. While its login is being handled it can only read chat. */
  lemma OwnKeepsLink(z: Fine, conn: Conn, p: Peer, a: Act)
    requires LinkInv(z, conn, p)
    ensures LinkInv(z, conn, Own(p, a))
  {
    if !Unanswered(z, conn) {
      OwnKeepsPeerInv(p, Promised(z, p.srv, conn), a);
    }
  }

  lemma PeerKeepsNet(n: Net, conn: Conn, p: Peer)
    requires NetInv(n) && p.srv < |n.z.c.conns| && (conn !in n.gone ==> LinkInv(n.z, conn, p))
    requires conn in n.peers ==> p.srv == n.peers[conn].srv
    ensures NetInv(n.(peers := n.peers[conn := p]))
  {
  }

  lemma ClientKeepsNet(n: Net, a: Act)
    requires NetInv(n) && IsOwn(a) && a.conn in n.peers
    ensures NetInv(Goes(n, OnItsOwn(a)))
  {
    if a.conn !in n.gone {
      OwnKeepsLink(n.z, a.conn, n.peers[a.conn], a);
    }
    PeerKeepsNet(n, a.conn, Own(n.peers[a.conn], a));
  }

  lemma ConnectKeepsNet(n: Net, conn: Conn, srv: nat)
    requires NetInv(n) && conn !in n.peers && srv < |n.z.c.conns|
    ensures NetInv(Goes(n, Connect(conn, srv)))
  {
    forall u ensures u in Carried(n.z.c, srv, conn) <==> u in {} {
      assert Maps(n.z.c, srv, u) <==> u in n.z.c.conns[srv];
    }
    assert Carried(n.z.c, srv, conn) == {};
    PeerKeepsNet(n, conn, Peer(srv, FRESH_CLIENT, [], []));
  }

  /** A login that passes its check finds none of the same id between check and insert. */
  ghost predicate LoginsApart(n: Net, m: Move) {
    StepOf(n, m).Some? ==> NoOverlap(n.z, StepOf(n, m).value)
  }

  lemma MoveKeepsNet(n: Net, m: Move)
    requires NetInv(n) && FairMove(n, m) && LoginsApart(n, m)
    ensures NetInv(Goes(n, m))
  {
    match m
    case Connect(conn, srv) => if conn !in n.peers { ConnectKeepsNet(n, conn, srv); }
    case OnItsOwn(a) => if IsOwn(a) && a.conn in n.peers { ClientKeepsNet(n, a); }
    case Begin(conn, insertId) => if Ready(n, conn) { BeginKeepsNet(n, conn, insertId); }
    case Continue(conn, pick) => ContinueKeepsNet(n, conn, pick);
    case ReadQueue(srv) => StepKeepsNet(n, n, Read(srv));
    case Lose(conn) =>
    case Close(conn, pick) => if Closable(n, conn) { CloseKeepsNet(n, conn, pick); }
  }

  function GoesAll(n: Net, moves: seq<Move>): (r: Net)
    requires WellShaped(n.z)
    ensures WellShaped(r.z)
  {
    if moves == [] then n else Goes(GoesAll(n, moves[..|moves| - 1]), moves[|moves| - 1])
  }

  ghost predicate FairMoves(n: Net, moves: seq<Move>)
    requires WellShaped(n.z)
  {
    moves != [] ==>
      var before, m := moves[..|moves| - 1], moves[|moves| - 1];
      FairMoves(n, before) && FairMove(GoesAll(n, before), m) && LoginsApart(GoesAll(n, before), m)
  }

  /** The steps of the servers in a run of moves. */
  function StepsOf(n: Net, moves: seq<Move>): seq<Step>
    requires WellShaped(n.z)
  {
    if moves == [] then []
    else
      var before := moves[..|moves| - 1];
      StepsOf(n, before) +
      match StepOf(GoesAll(n, before), moves[|moves| - 1])
      case Some(s) => [s]
      case None => []
  }

  lemma MoveIsStep(n: Net, m: Move)
    requires WellShaped(n.z)
    ensures Goes(n, m).z == match StepOf(n, m) case Some(s) => Take(n.z, s) case None => n.z
  {
  }

  /** Whatever users type and whenever connections end: if only logins of one id do not
      overlap, every step of every run is permitted, so all that is proved of the
      interleavings holds with real clients. */
  lemma {:induction false} MovesArePermitted(n: Net, moves: seq<Move>)
    requires NetInv(n) && FairMoves(n, moves)
    ensures NetInv(GoesAll(n, moves))
    ensures PermittedRun(n.z, StepsOf(n, moves)) && NoOverlapRun(n.z, StepsOf(n, moves))
    ensures Execute(n.z, StepsOf(n, moves)) == GoesAll(n, moves).z
  {
    if moves != [] {
      var before, m := moves[..|moves| - 1], moves[|moves| - 1];
      var b, steps := GoesAll(n, before), StepsOf(n, before);
      MovesArePermitted(n, before);
      MoveKeepsNet(b, m);
      MoveIsStep(b, m);
      if StepOf(b, m).Some? {
        MoveIsPermitted(b, m);
        assert (steps + [StepOf(b, m).value])[..|steps|] == steps;
      } else {
        assert steps + [] == steps;
      }
    }
  }

  /** The exact ledger with real clients: what was there and was sent, plus the extra
      copies, is delivered, stored, queued or lost, and a step loses or doubles
      something only in the interleavings the conditions name. */
  lemma NetLedger(n: Net, moves: seq<Move>, next: Step)
    requires NetInv(n) && FairMoves(n, moves)
    ensures var steps, r := StepsOf(n, moves), GoesAll(n, moves);
            && Total(r.z.c.world) + LostIn(n.z, steps) == Total(n.z.c.world) + SentIn(n.z, steps) + ExtraIn(n.z, steps)
            && (Lost(r.z, next) != multiset{} <==> LosesNow(r.z, next))
            && (Extra(r.z, next) != multiset{} <==> DoublesNow(r.z, next))
  {
    MovesArePermitted(n, moves);
    Ledger(n.z, StepsOf(n, moves));
    LostExactlyWhen(GoesAll(n, moves).z, next);
    ExtraExactlyWhen(GoesAll(n, moves).z, next);
  }

  /** A cluster that has just started, before any client connects. */
  lemma NetStarts(c: Cluster)
    requires Started(c)
    ensures NetInv(Net(Fine(c, seq(|c.conns|, _ => None), map[]), map[], {}))
  {
    assert forall u :: !MappedSomewhere(c, u);
    QuietMeansAgree(Fine(c, seq(|c.conns|, _ => None), map[]));
  }

  // ----- Both directions of a pipe --------------------------------------------------------------

  /** What a move reads from the pipe of `conn`, and what it puts in at the other end. */
  function ReadIn(n: Net, m: Move, conn: Conn): seq<Frame> {
    if m == OnItsOwn(ReadDown(conn)) && conn in n.peers then
      var p := n.peers[conn];
      if p.client.reading && !p.client.phase.Stopped? && p.down != [] then [p.down[0]] else []
    else []
  }

  function AskedIn(n: Net, m: Move, conn: Conn): seq<Json> {
    if m.OnItsOwn? && IsOwn(m.a) && m.a.conn == conn && conn in n.peers then AskedNow(n.peers[conn], m.a) else []
  }

  /** The request a handler is started on, told from the step it starts with. */
  ghost predicate StartedOn(n: Net, m: Move, conn: Conn, begun: seq<Json>)
    requires conn in n.peers
  {
    if m.Begin? && m.conn == conn && StepOf(n, m).Some? then
      |begun| == 1 &&
      match StepOf(n, m).value
      case LoginCheck(i, who, js) =>
        i == n.peers[conn].srv && who == conn && js == begun[0] && js.kind == Some(LOGIN_MSG)
      case LogOutStart(i, who, u) =>
        i == n.peers[conn].srv && who == conn && begun[0].kind == Some(LOG_OUT_MSG) && begun[0].id == Some(u)
      case Request(i, who, js, _) =>
        i == n.peers[conn].srv && who == conn && js == begun[0] && js.kind != Some(LOGIN_MSG)
      case _ => false
    else begun == []
  }

  function BegunIn(n: Net, m: Move, conn: Conn): seq<Json> {
    if m.Begin? && m.conn == conn && Ready(n, conn) then [n.peers[conn].up[0]] else []
  }

  /** One move, at both pipes of a connection that stays. */
  ghost predicate Carries(n: Net, m: Move, conn: Conn)
    requires WellShaped(n.z) && conn in n.peers && conn in Goes(n, m).peers
  {
    var p, p', z, z' := n.peers[conn], Goes(n, m).peers[conn], n.z, Goes(n, m).z;
    && StartedOn(n, m, conn, BegunIn(n, m, conn))
    && p.up + AskedIn(n, m, conn) == BegunIn(n, m, conn) + p'.up
    && z.c.world.wire <= z'.c.world.wire
    && p.down + FramesFor(Writes(z, z'), conn) == ReadIn(n, m, conn) + p'.down
  }

  lemma HappensCarries(n: Net, s: Step, conn: Conn)
    requires WellShaped(n.z) && conn in n.peers
    ensures var r := Happens(n, s);
            && n.z.c.world.wire <= r.z.c.world.wire && conn in r.peers
            && r.peers[conn] == Fed(n.peers[conn], Writes(n.z, r.z), conn)
  {
    StepWrites(n.z, s);
  }

  lemma NothingCarried(n: Net, m: Move, conn: Conn)
    requires WellShaped(n.z) && conn in n.peers && conn in Goes(n, m).peers
    requires Goes(n, m).z == n.z && Goes(n, m).peers[conn] == n.peers[conn]
    requires AskedIn(n, m, conn) == [] && BegunIn(n, m, conn) == [] && ReadIn(n, m, conn) == []
    requires StartedOn(n, m, conn, [])
    ensures Carries(n, m, conn)
  {
    var p := n.peers[conn];
    assert p.up + [] == [] + p.up && p.down + [] == [] + p.down;
    assert Writes(n.z, n.z) == [] && FramesFor([], conn) == [];
  }

  lemma OwnCarries(n: Net, a: Act, conn: Conn)
    requires WellShaped(n.z) && conn in n.peers && IsOwn(a) && a.conn in n.peers
    ensures Carries(n, OnItsOwn(a), conn)
  {
    var m := OnItsOwn(a);
    if a.conn == conn {
      var p := n.peers[conn];
      OwnAsks(p, a);
      assert Writes(n.z, n.z) == [] && FramesFor([], conn) == [];
      assert p.down == ReadIn(n, m, conn) + Own(p, a).down;
    } else {
      NothingCarried(n, m, conn);
    }
  }

  lemma BeginIs(n: Net, who: Conn, insertId: int, conn: Conn)
    requires WellShaped(n.z) && conn in n.peers && Ready(n, who)
    ensures conn in Goes(n, Begin(who, insertId)).peers
    ensures var p, r := n.peers[conn], Goes(n, Begin(who, insertId));
            && n.z.c.world.wire <= r.z.c.world.wire
            && r.peers[conn] == Fed(if conn == who then p.(up := p.up[1..]) else p, Writes(n.z, r.z), conn)
  {
    var p := n.peers[who];
    var n1 := n.(peers := n.peers[who := p.(up := p.up[1..])]);
    HappensCarries(n1, StepFor(p.srv, who, p.up[0], insertId), conn);
  }

  lemma BeginCarries(n: Net, who: Conn, insertId: int, conn: Conn)
    requires WellShaped(n.z) && conn in n.peers && Ready(n, who)
    ensures conn in Goes(n, Begin(who, insertId)).peers && Carries(n, Begin(who, insertId), conn)
  {
    var m, p := Begin(who, insertId), n.peers[conn];
    BeginIs(n, who, insertId, conn);
    var q := Goes(n, m).peers[conn];
    assert AskedIn(n, m, conn) == [] && ReadIn(n, m, conn) == [];
    assert [] + q.down == q.down;
    if who == conn {
      assert BegunIn(n, m, conn) == [p.up[0]] && p.up + [] == [p.up[0]] + q.up;
    } else {
      assert BegunIn(n, m, conn) == [] && p.up + [] == [] + q.up;
    }
  }

  /** A step of the servers that starts on no request. */
  lemma StepCarries(n: Net, m: Move, s: Step, conn: Conn)
    requires WellShaped(n.z) && conn in n.peers && Goes(n, m) == Happens(n, s) && !m.Begin? && !m.OnItsOwn?
    ensures conn in Goes(n, m).peers && Carries(n, m, conn)
  {
    HappensCarries(n, s, conn);
    var q := n.peers[conn];
    assert q.up + [] == [] + q.up;
    assert q.down + FramesFor(Writes(n.z, Goes(n, m).z), conn) == [] + Goes(n, m).peers[conn].down;
  }

  lemma MoveCarries(n: Net, m: Move, conn: Conn)
    requires WellShaped(n.z) && conn in n.peers && conn in Goes(n, m).peers
    ensures Carries(n, m, conn)
  {
    match m
    case Connect(_, _) => NothingCarried(n, m, conn);
    case Lose(_) => NothingCarried(n, m, conn);
    case OnItsOwn(a) =>
      if IsOwn(a) && a.conn in n.peers { OwnCarries(n, a, conn); } else { NothingCarried(n, m, conn); }
    case Begin(who, insertId) =>
      if Ready(n, who) { BeginCarries(n, who, insertId, conn); } else { NothingCarried(n, m, conn); }
    case Continue(who, pick) => StepCarries(n, m, Proceed(who, pick), conn);
    case ReadQueue(srv) => StepCarries(n, m, Read(srv), conn);
    case Close(who, pick) =>
      if Closable(n, who) && Carried(n.z.c, n.peers[who].srv, who) != {} {
        StepCarries(n, m, CloseStart(n.peers[who].srv, who, pick), conn);
      } else {
        NothingCarried(n, m, conn);
      }
  }

  ghost predicate StaysConnected(n: Net, moves: seq<Move>, conn: Conn)
    requires WellShaped(n.z)
  {
    conn in GoesAll(n, moves).peers && (moves != [] ==> StaysConnected(n, moves[..|moves| - 1], conn))
  }

  function AskedAll(n: Net, moves: seq<Move>, conn: Conn): seq<Json>
    requires WellShaped(n.z)
  {
    if moves == [] then []
    else AskedAll(n, moves[..|moves| - 1], conn) + AskedIn(GoesAll(n, moves[..|moves| - 1]), moves[|moves| - 1], conn)
  }

  function BegunAll(n: Net, moves: seq<Move>, conn: Conn): seq<Json>
    requires WellShaped(n.z)
  {
    if moves == [] then []
    else BegunAll(n, moves[..|moves| - 1], conn) + BegunIn(GoesAll(n, moves[..|moves| - 1]), moves[|moves| - 1], conn)
  }

  function ReadAll(n: Net, moves: seq<Move>, conn: Conn): seq<Frame>
    requires WellShaped(n.z)
  {
    if moves == [] then []
    else ReadAll(n, moves[..|moves| - 1], conn) + ReadIn(GoesAll(n, moves[..|moves| - 1]), moves[|moves| - 1], conn)
  }

  /** While handlers interleave, too: what a user asked for is what its handlers were
      started on and then what is in the pipe up; what the servers wrote to it is what
      its client read and then what is in the pipe down. */
  lemma {:induction false} PipesCarry(n: Net, moves: seq<Move>, conn: Conn)
    requires WellShaped(n.z) && StaysConnected(n, moves, conn)
    ensures conn in n.peers
    ensures var p, r := n.peers[conn], GoesAll(n, moves);
            && p.up + AskedAll(n, moves, conn) == BegunAll(n, moves, conn) + r.peers[conn].up
            && n.z.c.world.wire <= r.z.c.world.wire
            && p.down + FramesFor(Writes(n.z, r.z), conn) == ReadAll(n, moves, conn) + r.peers[conn].down
  {
    if moves == [] {
      var p := n.peers[conn];
      assert p.up + [] == [] + p.up && p.down + [] == [] + p.down;
      assert Writes(n.z, n.z) == [] && FramesFor([], conn) == [];
    } else {
      var before, m := moves[..|moves| - 1], moves[|moves| - 1];
      var b := GoesAll(n, before);
      var r := Goes(b, m);
      PipesCarry(n, before, conn);
      MoveCarries(b, m, conn);
      Chained(n.peers[conn].up, AskedAll(n, before, conn), AskedIn(b, m, conn),
              BegunAll(n, before, conn), BegunIn(b, m, conn), b.peers[conn].up, r.peers[conn].up);
      WritesChain(n.z, b.z, r.z);
      FramesForConcat(Writes(n.z, b.z), Writes(b.z, r.z), conn);
      Chained(n.peers[conn].down, FramesFor(Writes(n.z, b.z), conn), FramesFor(Writes(b.z, r.z), conn),
              ReadAll(n, before, conn), ReadIn(b, m, conn), b.peers[conn].down, r.peers[conn].down);
    }
  }

  lemma WritesChain(a: Fine, b: Fine, c: Fine)
    requires a.c.world.wire <= b.c.world.wire && b.c.world.wire <= c.c.world.wire
    ensures Writes(a, c) == Writes(a, b) + Writes(b, c)
  {
  }
}
