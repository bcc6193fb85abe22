/** The client program of src/client/main.cpp: a menu thread that sends requests
    and waits on a semaphore, and a reader thread that posts it. */
module ChatClientModel {
  import opened ChatTypes
  import opened CommandLine

  /** `Waiting` is blocked on the semaphore after a login request; `Stopped` is a
      process ended by an uncaught exception. */
  datatype Phase = Menu | Waiting | InSession | Stopped

  /** `reading` says whether the reader thread still runs: it returns after a
      refused login. */
  datatype Client = Client(phase: Phase, id: UserId, name: string, reading: bool)

  const FRESH_CLIENT := Client(Menu, -1, "", true)

  /** Menu choice 1. Only the menu sends a login request. */
  function AskLogin(cl: Client): Client
    requires cl.phase.Menu?
  {
    cl.(phase := Waiting)
  }

  function TypeLine(cl: Client, line: string): (Client, seq<Json>)
    requires cl.phase.InSession?
  {
    match RunCommand(cl.id, cl.name, line)
    case Send(js) => (cl, [js])
    case SendLogOut(js) => (cl.(phase := Menu), [js])
    case ShowHelp => (cl, [])
    case Unknown => (cl, [])
    case Throws => (cl.(phase := Stopped), [])
  }

  /** A login reply releases the menu thread, into the session or back to the menu.
      The reader does not look whether the menu thread waits; that it does, whenever
      a reply arrives, is part of the invariant of ClientSystem. */
  function ReadFrame(cl: Client, f: Frame): Client
    requires cl.reading && !cl.phase.Stopped?
  {
    match f
    case Chat(_, _, _, _) => cl
    case Reply(_, id, Accepted(name, _)) => cl.(id := id, name := name, phase := InSession)
    case Reply(_, _, Refused(_)) => cl.(reading := false, phase := Menu)
  }

  /** The program itself: the globals the two threads share. */
  class ChatClient {
    var logedIn: bool
    var currentId: UserId
    var currentName: string
    var waiting: bool
    var readerAlive: bool
    var stopped: bool
    var sent: seq<Json>

    ghost predicate Valid()
      reads this
    {
      !(logedIn && waiting)
    }

    ghost function State(): Client
      reads this
    {
      Client(if stopped then Stopped else if waiting then Waiting else if logedIn then InSession else Menu,
             currentId, currentName, readerAlive)
    }

    constructor ()
      ensures Valid() && State() == FRESH_CLIENT && sent == []
    {
      logedIn, waiting, readerAlive, stopped := false, false, true, false;
      currentId, currentName := -1, "";
      sent := [];
    }

    method MenuLogin(id: UserId, password: string)
      requires Valid() && State().phase.Menu?
      modifies this
      ensures Valid() && State() == AskLogin(old(State())) && sent == old(sent) + [LoginRequest(id, password)]
    {
      sent := sent + [LoginRequest(id, password)];
      waiting := true;
    }

    method MainMenuLine(line: string)
      requires Valid() && State().phase.InSession?
      modifies this
      ensures Valid()
      ensures State() == TypeLine(old(State()), line).0 && sent == old(sent) + TypeLine(old(State()), line).1
    {
      match RunCommand(currentId, currentName, line) {
        case Send(js) => sent := sent + [js];
        case SendLogOut(js) =>
          sent := sent + [js];
          logedIn := false;
        case Throws => stopped := true;
        case _ =>
      }
    }

    method OnFrame(f: Frame)
      requires Valid() && readerAlive && !stopped
      modifies this
      ensures Valid() && State() == ReadFrame(old(State()), f) && sent == old(sent)
    {
      match f {
        case Chat(_, _, _, _) =>
        case Reply(_, id, Accepted(name, _)) =>
          currentId, currentName := id, name;
          logedIn, waiting := true, false;
        case Reply(_, _, Refused(_)) =>
          readerAlive, logedIn, waiting := false, false, false;
      }
    }
  }
}

/** Clients, pipes and servers together: that a connection carries at most one
    user is a property of the clients, not an assumption about them. */
module ClientSystem {
  import opened ChatTypes
  import opened ChatServer
  import opened ClusterModel
  import opened Sessions
  import opened Accounting
  import Mailbox
  import opened Delivery
  import opened CommandLine
  import opened DecimalText
  import opened ChatClientModel

  /** A connection to one process: its client and the two pipes, oldest first. */
  datatype Peer = Peer(srv: nat, client: Client, up: seq<Json>, down: seq<Frame>)

  datatype Sys = Sys(c: Cluster, peers: map<Conn, Peer>)

  datatype Act =
    | Open(conn: Conn, srv: nat)
    | Ask(conn: Conn, id: UserId, password: string)
    | Type(conn: Conn, line: string)
    | ReadDown(conn: Conn)
    | Serve(conn: Conn, insertId: int)
    | Notice(srv: nat)
    | Drop(conn: Conn, last: UserId)

  function FramesFor(frames: seq<Frame>, conn: Conn): seq<Frame> {
    if frames == [] then []
    else
      var last := frames[|frames| - 1];
      FramesFor(frames[..|frames| - 1], conn) + (if last.conn == conn then [last] else [])
  }

  /** One event of the cluster; what it writes goes down the pipes. */
  function Happen(s: Sys, e: Event): Sys
    requires WellFormed(s.c)
  {
    var frames := NewFrames(s.c, e);
    Sys(Apply(s.c, e),
        map conn | conn in s.peers :: s.peers[conn].(down := s.peers[conn].down + FramesFor(frames, conn)))
  }

  function SetPeer(s: Sys, conn: Conn, p: Peer): Sys {
    s.(peers := s.peers[conn := p])
  }

  /** The cluster event an act stands for, if any. */
  function EventOf(s: Sys, a: Act): Option<Event> {
    match a
    case Serve(conn, insertId) =>
      if conn in s.peers && s.peers[conn].up != []
      then Some(Message(s.peers[conn].srv, conn, s.peers[conn].up[0], insertId)) else None
    case Notice(srv) => Some(Receive(srv))
    case Drop(conn, last) => if conn in s.peers then Some(Disconnect(s.peers[conn].srv, conn, last)) else None
    case _ => None
  }

  /** What a client does on its own: log in from the menu, type a line in the
      session, read what came down. */
  predicate IsOwn(a: Act) {
    a.Ask? || a.Type? || a.ReadDown?
  }

  function Own(p: Peer, a: Act): (r: Peer)
    ensures r.srv == p.srv
  {
    match a
    case Ask(_, id, password) =>
      if p.client.phase.Menu?
      then p.(client := AskLogin(p.client), up := p.up + [LoginRequest(id, password)]) else p
    case Type(_, line) =>
      if p.client.phase.InSession?
      then var r := TypeLine(p.client, line); p.(client := r.0, up := p.up + r.1) else p
    case ReadDown(_) =>
      if p.client.reading && !p.client.phase.Stopped? && p.down != []
      then p.(client := ReadFrame(p.client, p.down[0]), down := p.down[1..]) else p
    case _ => p
  }

  function Perform(s: Sys, a: Act): Sys
    requires WellFormed(s.c)
  {
    match a
    case Open(conn, srv) =>
      if conn in s.peers then s else SetPeer(s, conn, Peer(srv, FRESH_CLIENT, [], []))
    case Ask(conn, _, _) => if conn in s.peers then SetPeer(s, conn, Own(s.peers[conn], a)) else s
    case Type(conn, _) => if conn in s.peers then SetPeer(s, conn, Own(s.peers[conn], a)) else s
    case ReadDown(conn) => if conn in s.peers then SetPeer(s, conn, Own(s.peers[conn], a)) else s
    case Serve(conn, _) =>
      if EventOf(s, a).None? then s
      else
        var p := s.peers[conn];
        Happen(SetPeer(s, conn, p.(up := p.up[1..])), EventOf(s, a).value)
    case Notice(_) => Happen(s, EventOf(s, a).value)
    case Drop(conn, _) =>
      if conn !in s.peers then s
      else
        var r := Happen(s, EventOf(s, a).value);
        r.(peers := r.peers - {conn})
  }

  /** What the environment chooses: the database's fresh keys, the last entry a
      close scan visits, and the process a new connection lands on. Nothing is
      said about logins. */
  ghost predicate FairChoice(s: Sys, a: Act) {
    match a
    case Open(conn, srv) => srv < |s.c.conns|
    case Serve(conn, insertId) =>
      insertId > 0 && insertId !in s.c.world.users && insertId !in s.c.world.groups
    case Drop(conn, last) =>
      conn in s.peers && s.peers[conn].srv < |s.c.conns| ==>
        var bound := BoundUsers(s.c.conns[s.peers[conn].srv], conn);
        bound != {} ==> last in bound
    case _ => true
  }

  // ----- The invariant ------------------------------------------------------------------

  predicate Plain(up: seq<Json>) {
    forall js | js in up :: js.kind != Some(LOGIN_MSG) && js.kind != Some(LOG_OUT_MSG)
  }

  predicate NoReply(down: seq<Frame>) {
    forall f | f in down :: f.Chat?
  }

  /** Once these requests are served the connection carries no user: it carries
      none now, or its logout is the last request. */
  predicate Leaving(up: seq<Json>, bound: set<UserId>) {
    if bound == {} then Plain(up)
    else
      up != [] && Plain(up[..|up| - 1]) &&
      var last := up[|up| - 1];
      last.kind == Some(LOG_OUT_MSG) && last.id.Some? && bound == {last.id.value}
  }

  predicate IsLogin(js: Json) {
    js.kind == Some(LOGIN_MSG) && js.id.Some? && js.password.Some?
  }

  /** The login is the last request, not yet served. */
  predicate Asked(p: Peer, bound: set<UserId>) {
    p.up != [] && IsLogin(p.up[|p.up| - 1]) && Leaving(p.up[..|p.up| - 1], bound) && NoReply(p.down)
  }

  /** The login is served; `r` is its reply, `rest` chat messages behind it. */
  predicate Answered(p: Peer, bound: set<UserId>) {
    p.up == [] && exists k | 0 <= k < |p.down| ::
      p.down[k].Reply? && NoReply(p.down[..k]) && NoReply(p.down[k + 1..]) &&
      bound == if p.down[k].result.Accepted? then {p.down[k].id} else {}
  }

  predicate PeerInv(p: Peer, bound: set<UserId>) {
    match p.client.phase
    case Menu => Leaving(p.up, bound) && NoReply(p.down)
    case Waiting => Asked(p, bound) || Answered(p, bound)
    case InSession => bound == {p.client.id} && Plain(p.up) && NoReply(p.down)
    case Stopped => bound == {p.client.id} && Plain(p.up) && NoReply(p.down)
  }

  /** The users a connection carries at its process. */
  function Carried(c: Cluster, srv: nat, conn: Conn): set<UserId> {
    if srv < |c.conns| then BoundUsers(c.conns[srv], conn) else {}
  }

  ghost predicate PeersInv(s: Sys) {
    forall conn | conn in s.peers ::
      s.peers[conn].srv < |s.c.conns| && PeerInv(s.peers[conn], Carried(s.c, s.peers[conn].srv, conn))
  }

  /** Every entry of every map is a connection that is open at that process. */
  ghost predicate EntriesOpen(s: Sys) {
    forall i: nat, u | Maps(s.c, i, u) :: s.c.conns[i][u] in s.peers && s.peers[s.c.conns[i][u]].srv == i
  }

  ghost predicate SysInv(s: Sys) {
    WellFormed(s.c) && Agree(s.c) && PeersInv(s) && EntriesOpen(s)
  }

  /** No client ever makes a connection carry two users. */
  lemma PeersCarryOne(s: Sys)
    requires SysInv(s)
    ensures OneUserPerConn(s.c)
  {
    forall i: nat, u, v | Maps(s.c, i, u) && Maps(s.c, i, v) && s.c.conns[i][u] == s.c.conns[i][v] ensures u == v {
      var conn := s.c.conns[i][u];
      var bound := Carried(s.c, i, conn);
      assert u in bound && v in bound;
      assert PeerInv(s.peers[conn], bound);
    }
  }

  /** A login request reaches the handler only when its connection is free, so
      every event of the system is one the cluster's theorems allow. */
  lemma ServedLoginFindsFree(s: Sys, a: Act)
    requires SysInv(s) && FairChoice(s, a) && EventOf(s, a).Some?
    ensures Allowed(s.c, EventOf(s, a).value)
  {
  }

  lemma LeavingHasNoLogin(up: seq<Json>, bound: set<UserId>)
    requires Leaving(up, bound)
    ensures forall k | 0 <= k < |up| :: up[k].kind != Some(LOGIN_MSG)
    ensures forall k | 0 <= k < |up| && up[k].kind == Some(LOG_OUT_MSG) ::
              k == |up| - 1 && up[k].id.Some? && bound == {up[k].id.value}
  {
  }

  lemma LoginIsLast(p: Peer, bound: set<UserId>)
    requires PeerInv(p, bound) && p.up != [] && p.up[0].kind == Some(LOGIN_MSG)
    ensures p.client.phase.Waiting? && Asked(p, bound) && |p.up| == 1 && bound == {}
  {
  }

  // ----- What one cluster event does to the peers ---------------------------------------

  /** A logout names a user of its own connection. */
  ghost predicate OwnLogOut(c: Cluster, e: Event) {
    e.Message? && e.js.kind == Some(LOG_OUT_MSG) && e.js.id.Some? ==>
      (e.srv < |c.conns| && e.js.id.value in c.conns[e.srv] ==> c.conns[e.srv][e.js.id.value] == e.conn)
  }

  predicate By(e: Event, conn: Conn) {
    (e.Message? || e.Disconnect?) && e.conn == conn
  }

  /** Only the connection an event comes from gains or loses entries. */
  lemma OtherEntriesStay(c: Cluster, e: Event, i: nat, u: UserId)
    requires WellFormed(c) && OwnLogOut(c, e) && !e.Shutdown? && i < |c.conns|
    ensures var conns, conns' := c.conns[i], Apply(c, e).conns[i];
            && (u in conns && !(By(e, conns[u]) && i == e.srv) ==> u in conns' && conns'[u] == conns[u])
            && (u in conns' && !(By(e, conns'[u]) && i == e.srv) ==> u in conns && conns[u] == conns'[u])
  {
  }

  lemma OthersCarryTheSame(c: Cluster, e: Event, i: nat, other: Conn)
    requires WellFormed(c) && OwnLogOut(c, e) && !e.Shutdown? && !By(e, other)
    ensures Carried(Apply(c, e), i, other) == Carried(c, i, other)
  {
  }

  /** Every write is a chat message, except the reply to a login's own connection. */
  lemma WritesOf(c: Cluster, e: Event)
    requires WellFormed(c)
    ensures forall f | f in NewFrames(c, e) ::
              f.Chat? || (e.Message? && e.js.kind == Some(LOGIN_MSG) && f.conn == e.conn)
  {
    if e.srv < |c.conns| && e.Message? && (e.js.kind == Some(PRIVATE_CHAT_MSG) || e.js.kind == Some(GROUP_CHAT_MSG)) {
      ChatStep(c, e.srv, e.conn, e.js, e.insertId);
      SendAdds(c.conns[e.srv], c.world, Targets(c.world, e.js), e.js);
    }
  }

  lemma {:induction false} FramesForAreOwn(frames: seq<Frame>, conn: Conn)
    ensures forall f | f in FramesFor(frames, conn) :: f in frames && f.conn == conn
  {
    if frames != [] {
      FramesForAreOwn(frames[..|frames| - 1], conn);
    }
  }

  lemma OthersGetNoReply(c: Cluster, e: Event, conn: Conn)
    requires WellFormed(c) && (e.Message? && e.js.kind == Some(LOGIN_MSG) ==> e.conn != conn)
    ensures NoReply(FramesFor(NewFrames(c, e), conn))
  {
    WritesOf(c, e);
    FramesForAreOwn(NewFrames(c, e), conn);
  }

  /** Chat messages at the end of the pipe change nothing. */
  lemma MoreChatKeepsPeerInv(p: Peer, bound: set<UserId>, more: seq<Frame>)
    requires PeerInv(p, bound) && NoReply(more)
    ensures PeerInv(p.(down := p.down + more), bound)
  {
    var p' := p.(down := p.down + more);
    if p.client.phase.Waiting? && Answered(p, bound) {
      var k :| 0 <= k < |p.down| && p.down[k].Reply? && NoReply(p.down[..k]) && NoReply(p.down[k + 1..]) &&
               bound == if p.down[k].result.Accepted? then {p.down[k].id} else {};
      assert p'.down[..k] == p.down[..k] && p'.down[k + 1..] == p.down[k + 1..] + more;
    }
  }

  // ----- Acts of clients ------------------------------------------------------------------

  lemma PeerActKeepsInv(s: Sys, conn: Conn, p: Peer)
    requires SysInv(s) && conn in s.peers && p.srv == s.peers[conn].srv
    requires PeerInv(p, Carried(s.c, p.srv, conn))
    ensures SysInv(SetPeer(s, conn, p))
  {
  }

  lemma OpenKeepsInv(s: Sys, conn: Conn, srv: nat)
    requires SysInv(s) && conn !in s.peers && srv < |s.c.conns|
    ensures SysInv(SetPeer(s, conn, Peer(srv, FRESH_CLIENT, [], [])))
  {
    forall u ensures u in Carried(s.c, srv, conn) <==> u in {} {
      assert Maps(s.c, srv, u) <==> u in s.c.conns[srv];
    }
    assert Carried(s.c, srv, conn) == {};
  }

  lemma AskKeepsPeerInv(p: Peer, bound: set<UserId>, conn: Conn, id: UserId, password: string)
    requires PeerInv(p, bound) && p.client.phase.Menu?
    ensures PeerInv(Own(p, Ask(conn, id, password)), bound)
  {
    var p' := Own(p, Ask(conn, id, password));
    assert p'.up[..|p'.up| - 1] == p.up;
  }

  lemma TypeKeepsPeerInv(p: Peer, bound: set<UserId>, conn: Conn, line: string)
    requires PeerInv(p, bound) && p.client.phase.InSession?
    ensures PeerInv(Own(p, Type(conn, line)), bound)
  {
    SessionRequests(p.client.id, p.client.name, line);
    var p' := Own(p, Type(conn, line));
    if RunCommand(p.client.id, p.client.name, line).SendLogOut? {
      assert p'.up[..|p'.up| - 1] == p.up;
    }
  }

  lemma ReadKeepsPeerInv(p: Peer, bound: set<UserId>, conn: Conn)
    requires PeerInv(p, bound) && p.client.reading && !p.client.phase.Stopped? && p.down != []
    ensures PeerInv(Own(p, ReadDown(conn)), bound)
  {
  }

  /** Whatever a client does on its own keeps what holds of its connection. */
  lemma OwnKeepsPeerInv(p: Peer, bound: set<UserId>, a: Act)
    requires PeerInv(p, bound)
    ensures PeerInv(Own(p, a), bound)
  {
    match a
    case Ask(conn, id, password) => if p.client.phase.Menu? { AskKeepsPeerInv(p, bound, conn, id, password); }
    case Type(conn, line) => if p.client.phase.InSession? { TypeKeepsPeerInv(p, bound, conn, line); }
    case ReadDown(conn) =>
      if p.client.reading && !p.client.phase.Stopped? && p.down != [] { ReadKeepsPeerInv(p, bound, conn); }
    case _ =>
  }

  lemma OwnKeepsInv(s: Sys, a: Act)
    requires SysInv(s) && IsOwn(a) && a.conn in s.peers
    ensures SysInv(Perform(s, a))
  {
    var p := s.peers[a.conn];
    OwnKeepsPeerInv(p, Carried(s.c, p.srv, a.conn), a);
    PeerActKeepsInv(s, a.conn, Own(p, a));
  }

  // ----- Acts of servers --------------------------------------------------------------------

  /** Serving the first request, for the connection it came from. */
  lemma ServedPeer(c: Cluster, p: Peer, conn: Conn, insertId: int)
    requires Agree(c) && p.srv < |c.conns| && p.up != [] && PeerInv(p, Carried(c, p.srv, conn))
    ensures var e := Message(p.srv, conn, p.up[0], insertId);
            OwnLogOut(c, e) &&
            PeerInv(p.(up := p.up[1..], down := p.down + FramesFor(NewFrames(c, e), conn)),
                    Carried(Apply(c, e), p.srv, conn))
  {
    var e := Message(p.srv, conn, p.up[0], insertId);
    var bound := Carried(c, p.srv, conn);
    if p.up[0].kind == Some(LOGIN_MSG) {
      ServedLogin(c, p, conn, insertId);
    } else {
      OthersGetNoReplyFrom(c, e, conn);
      if p.up[0].kind == Some(LOG_OUT_MSG) {
        ServedLogOut(c, p, conn, insertId);
      } else {
        assert Apply(c, e).conns == c.conns;
        ServedPlain(p, bound);
      }
      MoreChatKeepsPeerInv(p.(up := p.up[1..]), Carried(Apply(c, e), p.srv, conn), FramesFor(NewFrames(c, e), conn));
    }
  }

  lemma OthersGetNoReplyFrom(c: Cluster, e: Event, conn: Conn)
    requires WellFormed(c) && (e.Message? ==> e.js.kind != Some(LOGIN_MSG))
    ensures NoReply(FramesFor(NewFrames(c, e), conn))
  {
    OthersGetNoReply(c, e, conn);
  }

  lemma LeavingTail(up: seq<Json>, bound: set<UserId>)
    requires Leaving(up, bound) && up != [] && up[0].kind != Some(LOG_OUT_MSG)
    ensures Leaving(up[1..], bound)
  {
  }

  lemma ServedPlain(p: Peer, bound: set<UserId>)
    requires PeerInv(p, bound) && p.up != []
    requires p.up[0].kind != Some(LOGIN_MSG) && p.up[0].kind != Some(LOG_OUT_MSG)
    ensures PeerInv(p.(up := p.up[1..]), bound)
  {
    if p.client.phase.Menu? {
      LeavingTail(p.up, bound);
    } else if p.client.phase.Waiting? {
      var before := p.up[..|p.up| - 1];
      assert before != [] && before[0] == p.up[0];
      LeavingTail(before, bound);
      assert p.up[1..][..|p.up| - 2] == before[1..];
    }
  }

  /** A logout that is served is the last thing its connection asks for before a
      login, and names the one user the connection carries. */
  lemma PopLogOut(p: Peer, bound: set<UserId>)
    requires PeerInv(p, bound) && p.up != [] && p.up[0].kind == Some(LOG_OUT_MSG)
    ensures p.up[0].id.Some? && bound == {p.up[0].id.value} && PeerInv(p.(up := p.up[1..]), {})
  {
    if p.client.phase.Menu? {
      LeavingHasNoLogin(p.up, bound);
    } else if p.client.phase.Waiting? {
      var before := p.up[..|p.up| - 1];
      LeavingHasNoLogin(before, bound);
      assert before != [] ==> before[0] == p.up[0];
    }
  }

  lemma ServedLogOut(c: Cluster, p: Peer, conn: Conn, insertId: int)
    requires WellFormed(c) && p.srv < |c.conns| && p.up != [] && p.up[0].kind == Some(LOG_OUT_MSG)
    requires PeerInv(p, Carried(c, p.srv, conn))
    ensures var e := Message(p.srv, conn, p.up[0], insertId);
            OwnLogOut(c, e) && PeerInv(p.(up := p.up[1..]), Carried(Apply(c, e), p.srv, conn))
  {
    var e := Message(p.srv, conn, p.up[0], insertId);
    var bound := Carried(c, p.srv, conn);
    PopLogOut(p, bound);
    var u := p.up[0].id.value;
    assert u in bound;
    forall v ensures v in Carried(Apply(c, e), p.srv, conn) <==> v in {} {
      assert v in bound <==> v == u;
    }
    assert Carried(Apply(c, e), p.srv, conn) == {};
  }

  lemma ServedLogin(c: Cluster, p: Peer, conn: Conn, insertId: int)
    requires Agree(c) && p.srv < |c.conns| && p.up != [] && p.up[0].kind == Some(LOGIN_MSG)
    requires PeerInv(p, Carried(c, p.srv, conn))
    ensures var e := Message(p.srv, conn, p.up[0], insertId);
            PeerInv(p.(up := p.up[1..], down := p.down + FramesFor(NewFrames(c, e), conn)),
                    Carried(Apply(c, e), p.srv, conn))
  {
    var e, js := Message(p.srv, conn, p.up[0], insertId), p.up[0];
    LoginIsLast(p, Carried(c, p.srv, conn));
    var bound' := Carried(Apply(c, e), p.srv, conn);
    var p' := p.(up := [], down := p.down + FramesFor(NewFrames(c, e), conn));
    var k := |p.down|;
    LoginWrites(c, p.srv, conn, js, insertId);
    assert p'.down[..k] == p.down && p'.down[k + 1..] == [];
    if LoginAccepted(c.world, js) {
      var u := js.id.value;
      assert !IsOnline(c.world, u) && !MappedSomewhere(c, u) && !Maps(c, p.srv, u);
      forall v ensures v in bound' <==> v in {u} {
        assert v !in Carried(c, p.srv, conn);
      }
      assert bound' == {u};
    } else {
      assert Apply(c, e).conns == c.conns;
    }
  }

  lemma LoginWrites(c: Cluster, i: nat, conn: Conn, js: Json, insertId: int)
    requires WellFormed(c) && i < |c.conns| && IsLogin(js)
    ensures var frames := FramesFor(NewFrames(c, Message(i, conn, js, insertId)), conn);
            && |frames| == 1 && frames[0].Reply? && frames[0].id == js.id.value
            && (frames[0].result.Accepted? <==> LoginAccepted(c.world, js))
  {
  }

  /** An event of one peer, seen by all of them. */
  lemma EventKeepsPeers(s: Sys, e: Event)
    requires SysInv(s) && OwnLogOut(s.c, e) && !e.Shutdown?
    ensures forall conn | conn in s.peers && !By(e, conn) ::
              PeerInv(Happen(s, e).peers[conn], Carried(Apply(s.c, e), s.peers[conn].srv, conn))
  {
    forall conn | conn in s.peers && !By(e, conn)
      ensures PeerInv(Happen(s, e).peers[conn], Carried(Apply(s.c, e), s.peers[conn].srv, conn))
    {
      var p := s.peers[conn];
      OthersCarryTheSame(s.c, e, p.srv, conn);
      OthersGetNoReply(s.c, e, conn);
      MoreChatKeepsPeerInv(p, Carried(s.c, p.srv, conn), FramesFor(NewFrames(s.c, e), conn));
    }
  }

  lemma EventKeepsEntries(s: Sys, e: Event, i: nat, u: UserId)
    requires SysInv(s) && OwnLogOut(s.c, e) && !e.Shutdown? && Maps(Apply(s.c, e), i, u)
    ensures var conn := Apply(s.c, e).conns[i][u];
            (By(e, conn) && i == e.srv) || (conn in s.peers && s.peers[conn].srv == i)
  {
    OtherEntriesStay(s.c, e, i, u);
    assert u in s.c.conns[i] ==> Maps(s.c, i, u);
  }

  /** Serving takes a request off one pipe and otherwise happens like any event. */
  lemma ServedPeers(s: Sys, conn: Conn, insertId: int)
    requires WellFormed(s.c) && EventOf(s, Serve(conn, insertId)).Some?
    ensures var e, p := EventOf(s, Serve(conn, insertId)).value, s.peers[conn];
            var s' := Perform(s, Serve(conn, insertId));
            && s'.c == Apply(s.c, e) && s'.peers.Keys == s.peers.Keys
            && s'.peers[conn] == p.(up := p.up[1..], down := p.down + FramesFor(NewFrames(s.c, e), conn))
            && (forall other | other in s.peers && other != conn :: s'.peers[other] == Happen(s, e).peers[other])
  {
  }

  lemma ServeKeepsInv(s: Sys, conn: Conn, insertId: int)
    requires SysInv(s) && FairChoice(s, Serve(conn, insertId)) && EventOf(s, Serve(conn, insertId)).Some?
    ensures SysInv(Perform(s, Serve(conn, insertId)))
  {
    var a := Serve(conn, insertId);
    var p, e := s.peers[conn], EventOf(s, a).value;
    PeersCarryOne(s);
    ServedLoginFindsFree(s, a);
    StepKeepsInv(s.c, e);
    ServedPeer(s.c, p, conn, insertId);
    EventKeepsPeers(s, e);
    ServedPeers(s, conn, insertId);
    var s' := Perform(s, a);
    forall i: nat, u | Maps(s'.c, i, u) ensures s'.c.conns[i][u] in s'.peers && s'.peers[s'.c.conns[i][u]].srv == i {
      EventKeepsEntries(s, e, i, u);
    }
  }

  lemma NoticeKeepsInv(s: Sys, srv: nat)
    requires SysInv(s)
    ensures SysInv(Perform(s, Notice(srv)))
  {
    var s' := Perform(s, Notice(srv));
    PeersCarryOne(s);
    StepKeepsInv(s.c, Receive(srv));
    EventKeepsPeers(s, Receive(srv));
    forall i: nat, u | Maps(s'.c, i, u) ensures s'.c.conns[i][u] in s'.peers && s'.peers[s'.c.conns[i][u]].srv == i {
      EventKeepsEntries(s, Receive(srv), i, u);
    }
  }

  /** The close scan leaves no entry for its connection, and its user offline. */
  lemma CloseLeavesNothing(s: Sys, conn: Conn, last: UserId)
    requires SysInv(s) && conn in s.peers && FairChoice(s, Drop(conn, last))
    ensures var c', p := Perform(s, Drop(conn, last)).c, s.peers[conn];
            && (forall i: nat, u | Maps(c', i, u) :: c'.conns[i][u] != conn)
            && (forall u | u in Carried(s.c, p.srv, conn) :: !IsOnline(c'.world, u))
  {
    var p := s.peers[conn];
    var e := Disconnect(p.srv, conn, last);
    var c' := Apply(s.c, e);
    PeersCarryOne(s);
    ServedLoginFindsFree(s, Drop(conn, last));
    StepKeepsInv(s.c, e);
    forall i: nat, u | Maps(c', i, u) ensures c'.conns[i][u] != conn {
      if i == p.srv {
        assert u !in BoundUsers(s.c.conns[i], conn);
      } else {
        assert Maps(s.c, i, u);
      }
    }
    forall u | u in Carried(s.c, p.srv, conn) ensures !IsOnline(c'.world, u) {
      assert Maps(s.c, p.srv, u);
      forall j ensures !Maps(c', j, u) {
        assert Maps(c', j, u) ==> Maps(s.c, j, u);
      }
      assert !MappedSomewhere(c', u);
    }
  }

  lemma DropKeepsInv(s: Sys, conn: Conn, last: UserId)
    requires SysInv(s) && conn in s.peers && FairChoice(s, Drop(conn, last))
    ensures SysInv(Perform(s, Drop(conn, last)))
  {
    var s' := Perform(s, Drop(conn, last));
    var e := Disconnect(s.peers[conn].srv, conn, last);
    PeersCarryOne(s);
    ServedLoginFindsFree(s, Drop(conn, last));
    StepKeepsInv(s.c, e);
    EventKeepsPeers(s, e);
    CloseLeavesNothing(s, conn, last);
    forall i: nat, u | Maps(s'.c, i, u) ensures s'.c.conns[i][u] in s'.peers && s'.peers[s'.c.conns[i][u]].srv == i {
      EventKeepsEntries(s, e, i, u);
    }
  }

  // ----- Whole runs ---------------------------------------------------------------------------

  lemma ActKeepsInv(s: Sys, a: Act)
    requires SysInv(s) && FairChoice(s, a)
    ensures SysInv(Perform(s, a))
  {
    match a
    case Open(conn, srv) => if conn !in s.peers { OpenKeepsInv(s, conn, srv); }
    case Ask(conn, _, _) => if conn in s.peers { OwnKeepsInv(s, a); }
    case Type(conn, _) => if conn in s.peers { OwnKeepsInv(s, a); }
    case ReadDown(conn) => if conn in s.peers { OwnKeepsInv(s, a); }
    case Serve(conn, insertId) => if EventOf(s, a).Some? { ServeKeepsInv(s, conn, insertId); }
    case Notice(srv) => NoticeKeepsInv(s, srv);
    case Drop(conn, last) => if conn in s.peers { DropKeepsInv(s, conn, last); }
  }

  function PerformAll(s: Sys, acts: seq<Act>): (r: Sys)
    requires WellFormed(s.c)
    ensures WellFormed(r.c)
  {
    if acts == [] then s else Perform(PerformAll(s, acts[..|acts| - 1]), acts[|acts| - 1])
  }

  ghost predicate FairRun(s: Sys, acts: seq<Act>)
    requires WellFormed(s.c)
  {
    acts != [] ==>
      FairRun(s, acts[..|acts| - 1]) && FairChoice(PerformAll(s, acts[..|acts| - 1]), acts[|acts| - 1])
  }

  /** Whatever the clients' users type and whenever connections break, no
      connection is ever the value of two map entries, and whatever the servers do
      next is an event the cluster's theorems allow. */
  lemma {:induction false} ConnectionsCarryOneUser(s: Sys, acts: seq<Act>)
    requires SysInv(s) && FairRun(s, acts)
    ensures SysInv(PerformAll(s, acts)) && Inv(PerformAll(s, acts).c)
    ensures var r := PerformAll(s, acts);
            forall a | FairChoice(r, a) && EventOf(r, a).Some? :: Allowed(r.c, EventOf(r, a).value)
  {
    if acts != [] {
      ConnectionsCarryOneUser(s, acts[..|acts| - 1]);
      ActKeepsInv(PerformAll(s, acts[..|acts| - 1]), acts[|acts| - 1]);
    }
    var r := PerformAll(s, acts);
    PeersCarryOne(r);
    forall a | FairChoice(r, a) && EventOf(r, a).Some? ensures Allowed(r.c, EventOf(r, a).value) {
      ServedLoginFindsFree(r, a);
    }
  }

  /** A cluster that has just started, before any client connects. */
  lemma SystemStarts(c: Cluster)
    requires Started(c)
    ensures SysInv(Sys(c, map[]))
  {
  }

  // ----- Exactly once, with real clients ------------------------------------------------

  function SentByAct(s: Sys, a: Act): Bag
    requires WellFormed(s.c)
  {
    match EventOf(s, a)
    case Some(e) => Mailbox.SentBy(s.c, e)
    case None => multiset{}
  }

  function SentByActs(s: Sys, acts: seq<Act>): Bag
    requires WellFormed(s.c)
  {
    if acts == [] then multiset{}
    else
      var before := acts[..|acts| - 1];
      SentByActs(s, before) + SentByAct(PerformAll(s, before), acts[|acts| - 1])
  }

  lemma ActEvent(s: Sys, a: Act)
    requires WellFormed(s.c)
    ensures Perform(s, a).c == match EventOf(s, a) case Some(e) => Apply(s.c, e) case None => s.c
  {
  }

  lemma ActBalances(s: Sys, a: Act)
    requires SysInv(s) && FairChoice(s, a)
    ensures Total(Perform(s, a).c.world) == Total(s.c.world) + SentByAct(s, a)
  {
    ActEvent(s, a);
    if EventOf(s, a).Some? {
      var e := EventOf(s, a).value;
      PeersCarryOne(s);
      ServedLoginFindsFree(s, a);
      Mailbox.StepSimulates(s.c, e);
      Mailbox.MailConserves(Mailbox.AsMail(s.c), Mailbox.ActionOf(s.c, e));
    }
  }

  /** With real clients nothing is assumed about logins: whatever is typed and
      whatever breaks, every copy sent is delivered, stored or queued exactly once. */
  lemma {:induction false} SystemIsExactlyOnce(s: Sys, acts: seq<Act>)
    requires SysInv(s) && FairRun(s, acts)
    ensures Total(PerformAll(s, acts).c.world) == Total(s.c.world) + SentByActs(s, acts)
  {
    if acts != [] {
      var before := acts[..|acts| - 1];
      SystemIsExactlyOnce(s, before);
      ConnectionsCarryOneUser(s, before);
      ActBalances(PerformAll(s, before), acts[|acts| - 1]);
    }
  }

  // ----- From the server's write to the client's read --------------------------------------

  lemma {:induction false} FramesForConcat(a: seq<Frame>, b: seq<Frame>, conn: Conn)
    ensures FramesFor(a + b, conn) == FramesFor(a, conn) + FramesFor(b, conn)
  {
    if b == [] {
      assert a + b == a;
    } else {
      assert (a + b)[..|a + b| - 1] == a + b[..|b| - 1];
      FramesForConcat(a, b[..|b| - 1], conn);
    }
  }

  lemma WireGrows(c: Cluster, e: Event)
    requires WellFormed(c)
    ensures c.world.wire + NewFrames(c, e) == Apply(c, e).world.wire
  {
    if e.srv < |c.conns| && e.Message? && (e.js.kind == Some(PRIVATE_CHAT_MSG) || e.js.kind == Some(GROUP_CHAT_MSG)) {
      ChatStep(c, e.srv, e.conn, e.js, e.insertId);
      SendAdds(c.conns[e.srv], c.world, Targets(c.world, e.js), e.js);
    }
  }

  /** What the client reads in one act. */
  function ReadNow(s: Sys, a: Act, conn: Conn): seq<Frame> {
    if a == ReadDown(conn) && conn in s.peers && s.peers[conn].client.reading
       && !s.peers[conn].client.phase.Stopped? && s.peers[conn].down != []
    then [s.peers[conn].down[0]] else []
  }

  function ReadOver(s: Sys, acts: seq<Act>, conn: Conn): seq<Frame>
    requires WellFormed(s.c)
  {
    if acts == [] then []
    else ReadOver(s, acts[..|acts| - 1], conn) + ReadNow(PerformAll(s, acts[..|acts| - 1]), acts[|acts| - 1], conn)
  }

  /** The connection is open all along. */
  ghost predicate StaysOpen(s: Sys, acts: seq<Act>, conn: Conn)
    requires WellFormed(s.c)
  {
    conn in PerformAll(s, acts).peers && (acts != [] ==> StaysOpen(s, acts[..|acts| - 1], conn))
  }

  /** From `a` to `b`, what the servers wrote went in at one end of the pipe, and `read`
      came out at the other. */
  ghost predicate Piped(a: Sys, b: Sys, conn: Conn, read: seq<Frame>)
    requires conn in a.peers && conn in b.peers
  {
    && a.c.world.wire <= b.c.world.wire
    && a.peers[conn].down + FramesFor(b.c.world.wire[|a.c.world.wire|..], conn) == read + b.peers[conn].down
  }

  lemma EventPipes(s: Sys, a: Act, conn: Conn)
    requires WellFormed(s.c) && EventOf(s, a).Some? && conn in s.peers && conn in Perform(s, a).peers
    ensures Piped(s, Perform(s, a), conn, [])
  {
    var e := EventOf(s, a).value;
    WireGrows(s.c, e);
    assert Perform(s, a).c == Apply(s.c, e);
    assert Perform(s, a).peers[conn].down == s.peers[conn].down + FramesFor(NewFrames(s.c, e), conn);
  }

  lemma ActPipes(s: Sys, a: Act, conn: Conn)
    requires WellFormed(s.c) && conn in s.peers && conn in Perform(s, a).peers
    ensures Piped(s, Perform(s, a), conn, ReadNow(s, a, conn))
  {
    if EventOf(s, a).Some? {
      EventPipes(s, a, conn);
    } else {
      var p, p' := s.peers[conn], Perform(s, a).peers[conn];
      assert FramesFor([], conn) == [] && p.down + [] == p.down;
      assert p.down == ReadNow(s, a, conn) + p'.down;
    }
  }

  lemma Chained<T>(d0: seq<T>, in1: seq<T>, in2: seq<T>, out1: seq<T>, out2: seq<T>, d1: seq<T>, d2: seq<T>)
    requires d0 + in1 == out1 + d1 && d1 + in2 == out2 + d2
    ensures d0 + (in1 + in2) == (out1 + out2) + d2
  {
    assert d0 + (in1 + in2) == (d0 + in1) + in2;
    assert (out1 + d1) + in2 == out1 + (d1 + in2);
    assert out1 + (out2 + d2) == (out1 + out2) + d2;
  }

  lemma PipedTwice(a: Sys, b: Sys, c: Sys, conn: Conn, first: seq<Frame>, second: seq<Frame>)
    requires conn in a.peers && conn in b.peers && conn in c.peers
    requires Piped(a, b, conn, first) && Piped(b, c, conn, second)
    ensures Piped(a, c, conn, first + second)
  {
    var n, m := |a.c.world.wire|, |b.c.world.wire|;
    var new1, new2 := b.c.world.wire[n..], c.c.world.wire[m..];
    assert c.c.world.wire[n..] == new1 + new2;
    FramesForConcat(new1, new2, conn);
    Chained(a.peers[conn].down, FramesFor(new1, conn), FramesFor(new2, conn), first, second,
            b.peers[conn].down, c.peers[conn].down);
  }

  /** While a connection stays open, what the servers write to it since is what the
      client has read since and then what is still in the pipe, in order: no write is
      lost, doubled or overtaken on its way. */
  lemma {:induction false} WritesAreRead(s: Sys, acts: seq<Act>, conn: Conn)
    requires WellFormed(s.c) && StaysOpen(s, acts, conn)
    ensures conn in s.peers && Piped(s, PerformAll(s, acts), conn, ReadOver(s, acts, conn))
  {
    if acts == [] {
      var wire, down := s.c.world.wire, s.peers[conn].down;
      assert wire[|wire|..] == [] && FramesFor([], conn) == [] && down + [] == [] + down;
    } else {
      var before, a := acts[..|acts| - 1], acts[|acts| - 1];
      var b := PerformAll(s, before);
      WritesAreRead(s, before, conn);
      ActPipes(b, a, conn);
      PipedTwice(s, b, Perform(b, a), conn, ReadOver(s, before, conn), ReadNow(b, a, conn));
    }
  }

  // ----- From the user's line to the server's handler ----------------------------------------

  /** The login request of the menu, field by field. */
  function LoginFor(id: UserId, password: string): Json {
    Json(kind := Some(LOGIN_MSG), id := Some(id), to := None, groupid := None,
         name := None, password := Some(password), desc := None, msg := None)
  }

  /** What a user asks for in one act: to be logged in, from the menu, or what the
      typed line says, in a session. */
  function AskedNow(p: Peer, a: Act): seq<Json> {
    match a
    case Ask(_, id, password) => if p.client.phase.Menu? then [LoginFor(id, password)] else []
    case Type(_, line) =>
      if !p.client.phase.InSession? then []
      else
        (match RunCommand(p.client.id, p.client.name, line)
         case Send(js) => [js]
         case SendLogOut(js) => [js]
         case _ => [])
    case _ => []
  }

  function AskedOver(s: Sys, acts: seq<Act>, conn: Conn): seq<Json>
    requires WellFormed(s.c)
  {
    if acts == [] then []
    else
      var b, a := PerformAll(s, acts[..|acts| - 1]), acts[|acts| - 1];
      AskedOver(s, acts[..|acts| - 1], conn) +
      (if IsOwn(a) && a.conn == conn && conn in b.peers then AskedNow(b.peers[conn], a) else [])
  }

  /** The request of a connection that an act hands to its process. */
  function ServedNow(s: Sys, a: Act, conn: Conn): seq<Json> {
    match EventOf(s, a)
    case Some(e) => if e.Message? && e.conn == conn then [e.js] else []
    case None => []
  }

  function ServedOver(s: Sys, acts: seq<Act>, conn: Conn): seq<Json>
    requires WellFormed(s.c)
  {
    if acts == [] then []
    else ServedOver(s, acts[..|acts| - 1], conn) + ServedNow(PerformAll(s, acts[..|acts| - 1]), acts[|acts| - 1], conn)
  }

  /** A client on its own puts into the pipe exactly what its user asked for. */
  lemma OwnAsks(p: Peer, a: Act)
    ensures Own(p, a).up == p.up + AskedNow(p, a)
  {
    assert p.up + [] == p.up;
    if a.Type? && p.client.phase.InSession? {
      TypedLine(p.client, a.line, RunCommand(p.client.id, p.client.name, a.line));
    }
  }

  lemma TypedLine(cl: Client, line: string, r: Outcome)
    requires cl.phase.InSession? && r == RunCommand(cl.id, cl.name, line)
    ensures TypeLine(cl, line).1 == if r.Send? || r.SendLogOut? then [r.js] else []
  {
  }

  lemma OtherActLeavesUp(s: Sys, a: Act, conn: Conn)
    requires WellFormed(s.c) && conn in s.peers && conn in Perform(s, a).peers
    requires !(IsOwn(a) && a.conn == conn) && !(a.Serve? && a.conn == conn && s.peers[conn].up != [])
    ensures Perform(s, a).peers[conn].up == s.peers[conn].up && ServedNow(s, a, conn) == []
  {
  }

  lemma ActServes(s: Sys, a: Act, conn: Conn)
    requires WellFormed(s.c) && conn in s.peers && conn in Perform(s, a).peers
    ensures var asked := if IsOwn(a) && a.conn == conn then AskedNow(s.peers[conn], a) else [];
            s.peers[conn].up + asked == ServedNow(s, a, conn) + Perform(s, a).peers[conn].up
  {
    var p := s.peers[conn];
    if IsOwn(a) && a.conn == conn {
      OwnAsks(p, a);
      assert [] + Own(p, a).up == p.up + AskedNow(p, a);
    } else if a.Serve? && a.conn == conn && p.up != [] {
      ServedPeers(s, conn, a.insertId);
      assert p.up + [] == [p.up[0]] + p.up[1..];
    } else {
      OtherActLeavesUp(s, a, conn);
      assert p.up + [] == [] + p.up;
    }
  }

  /** While a connection stays open, what its user asked for since, behind what was
      already in the pipe, is what its process has been handed since and then what is
      still in the pipe, in order: no request is lost, made up, changed or overtaken. */
  lemma {:induction false} RequestsAreServed(s: Sys, acts: seq<Act>, conn: Conn)
    requires WellFormed(s.c) && StaysOpen(s, acts, conn)
    ensures conn in s.peers
    ensures s.peers[conn].up + AskedOver(s, acts, conn)
         == ServedOver(s, acts, conn) + PerformAll(s, acts).peers[conn].up
  {
    if acts == [] {
      var up := s.peers[conn].up;
      assert up + [] == [] + up;
    } else {
      var before, a := acts[..|acts| - 1], acts[|acts| - 1];
      var b := PerformAll(s, before);
      RequestsAreServed(s, before, conn);
      ActServes(b, a, conn);
      Chained(s.peers[conn].up, AskedOver(s, before, conn),
              if IsOwn(a) && a.conn == conn then AskedNow(b.peers[conn], a) else [],
              ServedOver(s, before, conn), ServedNow(b, a, conn),
              b.peers[conn].up, Perform(b, a).peers[conn].up);
    }
  }

  /** The line `chat:to:msg`. */
  function ChatLine(to: UserId, msg: string): string {
    "chat" + ":" + (PrintInt(to) + ":" + msg)
  }

  /** The private message that line stands for. */
  function ChatFrom(me: UserId, name: string, to: UserId, msg: string): Json {
    Json(kind := Some(PRIVATE_CHAT_MSG), id := Some(me), to := Some(to), groupid := None,
         name := Some(name), password := None, desc := None, msg := Some(msg))
  }

  lemma OneCopy(to: UserId, js: Json)
    ensures CopiesFor([to], js) == multiset{Copy(to, js)}
  {
    assert [to][..0] == [];
    assert CopiesFor([], js) == multiset{};
  }

  /** A chat line typed in a session puts one message for its addressee into the pipe,
      and serving that message, whenever and wherever, sends it to the addressee alone. */
  lemma TypedChatIsSent(s: Sys, conn: Conn, to: UserId, msg: string, c: Cluster, i: nat, insertId: int)
    requires WellFormed(s.c) && conn in s.peers && s.peers[conn].client.phase.InSession?
    requires INT_MIN <= to <= INT_MAX && WellFormed(c) && i < |c.conns|
    ensures var p := s.peers[conn];
            var js := ChatFrom(p.client.id, p.client.name, to, msg);
            && Perform(s, Type(conn, ChatLine(to, msg))).peers[conn].up == p.up + [js]
            && Targets(c.world, js) == [to]
            && Mailbox.SentBy(c, Message(i, conn, js, insertId)) == multiset{Copy(to, js)}
  {
    var p := s.peers[conn];
    ChatRoundTrip(p.client.id, p.client.name, to, msg);
    OwnAsks(p, Type(conn, ChatLine(to, msg)));
    OneCopy(to, ChatFrom(p.client.id, p.client.name, to, msg));
  }

  // ----- How a client's session begins and ends ------------------------------------------------

  /** An accepted login opens a session under the id and the name of the reply: what
      is typed in it goes out in that name. */
  lemma SessionUsesReply(p: Peer, conn: Conn, to: UserId, msg: string)
    requires p.client.reading && !p.client.phase.Stopped? && p.down != []
    requires p.down[0].Reply? && p.down[0].result.Accepted? && INT_MIN <= to <= INT_MAX
    ensures var q, f := Own(p, ReadDown(conn)), p.down[0];
            && q.client.phase.InSession? && q.client.reading && q.down == p.down[1..] && q.up == p.up
            && Own(q, Type(conn, ChatLine(to, msg))).up == p.up + [ChatFrom(f.id, f.result.name, to, msg)]
  {
    var q, f := Own(p, ReadDown(conn)), p.down[0];
    ChatRoundTrip(f.id, f.result.name, to, msg);
    OwnAsks(q, Type(conn, ChatLine(to, msg)));
  }

  /** A number that `stoi` does not take ends the program: it sends nothing. */
  lemma BadNumberStops(p: Peer, conn: Conn, to: UserId, msg: string)
    requires p.client.phase.InSession? && !(INT_MIN <= to <= INT_MAX)
    ensures var q := Own(p, Type(conn, ChatLine(to, msg)));
            q.client.phase.Stopped? && q.up == p.up
  {
    ChatRoundTrip(p.client.id, p.client.name, to, msg);
  }

  lemma ActLeavesStopped(s: Sys, a: Act, conn: Conn)
    requires WellFormed(s.c) && conn in s.peers && conn in Perform(s, a).peers && s.peers[conn].client.phase.Stopped?
    ensures Perform(s, a).peers[conn].client == s.peers[conn].client && AskedNow(s.peers[conn], a) == []
  {
  }

  /** And for good. */
  lemma {:induction false} StoppedForGood(s: Sys, acts: seq<Act>, conn: Conn)
    requires WellFormed(s.c) && StaysOpen(s, acts, conn) && conn in s.peers && s.peers[conn].client.phase.Stopped?
    ensures PerformAll(s, acts).peers[conn].client == s.peers[conn].client && AskedOver(s, acts, conn) == []
  {
    if acts != [] {
      var before := acts[..|acts| - 1];
      StoppedForGood(s, before, conn);
      ActLeavesStopped(PerformAll(s, before), acts[|acts| - 1], conn);
    }
  }

  /** The reader thread has ended and the menu thread is in the menu or waits. */
  predicate Deaf(cl: Client) {
    !cl.reading && (cl.phase.Menu? || cl.phase.Waiting?)
  }

  lemma ActLeavesDeaf(s: Sys, a: Act, conn: Conn)
    requires WellFormed(s.c) && conn in s.peers && conn in Perform(s, a).peers && Deaf(s.peers[conn].client)
    ensures var cl, cl' := s.peers[conn].client, Perform(s, a).peers[conn].client;
            Deaf(cl') && (cl.phase.Waiting? ==> cl'.phase.Waiting?)
  {
  }

  lemma {:induction false} DeafForGood(s: Sys, acts: seq<Act>, conn: Conn)
    requires WellFormed(s.c) && StaysOpen(s, acts, conn) && conn in s.peers && Deaf(s.peers[conn].client)
    ensures Deaf(PerformAll(s, acts).peers[conn].client)
    ensures s.peers[conn].client.phase.Waiting? ==> PerformAll(s, acts).peers[conn].client.phase.Waiting?
  {
    if acts != [] {
      var before := acts[..|acts| - 1];
      DeafForGood(s, before, conn);
      ActLeavesDeaf(PerformAll(s, before), acts[|acts| - 1], conn);
    }
  }

  /** One refused login is final. The reader thread has returned, so over this
      connection no session ever opens again, and a client that asks once more waits
      for good. */
  lemma RefusalIsFinal(s: Sys, conn: Conn, acts: seq<Act>)
    requires SysInv(s) && conn in s.peers && s.peers[conn].client.reading && s.peers[conn].down != []
    requires s.peers[conn].down[0].Reply? && s.peers[conn].down[0].result.Refused?
    requires StaysOpen(Perform(s, ReadDown(conn)), acts, conn)
    ensures Deaf(PerformAll(Perform(s, ReadDown(conn)), acts).peers[conn].client)
  {
    var p := s.peers[conn];
    assert PeerInv(p, Carried(s.c, p.srv, conn));
    DeafForGood(Perform(s, ReadDown(conn)), acts, conn);
  }
}
