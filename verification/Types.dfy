/** Values shared by every part of the model: requests, table rows, broker
    inboxes, socket output, and the state of the whole cluster. */
module ChatTypes {

  datatype Option<+T> = None | Some(value: T)

  type UserId = int
  type GroupId = int
  type Conn = nat

  // Message types
  const LOGIN_MSG := 1
  const REG_MSG := 3
  const PRIVATE_CHAT_MSG := 5
  const ADD_CONTACT_MSG := 6
  const CREATE_GROUP_MSG := 7
  const JOIN_GROUP_MSG := 8
  const GROUP_CHAT_MSG := 9
  const LOG_OUT_MSG := 10

  /** One JSON object. `None` is a field the object does not contain. A chat
      message is forwarded, stored and published as the object itself. */
  datatype Json = Json(
    kind: Option<int>,
    id: Option<UserId>,
    to: Option<UserId>,
    groupid: Option<GroupId>,
    name: Option<string>,
    password: Option<string>,
    desc: Option<string>,
    msg: Option<string>)

  datatype State = Online | Offline

  /** A row of the user table, without its key. */
  datatype Account = Account(name: string, password: string, state: State)

  /** A user object as a query returns it; the key is part of the value. */
  datatype User = User(id: UserId, name: string, password: string, state: State)

  /** One copy of a message on its way to one user. */
  datatype Copy = Copy(user: UserId, msg: Json)

  datatype Role = Admin | Normal
  datatype GroupInfo = GroupInfo(name: string, desc: string)
  datatype Member = Member(groupid: GroupId, user: UserId, role: Role)

  /** What the broker keeps for one server process: its subscriptions and the
      messages it has not read yet, oldest first. */
  datatype Inbox = Inbox(subs: set<UserId>, queue: seq<Copy>)

  datatype Refusal = NoSuchUser | AlreadyOnline | WrongPassword
  datatype LoginResult = Accepted(name: string, offline: seq<Json>) | Refused(reason: Refusal)

  /** How a chat message reached the socket: in the sender's own handler, or
      from the broker. */
  datatype Via = Direct | Broker

  /** One write to a client socket. `user` is the map key the server used. */
  datatype Frame =
    | Chat(conn: Conn, user: UserId, msg: Json, via: Via)
    | Reply(conn: Conn, id: UserId, result: LoginResult)

  type ConnMap = map<UserId, Conn>

  /** Everything the server processes share: the tables, the broker, and the
      log of socket writes. */
  datatype World = World(
    users: map<UserId, Account>,
    rows: seq<Copy>,
    groups: map<GroupId, GroupInfo>,
    members: seq<Member>,
    inboxes: seq<Inbox>,
    wire: seq<Frame>)

  /** What one handler can change. */
  datatype Local = Local(conns: ConnMap, world: World)

  /** The processes are numbered; `conns[i]` is the map of process `i` and
      `world.inboxes[i]` is its inbox at the broker. */
  datatype Cluster = Cluster(conns: seq<ConnMap>, world: World)

  predicate IsOnline(w: World, u: UserId) {
    u in w.users && w.users[u].state == Online
  }

  function BoundUsers(conns: ConnMap, conn: Conn): set<UserId> {
    set u | u in conns && conns[u] == conn
  }
}
