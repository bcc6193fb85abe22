/** The handlers of src/server/service.cpp. Each is given twice: as a function
    from what it reads to what it leaves, and as a method of the class that
    updates the map and the tables step by step. */
module ChatServer {
  import opened ChatTypes
  import opened UserTable
  import opened OfflineTable
  import opened GroupTable
  import opened RedisBroker

  // ----- What the handlers do ------------------------------------------------

  function Refuse(w: World, conn: Conn, id: UserId, reason: Refusal): World {
    w.(wire := w.wire + [Reply(conn, id, Refused(reason))])
  }

  /** The checks, in the order the handler makes them. */
  function LoginRefusal(users: map<UserId, Account>, userid: UserId, password: string): Option<Refusal> {
    var user := QueryUser(users, userid);
    if user.id == -1 then Some(NoSuchUser)
    else if password != user.password then Some(WrongPassword)
    else if user.state == Online then Some(AlreadyOnline)
    else None
  }

  /** The reply carries the stored messages; then the rows are deleted, the user
      is marked online, mapped (unless the key is already there) and subscribed. */
  function Accept(me: nat, conns: ConnMap, w: World, conn: Conn, userid: UserId): (r: Local)
    requires me < |w.inboxes|
    ensures |r.world.inboxes| == |w.inboxes|
  {
    Local(if userid in conns then conns else conns[userid := conn],
          w.(wire := w.wire + [Reply(conn, userid, Accepted(QueryUser(w.users, userid).name,
                                                            MessagesFor(w.rows, userid)))],
             rows := WithoutRows(w.rows, userid),
             users := UpdateState(w.users, userid, Online),
             inboxes := Subscribe(w.inboxes, me, userid)))
  }

  function Login(me: nat, conns: ConnMap, w: World, conn: Conn, js: Json): (r: Local)
    requires me < |w.inboxes|
    ensures |r.world.inboxes| == |w.inboxes|
  {
    if js.id.None? || js.password.None? then Local(conns, w)
    else
      match LoginRefusal(w.users, js.id.value, js.password.value)
      case Some(reason) => Local(conns, Refuse(w, conn, js.id.value, reason))
      case None => Accept(me, conns, w, conn, js.id.value)
  }

  predicate LoginAccepted(w: World, js: Json) {
    js.id.Some? && js.password.Some? && LoginRefusal(w.users, js.id.value, js.password.value).None?
  }

  function LogOut(me: nat, conns: ConnMap, w: World, id: UserId): (r: Local)
    requires me < |w.inboxes|
    ensures |r.world.inboxes| == |w.inboxes|
  {
    if id in conns
    then Local(conns - {id}, w.(users := UpdateState(w.users, id, Offline),
                                inboxes := Unsubscribe(w.inboxes, me, id)))
    else Local(conns, w)
  }

  /** Every entry of the connection goes, but only the last one visited by the
      scan, `last`, is marked offline. */
  function ClientClose(me: nat, conns: ConnMap, w: World, conn: Conn, last: UserId): (r: Local)
    requires me < |w.inboxes|
    ensures |r.world.inboxes| == |w.inboxes|
  {
    var bound := BoundUsers(conns, conn);
    if bound == {} then Local(conns, w)
    else
      Local(conns - bound,
            w.(users := if last != -1 then UpdateState(w.users, last, Offline) else w.users,
               inboxes := UnsubscribeAll(w.inboxes, me, bound)))
  }

  /** Where one copy goes: the local socket, the stored messages, or the broker. */
  function Route(conns: ConnMap, w: World, cp: Copy): (r: World)
    ensures |r.inboxes| == |w.inboxes|
  {
    if cp.user in conns then
      w.(wire := w.wire + [Chat(conns[cp.user], cp.user, cp.msg, Direct)])
    else if QueryUser(w.users, cp.user).state == Offline then
      w.(rows := w.rows + [cp])
    else
      w.(inboxes := Publish(w.inboxes, cp))
  }

  function RouteAll(conns: ConnMap, w: World, users: seq<UserId>, msg: Json): (r: World)
    ensures |r.inboxes| == |w.inboxes|
  {
    if users == [] then w
    else Route(conns, RouteAll(conns, w, users[..|users| - 1], msg), Copy(users[|users| - 1], msg))
  }

  function PrivateChat(conns: ConnMap, w: World, js: Json): (r: World)
    ensures |r.inboxes| == |w.inboxes|
  {
    if js.to.Some? then Route(conns, w, Copy(js.to.value, js)) else w
  }

  function GroupChat(conns: ConnMap, w: World, js: Json): (r: World)
    ensures |r.inboxes| == |w.inboxes|
  {
    if js.id.None? || js.groupid.None? then w
    else RouteAll(conns, w, GroupUsers(w.members, js.id.value, js.groupid.value), js)
  }

  /** A published message whose user has left this process is stored. */
  function RedisNotify(conns: ConnMap, w: World, cp: Copy): World {
    if cp.user in conns
    then w.(wire := w.wire + [Chat(conns[cp.user], cp.user, cp.msg, Broker)])
    else w.(rows := w.rows + [cp])
  }

  /** One turn of the notify loop. */
  function ReceiveOne(me: nat, conns: ConnMap, w: World): (r: World)
    requires me < |w.inboxes|
    ensures |r.inboxes| == |w.inboxes|
  {
    var inbox := w.inboxes[me];
    if inbox.queue == [] then w
    else RedisNotify(conns, w.(inboxes := w.inboxes[me := inbox.(queue := inbox.queue[1..])]), inbox.queue[0])
  }

  function ReceiveAll(me: nat, conns: ConnMap, w: World): World
    requires me < |w.inboxes|
    decreases |w.inboxes[me].queue|
  {
    if w.inboxes[me].queue == [] then w else ReceiveAll(me, conns, ReceiveOne(me, conns, w))
  }

  /** The membership row is written even when the group was not created. */
  function CreateGroup(w: World, js: Json, insertId: GroupId): World {
    if js.id.None? || js.name.None? || js.desc.None? then w
    else
      w.(groups := InsertGroup(w.groups, js.name.value, js.desc.value, insertId),
         members := w.members + [Member(CreatedId(w.groups, js.name.value, insertId), js.id.value, Admin)])
  }

  function JoinGroup(w: World, js: Json): World {
    if js.id.None? || js.groupid.None? then w
    else w.(members := w.members + [Member(js.groupid.value, js.id.value, Normal)])
  }

  function Reg(w: World, js: Json, insertId: UserId): World {
    if js.name.None? || js.password.None? then w
    else w.(users := InsertUser(w.users, js.name.value, js.password.value, insertId))
  }

  /** What a whole request leaves. A missing or unknown type does nothing; a
      request to log out without an id throws before it changes anything. Contact requests change only the friend
      table, which is not part of this model. */
  function Handle(me: nat, conns: ConnMap, w: World, conn: Conn, js: Json, insertId: int): (r: Local)
    requires me < |w.inboxes|
    ensures |r.world.inboxes| == |w.inboxes|
  {
    if js.kind == Some(LOGIN_MSG) then Login(me, conns, w, conn, js)
    else if js.kind == Some(REG_MSG) then Local(conns, Reg(w, js, insertId))
    else if js.kind == Some(PRIVATE_CHAT_MSG) then Local(conns, PrivateChat(conns, w, js))
    else if js.kind == Some(CREATE_GROUP_MSG) then Local(conns, CreateGroup(w, js, insertId))
    else if js.kind == Some(JOIN_GROUP_MSG) then Local(conns, JoinGroup(w, js))
    else if js.kind == Some(GROUP_CHAT_MSG) then Local(conns, GroupChat(conns, w, js))
    else if js.kind == Some(LOG_OUT_MSG) && js.id.Some? then LogOut(me, conns, w, js.id.value)
    else Local(conns, w)
  }

  lemma NonEmpty(s: set<UserId>)
    requires s != {}
    ensures exists u :: u in s
  {
    assert (forall u :: u !in s) ==> s == {};
  }

  lemma ScanOneMore(conns: ConnMap, conn: Conn, todo: set<UserId>, key: UserId)
    requires key in todo && todo <= conns.Keys
    ensures var erased := BoundUsers(conns, conn) - todo;
            key in conns - erased && (conns - erased)[key] == conns[key] &&
            BoundUsers(conns, conn) - (todo - {key}) == (if conns[key] == conn then erased + {key} else erased) &&
            (conns - erased) - {key} == conns - (erased + {key})
  {
  }

  /** Requests that neither log in or out nor send touch only the account and the
      group tables. */
  lemma OtherRequests(me: nat, conns: ConnMap, w: World, conn: Conn, js: Json, insertId: int)
    requires me < |w.inboxes|
    requires js.kind != Some(LOGIN_MSG) && js.kind != Some(PRIVATE_CHAT_MSG) && js.kind != Some(GROUP_CHAT_MSG)
    requires js.kind == Some(LOG_OUT_MSG) ==> js.id.None?
    ensures var v := Handle(me, conns, w, conn, js, insertId);
            v.conns == conns && v.world.wire == w.wire && v.world.rows == w.rows && v.world.inboxes == w.inboxes
  {
  }

  // ----- The service object --------------------------------------------------

  class Network {
    var wire: seq<Frame>

    constructor ()
      ensures wire == []
    {
      wire := [];
    }

    method Send(frame: Frame)
      modifies this
      ensures wire == old(wire) + [frame]
    {
      wire := wire + [frame];
    }
  }

  class ChatService {
    const me: nat
    var userConnMap: map<UserId, Conn>
    const usermodel: UserModel
    const offlinemsgmodel: OfflineMsgModel
    const groupmodel: GroupModel
    const redis: Redis
    const network: Network

    ghost predicate Valid()
      reads this, redis
    {
      redis.Valid() && me < |redis.inboxes|
    }

    ghost function TheWorld(): (w: World)
      reads this, usermodel, offlinemsgmodel, groupmodel, redis, network
      ensures |w.inboxes| == |redis.inboxes|
    {
      World(usermodel.users, offlinemsgmodel.rows, groupmodel.groups, groupmodel.members,
            redis.Inboxes(), network.wire)
    }

    ghost function View(): (v: Local)
      reads this, usermodel, offlinemsgmodel, groupmodel, redis, network
      ensures |v.world.inboxes| == |redis.inboxes|
    {
      Local(userConnMap, TheWorld())
    }

    constructor (me: nat, usermodel: UserModel, offlinemsgmodel: OfflineMsgModel, groupmodel: GroupModel,
                 redis: Redis, network: Network)
      requires redis.Valid() && me < |redis.inboxes|
      ensures Valid() && userConnMap == map[]
      ensures this.me == me && this.usermodel == usermodel && this.offlinemsgmodel == offlinemsgmodel
      ensures this.groupmodel == groupmodel && this.redis == redis && this.network == network
    {
      this.me, userConnMap := me, map[];
      this.usermodel, this.offlinemsgmodel, this.groupmodel := usermodel, offlinemsgmodel, groupmodel;
      this.redis, this.network := redis, network;
    }

    method OnLogin(conn: Conn, js: Json)
      requires Valid()
      modifies this, usermodel, offlinemsgmodel, redis, network
      ensures Valid()
      ensures View() == Login(me, old(userConnMap), old(TheWorld()), conn, js)
    {
      if js.id.None? || js.password.None? {
        return;
      }
      var userid := js.id.value;
      var user := usermodel.Query(userid);
      if user.id == -1 {
        network.Send(Reply(conn, userid, Refused(NoSuchUser)));
      } else if js.password.value == user.password {
        if user.state == Online {
          network.Send(Reply(conn, userid, Refused(AlreadyOnline)));
        } else {
          var offline := offlinemsgmodel.Query(user.id);
          network.Send(Reply(conn, userid, Accepted(user.name, offline)));
          offlinemsgmodel.Remove(user.id);
          usermodel.UpdateStateOf(userid, Online);
          if userid !in userConnMap {
            userConnMap := userConnMap[userid := conn];
          }
          redis.SubscribeTo(me, userid);
        }
      } else {
        network.Send(Reply(conn, userid, Refused(WrongPassword)));
      }
    }

    method EraseEntry(key: UserId)
      requires Valid()
      modifies this, redis
      ensures Valid()
      ensures userConnMap == old(userConnMap) - {key}
      ensures redis.Inboxes() == Unsubscribe(old(redis.Inboxes()), me, key)
    {
      userConnMap := userConnMap - {key};
      redis.UnsubscribeFrom(me, key);
    }

    /** The scan under the lock. It visits the keys in any order and returns the
        last one erased. */
    method EraseEntriesOf(conn: Conn) returns (userid: UserId)
      requires Valid()
      modifies this, redis
      ensures Valid()
      ensures var bound := BoundUsers(old(userConnMap), conn);
              userConnMap == old(userConnMap) - bound &&
              redis.Inboxes() == UnsubscribeAll(old(redis.Inboxes()), me, bound) &&
              if bound == {} then userid == -1 else userid in bound
    {
      userid := -1;
      ghost var was, inboxes := userConnMap, redis.Inboxes();
      ghost var bound := BoundUsers(was, conn);
      ghost var erased: set<UserId> := {};
      var todo := userConnMap.Keys;
      UnsubscribeNone(inboxes, me);
      while todo != {}
        invariant Valid()
        invariant todo <= was.Keys && erased == bound - todo
        invariant userConnMap == was - erased
        invariant redis.Inboxes() == UnsubscribeAll(inboxes, me, erased)
        invariant if erased == {} then userid == -1 else userid in erased
        decreases |todo|
      {
        NonEmpty(todo);
        var key :| key in todo;
        ScanOneMore(was, conn, todo, key);
        todo := todo - {key};
        if userConnMap[key] == conn {
          userid := key;
          UnsubscribeOneMore(inboxes, me, erased, key);
          EraseEntry(key);
          erased := erased + {key};
        }
      }
    }

    /** `userid` is -1 when the connection carried no user. */
    method ClientCloseException(conn: Conn) returns (userid: UserId)
      requires Valid()
      modifies this, usermodel, redis
      ensures Valid()
      ensures var bound := BoundUsers(old(userConnMap), conn);
              if bound == {} then userid == -1 else userid in bound
      ensures View() == ClientClose(me, old(userConnMap), old(TheWorld()), conn, userid)
    {
      ghost var inboxes := redis.Inboxes();
      userid := EraseEntriesOf(conn);
      UnsubscribeNone(inboxes, me);
      if userid != -1 {
        usermodel.UpdateStateOf(userid, Offline);
      }
    }

    method OnPrivateChat(js: Json)
      requires Valid()
      modifies offlinemsgmodel, redis, network
      ensures Valid()
      ensures TheWorld() == PrivateChat(userConnMap, old(TheWorld()), js)
    {
      if js.to.Some? {
        var toid := js.to.value;
        if toid in userConnMap {
          network.Send(Chat(userConnMap[toid], toid, js, Direct));
        } else {
          var user := usermodel.Query(toid);
          if user.state == Offline {
            offlinemsgmodel.Insert(toid, js);
          } else {
            redis.PublishTo(toid, js);
          }
        }
      }
    }

    /** The loop repeats the three branches of a private chat in line; its
        invariant says it has routed the members seen so far. */
    method OnGroupChat(js: Json)
      requires Valid()
      modifies offlinemsgmodel, redis, network
      ensures Valid()
      ensures TheWorld() == GroupChat(userConnMap, old(TheWorld()), js)
    {
      if js.id.None? || js.groupid.None? {
        return;
      }
      var users := groupmodel.QueryGroupUsers(js.id.value, js.groupid.value);
      for k := 0 to |users|
        invariant Valid()
        invariant TheWorld() == RouteAll(userConnMap, old(TheWorld()), users[..k], js)
      {
        assert users[..k + 1][..k] == users[..k];
        var userid := users[k];
        if userid in userConnMap {
          network.Send(Chat(userConnMap[userid], userid, js, Direct));
        } else {
          var user := usermodel.Query(userid);
          if user.state == Offline {
            offlinemsgmodel.Insert(userid, js);
          } else {
            redis.PublishTo(userid, js);
          }
        }
      }
      assert users[..|users|] == users;
    }

    method OnLogOut(id: UserId)
      requires Valid()
      modifies this, usermodel, redis
      ensures Valid()
      ensures View() == LogOut(me, old(userConnMap), old(TheWorld()), id)
    {
      if id in userConnMap {
        userConnMap := userConnMap - {id};
        usermodel.UpdateStateOf(id, Offline);
        redis.UnsubscribeFrom(me, id);
      }
    }

    method RedisNotifyMessageHandler(channel: UserId, message: Json)
      requires Valid()
      modifies offlinemsgmodel, network
      ensures Valid()
      ensures TheWorld() == RedisNotify(userConnMap, old(TheWorld()), Copy(channel, message))
    {
      if channel in userConnMap {
        network.Send(Chat(userConnMap[channel], channel, message, Broker));
      } else {
        offlinemsgmodel.Insert(channel, message);
      }
    }

    /** The notify loop, run until the inbox is empty. */
    method ReceiveMessage()
      requires Valid()
      modifies offlinemsgmodel, redis, network
      ensures Valid()
      ensures TheWorld() == ReceiveAll(me, userConnMap, old(TheWorld()))
      ensures redis.inboxes[me].queue == []
    {
      while redis.inboxes[me].queue != []
        invariant Valid()
        invariant ReceiveAll(me, userConnMap, TheWorld()) == ReceiveAll(me, userConnMap, old(TheWorld()))
        decreases |redis.inboxes[me].queue|
      {
        ghost var before := TheWorld();
        var channel, message := redis.NextReply(me);
        RedisNotifyMessageHandler(channel, message);
        assert TheWorld() == ReceiveOne(me, userConnMap, before);
      }
    }

    method OnCreateGroup(js: Json, insertId: GroupId)
      requires Valid()
      modifies groupmodel
      ensures Valid()
      ensures TheWorld() == CreateGroup(old(TheWorld()), js, insertId)
    {
      if js.id.None? || js.name.None? || js.desc.None? {
        return;
      }
      var groupid := groupmodel.Create(js.name.value, js.desc.value, insertId);
      groupmodel.Join(js.id.value, groupid, Admin);
    }

    method OnJoinGroup(js: Json)
      requires Valid()
      modifies groupmodel
      ensures Valid()
      ensures TheWorld() == JoinGroup(old(TheWorld()), js)
    {
      if js.id.Some? && js.groupid.Some? {
        groupmodel.Join(js.id.value, js.groupid.value, Normal);
      }
    }

    method OnReg(js: Json, insertId: UserId)
      requires Valid()
      modifies usermodel
      ensures Valid()
      ensures TheWorld() == Reg(old(TheWorld()), js, insertId)
    {
      if js.name.Some? && js.password.Some? {
        var _, _ := usermodel.Insert(js.name.value, js.password.value, insertId);
      }
    }

    /** The message callback: look the handler up by type and call it. A logout
        looks its id up without asking whether there is one, and then throws. */
    method OnMessage(conn: Conn, js: Json, insertId: int) returns (throws: bool)
      requires Valid()
      modifies this, usermodel, offlinemsgmodel, groupmodel, redis, network
      ensures Valid()
      ensures throws <==> js.kind == Some(LOG_OUT_MSG) && js.id.None?
      ensures throws ==> View() == old(View())
      ensures View() == Handle(me, old(userConnMap), old(TheWorld()), conn, js, insertId)
    {
      throws := false;
      if js.kind == Some(LOGIN_MSG) {
        OnLogin(conn, js);
      } else if js.kind == Some(REG_MSG) {
        OnReg(js, insertId);
      } else if js.kind == Some(PRIVATE_CHAT_MSG) {
        OnPrivateChat(js);
      } else if js.kind == Some(CREATE_GROUP_MSG) {
        OnCreateGroup(js, insertId);
      } else if js.kind == Some(JOIN_GROUP_MSG) {
        OnJoinGroup(js);
      } else if js.kind == Some(GROUP_CHAT_MSG) {
        OnGroupChat(js);
      } else if js.kind == Some(LOG_OUT_MSG) {
        if js.id.None? {
          return true;
        }
        OnLogOut(js.id.value);
      }
    }

    method Reset()
      modifies usermodel
      ensures usermodel.users == ResetStates(old(usermodel.users))
    {
      usermodel.Reset();
    }
  }
}
