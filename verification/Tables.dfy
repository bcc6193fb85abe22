/** The user table: src/server/model/usermodel.cpp. */
module UserTable {
  import opened ChatTypes

  /** A missing row reads as the default user: id -1, offline. */
  function QueryUser(users: map<UserId, Account>, id: UserId): User {
    if id in users
    then User(id, users[id].name, users[id].password, users[id].state)
    else User(-1, "", "", Offline)
  }

  function UpdateState(users: map<UserId, Account>, id: UserId, state: State): map<UserId, Account> {
    if id in users then users[id := users[id].(state := state)] else users
  }

  function ResetStates(users: map<UserId, Account>): map<UserId, Account> {
    map id | id in users :: users[id].(state := Offline)
  }

  predicate NameTaken(users: map<UserId, Account>, name: string) {
    exists id | id in users :: users[id].name == name
  }

  /** `insertId` is the key the database chooses. */
  function InsertUser(users: map<UserId, Account>, name: string, password: string, insertId: UserId)
    : map<UserId, Account>
  {
    if NameTaken(users, name) then users else users[insertId := Account(name, password, Offline)]
  }

  class UserModel {
    var users: map<UserId, Account>

    constructor ()
      ensures users == map[]
    {
      users := map[];
    }

    method Insert(name: string, password: string, insertId: UserId) returns (ok: bool, id: UserId)
      modifies this
      ensures users == InsertUser(old(users), name, password, insertId)
      ensures ok == !NameTaken(old(users), name)
      ensures id == if ok then insertId else -1
    {
      id := -1;
      ok := !NameTaken(users, name);
      if ok {
        users := users[insertId := Account(name, password, Offline)];
        id := insertId;
      }
    }

    method Query(id: UserId) returns (user: User)
      ensures user == QueryUser(users, id)
    {
      if id in users {
        var row := users[id];
        user := User(id, row.name, row.password, row.state);
      } else {
        user := User(-1, "", "", Offline);
      }
    }

    method UpdateStateOf(id: UserId, state: State)
      modifies this
      ensures users == UpdateState(old(users), id, state)
    {
      if id in users {
        users := users[id := users[id].(state := state)];
      }
    }

    method Reset()
      modifies this
      ensures users == ResetStates(old(users))
    {
      users := map id | id in users :: users[id].(state := Offline);
    }
  }
}

/** The stored-message table: src/server/offlinemessagemodel.cpp. */
module OfflineTable {
  import opened ChatTypes

  /** The messages of one user's rows, in insertion order. */
  function MessagesFor(rows: seq<Copy>, id: UserId): seq<Json> {
    if rows == [] then []
    else
      var last := rows[|rows| - 1];
      MessagesFor(rows[..|rows| - 1], id) + (if last.user == id then [last.msg] else [])
  }

  function WithoutRows(rows: seq<Copy>, id: UserId): seq<Copy> {
    if rows == [] then []
    else
      var last := rows[|rows| - 1];
      WithoutRows(rows[..|rows| - 1], id) + (if last.user == id then [] else [last])
  }

  class OfflineMsgModel {
    var rows: seq<Copy>

    constructor ()
      ensures rows == []
    {
      rows := [];
    }

    method Insert(id: UserId, msg: Json)
      modifies this
      ensures rows == old(rows) + [Copy(id, msg)]
    {
      rows := rows + [Copy(id, msg)];
    }

    method Query(id: UserId) returns (msgs: seq<Json>)
      ensures msgs == MessagesFor(rows, id)
    {
      msgs := [];
      for k := 0 to |rows|
        invariant msgs == MessagesFor(rows[..k], id)
      {
        assert rows[..k + 1][..k] == rows[..k];
        if rows[k].user == id {
          msgs := msgs + [rows[k].msg];
        }
      }
      assert rows[..|rows|] == rows;
    }

    method Remove(id: UserId)
      modifies this
      ensures rows == WithoutRows(old(rows), id)
    {
      var kept: seq<Copy> := [];
      for k := 0 to |rows|
        invariant rows == old(rows)
        invariant kept == WithoutRows(rows[..k], id)
      {
        assert rows[..k + 1][..k] == rows[..k];
        if rows[k].user != id {
          kept := kept + [rows[k]];
        }
      }
      assert rows[..|rows|] == rows;
      rows := kept;
    }
  }
}

/** Groups and their membership rows: src/server/model/groupmodel.cpp. The
    membership table has no key, so it is a sequence that may hold a row twice. */
module GroupTable {
  import opened ChatTypes

  /** The members of a group other than `id`, one entry per row. */
  function GroupUsers(members: seq<Member>, id: UserId, groupid: GroupId): seq<UserId> {
    if members == [] then []
    else
      var last := members[|members| - 1];
      GroupUsers(members[..|members| - 1], id, groupid) +
      (if last.groupid == groupid && last.user != id then [last.user] else [])
  }

  predicate GroupNameTaken(groups: map<GroupId, GroupInfo>, name: string) {
    exists g | g in groups :: groups[g].name == name
  }

  /** The id a `create` leaves in its argument: the database's on success, -1
      when the unique name is already there. */
  function CreatedId(groups: map<GroupId, GroupInfo>, name: string, insertId: GroupId): GroupId {
    if GroupNameTaken(groups, name) then -1 else insertId
  }

  function InsertGroup(groups: map<GroupId, GroupInfo>, name: string, desc: string, insertId: GroupId)
    : map<GroupId, GroupInfo>
  {
    if GroupNameTaken(groups, name) then groups else groups[insertId := GroupInfo(name, desc)]
  }

  class GroupModel {
    var groups: map<GroupId, GroupInfo>
    var members: seq<Member>

    constructor ()
      ensures groups == map[] && members == []
    {
      groups := map[];
      members := [];
    }

    method Create(name: string, desc: string, insertId: GroupId) returns (id: GroupId)
      modifies this`groups
      ensures groups == InsertGroup(old(groups), name, desc, insertId)
      ensures id == CreatedId(old(groups), name, insertId)
    {
      id := -1;
      if !GroupNameTaken(groups, name) {
        groups := groups[insertId := GroupInfo(name, desc)];
        id := insertId;
      }
    }

    method Join(user: UserId, groupid: GroupId, role: Role)
      modifies this`members
      ensures members == old(members) + [Member(groupid, user, role)]
    {
      members := members + [Member(groupid, user, role)];
    }

    method QueryGroupUsers(id: UserId, groupid: GroupId) returns (users: seq<UserId>)
      ensures users == GroupUsers(members, id, groupid)
    {
      users := [];
      for k := 0 to |members|
        invariant users == GroupUsers(members[..k], id, groupid)
      {
        assert members[..k + 1][..k] == members[..k];
        if members[k].groupid == groupid && members[k].user != id {
          users := users + [members[k].user];
        }
      }
      assert members[..|members|] == members;
    }
  }
}
