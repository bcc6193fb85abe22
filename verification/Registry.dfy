/** What requests register, over runs: accounts and memberships. */
module Registry {
  import opened ChatTypes
  import opened OfflineTable
  import opened GroupTable
  import opened ChatServer
  import opened ClusterModel
  import opened Sessions
  import opened Accounting
  import opened Delivery
  import opened LoginRules
  import opened GroupOwnership

  // ----- Accounts ------------------------------------------------------------------------

  ghost predicate HasName(users: map<UserId, Account>, name: string) {
    exists a | a in users :: users[a].name == name
  }

  /** Event `e` registers account `u`: it brings a name nobody has, and a password. */
  ghost predicate Registers(c: Cluster, e: Event, u: UserId) {
    && e.srv < |c.conns| && e.Message? && e.js.kind == Some(REG_MSG)
    && e.js.name.Some? && e.js.password.Some?
    && !HasName(c.world.users, e.js.name.value) && e.insertId == u
  }

  /** The database picks a key that no account has. */
  predicate PicksFreshAccount(c: Cluster, e: Event) {
    e.Message? && e.js.kind == Some(REG_MSG) ==> e.insertId !in c.world.users
  }

  /** No step changes the name or password of an account or removes one; a new account
      is the one registered, offline. */
  lemma StepKeepsAccounts(c: Cluster, e: Event, u: UserId)
    requires WellFormed(c) && PicksFreshAccount(c, e)
    ensures var users, users' := c.world.users, Apply(c, e).world.users;
            && (u in users' <==> u in users || Registers(c, e, u))
            && (u in users ==> !Registers(c, e, u))
            && (u in users ==> users'[u].name == users[u].name && users'[u].password == users[u].password)
            && (Registers(c, e, u) ==> users'[u] == Account(e.js.name.value, e.js.password.value, Offline))
  {
    if e.srv < |c.conns| && e.Message? && e.js.kind == Some(GROUP_CHAT_MSG) {
      ChatStep(c, e.srv, e.conn, e.js, e.insertId);
      RouteAllKeepsSessions(c.conns[e.srv], c.world, Targets(c.world, e.js), e.js);
    }
  }

  ghost predicate FreshAccountRun(c: Cluster, events: seq<Event>)
    requires WellFormed(c)
  {
    events != [] ==>
      var before := events[..|events| - 1];
      FreshAccountRun(c, before) && PicksFreshAccount(Run(c, before), events[|events| - 1])
  }

  /** The request that registered `u`, if one did. */
  ghost function RegistrationOf(c: Cluster, events: seq<Event>, u: UserId): Option<Json>
    requires WellFormed(c)
  {
    if events == [] then None
    else
      var before, e := events[..|events| - 1], events[|events| - 1];
      if Registers(Run(c, before), e, u) then Some(e.js) else RegistrationOf(c, before, u)
  }

  ghost predicate NamesUnique(users: map<UserId, Account>) {
    forall a, b | a in users && b in users && users[a].name == users[b].name :: a == b
  }

  /** Over all runs, shutdowns included: accounts are for good, each with the name and
      password it was registered with, and names stay unique. */
  lemma {:induction false} AccountsAreForGood(c: Cluster, events: seq<Event>, u: UserId)
    requires WellFormed(c) && FreshAccountRun(c, events)
    ensures var users, users', reg := c.world.users, Run(c, events).world.users, RegistrationOf(c, events, u);
            && (u in users' <==> u in users || reg.Some?)
            && (u in users ==> users'[u].name == users[u].name && users'[u].password == users[u].password)
            && (u !in users && u in users' ==>
                  reg.value.name == Some(users'[u].name) && reg.value.password == Some(users'[u].password))
  {
    if events != [] {
      var before := events[..|events| - 1];
      AccountsAreForGood(c, before, u);
      StepKeepsAccounts(Run(c, before), events[|events| - 1], u);
    }
  }

  lemma {:induction false} NamesStayUnique(c: Cluster, events: seq<Event>)
    requires WellFormed(c) && FreshAccountRun(c, events) && NamesUnique(c.world.users)
    ensures NamesUnique(Run(c, events).world.users)
  {
    if events != [] {
      var before, e := events[..|events| - 1], events[|events| - 1];
      var b := Run(c, before);
      NamesStayUnique(c, before);
      forall u {
        StepKeepsAccounts(b, e, u);
      }
    }
  }

  /** Whoever registers can log in at once, on any process, with that password, and is
      greeted by that name; with any other password it is refused. */
  lemma RegisteredCanLogIn(c: Cluster, e: Event, i: nat, conn: Conn, js: Json, insertId: int)
    requires WellFormed(c) && PicksFreshAccount(c, e)
    requires e.Message? && Registers(c, e, e.insertId) && e.insertId != -1
    requires i < |c.conns| && js.kind == Some(LOGIN_MSG) && js.id == Some(e.insertId) && js.password.Some?
    ensures var c', u := Apply(c, e), e.insertId;
            var r := Apply(c', Message(i, conn, js, insertId));
            if js.password == e.js.password then
              r.world.wire == c'.world.wire + [Reply(conn, u, Accepted(e.js.name.value, MessagesFor(c'.world.rows, u)))]
              && IsOnline(r.world, u) && u in r.conns[i]
            else r == Answered(c', conn, u, WrongPassword)
  {
    var c' := Apply(c, e);
    StepKeepsAccounts(c, e, e.insertId);
    if js.password == e.js.password {
      AcceptedLogin(c', i, conn, js, insertId);
    } else {
      RefusedLogin(c', i, conn, js, insertId);
    }
  }

  // ----- Memberships -----------------------------------------------------------------------

  /** How many membership rows of group `g` for user `u` an event writes: one for a join
      of that group by that user, and one for a creation by that user that leaves `g`
      in the group's id, -1 when the name is taken. */
  ghost function RowsWritten(c: Cluster, e: Event, g: GroupId, u: UserId): nat {
    if e.srv >= |c.conns| || !e.Message? || e.js.id != Some(u) then 0
    else if e.js.kind == Some(JOIN_GROUP_MSG) then if e.js.groupid == Some(g) then 1 else 0
    else if e.js.kind == Some(CREATE_GROUP_MSG) && e.js.name.Some? && e.js.desc.Some? then
      var taken := exists h | h in c.world.groups :: c.world.groups[h].name == e.js.name.value;
      if g == (if taken then -1 else e.insertId) then 1 else 0
    else 0
  }

  lemma RowCountAppend(members: seq<Member>, m: Member, g: GroupId, u: UserId)
    ensures RowCount(members + [m], g, u) == RowCount(members, g, u) + (if m.groupid == g && m.user == u then 1 else 0)
  {
    assert (members + [m])[..|members|] == members;
  }

  lemma JoinWrites(w: World, js: Json, g: GroupId, u: UserId)
    ensures RowCount(JoinGroup(w, js).members, g, u)
         == RowCount(w.members, g, u) + (if js.id == Some(u) && js.groupid == Some(g) then 1 else 0)
  {
    if js.id.Some? && js.groupid.Some? {
      RowCountAppend(w.members, Member(js.groupid.value, js.id.value, Normal), g, u);
    }
  }

  lemma CreateWrites(w: World, js: Json, insertId: GroupId, g: GroupId, u: UserId)
    ensures RowCount(CreateGroup(w, js, insertId).members, g, u)
         == RowCount(w.members, g, u) +
            (if js.id == Some(u) && js.name.Some? && js.desc.Some? &&
                g == (if exists h | h in w.groups :: w.groups[h].name == js.name.value then -1 else insertId)
             then 1 else 0)
  {
    if js.id.Some? && js.name.Some? && js.desc.Some? {
      RowCountAppend(w.members, Member(CreatedId(w.groups, js.name.value, insertId), js.id.value, Admin), g, u);
    }
  }

  /** For every group and every user, a step writes those rows and takes none away. */
  lemma StepWritesRows(c: Cluster, e: Event, g: GroupId, u: UserId)
    requires WellFormed(c)
    ensures RowCount(Apply(c, e).world.members, g, u) == RowCount(c.world.members, g, u) + RowsWritten(c, e, g, u)
  {
    if e.srv < |c.conns| && e.Message? && e.js.kind == Some(JOIN_GROUP_MSG) {
      assert Apply(c, e).world.members == JoinGroup(c.world, e.js).members;
      JoinWrites(c.world, e.js, g, u);
    } else if e.srv < |c.conns| && e.Message? && e.js.kind == Some(CREATE_GROUP_MSG) {
      assert Apply(c, e).world.members == CreateGroup(c.world, e.js, e.insertId).members;
      CreateWrites(c.world, e.js, e.insertId, g, u);
    } else {
      OtherEventsKeepGroups(c, e);
    }
  }

  ghost function RowsWrittenOver(c: Cluster, events: seq<Event>, g: GroupId, u: UserId): nat
    requires WellFormed(c)
  {
    if events == [] then 0
    else
      var before := events[..|events| - 1];
      RowsWrittenOver(c, before, g, u) + RowsWritten(Run(c, before), events[|events| - 1], g, u)
  }

  /** Over all runs, exactly the joins and creations that name them. */
  lemma {:induction false} MembershipsAreCounted(c: Cluster, events: seq<Event>, g: GroupId, u: UserId)
    requires WellFormed(c)
    ensures RowCount(Run(c, events).world.members, g, u)
         == RowCount(c.world.members, g, u) + RowsWrittenOver(c, events, g, u)
  {
    if events != [] {
      var before := events[..|events| - 1];
      MembershipsAreCounted(c, before, g, u);
      StepWritesRows(Run(c, before), events[|events| - 1], g, u);
    }
  }

  lemma JoinKeepsAgree(c: Cluster, e: Event)
    requires Agree(c) && e.Message? && e.js.kind == Some(JOIN_GROUP_MSG)
    ensures Agree(Apply(c, e)) && |Apply(c, e).conns| == |c.conns|
  {
    var c' := Apply(c, e);
    assert c' == c.(world := c'.world);
    SameSessionsKeepInv(c, c'.world);
  }

  /** After a join, each message to the group by another user brings the joiner one
      copy more than before. */
  lemma JoinerGetsOneMore(c: Cluster, join: Event, i: nat, conn: Conn, js: Json, insertId: int)
    requires Agree(c) && join.Message? && join.srv < |c.conns| && i < |c.conns|
    requires join.js.kind == Some(JOIN_GROUP_MSG) && join.js.id.Some? && join.js.groupid.Some?
    requires js.kind == Some(GROUP_CHAT_MSG) && js.groupid == join.js.groupid
    requires js.id.Some? && js.id != join.js.id
    ensures var c', u := Apply(c, join), join.js.id.value;
            var r := Apply(c', Message(i, conn, js, insertId));
            Lands(c'.conns[i], c'.world, r.world, Copy(u, js), RowCount(c.world.members, js.groupid.value, u) + 1)
  {
    JoinKeepsAgree(c, join);
    GroupFanOut(Apply(c, join), i, conn, js, insertId, join.js.id.value);
    StepWritesRows(c, join, js.groupid.value, join.js.id.value);
  }
}
