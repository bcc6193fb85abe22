/** Who owns a group, over whole runs. */
module GroupOwnership {
  import opened ChatTypes
  import opened GroupTable
  import opened ChatServer
  import opened ClusterModel
  import opened Sessions
  import opened Accounting

  /** The users of a group's admin rows. */
  function Admins(members: seq<Member>, g: GroupId): seq<UserId> {
    if members == [] then []
    else
      var last := members[|members| - 1];
      Admins(members[..|members| - 1], g) + (if last.groupid == g && last.role == Admin then [last.user] else [])
  }

  /** Every group has one admin row, and admin rows name a group or -1, the id a
      failed create leaves behind. */
  ghost predicate Owned(w: World) {
    && (forall g | g in w.groups :: g > 0 && |Admins(w.members, g)| == 1)
    && (forall m | m in w.members && m.role == Admin :: m.groupid == -1 || m.groupid in w.groups)
  }

  lemma AdminsAppend(members: seq<Member>, m: Member, g: GroupId)
    ensures Admins(members + [m], g)
         == Admins(members, g) + (if m.groupid == g && m.role == Admin then [m.user] else [])
  {
  }

  lemma {:induction false} NoAdmins(members: seq<Member>, g: GroupId)
    requires forall m | m in members :: m.role == Admin ==> m.groupid != g
    ensures Admins(members, g) == []
  {
    if members != [] {
      assert members[|members| - 1] in members;
      NoAdmins(members[..|members| - 1], g);
    }
  }

  ghost predicate HasGroupName(groups: map<GroupId, GroupInfo>, name: string) {
    exists g | g in groups :: groups[g].name == name
  }

  /** Event `e` creates group `g`: it brings a name no group has. */
  ghost predicate Creates(c: Cluster, e: Event, g: GroupId) {
    && e.srv < |c.conns| && e.Message? && e.js.kind == Some(CREATE_GROUP_MSG)
    && e.js.id.Some? && e.js.name.Some? && e.js.desc.Some?
    && !HasGroupName(c.world.groups, e.js.name.value) && e.insertId == g
  }

  /** The request that created `g`, if one did. */
  ghost function CreationOf(c: Cluster, events: seq<Event>, g: GroupId): Option<Json>
    requires WellFormed(c)
  {
    if events == [] then None
    else
      var before, e := events[..|events| - 1], events[|events| - 1];
      if Creates(Run(c, before), e, g) then Some(e.js) else CreationOf(c, before, g)
  }

  /** Creator, name and description are those of the request. */
  ghost predicate AsRequested(w: World, g: GroupId, js: Json) {
    && g in w.groups && js.id.Some? && js.name.Some? && js.desc.Some?
    && Admins(w.members, g) == [js.id.value]
    && w.groups[g] == GroupInfo(js.name.value, js.desc.value)
  }

  /** The database picks fresh positive keys for groups. */
  predicate PicksFreshKey(c: Cluster, e: Event) {
    e.Message? && e.js.kind == Some(CREATE_GROUP_MSG) ==> e.insertId > 0 && e.insertId !in c.world.groups
  }

  ghost predicate FreshKeyRun(c: Cluster, events: seq<Event>)
    requires WellFormed(c)
  {
    events != [] ==>
      var before := events[..|events| - 1];
      FreshKeyRun(c, before) && PicksFreshKey(Run(c, before), events[|events| - 1])
  }

  lemma CreateOwns(w: World, js: Json, insertId: GroupId, g: GroupId)
    requires Owned(w) && insertId > 0 && insertId !in w.groups
    requires js.id.Some? && js.name.Some? && js.desc.Some?
    ensures var w' := CreateGroup(w, js, insertId);
            var created := !HasGroupName(w.groups, js.name.value);
            && w'.groups.Keys == w.groups.Keys + (if created then {insertId} else {})
            && (g in w.groups ==> w'.groups[g] == w.groups[g] && Admins(w'.members, g) == Admins(w.members, g))
            && (created && g == insertId ==> AsRequested(w', g, js))
  {
    AdminsAppend(w.members, Member(CreatedId(w.groups, js.name.value, insertId), js.id.value, Admin), g);
    if g == insertId {
      NoAdmins(w.members, insertId);
    }
  }

  lemma CreateKeepsOwned(w: World, js: Json, insertId: GroupId)
    requires Owned(w) && insertId > 0 && insertId !in w.groups
    ensures Owned(CreateGroup(w, js, insertId))
  {
    var w' := CreateGroup(w, js, insertId);
    if js.id.Some? && js.name.Some? && js.desc.Some? {
      forall g | g in w'.groups ensures g > 0 && |Admins(w'.members, g)| == 1 {
        CreateOwns(w, js, insertId, g);
      }
      forall m | m in w'.members && m.role == Admin ensures m.groupid == -1 || m.groupid in w'.groups {
        if m !in w.members {
          assert m.groupid == CreatedId(w.groups, js.name.value, insertId);
        }
      }
    }
  }

  lemma JoinKeepsOwned(w: World, js: Json)
    requires Owned(w)
    ensures Owned(JoinGroup(w, js))
    ensures forall g :: Admins(JoinGroup(w, js).members, g) == Admins(w.members, g)
  {
  }

  lemma OtherEventsKeepGroups(c: Cluster, e: Event)
    requires WellFormed(c)
    requires e.srv < |c.conns| && e.Message? ==>
               e.js.kind != Some(CREATE_GROUP_MSG) && e.js.kind != Some(JOIN_GROUP_MSG)
    ensures Apply(c, e).world.groups == c.world.groups && Apply(c, e).world.members == c.world.members
  {
    if e.srv < |c.conns| && e.Message? && e.js.kind == Some(GROUP_CHAT_MSG) {
      ChatStep(c, e.srv, e.conn, e.js, e.insertId);
      RouteAllKeepsSessions(c.conns[e.srv], c.world, Targets(c.world, e.js), e.js);
    }
  }

  /** One step: groups stay, their admins stay, and a group that appears has its
      creator as admin. */
  lemma StepKeepsOwned(c: Cluster, e: Event, g: GroupId)
    requires WellFormed(c) && Owned(c.world) && PicksFreshKey(c, e)
    ensures var w' := Apply(c, e).world;
            && Owned(w')
            && (g in w'.groups <==> g in c.world.groups || Creates(c, e, g))
            && (g in c.world.groups ==> !Creates(c, e, g) && w'.groups[g] == c.world.groups[g] &&
                                        Admins(w'.members, g) == Admins(c.world.members, g))
            && (Creates(c, e, g) ==> AsRequested(w', g, e.js))
  {
    if e.srv < |c.conns| && e.Message? && e.js.kind == Some(CREATE_GROUP_MSG) {
      CreateKeepsOwned(c.world, e.js, e.insertId);
      if e.js.id.Some? && e.js.name.Some? && e.js.desc.Some? {
        CreateOwns(c.world, e.js, e.insertId, g);
      }
    } else if e.srv < |c.conns| && e.Message? && e.js.kind == Some(JOIN_GROUP_MSG) {
      JoinKeepsOwned(c.world, e.js);
    } else if e.srv < |c.conns| {
      OtherEventsKeepGroups(c, e);
    }
  }

  /** Over all runs, whatever else happens in them: a group created during the run
      has exactly one admin row, its creator's, and the name and description asked for;
      an older group keeps its one admin, its name and its description. */
  lemma {:induction false} GroupsBelongToTheirCreators(c: Cluster, events: seq<Event>, g: GroupId)
    requires WellFormed(c) && Owned(c.world) && FreshKeyRun(c, events)
    ensures var w := Run(c, events).world;
            && Owned(w)
            && (g in c.world.groups ==> g in w.groups && w.groups[g] == c.world.groups[g] &&
                                        Admins(w.members, g) == Admins(c.world.members, g))
            && (g !in c.world.groups && g in w.groups ==>
                  CreationOf(c, events, g).Some? && AsRequested(w, g, CreationOf(c, events, g).value))
  {
    if events != [] {
      var before := events[..|events| - 1];
      GroupsBelongToTheirCreators(c, before, g);
      StepKeepsOwned(Run(c, before), events[|events| - 1], g);
    }
  }

  ghost predicate GroupNamesUnique(groups: map<GroupId, GroupInfo>) {
    forall a, b | a in groups && b in groups && groups[a].name == groups[b].name :: a == b
  }

  /** And no two groups ever have one name. */
  lemma {:induction false} GroupNamesStayUnique(c: Cluster, events: seq<Event>)
    requires WellFormed(c) && Owned(c.world) && FreshKeyRun(c, events) && GroupNamesUnique(c.world.groups)
    ensures Owned(Run(c, events).world) && GroupNamesUnique(Run(c, events).world.groups)
  {
    if events != [] {
      var before, e := events[..|events| - 1], events[|events| - 1];
      var b := Run(c, before);
      GroupNamesStayUnique(c, before);
      forall g {
        StepKeepsOwned(b, e, g);
      }
    }
  }
}
