/** What the locks do: while one is held nobody else touches what it guards; and no
    deadlock: whatever is under way, the handlers can be run to their ends one after
    another, and then the processes agree. */
module Settling {
  import opened ChatTypes
  import opened ClusterModel
  import opened Sessions
  import opened SmallStep
  import opened SmallStepSafety

  // ----- Mutual exclusion ------------------------------------------------------------------

  /** The step is one of the handler that holds the lock. */
  predicate ByHolder(s: Step, holder: Conn) {
    s.Proceed? && s.conn == holder
  }

  /** The map and the lock of process `i` are as they were. */
  ghost predicate Untouched(z: Fine, z': Fine, i: nat) {
    && |z'.c.conns| == |z.c.conns| && |z'.lock| == |z.lock|
    && (i < |z.c.conns| ==> z'.c.conns[i] == z.c.conns[i])
    && (i < |z.lock| ==> z'.lock[i] == z.lock[i])
  }

  predicate Locked(z: Fine, i: nat) {
    i < |z.lock| && z.lock[i].Some?
  }

  lemma LoginLeavesLocked(z: Fine, conn: Conn, i: nat)
    requires WellShaped(z) && conn in z.ops && z.ops[conn].LoggingIn? && Locked(z, i)
    ensures Untouched(z, LoginStep(z, conn), i)
  {
  }

  lemma HolderStaysAtHome(z: Fine, conn: Conn, pick: UserId, i: nat)
    requires WellShaped(z) && conn in z.ops && !z.ops[conn].LoggingIn? && i != z.ops[conn].srv
    ensures Untouched(z, Advance(z, conn, pick), i)
  {
  }

  /** A close that has let the lock go marks its user offline and no more. */
  lemma ReleasedTouchesNoMap(z: Fine, conn: Conn, pick: UserId, i: nat)
    requires WellShaped(z) && conn in z.ops && z.ops[conn].Closing? && z.ops[conn].scan == Released
    ensures Untouched(z, CloseStep(z, conn, pick), i)
  {
  }

  lemma OthersLeaveMap(z: Fine, conn: Conn, pick: UserId, i: nat)
    requires FineInv(z) && conn in z.ops && Locked(z, i) && z.lock[i].value != conn
    ensures Untouched(z, Advance(z, conn, pick), i)
  {
    assert OpInv(z, conn, z.ops[conn]);
    if z.ops[conn].LoggingIn? {
      LoginLeavesLocked(z, conn, i);
    } else if HoldsLock(z.ops[conn]) {
      HolderStaysAtHome(z, conn, pick, i);
    } else {
      ReleasedTouchesNoMap(z, conn, pick, i);
    }
  }

  lemma StartsLeaveLocked(z: Fine, s: Step, i: nat)
    requires WellShaped(z) && Locked(z, i) && !s.Proceed?
    ensures Untouched(z, Take(z, s), i)
  {
  }

  /** While a logout or a close holds the lock of process `i`, no step of anybody else
      changes that process's map or takes the lock, and no chat message is sent or
      received there. */
  lemma MutualExclusion(z: Fine, s: Step, i: nat)
    requires FineInv(z) && Locked(z, i) && !ByHolder(s, z.lock[i].value)
    ensures Untouched(z, Take(z, s), i)
    ensures s == Read(i) || (s.Request? && s.srv == i && IsChat(s.js)) ==> Take(z, s) == z
  {
    if s.Proceed? {
      if s.conn in z.ops {
        OthersLeaveMap(z, s.conn, s.pick, i);
      }
    } else {
      StartsLeaveLocked(z, s, i);
    }
  }

  // ----- No deadlock -----------------------------------------------------------------------

  /** How many steps a handler has left. */
  function StepsLeft(op: Op): (n: nat)
    ensures n > 0
  {
    match op
    case LoggingIn(_, _, stage) =>
      (match stage
       case Checked => 5
       case Fetched(_) => 4
       case Removed => 3
       case Marked => 2
       case Inserted => 1)
    case LoggingOut(_, _, marked) => if marked then 1 else 2
    case Closing(_, _, scan) => if scan == Erased then 3 else if scan == Scanning then 2 else 1
  }

  /** A login waits for the lock of its process; nothing else ever waits. */
  predicate NeedNotWait(z: Fine, conn: Conn) {
    conn in z.ops && (z.ops[conn].LoggingIn? ==> Free(z, z.ops[conn].srv))
  }

  /** From `z` to `r`, the handler of `conn` comes one step closer to its end, and is
      then still free to go on. */
  ghost predicate Closer(z: Fine, r: Fine, conn: Conn)
    requires conn in z.ops
  {
    && r.ops - {conn} == z.ops - {conn}
    && (conn in r.ops <==> StepsLeft(z.ops[conn]) > 1)
    && (conn in r.ops ==> NeedNotWait(r, conn) && StepsLeft(r.ops[conn]) == StepsLeft(z.ops[conn]) - 1)
  }

  lemma LoginCloser(z: Fine, conn: Conn)
    requires WellShaped(z) && NeedNotWait(z, conn) && z.ops[conn].LoggingIn?
    ensures Closer(z, LoginStep(z, conn), conn)
  {
    var r := LoginStep(z, conn);
    assert r.lock == z.lock;
    assert r.ops - {conn} == z.ops - {conn};
  }

  lemma LogOutCloser(z: Fine, conn: Conn)
    requires WellShaped(z) && conn in z.ops && z.ops[conn].LoggingOut?
    ensures Closer(z, LogOutStep(z, conn), conn)
  {
    assert LogOutStep(z, conn).ops - {conn} == z.ops - {conn};
  }

  lemma CloseCloser(z: Fine, conn: Conn, pick: UserId)
    requires WellShaped(z) && conn in z.ops && z.ops[conn].Closing?
    requires z.ops[conn].scan == Scanning ==> BoundUsers(z.c.conns[z.ops[conn].srv], conn) == {}
    ensures Closer(z, CloseStep(z, conn, pick), conn)
  {
    assert CloseStep(z, conn, pick).ops - {conn} == z.ops - {conn};
  }

  lemma StepLeft(z: Fine, conn: Conn, pick: UserId)
    requires FineInv(z) && NeedNotWait(z, conn)
    ensures Closer(z, Take(z, Proceed(conn, pick)), conn)
  {
    assert OpInv(z, conn, z.ops[conn]);
    match z.ops[conn]
    case LoggingIn(_, _, _) => LoginCloser(z, conn);
    case LoggingOut(_, _, _) => LogOutCloser(z, conn);
    case Closing(i, _, _) =>
      NothingBound(z.c.conns[i], conn);
      CloseCloser(z, conn, pick);
  }

  /** The run of one handler to its end. */
  lemma RunsToEnd(z: Fine, conn: Conn, pick: UserId) returns (steps: seq<Step>)
    requires FineInv(z) && NeedNotWait(z, conn)
    ensures forall s | s in steps :: s.Proceed?
    ensures FineInv(Execute(z, steps)) && Execute(z, steps).ops == z.ops - {conn}
    decreases StepsLeft(z.ops[conn])
  {
    var s := Proceed(conn, pick);
    var z1 := Take(z, s);
    StepLeft(z, conn, pick);
    TakeKeepsInv(z, s);
    ExecuteOne(z, s);
    if conn in z1.ops {
      var rest := RunsToEnd(z1, conn, pick);
      steps := [s] + rest;
      ExecuteConcat(z, [s], rest);
    } else {
      steps := [s];
      assert z1.ops - {conn} == z1.ops;
    }
  }

  lemma ExecuteOne(z: Fine, s: Step)
    requires WellShaped(z)
    ensures Execute(z, [s]) == Take(z, s)
  {
    assert [s][..0] == [];
  }

  lemma {:induction false} ExecuteConcat(z: Fine, a: seq<Step>, b: seq<Step>)
    requires WellShaped(z)
    ensures Execute(z, a + b) == Execute(Execute(z, a), b)
  {
    if b == [] {
      assert a + b == a;
    } else {
      assert (a + b)[..|a + b| - 1] == a + b[..|b| - 1];
      ExecuteConcat(z, a, b[..|b| - 1]);
    }
  }

  lemma SomeConn(s: set<Conn>)
    requires s != {}
    ensures exists conn :: conn in s
  {
    assert (forall conn :: conn !in s) ==> s == {};
  }

  /** While anything is under way, something need not wait: whoever holds a lock. */
  lemma SomeoneCanGoOn(z: Fine) returns (conn: Conn)
    requires FineInv(z) && z.ops != map[]
    ensures NeedNotWait(z, conn)
  {
    assert z.ops.Keys != {};
    SomeConn(z.ops.Keys);
    var any :| any in z.ops.Keys;
    var op := z.ops[any];
    assert OpInv(z, any, op);
    if op.LoggingIn? && z.lock[op.srv].Some? {
      conn := z.lock[op.srv].value;
      assert HoldsLock(z.ops[conn]);
    } else {
      conn := any;
    }
  }

  /** From any state the interleavings reach, finitely many steps of the handlers
      already running, and of nothing else, leave nothing running, and then maps,
      accounts and subscriptions agree. */
  lemma HandlersCanFinish(z: Fine, pick: UserId) returns (steps: seq<Step>)
    requires FineInv(z)
    ensures forall s | s in steps :: s.Proceed?
    ensures Quiet(Execute(z, steps)) && Inv(Execute(z, steps).c)
    decreases z.ops.Keys
  {
    if z.ops == map[] {
      steps := [];
      QuietMeansAgree(z);
    } else {
      var conn := SomeoneCanGoOn(z);
      var first := RunsToEnd(z, conn, pick);
      var z1 := Execute(z, first);
      assert z1.ops.Keys == z.ops.Keys - {conn};
      var rest := HandlersCanFinish(z1, pick);
      steps := first + rest;
      ExecuteConcat(z, first, rest);
    }
  }
}
