/** In what order a run makes its requests, and what a failure suppresses. */
module TraceOrder {
  import opened Ordering
  import opened Homeserver
  import opened Planning
  import opened Trace
  import opened Effects
  import opened LeaveSafety

  /** Room migrations, then global writes, then leaves. */
  function Phase(op: Op): nat {
    match op
    case SetGlobal(_, _, _) => 1
    case Leave(_, _) => 2
    case _ => 0
  }

  /** The place of a request in the migration of its room. */
  function Rank(op: Op): nat {
    match op
    case Invite(_, _, _) => 0
    case WaitForInvite(_, _) => 1
    case Join(_, _) => 2
    case ReadLevels(_, _, _) => 3
    case WriteLevels(_, _, _) => 4
    case _ => 5
  }

  /**
    Two requests of one room's migration: in rank order, account data in key order,
    and nothing after a failed invite, wait, join or read.
   */
  ghost predicate MayPrecedeInRoom(a: Step, b: Step) {
    && Rank(a.op) <= Rank(b.op)
    && (Rank(a.op) == Rank(b.op) ==> a.op.SetRoomData? && b.op.SetRoomData? && Below(a.op.key, b.op.key))
    && (Rank(a.op) <= 2 ==> a.outcome.Done?)
    && (a.op.ReadLevels? && b.op.WriteLevels? ==> a.outcome.Done?)
  }

  /** Whether a run may make the request of `a` before that of `b`. */
  ghost predicate MayPrecede(a: Step, b: Step) {
    && Phase(a.op) <= Phase(b.op)
    && (Phase(a.op) == Phase(b.op) == 0 ==>
          Below(a.op.room, b.op.room) || (a.op.room == b.op.room && MayPrecedeInRoom(a, b)))
    && (a.op.SetGlobal? && b.op.SetGlobal? ==> Below(a.op.key, b.op.key))
    && (a.op.Leave? && b.op.Leave? ==> Below(a.op.room, b.op.room))
    && (b.op.Leave? && (a.op.SetGlobal? || a.op.Concerns(b.op.room)) ==> a.outcome.Done?)
  }

  ghost predicate InOrder(t: seq<Step>) {
    forall i, j :: 0 <= i < j < |t| ==> MayPrecede(t[i], t[j])
  }

  lemma InOrderConcat(a: seq<Step>, b: seq<Step>)
    requires InOrder(a) && InOrder(b)
    requires forall x, y :: x in a && y in b ==> MayPrecede(x, y)
    ensures InOrder(a + b)
  {
    var t := a + b;
    forall i, j | 0 <= i < j < |t|
      ensures MayPrecede(t[i], t[j])
    {
      if i < |a| && j >= |a| {
        assert t[i] in a && t[j] in b;
      }
    }
  }

  lemma EntryInOrder(plan: Plan, r: RoomId, room: RoomPlan, t: seq<Step>)
    requires |t| <= |EntryOps(plan, r, room)| && Makes(t, EntryOps(plan, r, room)[..|t|])
    requires |t| > 0 ==> AllDone(t[..|t| - 1])
    ensures InOrder(t)
    ensures forall x :: x in t ==> x.op.Concerns(r) && Rank(x.op) <= 2
  {
    forall i | 0 <= i < |t|
      ensures t[i].op == EntryOps(plan, r, room)[i]
      ensures i < |t| - 1 ==> t[i].outcome.Done?
    {
      if i < |t| - 1 {
        assert t[..|t| - 1][i] == t[i];
      }
    }
  }

  lemma InsideInOrder(plan: Plan, r: RoomId, room: RoomPlan, t: seq<Step>)
    requires MigratesInside(plan, r, room, t)
    ensures InOrder(t)
    ensures forall x :: x in t ==> x.op.Concerns(r) && 3 <= Rank(x.op) && Phase(x.op) == 0
  {
    hide SetsPowerLevel, Makes, InOrder, MayPrecede, PowerSteps, RoomDataOps;
    var k := PowerSteps(room, t);
    var power, data := t[..k], t[k..];
    assert room.powerLevel.None? ==> power == [] by {
      NoPowerSteps(room, t);
    }
    DataInOrder(plan, r, room, data);
    if room.powerLevel.Some? {
      PowerInOrder(plan, r, room.powerLevel.value, power);
    } else {
      EmptyInOrder();
    }
    hide MigratesInside;
    assert t == power + data;
    forall x, y | x in power && y in data
      ensures MayPrecede(x, y)
    {
      PowerBeforeData(x, y);
    }
    InOrderConcat(power, data);
    forall x | x in t
      ensures x.op.Concerns(r) && 3 <= Rank(x.op) && Phase(x.op) == 0
    {
      assert x in power || x in data;
    }
  }

  lemma NoPowerSteps(room: RoomPlan, t: seq<Step>)
    ensures room.powerLevel.None? ==> PowerSteps(room, t) == 0
  {
  }

  lemma PowerBeforeData(x: Step, y: Step)
    requires (x.op.ReadLevels? || x.op.WriteLevels?) && y.op.SetRoomData? && x.op.room == y.op.room
    ensures MayPrecede(x, y)
  {
  }

  lemma DataInOrder(plan: Plan, r: RoomId, room: RoomPlan, t: seq<Step>)
    requires Makes(t, RoomDataOps(plan, r, room))
    ensures InOrder(t)
    ensures forall x :: x in t ==> x.op.SetRoomData? && x.op.room == r
  {
    var keys := SortedKeys(room.accountData.Keys);
    assert forall i :: 0 <= i < |t| ==> t[i].op == SetRoomData(r, plan.newUserId, keys[i], room.accountData[keys[i]]);
    hide MayPrecede, Below;
    forall i, j | 0 <= i < j < |t|
      ensures MayPrecede(t[i], t[j])
    {
      DataBeforeData(t[i], t[j]);
    }
  }

  lemma DataBeforeData(x: Step, y: Step)
    requires x.op.SetRoomData? && y.op.SetRoomData? && x.op.room == y.op.room && Below(x.op.key, y.op.key)
    ensures MayPrecede(x, y)
  {
  }

  lemma PowerInOrder(plan: Plan, r: RoomId, level: Int, t: seq<Step>)
    requires SetsPowerLevel(plan, r, level, t)
    ensures InOrder(t)
    ensures forall x :: x in t ==> (x.op.ReadLevels? || x.op.WriteLevels?) && x.op.room == r
  {
  }

  lemma MigrationInOrder(plan: Plan, r: RoomId, room: RoomPlan, t: seq<Step>)
    requires MigratesRoom(plan, r, room, t)
    ensures InOrder(t)
    ensures forall x :: x in t ==> x.op.Concerns(r) && Phase(x.op) == 0
  {
    hide EntryOps, MigratesInside;
    var entry := EntryOps(plan, r, room);
    var n := |entry|;
    if StopsEntering(entry, t) {
      EntryInOrder(plan, r, room, t);
    } else {
      var before, inside := t[..n], t[n..];
      assert t == before + inside && entry[..n] == entry;
      assert AllDone(before[..|before| - if n == 0 then 0 else 1]);
      EntryInOrder(plan, r, room, before);
      InsideInOrder(plan, r, room, inside);
      InOrderConcat(before, inside);
    }
  }

  /** The step is one of the migrations of a room of the plan. */
  ghost predicate OfMigrations(plan: Plan, ms: seq<seq<Step>>, x: Step)
    requires |ms| <= |RoomOrder(plan)|
  {
    Phase(x.op) == 0 && exists i :: 0 <= i < |ms| && x.op.room == RoomOrder(plan)[i] && x in ms[i]
  }

  lemma {:induction false} MigrationsInOrder(plan: Plan, ms: seq<seq<Step>>)
    requires MigratesRooms(plan, ms)
    ensures InOrder(Flatten(ms))
    ensures forall x :: x in Flatten(ms) ==> OfMigrations(plan, ms, x)
  {
    hide MigratesRoom, InOrder, MayPrecede, OfMigrations, Phase;
    if ms == [] {
      EmptyInOrder();
    } else {
      var n := |ms| - 1;
      var r := RoomOrder(plan)[n];
      var before, last := Flatten(ms[..n]), ms[n];
      MigrationsInOrder(plan, ms[..n]);
      MigrationInOrder(plan, r, plan.rooms[r], last);
      forall x | x in before || x in last
        ensures OfMigrations(plan, ms, x)
      {
        OfOneMore(plan, ms, x);
      }
      forall x, y | x in before && y in last
        ensures MayPrecede(x, y)
      {
        EarlierRoom(plan, ms, x, y);
      }
      InOrderConcat(before, last);
    }
  }

  lemma OfOneMore(plan: Plan, ms: seq<seq<Step>>, x: Step)
    requires 0 < |ms| <= |RoomOrder(plan)|
    requires var n := |ms| - 1;
             OfMigrations(plan, ms[..n], x) || (x in ms[n] && x.op.Concerns(RoomOrder(plan)[n]) && Phase(x.op) == 0)
    ensures OfMigrations(plan, ms, x)
  {
    var n := |ms| - 1;
    if OfMigrations(plan, ms[..n], x) {
      var i :| 0 <= i < n && x.op.room == RoomOrder(plan)[i] && x in ms[..n][i];
      assert x in ms[i];
    }
  }

  lemma EarlierRoom(plan: Plan, ms: seq<seq<Step>>, x: Step, y: Step)
    requires 0 < |ms| <= |RoomOrder(plan)|
    requires var n := |ms| - 1;
             OfMigrations(plan, ms[..n], x) && y.op.Concerns(RoomOrder(plan)[n]) && Phase(y.op) == 0
    ensures MayPrecede(x, y)
  {
    var n := |ms| - 1;
    var i :| 0 <= i < n && x.op.room == RoomOrder(plan)[i] && x in ms[..n][i];
    assert Below(RoomOrder(plan)[i], RoomOrder(plan)[n]);
  }

  lemma EmptyInOrder()
    ensures InOrder([])
  {
  }

  /**
    TRACE ORDER. In every run, whatever fails, each request may precede each
    later one: migrations room by room before global writes before leaves; in
    a room, invite, wait, join, power level, account data; nothing more of a
    room after a failure to enter it; no leave after a failed global write or
    a failure of its room.
   */
  lemma RunsAreInOrder(plan: Plan, run: Run)
    requires RunOf(plan, run)
    ensures InOrder(run.Trace())
  {
    var ms, order := run.migrations, RoomOrder(plan);
    MigrationsInOrder(plan, ms);
    GlobalsInOrder(plan, run);
    LeavesInOrder(plan, run);
    hide RunOf, InOrder, Phase;
    var before := Flatten(ms) + run.globals;
    forall x, y | x in Flatten(ms) && y in run.globals
      ensures MayPrecede(x, y)
    {
    }
    InOrderConcat(Flatten(ms), run.globals);
    forall x, y | x in before && y in run.leaves
      ensures MayPrecede(x, y)
    {
      if x in Flatten(ms) {
        MigrationBeforeLeave(plan, run, x, y);
      } else {
        GlobalBeforeLeave(plan, run, x, y);
      }
    }
    InOrderConcat(before, run.leaves);
  }

  lemma GlobalsInOrder(plan: Plan, run: Run)
    requires RunOf(plan, run)
    ensures InOrder(run.globals)
    ensures forall x: Step, y: Step :: Phase(x.op) == 0 && y in run.globals ==> MayPrecede(x, y)
  {
    GlobalsAreGlobal(plan, run);
    GlobalKeys(plan, run);
    hide RunOf, MayPrecede;
    forall i, j | 0 <= i < j < |run.globals|
      ensures MayPrecede(run.globals[i], run.globals[j])
    {
      BeforeGlobal(run.globals[i], run.globals[j]);
    }
    forall x: Step, y: Step | Phase(x.op) == 0 && y in run.globals
      ensures MayPrecede(x, y)
    {
      BeforeGlobal(x, y);
    }
  }

  lemma GlobalKeys(plan: Plan, run: Run)
    requires RunOf(plan, run)
    ensures forall i, j :: 0 <= i < j < |run.globals| && run.globals[i].op.SetGlobal? && run.globals[j].op.SetGlobal? ==>
              Below(run.globals[i].op.key, run.globals[j].op.key)
  {
    hide MigratesRooms, LeaveOps;
    var keys := SortedKeys(plan.globalAccountData.Keys);
    assert forall i :: 0 <= i < |run.globals| ==> run.globals[i].op.key == keys[i];
  }

  lemma BeforeGlobal(x: Step, y: Step)
    requires Phase(x.op) <= 1 && y.op.SetGlobal? && (x.op.SetGlobal? ==> Below(x.op.key, y.op.key))
    ensures MayPrecede(x, y)
  {
  }

  lemma GlobalBeforeLeave(plan: Plan, run: Run, x: Step, y: Step)
    requires RunOf(plan, run) && x in run.globals && y in run.leaves
    ensures MayPrecede(x, y)
  {
    hide RunOf, AllDone;
    GlobalsAreGlobal(plan, run);
    LeavesAreLeaves(plan, run);
    var k :| 0 <= k < |run.leaves| && run.leaves[k] == y;
    DoneIn(run.globals, x);
  }

  lemma LeavesInOrder(plan: Plan, run: Run)
    requires RunOf(plan, run)
    ensures InOrder(run.leaves)
  {
    hide RunOf;
    LeavesAreLeaves(plan, run);
  }

  lemma MigrationBeforeLeave(plan: Plan, run: Run, x: Step, y: Step)
    requires RunOf(plan, run) && x in Flatten(run.migrations) && y in run.leaves
    ensures MayPrecede(x, y)
  {
    RunMigrates(plan, run);
    hide RunOf, InOrder, MigratesRooms, AllDone, MayPrecede, SortedKeys;
    var ms, order := run.migrations, RoomOrder(plan);
    MigrationsInOrder(plan, ms);
    AscendingDistinct(order);
    var k :| 0 <= k < |run.leaves| && run.leaves[k] == y;
    var i := LeaveIndex(plan, run, k);
    var j :| 0 <= j < |ms| && x.op.room == order[j] && x in ms[j];
    assert y.op == Leave(order[i], plan.oldUserId) && AllDone(ms[i]);
    if j == i {
      DoneIn(ms[i], x);
    }
    hide LeavesRoom;
    StepBeforeLeave(x, y);
  }

  lemma StepBeforeLeave(x: Step, y: Step)
    requires Phase(x.op) == 0 && y.op.Leave? && (x.op.room == y.op.room ==> x.outcome.Done?)
    ensures MayPrecede(x, y)
  {
  }

  lemma RunMigrates(plan: Plan, run: Run)
    requires RunOf(plan, run)
    ensures MigratesRooms(plan, run.migrations)
  {
  }

  lemma DoneIn(t: seq<Step>, x: Step)
    requires AllDone(t) && x in t
    ensures x.outcome.Done?
  {
  }

  // A leave comes after everything that was planned for its room

  ghost predicate Succeeded(t: seq<Step>, op: Op) {
    Step(op, Done) in t
  }

  lemma MadeAndDone(t: seq<Step>, ops: seq<Op>, op: Op)
    requires Makes(t, ops) && AllDone(t) && op in ops
    ensures Succeeded(t, op)
  {
    var i :| 0 <= i < |ops| && ops[i] == op;
    assert t[i] == Step(op, Done);
  }

  lemma {:induction false} SucceededInFlatten(ms: seq<seq<Step>>, i: nat, op: Op)
    requires i < |ms| && Succeeded(ms[i], op)
    ensures Succeeded(Flatten(ms), op)
    decreases |ms|
  {
    if i < |ms| - 1 {
      SucceededInFlatten(ms[..|ms| - 1], i, op);
    }
  }

  /**
    A request to leave `r` is made only once every request planned for `r` and
    every global write has been made, and has succeeded.
   */
  lemma LeaveFollowsWholeMigration(plan: Plan, run: Run, j: nat, op: Op)
    requires RunOf(plan, run) && j < |run.leaves|
    ensures run.leaves[j].op.Leave? && run.leaves[j].op.room in plan.rooms
    ensures var r := run.leaves[j].op.room;
            var room := plan.rooms[r];
            && (op in EntryOps(plan, r, room) + RoomDataOps(plan, r, room) ==> Succeeded(Flatten(run.migrations), op))
            && (room.powerLevel.Some? ==> exists seen ::
                  Succeeded(Flatten(run.migrations),
                            WriteLevels(r, plan.oldUserId, WithLevel(seen, plan.newUserId, room.powerLevel.value))))
            && (op in GlobalOps(SortedKeys(plan.globalAccountData.Keys), plan.newUserId, plan.globalAccountData) ==>
                  Succeeded(run.globals, op))
  {
    LeavesAreLeaves(plan, run);
    var i := LeaveIndex(plan, run, j);
    var r := RoomOrder(plan)[i];
    assert r in RoomOrder(plan);
    var room, t := plan.rooms[r], run.migrations[i];
    assert MigratesRoom(plan, r, room, t);
    if op in GlobalOps(SortedKeys(plan.globalAccountData.Keys), plan.newUserId, plan.globalAccountData) {
      MadeAndDone(run.globals, GlobalOps(SortedKeys(plan.globalAccountData.Keys), plan.newUserId, plan.globalAccountData), op);
    }
    hide RunOf, MigratesRoom, EntryOps, RoomDataOps, GlobalOps, AllDone, Makes;
    MigrationSucceeded(plan, r, room, t, op);
    if op in EntryOps(plan, r, room) + RoomDataOps(plan, r, room) {
      SucceededInFlatten(run.migrations, i, op);
    }
    if room.powerLevel.Some? {
      var seen :| Succeeded(t, WriteLevels(r, plan.oldUserId, WithLevel(seen, plan.newUserId, room.powerLevel.value)));
      SucceededInFlatten(run.migrations, i, WriteLevels(r, plan.oldUserId, WithLevel(seen, plan.newUserId, room.powerLevel.value)));
    }
  }

  lemma MigrationSucceeded(plan: Plan, r: RoomId, room: RoomPlan, t: seq<Step>, op: Op)
    requires MigratesRoom(plan, r, room, t) && AllDone(t)
    ensures op in EntryOps(plan, r, room) + RoomDataOps(plan, r, room) ==> Succeeded(t, op)
    ensures room.powerLevel.Some? ==> exists seen ::
              Succeeded(t, WriteLevels(r, plan.oldUserId, WithLevel(seen, plan.newUserId, room.powerLevel.value)))
  {
    var entry, power, data := PartsOfMigration(plan, r, room, t);
    hide MigratesRoom, EntryOps, RoomDataOps, AllDone, Makes;
    if op in EntryOps(plan, r, room) {
      MadeAndDone(entry, EntryOps(plan, r, room), op);
    }
    if op in RoomDataOps(plan, r, room) {
      MadeAndDone(data, RoomDataOps(plan, r, room), op);
    }
    if room.powerLevel.Some? {
      WriteSucceeded(plan, r, room.powerLevel.value, power);
    }
  }

  lemma WriteSucceeded(plan: Plan, r: RoomId, level: Int, t: seq<Step>)
    requires SetsPowerLevel(plan, r, level, t) && AllDone(t)
    ensures exists seen :: Succeeded(t, WriteLevels(r, plan.oldUserId, WithLevel(seen, plan.newUserId, level)))
  {
    assert t[1] == Step(WriteLevels(r, plan.oldUserId, WithLevel(t[0].op.seen, plan.newUserId, level)), Done);
    assert Succeeded(t, t[1].op);
  }

  // Executions that do not end

  /**
    An execution whose wait for an invite never returns has made the first
    requests of a run, in order. If it asked to leave a room at all, it had
    made all migrations and global writes before, and nothing of that room or
    of the account had failed.
   */
  lemma PrefixesAreInOrder(plan: Plan, run: Run, k: nat, i: nat)
    requires RunOf(plan, run) && i < k <= |run.Trace()|
    ensures InOrder(run.Trace()[..k])
    ensures run.Trace()[i].op.Leave? ==>
              LeavesLast(run.Trace()[..i], Flatten(run.migrations) + run.globals, run.globals, run.Trace()[i].op.room)
  {
    hide RunOf, InOrder, AllDone, Flatten;
    RunsAreInOrder(plan, run);
    NoEarlyLeave(plan, run);
    PrefixInOrder(run.Trace(), k);
    if run.Trace()[i].op.Leave? {
      LastPart(Flatten(run.migrations) + run.globals, run.leaves, i);
      DoneBeforeLeave(run.Trace(), i);
    }
  }

  /** `before` contains all that was to be `moved`, and no failure of the room or the account. */
  ghost predicate LeavesLast(before: seq<Step>, moved: seq<Step>, globals: seq<Step>, r: RoomId) {
    && moved <= before && AllDone(globals)
    && forall x :: x in before && x.op.Concerns(r) ==> x.outcome.Done?
  }

  lemma PrefixInOrder(t: seq<Step>, k: nat)
    requires InOrder(t) && k <= |t|
    ensures InOrder(t[..k])
  {
    hide MayPrecede;
  }

  lemma DoneBeforeLeave(t: seq<Step>, i: nat)
    requires InOrder(t) && i < |t| && t[i].op.Leave?
    ensures forall x :: x in t[..i] && x.op.Concerns(t[i].op.room) ==> x.outcome.Done?
  {
    forall x | x in t[..i] && x.op.Concerns(t[i].op.room)
      ensures x.outcome.Done?
    {
      var j :| 0 <= j < i && t[j] == x;
      assert MayPrecede(t[j], t[i]);
    }
  }

  lemma LastPart(moved: seq<Step>, leaves: seq<Step>, i: nat)
    requires i < |moved + leaves| && (moved + leaves)[i].op.Leave?
    requires forall x :: x in moved ==> !x.op.Leave?
    ensures moved <= (moved + leaves)[..i] && leaves != []
  {
    assert forall j :: 0 <= j < |moved| ==> moved[j] in moved && (moved + leaves)[j] == moved[j];
  }

  lemma NoEarlyLeave(plan: Plan, run: Run)
    requires RunOf(plan, run)
    ensures forall x :: x in Flatten(run.migrations) + run.globals ==> !x.op.Leave?
    ensures run.leaves != [] ==> AllDone(run.globals)
  {
    RunMigrates(plan, run);
    GlobalsAreGlobal(plan, run);
    GlobalsDoneIfLeaves(plan, run);
    hide RunOf, InOrder, AllDone, MigratesRooms, Flatten, RoomOrder;
    MigrationsInOrder(plan, run.migrations);
    forall x | x in Flatten(run.migrations)
      ensures !x.op.Leave?
    {
      assert OfMigrations(plan, run.migrations, x);
    }
  }

  lemma GlobalsDoneIfLeaves(plan: Plan, run: Run)
    requires RunOf(plan, run)
    ensures run.leaves != [] ==> AllDone(run.globals)
  {
    hide MigratesRooms, LeaveOps, GlobalOps, AllDone;
  }
}
