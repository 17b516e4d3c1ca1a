/**
  The executor (src/execute.rs), against a server that answers each request as
  it likes. Every execution is a run of the plan in the sense of `Trace`, and
  its counters account for exactly the requests that failed.
 */
module Executor {
  import opened Wrappers
  import opened Ordering
  import opened Homeserver
  import opened Planning
  import opened Trace

  datatype ExecuteError = ExecuteError(errorCount: nat)

  class ExecuteContext {
    const plan: Plan
    /** The outcome of each request, by its number. */
    const outcomes: nat -> Outcome
    /** Whether a read of power levels, by its number, gets to see the create event. */
    const seesCreators: nat -> bool
    /** The server. */
    var world: World
    var requests: nat
    /** How many failures have been recorded. */
    var errorCount: nat
    /** Some failure was of no room in particular. */
    var globalErrors: bool
    /** The rooms with a recorded failure, which must not be left. */
    var failedRooms: set<RoomId>
    ghost var start: World
    ghost var trace: seq<Step>

    ghost predicate Valid()
      reads this
    {
      requests == |trace| && world == Replay(start, trace) && Undisturbed(start, trace)
    }

    /** The counters reflect the failures of `t`. */
    ghost predicate Accounted(t: seq<Step>)
      reads this
    {
      errorCount == FailureCount(t) && failedRooms == FailedRooms(t) && (globalErrors <==> GlobalFailure(t))
    }

    constructor (plan: Plan, world: World, outcomes: nat -> Outcome, seesCreators: nat -> bool)
      ensures Valid() && Accounted([]) && trace == [] && start == world
      ensures this.plan == plan && this.outcomes == outcomes && this.seesCreators == seesCreators
    {
      this.plan := plan;
      this.outcomes := outcomes;
      this.seesCreators := seesCreators;
      this.world := world;
      requests, errorCount, globalErrors, failedRooms := 0, 0, false, {};
      start, trace := world, [];
    }

    method Request(op: Op) returns (ok: bool, ghost step: Step)
      requires Valid()
      requires op.ReadLevels? ==> world.RoomOf(op.room).MayReadAs(op.seen)
      modifies this`world, this`requests, this`trace
      ensures Valid()
      ensures step == Step(op, outcomes(old(requests))) && trace == old(trace) + [step]
      ensures ok <==> step.outcome.Done?
    {
      var outcome := outcomes(requests);
      step := Step(op, outcome);
      ReplayConcat(start, trace, [step]);
      UndisturbedConcat(start, trace, [step]);
      assert Replay(world, [step]) == step.Effect(world) by {
        assert [step][..0] == [];
      }
      if outcome.Done? || outcome.applied {
        world := op.Apply(world);
      }
      requests := requests + 1;
      trace := trace + [step];
      ok := outcome.Done?;
    }

    /** Records an error, of a room or a global one. */
    method Error(room: Option<RoomId>)
      modifies this`errorCount, this`globalErrors, this`failedRooms
      ensures errorCount == old(errorCount) + 1
      ensures room.Some? ==> failedRooms == old(failedRooms) + {room.value} && globalErrors == old(globalErrors)
      ensures room.None? ==> failedRooms == old(failedRooms) && globalErrors
    {
      errorCount := errorCount + 1;
      if room.Some? {
        failedRooms := failedRooms + {room.value};
      } else {
        globalErrors := true;
      }
    }

    /** Makes a request and records its failure. */
    method RequestAndReport(op: Op, room: Option<RoomId>) returns (ghost step: Step)
      requires Valid() && Accounted(trace) && !op.ReadLevels?
      requires room == if op.SetGlobal? then None else Some(op.room)
      modifies this
      ensures Valid() && Accounted(trace) && start == old(start)
      ensures step.op == op && trace == old(trace) + [step]
    {
      var ok;
      ok, step := Request(op);
      AccountStep(old(trace), step);
      if !ok {
        Error(room);
      }
    }

    method Execute() returns (result: Result<(), ExecuteError>, ghost run: Run)
      requires Valid() && trace == [] && Accounted([])
      modifies this
      ensures RunOf(plan, run) && trace == run.Trace()
      ensures Valid() && start == old(start)
      ensures Accounted(trace)
      ensures result == if FailureCount(trace) == 0 then Success(()) else Failure(ExecuteError(FailureCount(trace)))
    {
      hide Replay, Undisturbed, FailureCount, FailedRooms, GlobalFailure;
      ghost var migrations := MigrateRooms();
      ghost var globals := MigrateGlobalData();
      FailuresBeforeLeaving(plan, migrations, globals);
      var leaveCount := |set r | r in plan.rooms && plan.rooms[r].leave|;
      ghost var leaves: seq<Step> := [];
      if leaveCount > 0 {
        if !globalErrors {
          leaves := LeaveRooms(migrations, globals);
        }
      } else {
        NothingToLeave(plan, migrations, |migrations|);
      }
      run := Run(migrations, globals, leaves);
      assert trace == run.Trace();
      result := if errorCount > 0 then Failure(ExecuteError(errorCount)) else Success(());
    }

    method MigrateRooms() returns (ghost migrations: seq<seq<Step>>)
      requires Valid() && trace == [] && Accounted([])
      modifies this
      ensures Valid() && Accounted(trace) && start == old(start)
      ensures |migrations| == |RoomOrder(plan)| && Trace.MigratesRooms(plan, migrations)
      ensures trace == Flatten(migrations)
    {
      hide Replay, Undisturbed, FailureCount, FailedRooms, GlobalFailure, MigratesRoom;
      var roomIds := RoomOrder(plan);
      migrations := [];
      for i := 0 to |roomIds|
        invariant Valid() && Accounted(trace) && start == old(start)
        invariant |migrations| == i && Trace.MigratesRooms(plan, migrations)
        invariant trace == Flatten(migrations)
      {
        ghost var t := MigrateRoom(roomIds[i], plan.rooms[roomIds[i]]);
        assert (migrations + [t])[..i] == migrations;
        migrations := migrations + [t];
      }
    }

    method MigrateGlobalData() returns (ghost globals: seq<Step>)
      requires Valid() && Accounted(trace)
      modifies this
      ensures Valid() && Accounted(trace) && start == old(start)
      ensures trace == old(trace) + globals
      ensures Makes(globals, GlobalOps(SortedKeys(plan.globalAccountData.Keys), plan.newUserId, plan.globalAccountData))
    {
      hide Replay, Undisturbed, FailureCount, FailedRooms, GlobalFailure;
      globals := [];
      var kinds := SortedKeys(plan.globalAccountData.Keys);
      for i := 0 to |kinds|
        invariant Valid() && Accounted(trace) && start == old(start)
        invariant trace == old(trace) + globals
        invariant Makes(globals, GlobalOps(kinds[..i], plan.newUserId, plan.globalAccountData))
      {
        ghost var step := MigrateGlobalAccountData(kinds[i], plan.globalAccountData[kinds[i]]);
        globals := globals + [step];
      }
      assert kinds[..|kinds|] == kinds;
    }

    method LeaveRooms(ghost migrations: seq<seq<Step>>, ghost globals: seq<Step>) returns (ghost leaves: seq<Step>)
      requires Valid() && Accounted(trace) && trace == Flatten(migrations) + globals
      requires |migrations| == |RoomOrder(plan)|
      requires forall i :: 0 <= i < |migrations| ==>
                 (RoomOrder(plan)[i] in FailedRooms(trace) <==> !AllDone(migrations[i]))
      modifies this
      ensures Valid() && Accounted(trace) && start == old(start)
      ensures trace == old(trace) + leaves
      ensures Makes(leaves, LeaveOps(plan, migrations, |migrations|))
    {
      hide Replay, Undisturbed, FailureCount, FailedRooms, GlobalFailure, LeaveOps, Makes, AllDone;
      leaves := [];
      NoLeavesYet(plan, migrations);
      var roomIds := RoomOrder(plan);
      AscendingDistinct(roomIds);
      for i := 0 to |roomIds|
        invariant Valid() && Accounted(trace) && start == old(start)
        invariant trace == old(trace) + leaves
        invariant Makes(leaves, LeaveOps(plan, migrations, i))
        invariant forall r :: r in FailedRooms(leaves) ==> r in roomIds[..i]
      {
        FailedRoomsConcat(old(trace), leaves);
        ghost var t := LeaveRoom(roomIds[i], plan.rooms[roomIds[i]]);
        LeaveStep(plan, migrations, roomIds, i, leaves, t);
        leaves := leaves + t;
      }
    }

    method MigrateRoom(r: RoomId, room: RoomPlan) returns (ghost t: seq<Step>)
      requires Valid() && Accounted(trace)
      modifies this
      ensures Valid() && Accounted(trace) && start == old(start)
      ensures trace == old(trace) + t && MigratesRoom(plan, r, room, t)
    {
      hide Replay, Undisturbed, MigratesRoom, WritesAll;
      var ok;
      ok, t := MigrateRoomInner(r, room);
      if !ok {
        ghost var n := |trace| - 1;
        AccountStep(trace[..n], trace[n]);
        assert trace == trace[..n] + [trace[n]];
        Error(Some(r));
      }
    }

    /** Stops with the failure of an invite, wait or join still to be recorded. */
    method MigrateRoomInner(r: RoomId, room: RoomPlan) returns (ok: bool, ghost t: seq<Step>)
      requires Valid() && Accounted(trace)
      modifies this
      ensures Valid() && start == old(start)
      ensures trace == old(trace) + t && MigratesRoom(plan, r, room, t)
      ensures ok ==> Accounted(trace) && WritesAll(plan, r, room.accountData, t)
      ensures !ok ==> FailedLast(r)
    {
      hide Replay, Undisturbed, FailureCount, FailedRooms, GlobalFailure;
      hide MigratesRoom, EntryOps, RoomDataOps, StopsEntering, SetsPowerLevel, Makes, WritesAll;
      ghost var entry;
      ok, entry := EnterRoom(r, room);
      if !ok {
        StoppedMigration(plan, r, room, entry);
        return false, entry;
      }
      ghost var power: seq<Step> := [];
      if room.powerLevel.Some? {
        ghost var before := trace;
        ok, power := SetPowerLevel(r, room.powerLevel.value);
        AccountPower(before, plan, r, room.powerLevel.value, power);
        if !ok {
          Error(Some(r));
        }
      }
      ghost var data := SetRoomAccountData(r, room);
      t := entry + power + data;
      EnteredMigration(plan, r, room, entry, power, data);
      DataWritesAll(plan, r, room, entry + power, data);
      assert old(trace) + t == old(trace) + entry + power + data;
      ok := true;
    }

    /** The last request, about room `r`, failed, and all failures before it are recorded. */
    ghost predicate FailedLast(r: RoomId)
      reads this
    {
      var n := |trace| - 1;
      n >= 0 && !trace[n].outcome.Done? && trace[n].op.Concerns(r) && Accounted(trace[..n])
    }

    /** Invites the new user and joins the room, as far as planned. */
    method EnterRoom(r: RoomId, room: RoomPlan) returns (ok: bool, ghost t: seq<Step>)
      requires Valid() && Accounted(trace)
      modifies this`world, this`requests, this`trace
      ensures Valid()
      ensures trace == old(trace) + t
      ensures ok ==> Accounted(trace) && Makes(t, EntryOps(plan, r, room)) && AllDone(t)
      ensures !ok ==> FailedLast(r) && StopsEntering(EntryOps(plan, r, room), t)
    {
      hide Replay, Undisturbed, FailureCount, FailedRooms, GlobalFailure;
      t := [];
      if room.invite {
        ok, t := RequestNext(Invite(r, plan.oldUserId, plan.newUserId), t);
        if !ok {
          return;
        }
        ok, t := RequestNext(WaitForInvite(r, plan.newUserId), t);
        if !ok {
          return;
        }
      }
      if room.join {
        ok, t := RequestNext(Join(r, plan.newUserId), t);
        if !ok {
          return;
        }
      }
      ok := true;
    }

    /** Makes a request after `done`; a failure is left for the caller to record. */
    method RequestNext(op: Op, ghost done: seq<Step>) returns (ok: bool, ghost t: seq<Step>)
      requires Valid() && Accounted(trace) && AllDone(done) && !op.ReadLevels? && !op.SetGlobal?
      modifies this`world, this`requests, this`trace
      ensures Valid()
      ensures |t| == |done| + 1 && t[..|done|] == done && t[|done|].op == op && trace == old(trace) + [t[|done|]]
      ensures ok ==> Accounted(trace) && AllDone(t)
      ensures !ok ==> FailedLast(op.room) && !t[|done|].outcome.Done?
    {
      ghost var step;
      ok, step := Request(op);
      t := done + [step];
      AccountStep(old(trace), step);
      assert trace[..|trace| - 1] == old(trace);
    }

    method SetRoomAccountData(r: RoomId, room: RoomPlan) returns (ghost data: seq<Step>)
      requires Valid() && Accounted(trace)
      modifies this
      ensures Valid() && Accounted(trace) && start == old(start)
      ensures trace == old(trace) + data
      ensures Makes(data, RoomDataOps(plan, r, room))
    {
      hide Replay, Undisturbed, FailureCount, FailedRooms, GlobalFailure;
      data := [];
      var kinds := SortedKeys(room.accountData.Keys);
      for i := 0 to |kinds|
        invariant Valid() && Accounted(trace) && start == old(start)
        invariant trace == old(trace) + data
        invariant Makes(data, DataOps(kinds[..i], plan.newUserId, r, room.accountData))
      {
        ghost var step := RequestAndReport(SetRoomData(r, plan.newUserId, kinds[i], room.accountData[kinds[i]]), Some(r));
        data := data + [step];
      }
      assert kinds[..|kinds|] == kinds;
    }

    /** Writes the levels just read, with the new user's entry. */
    method SetPowerLevel(r: RoomId, level: Int) returns (ok: bool, ghost t: seq<Step>)
      requires Valid()
      modifies this`world, this`requests, this`trace
      ensures Valid()
      ensures trace == old(trace) + t && SetsPowerLevel(plan, r, level, t)
      ensures ok <==> AllDone(t)
    {
      var state := world.RoomOf(r);
      var seen := state.LevelsRead(if seesCreators(requests) then state.NamedCreators() else {});
      ghost var read, write;
      ok, read := Request(ReadLevels(r, plan.oldUserId, seen));
      t := [read];
      if ok {
        ok, write := Request(WriteLevels(r, plan.oldUserId, WithLevel(seen, plan.newUserId, level)));
        t := [read, write];
      }
    }

    method MigrateGlobalAccountData(kind: string, content: Content) returns (ghost step: Step)
      requires Valid() && Accounted(trace)
      modifies this
      ensures Valid() && Accounted(trace) && start == old(start)
      ensures step.op == SetGlobal(plan.newUserId, kind, content) && trace == old(trace) + [step]
    {
      step := RequestAndReport(SetGlobal(plan.newUserId, kind, content), None);
    }

    method LeaveRoom(r: RoomId, room: RoomPlan) returns (ghost t: seq<Step>)
      requires Valid() && Accounted(trace)
      modifies this
      ensures Valid() && Accounted(trace) && start == old(start)
      ensures trace == old(trace) + t
      ensures Makes(t, if room.leave && r !in FailedRooms(old(trace)) then [Leave(r, plan.oldUserId)] else [])
    {
      t := [];
      if !room.leave {
        return;
      }
      if r in failedRooms {
        return;
      }
      ghost var step := RequestAndReport(Leave(r, plan.oldUserId), Some(r));
      t := [step];
    }

    lemma AccountStep(t: seq<Step>, step: Step)
      ensures FailureCount(t + [step]) == FailureCount(t) + if step.outcome.Done? then 0 else 1
      ensures FailedRooms(t + [step]) == FailedRooms(t) + if step.outcome.Done? || step.op.SetGlobal? then {} else {step.op.room}
      ensures GlobalFailure(t + [step]) <==> GlobalFailure(t) || (!step.outcome.Done? && step.op.SetGlobal?)
    {
      var s := [step];
      FailureCountConcat(t, s);
      assert s[..0] == [];
      FailedRoomsConcat(t, s);
      assert s[0] == step;
    }
  }

  /** Every entry of `data` is asked to be written for the new user. */
  ghost predicate WritesAll(plan: Plan, r: RoomId, data: AccountData, t: seq<Step>) {
    forall k :: k in data ==> exists i :: 0 <= i < |t| && t[i].op == SetRoomData(r, plan.newUserId, k, data[k])
  }

  lemma DataWritesAll(plan: Plan, r: RoomId, room: RoomPlan, before: seq<Step>, data: seq<Step>)
    requires Makes(data, RoomDataOps(plan, r, room))
    ensures WritesAll(plan, r, room.accountData, before + data)
  {
    var keys := SortedKeys(room.accountData.Keys);
    forall k | k in room.accountData
      ensures exists i :: 0 <= i < |before + data| && (before + data)[i].op == SetRoomData(r, plan.newUserId, k, room.accountData[k])
    {
      var i :| 0 <= i < |keys| && keys[i] == k;
      assert data[i].op == SetRoomData(r, plan.newUserId, keys[i], room.accountData[keys[i]]);
      assert (before + data)[|before| + i] == data[i];
    }
  }

  lemma AccountPower(before: seq<Step>, plan: Plan, r: RoomId, level: Int, t: seq<Step>)
    requires SetsPowerLevel(plan, r, level, t)
    ensures FailureCount(before + t) == FailureCount(before) + if AllDone(t) then 0 else 1
    ensures FailedRooms(before + t) == FailedRooms(before) + if AllDone(t) then {} else {r}
    ensures GlobalFailure(before + t) <==> GlobalFailure(before)
  {
    FailureCountConcat(before, t);
    FailedRoomsConcat(before, t);
    assert t[..1][..0] == [];
    if |t| == 2 {
      assert FailureCount(t[..1]) == 0;
      assert AllDone(t) <==> t[1].outcome.Done?;
      assert !t[1].outcome.Done? ==> t[1].op.room in FailedRooms(t);
    } else {
      assert t[..1] == t;
      assert !AllDone(t) && t[0].op.room in FailedRooms(t);
    }
  }

  lemma StoppedMigration(plan: Plan, r: RoomId, room: RoomPlan, t: seq<Step>)
    requires StopsEntering(EntryOps(plan, r, room), t)
    ensures MigratesRoom(plan, r, room, t)
  {
  }

  /** The parts of a migration that entered its room make up a migration. */
  lemma EnteredMigration(plan: Plan, r: RoomId, room: RoomPlan, entry: seq<Step>, power: seq<Step>, data: seq<Step>)
    requires Makes(entry, EntryOps(plan, r, room)) && AllDone(entry)
    requires if room.powerLevel.Some? then SetsPowerLevel(plan, r, room.powerLevel.value, power) else power == []
    requires Makes(data, RoomDataOps(plan, r, room))
    ensures MigratesRoom(plan, r, room, entry + power + data)
  {
    var t := entry + power + data;
    var n := |EntryOps(plan, r, room)|;
    assert t[..n] == entry && t[n..] == power + data;
    assert (power + data)[..|power|] == power && (power + data)[|power|..] == data;
    assert PowerSteps(room, power + data) == |power|;
  }

  ghost predicate AllConcern(t: seq<Step>, r: RoomId) {
    forall i :: 0 <= i < |t| ==> t[i].op.Concerns(r)
  }

  lemma ConcernConcat(a: seq<Step>, b: seq<Step>, r: RoomId)
    ensures AllConcern(a + b, r) <==> AllConcern(a, r) && AllConcern(b, r)
  {
    if AllConcern(a + b, r) {
      assert forall i :: 0 <= i < |a| ==> a[i] == (a + b)[i];
      assert forall i :: 0 <= i < |b| ==> b[i] == (a + b)[|a| + i];
    }
  }

  lemma EntryConcerns(plan: Plan, r: RoomId, room: RoomPlan, t: seq<Step>)
    requires |t| <= |EntryOps(plan, r, room)| && Makes(t, EntryOps(plan, r, room)[..|t|])
    ensures AllConcern(t, r)
  {
  }

  lemma PowerConcerns(plan: Plan, r: RoomId, level: Int, t: seq<Step>)
    requires SetsPowerLevel(plan, r, level, t)
    ensures AllConcern(t, r)
  {
  }

  lemma DataConcerns(plan: Plan, r: RoomId, room: RoomPlan, t: seq<Step>)
    requires Makes(t, RoomDataOps(plan, r, room))
    ensures AllConcern(t, r)
  {
  }

  lemma InsideConcerns(plan: Plan, r: RoomId, room: RoomPlan, t: seq<Step>)
    requires MigratesInside(plan, r, room, t)
    ensures AllConcern(t, r)
  {
    hide SetsPowerLevel, Makes, RoomDataOps, AllConcern;
    var k := PowerSteps(room, t);
    DataConcerns(plan, r, room, t[k..]);
    if room.powerLevel.Some? {
      PowerConcerns(plan, r, room.powerLevel.value, t[..k]);
    } else {
      NothingConcerns(r);
    }
    ConcernConcat(t[..k], t[k..], r);
    assert t == t[..k] + t[k..];
  }

  lemma NothingConcerns(r: RoomId)
    ensures AllConcern([], r)
  {
  }

  lemma MigrationConcernsRoom(plan: Plan, r: RoomId, room: RoomPlan, t: seq<Step>)
    requires MigratesRoom(plan, r, room, t)
    ensures forall i :: 0 <= i < |t| ==> t[i].op.Concerns(r)
  {
    hide EntryOps, Makes, MigratesInside, AllDone;
    var entry := EntryOps(plan, r, room);
    if StopsEntering(entry, t) {
      EntryConcerns(plan, r, room, t);
    } else {
      var n := |entry|;
      assert entry[..n] == entry && t == t[..n] + t[n..];
      EntryConcerns(plan, r, room, t[..n]);
      InsideConcerns(plan, r, room, t[n..]);
      ConcernConcat(t[..n], t[n..], r);
    }
  }

  lemma FailuresOfOneRoom(r: RoomId, t: seq<Step>)
    requires forall i :: 0 <= i < |t| ==> t[i].op.Concerns(r)
    ensures FailedRooms(t) == if AllDone(t) then {} else {r}
    ensures !GlobalFailure(t)
  {
    if !AllDone(t) {
      var i :| 0 <= i < |t| && !t[i].outcome.Done?;
      assert t[i].op.room in FailedRooms(t);
    }
  }

  /** The rooms that failed are exactly those of `order` whose own migration had a failure. */
  ghost predicate FailedExactly(order: seq<RoomId>, migrations: seq<seq<Step>>, failed: set<RoomId>)
    requires |migrations| <= |order|
  {
    && (forall r :: r in failed ==> r in order[..|migrations|])
    && (forall i :: 0 <= i < |migrations| ==> (order[i] in failed <==> !AllDone(migrations[i])))
  }

  lemma FailedExactlyStep(order: seq<RoomId>, migrations: seq<seq<Step>>, t: seq<Step>, failed: set<RoomId>)
    requires |migrations| < |order| && Ascending(order)
    requires FailedExactly(order, migrations, failed)
    ensures FailedExactly(order, migrations + [t], failed + if AllDone(t) then {} else {order[|migrations|]})
  {
    hide AllDone;
    var n := |migrations|;
    AscendingDistinct(order);
    assert order[..n + 1] == order[..n] + [order[n]];
    assert order[n] !in order[..n];
  }

  lemma {:induction false} FailedMigrations(plan: Plan, migrations: seq<seq<Step>>)
    requires MigratesRooms(plan, migrations)
    ensures !GlobalFailure(Flatten(migrations))
    ensures FailedExactly(RoomOrder(plan), migrations, FailedRooms(Flatten(migrations)))
  {
    hide MigratesRoom, FailedExactly, AllDone, FailedRooms, GlobalFailure;
    if migrations == [] {
      NothingFailed(RoomOrder(plan));
    } else {
      var n := |migrations| - 1;
      var r := RoomOrder(plan)[n];
      var t := migrations[n];
      FailedMigrations(plan, migrations[..n]);
      FailedRoomsConcat(Flatten(migrations[..n]), t);
      MigrationConcernsRoom(plan, r, plan.rooms[r], t);
      FailuresOfOneRoom(r, t);
      FailedExactlyStep(RoomOrder(plan), migrations[..n], t, FailedRooms(Flatten(migrations[..n])));
      assert migrations[..n] + [t] == migrations;
    }
  }

  lemma NothingFailed(order: seq<RoomId>)
    ensures !GlobalFailure([]) && FailedRooms([]) == {} && FailedExactly(order, [], {})
  {
  }

  lemma NoLeavesYet(plan: Plan, migrations: seq<seq<Step>>)
    ensures Makes([], LeaveOps(plan, migrations, 0)) && FailedRooms([]) == {}
  {
  }

  lemma LeaveStep(plan: Plan, migrations: seq<seq<Step>>, order: seq<RoomId>, i: nat, leaves: seq<Step>, t: seq<Step>)
    requires order == RoomOrder(plan) && i < |order| == |migrations|
    requires Makes(leaves, LeaveOps(plan, migrations, i))
    requires Makes(t, if plan.rooms[order[i]].leave && AllDone(migrations[i]) then [Leave(order[i], plan.oldUserId)] else [])
    requires forall r :: r in FailedRooms(leaves) ==> r in order[..i]
    ensures Makes(leaves + t, LeaveOps(plan, migrations, i + 1))
    ensures forall r :: r in FailedRooms(leaves + t) ==> r in order[..i + 1]
  {
    hide AllDone, FailedRooms, SortedKeys, Makes;
    MakesConcat(leaves, t, LeaveOps(plan, migrations, i),
                if plan.rooms[order[i]].leave && AllDone(migrations[i]) then [Leave(order[i], plan.oldUserId)] else []);
    FailedRoomsConcat(leaves, t);
    FailedLeave(t, order[i], plan.oldUserId);
    assert order[..i + 1] == order[..i] + [order[i]];
  }

  lemma MakesConcat(a: seq<Step>, b: seq<Step>, before: seq<Op>, after: seq<Op>)
    requires Makes(a, before) && Makes(b, after)
    ensures Makes(a + b, before + after)
  {
  }

  lemma FailedLeave(t: seq<Step>, r: RoomId, user: UserId)
    requires Makes(t, []) || Makes(t, [Leave(r, user)])
    ensures FailedRooms(t) <= {r}
  {
  }

  lemma FailuresBeforeLeaving(plan: Plan, migrations: seq<seq<Step>>, globals: seq<Step>)
    requires |migrations| == |RoomOrder(plan)| && MigratesRooms(plan, migrations)
    requires forall i :: 0 <= i < |globals| ==> globals[i].op.SetGlobal?
    ensures GlobalFailure(Flatten(migrations) + globals) <==> !AllDone(globals)
    ensures forall i :: 0 <= i < |migrations| ==>
              (RoomOrder(plan)[i] in FailedRooms(Flatten(migrations) + globals) <==> !AllDone(migrations[i]))
  {
    FailedMigrations(plan, migrations);
    FailedRoomsConcat(Flatten(migrations), globals);
  }

  lemma {:induction false} NothingToLeave(plan: Plan, migrations: seq<seq<Step>>, n: nat)
    requires n <= |RoomOrder(plan)| && n <= |migrations|
    requires |set r | r in plan.rooms && plan.rooms[r].leave| == 0
    ensures LeaveOps(plan, migrations, n) == []
  {
    if n > 0 {
      NothingToLeave(plan, migrations, n - 1);
      var marked := set r | r in plan.rooms && plan.rooms[r].leave;
      assert RoomOrder(plan)[n - 1] !in marked;
    }
  }
}
