/**
  Every plan can be executed without a failure and undisturbed, so that what is
  proved of such runs is about something; and such a run leaves every room that
  has no error.
 */
module CleanRuns {
  import opened Wrappers
  import opened Ordering
  import opened Homeserver
  import opened Planning
  import opened PlanProperties
  import opened Trace
  import opened Executor
  import opened Effects
  import opened LeaveSafety
  import opened Permissions
  import opened Replanning

  /** The requests `ops`, all successful. */
  function Successes(ops: seq<Op>): seq<Step> {
    seq(|ops|, i requires 0 <= i < |ops| => Step(ops[i], Done))
  }

  ghost predicate NoReads(ops: seq<Op>) {
    forall i :: 0 <= i < |ops| ==> !ops[i].ReadLevels?
  }

  lemma SuccessesMake(w: World, ops: seq<Op>)
    ensures Makes(Successes(ops), ops) && AllDone(Successes(ops))
    ensures NoReads(ops) ==> Undisturbed(w, Successes(ops))
  {
  }

  lemma AllDoneConcat(a: seq<Step>, b: seq<Step>)
    ensures AllDone(a + b) <==> AllDone(a) && AllDone(b)
  {
    if AllDone(a + b) {
      DoneConcat(a, b);
    }
  }

  lemma CleanPower(w: World, plan: Plan, r: RoomId, level: Int) returns (t: seq<Step>)
    ensures SetsPowerLevel(plan, r, level, t) && AllDone(t) && Undisturbed(w, t)
  {
    var seen := w.RoomOf(r).LevelsRead({});
    t := [Step(ReadLevels(r, plan.oldUserId, seen), Done),
          Step(WriteLevels(r, plan.oldUserId, WithLevel(seen, plan.newUserId, level)), Done)];
    assert t[..0] == [];
  }

  /** Nothing fails in `t`, and nobody interferes with it. */
  ghost predicate Clean(w: World, t: seq<Step>) {
    AllDone(t) && Undisturbed(w, t)
  }

  lemma CleanConcat(w: World, a: seq<Step>, b: seq<Step>)
    ensures Clean(w, a + b) <==> Clean(w, a) && Clean(Replay(w, a), b)
  {
    hide AllDone, Undisturbed, Replay;
    UndisturbedConcat(w, a, b);
    AllDoneConcat(a, b);
  }

  lemma CleanPowerPart(w: World, plan: Plan, r: RoomId, room: RoomPlan) returns (t: seq<Step>)
    ensures if room.powerLevel.Some? then SetsPowerLevel(plan, r, room.powerLevel.value, t) else t == []
    ensures Clean(w, t)
  {
    hide SetsPowerLevel;
    if room.powerLevel.Some? {
      t := CleanPower(w, plan, r, room.powerLevel.value);
    } else {
      t := [];
    }
  }

  lemma CleanMigration(w: World, plan: Plan, r: RoomId, room: RoomPlan) returns (t: seq<Step>)
    ensures MigratesRoom(plan, r, room, t) && Clean(w, t)
  {
    hide MigratesRoom, Undisturbed, Replay, Makes, SetsPowerLevel, RoomDataOps, EntryOps, NoReads, Successes;
    var entryOps, dataOps := EntryOps(plan, r, room), RoomDataOps(plan, r, room);
    RoomRequestsRead(plan, r, room);
    var entry, data := Successes(entryOps), Successes(dataOps);
    SuccessesMake(w, entryOps);
    var w1 := Replay(w, entry);
    var power := CleanPowerPart(w1, plan, r, room);
    SuccessesMake(Replay(w1, power), dataOps);
    hide AllDone;
    t := entry + power + data;
    assert t == entry + (power + data);
    CleanConcat(w1, power, data);
    CleanConcat(w, entry, power + data);
    assert AllDone(entry) by {
      SuccessesMake(w, entryOps);
    }
    EnteredMigration(plan, r, room, entry, power, data);
  }

  lemma RoomRequestsRead(plan: Plan, r: RoomId, room: RoomPlan)
    ensures NoReads(EntryOps(plan, r, room)) && NoReads(RoomDataOps(plan, r, room))
  {
  }

  lemma NothingUndisturbed(w: World)
    ensures Clean(w, [])
  {
  }

  lemma {:induction false} CleanMigrations(w: World, plan: Plan, n: nat) returns (ms: seq<seq<Step>>)
    requires n <= |RoomOrder(plan)|
    ensures |ms| == n && MigratesRooms(plan, ms) && Clean(w, Flatten(ms))
  {
    hide MigratesRoom, Clean, Replay;
    if n == 0 {
      ms := [];
      NothingUndisturbed(w);
    } else {
      var before := CleanMigrations(w, plan, n - 1);
      var r := RoomOrder(plan)[n - 1];
      var t := CleanMigration(Replay(w, Flatten(before)), plan, r, plan.rooms[r]);
      ms := before + [t];
      assert ms[..n - 1] == before;
      CleanConcat(w, Flatten(before), t);
    }
  }

  /** Every plan has a run in which nothing fails and nobody interferes. */
  lemma EveryPlanHasCleanRun(m: Migration) returns (run: Run)
    ensures CleanRun(m, run)
  {
    hide Migration.FinalPlan, MigratesRooms, Undisturbed, AllDone, Replay, Makes, NoReads, LeaveOps, GlobalOps, Successes;
    var plan := m.FinalPlan();
    var ms := CleanMigrations(m.world, plan, |RoomOrder(plan)|);
    var globalOps := GlobalOps(SortedKeys(plan.globalAccountData.Keys), plan.newUserId, plan.globalAccountData);
    var leaveOps := LeaveOps(plan, ms, |ms|);
    WritesAndLeavesRead(plan, ms);
    var before := Flatten(ms);
    SuccessesMake(Replay(m.world, before), globalOps);
    run := Run(ms, Successes(globalOps), Successes(leaveOps));
    SuccessesMake(Replay(m.world, before + run.globals), leaveOps);
    CleanConcat(m.world, before, run.globals);
    CleanConcat(m.world, before + run.globals, run.leaves);
  }

  lemma WritesAndLeavesRead(plan: Plan, ms: seq<seq<Step>>)
    requires |ms| <= |RoomOrder(plan)|
    ensures NoReads(GlobalOps(SortedKeys(plan.globalAccountData.Keys), plan.newUserId, plan.globalAccountData))
    ensures NoReads(LeaveOps(plan, ms, |ms|))
  {
    LeaveOpsDistinct(plan, ms, |ms|);
  }

  /** A clean run takes the old user out of every room planned without an error, and of no other. */
  lemma CleanRunLeavesExactly(m: Migration, run: Run, r: RoomId)
    requires m.ListsJoinedRooms() && CleanRun(m, run) && r in m.oldJoined
    ensures WorldAfter(m, run).MembershipOf(r, m.oldUser) == Some(Joined) <==>
            !(m.leave && m.GlobalErrors() == [] && m.RoomErrors(r) == [])
  {
    hide CleanRun, Migration.FinalPlan, AfterLeaves, Migration.RoomErrors, Migration.GlobalErrors, MigrationApplied;
    EntryOfFinalPlan(m, r);
    RoomPlanErrors(m, r);
    if EntryOf(m.FinalPlan(), r).leave {
      MarkedRoomIsLeft(m, run, r);
    } else {
      OldUserNotMoved(m, run, r);
    }
  }

  lemma OldUserNotMoved(m: Migration, run: Run, r: RoomId)
    requires m.ListsJoinedRooms() && CleanRun(m, run) && r in m.oldJoined
    requires !EntryOf(m.FinalPlan(), r).leave
    ensures WorldAfter(m, run).MembershipOf(r, m.oldUser) == Some(Joined)
  {
    hide RunOf, Migration.FinalPlan, AfterLeaves, Undisturbed, ActsAsPlanned, RoomAfter, Migration.ListsJoinedRooms;
    var plan := m.FinalPlan();
    PlanUsers(m);
    assert ActsAsPlanned(m, r, EntryOf(plan, r)) by {
      EntryActsAsPlanned(m, r);
    }
    OldUserStays(m, plan, r, EntryOf(plan, r));
    RoomBeforeLeaves(m, run, r);
    MigratedMembers(plan, EntryOf(plan, r), m.world.RoomOf(r), AfterLeaves(m.world, run, 0).RoomOf(r));
    UnmarkedRoomIsNotLeft(m, run, r);
    AfterLeavesFrame(m.world, run, 0, |run.leaves|, r);
  }

  lemma EntryActsAsPlanned(m: Migration, r: RoomId)
    requires r in m.oldJoined
    ensures ActsAsPlanned(m, r, EntryOf(m.FinalPlan(), r))
  {
    EntryOfFinalPlan(m, r);
  }
}
