/** The rooms that a plan adds to the new user's direct messages. */
module DirectTargets {
  import opened Wrappers
  import opened Homeserver
  import opened Planning
  import opened PlanProperties
  import opened Trace
  import opened Executor
  import opened LeaveSafety
  import opened Permissions
  import opened Replanning

  /**
    Every direct message room that a plan adds to the new user's `m.direct` has
    the new user in it at the end of the run, or has recorded a failure.
   */
  lemma DirectTargetsAccountedFor(m: Migration, run: Run, u: UserId, r: RoomId)
    requires m.ListsJoinedRooms()
    requires RunOf(m.FinalPlan(), run) && Undisturbed(m.world, run.Trace())
    requires m.DirectToSet().Some?
    requires r in RoomsWith(m.DirectToSet().value, u) && r !in RoomsWith(DirectIn(m.world.Global(m.newUser)), u)
    ensures AfterLeaves(m.world, run, |run.leaves|).MembershipOf(r, m.newUser) == Some(Joined) || r in FailedRooms(run.Trace())
  {
    AddedDirectIsDestination(m, u, r);
    hide Migration.DirectToSet, Migration.FinalPlan, AfterLeaves, RunOf, Undisturbed;
    if r !in FailedRooms(run.Trace()) {
      PlanUsers(m);
      DestinationJoined(m, run, r);
      LeavesKeepNewUser(m, run, |run.leaves|, r);
    }
  }

  lemma AddedDirectIsDestination(m: Migration, u: UserId, r: RoomId)
    requires m.DirectToSet().Some?
    requires r in RoomsWith(m.DirectToSet().value, u) && r !in RoomsWith(DirectIn(m.world.Global(m.newUser)), u)
    ensures m.oldUser != m.newUser && r in m.Destinations()
  {
    var from, into := m.GetDirect(OldUser).value.value, m.GetDirect(NewUser).value.GetOr(map[]);
    hide Migration.Destinations, Wanted, MergedDirect;
    MergedDirectExact(from, into, m.newUser, m.Destinations());
    assert DirectIn(m.world.Global(m.newUser)) == into;
  }

  lemma {:induction false} LeavesKeepNewUser(m: Migration, run: Run, k: nat, r: RoomId)
    requires RunOf(m.FinalPlan(), run) && k <= |run.leaves| && m.oldUser != m.newUser
    ensures AfterLeaves(m.world, run, k).MembershipOf(r, m.newUser) == AfterLeaves(m.world, run, 0).MembershipOf(r, m.newUser)
  {
    hide RunOf, AfterLeaves, Migration.FinalPlan;
    if k > 0 {
      LeavesKeepNewUser(m, run, k - 1, r);
      AfterLeavesStep(m.world, run, k - 1);
      var i := LeaveIndex(m.FinalPlan(), run, k - 1);
      PlanUsers(m);
    }
  }

  lemma DestinationJoined(m: Migration, run: Run, r: RoomId)
    requires m.ListsJoinedRooms() && m.oldUser != m.newUser
    requires RunOf(m.FinalPlan(), run) && Undisturbed(m.world, run.Trace())
    requires r in m.Destinations() && r !in FailedRooms(run.Trace())
    ensures AfterLeaves(m.world, run, 0).MembershipOf(r, m.newUser) == Some(Joined)
  {
    hide Migration.FinalPlan, AfterLeaves, RunOf, Undisturbed, FailedRooms, Migration.JoinOutcome;
    var plan := m.FinalPlan();
    PlanUsers(m);
    if r in plan.rooms {
      var i := RoomIndex(plan, run, r);
      NoFailureInRoom(plan, run, i);
      PlannedActions(m, r);
      RoomDuringLeaves(m.world, plan, run, i, 0);
    } else {
      JoinsAreInPlan(m, r);
      UnplannedRoomUntouched(m.world, plan, run, r, 0);
    }
  }

  lemma RoomIndex(plan: Plan, run: Run, r: RoomId) returns (i: nat)
    requires RunOf(plan, run) && r in plan.rooms
    ensures i < |run.migrations| == |RoomOrder(plan)| && RoomOrder(plan)[i] == r
  {
    hide MigratesRooms, LeaveOps;
    i :| 0 <= i < |RoomOrder(plan)| && RoomOrder(plan)[i] == r;
  }

  lemma NoFailureInRoom(plan: Plan, run: Run, i: nat)
    requires RunOf(plan, run) && i < |run.migrations| && RoomOrder(plan)[i] !in FailedRooms(run.Trace())
    ensures AllDone(run.migrations[i])
  {
    FailedMigrations(plan, run.migrations);
    hide RunOf, FailedRooms;
    FailedRoomsConcat(Flatten(run.migrations), run.globals);
    FailedRoomsConcat(Flatten(run.migrations) + run.globals, run.leaves);
  }

  lemma JoinsAreInPlan(m: Migration, r: RoomId)
    ensures r !in m.FinalPlan().rooms && r in m.Destinations() ==> r in m.newJoined
  {
    if r in m.oldJoined && m.PlansJoin(r) {
      EntryOfFinalPlan(m, r);
    }
  }
}
