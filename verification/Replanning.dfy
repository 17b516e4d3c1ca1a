/**
  Planning again. After a run without a failure, a new plan for the same two
  users finds nothing left to do, with one exception: a power level that was set
  in place of the infinite one of a creator, as planning saw it, is proposed again.
 */
module Replanning {
  import opened Wrappers
  import opened JsonMerge
  import opened Homeserver
  import opened Planning
  import opened PlanProperties
  import opened Trace
  import opened Effects
  import opened LeaveSafety
  import opened Permissions

  /** Planning a world anew for the users of `m`. */
  function Replan(m: Migration, w: World, faults: set<Read>, leave: bool): Migration {
    Migration(w, faults, m.oldUser, m.newUser, w.JoinedRooms(m.oldUser), w.JoinedRooms(m.newUser), leave)
  }

  ghost predicate CleanRun(m: Migration, run: Run) {
    RunOf(m.FinalPlan(), run) && Undisturbed(m.world, run.Trace()) && AllDone(run.Trace())
  }

  function WorldAfter(m: Migration, run: Run): World {
    AfterLeaves(m.world, run, |run.leaves|)
  }

  /**
    The create event of a version 12 room was read, and its content names the
    old user as a creator. Who sent it does not count.
   */
  predicate OldUserSeenAsCreator(m: Migration, r: RoomId) {
    var create := m.world.RoomOf(r).create;
    && m.faults !! {ReadCreators(r), ReadRoomVersion(r)}
    && create.Some? && create.value.roomVersion == Some(KNOWN_PRIVILEGING_VERSION)
    && (create.value.creator == Some(m.oldUser) || m.oldUser in create.value.additionalCreators)
  }

  lemma SeenAsCreator(m: Migration, r: RoomId)
    ensures OldUserSeenAsCreator(m, r) <==> m.oldUser in m.SeenPrivileged(r)
  {
  }

  /** The two reads of the create event of `r` fail alike. */
  predicate SameCreatorReads(faults: set<Read>, later: set<Read>, r: RoomId) {
    && (ReadCreators(r) in faults <==> ReadCreators(r) in later)
    && (ReadRoomVersion(r) in faults <==> ReadRoomVersion(r) in later)
  }

  // The world at the end of a clean run

  lemma CleanParts(m: Migration, run: Run)
    requires CleanRun(m, run)
    ensures forall i :: 0 <= i < |run.migrations| ==> AllDone(run.migrations[i])
    ensures AllDone(run.globals) && AllDone(run.leaves)
    ensures WorldAfter(m, run) == Replay(m.world, run.Trace())
  {
    hide Migration.FinalPlan, RunOf, Undisturbed, Replay;
    var t := run.Trace();
    forall i | 0 <= i < |run.globals|
      ensures run.globals[i].outcome.Done?
    {
      assert t[|Flatten(run.migrations)| + i] == run.globals[i];
    }
    forall i | 0 <= i < |run.leaves|
      ensures run.leaves[i].outcome.Done?
    {
      assert t[|Flatten(run.migrations)| + |run.globals| + i] == run.leaves[i];
    }
    assert run.leaves[..|run.leaves|] == run.leaves;
    assert AllDone(Flatten(run.migrations)) by {
      assert t[..|Flatten(run.migrations)|] == Flatten(run.migrations);
    }
    DoneInFlatten(run.migrations);
  }

  lemma {:induction false} DoneInFlatten(ms: seq<seq<Step>>)
    requires AllDone(Flatten(ms))
    ensures forall i :: 0 <= i < |ms| ==> AllDone(ms[i])
  {
    if ms != [] {
      var n := |ms| - 1;
      var before := Flatten(ms[..n]);
      assert Flatten(ms)[..|before|] == before && Flatten(ms)[|before|..] == ms[n];
      DoneInFlatten(ms[..n]);
      forall i | 0 <= i < |ms|
        ensures AllDone(ms[i])
      {
        if i < n {
          assert ms[..n][i] == ms[i];
        }
      }
    }
  }

  /** Leaves make nobody a member. */
  lemma {:induction false} LeavesAddNobody(w: World, run: Run, k: nat, r: RoomId, u: UserId)
    requires k <= |run.leaves| && forall i :: 0 <= i < |run.leaves| ==> run.leaves[i].op.Leave?
    ensures AfterLeaves(w, run, k).MembershipOf(r, u) == Some(Joined) ==>
              AfterLeaves(w, run, 0).MembershipOf(r, u) == Some(Joined)
  {
    if k > 0 {
      LeavesAddNobody(w, run, k - 1, r, u);
      AfterLeavesStep(w, run, k - 1);
      hide AfterLeaves;
    }
  }

  /** A run leaves alone every room that is not in its plan. */
  lemma UnplannedRoomUntouched(w: World, plan: Plan, run: Run, r: RoomId, k: nat)
    requires RunOf(plan, run) && r !in plan.rooms && k <= |run.leaves|
    ensures SameAbout(r, w, AfterLeaves(w, run, k))
  {
    hide AfterLeaves, Replay, SameAbout;
    AfterLeavesSplit(w, run, k);
    MigratedElsewhere(w, plan, run, r);
    GlobalsAreGlobal(plan, run);
    LeavesAreOfPlannedRooms(plan, run);
    hide RunOf;
    var w1 := Replay(w, Flatten(run.migrations));
    var w2 := Replay(w1, run.globals);
    ReplayFrameRoom(w1, run.globals, r);
    ReplayFrameRoom(w2, run.leaves[..k], r);
    SameAboutTransitive(r, w, w1, w2, AfterLeaves(w, run, k));
  }

  lemma MigratedElsewhere(w: World, plan: Plan, run: Run, r: RoomId)
    requires RunOf(plan, run) && r !in plan.rooms
    ensures SameAbout(r, w, Replay(w, Flatten(run.migrations)))
  {
    hide LeaveOps, GlobalOps, Replay, SameAbout, Makes;
    var ms := run.migrations;
    assert forall i :: 0 <= i < |RoomOrder(plan)| ==> RoomOrder(plan)[i] in plan.rooms;
    MigrationsFrame(w, plan, ms, r, 0, |ms|);
    assert ms[..0] == [] && ms[..|ms|] == ms;
    ReplayNone(w);
  }

  lemma SameAboutTransitive(r: RoomId, a: World, b: World, c: World, d: World)
    requires SameAbout(r, a, b) && SameAbout(r, b, c) && SameAbout(r, c, d)
    ensures SameAbout(r, a, d)
  {
  }

  lemma LeavesAreOfPlannedRooms(plan: Plan, run: Run)
    requires RunOf(plan, run)
    ensures forall i :: 0 <= i < |run.leaves| ==> run.leaves[i].op.Leave? && run.leaves[i].op.room in plan.rooms
  {
    hide RunOf;
    forall k | 0 <= k < |run.leaves|
      ensures run.leaves[k].op.Leave? && run.leaves[k].op.room in plan.rooms
    {
      var i := LeaveIndex(plan, run, k);
      assert RoomOrder(plan)[i] in RoomOrder(plan);
    }
  }

  /** What a clean run has done, before leaving, to a room of the old user. */
  lemma RoomBeforeLeaves(m: Migration, run: Run, r: RoomId)
    requires CleanRun(m, run) && r in m.oldJoined
    ensures MigrationApplied(m.FinalPlan(), r, EntryOf(m.FinalPlan(), r), m.world, AfterLeaves(m.world, run, 0))
  {
    CleanParts(m, run);
    hide Migration.FinalPlan, Undisturbed, AfterLeaves, AllDone;
    var plan := m.FinalPlan();
    if r in plan.rooms {
      var i :| 0 <= i < |RoomOrder(plan)| && RoomOrder(plan)[i] == r;
      RoomDuringLeaves(m.world, plan, run, i, 0);
    } else {
      UnplannedRoomUntouched(m.world, plan, run, r, 0);
      NothingApplied(plan, r, m.world, AfterLeaves(m.world, run, 0));
    }
  }

  lemma NothingApplied(plan: Plan, r: RoomId, before: World, after: World)
    requires SameAbout(r, before, after)
    ensures MigrationApplied(plan, r, EMPTY_ROOM_PLAN, before, after)
  {
  }

  /** A planned leave was made, so the old user is no longer in the room. */
  lemma MarkedRoomIsLeft(m: Migration, run: Run, r: RoomId)
    requires CleanRun(m, run) && r in m.FinalPlan().rooms && m.FinalPlan().rooms[r].leave
    ensures WorldAfter(m, run).MembershipOf(r, m.oldUser) != Some(Joined)
  {
    hide Migration.FinalPlan, Undisturbed, AfterLeaves, RunOf, Replay;
    CleanParts(m, run);
    PlanUsers(m);
    var plan := m.FinalPlan();
    var j := MarkedRoomLeave(plan, run, r);
    LeavesAreLeaves(plan, run);
    AfterLeavesStep(m.world, run, j);
    AfterLeavesFrame(m.world, run, j + 1, |run.leaves|, r);
  }

  lemma MarkedRoomLeave(plan: Plan, run: Run, r: RoomId) returns (j: nat)
    requires RunOf(plan, run) && AllDone(run.globals)
    requires forall i :: 0 <= i < |run.migrations| ==> AllDone(run.migrations[i])
    requires r in plan.rooms && plan.rooms[r].leave
    ensures j < |run.leaves| && run.leaves[j].op == Leave(r, plan.oldUserId)
  {
    hide MigratesRooms, LeaveOps;
    var n := |run.migrations|;
    var op := Leave(r, plan.oldUserId);
    var i :| 0 <= i < |RoomOrder(plan)| && RoomOrder(plan)[i] == r;
    assert LeavesRoom(plan, run.migrations, i, op);
    LeaveOpsExact(plan, run.migrations, n, op);
    j :| 0 <= j < |run.leaves| && run.leaves[j].op == op;
  }

  lemma UnmarkedRoomIsNotLeft(m: Migration, run: Run, r: RoomId)
    requires RunOf(m.FinalPlan(), run) && !(r in m.FinalPlan().rooms && m.FinalPlan().rooms[r].leave)
    ensures forall k :: 0 <= k < |run.leaves| ==> !run.leaves[k].op.Concerns(r)
  {
    hide Migration.FinalPlan, MigratesRooms, LeaveOps;
    var plan := m.FinalPlan();
    LeavesAreLeaves(plan, run);
    forall k | 0 <= k < |run.leaves|
      ensures !run.leaves[k].op.Concerns(r)
    {
      var i := LeaveIndex(plan, run, k);
      assert RoomOrder(plan)[i] in plan.rooms;
    }
  }

  /** A room in which the old user still is after a clean run: one of theirs, not marked, and migrated as planned. */
  lemma RoomStillJoined(m: Migration, run: Run, r: RoomId)
    requires m.ListsJoinedRooms() && CleanRun(m, run)
    requires WorldAfter(m, run).MembershipOf(r, m.oldUser) == Some(Joined)
    ensures r in m.oldJoined && !EntryOf(m.FinalPlan(), r).leave
    ensures MigrationApplied(m.FinalPlan(), r, EntryOf(m.FinalPlan(), r), m.world, WorldAfter(m, run))
  {
    hide Migration.FinalPlan, Undisturbed, AfterLeaves, RunOf, MigrationApplied;
    var plan := m.FinalPlan();
    if r in plan.rooms {
      PlannedActions(m, r);
      if plan.rooms[r].leave {
        MarkedRoomIsLeft(m, run, r);
      }
    } else {
      UnplannedRoomUntouched(m.world, plan, run, r, |run.leaves|);
    }
    assert r in m.oldJoined;
    RoomBeforeLeaves(m, run, r);
    UnmarkedRoomIsNotLeft(m, run, r);
    AfterLeavesFrame(m.world, run, 0, |run.leaves|, r);
    AppliedAcross(plan, r, EntryOf(plan, r), m.world, AfterLeaves(m.world, run, 0), WorldAfter(m, run));
  }

  lemma AppliedAcross(plan: Plan, r: RoomId, room: RoomPlan, w: World, a: World, b: World)
    requires MigrationApplied(plan, r, room, w, a) && SameAbout(r, a, b)
    ensures MigrationApplied(plan, r, room, w, b)
  {
  }

  lemma JoinedAsDestination(m: Migration, r: RoomId, room: RoomPlan)
    requires m.ListsJoinedRooms() && r in m.oldJoined
    requires room.join == m.RoomPlanFor(r).join && (room.invite ==> room.join)
    requires var members := RoomAfter(Plan(m.oldUser, m.newUser, map[], map[], []), room, m.world.RoomOf(r), {}).members;
             m.newUser in members && members[m.newUser] == Joined
    ensures r in m.Destinations()
  {
    hide Migration.JoinOutcome, Migration.RoomErrors, Migration.RoomTags, Migration.RoomPowerLevel;
  }

  /** The new user has joined nothing but the planned destinations. */
  lemma NewRoomsAreDestinations(m: Migration, run: Run, r: RoomId)
    requires m.ListsJoinedRooms() && CleanRun(m, run)
    requires WorldAfter(m, run).MembershipOf(r, m.newUser) == Some(Joined)
    ensures r in m.Destinations()
  {
    CleanParts(m, run);
    hide Undisturbed, AfterLeaves, RunOf, Migration.FinalPlan, Migration.RoomErrors;
    LeavesAreLeaves(m.FinalPlan(), run);
    LeavesAddNobody(m.world, run, |run.leaves|, r, m.newUser);
    if r in m.oldJoined {
      var plan := m.FinalPlan();
      hide RoomMigrated, RoomAfter, Migration.ListsJoinedRooms;
      RoomBeforeLeaves(m, run, r);
      EntryOfFinalPlan(m, r);
      PlanUsers(m);
      MigratedMembers(plan, EntryOf(plan, r), m.world.RoomOf(r), AfterLeaves(m.world, run, 0).RoomOf(r));
      JoinedAsDestination(m, r, EntryOf(plan, r));
    } else {
      assert r !in m.FinalPlan().rooms by {
        if r in m.FinalPlan().rooms {
          PlannedActions(m, r);
        }
      }
      UnplannedRoomUntouched(m.world, m.FinalPlan(), run, r, 0);
    }
  }

  // Planning a migrated room again

  /** `n` replans, with at least the faults of `m`, a world in which room `r` was migrated as planned. */
  ghost predicate MigratedAsPlanned(m: Migration, n: Migration, r: RoomId) {
    && n.oldUser == m.oldUser && n.newUser == m.newUser && m.faults <= n.faults
    && (r in n.newJoined <==> n.world.MembershipOf(r, m.newUser) == Some(Joined))
    && var planned := m.RoomPlanFor(r);
       MigrationApplied(Plan(m.oldUser, m.newUser, map[], map[], []), r, planned, m.world, n.world)
  }

  lemma JoinNotReplanned(m: Migration, n: Migration, r: RoomId)
    requires m.ListsJoinedRooms() && MigratedAsPlanned(m, n, r)
    ensures m.EndsJoined(r) <==> n.EndsJoined(r)
    ensures n.EndsJoined(r) <==> r in n.newJoined
  {
    hide Migration.RoomErrors, Migration.RoomTags, Migration.RoomPowerLevel;
    NoMoreCreatorsSeen(m, n, r);
    hide Migration.SeenPrivileged;
    if !m.EndsJoined(r) {
      assert n.world.RoomOf(r) == m.world.RoomOf(r);
      assert n.JoinOutcome(r).Failure?;
    }
  }

  lemma TagsNotReplanned(m: Migration, n: Migration, r: RoomId)
    requires n.oldUser == m.oldUser && n.newUser == m.newUser && m.faults <= n.faults
    requires forall u :: u != m.newUser ==> n.world.RoomData(u, r) == m.world.RoomData(u, r)
    requires var data := m.world.RoomData(m.newUser, r);
             n.world.RoomData(m.newUser, r) == data + m.RoomTags(r) || n.world.RoomData(m.newUser, r) == data
    ensures n.world.RoomData(m.newUser, r) == m.world.RoomData(m.newUser, r) + m.RoomTags(r) ==> n.RoomTags(r) == map[]
    ensures m.RoomTagErrors(r) != [] ==> n.RoomTagErrors(r) != []
  {
    if m.oldUser == m.newUser {
      SameTagsNotWritten(m, r);
      SameTagsNotWritten(n, r);
      assert m.world.RoomData(m.newUser, r) + m.RoomTags(r) == m.world.RoomData(m.newUser, r);
    }
    hide Conflicts, Merged, MergeResult, World.RoomData;
    if BothTagsRead(m, r) {
      TagsWritten(m, r, m.world.RoomData(m.newUser, r));
      RemergeIsStable(m.GetTags(OldUser, r).value.value, m.GetTags(NewUser, r).value.GetOr(map[]));
    }
  }

  ghost predicate SameOrigin(m: Migration, n: Migration, r: RoomId) {
    n.world.RoomOf(r).create == m.world.RoomOf(r).create && n.world.RoomOf(r).stateDefault == m.world.RoomOf(r).stateDefault
  }

  /** Reads that fail more show planning no creator that it did not see. */
  lemma NoMoreCreatorsSeen(m: Migration, n: Migration, r: RoomId)
    requires m.faults <= n.faults && SameOrigin(m, n, r)
    ensures n.SeenPrivileged(r) <= m.SeenPrivileged(r)
    ensures SameCreatorReads(m.faults, n.faults, r) ==>
              n.SeenPrivileged(r) == m.SeenPrivileged(r) && n.SeenFinite(r) == m.SeenFinite(r)
  {
  }

  lemma PowerNotReplanned(m: Migration, n: Migration, r: RoomId, creators: set<UserId>)
    requires n.oldUser == m.oldUser && n.newUser == m.newUser && m.faults <= n.faults
    requires SameOrigin(m, n, r) && SameCreatorReads(m.faults, n.faults, r)
    requires n.world.RoomOf(r).levels ==
             if m.RoomPowerLevel(r).Some?
             then Some(WithLevel(m.world.RoomOf(r).LevelsRead(creators), m.newUser, m.RoomPowerLevel(r).value))
             else m.world.RoomOf(r).levels
    ensures n.RoomPowerLevel(r).Some? ==> OldUserSeenAsCreator(m, r) && m.RoomPowerLevel(r).Some?
    ensures m.faults == n.faults && OldUserSeenAsCreator(m, r) && m.RoomPowerLevel(r).Some? ==> n.RoomPowerLevel(r) == Some(INT_MAX)
    ensures m.RoomPowerErrors(r) != [] ==> n.RoomPowerErrors(r) != []
  {
    NoMoreCreatorsSeen(m, n, r);
    SeenAsCreator(m, r);
    hide Migration.SeenPrivileged, Migration.SeenFinite;
  }

  /** When no level was written, for want of joining, the errors about it remain. */
  lemma PowerErrorsRemain(m: Migration, n: Migration, r: RoomId)
    requires n.oldUser == m.oldUser && n.newUser == m.newUser && m.faults <= n.faults
    requires SameOrigin(m, n, r) && SameCreatorReads(m.faults, n.faults, r)
    requires n.world.RoomOf(r).levels == m.world.RoomOf(r).levels
    ensures m.RoomPowerErrors(r) != [] ==> n.RoomPowerErrors(r) != []
  {
    NoMoreCreatorsSeen(m, n, r);
    hide Migration.SeenPrivileged, Migration.SeenFinite;
  }

  /**
    A migrated room needs nothing more, and keeps an error if it had one. What
    is said of power levels is for reads of the creators that fail alike.
   */
  lemma RoomNotReplanned(m: Migration, n: Migration, r: RoomId)
    requires m.ListsJoinedRooms() && MigratedAsPlanned(m, n, r)
    ensures var again := n.RoomPlanFor(r);
            && !again.invite && !again.join && again.accountData == map[]
            && (SameCreatorReads(m.faults, n.faults, r) && again.powerLevel.Some? ==>
                  OldUserSeenAsCreator(m, r) && m.RoomPlanFor(r).powerLevel.Some?)
            && (m.faults == n.faults && OldUserSeenAsCreator(m, r) && m.RoomPlanFor(r).powerLevel.Some? ==> again.powerLevel == Some(INT_MAX))
    ensures SameCreatorReads(m.faults, n.faults, r) && m.RoomErrors(r) != [] ==> n.RoomErrors(r) != []
  {
    JoinNotReplanned(m, n, r);
    hide Migration.RoomTags, Migration.RoomTagErrors, Migration.RoomPowerErrors, Migration.RoomPowerLevel, Migration.JoinOutcome, RoomAfter;
    var planned := m.RoomPlanFor(r);
    var creators := RoomAfterFields(m, n, r, planned);
    if m.EndsJoined(r) {
      TagsNotReplanned(m, n, r);
    } else {
      assert m.world.RoomData(m.newUser, r) + map[] == m.world.RoomData(m.newUser, r);
      TagsNotReplanned(m, n, r);
    }
    if SameCreatorReads(m.faults, n.faults, r) {
      if m.EndsJoined(r) {
        PowerNotReplanned(m, n, r, creators);
      } else {
        PowerErrorsRemain(m, n, r);
      }
      ErrorsRemain(m, n, r);
    }
  }

  lemma RoomAfterFields(m: Migration, n: Migration, r: RoomId, planned: RoomPlan) returns (creators: set<UserId>)
    requires RoomMigrated(Plan(m.oldUser, m.newUser, map[], map[], []), planned, m.world.RoomOf(r), n.world.RoomOf(r))
    ensures var before, after := m.world.RoomOf(r), n.world.RoomOf(r);
            && SameOrigin(m, n, r) && after.visibility == before.visibility
            && after.levels == (if planned.powerLevel.Some?
                                then Some(WithLevel(before.LevelsRead(creators), m.newUser, planned.powerLevel.value)) else before.levels)
  {
    var before, after := m.world.RoomOf(r), n.world.RoomOf(r);
    hide World.RoomOf, Room.LevelsRead, Room.NamedCreators;
    creators := if after == RoomAfter(Plan(m.oldUser, m.newUser, map[], map[], []), planned, before, {})
                then {} else before.NamedCreators();
  }

  lemma ErrorsRemain(m: Migration, n: Migration, r: RoomId)
    requires m.faults <= n.faults && m.EndsJoined(r) == n.EndsJoined(r)
    requires n.world.RoomOf(r).visibility == m.world.RoomOf(r).visibility
    requires m.RoomPowerErrors(r) != [] ==> n.RoomPowerErrors(r) != []
    requires m.RoomTagErrors(r) != [] ==> n.RoomTagErrors(r) != []
    ensures m.RoomErrors(r) != [] ==> n.RoomErrors(r) != []
  {
    hide Migration.RoomTagErrors, Migration.RoomPowerErrors, Migration.JoinOutcome;
  }

  // Planning the global account data again

  lemma DirectNotReplanned(m: Migration, n: Migration, newData: AccountData)
    requires n.oldUser == m.oldUser && n.newUser == m.newUser && m.faults <= n.faults
    requires n.Destinations() <= m.Destinations()
    requires newData == m.world.Global(m.newUser)
    requires n.world.Global(m.newUser) == newData + m.GlobalData()
    requires forall u :: u != m.newUser ==> n.world.Global(u) == m.world.Global(u)
    ensures n.DirectToSet() == None
    ensures m.DirectErrors() != [] ==> n.DirectErrors() != []
  {
    hide Migration.Destinations, Migration.GlobalData, Migration.IgnoredToSet, MergedDirect;
    GlobalDataEntries(m, newData);
    if m.oldUser == m.newUser {
      SameGlobalsNotWritten(m);
      assert n.world.Global(m.newUser) == newData;
    }
    if m.GetDirect(OldUser).Success? && m.GetDirect(OldUser).value.Some? && m.GetDirect(NewUser).Success? {
      var from, into := m.GetDirect(OldUser).value.value, m.GetDirect(NewUser).value.GetOr(map[]);
      RemergeDirectIsStable(from, into, m.newUser, m.Destinations(), n.Destinations());
    }
  }

  lemma IgnoredNotReplanned(m: Migration, n: Migration, newData: AccountData)
    requires n.oldUser == m.oldUser && n.newUser == m.newUser && m.faults <= n.faults
    requires newData == m.world.Global(m.newUser)
    requires n.world.Global(m.newUser) == newData + m.GlobalData()
    requires forall u :: u != m.newUser ==> n.world.Global(u) == m.world.Global(u)
    ensures n.IgnoredToSet() == None
    ensures m.IgnoredErrors() != [] ==> n.IgnoredErrors() != []
  {
    hide Migration.Destinations, Migration.GlobalData, Migration.DirectToSet;
    GlobalDataEntries(m, newData);
    if m.oldUser == m.newUser {
      SameGlobalsNotWritten(m);
      assert n.world.Global(m.newUser) == newData;
    }
    if m.GetIgnored(OldUser).Success? && m.GetIgnored(OldUser).value.Some? && m.GetIgnored(NewUser).Success? {
      var from, into := m.GetIgnored(OldUser).value.value, m.GetIgnored(NewUser).value.GetOr(map[]);
      RemergeIsStable(from, into);
    }
  }

  // The fixpoint

  lemma ReplannedRoom(m: Migration, run: Run, faults: set<Read>, leave: bool, r: RoomId)
    requires m.ListsJoinedRooms() && CleanRun(m, run) && m.faults <= faults
    requires r in Replan(m, WorldAfter(m, run), faults, leave).oldJoined
    ensures r in m.oldJoined && MigratedAsPlanned(m, Replan(m, WorldAfter(m, run), faults, leave), r)
    ensures !EntryOf(m.FinalPlan(), r).leave
  {
    var n := Replan(m, WorldAfter(m, run), faults, leave);
    hide CleanRun, Migration.FinalPlan, Migration.RoomPlanFor, AfterLeaves;
    assert n.world.MembershipOf(r, m.oldUser) == Some(Joined);
    RoomStillJoined(m, run, r);
    EntryOfFinalPlan(m, r);
    PlanUsers(m);
    JoinedIffMember(n.world, m.newUser, r);
  }

  lemma JoinedIffMember(w: World, u: UserId, r: RoomId)
    ensures r in w.JoinedRooms(u) <==> w.MembershipOf(r, u) == Some(Joined)
  {
  }

  lemma ReplannedGlobals(m: Migration, run: Run, faults: set<Read>, leave: bool)
    requires m.ListsJoinedRooms() && CleanRun(m, run) && m.faults <= faults
    ensures var n := Replan(m, WorldAfter(m, run), faults, leave);
            && n.GlobalData() == map[]
            && (m.GlobalErrors() != [] ==> n.GlobalErrors() != [])
  {
    hide Migration.FinalPlan, RunOf, Undisturbed, AfterLeaves, Migration.Destinations, Migration.DirectToSet, Migration.IgnoredToSet;
    hide Migration.DirectErrors, Migration.IgnoredErrors;
    var n := Replan(m, WorldAfter(m, run), faults, leave);
    forall r | r in n.Destinations()
      ensures r in m.Destinations()
    {
      ReplannedDestination(m, run, faults, leave, r);
    }
    CleanParts(m, run);
    GlobalsDuringLeaves(m.world, m.FinalPlan(), run, |run.leaves|);
    PlanUsers(m);
    PlanGlobals(m);
    DirectNotReplanned(m, n, m.world.Global(m.newUser));
    IgnoredNotReplanned(m, n, m.world.Global(m.newUser));
  }

  lemma PlanGlobals(m: Migration)
    ensures m.FinalPlan().globalAccountData == m.GlobalData() && m.FinalPlan().errors == m.GlobalErrors()
  {
  }

  lemma ReplannedDestination(m: Migration, run: Run, faults: set<Read>, leave: bool, r: RoomId)
    requires m.ListsJoinedRooms() && CleanRun(m, run) && m.faults <= faults
    requires r in Replan(m, WorldAfter(m, run), faults, leave).Destinations()
    ensures r in m.Destinations()
  {
    hide CleanRun, AfterLeaves, Migration.JoinOutcome;
    var n := Replan(m, WorldAfter(m, run), faults, leave);
    if r in n.oldJoined && n.PlansJoin(r) {
      ReplannedRoom(m, run, faults, leave, r);
      JoinNotReplanned(m, n, r);
    }
    assert r in n.newJoined;
    NewRoomsAreDestinations(m, run, r);
  }

  /** Planned again, the room needs nothing; where the creators are read alike, no level but a creator's. */
  ghost predicate NothingToDo(m: Migration, faults: set<Read>, r: RoomId, entry: RoomPlan) {
    && r in m.oldJoined
    && !entry.invite && !entry.join && entry.accountData == map[]
    && (SameCreatorReads(m.faults, faults, r) ==>
          && (entry.powerLevel.Some? ==> OldUserSeenAsCreator(m, r))
          && (m.leave ==> !entry.leave))
  }

  /**
    FIXPOINT. After a run without a failure, a plan of the resulting world has
    no invite, no join, and no account data of a room or of the account. Reads
    that fail may fail more. Where the reads of a room's creators fail alike,
    there is no leave if leaves were planned the first time, and a power level is
    set only where the old user was seen to be a creator.
   */
  lemma ReplanningFindsNothing(m: Migration, run: Run, faults: set<Read>, leave: bool)
    requires m.ListsJoinedRooms() && CleanRun(m, run) && m.faults <= faults
    ensures var plan := Replan(m, WorldAfter(m, run), faults, leave).FinalPlan();
            && plan.globalAccountData == map[]
            && forall r :: r in plan.rooms ==> NothingToDo(m, faults, r, plan.rooms[r])
  {
    var n := Replan(m, WorldAfter(m, run), faults, leave);
    ReplannedGlobals(m, run, faults, leave);
    PlanGlobals(n);
    hide CleanRun, Migration.FinalPlan, AfterLeaves, NothingToDo;
    forall r | r in n.FinalPlan().rooms
      ensures NothingToDo(m, faults, r, n.FinalPlan().rooms[r])
    {
      ReplannedEntry(m, run, faults, leave, r);
    }
  }

  lemma ReplannedEntry(m: Migration, run: Run, faults: set<Read>, leave: bool, r: RoomId)
    requires m.ListsJoinedRooms() && CleanRun(m, run) && m.faults <= faults
    requires r in Replan(m, WorldAfter(m, run), faults, leave).FinalPlan().rooms
    ensures NothingToDo(m, faults, r, Replan(m, WorldAfter(m, run), faults, leave).FinalPlan().rooms[r])
  {
    hide CleanRun, Migration.FinalPlan, AfterLeaves, Migration.RoomPlanFor, Migration.RoomErrors, MigratedAsPlanned;
    hide OldUserSeenAsCreator, SameCreatorReads;
    var n := Replan(m, WorldAfter(m, run), faults, leave);
    PlannedActions(n, r);
    ReplannedRoom(m, run, faults, leave, r);
    RoomNotReplanned(m, n, r);
    EntryOfFinalPlan(n, r);
    EntryOfFinalPlan(m, r);
    ReplannedGlobals(m, run, faults, leave);
    RoomPlanErrors(m, r);
    RoomPlanErrors(n, r);
  }

  lemma RoomPlanErrors(m: Migration, r: RoomId)
    ensures m.RoomPlanFor(r).errors == m.RoomErrors(r)
  {
  }

  /**
    The exception, exactly: with the same failing reads, a room is proposed a
    power level again if and only if it was proposed one in place of the infinite
    level of the old user, whom planning saw to be a creator.
   */
  lemma PowerLevelReplannedIffApproximated(m: Migration, run: Run, leave: bool, r: RoomId)
    requires m.ListsJoinedRooms() && CleanRun(m, run)
    requires r in WorldAfter(m, run).JoinedRooms(m.oldUser)
    ensures var again := EntryOf(Replan(m, WorldAfter(m, run), m.faults, leave).FinalPlan(), r);
            again.powerLevel.Some? <==> OldUserSeenAsCreator(m, r) && EntryOf(m.FinalPlan(), r).powerLevel.Some?
  {
    hide CleanRun, Migration.FinalPlan, AfterLeaves, Migration.RoomErrors, MigratedAsPlanned;
    var n := Replan(m, WorldAfter(m, run), m.faults, leave);
    ReplannedRoom(m, run, m.faults, leave, r);
    hide Migration.RoomPlanFor;
    RoomNotReplanned(m, n, r);
    EntryOfFinalPlan(n, r);
    EntryOfFinalPlan(m, r);
  }
}
