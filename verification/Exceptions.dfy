/**
  Examples of what planning does not look at: worlds whose plans make a clean run
  that leaves a room with less power, and worlds whose plans make requests that a
  server rejects.
 */
module Exceptions {
  import opened Wrappers
  import opened Homeserver
  import opened Planning
  import opened PlanProperties
  import opened Trace
  import opened LeaveSafety
  import opened Permissions
  import opened Replanning
  import opened CleanRuns
  import opened EnforcedRuns

  // In every migration

  /** A room planned without an error, whose creators are not accounted for, is left all the same. */
  lemma LeftWithLessPower(m: Migration, run: Run, r: RoomId) returns (j: nat)
    requires m.ListsJoinedRooms() && CleanRun(m, run) && r in m.oldJoined && m.MarksLeaves()
    requires m.RoomErrors(r) == [] && !CreatorsAccounted(m, r)
    ensures j < |run.leaves| && run.leaves[j].op == Leave(r, m.oldUser)
    ensures !PowerKept(m, AfterLeaves(m.world, run, j), r)
  {
    CleanParts(m, run);
    hide Migration.FinalPlan, RunOf, Undisturbed, AfterLeaves, CreatorsAccounted, Migration.RoomErrors, PowerKept;
    EntryOfFinalPlan(m, r);
    RoomPlanErrors(m, r);
    PlanUsers(m);
    j := MarkedRoomLeave(m.FinalPlan(), run, r);
    LeaveIsSafe(m, run, j);
  }

  // Examples

  const OLD := "@old"
  const NEW := "@new"
  const OTHER := "@other"
  const ROOM := "!room"

  const BOTH_JOINED := EMPTY_ROOM.(members := map[OLD := Joined, NEW := Joined])
  const OLD_JOINED := EMPTY_ROOM.(members := map[OLD := Joined])

  /** Two users without account data and one room, in which the old user is. */
  function Example(state: Room, faults: set<Read>): Migration {
    Migration(World(map[ROOM := state], map[]), faults, OLD, NEW, {ROOM}, if NEW in state.members then {ROOM} else {}, true)
  }

  predicate OfCreateEvent(faults: set<Read>) {
    faults <= {ReadCreators(ROOM), ReadRoomVersion(ROOM)}
  }

  lemma UserNames()
    ensures OLD != NEW && OLD != OTHER && NEW != OTHER
  {
    assert OLD[1] != NEW[1] && OLD[2] != OTHER[2] && NEW[1] != OTHER[1];
  }

  lemma ExampleListsRooms(state: Room, faults: set<Read>)
    requires state.members == BOTH_JOINED.members || state.members == OLD_JOINED.members
    ensures Example(state, faults).ListsJoinedRooms() && ROOM in Example(state, faults).oldJoined
    ensures Example(state, faults).world.RoomOf(ROOM) == state
  {
    UserNames();
  }

  /** Only power levels and joining can be at fault. */
  lemma ExampleErrors(state: Room, faults: set<Read>)
    requires OfCreateEvent(faults) && state.visibility == None
    ensures var m := Example(state, faults);
            && m.MarksLeaves()
            && m.RoomErrors(ROOM) == m.PowerLevelErrors(m.SeenLevels(ROOM)) + m.JoinErrors(ROOM)
            && m.RoomPowerLevel(ROOM) == m.PowerLevelToSet(m.SeenLevels(ROOM))
  {
    var m := Example(state, faults);
    hide Migration.JoinErrors, Migration.PowerLevelErrors, Migration.PowerLevelToSet, Migration.SeenLevels;
    assert m.RoomTagErrors(ROOM) == [] && m.VisibilityErrors(ROOM, ROOM !in m.newJoined) == [];
  }

  lemma ExampleWellFormed(state: Room, faults: set<Read>)
    requires state.TrueLevels().WellFormed()
    ensures WellFormedLevels(Example(state, faults).world)
  {
  }

  /** The leave of the example, if planning sees no error and not all that there is to see. */
  lemma ExampleIsLeft(state: Room, faults: set<Read>) returns (run: Run, j: nat)
    requires OfCreateEvent(faults) && state.visibility == None && state.members == BOTH_JOINED.members
    requires var m := Example(state, faults);
             m.PowerLevelErrors(m.SeenLevels(ROOM)) == [] && !CreatorsAccounted(m, ROOM)
    ensures var m := Example(state, faults);
            && CleanRun(m, run) && j < |run.leaves| && run.leaves[j].op == Leave(ROOM, OLD)
            && !PowerKept(m, AfterLeaves(m.world, run, j), ROOM)
  {
    hide CleanRun, PowerKept, AfterLeaves, CreatorsAccounted, Migration.PowerLevelErrors, Migration.SeenLevels;
    hide Migration.RoomErrors, Migration.MarksLeaves, Migration.ListsJoinedRooms;
    var m := Example(state, faults);
    ExampleListsRooms(state, faults);
    ExampleErrors(state, faults);
    assert m.JoinErrors(ROOM) == [] by {
      UserNames();
    }
    run := EveryPlanHasCleanRun(m);
    j := LeftWithLessPower(m, run, ROOM);
  }

  /** The write of a level in the example, both users being in the room. */
  lemma ExampleWriteIsRejected(state: Room) returns (run: Run, k: nat, written: LevelsEvent)
    requires state.visibility == None && state.members == BOTH_JOINED.members && state.TrueLevels().WellFormed()
    requires var m := Example(state, {});
             m.PowerLevelToSet(m.SeenLevels(ROOM)).Some? && forall levels :: !WriteAdmitted(m, ROOM, levels)
    ensures EnforcedRun(Example(state, {}), run) && RejectedAt(run, k, WriteLevels(ROOM, OLD, written))
  {
    hide EnforcedRun, RejectedAt, WriteAdmitted, Migration.PowerLevelToSet, Migration.SeenLevels, Migration.ListsJoinedRooms;
    hide WellFormedLevels, Migration.RoomPowerLevel, Migration.RoomErrors;
    var m := Example(state, {});
    ExampleListsRooms(state, {});
    ExampleErrors(state, {});
    ExampleWellFormed(state, {});
    assert ROOM in m.newJoined;
    run := EveryPlanHasEnforcedRun(m);
    k, written := UnadmittedWriteIsRejected(m, run, ROOM);
  }

  /** An invite is planned when planning sees the level for it. */
  lemma ExampleJoins(state: Room)
    requires state.members == OLD_JOINED.members && state.acl == None && state.joinRule != Some(Public)
    requires Example(state, {}).SeenLevels(ROOM).CanInvite(OLD)
    ensures var m := Example(state, {});
            m.JoinOutcome(ROOM) == Success(true) && m.PlansJoin(ROOM) && m.RoomPlanFor(ROOM).invite && m.JoinErrors(ROOM) == []
  {
    hide Migration.SeenLevels, PowerLevels.CanInvite, Migration.RoomErrors, Migration.RoomTags, Migration.RoomPowerLevel;
    ExampleListsRooms(state, {});
    UserNames();
    var m := Example(state, {});
    assert m.GetMembership(ROOM) == Success(None);
  }

  /** Room version 12, created by the sender of the create event and those it adds. */
  function Version12(sender: UserId, creator: Option<UserId>, additional: set<UserId>): Option<CreateEvent> {
    Some(CreateEvent(sender, creator, additional, Some(KNOWN_PRIVILEGING_VERSION), PrivilegedCreators))
  }

  /** Room version 11, created by the sender of a create event that names nobody. */
  function Version11(sender: UserId): Option<CreateEvent> {
    Some(CreateEvent(sender, None, {}, Some("11"), SenderCreates))
  }

  /** Room version 10, created by whom the create event names. */
  function Version10(creator: UserId): Option<CreateEvent> {
    Some(CreateEvent(creator, Some(creator), {}, Some("10"), NamedCreator))
  }

  const OLD_AT_50 := Some(LevelsEvent(map[OLD := 50], 0, 0, 50, map[]))

  /** The old user sent the create event, which names nobody: its infinite level is not seen. */
  lemma SenderIsNotSeen() returns (m: Migration, run: Run, j: nat)
    ensures m == Example(BOTH_JOINED.(create := Version12(OLD, None, {})), {})
    ensures CleanRun(m, run) && j < |run.leaves| && run.leaves[j].op == Leave(ROOM, OLD)
    ensures !PowerKept(m, AfterLeaves(m.world, run, j), ROOM)
  {
    var state := BOTH_JOINED.(create := Version12(OLD, None, {}));
    m := Example(state, {});
    assert m.PowerLevelErrors(m.SeenLevels(ROOM)) == [] && !CreatorsAccounted(m, ROOM) by {
      UserNames();
    }
    hide *;
    run, j := ExampleIsLeft(state, {});
  }

  /** The create event names the old user, but one of the two reads of it fails, which goes unnoticed. */
  lemma FailedCreateReadIsNotSeen(read: Read) returns (m: Migration, run: Run, j: nat)
    requires read == ReadCreators(ROOM) || read == ReadRoomVersion(ROOM)
    ensures m == Example(BOTH_JOINED.(create := Version12(OTHER, None, {OLD})), {read})
    ensures CleanRun(m, run) && j < |run.leaves| && run.leaves[j].op == Leave(ROOM, OLD)
    ensures !PowerKept(m, AfterLeaves(m.world, run, j), ROOM)
  {
    var state := BOTH_JOINED.(create := Version12(OTHER, None, {OLD}));
    m := Example(state, {read});
    assert m.PowerLevelErrors(m.SeenLevels(ROOM)) == [] && !CreatorsAccounted(m, ROOM) by {
      UserNames();
    }
    hide *;
    run, j := ExampleIsLeft(state, {read});
  }

  /** The content names as `creator` the new user, who is none and gets no level. */
  lemma FalseCreatorGetsNoLevel() returns (m: Migration, run: Run, j: nat)
    ensures m == Example(BOTH_JOINED.(create := Version12(OTHER, Some(NEW), {}), levels := OLD_AT_50), {})
    ensures CleanRun(m, run) && j < |run.leaves| && run.leaves[j].op == Leave(ROOM, OLD)
    ensures !PowerKept(m, AfterLeaves(m.world, run, j), ROOM)
  {
    var state := BOTH_JOINED.(create := Version12(OTHER, Some(NEW), {}), levels := OLD_AT_50);
    m := Example(state, {});
    assert m.PowerLevelErrors(m.SeenLevels(ROOM)) == [] && !CreatorsAccounted(m, ROOM) by {
      UserNames();
    }
    hide *;
    run, j := ExampleIsLeft(state, {});
  }

  /** Without an event that sets levels, the sender of the create event has level 100: it is not seen. */
  lemma SenderWithoutLevels() returns (m: Migration, run: Run, j: nat)
    ensures m == Example(BOTH_JOINED.(create := Version11(OLD)), {})
    ensures CleanRun(m, run) && j < |run.leaves| && run.leaves[j].op == Leave(ROOM, OLD)
    ensures !PowerKept(m, AfterLeaves(m.world, run, j), ROOM)
  {
    var state := BOTH_JOINED.(create := Version11(OLD));
    m := Example(state, {});
    assert m.PowerLevelErrors(m.SeenLevels(ROOM)) == [] && !CreatorsAccounted(m, ROOM) by {
      UserNames();
    }
    hide *;
    run, j := ExampleIsLeft(state, {});
  }

  /** The same where the creator is named, and the read of the create event fails. */
  lemma NamedCreatorWithoutLevels() returns (m: Migration, run: Run, j: nat)
    ensures m == Example(BOTH_JOINED.(create := Version10(OLD)), {ReadCreators(ROOM)})
    ensures CleanRun(m, run) && j < |run.leaves| && run.leaves[j].op == Leave(ROOM, OLD)
    ensures !PowerKept(m, AfterLeaves(m.world, run, j), ROOM)
  {
    var state := BOTH_JOINED.(create := Version10(OLD));
    m := Example(state, {ReadCreators(ROOM)});
    assert m.PowerLevelErrors(m.SeenLevels(ROOM)) == [] && !CreatorsAccounted(m, ROOM) by {
      UserNames();
    }
    hide *;
    run, j := ExampleIsLeft(state, {ReadCreators(ROOM)});
  }

  /** The write of a level removes a `notifications` entry above the old user's level. */
  lemma NotificationsBlockWrite() returns (m: Migration, run: Run, k: nat, written: LevelsEvent)
    ensures m == Example(BOTH_JOINED.(levels := Some(LevelsEvent(map[OLD := 60], 0, 0, 50, map["room" := 100]))), {})
    ensures EnforcedRun(m, run) && RejectedAt(run, k, WriteLevels(ROOM, OLD, written))
  {
    var state := BOTH_JOINED.(levels := Some(LevelsEvent(map[OLD := 60], 0, 0, 50, map["room" := 100])));
    m := Example(state, {});
    assert m.PowerLevelToSet(m.SeenLevels(ROOM)) == Some(60) && forall levels :: !WriteAdmitted(m, ROOM, levels) by {
      UserNames();
      assert state.levels.value.notifications["room"] == 100;
    }
    hide *;
    run, k, written := ExampleWriteIsRejected(state);
  }

  /** The new user sent the create event, and is to be given a level that no creator may have. */
  lemma CreatorRefusesLevel() returns (m: Migration, run: Run, k: nat, written: LevelsEvent)
    ensures m == Example(BOTH_JOINED.(create := Version12(NEW, None, {}), levels := OLD_AT_50), {})
    ensures EnforcedRun(m, run) && RejectedAt(run, k, WriteLevels(ROOM, OLD, written))
  {
    var state := BOTH_JOINED.(create := Version12(NEW, None, {}), levels := OLD_AT_50);
    m := Example(state, {});
    assert m.PowerLevelToSet(m.SeenLevels(ROOM)) == Some(50) && state.TrueLevels().WellFormed()
           && forall levels :: !WriteAdmitted(m, ROOM, levels) by {
      UserNames();
    }
    hide *;
    run, k, written := ExampleWriteIsRejected(state);
  }

  /** The old user passes for a creator, and invites without having the level for it. */
  lemma FalseCreatorInvites() returns (m: Migration, run: Run, k: nat)
    ensures m == Example(OLD_JOINED.(create := Version12(OTHER, Some(OLD), {}), levels := Some(LevelsEvent(map[], 0, 50, 50, map[]))), {})
    ensures EnforcedRun(m, run) && RejectedAt(run, k, Invite(ROOM, OLD, NEW))
  {
    var state := OLD_JOINED.(create := Version12(OTHER, Some(OLD), {}), levels := Some(LevelsEvent(map[], 0, 50, 50, map[])));
    m := Example(state, {});
    ExampleListsRooms(state, {});
    assert m.SeenLevels(ROOM).CanInvite(OLD) && !InviteAdmitted(m, ROOM) && state.TrueLevels().WellFormed() by {
      UserNames();
    }
    hide *;
    ExampleJoins(state);
    ExampleWellFormed(state, {});
    run := EveryPlanHasEnforcedRun(m);
    k := UnadmittedInviteIsRejected(m, run, ROOM);
  }

  /** A join is planned, without an error, under the rule `private`. */
  lemma JoinUnderPrivateRule() returns (m: Migration, run: Run, k: nat)
    ensures m == Example(OLD_JOINED.(joinRule := Some(Private)), {}) && m.RoomErrors(ROOM) == []
    ensures EnforcedRun(m, run) && RejectedAt(run, k, Join(ROOM, NEW))
  {
    var state := OLD_JOINED.(joinRule := Some(Private));
    m := Example(state, {});
    ExampleListsRooms(state, {});
    assert m.SeenLevels(ROOM).CanInvite(OLD) && !AdmitsInvited(m.world.RoomOf(ROOM).joinRule) && state.TrueLevels().WellFormed();
    assert m.PowerLevelErrors(m.SeenLevels(ROOM)) == [] && InviteAdmitted(m, ROOM);
    hide *;
    ExampleErrors(state, {});
    ExampleJoins(state);
    ExampleWellFormed(state, {});
    run := EveryPlanHasEnforcedRun(m);
    k := UnadmittedJoinIsRejected(m, run, ROOM);
  }
}
