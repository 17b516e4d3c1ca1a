/**
  Leaving is safe. Whenever a run of a plan asks for the old user to leave a
  room, everything of that room that can be migrated has been: whatever the
  server was like, whichever reads failed while planning, and whichever requests
  fail while executing. For the power level this takes that planning saw who is
  a creator; the condition is exact.
 */
module LeaveSafety {
  import opened Wrappers
  import opened Ordering
  import opened JsonMerge
  import opened Homeserver
  import opened Planning
  import opened PlanProperties
  import opened Trace
  import opened Effects

  // What is not lost

  function TagsIn(data: AccountData): JsonMap {
    match FetchTags(data)
    case Success(Some(tags)) => tags
    case _ => map[]
  }

  function IgnoredIn(data: AccountData): JsonMap {
    match FetchIgnored(data)
    case Success(Some(entries)) => entries
    case _ => map[]
  }

  function DirectIn(data: AccountData): Direct {
    match FetchDirect(data)
    case Success(Some(direct)) => direct
    case _ => map[]
  }

  ghost predicate Submap(a: JsonMap, b: JsonMap) {
    forall k :: k in a ==> k in b && b[k] == a[k]
  }

  ghost predicate NewUserIsIn(m: Migration, w: World, r: RoomId) {
    w.MembershipOf(r, m.newUser) == Some(Joined)
  }

  /** By the levels that the server enforces. */
  ghost predicate PowerKept(m: Migration, w: World, r: RoomId) {
    var levels := w.RoomOf(r).TrueLevels();
    !levels.ForUser(m.newUser).Less(levels.ForUser(m.oldUser))
  }

  ghost predicate TagsKept(m: Migration, w: World, r: RoomId) {
    && FetchTags(w.RoomData(m.oldUser, r)).Success?
    && Submap(TagsIn(w.RoomData(m.oldUser, r)), TagsIn(w.RoomData(m.newUser, r)))
  }

  ghost predicate HistoryVisible(w: World, r: RoomId) {
    var visibility := w.RoomOf(r).visibility;
    visibility.None? || visibility.value.Shared? || visibility.value.WorldReadable?
  }

  ghost predicate IgnoredKept(m: Migration, w: World) {
    && FetchIgnored(w.Global(m.oldUser)).Success?
    && Submap(IgnoredIn(w.Global(m.oldUser)), IgnoredIn(w.Global(m.newUser)))
  }

  /** Direct messages with anybody but the new user, in the rooms the new user was to be in. */
  ghost predicate DirectKept(m: Migration, w: World) {
    && FetchDirect(w.Global(m.oldUser)).Success?
    && forall u, r :: u != m.newUser && r in RoomsWith(DirectIn(w.Global(m.oldUser)), u) && r in m.Destinations() ==>
         r in RoomsWith(DirectIn(w.Global(m.newUser)), u)
  }

  /** Everything but the power level. */
  ghost predicate RestKept(m: Migration, w: World, r: RoomId) {
    && NewUserIsIn(m, w, r)
    && TagsKept(m, w, r)
    && HistoryVisible(w, r)
    && IgnoredKept(m, w)
    && DirectKept(m, w)
  }

  ghost predicate NothingLost(m: Migration, w: World, r: RoomId) {
    RestKept(m, w, r) && PowerKept(m, w, r)
  }

  /** Those whose level comes from creating the room, and not from an event. */
  function CreatorsByRule(room: Room): set<UserId> {
    if room.levels.None? then room.Creators() else room.Infinite()
  }

  /** Planning sees that only the old user has the finite level of a creator, and gives it to the new user. */
  predicate RaisedToCreator(m: Migration, r: RoomId) {
    var room := m.world.RoomOf(r);
    && room.levels.None? && !room.PrivilegesCreators()
    && m.oldUser in m.SeenFinite(r) && m.newUser !in m.SeenFinite(r)
  }

  /**
    What planning has to see of the creators of `r` before the old user may be
    taken out of it. The level of a creator stays behind unless the new user is
    one as well, or can be given it; and a new user who passes for an infinite
    creator without being one is not given the level it lacks.
   */
  predicate CreatorsAccounted(m: Migration, r: RoomId) {
    var room := m.world.RoomOf(r);
    if m.newUser in CreatorsByRule(room) then true
    else if m.oldUser in CreatorsByRule(room) then RaisedToCreator(m, r)
    else room.levels.Some? && m.newUser in m.SeenPrivileged(r) ==>
           room.levels.value.LevelOf(m.oldUser) <= room.levels.value.LevelOf(m.newUser)
  }

  /**
    Where creators have no infinite level, and the version does not say 12, there
    is nothing to see if an event sets levels. If none does, a creator has to be
    named in the create event, the event to be read, and the new user not named.
   */
  lemma CreatorsAccountedBelow12(m: Migration, r: RoomId)
    requires !m.world.RoomOf(r).PrivilegesCreators() && m.world.RoomOf(r).Version() != Some(KNOWN_PRIVILEGING_VERSION)
    ensures var room := m.world.RoomOf(r);
            CreatorsAccounted(m, r) <==>
              || room.levels.Some?
              || m.oldUser !in room.Creators() || m.newUser in room.Creators()
              || (ReadCreators(r) !in m.faults && m.oldUser in room.NamedCreators() && m.newUser !in room.NamedCreators())
  {
  }

  /** It is enough that planning resolves the levels of the two users as the server does. */
  lemma CreatorsAccountedIfSeen(m: Migration, r: RoomId)
    requires m.RoomPowerErrors(r) == []
    requires forall u :: u == m.oldUser || u == m.newUser ==>
               m.SeenLevels(r).ForUser(u) == m.world.RoomOf(r).TrueLevels().ForUser(u)
    ensures CreatorsAccounted(m, r)
  {
    assert m.PowerLevelErrors(m.SeenLevels(r)) == [];
    assert !m.SeenLevels(r).ForUser(m.oldUser).Infinite?;
    assert m.SeenLevels(r).ForUser(m.newUser) == m.world.RoomOf(r).TrueLevels().ForUser(m.newUser);
  }

  // The world during the leaves

  /** The world after the first `j` leaves of a run. */
  function AfterLeaves(w: World, run: Run, j: nat): World
    requires j <= |run.leaves|
  {
    Replay(w, Flatten(run.migrations) + run.globals + run.leaves[..j])
  }

  lemma UndisturbedMigrations(w: World, run: Run)
    requires Undisturbed(w, run.Trace())
    ensures Undisturbed(w, Flatten(run.migrations))
  {
    assert run.Trace() == Flatten(run.migrations) + (run.globals + run.leaves);
    UndisturbedConcat(w, Flatten(run.migrations), run.globals + run.leaves);
  }

  lemma AfterLeavesSplit(w: World, run: Run, j: nat)
    requires j <= |run.leaves|
    ensures AfterLeaves(w, run, j) == Replay(Replay(Replay(w, Flatten(run.migrations)), run.globals), run.leaves[..j])
  {
    ReplayConcat(w, Flatten(run.migrations) + run.globals, run.leaves[..j]);
    ReplayConcat(w, Flatten(run.migrations), run.globals);
  }

  /** Global writes and leaves of other rooms leave a migrated room as it was. */
  lemma RoomDuringLeaves(w: World, plan: Plan, run: Run, i: nat, j: nat)
    requires RunOf(plan, run) && Undisturbed(w, run.Trace())
    requires i < |run.migrations| && AllDone(run.migrations[i]) && j <= |run.leaves|
    requires forall k :: 0 <= k < j ==> !run.leaves[k].op.Concerns(RoomOrder(plan)[i])
    ensures var r := RoomOrder(plan)[i];
            MigrationApplied(plan, r, plan.rooms[r], w, AfterLeaves(w, run, j))
  {
    hide Undisturbed, MigratesRooms, AfterLeaves, Replay;
    var r := RoomOrder(plan)[i];
    UndisturbedMigrations(w, run);
    MigratedRoomApplied(w, plan, run.migrations, i);
    AfterLeavesSplit(w, run, j);
    var w1 := Replay(w, Flatten(run.migrations));
    ReplayFrameRoom(w1, run.globals, r);
    ReplayFrameRoom(Replay(w1, run.globals), run.leaves[..j], r);
  }

  /** Only the global writes change global account data. */
  lemma GlobalsDuringLeaves(w: World, plan: Plan, run: Run, j: nat)
    requires RunOf(plan, run) && AllDone(run.globals) && j <= |run.leaves|
    ensures GlobalsApplied(plan, w, AfterLeaves(w, run, j))
  {
    hide AfterLeaves, Replay, World.Global, Makes, MigratesRooms, LeaveOps, GlobalOps, SortedKeys, Picked, LeavesOneOf;
    AfterLeavesSplit(w, run, j);
    MigrationsSetNoGlobals(plan, run.migrations);
    ReplayFrameGlobals(w, Flatten(run.migrations));
    var w1 := Replay(w, Flatten(run.migrations));
    var data := plan.globalAccountData;
    GlobalEffect(w1, plan.newUserId, data, SortedKeys(data.Keys), run.globals);
    PickedAll(data);
    LeavesAreLeaves(plan, run);
    hide RunOf;
    ReplayFrameGlobals(Replay(w1, run.globals), run.leaves[..j]);
  }

  lemma GlobalsAreGlobal(plan: Plan, run: Run)
    requires RunOf(plan, run)
    ensures forall i :: 0 <= i < |run.globals| ==> run.globals[i].op.SetGlobal?
    ensures forall x :: x in run.globals ==> x.op.SetGlobal?
  {
    hide MigratesRooms, LeaveOps;
  }

  lemma LeavesAreLeaves(plan: Plan, run: Run)
    requires RunOf(plan, run)
    ensures forall k :: 0 <= k < |run.leaves| ==>
              && run.leaves[k].op.Leave? && AllDone(run.globals)
              && LeavesOneOf(plan, run.migrations, |run.migrations|, run.leaves[k].op)
    ensures forall k, l :: 0 <= k < l < |run.leaves| ==>
              Below(run.leaves[k].op.room, run.leaves[l].op.room) && run.leaves[k].op.room != run.leaves[l].op.room
  {
    if AllDone(run.globals) {
      var n := |run.migrations|;
      var ops := LeaveOps(plan, run.migrations, n);
      LeaveOpsDistinct(plan, run.migrations, n);
      BelowIrreflexive();
      forall k | 0 <= k < |run.leaves|
        ensures run.leaves[k].op.Leave? && LeavesOneOf(plan, run.migrations, n, run.leaves[k].op)
      {
        assert run.leaves[k].op == ops[k] && ops[k] in ops;
        LeaveOpsExact(plan, run.migrations, n, ops[k]);
      }
    }
  }

  /** The room of the `j`-th leave, as an index into the room order. */
  lemma LeaveIndex(plan: Plan, run: Run, j: nat) returns (i: nat)
    requires RunOf(plan, run) && j < |run.leaves|
    ensures i < |run.migrations| == |RoomOrder(plan)| && LeavesRoom(plan, run.migrations, i, run.leaves[j].op)
  {
    LeavesAreLeaves(plan, run);
    hide MigratesRooms, LeaveOps, SortedKeys;
    i :| 0 <= i < |run.migrations| && LeavesRoom(plan, run.migrations, i, run.leaves[j].op);
  }

  // From an error-free room plan to a safe room

  /** Without a power level error, power is kept exactly when the creators were seen well enough. */
  lemma PowerSafe(m: Migration, r: RoomId, after: Room, creators: set<UserId>)
    requires m.RoomPowerErrors(r) == [] && after.create == m.world.RoomOf(r).create && after.stateDefault == m.world.RoomOf(r).stateDefault
    requires after.levels == if m.RoomPowerLevel(r).Some?
                             then Some(WithLevel(m.world.RoomOf(r).LevelsRead(creators), m.newUser, m.RoomPowerLevel(r).value))
                             else m.world.RoomOf(r).levels
    ensures var levels := after.TrueLevels();
            !levels.ForUser(m.newUser).Less(levels.ForUser(m.oldUser)) <==> CreatorsAccounted(m, r)
  {
    assert m.PowerLevelErrors(m.SeenLevels(r)) == [];
    assert !m.SeenLevels(r).ForUser(m.oldUser).Infinite?;
    var before := m.world.RoomOf(r);
    assert after.Infinite() == before.Infinite() && after.Creators() == before.Creators();
    hide Migration.RoomPowerErrors, Migration.PowerLevelErrors, Room.Infinite, Room.Creators;
  }

  ghost predicate BothTagsRead(m: Migration, r: RoomId) {
    m.GetTags(OldUser, r).Success? && m.GetTags(OldUser, r).value.Some? && m.GetTags(NewUser, r).Success?
  }

  /** What readers of the new user's tags see once the planned write is made. */
  lemma TagsWritten(m: Migration, r: RoomId, newData: AccountData)
    requires BothTagsRead(m, r) && newData == m.world.RoomData(m.newUser, r)
    ensures var from, into := m.GetTags(OldUser, r).value.value, m.GetTags(NewUser, r).value.GetOr(map[]);
            && FetchTags(m.world.RoomData(m.oldUser, r)) == Success(Some(from))
            && FetchTags(newData + m.RoomTags(r)).Success?
            && TagsIn(newData + m.RoomTags(r)) == FetchTags(newData + m.RoomTags(r)).value.GetOr(map[]) == MergeResult(from, into)
            && |m.RoomTagErrors(r)| == |Conflicts(from, into)|
  {
    hide World.RoomData, Conflicts;
  }

  lemma TagsSafe(m: Migration, r: RoomId, oldData: AccountData, newData: AccountData)
    requires m.RoomTagErrors(r) == []
    requires oldData == m.world.RoomData(m.oldUser, r) && newData == m.world.RoomData(m.newUser, r)
    ensures FetchTags(oldData).Success?
    ensures Submap(TagsIn(oldData), TagsIn(newData + m.RoomTags(r)))
  {
    hide Conflicts, MergeResult, World.RoomData;
    if BothTagsRead(m, r) {
      TagsWritten(m, r, newData);
      NoConflictsIffSubmap(m.GetTags(OldUser, r).value.value, m.GetTags(NewUser, r).value.GetOr(map[]));
    } else {
      assert FetchTags(oldData) == Success(None);
    }
  }

  /** What readers of the global account data see once the planned writes are made. */
  lemma GlobalDataEntries(m: Migration, base: AccountData)
    ensures FetchIgnored(base + m.GlobalData()) ==
            if m.IgnoredToSet().Some? then Success(Some(m.IgnoredToSet().value)) else FetchIgnored(base)
    ensures FetchDirect(base + m.GlobalData()) ==
            if m.DirectToSet().Some? then Success(Some(m.DirectToSet().value)) else FetchDirect(base)
  {
    hide Migration.IgnoredToSet, Migration.DirectToSet;
    assert |DIRECT| != |IGNORED_USER_LIST|;
  }

  lemma IgnoredSafe(m: Migration, oldData: AccountData, newData: AccountData, added: AccountData)
    requires m.IgnoredErrors() == []
    requires oldData == m.world.Global(m.oldUser) && newData == m.world.Global(m.newUser)
    requires added == m.GlobalData()
    ensures FetchIgnored(oldData).Success?
    ensures Submap(IgnoredIn(oldData), IgnoredIn(newData + added))
  {
    hide Migration.GlobalData, Migration.DirectToSet, Conflicts, World.Global;
    assert m.GetIgnored(OldUser).Success?;
    if m.GetIgnored(OldUser).value.Some? {
      assert m.GetIgnored(NewUser).Success?;
      var from, into := m.GetIgnored(OldUser).value.value, m.GetIgnored(NewUser).value.GetOr(map[]);
      assert |m.IgnoredErrors()| == |Conflicts(from, into)|;
      NoConflictsIffSubmap(from, into);
      GlobalDataEntries(m, newData);
      hide Submap;
      assert IgnoredIn(newData + added) == MergeResult(from, into);
    }
  }

  lemma DirectSafe(m: Migration, oldData: AccountData, newData: AccountData, added: AccountData, u: UserId, r: RoomId)
    requires m.DirectErrors() == []
    requires oldData == m.world.Global(m.oldUser) && newData == m.world.Global(m.newUser)
    requires added == m.GlobalData()
    ensures FetchDirect(oldData).Success?
    ensures u != m.newUser && r in RoomsWith(DirectIn(oldData), u) && r in m.Destinations() ==>
              r in RoomsWith(DirectIn(newData + added), u)
  {
    assert m.GetDirect(OldUser).Success?;
    if m.GetDirect(OldUser).value.Some? {
      assert m.GetDirect(NewUser).Success?;
      var from, into := m.GetDirect(OldUser).value.value, m.GetDirect(NewUser).value.GetOr(map[]);
      var merged := MergedDirect(from, into, m.newUser, m.Destinations());
      MergedDirectExact(from, into, m.newUser, m.Destinations());
      GlobalDataEntries(m, newData);
      hide Migration.GlobalData, Migration.IgnoredToSet, MergedDirect;
      assert DirectIn(newData + added) == merged.GetOr(into);
    }
  }

  lemma RoomSafe(m: Migration, plan: Plan, r: RoomId, room: RoomPlan, w: World)
    requires m.ListsJoinedRooms() && r in m.oldJoined && m.RoomErrors(r) == []
    requires plan.newUserId == m.newUser
    requires var planned := m.RoomPlanFor(r);
             room.invite == planned.invite && room.join == planned.join
             && room.powerLevel == planned.powerLevel && room.accountData == planned.accountData
    requires MigrationApplied(plan, r, room, m.world, w)
    ensures NewUserIsIn(m, w, r) && TagsKept(m, w, r) && HistoryVisible(w, r)
    ensures PowerKept(m, w, r) <==> CreatorsAccounted(m, r)
  {
    assert m.EndsJoined(r) by {
      OnlyJoinErrorsRefuse(m, r);
    }
    hide Migration.RoomPowerErrors, Migration.RoomPowerLevel, Migration.RoomTags, Migration.RoomTagErrors;
    hide Migration.JoinOutcome, Submap, TagsIn, FetchTags, CreatorsAccounted;
    assert m.RoomPowerErrors(r) == [] && m.RoomTagErrors(r) == [];
    assert m.VisibilityErrors(r, r !in m.newJoined) == [];
    var creators := if w.RoomOf(r) == RoomAfter(plan, room, m.world.RoomOf(r), {}) then {} else m.world.RoomOf(r).NamedCreators();
    PowerSafe(m, r, w.RoomOf(r), creators);
    TagsSafe(m, r, m.world.RoomData(m.oldUser, r), m.world.RoomData(m.newUser, r));
    if m.oldUser == m.newUser {
      SubmapReflexive(w.RoomData(m.oldUser, r), m.world.RoomData(m.oldUser, r), m.RoomTags(r));
      SameTagsNotWritten(m, r);
    }
  }

  lemma SubmapReflexive(data: AccountData, before: AccountData, added: AccountData)
    ensures Submap(TagsIn(data), TagsIn(data))
    ensures added == map[] ==> before + added == before
  {
    if added == map[] {
      assert before + added == before;
    }
  }

  /** With one user in both roles there is nothing to copy. */
  lemma SameTagsNotWritten(m: Migration, r: RoomId)
    requires m.oldUser == m.newUser
    ensures m.RoomTags(r) == map[]
  {
  }

  lemma SameGlobalsNotWritten(m: Migration)
    requires m.oldUser == m.newUser
    ensures m.GlobalData() == map[]
  {
    if m.GetDirect(OldUser).Success? && m.GetDirect(OldUser).value.Some? {
      var direct := m.GetDirect(OldUser).value.value;
      MergedDirectExact(direct, direct, m.newUser, m.Destinations());
    }
  }

  lemma GlobalsSafe(m: Migration, plan: Plan, w: World)
    requires m.GlobalErrors() == [] && plan == m.FinalPlan()
    requires GlobalsApplied(plan, m.world, w)
    ensures IgnoredKept(m, w) && DirectKept(m, w)
  {
    var oldData, newData, added := m.world.Global(m.oldUser), m.world.Global(m.newUser), m.GlobalData();
    hide Migration.GlobalData, Migration.IgnoredErrors, Migration.DirectErrors, World.Global, IgnoredIn, DirectIn;
    hide Migration.FinalRooms, FetchIgnored, FetchDirect;
    assert m.DirectErrors() == [] && m.IgnoredErrors() == [];
    IgnoredSafe(m, oldData, newData, added);
    assert w.Global(m.newUser) == newData + added;
    DirectSafe(m, oldData, newData, added, m.newUser, []);
    forall u, r
      ensures u != m.newUser && r in RoomsWith(DirectIn(oldData), u) && r in m.Destinations() ==>
                r in RoomsWith(DirectIn(newData + added), u)
    {
      DirectSafe(m, oldData, newData, added, u, r);
    }
    if m.oldUser == m.newUser {
      SameGlobalsNotWritten(m);
      assert newData + added == oldData;
    }
  }

  /**
    LEAVE SAFETY. When a run of the plan makes its `j`-th request to leave, of
    room `r`, the new user is in `r` with all of the old user's tags, ignored
    users and reachable direct messages, and the history of `r` is not
    restricted to those who were there. The new user has at least the old
    user's power by the server's levels if and only if the creators of `r` were
    accounted for.
   */
  lemma LeaveIsSafe(m: Migration, run: Run, j: nat)
    requires m.ListsJoinedRooms()
    requires RunOf(m.FinalPlan(), run) && Undisturbed(m.world, run.Trace())
    requires j < |run.leaves|
    ensures run.leaves[j].op.Leave? && run.leaves[j].op.user == m.oldUser
    ensures RestKept(m, AfterLeaves(m.world, run, j), run.leaves[j].op.room)
    ensures NothingLost(m, AfterLeaves(m.world, run, j), run.leaves[j].op.room) <==> CreatorsAccounted(m, run.leaves[j].op.room)
  {
    LeftRoomStaysSafe(m, run, j, j);
  }

  /** The same at every moment of the leaves up to the leave itself. */
  lemma LeftRoomStaysSafe(m: Migration, run: Run, j: nat, k: nat)
    requires m.ListsJoinedRooms()
    requires RunOf(m.FinalPlan(), run) && Undisturbed(m.world, run.Trace())
    requires k <= j < |run.leaves|
    ensures run.leaves[j].op.Leave? && run.leaves[j].op.user == m.oldUser
    ensures RestKept(m, AfterLeaves(m.world, run, k), run.leaves[j].op.room)
    ensures NothingLost(m, AfterLeaves(m.world, run, k), run.leaves[j].op.room) <==> CreatorsAccounted(m, run.leaves[j].op.room)
  {
    hide Migration.FinalPlan, RunOf, Undisturbed, AfterLeaves, CreatorsAccounted, PowerKept, TagsKept, HistoryVisible;
    hide IgnoredKept, DirectKept, MigrationApplied;
    var plan := m.FinalPlan();
    LeavesAreLeaves(plan, run);
    var i := LeaveIndex(plan, run, j);
    var r := RoomOrder(plan)[i];
    PlannedLeave(m, r);
    var w := AfterLeaves(m.world, run, k);
    RoomDuringLeaves(m.world, plan, run, i, k);
    RoomSafe(m, plan, r, plan.rooms[r], w);
    GlobalsDuringLeaves(m.world, plan, run, k);
    GlobalsSafe(m, plan, w);
  }

  lemma PlannedLeave(m: Migration, r: RoomId)
    requires r in m.FinalPlan().rooms && m.FinalPlan().rooms[r].leave
    ensures r in m.oldJoined && m.RoomErrors(r) == [] && m.GlobalErrors() == [] && m.leave
    ensures m.FinalPlan().newUserId == m.newUser && m.FinalPlan().oldUserId == m.oldUser
    ensures var room, planned := m.FinalPlan().rooms[r], m.RoomPlanFor(r);
            room.invite == planned.invite && room.join == planned.join
            && room.powerLevel == planned.powerLevel && room.accountData == planned.accountData
  {
    assert r in m.MarkedRooms();
    EntryOfFinalPlan(m, r);
  }

  /**
    At the end of the run nothing is lost of a room that was left, exactly when
    the creators were accounted for and the two users differ. The code does not
    check that they do.
   */
  lemma NothingLostAtEndExactly(m: Migration, run: Run, j: nat)
    requires m.ListsJoinedRooms()
    requires RunOf(m.FinalPlan(), run) && Undisturbed(m.world, run.Trace())
    requires j < |run.leaves| && run.leaves[j].outcome.Done?
    ensures run.leaves[j].op.Leave?
    ensures NothingLost(m, AfterLeaves(m.world, run, |run.leaves|), run.leaves[j].op.room) <==>
            m.oldUser != m.newUser && CreatorsAccounted(m, run.leaves[j].op.room)
  {
    hide Migration.FinalPlan, RunOf, Undisturbed, AfterLeaves, IgnoredKept, DirectKept, CreatorsAccounted;
    LeaveIsSafe(m, run, j);
    GlobalsSafeAtEnd(m, run, j);
    LeavesAreLeaves(m.FinalPlan(), run);
    var r := run.leaves[j].op.room;
    var before, after := AfterLeaves(m.world, run, j), AfterLeaves(m.world, run, j + 1);
    AfterLeavesStep(m.world, run, j);
    LeavingKeeps(m, before, after, r);
    hide TagsKept, PowerKept;
    AfterLeavesFrame(m.world, run, j + 1, |run.leaves|, r);
    KeptAcross(m, after, AfterLeaves(m.world, run, |run.leaves|), r);
  }

  lemma KeptAcross(m: Migration, a: World, b: World, r: RoomId)
    requires SameAbout(r, a, b)
    ensures NewUserIsIn(m, a, r) <==> NewUserIsIn(m, b, r)
    ensures PowerKept(m, a, r) <==> PowerKept(m, b, r)
    ensures TagsKept(m, a, r) && HistoryVisible(a, r) ==> TagsKept(m, b, r) && HistoryVisible(b, r)
  {
    hide FetchTags;
  }

  lemma GlobalsSafeAtEnd(m: Migration, run: Run, j: nat)
    requires RunOf(m.FinalPlan(), run) && j < |run.leaves|
    ensures IgnoredKept(m, AfterLeaves(m.world, run, |run.leaves|)) && DirectKept(m, AfterLeaves(m.world, run, |run.leaves|))
  {
    hide Migration.FinalPlan, RunOf, AfterLeaves, IgnoredKept, DirectKept;
    var plan := m.FinalPlan();
    LeavesAreLeaves(plan, run);
    var i := LeaveIndex(plan, run, j);
    PlannedLeave(m, RoomOrder(plan)[i]);
    GlobalsDuringLeaves(m.world, plan, run, |run.leaves|);
    GlobalsSafe(m, plan, AfterLeaves(m.world, run, |run.leaves|));
  }

  lemma LeavingKeeps(m: Migration, before: World, after: World, r: RoomId)
    requires after == before.SetMembership(r, m.oldUser, Left)
    requires NewUserIsIn(m, before, r) && TagsKept(m, before, r) && HistoryVisible(before, r)
    ensures NewUserIsIn(m, after, r) <==> m.oldUser != m.newUser
    ensures PowerKept(m, after, r) <==> PowerKept(m, before, r)
    ensures TagsKept(m, after, r) && HistoryVisible(after, r)
  {
    MembershipEffect(before, r, m.oldUser, Left);
    hide World.SetMembership, World.RoomData, FetchTags;
  }

  lemma AfterLeavesStep(w: World, run: Run, j: nat)
    requires j < |run.leaves|
    ensures AfterLeaves(w, run, j + 1) == run.leaves[j].Effect(AfterLeaves(w, run, j))
  {
    var t := Flatten(run.migrations) + run.globals;
    assert t + run.leaves[..j + 1] == t + run.leaves[..j] + [run.leaves[j]];
    ReplayLast(w, t + run.leaves[..j + 1], t + run.leaves[..j], run.leaves[j]);
  }

  lemma {:induction false} AfterLeavesFrame(w: World, run: Run, j: nat, k: nat, r: RoomId)
    requires j <= k <= |run.leaves|
    requires forall i :: j <= i < k ==> !run.leaves[i].op.Concerns(r)
    ensures SameAbout(r, AfterLeaves(w, run, j), AfterLeaves(w, run, k))
  {
    if j < k {
      AfterLeavesFrame(w, run, j, k - 1, r);
      AfterLeavesStep(w, run, k - 1);
      EffectFrame(AfterLeaves(w, run, k - 1), run.leaves[k - 1], r);
    }
  }
}
