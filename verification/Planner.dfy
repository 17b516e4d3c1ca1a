/** The planner (src/plan.rs), proved to build the plan of `Planning`. */
module Planner {
  import opened Wrappers
  import opened Ordering
  import opened JsonMerge
  import opened Homeserver
  import opened Planning

  /** The rooms of a listing, whatever its order and repetitions. */
  function Listed(rooms: seq<RoomId>): set<RoomId> {
    set r | r in rooms
  }

  class MakePlanState {
    const world: World
    const faults: set<Read>
    const leave: bool
    const oldUserId: UserId
    const newUserId: UserId
    const oldJoinedRooms: seq<RoomId>
    const newJoinedRooms: set<RoomId>
    var plan: Plan

    constructor (world: World, faults: set<Read>, leave: bool, oldUserId: UserId, newUserId: UserId,
                 oldJoinedRooms: seq<RoomId>, newJoinedRooms: set<RoomId>)
      ensures Spec() == Migration(world, faults, oldUserId, newUserId, Listed(oldJoinedRooms), newJoinedRooms, leave)
      ensures this.oldJoinedRooms == oldJoinedRooms
      ensures plan == Plan(oldUserId, newUserId, map[], map[], [])
    {
      this.world := world;
      this.faults := faults;
      this.leave := leave;
      this.oldUserId := oldUserId;
      this.newUserId := newUserId;
      this.oldJoinedRooms := oldJoinedRooms;
      this.newJoinedRooms := newJoinedRooms;
      plan := Plan(oldUserId, newUserId, map[], map[], []);
    }

    function Spec(): Migration {
      Migration(world, faults, oldUserId, newUserId, Listed(oldJoinedRooms), newJoinedRooms, leave)
    }

    predicate WillJoin(room: RoomId)
      reads this
    {
      room in newJoinedRooms || (room in plan.rooms && plan.rooms[room].join)
    }

    method PlanAll()
      requires plan == Plan(oldUserId, newUserId, map[], map[], [])
      modifies this
      ensures plan == Spec().FinalPlan()
    {
      var m := Spec();
      for i := 0 to |oldJoinedRooms|
        invariant plan == Plan(oldUserId, newUserId, plan.rooms, map[], [])
        invariant PlansOf(m, oldJoinedRooms[..i], plan.rooms)
      {
        var roomId := oldJoinedRooms[i];
        var room := PlanRoom(roomId);
        PlansOfStep(m, oldJoinedRooms, i, plan.rooms);
        if room.Some? {
          plan := plan.(rooms := plan.rooms[roomId := room.value]);
        }
      }
      assert oldJoinedRooms[..|oldJoinedRooms|] == oldJoinedRooms;
      PlansOfAll(m, oldJoinedRooms, plan.rooms);
      PlanAccountDataDirect();
      PlanAccountDataIgnoredUsers();
      PlanLeaves();
      GetAliases();
    }

    method PlanRoom(roomId: RoomId) returns (room: Option<RoomPlan>)
      ensures room == if Spec().RoomPlanFor(roomId).IsEmpty() then None else Some(Spec().RoomPlanFor(roomId))
    {
      var result := EMPTY_ROOM_PLAN;
      var powerLevels: Option<PowerLevels> := None;
      var fetched := Spec().GetPowerLevels(roomId);
      if fetched.Success? {
        powerLevels := Some(fetched.value);
      } else {
        result := result.(errors := result.errors + [RoomPlanError.GetPowerLevels]);
      }
      var setPowerLevel: Option<Int> := None;
      if powerLevels.Some? {
        var powerErrors;
        setPowerLevel, powerErrors := PlanPowerLevel(powerLevels.value);
        result := result.(errors := result.errors + powerErrors);
      }
      assert result.errors == Spec().RoomPowerErrors(roomId);

      var joined := roomId in newJoinedRooms;
      var needJoin := !joined;
      if needJoin {
        var outcome := Spec().PlanJoin(roomId, powerLevels);
        if outcome.Success? {
          result := result.(join := true, invite := outcome.value);
          joined := true;
        } else {
          result := result.(errors := result.errors + [JoinRefused(outcome.error)]);
        }
      }
      assert result.errors == Spec().RoomPowerErrors(roomId) + Spec().JoinErrors(roomId);

      var accountData, tagErrors := PlanRoomAccountDataTags(roomId);
      result := result.(errors := result.errors + tagErrors);
      result := result.(errors := result.errors + Spec().VisibilityErrors(roomId, needJoin));
      if joined {
        result := result.(powerLevel := setPowerLevel, accountData := accountData);
      }
      room := if result.IsEmpty() then None else Some(result);
    }

    /** The level to write for the new user, if the old user's is higher and may be copied. */
    method PlanPowerLevel(levels: PowerLevels) returns (level: Option<Int>, errors: seq<RoomPlanError>)
      ensures level == Spec().PowerLevelToSet(levels)
      ensures errors == Spec().PowerLevelErrors(levels)
      ensures level.Some? ==> !levels.ForUser(newUserId).Infinite? && (levels.ForUser(newUserId).level < level.value || oldUserId in levels.privilegedCreators)
      ensures errors == [] && level.None? ==> !levels.ForUser(newUserId).Less(levels.ForUser(oldUserId))
      ensures CreatorPowerLevelApproximation in errors <==> oldUserId in levels.privilegedCreators
    {
      errors := [];
      var oldLevel := levels.ForUser(oldUserId);
      var newLevel := levels.ForUser(newUserId);
      if oldLevel.Infinite? {
        errors := errors + [CreatorPowerLevelApproximation];
      }
      if newLevel.Infinite? {
        return None, errors;
      }
      if newLevel.Less(oldLevel) {
        if levels.CanChangeUser(oldUserId, newUserId) {
          return Some(oldLevel.Clamped()), errors;
        }
        errors := errors + [CopyPowerLevel(oldLevel.Clamped())];
      }
      return None, errors;
    }

    method PlanRoomAccountDataTags(roomId: RoomId) returns (accountData: AccountData, errors: seq<RoomPlanError>)
      ensures accountData == Spec().RoomTags(roomId) && errors == Spec().RoomTagErrors(roomId)
    {
      accountData, errors := map[], [];
      var from := Spec().GetTags(OldUser, roomId);
      if from.Failure? {
        errors := [RoomTagsFailed(OldUser)];
      } else if from.value.Some? {
        var into := Spec().GetTags(NewUser, roomId);
        if into.Failure? {
          errors := [RoomTagsFailed(NewUser)];
        } else {
          var merged, clashes := MergeJson(from.value.value, into.value.GetOr(map[]));
          errors := Migration.AsTagErrors(clashes);
          if merged.Some? {
            accountData := map[TAG := TagContent(merged.value)];
          }
        }
      }
    }

    method PlanAccountDataDirect()
      requires plan == Plan(oldUserId, newUserId, Spec().RoomPlans(), map[], [])
      modifies this
      ensures plan == old(plan).(
                globalAccountData := if Spec().DirectToSet().Some?
                                     then map[DIRECT := DirectContent(Spec().DirectToSet().value)] else map[],
                errors := Spec().DirectErrors())
    {
      var from := Spec().GetDirect(OldUser);
      if from.Failure? {
        plan := plan.(errors := plan.errors + [DirectAccountDataFailed(OldUser)]);
      } else if from.value.Some? {
        var into := Spec().GetDirect(NewUser);
        if into.Failure? {
          plan := plan.(errors := plan.errors + [DirectAccountDataFailed(NewUser)]);
        } else {
          var merged := MergeDirect(from.value.value, into.value.GetOr(map[]));
          if merged.Some? {
            plan := plan.(globalAccountData := plan.globalAccountData[DIRECT := DirectContent(merged.value)]);
          }
        }
      }
    }

    lemma WillJoinDestinations(room: RoomId)
      requires plan.rooms == Spec().RoomPlans()
      ensures WillJoin(room) <==> room in Spec().Destinations()
    {
    }

    /** Adds to `into` the direct messages of `from` that the new user will be in. */
    method MergeDirect(from: Direct, into: Direct) returns (merged: Option<Direct>)
      requires plan.rooms == Spec().RoomPlans()
      ensures merged == MergedDirect(from, into, newUserId, Spec().Destinations())
    {
      ghost var keep := Spec().Destinations();
      var result := into;
      var changed := false;
      var users := SortedKeys(from.Keys);
      AscendingDistinct(users);
      for i := 0 to |users|
        invariant Extended(users[..i], from, into, newUserId, keep, result)
        invariant changed <==> Adds(users[..i], from, into, newUserId, keep)
      {
        var user := users[i];
        ExtendedStep(users, i, from, into, newUserId, keep, result);
        if user == newUserId {
          continue;
        }
        ghost var before := result;
        var added;
        result, added := MergeRooms(user, from[user], result);
        changed := changed || added;
        ExtendingDone(users, i, from, into, newUserId, keep, before, result);
      }
      assert users[..|users|] == users;
      ExtendedAll(users, from, into, newUserId, keep, result);
      merged := if changed then Some(result) else None;
    }

    /** The turn of one user: appends the offered rooms that are missing. */
    method MergeRooms(user: UserId, offered: seq<RoomId>, into: Direct) returns (result: Direct, changed: bool)
      requires plan.rooms == Spec().RoomPlans()
      ensures var have := RoomsWith(into, user);
              var added := Missing(have, offered, Spec().Destinations());
              Extending(into, user, have, added, result) && (changed <==> added != [])
    {
      ghost var keep, have := Spec().Destinations(), RoomsWith(into, user);
      ExtendingNone(into, user);
      result, changed := into, false;
      hide Extending, Migration.Destinations, Migration.RoomPlans, MakePlanState.WillJoin;
      for i := 0 to |offered|
        invariant Extending(into, user, have, Missing(have, offered[..i], keep), result)
        invariant changed <==> Missing(have, offered[..i], keep) != []
      {
        var room := offered[i];
        MissingStep(have, offered, i, keep);
        WillJoinDestinations(room);
        ExtendingStep(into, user, have, Missing(have, offered[..i], keep), result, room);
        if !WillJoin(room) {
          continue;
        }
        var newRooms := RoomsWith(result, user);
        if room !in newRooms {
          changed := true;
          newRooms := newRooms + [room];
        }
        result := result[user := newRooms];
      }
      assert offered[..|offered|] == offered;
    }

    method PlanAccountDataIgnoredUsers()
      modifies this
      ensures plan == old(plan).(
                globalAccountData := old(plan).globalAccountData +
                                     if Spec().IgnoredToSet().Some?
                                     then map[IGNORED_USER_LIST := JsonContent(Spec().IgnoredToSet().value)] else map[],
                errors := old(plan).errors + Spec().IgnoredErrors())
    {
      var merged, errors := MergeIgnoredUsers();
      hide Migration.IgnoredToSet, Migration.IgnoredErrors;
      plan := plan.(errors := plan.errors + errors);
      if merged.Some? {
        plan := plan.(globalAccountData := plan.globalAccountData[IGNORED_USER_LIST := JsonContent(merged.value)]);
      }
    }

    method MergeIgnoredUsers() returns (merged: Option<JsonMap>, errors: seq<PlanError>)
      ensures merged == Spec().IgnoredToSet() && errors == Spec().IgnoredErrors()
    {
      var from := Spec().GetIgnored(OldUser);
      if from.Failure? {
        return None, [IgnoredUsersAccountDataFailed(OldUser)];
      }
      if from.value.None? {
        return None, [];
      }
      var into := Spec().GetIgnored(NewUser);
      if into.Failure? {
        return None, [IgnoredUsersAccountDataFailed(NewUser)];
      }
      var clashes;
      merged, clashes := MergeJson(from.value.value, into.value.GetOr(map[]));
      errors := Migration.AsIgnoredErrors(clashes);
    }

    /** Marks the rooms to leave: with no global error, those that have no error of their own. */
    method PlanLeaves()
      requires plan.rooms == Spec().RoomPlans() && plan.errors == Spec().GlobalErrors()
      modifies this
      ensures plan == old(plan).(rooms := Spec().MarkedRooms())
    {
      if !leave {
        return;
      }
      if plan.errors != [] {
        return;
      }
      for i := 0 to |oldJoinedRooms|
        invariant plan == old(plan).(rooms := plan.rooms)
        invariant Marking(old(plan).rooms, oldJoinedRooms[..i], plan.rooms)
      {
        var roomId := oldJoinedRooms[i];
        MarkingStep(old(plan).rooms, oldJoinedRooms, i, plan.rooms);
        var room := if roomId in plan.rooms then plan.rooms[roomId] else EMPTY_ROOM_PLAN;
        if room.errors == [] {
          room := room.(leave := true);
        }
        plan := plan.(rooms := plan.rooms[roomId := room]);
      }
      assert oldJoinedRooms[..|oldJoinedRooms|] == oldJoinedRooms;
      MarkingAll(Spec(), oldJoinedRooms, plan.rooms);
    }

    /** Fetches the alias of every room in the plan. */
    method GetAliases()
      modifies this
      ensures plan == old(plan).(rooms := map r | r in old(plan).rooms :: Spec().WithAlias(r, old(plan).rooms[r]))
    {
      var m := Spec();
      var roomIds := SortedKeys(plan.rooms.Keys);
      AscendingDistinct(roomIds);
      assert roomIds[..0] == [];
      for i := 0 to |roomIds|
        invariant plan == old(plan).(rooms := plan.rooms)
        invariant Aliased(m, old(plan).rooms, roomIds[..i], plan.rooms)
      {
        var roomId := roomIds[i];
        AliasedStep(m, old(plan).rooms, roomIds, i, plan.rooms);
        var room := plan.rooms[roomId];
        var alias := m.GetAlias(roomId);
        if alias.Success? {
          room := room.(alias := alias.value);
        } else {
          room := room.(errors := room.errors + [RoomPlanError.GetAlias]);
        }
        plan := plan.(rooms := plan.rooms[roomId := room]);
      }
      assert roomIds[..|roomIds|] == roomIds;
    }
  }

  // Loop states of the planner

  ghost predicate PlansOf(m: Migration, done: seq<RoomId>, rooms: map<RoomId, RoomPlan>) {
    && (forall r :: r in rooms <==> r in done && !m.RoomPlanFor(r).IsEmpty())
    && (forall r :: r in rooms ==> rooms[r] == m.RoomPlanFor(r))
  }

  lemma PlansOfStep(m: Migration, ids: seq<RoomId>, i: nat, rooms: map<RoomId, RoomPlan>)
    requires i < |ids| && PlansOf(m, ids[..i], rooms)
    ensures var planned := m.RoomPlanFor(ids[i]);
            PlansOf(m, ids[..i + 1], if planned.IsEmpty() then rooms else rooms[ids[i] := planned])
  {
    hide Migration.RoomPlanFor, RoomPlan.IsEmpty;
    assert forall r :: r in ids[..i + 1] <==> r in ids[..i] || r == ids[i];
  }

  lemma PlansOfAll(m: Migration, ids: seq<RoomId>, rooms: map<RoomId, RoomPlan>)
    requires PlansOf(m, ids, rooms) && m.oldJoined == Listed(ids)
    ensures rooms == m.RoomPlans()
  {
  }

  /** The rooms handled so far have their alias. */
  ghost predicate Aliased(m: Migration, initial: map<RoomId, RoomPlan>, done: seq<RoomId>, rooms: map<RoomId, RoomPlan>) {
    && rooms.Keys == initial.Keys
    && (forall r :: r in rooms ==> rooms[r] == if r in done then m.WithAlias(r, initial[r]) else initial[r])
  }

  lemma AliasedStep(m: Migration, initial: map<RoomId, RoomPlan>, ids: seq<RoomId>, i: nat, rooms: map<RoomId, RoomPlan>)
    requires i < |ids| && ids[i] in initial && ids[i] !in ids[..i] && Aliased(m, initial, ids[..i], rooms)
    ensures ids[i] in rooms && rooms[ids[i]] == initial[ids[i]]
    ensures Aliased(m, initial, ids[..i + 1], rooms[ids[i] := m.WithAlias(ids[i], rooms[ids[i]])])
  {
    hide Migration.WithAlias;
    assert forall r :: r in ids[..i + 1] <==> r in ids[..i] || r == ids[i];
  }

  function Entry(rooms: map<RoomId, RoomPlan>, room: RoomId): RoomPlan {
    if room in rooms then rooms[room] else EMPTY_ROOM_PLAN
  }

  function Marked(plan: RoomPlan): RoomPlan {
    if plan.errors == [] then plan.(leave := true) else plan
  }

  ghost predicate Marking(initial: map<RoomId, RoomPlan>, done: seq<RoomId>, rooms: map<RoomId, RoomPlan>) {
    && (forall r :: r in rooms <==> r in done || r in initial)
    && (forall r :: r in rooms ==> rooms[r] == if r in done then Marked(Entry(initial, r)) else initial[r])
  }

  lemma MarkingStep(initial: map<RoomId, RoomPlan>, ids: seq<RoomId>, i: nat, rooms: map<RoomId, RoomPlan>)
    requires i < |ids| && Marking(initial, ids[..i], rooms)
    ensures Marking(initial, ids[..i + 1], rooms[ids[i] := Marked(Entry(rooms, ids[i]))])
  {
    assert forall r :: r in ids[..i + 1] <==> r in ids[..i] || r == ids[i];
  }

  lemma EntryIsRoomPlan(m: Migration, room: RoomId)
    requires room in m.oldJoined
    ensures Entry(m.RoomPlans(), room) == m.RoomPlanFor(room)
  {
  }

  lemma MarkingAll(m: Migration, ids: seq<RoomId>, rooms: map<RoomId, RoomPlan>)
    requires Marking(m.RoomPlans(), ids, rooms) && m.oldJoined == Listed(ids) && m.MarksLeaves()
    ensures rooms == m.MarkedRooms()
  {
    hide Migration.RoomErrors, Migration.GlobalErrors;
    assert rooms.Keys == m.oldJoined;
    forall r | r in rooms
      ensures rooms[r] == m.MarkedRooms()[r]
    {
      EntryIsRoomPlan(m, r);
    }
  }

  /** The additions of `user`, once their turn is over. */
  ghost function AddedTo(done: seq<UserId>, from: Direct, into: Direct, self: UserId, keep: set<RoomId>, user: UserId): seq<RoomId> {
    if user in done then DirectAdditions(from, into, self, keep, user) else []
  }

  ghost predicate ExtendedBy(added: seq<RoomId>, into: Direct, result: Direct, user: UserId) {
    && (user in result <==> user in into || added != [])
    && RoomsWith(result, user) == RoomsWith(into, user) + added
  }

  /** `into` with the additions of the users handled so far. */
  ghost predicate Extended(done: seq<UserId>, from: Direct, into: Direct, self: UserId, keep: set<RoomId>, result: Direct) {
    forall u :: ExtendedBy(AddedTo(done, from, into, self, keep, u), into, result, u)
  }

  ghost predicate Adds(done: seq<UserId>, from: Direct, into: Direct, self: UserId, keep: set<RoomId>) {
    exists u :: u in done && DirectAdditions(from, into, self, keep, u) != []
  }

  /** Within the turn of `user`: `before` with `added` appended to their rooms. */
  ghost predicate Extending(before: Direct, user: UserId, have: seq<RoomId>, added: seq<RoomId>, result: Direct) {
    && (forall u :: u != user ==> (u in result <==> u in before) && RoomsWith(result, u) == RoomsWith(before, u))
    && (user in result <==> user in before || added != [])
    && RoomsWith(result, user) == have + added
  }

  lemma ExtendingNone(into: Direct, user: UserId)
    ensures Extending(into, user, RoomsWith(into, user), [], into)
  {
  }

  lemma ExtendingStep(before: Direct, user: UserId, have: seq<RoomId>, added: seq<RoomId>, result: Direct, room: RoomId)
    requires Extending(before, user, have, added, result)
    ensures RoomsWith(result, user) == have + added
    ensures room in RoomsWith(result, user) ==> Extending(before, user, have, added, result[user := RoomsWith(result, user)])
    ensures Extending(before, user, have, added + [room], result[user := RoomsWith(result, user) + [room]])
  {
  }

  lemma ExtendedStep(users: seq<UserId>, i: nat, from: Direct, into: Direct, self: UserId, keep: set<RoomId>, result: Direct)
    requires i < |users| && Extended(users[..i], from, into, self, keep, result)
    requires users[i] !in users[..i]
    ensures RoomsWith(result, users[i]) == RoomsWith(into, users[i])
    ensures users[i] == self ==>
              && Extended(users[..i + 1], from, into, self, keep, result)
              && Adds(users[..i + 1], from, into, self, keep) == Adds(users[..i], from, into, self, keep)
  {
    assert ExtendedBy(AddedTo(users[..i], from, into, self, keep, users[i]), into, result, users[i]);
    if users[i] == self {
      var done := users[..i + 1];
      forall u
        ensures ExtendedBy(AddedTo(done, from, into, self, keep, u), into, result, u)
      {
        assert u in done <==> u in users[..i] || u == users[i];
        assert ExtendedBy(AddedTo(users[..i], from, into, self, keep, u), into, result, u);
      }
      AddsStep(users, i, from, into, self, keep);
    }
  }

  lemma AddsStep(users: seq<UserId>, i: nat, from: Direct, into: Direct, self: UserId, keep: set<RoomId>)
    requires i < |users|
    ensures Adds(users[..i + 1], from, into, self, keep) <==>
            Adds(users[..i], from, into, self, keep) || DirectAdditions(from, into, self, keep, users[i]) != []
  {
    assert users[i] in users[..i + 1];
    assert forall u :: u in users[..i + 1] <==> u in users[..i] || u == users[i];
  }

  lemma ExtendingDone(users: seq<UserId>, i: nat, from: Direct, into: Direct, self: UserId, keep: set<RoomId>,
                      before: Direct, result: Direct)
    requires i < |users| && users[i] in from && users[i] != self && users[i] !in users[..i]
    requires Extended(users[..i], from, into, self, keep, before)
    requires var have := RoomsWith(into, users[i]);
             Extending(before, users[i], have, Missing(have, from[users[i]], keep), result)
    ensures Extended(users[..i + 1], from, into, self, keep, result)
    ensures Adds(users[..i + 1], from, into, self, keep) <==>
            Adds(users[..i], from, into, self, keep) || Missing(RoomsWith(into, users[i]), from[users[i]], keep) != []
  {
    var done := users[..i + 1];
    forall u
      ensures ExtendedBy(AddedTo(done, from, into, self, keep, u), into, result, u)
    {
      assert u in done <==> u in users[..i] || u == users[i];
      assert ExtendedBy(AddedTo(users[..i], from, into, self, keep, u), into, before, u);
    }
    AddsStep(users, i, from, into, self, keep);
  }

  lemma ExtendedAll(users: seq<UserId>, from: Direct, into: Direct, self: UserId, keep: set<RoomId>, result: Direct)
    requires forall u :: u in users <==> u in from
    requires Extended(users, from, into, self, keep, result)
    ensures result == ExtendedDirect(from, into, self, keep)
    ensures Adds(users, from, into, self, keep) <==> MergedDirect(from, into, self, keep).Some?
  {
    var expected := ExtendedDirect(from, into, self, keep);
    forall u
      ensures (u in result <==> u in expected) && (u in result ==> result[u] == expected[u])
    {
      assert ExtendedBy(AddedTo(users, from, into, self, keep, u), into, result, u);
      assert AddedTo(users, from, into, self, keep, u) == DirectAdditions(from, into, self, keep, u);
    }
  }

  lemma MissingStep(have: seq<RoomId>, offered: seq<RoomId>, j: nat, keep: set<RoomId>)
    requires j < |offered|
    ensures var before := Missing(have, offered[..j], keep);
            Missing(have, offered[..j + 1], keep) ==
            if offered[j] in keep && offered[j] !in have + before then before + [offered[j]] else before
  {
    assert offered[..j + 1][..j] == offered[..j];
  }

  /** Plans a migration from the lists of joined rooms that the server returned. */
  method MakePlan(world: World, faults: set<Read>, leave: bool, oldUserId: UserId, newUserId: UserId,
                  oldList: seq<RoomId>, newList: seq<RoomId>)
    returns (result: Result<Plan, FatalPlanError>)
    ensures result.Success? <==>
              faults !! {ReadUserId(OldUser), ReadUserId(NewUser), ReadJoinedRooms(OldUser), ReadJoinedRooms(NewUser)}
    ensures result.Success? ==>
              result.value == Migration(world, faults, oldUserId, newUserId, Listed(oldList), Listed(newList), leave).FinalPlan()
    ensures result.Failure? ==> match result.error
              case GetUserId(OldUser) => ReadUserId(OldUser) in faults
              case GetUserId(NewUser) => ReadUserId(NewUser) in faults && ReadUserId(OldUser) !in faults
              case GetJoinedRooms(OldUser) => ReadJoinedRooms(OldUser) in faults && faults !! {ReadUserId(OldUser), ReadUserId(NewUser)}
              case GetJoinedRooms(NewUser) =>
                ReadJoinedRooms(NewUser) in faults && faults !! {ReadUserId(OldUser), ReadUserId(NewUser), ReadJoinedRooms(OldUser)}
  {
    if ReadUserId(OldUser) in faults {
      return Failure(GetUserId(OldUser));
    }
    if ReadUserId(NewUser) in faults {
      return Failure(GetUserId(NewUser));
    }
    if ReadJoinedRooms(OldUser) in faults {
      return Failure(GetJoinedRooms(OldUser));
    }
    if ReadJoinedRooms(NewUser) in faults {
      return Failure(GetJoinedRooms(NewUser));
    }
    var state := new MakePlanState(world, faults, leave, oldUserId, newUserId, oldList, Listed(newList));
    state.PlanAll();
    return Success(state.plan);
  }
}
