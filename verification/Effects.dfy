/** What the parts of a run do to the server, and what they leave alone. */
module Effects {
  import opened Wrappers
  import opened Ordering
  import opened Homeserver
  import opened Planning
  import opened Trace
  import opened Executor

  /** The two worlds agree about room `r`, its account data included. */
  ghost predicate SameAbout(r: RoomId, a: World, b: World) {
    a.RoomOf(r) == b.RoomOf(r) && forall u :: a.RoomData(u, r) == b.RoomData(u, r)
  }

  ghost predicate SameGlobals(a: World, b: World) {
    forall u :: a.Global(u) == b.Global(u)
  }

  lemma EffectFrame(w: World, step: Step, r: RoomId)
    ensures !step.op.Concerns(r) ==> SameAbout(r, w, step.Effect(w))
  {
    if !step.op.Concerns(r) {
      forall u
        ensures step.Effect(w).RoomData(u, r) == w.RoomData(u, r)
      {
        EffectFrameData(w, step, r, u);
      }
    }
  }

  lemma EffectFrameData(w: World, step: Step, r: RoomId, user: UserId)
    requires !step.op.Concerns(r)
    ensures step.Effect(w).RoomData(user, r) == w.RoomData(user, r)
  {
  }

  lemma EffectFrameGlobals(w: World, step: Step)
    ensures !step.op.SetGlobal? ==> SameGlobals(w, step.Effect(w))
  {
  }

  lemma ReplayLast(w: World, t: seq<Step>, init: seq<Step>, last: Step)
    requires t == init + [last]
    ensures Replay(w, t) == last.Effect(Replay(w, init))
  {
    assert t[..|t| - 1] == init;
  }

  lemma {:induction false} ReplayFrameRoom(w: World, t: seq<Step>, r: RoomId)
    requires forall i :: 0 <= i < |t| ==> !t[i].op.Concerns(r)
    ensures SameAbout(r, w, Replay(w, t))
  {
    if t != [] {
      var n := |t| - 1;
      ReplayFrameRoom(w, t[..n], r);
      EffectFrame(Replay(w, t[..n]), t[n], r);
    }
  }

  lemma {:induction false} ReplayFrameGlobals(w: World, t: seq<Step>)
    requires forall i :: 0 <= i < |t| ==> !t[i].op.SetGlobal?
    ensures SameGlobals(w, Replay(w, t))
  {
    if t != [] {
      var n := |t| - 1;
      ReplayFrameGlobals(w, t[..n]);
      EffectFrameGlobals(Replay(w, t[..n]), t[n]);
    }
  }

  // One room

  /**
    The state of a room after its planned migration, whose read of the power
    levels took `creators` for the creators. Writing drops the `notifications`.
   */
  function RoomAfter(plan: Plan, room: RoomPlan, state: Room, creators: set<UserId>): Room {
    state.(
      members := if room.join then state.members[plan.newUserId := Joined]
                 else if room.invite then state.members[plan.newUserId := Invited]
                 else state.members,
      levels := if room.powerLevel.Some?
                then Some(WithLevel(state.LevelsRead(creators), plan.newUserId, room.powerLevel.value))
                else state.levels)
  }

  /** The migration of a room did to it what was planned. */
  ghost predicate RoomMigrated(plan: Plan, room: RoomPlan, before: Room, after: Room) {
    after == RoomAfter(plan, room, before, before.NamedCreators()) || after == RoomAfter(plan, room, before, {})
  }

  /** However the levels were read, the members and the rest of the room are the same. */
  lemma MigratedMembers(plan: Plan, room: RoomPlan, before: Room, after: Room)
    requires RoomMigrated(plan, room, before, after)
    ensures after.members == RoomAfter(plan, room, before, {}).members
  {
    hide Room.LevelsRead, Room.NamedCreators;
  }

  /** Entering the room and then setting the level, as far as planned, is migrating it. */
  lemma EnteredAndSet(plan: Plan, room: RoomPlan, before: Room, entered: Room, after: Room)
    requires entered == RoomAfter(plan, room.(powerLevel := None), before, {})
    requires if room.powerLevel.Some? then PowerSet(entered, plan.newUserId, room.powerLevel.value, after) else after == entered
    ensures RoomMigrated(plan, room, before, after)
  {
    assert entered.NamedCreators() == before.NamedCreators();
    assert entered.LevelsRead({}) == before.LevelsRead({}) && entered.LevelsRead(before.NamedCreators()) == before.LevelsRead(before.NamedCreators());
    hide Room.NamedCreators, Room.LevelsRead;
  }

  /** What a complete migration of room `r` changes about it. */
  ghost predicate MigrationApplied(plan: Plan, r: RoomId, room: RoomPlan, before: World, after: World) {
    && RoomMigrated(plan, room, before.RoomOf(r), after.RoomOf(r))
    && after.RoomData(plan.newUserId, r) == before.RoomData(plan.newUserId, r) + room.accountData
    && forall u :: u != plan.newUserId ==> after.RoomData(u, r) == before.RoomData(u, r)
  }

  lemma ReplayOne(w: World, step: Step)
    ensures Replay(w, [step]) == step.Effect(w)
  {
    assert [step][..0] == [];
  }

  lemma ReplayTwo(w: World, a: Step, b: Step)
    ensures Replay(w, [a, b]) == b.Effect(a.Effect(w))
  {
    assert [a, b][..1] == [a];
    ReplayOne(w, a);
  }

  lemma MembershipEffect(w: World, r: RoomId, user: UserId, membership: Membership)
    ensures var after := w.SetMembership(r, user, membership);
            && after.RoomOf(r) == w.RoomOf(r).(members := w.RoomOf(r).members[user := membership])
            && forall u :: after.RoomData(u, r) == w.RoomData(u, r)
  {
  }

  lemma InviteEffect(w: World, plan: Plan, r: RoomId, t: seq<Step>)
    requires Makes(t, [Invite(r, plan.oldUserId, plan.newUserId), WaitForInvite(r, plan.newUserId)]) && AllDone(t)
    ensures Replay(w, t) == w.SetMembership(r, plan.newUserId, Invited)
  {
    hide World.SetMembership;
    assert t == [t[0], t[1]];
    ReplayTwo(w, t[0], t[1]);
  }

  lemma JoinEffect(w: World, plan: Plan, r: RoomId, t: seq<Step>)
    requires Makes(t, [Join(r, plan.newUserId)]) && AllDone(t)
    ensures Replay(w, t) == w.SetMembership(r, plan.newUserId, Joined)
  {
    hide World.SetMembership;
    assert t == [t[0]];
    ReplayOne(w, t[0]);
  }

  lemma EntryEffect(w: World, plan: Plan, r: RoomId, room: RoomPlan, t: seq<Step>)
    requires Makes(t, EntryOps(plan, r, room)) && AllDone(t)
    ensures var after := Replay(w, t);
            && after.RoomOf(r) == RoomAfter(plan, room.(powerLevel := None), w.RoomOf(r), {})
            && forall u :: after.RoomData(u, r) == w.RoomData(u, r)
  {
    hide World.RoomOf, World.RoomData, World.SetMembership, Replay;
    var n := if room.invite then 2 else 0;
    var invited, joined := t[..n], t[n..];
    ReplayConcat(w, invited, joined);
    assert t == invited + joined;
    ReplayNone(w);
    var w1 := Replay(w, invited);
    ReplayNone(w1);
    if room.invite {
      InviteEffect(w, plan, r, invited);
      MembershipEffect(w, r, plan.newUserId, Invited);
    }
    if room.join {
      JoinEffect(w1, plan, r, joined);
      MembershipEffect(w1, r, plan.newUserId, Joined);
    }
  }

  ghost predicate PowerSet(before: Room, user: UserId, level: Int, after: Room) {
    exists seen :: before.MayReadAs(seen) && after == before.(levels := Some(WithLevel(seen, user, level)))
  }

  lemma PowerEffect(w: World, plan: Plan, r: RoomId, level: Int, t: seq<Step>)
    requires SetsPowerLevel(plan, r, level, t) && AllDone(t) && Undisturbed(w, t)
    ensures var after := Replay(w, t);
            && PowerSet(w.RoomOf(r), plan.newUserId, level, after.RoomOf(r))
            && forall u :: after.RoomData(u, r) == w.RoomData(u, r)
  {
    assert t == [t[0], t[1]];
    assert t[..0] == [];
    ReplayTwo(w, t[0], t[1]);
  }

  /** The entries of `data` at `keys`. */
  function Picked(data: AccountData, keys: seq<string>): AccountData
    requires forall k :: k in keys ==> k in data
  {
    map k | k in keys :: data[k]
  }

  lemma PickedStep(data: AccountData, keys: seq<string>, init: seq<string>, last: string)
    requires keys == init + [last] && forall k :: k in keys ==> k in data
    ensures last in data && (forall k :: k in init ==> k in data)
    ensures Picked(data, keys) == Picked(data, init)[last := data[last]]
    ensures forall base: AccountData :: base + Picked(data, keys) == (base + Picked(data, init))[last := data[last]]
  {
    assert last in keys && forall k :: k in init ==> k in keys;
  }

  lemma PickedNone(data: AccountData)
    ensures Picked(data, []) == map[]
  {
  }

  lemma SetRoomDataEffect(w: World, user: UserId, r: RoomId, key: string, content: Content, step: Step)
    requires step == Step(SetRoomData(r, user, key, content), Done)
    ensures var after := step.Effect(w);
            && after.RoomOf(r) == w.RoomOf(r)
            && after.RoomData(user, r) == w.RoomData(user, r)[key := content]
            && forall u :: u != user ==> after.RoomData(u, r) == w.RoomData(u, r)
  {
  }

  lemma {:induction false} DataEffect(w: World, user: UserId, r: RoomId, data: AccountData, keys: seq<string>, t: seq<Step>)
    requires forall k :: k in keys ==> k in data
    requires Makes(t, DataOps(keys, user, r, data)) && AllDone(t)
    ensures var after := Replay(w, t);
            && after.RoomOf(r) == w.RoomOf(r)
            && after.RoomData(user, r) == w.RoomData(user, r) + Picked(data, keys)
            && forall u :: u != user ==> after.RoomData(u, r) == w.RoomData(u, r)
  {
    hide World.RoomOf, World.RoomData, Step.Effect, Picked;
    if keys == [] {
      PickedNone(data);
    } else {
      var n := |keys| - 1;
      DataEffect(w, user, r, data, keys[..n], t[..n]);
      PickedStep(data, keys, keys[..n], keys[n]);
      SetRoomDataEffect(Replay(w, t[..n]), user, r, keys[n], data[keys[n]], t[n]);
    }
  }

  /** A migration without a failure does to its room all that was planned. */
  lemma MigrationEffect(w: World, plan: Plan, r: RoomId, room: RoomPlan, t: seq<Step>)
    requires MigratesRoom(plan, r, room, t) && AllDone(t) && Undisturbed(w, t)
    ensures MigrationApplied(plan, r, room, w, Replay(w, t))
  {
    var entry, power, data := PartsOfMigration(plan, r, room, t);
    ReplayParts(w, t, entry, power, data);
    hide MigratesRoom, EntryOps, SetsPowerLevel, RoomDataOps, Undisturbed, Makes, AllDone, Replay, World.RoomOf, World.RoomData;
    hide RoomMigrated, RoomAfter, PowerSet, Picked, SortedKeys;
    var w1 := Replay(w, entry);
    var w2 := Replay(w1, power);
    EntryEffect(w, plan, r, room, entry);
    if room.powerLevel.Some? {
      PowerEffect(w1, plan, r, room.powerLevel.value, power);
    } else {
      ReplayNone(w1);
    }
    EnteredAndSet(plan, room, w.RoomOf(r), w1.RoomOf(r), w2.RoomOf(r));
    PickedAll(room.accountData);
    DataEffect(w2, plan.newUserId, r, room.accountData, SortedKeys(room.accountData.Keys), data);
  }

  lemma ReplayNone(w: World)
    ensures Replay(w, []) == w
  {
  }

  lemma PickedAll(data: AccountData)
    ensures Picked(data, SortedKeys(data.Keys)) == data
  {
  }

  lemma PartsOfMigration(plan: Plan, r: RoomId, room: RoomPlan, t: seq<Step>)
    returns (entry: seq<Step>, power: seq<Step>, data: seq<Step>)
    requires MigratesRoom(plan, r, room, t) && AllDone(t)
    ensures t == entry + (power + data)
    ensures AllDone(entry) && AllDone(power) && AllDone(data)
    ensures Makes(entry, EntryOps(plan, r, room))
    ensures if room.powerLevel.Some? then SetsPowerLevel(plan, r, room.powerLevel.value, power) else power == []
    ensures Makes(data, RoomDataOps(plan, r, room))
  {
    hide EntryOps, RoomDataOps, SetsPowerLevel, Makes, AllDone;
    var ops := EntryOps(plan, r, room);
    DoneNeverStops(ops, t);
    var inside := t[|ops|..];
    entry := t[..|ops|];
    var k := PowerSteps(room, inside);
    power, data := inside[..k], inside[k..];
    assert inside == power + data;
    assert t == entry + inside;
    DoneParts(entry, power, data);
  }

  lemma DoneNeverStops(ops: seq<Op>, t: seq<Step>)
    requires AllDone(t)
    ensures !StopsEntering(ops, t)
  {
  }

  lemma DoneParts(entry: seq<Step>, power: seq<Step>, data: seq<Step>)
    requires AllDone(entry + (power + data))
    ensures AllDone(entry) && AllDone(power) && AllDone(data)
  {
    DoneConcat(entry, power + data);
    DoneConcat(power, data);
  }

  lemma DoneConcat(a: seq<Step>, b: seq<Step>)
    requires AllDone(a + b)
    ensures AllDone(a) && AllDone(b)
  {
    assert (a + b)[..|a|] == a && (a + b)[|a|..] == b;
  }

  lemma ReplayParts(w: World, t: seq<Step>, entry: seq<Step>, power: seq<Step>, data: seq<Step>)
    requires t == entry + (power + data) && Undisturbed(w, t)
    ensures Undisturbed(Replay(w, entry), power)
    ensures Replay(w, t) == Replay(Replay(Replay(w, entry), power), data)
  {
    hide Undisturbed;
    ReplayConcat(w, entry, power + data);
    ReplayConcat(Replay(w, entry), power, data);
    UndisturbedConcat(w, entry, power + data);
    UndisturbedConcat(Replay(w, entry), power, data);
  }

  // All migrations

  lemma FlattenTake(ms: seq<seq<Step>>, n: nat)
    requires n < |ms|
    ensures Flatten(ms[..n + 1]) == Flatten(ms[..n]) + ms[n]
  {
    assert ms[..n + 1][..n] == ms[..n];
  }

  /** The migrations from `a` to `b` leave alone every room that is not theirs. */
  lemma {:induction false} MigrationsFrame(w: World, plan: Plan, ms: seq<seq<Step>>, r: RoomId, a: nat, b: nat)
    requires a <= b <= |ms| && MigratesRooms(plan, ms)
    requires forall i :: a <= i < b ==> RoomOrder(plan)[i] != r
    ensures SameAbout(r, Replay(w, Flatten(ms[..a])), Replay(w, Flatten(ms[..b])))
  {
    hide Replay, MigratesRoom, World.RoomOf, World.RoomData;
    if a < b {
      MigrationsFrame(w, plan, ms, r, a, b - 1);
      FlattenTake(ms, b - 1);
      ReplayConcat(w, Flatten(ms[..b - 1]), ms[b - 1]);
      var last := RoomOrder(plan)[b - 1];
      MigrationConcernsRoom(plan, last, plan.rooms[last], ms[b - 1]);
      ReplayFrameRoom(Replay(w, Flatten(ms[..b - 1])), ms[b - 1], r);
    }
  }

  lemma {:induction false} UndisturbedMigration(w: World, ms: seq<seq<Step>>, i: nat)
    requires i < |ms| && Undisturbed(w, Flatten(ms))
    ensures Undisturbed(Replay(w, Flatten(ms[..i])), ms[i])
    decreases |ms|
  {
    var n := |ms| - 1;
    UndisturbedConcat(w, Flatten(ms[..n]), ms[n]);
    if i < n {
      UndisturbedMigration(w, ms[..n], i);
      assert ms[..n][..i] == ms[..i];
    }
  }

  /** The world when the migration of the `i`-th room starts: nothing has touched that room. */
  lemma BeforeMigration(w: World, plan: Plan, ms: seq<seq<Step>>, i: nat)
    requires i < |ms| && MigratesRooms(plan, ms) && Undisturbed(w, Flatten(ms))
    ensures SameAbout(RoomOrder(plan)[i], w, Replay(w, Flatten(ms[..i])))
    ensures Undisturbed(Replay(w, Flatten(ms[..i])), ms[i])
  {
    AscendingDistinct(RoomOrder(plan));
    MigrationsFrame(w, plan, ms, RoomOrder(plan)[i], 0, i);
    assert Flatten(ms[..0]) == [];
    UndisturbedMigration(w, ms, i);
  }

  /** After all migrations, what a room looks like is up to its own migration. */
  lemma AfterMigrations(w: World, plan: Plan, ms: seq<seq<Step>>, i: nat)
    requires i < |ms| && MigratesRooms(plan, ms) && Undisturbed(w, Flatten(ms))
    ensures SameAbout(RoomOrder(plan)[i], Replay(Replay(w, Flatten(ms[..i])), ms[i]), Replay(w, Flatten(ms)))
  {
    AscendingDistinct(RoomOrder(plan));
    FlattenTake(ms, i);
    ReplayConcat(w, Flatten(ms[..i]), ms[i]);
    MigrationsFrame(w, plan, ms, RoomOrder(plan)[i], i + 1, |ms|);
    assert ms[..|ms|] == ms;
  }

  lemma MigratedRoomApplied(w: World, plan: Plan, ms: seq<seq<Step>>, i: nat)
    requires i < |ms| && MigratesRooms(plan, ms) && Undisturbed(w, Flatten(ms)) && AllDone(ms[i])
    ensures var r := RoomOrder(plan)[i];
            MigrationApplied(plan, r, plan.rooms[r], w, Replay(w, Flatten(ms)))
  {
    var r := RoomOrder(plan)[i];
    BeforeMigration(w, plan, ms, i);
    MigrationEffect(Replay(w, Flatten(ms[..i])), plan, r, plan.rooms[r], ms[i]);
    AfterMigrations(w, plan, ms, i);
  }

  lemma {:induction false} MigrationsSetNoGlobals(plan: Plan, ms: seq<seq<Step>>)
    requires MigratesRooms(plan, ms)
    ensures forall i :: 0 <= i < |Flatten(ms)| ==> !Flatten(ms)[i].op.SetGlobal?
  {
    if ms != [] {
      var n := |ms| - 1;
      MigrationsSetNoGlobals(plan, ms[..n]);
      MigrationConcernsRoom(plan, RoomOrder(plan)[n], plan.rooms[RoomOrder(plan)[n]], ms[n]);
    }
  }

  // Global data

  lemma SetGlobalEffect(w: World, user: UserId, key: string, content: Content, step: Step)
    requires step == Step(SetGlobal(user, key, content), Done)
    ensures var after := step.Effect(w);
            && after.Global(user) == w.Global(user)[key := content]
            && forall u :: u != user ==> after.Global(u) == w.Global(u)
  {
  }

  lemma {:induction false} GlobalEffect(w: World, user: UserId, data: AccountData, keys: seq<string>, t: seq<Step>)
    requires forall k :: k in keys ==> k in data
    requires Makes(t, GlobalOps(keys, user, data)) && AllDone(t)
    ensures var after := Replay(w, t);
            && after.Global(user) == w.Global(user) + Picked(data, keys)
            && forall u :: u != user ==> after.Global(u) == w.Global(u)
  {
    hide World.Global, Step.Effect, Picked;
    if keys == [] {
      PickedNone(data);
    } else {
      var n := |keys| - 1;
      GlobalEffect(w, user, data, keys[..n], t[..n]);
      PickedStep(data, keys, keys[..n], keys[n]);
      SetGlobalEffect(Replay(w, t[..n]), user, keys[n], data[keys[n]], t[n]);
    }
  }

  ghost predicate GlobalsApplied(plan: Plan, before: World, after: World) {
    && after.Global(plan.newUserId) == before.Global(plan.newUserId) + plan.globalAccountData
    && forall u :: u != plan.newUserId ==> after.Global(u) == before.Global(u)
  }

  // Leaves

  ghost predicate LeavesOneOf(plan: Plan, ms: seq<seq<Step>>, n: nat, op: Op)
    requires n <= |RoomOrder(plan)| && n <= |ms|
  {
    exists i :: 0 <= i < n && LeavesRoom(plan, ms, i, op)
  }

  ghost predicate LeavesRoom(plan: Plan, ms: seq<seq<Step>>, i: nat, op: Op)
    requires i < |RoomOrder(plan)| && i < |ms|
  {
    var r := RoomOrder(plan)[i];
    op == Leave(r, plan.oldUserId) && plan.rooms[r].leave && AllDone(ms[i])
  }

  /** The leaves are of the marked rooms whose migration had no failure, and of no others. */
  lemma {:induction false} LeaveOpsExact(plan: Plan, ms: seq<seq<Step>>, n: nat, op: Op)
    requires n <= |RoomOrder(plan)| && n <= |ms|
    ensures op in LeaveOps(plan, ms, n) <==> LeavesOneOf(plan, ms, n, op)
  {
    if n > 0 {
      LeaveOpsExact(plan, ms, n - 1, op);
      assert LeavesOneOf(plan, ms, n, op) <==> LeavesOneOf(plan, ms, n - 1, op) || LeavesRoom(plan, ms, n - 1, op);
    }
  }

  /** Leaves of rooms among `rooms`, in key order and so of each at most once. */
  ghost predicate DistinctLeaves(ops: seq<Op>, rooms: seq<RoomId>) {
    && (forall k :: 0 <= k < |ops| ==> ops[k].Leave? && ops[k].room in rooms)
    && (forall k, l :: 0 <= k < l < |ops| ==> Below(ops[k].room, ops[l].room))
  }

  lemma DistinctLeavesStep(ops: seq<Op>, rooms: seq<RoomId>, r: RoomId, user: UserId)
    requires DistinctLeaves(ops, rooms) && forall x :: x in rooms ==> Below(x, r)
    ensures DistinctLeaves(ops, rooms + [r]) && DistinctLeaves(ops + [Leave(r, user)], rooms + [r])
  {
  }

  /** Rooms are left in key order, none of them twice. */
  lemma {:induction false} LeaveOpsDistinct(plan: Plan, ms: seq<seq<Step>>, n: nat)
    requires n <= |RoomOrder(plan)| && n <= |ms|
    ensures DistinctLeaves(LeaveOps(plan, ms, n), RoomOrder(plan)[..n])
  {
    if n > 0 {
      var order := RoomOrder(plan);
      AscendingDistinct(order);
      LeaveOpsDistinct(plan, ms, n - 1);
      DistinctLeavesStep(LeaveOps(plan, ms, n - 1), order[..n - 1], order[n - 1], plan.oldUserId);
      assert order[..n] == order[..n - 1] + [order[n - 1]];
    }
  }
}
