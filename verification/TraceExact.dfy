/**
  What a run asks for, request by request. No kind of request is left out or made
  up: each is in the trace exactly when the plan has it and what it waits for has
  succeeded, whatever else fails.
 */
module TraceExact {
  import opened Ordering
  import opened Homeserver
  import opened Planning
  import opened Trace
  import opened Effects
  import opened LeaveSafety
  import opened TraceOrder

  /** The trace contains the request, with some outcome. */
  ghost predicate Asked(t: seq<Step>, op: Op) {
    exists k :: 0 <= k < |t| && t[k].op == op
  }

  /** The new user has been brought into the room, as far as that was planned. */
  ghost predicate Entered(plan: Plan, r: RoomId, room: RoomPlan, t: seq<Step>) {
    && (room.invite ==> Succeeded(t, Invite(r, plan.oldUserId, plan.newUserId)) && Succeeded(t, WaitForInvite(r, plan.newUserId)))
    && (room.join ==> Succeeded(t, Join(r, plan.newUserId)))
  }

  /** The levels to be written are some that were read in the trace, with the planned level. */
  ghost predicate ReadBefore(plan: Plan, r: RoomId, level: Int, t: seq<Step>, levels: LevelsEvent) {
    exists seen :: Succeeded(t, ReadLevels(r, plan.oldUserId, seen)) && levels == seen.(users := seen.users[plan.newUserId := level])
  }

  /** The plan has the request about room `r`, and nothing that it waits for in `t` failed. */
  ghost predicate PromptedIn(plan: Plan, r: RoomId, room: RoomPlan, t: seq<Step>, op: Op) {
    match op
    case Invite(o, user, invitee) => o == r && room.invite && user == plan.oldUserId && invitee == plan.newUserId
    case WaitForInvite(o, user) => o == r && room.invite && user == plan.newUserId && Succeeded(t, Invite(r, plan.oldUserId, plan.newUserId))
    case Join(o, user) => o == r && room.join && user == plan.newUserId && (room.invite ==> Succeeded(t, WaitForInvite(r, plan.newUserId)))
    case WriteLevels(o, user, levels) =>
      o == r && room.powerLevel.Some? && user == plan.oldUserId && ReadBefore(plan, r, room.powerLevel.value, t, levels)
    case SetRoomData(o, user, key, content) =>
      o == r && Entered(plan, r, room, t) && user == plan.newUserId && key in room.accountData && content == room.accountData[key]
    case _ => false
  }

  /** Levels are read exactly when one is planned and the room has been entered, by the old user, once at most. */
  ghost predicate ReadsIn(plan: Plan, r: RoomId, room: RoomPlan, t: seq<Step>) {
    && ((exists seen :: Asked(t, ReadLevels(r, plan.oldUserId, seen))) <==> room.powerLevel.Some? && Entered(plan, r, room, t))
    && (forall user, seen :: Asked(t, ReadLevels(r, user, seen)) ==> user == plan.oldUserId)
  }

  // One migration

  /** A migration is an entry, and if that succeeded the power level and the account data. */
  lemma PartsOf(plan: Plan, r: RoomId, room: RoomPlan, t: seq<Step>) returns (entry: seq<Step>, power: seq<Step>, data: seq<Step>)
    requires MigratesRoom(plan, r, room, t)
    ensures t == entry + power + data
    ensures || (StopsEntering(EntryOps(plan, r, room), entry) && power == data == [])
            || (Makes(entry, EntryOps(plan, r, room)) && AllDone(entry)
                && (if room.powerLevel.Some? then SetsPowerLevel(plan, r, room.powerLevel.value, power) else power == [])
                && Makes(data, RoomDataOps(plan, r, room)))
  {
    hide EntryOps, RoomDataOps, SetsPowerLevel, AllDone, Makes, StopsEntering, MigratesInside;
    var n := |EntryOps(plan, r, room)|;
    if StopsEntering(EntryOps(plan, r, room), t) {
      entry, power, data := t, [], [];
    } else {
      entry := t[..n];
      power, data := PartsInside(plan, r, room, t[n..]);
      ConcatAssociative(entry, power, data);
      assert t == entry + t[n..];
    }
  }

  lemma ConcatAssociative(a: seq<Step>, b: seq<Step>, c: seq<Step>)
    ensures a + (b + c) == a + b + c
  {
  }

  lemma PartsInside(plan: Plan, r: RoomId, room: RoomPlan, t: seq<Step>) returns (power: seq<Step>, data: seq<Step>)
    requires MigratesInside(plan, r, room, t)
    ensures t == power + data && Makes(data, RoomDataOps(plan, r, room))
    ensures if room.powerLevel.Some? then SetsPowerLevel(plan, r, room.powerLevel.value, power) else power == []
  {
    hide RoomDataOps, SetsPowerLevel, Makes;
    var k := PowerSteps(room, t);
    power, data := t[..k], t[k..];
  }

  lemma StepsOfParts(a: seq<Step>, b: seq<Step>, c: seq<Step>, x: Step)
    ensures x in a + b + c <==> x in a || x in b || x in c
  {
  }

  lemma AskedAsStep(t: seq<Step>, op: Op)
    ensures Asked(t, op) <==> exists o :: Step(op, o) in t
  {
    if Asked(t, op) {
      var k :| 0 <= k < |t| && t[k].op == op;
      assert Step(op, t[k].outcome) in t;
    }
  }

  lemma AskedInParts(a: seq<Step>, b: seq<Step>, c: seq<Step>, op: Op)
    ensures Asked(a + b + c, op) <==> Asked(a, op) || Asked(b, op) || Asked(c, op)
    ensures Succeeded(a + b + c, op) <==> Succeeded(a, op) || Succeeded(b, op) || Succeeded(c, op)
  {
    AskedAsStep(a, op);
    AskedAsStep(b, op);
    AskedAsStep(c, op);
    AskedAsStep(a + b + c, op);
    forall x
      ensures x in a + b + c <==> x in a || x in b || x in c
    {
      StepsOfParts(a, b, c, x);
    }
    hide Asked;
  }

  /** `t` makes the requests `ops` in turn, up to the first that fails. */
  ghost predicate MakesInTurn(ops: seq<Op>, t: seq<Step>) {
    && |t| <= |ops| && (forall k :: 0 <= k < |t| ==> t[k].op == ops[k])
    && (forall k :: 0 <= k < |t| - 1 ==> t[k].outcome.Done?)
    && (|t| < |ops| ==> |t| > 0 && !t[|t| - 1].outcome.Done?)
  }

  lemma EntryInTurn(ops: seq<Op>, t: seq<Step>)
    requires StopsEntering(ops, t) || (Makes(t, ops) && AllDone(t))
    ensures MakesInTurn(ops, t)
    ensures Makes(t, ops) && AllDone(t) <==> |t| == |ops| && (t != [] ==> t[|t| - 1].outcome.Done?)
  {
    if StopsEntering(ops, t) {
      assert forall k :: 0 <= k < |t| ==> t[k].op == ops[..|t|][k];
      assert forall k :: 0 <= k < |t| - 1 ==> t[k] == t[..|t| - 1][k];
    }
  }

  lemma AskedInTurn(ops: seq<Op>, t: seq<Step>, p: nat)
    requires MakesInTurn(ops, t) && p < |ops| && forall i, j :: 0 <= i < j < |ops| ==> ops[i] != ops[j]
    ensures Succeeded(t, ops[p]) <==> p < |t| && t[p].outcome.Done?
    ensures Asked(t, ops[p]) <==> p == 0 || Succeeded(t, ops[p - 1])
  {
    assert Asked(t, ops[p]) <==> p < |t|;
    if p < |t| && t[p].outcome.Done? {
      assert t[p] == Step(ops[p], Done);
    }
    if 0 < p <= |t| && t[p - 1].outcome.Done? {
      assert t[p - 1] == Step(ops[p - 1], Done);
    }
  }

  lemma AskedOnlyOf(ops: seq<Op>, t: seq<Step>, op: Op)
    requires MakesInTurn(ops, t) && op !in ops
    ensures !Asked(t, op) && !Succeeded(t, op)
  {
  }

  lemma AllSucceeded(ops: seq<Op>, t: seq<Step>)
    requires StopsEntering(ops, t) || (Makes(t, ops) && AllDone(t))
    requires forall i, j :: 0 <= i < j < |ops| ==> ops[i] != ops[j]
    ensures Makes(t, ops) && AllDone(t) <==> forall op :: op in ops ==> Succeeded(t, op)
  {
    EntryInTurn(ops, t);
    hide StopsEntering, Makes, AllDone, MakesInTurn;
    forall p | 0 <= p < |ops|
      ensures Succeeded(t, ops[p]) <==> p < |t| && t[p].outcome.Done?
    {
      AskedInTurn(ops, t, p);
    }
    assert |ops| > 0 ==> ops[|ops| - 1] in ops;
    TurnLength(ops, t);
  }

  lemma TurnLength(ops: seq<Op>, t: seq<Step>)
    requires MakesInTurn(ops, t)
    ensures |t| <= |ops| && forall k :: 0 <= k < |t| - 1 ==> t[k].outcome.Done?
  {
  }

  lemma EntryEntered(plan: Plan, r: RoomId, room: RoomPlan, t: seq<Step>)
    requires StopsEntering(EntryOps(plan, r, room), t) || (Makes(t, EntryOps(plan, r, room)) && AllDone(t))
    ensures Entered(plan, r, room, t) <==> Makes(t, EntryOps(plan, r, room)) && AllDone(t)
  {
    var ops := EntryOps(plan, r, room);
    AllSucceeded(ops, t);
    hide StopsEntering, Makes, AllDone, Succeeded;
    assert room.invite ==> ops[0] in ops && ops[1] in ops;
    assert room.join ==> ops[|ops| - 1] in ops;
  }

  /** The requests to enter the room, and how far they got. */
  lemma EntryAsks(plan: Plan, r: RoomId, room: RoomPlan, t: seq<Step>, op: Op)
    requires StopsEntering(EntryOps(plan, r, room), t) || (Makes(t, EntryOps(plan, r, room)) && AllDone(t))
    ensures op.Invite? || op.WaitForInvite? || op.Join? ==> (Asked(t, op) <==> PromptedIn(plan, r, room, t, op))
    ensures !(op.Invite? || op.WaitForInvite? || op.Join?) ==> !Asked(t, op) && !Succeeded(t, op)
  {
    hide Asked, Succeeded, MakesInTurn, StopsEntering, Makes, AllDone;
    var ops := EntryOps(plan, r, room);
    EntryInTurn(ops, t);
    assert forall i, j :: 0 <= i < j < |ops| ==> ops[i] != ops[j];
    if op !in ops {
      AskedOnlyOf(ops, t, op);
    } else {
      var p :| 0 <= p < |ops| && ops[p] == op;
      AskedInTurn(ops, t, p);
    }
  }

  lemma SucceededIsAsked(t: seq<Step>, op: Op)
    ensures Succeeded(t, op) ==> Asked(t, op)
  {
    AskedAsStep(t, op);
  }

  /** Requests about the power level of `r`. */
  predicate OfPower(op: Op) {
    op.ReadLevels? || op.WriteLevels?
  }

  predicate OfEntry(op: Op) {
    op.Invite? || op.WaitForInvite? || op.Join?
  }

  lemma PowerAsks(plan: Plan, r: RoomId, level: Int, t: seq<Step>, op: Op)
    requires SetsPowerLevel(plan, r, level, t)
    ensures exists seen :: Asked(t, ReadLevels(r, plan.oldUserId, seen))
    ensures op.ReadLevels? && Asked(t, op) ==> op.room == r && op.user == plan.oldUserId
    ensures op.WriteLevels? ==> (Asked(t, op) <==> op.room == r && op.user == plan.oldUserId && ReadBefore(plan, r, level, t, op.levels))
    ensures !OfPower(op) ==> !Asked(t, op)
  {
    var read := t[0].op;
    assert Asked(t, ReadLevels(r, plan.oldUserId, read.seen));
    if |t| == 2 {
      assert t[0] == Step(read, Done) && t[0] in t;
      assert Succeeded(t, ReadLevels(r, plan.oldUserId, read.seen));
      assert ReadBefore(plan, r, level, t, t[1].op.levels);
    }
  }

  lemma DataAsks(plan: Plan, r: RoomId, room: RoomPlan, t: seq<Step>, op: Op)
    requires Makes(t, RoomDataOps(plan, r, room))
    ensures op.SetRoomData? ==>
              (Asked(t, op) <==> op.room == r && op.user == plan.newUserId && op.key in room.accountData && op.content == room.accountData[op.key])
    ensures !op.SetRoomData? ==> !Asked(t, op)
  {
    var keys := SortedKeys(room.accountData.Keys);
    assert |t| == |keys|;
    if op.SetRoomData? && op.key in room.accountData {
      var i :| 0 <= i < |keys| && keys[i] == op.key;
      assert t[i].op == SetRoomData(r, plan.newUserId, keys[i], room.accountData[keys[i]]);
    }
  }

  lemma NothingAsked(op: Op)
    ensures !Asked([], op) && !Succeeded([], op)
  {
  }

  /** What succeeded in the whole is what succeeded in the part that makes such requests. */
  lemma PartOfRequest(plan: Plan, r: RoomId, room: RoomPlan, entry: seq<Step>, power: seq<Step>, data: seq<Step>, op: Op)
    requires || (StopsEntering(EntryOps(plan, r, room), entry) && power == data == [])
             || (Makes(entry, EntryOps(plan, r, room)) && AllDone(entry)
                 && (if room.powerLevel.Some? then SetsPowerLevel(plan, r, room.powerLevel.value, power) else power == [])
                 && Makes(data, RoomDataOps(plan, r, room)))
    ensures var part := if OfEntry(op) then entry else if OfPower(op) then power else data;
            && (Asked(entry + power + data, op) <==> Asked(part, op))
            && (Succeeded(entry + power + data, op) <==> Succeeded(part, op))
  {
    hide Asked, Succeeded, EntryOps, RoomDataOps, SetsPowerLevel, StopsEntering, Makes, AllDone;
    AskedInParts(entry, power, data, op);
    EntryAsks(plan, r, room, entry, op);
    NothingAsked(op);
    SucceededIsAsked(entry, op);
    SucceededIsAsked(power, op);
    SucceededIsAsked(data, op);
    hide PromptedIn;
    if StopsEntering(EntryOps(plan, r, room), entry) && power == data == [] {
    } else {
      DataAsks(plan, r, room, data, op);
      if room.powerLevel.Some? {
        PowerAsks(plan, r, room.powerLevel.value, power, op);
      }
    }
  }

  lemma StopsOrEnters(ops: seq<Op>, t: seq<Step>)
    requires StopsEntering(ops, t)
    ensures !(Makes(t, ops) && AllDone(t))
  {
  }

  /** A migration that did not enter its room. */
  lemma StoppedAsks(plan: Plan, r: RoomId, room: RoomPlan, t: seq<Step>, op: Op)
    requires StopsEntering(EntryOps(plan, r, room), t)
    ensures !op.ReadLevels? ==> (Asked(t, op) <==> PromptedIn(plan, r, room, t, op))
    ensures ReadsIn(plan, r, room, t)
  {
    hide Asked, Succeeded, EntryOps, StopsEntering, Makes, AllDone, Entered;
    StopsOrEnters(EntryOps(plan, r, room), t);
    EntryAsks(plan, r, room, t, op);
    EntryEntered(plan, r, room, t);
    forall user, seen
      ensures !Asked(t, ReadLevels(r, user, seen)) && !Succeeded(t, ReadLevels(r, user, seen))
    {
      EntryAsks(plan, r, room, t, ReadLevels(r, user, seen));
    }
  }

  /** Requests of each kind are those of one part. */
  ghost predicate SplitAs(t: seq<Step>, entry: seq<Step>, power: seq<Step>, data: seq<Step>) {
    forall op :: SplitFor(t, entry, power, data, op)
  }

  ghost predicate SplitFor(t: seq<Step>, entry: seq<Step>, power: seq<Step>, data: seq<Step>, op: Op) {
    var part := if OfEntry(op) then entry else if OfPower(op) then power else data;
    (Asked(t, op) <==> Asked(part, op)) && (Succeeded(t, op) <==> Succeeded(part, op))
  }

  lemma SplitEntered(plan: Plan, r: RoomId, room: RoomPlan, t: seq<Step>, entry: seq<Step>, power: seq<Step>, data: seq<Step>)
    requires SplitAs(t, entry, power, data)
    ensures Entered(plan, r, room, t) <==> Entered(plan, r, room, entry)
  {
    hide Succeeded, Asked;
    assert SplitFor(t, entry, power, data, Invite(r, plan.oldUserId, plan.newUserId));
    assert SplitFor(t, entry, power, data, WaitForInvite(r, plan.newUserId));
    assert SplitFor(t, entry, power, data, Join(r, plan.newUserId));
  }

  lemma SplitPrompts(plan: Plan, r: RoomId, room: RoomPlan, t: seq<Step>, entry: seq<Step>, power: seq<Step>, data: seq<Step>, op: Op)
    requires SplitAs(t, entry, power, data) && !op.SetRoomData?
    ensures PromptedIn(plan, r, room, t, op) <==> PromptedIn(plan, r, room, if OfEntry(op) then entry else power, op)
  {
    hide Succeeded, Asked, Entered;
    assert SplitFor(t, entry, power, data, Invite(r, plan.oldUserId, plan.newUserId));
    assert SplitFor(t, entry, power, data, WaitForInvite(r, plan.newUserId));
    if op.WriteLevels? {
      forall seen
        ensures Succeeded(t, ReadLevels(r, plan.oldUserId, seen)) <==> Succeeded(power, ReadLevels(r, plan.oldUserId, seen))
      {
        assert SplitFor(t, entry, power, data, ReadLevels(r, plan.oldUserId, seen));
      }
    }
  }

  /** A migration asks for exactly what it is prompted to, but for reads of levels. */
  lemma MigrationAsks(plan: Plan, r: RoomId, room: RoomPlan, t: seq<Step>, op: Op)
    requires MigratesRoom(plan, r, room, t) && !op.ReadLevels?
    ensures Asked(t, op) <==> PromptedIn(plan, r, room, t, op)
  {
    var entry, power, data := SplitMigration(plan, r, room, t);
    hide MigratesRoom, Asked, Succeeded, EntryOps, RoomDataOps, SetsPowerLevel, StopsEntering, Makes, AllDone;
    if StopsEntering(EntryOps(plan, r, room), t) {
      StoppedAsks(plan, r, room, t, op);
    } else {
      assert SplitFor(t, entry, power, data, op);
      EntryAsks(plan, r, room, entry, op);
      EntryEntered(plan, r, room, entry);
      SplitEntered(plan, r, room, t, entry, power, data);
      if !op.SetRoomData? {
        SplitPrompts(plan, r, room, t, entry, power, data, op);
      }
      hide SplitAs, Entered;
      DataAsks(plan, r, room, data, op);
      NothingAsked(op);
      if room.powerLevel.Some? {
        PowerAsks(plan, r, room.powerLevel.value, power, op);
      }
    }
  }

  lemma SplitMigration(plan: Plan, r: RoomId, room: RoomPlan, t: seq<Step>) returns (entry: seq<Step>, power: seq<Step>, data: seq<Step>)
    requires MigratesRoom(plan, r, room, t)
    ensures || StopsEntering(EntryOps(plan, r, room), t)
            || (SplitAs(t, entry, power, data)
                && Makes(entry, EntryOps(plan, r, room)) && AllDone(entry)
                && (if room.powerLevel.Some? then SetsPowerLevel(plan, r, room.powerLevel.value, power) else power == [])
                && Makes(data, RoomDataOps(plan, r, room)))
  {
    entry, power, data := PartsOf(plan, r, room, t);
    hide MigratesRoom, Asked, Succeeded, EntryOps, RoomDataOps, SetsPowerLevel, StopsEntering, Makes, AllDone;
    assert power == data == [] ==> t == entry;
    forall op
      ensures SplitFor(t, entry, power, data, op)
    {
      PartOfRequest(plan, r, room, entry, power, data, op);
    }
  }

  lemma MigrationReads(plan: Plan, r: RoomId, room: RoomPlan, t: seq<Step>)
    requires MigratesRoom(plan, r, room, t)
    ensures ReadsIn(plan, r, room, t)
  {
    var entry, power, data := SplitMigration(plan, r, room, t);
    hide MigratesRoom, Asked, Succeeded, EntryOps, RoomDataOps, SetsPowerLevel, StopsEntering, Makes, AllDone, Entered, ReadsIn;
    if StopsEntering(EntryOps(plan, r, room), t) {
      StoppedAsks(plan, r, room, t, Join(r, plan.newUserId));
    } else {
      EntryEntered(plan, r, room, entry);
      SplitEntered(plan, r, room, t, entry, power, data);
      if room.powerLevel.Some? {
        PowerReads(plan, r, room.powerLevel.value, power);
      } else {
        NothingReads(plan, r);
      }
      SplitReads(plan, r, room, t, entry, power, data);
    }
  }

  lemma SplitReads(plan: Plan, r: RoomId, room: RoomPlan, t: seq<Step>, entry: seq<Step>, power: seq<Step>, data: seq<Step>)
    requires SplitAs(t, entry, power, data) && Entered(plan, r, room, t)
    requires (exists seen :: Asked(power, ReadLevels(r, plan.oldUserId, seen))) <==> room.powerLevel.Some?
    requires forall user, seen :: Asked(power, ReadLevels(r, user, seen)) ==> user == plan.oldUserId
    ensures ReadsIn(plan, r, room, t)
  {
    hide Asked, Succeeded, Entered;
    forall user, seen
      ensures Asked(t, ReadLevels(r, user, seen)) <==> Asked(power, ReadLevels(r, user, seen))
    {
      assert SplitFor(t, entry, power, data, ReadLevels(r, user, seen));
    }
  }

  lemma PowerReads(plan: Plan, r: RoomId, level: Int, t: seq<Step>)
    requires SetsPowerLevel(plan, r, level, t)
    ensures exists seen :: Asked(t, ReadLevels(r, plan.oldUserId, seen))
    ensures forall user, seen :: Asked(t, ReadLevels(r, user, seen)) ==> user == plan.oldUserId
  {
    hide SetsPowerLevel, Asked, ReadBefore;
    PowerAsks(plan, r, level, t, Join(r, plan.newUserId));
    forall user, seen | Asked(t, ReadLevels(r, user, seen))
      ensures user == plan.oldUserId
    {
      PowerAsks(plan, r, level, t, ReadLevels(r, user, seen));
    }
  }

  lemma NothingReads(plan: Plan, r: RoomId)
    ensures forall user, seen :: !Asked([], ReadLevels(r, user, seen))
  {
  }

  // The whole run

  /** The plan has the request, and nothing that it waits for in `t` failed. */
  ghost predicate Prompted(plan: Plan, t: seq<Step>, op: Op) {
    match op
    case SetGlobal(user, key, content) => user == plan.newUserId && key in plan.globalAccountData && content == plan.globalAccountData[key]
    case Leave(r, user) => r in plan.rooms && plan.rooms[r].leave && user == plan.oldUserId && NothingFailed(t, r)
    case _ => op.room in plan.rooms && PromptedIn(plan, op.room, plan.rooms[op.room], t, op)
  }

  /** No request of the migration of `r` failed, and no global one. */
  ghost predicate NothingFailed(t: seq<Step>, r: RoomId) {
    forall x :: x in t && !x.op.Leave? && (x.op.SetGlobal? || x.op.room == r) ==> x.outcome.Done?
  }

  lemma StepsOfRun(run: Run, x: Step)
    ensures x in run.Trace() <==> x in Flatten(run.migrations) || x in run.globals || x in run.leaves
  {
  }

  lemma {:induction false} InFlatten(ms: seq<seq<Step>>, i: nat, x: Step)
    requires i < |ms| && x in ms[i]
    ensures x in Flatten(ms)
    decreases |ms|
  {
    if i < |ms| - 1 {
      InFlatten(ms[..|ms| - 1], i, x);
    }
  }

  /** What a run does about a room is in the migration of that room, leaves apart. */
  lemma RoomSteps(plan: Plan, run: Run, i: nat, x: Step)
    requires RunOf(plan, run) && i < |run.migrations| && i < |RoomOrder(plan)| && Phase(x.op) == 0 && x.op.room == RoomOrder(plan)[i]
    ensures x in run.Trace() <==> x in run.migrations[i]
  {
    RunMigrates(plan, run);
    GlobalsAreGlobal(plan, run);
    LeavesAreLeaves(plan, run);
    MigrationsInOrder(plan, run.migrations);
    AscendingDistinct(RoomOrder(plan));
    StepsOfRun(run, x);
    hide RunOf, InOrder, LeavesOneOf, MigratesRooms, Flatten, AllDone, SortedKeys;
    if x in run.migrations[i] {
      InFlatten(run.migrations, i, x);
    }
    assert x in run.leaves ==> x.op.Leave?;
    if x in Flatten(run.migrations) {
      assert OfMigrations(plan, run.migrations, x);
      var j :| 0 <= j < |run.migrations| && x.op.room == RoomOrder(plan)[j] && x in run.migrations[j];
      assert j == i;
    }
  }

  lemma OnlyPlannedRooms(plan: Plan, run: Run, x: Step)
    requires RunOf(plan, run) && x in run.Trace() && Phase(x.op) == 0
    ensures x.op.room in plan.rooms
  {
    RunMigrates(plan, run);
    GlobalsAreGlobal(plan, run);
    LeavesAreLeaves(plan, run);
    MigrationsInOrder(plan, run.migrations);
    StepsOfRun(run, x);
    hide RunOf, InOrder, LeavesOneOf, MigratesRooms, Flatten, AllDone;
    assert x in run.leaves ==> x.op.Leave?;
    assert OfMigrations(plan, run.migrations, x);
    var j :| 0 <= j < |run.migrations| && x.op.room == RoomOrder(plan)[j] && x in run.migrations[j];
    assert RoomOrder(plan)[j] in RoomOrder(plan);
  }

  /** The run and the migration of `r` agree about a request that concerns `r`. */
  ghost predicate AgreeOn(all: seq<Step>, t: seq<Step>, op: Op) {
    (Asked(all, op) <==> Asked(t, op)) && (Succeeded(all, op) <==> Succeeded(t, op))
  }

  ghost predicate AgreeAbout(all: seq<Step>, t: seq<Step>, r: RoomId) {
    forall op :: Phase(op) == 0 && op.room == r ==> AgreeOn(all, t, op)
  }

  lemma RunAndMigration(plan: Plan, run: Run, i: nat)
    requires RunOf(plan, run) && i < |run.migrations| && i < |RoomOrder(plan)|
    ensures AgreeAbout(run.Trace(), run.migrations[i], RoomOrder(plan)[i])
  {
    hide RunOf, Asked, Flatten, RoomOrder;
    var all, t := run.Trace(), run.migrations[i];
    forall op | Phase(op) == 0 && op.room == RoomOrder(plan)[i]
      ensures AgreeOn(all, t, op)
    {
      forall o
        ensures Step(op, o) in all <==> Step(op, o) in t
      {
        RoomSteps(plan, run, i, Step(op, o));
      }
      AskedAsStep(all, op);
      AskedAsStep(t, op);
    }
  }

  lemma AgreePrompts(plan: Plan, r: RoomId, room: RoomPlan, all: seq<Step>, t: seq<Step>, op: Op)
    requires AgreeAbout(all, t, r) && Phase(op) == 0
    ensures PromptedIn(plan, r, room, all, op) <==> PromptedIn(plan, r, room, t, op)
    ensures ReadsIn(plan, r, room, all) <==> ReadsIn(plan, r, room, t)
  {
    hide Asked, Succeeded;
    assert AgreeOn(all, t, Invite(r, plan.oldUserId, plan.newUserId));
    assert AgreeOn(all, t, WaitForInvite(r, plan.newUserId));
    assert AgreeOn(all, t, Join(r, plan.newUserId));
    forall user, seen
      ensures AgreeOn(all, t, ReadLevels(r, user, seen))
    {
    }
    hide AgreeAbout;
  }

  lemma IndexOf(plan: Plan, run: Run, r: RoomId) returns (i: nat)
    requires RunOf(plan, run) && r in plan.rooms
    ensures i < |run.migrations| == |RoomOrder(plan)| && RoomOrder(plan)[i] == r
    ensures MigratesRoom(plan, r, plan.rooms[r], run.migrations[i])
  {
    hide MigratesRoom, LeaveOps, GlobalOps, Makes;
    var order := RoomOrder(plan);
    assert r in order;
    i :| 0 <= i < |order| && order[i] == r;
  }

  lemma RoomRequests(plan: Plan, run: Run, op: Op)
    requires RunOf(plan, run) && Phase(op) == 0 && !op.ReadLevels?
    ensures Asked(run.Trace(), op) <==> Prompted(plan, run.Trace(), op)
  {
    hide RunOf, PromptedIn, Asked, MigratesRoom, AgreeAbout;
    if op.room in plan.rooms {
      var i := IndexOf(plan, run, op.room);
      RunAndMigration(plan, run, i);
      AgreePrompts(plan, op.room, plan.rooms[op.room], run.Trace(), run.migrations[i], op);
      MigrationAsks(plan, op.room, plan.rooms[op.room], run.migrations[i], op);
      AgreeApplied(run.Trace(), run.migrations[i], op);
    } else {
      AskedAsStep(run.Trace(), op);
      if Asked(run.Trace(), op) {
        var o :| Step(op, o) in run.Trace();
        OnlyPlannedRooms(plan, run, Step(op, o));
      }
    }
  }

  lemma AgreeApplied(all: seq<Step>, t: seq<Step>, op: Op)
    requires Phase(op) == 0 && AgreeAbout(all, t, op.room)
    ensures Asked(all, op) <==> Asked(t, op)
  {
    assert AgreeOn(all, t, op);
  }

  lemma GlobalRequests(plan: Plan, run: Run, op: Op)
    requires RunOf(plan, run) && op.SetGlobal?
    ensures Asked(run.Trace(), op) <==> Prompted(plan, run.Trace(), op)
  {
    AskedInParts(Flatten(run.migrations), run.globals, run.leaves, op);
    NoOtherGlobals(plan, run, op);
    GlobalsAsk(plan, run, op);
    hide RunOf, Asked;
  }

  lemma NoOtherGlobals(plan: Plan, run: Run, op: Op)
    requires RunOf(plan, run) && op.SetGlobal?
    ensures !Asked(Flatten(run.migrations), op) && !Asked(run.leaves, op)
  {
    RunMigrates(plan, run);
    LeavesAreLeaves(plan, run);
    MigrationsSetNoGlobals(plan, run.migrations);
    hide RunOf, LeavesOneOf, MigratesRooms, Flatten;
  }

  lemma GlobalsAsk(plan: Plan, run: Run, op: Op)
    requires RunOf(plan, run) && op.SetGlobal?
    ensures Asked(run.globals, op) <==>
              op.user == plan.newUserId && op.key in plan.globalAccountData && op.content == plan.globalAccountData[op.key]
  {
    hide MigratesRooms, LeaveOps;
    var keys := SortedKeys(plan.globalAccountData.Keys);
    if op.key in plan.globalAccountData {
      var i :| 0 <= i < |keys| && keys[i] == op.key;
      assert run.globals[i].op == SetGlobal(plan.newUserId, keys[i], plan.globalAccountData[keys[i]]);
    }
  }

  lemma LeaveRequests(plan: Plan, run: Run, op: Op)
    requires RunOf(plan, run) && op.Leave?
    ensures Asked(run.Trace(), op) <==> Prompted(plan, run.Trace(), op)
  {
    AskedInParts(Flatten(run.migrations), run.globals, run.leaves, op);
    NoEarlyLeaves(plan, run, op);
    LeavesAsk(plan, run, op);
    hide RunOf, Asked, LeavesRoom;
    if op.room in plan.rooms {
      var i := IndexOf(plan, run, op.room);
      NothingFailedInParts(plan, run, i);
      OnlyAt(plan, run, i, op);
    } else {
      LeavesPlannedRooms(plan, run, op);
    }
  }

  lemma NoEarlyLeaves(plan: Plan, run: Run, op: Op)
    requires RunOf(plan, run) && op.Leave?
    ensures !Asked(Flatten(run.migrations), op) && !Asked(run.globals, op)
  {
    NoEarlyLeave(plan, run);
    hide RunOf, Flatten;
    forall x | x in Flatten(run.migrations) || x in run.globals
      ensures x in Flatten(run.migrations) + run.globals
    {
    }
  }

  lemma LeavesAsk(plan: Plan, run: Run, op: Op)
    requires RunOf(plan, run)
    ensures |run.migrations| == |RoomOrder(plan)|
    ensures Asked(run.leaves, op) <==> AllDone(run.globals) && LeavesOneOf(plan, run.migrations, |run.migrations|, op)
  {
    hide MigratesRooms, LeaveOps, GlobalOps, AllDone, LeavesOneOf;
    if AllDone(run.globals) {
      var ops := LeaveOps(plan, run.migrations, |run.migrations|);
      LeaveOpsExact(plan, run.migrations, |run.migrations|, op);
      assert forall k :: 0 <= k < |run.leaves| ==> run.leaves[k].op == ops[k];
      if op in ops {
        var k :| 0 <= k < |ops| && ops[k] == op;
        assert run.leaves[k].op == op;
      }
    }
  }

  lemma OnlyAt(plan: Plan, run: Run, i: nat, op: Op)
    requires i < |run.migrations| == |RoomOrder(plan)| && op.Leave? && RoomOrder(plan)[i] == op.room
    ensures LeavesOneOf(plan, run.migrations, |run.migrations|, op) <==> LeavesRoom(plan, run.migrations, i, op)
  {
    AscendingDistinct(RoomOrder(plan));
    hide AllDone, SortedKeys;
  }

  lemma LeavesPlannedRooms(plan: Plan, run: Run, op: Op)
    requires |run.migrations| == |RoomOrder(plan)| && op.Leave? && op.room !in plan.rooms
    ensures !LeavesOneOf(plan, run.migrations, |run.migrations|, op)
  {
    assert forall i :: 0 <= i < |RoomOrder(plan)| ==> RoomOrder(plan)[i] in plan.rooms;
    hide AllDone, SortedKeys;
  }

  lemma NothingFailedInParts(plan: Plan, run: Run, i: nat)
    requires RunOf(plan, run) && i < |run.migrations| == |RoomOrder(plan)|
    ensures NothingFailed(run.Trace(), RoomOrder(plan)[i]) <==> AllDone(run.migrations[i]) && AllDone(run.globals)
  {
    var all, t, r := run.Trace(), run.migrations[i], RoomOrder(plan)[i];
    MigrationStepsOnly(plan, run, i);
    GlobalsAreGlobal(plan, run);
    forall x: Step
      ensures Phase(x.op) == 0 && x.op.room == r ==> (x in all <==> x in t)
      ensures x.op.SetGlobal? ==> (x in all <==> x in run.globals)
    {
      if Phase(x.op) == 0 && x.op.room == r {
        RoomSteps(plan, run, i, x);
      }
      if x.op.SetGlobal? {
        GlobalsOnly(plan, run, x);
      }
    }
    hide RunOf, Flatten, SortedKeys, RoomOrder, Run.Trace;
    FailuresOfParts(all, t, run.globals, r);
  }

  lemma MigrationStepsOnly(plan: Plan, run: Run, i: nat)
    requires RunOf(plan, run) && i < |run.migrations| == |RoomOrder(plan)|
    ensures forall x :: x in run.migrations[i] ==> Phase(x.op) == 0 && x.op.room == RoomOrder(plan)[i]
  {
    var t, r := run.migrations[i], RoomOrder(plan)[i];
    RunMigrates(plan, run);
    MigrationInOrder(plan, r, plan.rooms[r], t);
    hide RunOf, MigratesRooms, MigratesRoom, InOrder, SortedKeys;
  }

  lemma FailuresOfParts(all: seq<Step>, t: seq<Step>, globals: seq<Step>, r: RoomId)
    requires forall x :: x in t ==> Phase(x.op) == 0 && x.op.room == r
    requires forall x :: x in globals ==> x.op.SetGlobal?
    requires forall x: Step :: Phase(x.op) == 0 && x.op.room == r ==> (x in all <==> x in t)
    requires forall x: Step :: x.op.SetGlobal? ==> (x in all <==> x in globals)
    ensures NothingFailed(all, r) <==> AllDone(t) && AllDone(globals)
  {
    if NothingFailed(all, r) {
      assert forall k :: 0 <= k < |t| ==> t[k] in t;
      assert forall k :: 0 <= k < |globals| ==> globals[k] in globals;
    }
  }

  lemma GlobalsOnly(plan: Plan, run: Run, x: Step)
    requires RunOf(plan, run) && x.op.SetGlobal?
    ensures x in run.Trace() <==> x in run.globals
  {
    StepsOfRun(run, x);
    NoOtherGlobals(plan, run, x.op);
    hide RunOf, Flatten;
  }

  /**
    TRACE, EXACTLY. A request is in the trace of a run if and only if the plan has
    it and what it waits for has succeeded: an invite and the wait for it, a join
    after these; a write of the levels that were read; all account data of a room
    that was entered, whatever became of its power level; all global account data;
    and a leave of each marked room without a failure of the room or the account.
   */
  lemma AskedExactly(plan: Plan, run: Run, op: Op)
    requires RunOf(plan, run) && !op.ReadLevels?
    ensures Asked(run.Trace(), op) <==> Prompted(plan, run.Trace(), op)
  {
    hide RunOf, Asked, Prompted;
    if Phase(op) == 0 {
      RoomRequests(plan, run, op);
    } else if op.SetGlobal? {
      GlobalRequests(plan, run, op);
    } else {
      LeaveRequests(plan, run, op);
    }
  }

  /** Power levels are read in exactly the rooms that were entered and have a level planned. */
  lemma LevelsReadExactly(plan: Plan, run: Run, r: RoomId)
    requires RunOf(plan, run)
    ensures r in plan.rooms ==> ReadsIn(plan, r, plan.rooms[r], run.Trace())
    ensures r !in plan.rooms ==> forall user, seen :: !Asked(run.Trace(), ReadLevels(r, user, seen))
  {
    hide RunOf, ReadsIn, Asked, MigratesRoom, AgreeAbout;
    if r in plan.rooms {
      var i := IndexOf(plan, run, r);
      RunAndMigration(plan, run, i);
      AgreePrompts(plan, r, plan.rooms[r], run.Trace(), run.migrations[i], Join(r, plan.newUserId));
      MigrationReads(plan, r, plan.rooms[r], run.migrations[i]);
    } else {
      forall user, seen
        ensures !Asked(run.Trace(), ReadLevels(r, user, seen))
      {
        AskedAsStep(run.Trace(), ReadLevels(r, user, seen));
        if Asked(run.Trace(), ReadLevels(r, user, seen)) {
          var o :| Step(ReadLevels(r, user, seen), o) in run.Trace();
          OnlyPlannedRooms(plan, run, Step(ReadLevels(r, user, seen), o));
        }
      }
    }
  }
}
