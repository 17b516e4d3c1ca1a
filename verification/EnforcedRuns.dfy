/**
  Runs against a server that enforces its rules: it rejects what they do not
  permit, and answers everything else. Every plan has such a run, and in all of
  them what planning did not look at is asked for, and rejected.
 */
module EnforcedRuns {
  import opened Ordering
  import opened Homeserver
  import opened Planning
  import opened PlanProperties
  import opened Trace
  import opened Executor
  import opened Permissions
  import opened CleanRuns

  /** What a server that enforces its rules makes of a request. */
  ghost function Verdict(op: Op, w: World): Outcome {
    if Permitted(op, w) then Done else Failed(false)
  }

  ghost predicate Enforced(w: World, t: seq<Step>) {
    forall k :: 0 <= k < |t| ==> t[k].outcome == Verdict(t[k].op, Replay(w, t[..k]))
  }

  /** The trace of such a server, with nobody else interfering. */
  ghost predicate Answered(w: World, t: seq<Step>) {
    Enforced(w, t) && Undisturbed(w, t)
  }

  ghost predicate EnforcedRun(m: Migration, run: Run) {
    RunOf(m.FinalPlan(), run) && Answered(m.world, run.Trace())
  }

  // Every plan has one

  lemma AnsweredConcat(w: World, a: seq<Step>, b: seq<Step>)
    requires Answered(w, a) && Answered(Replay(w, a), b)
    ensures Answered(w, a + b)
  {
    UndisturbedConcat(w, a, b);
    hide Replay, Undisturbed, Verdict;
    forall k | 0 <= k < |a + b|
      ensures (a + b)[k].outcome == Verdict((a + b)[k].op, Replay(w, (a + b)[..k]))
    {
      if k < |a| {
        assert (a + b)[..k] == a[..k];
      } else {
        assert (a + b)[..k] == a + b[..k - |a|];
        ReplayConcat(w, a, b[..k - |a|]);
      }
    }
  }

  lemma NothingAnswered(w: World)
    ensures Answered(w, [])
  {
  }

  lemma AnswerOne(w: World, op: Op)
    requires op.ReadLevels? ==> w.RoomOf(op.room).MayReadAs(op.seen)
    ensures Answered(w, [Step(op, Verdict(op, w))])
  {
    hide Verdict;
    var t := [Step(op, Verdict(op, w))];
    assert t[..0] == [];
  }

  lemma {:induction false} AnswerAll(w: World, ops: seq<Op>) returns (t: seq<Step>)
    requires NoReads(ops)
    ensures Makes(t, ops) && Answered(w, t)
  {
    hide Answered, Verdict, Replay;
    if ops == [] {
      t := [];
      NothingAnswered(w);
    } else {
      var n := |ops| - 1;
      var before := AnswerAll(w, ops[..n]);
      var step := Step(ops[n], Verdict(ops[n], Replay(w, before)));
      AnswerOne(Replay(w, before), ops[n]);
      AnsweredConcat(w, before, [step]);
      t := before + [step];
    }
  }

  /** Entering a room stops at the first request that is rejected. */
  lemma {:induction false} AnswerEntry(w: World, ops: seq<Op>) returns (t: seq<Step>)
    requires NoReads(ops)
    ensures Answered(w, t) && (StopsEntering(ops, t) || (Makes(t, ops) && AllDone(t)))
  {
    hide Answered, Replay;
    if ops == [] {
      t := [];
      NothingAnswered(w);
    } else {
      var n := |ops| - 1;
      var before := AnswerEntry(w, ops[..n]);
      if StopsEntering(ops[..n], before) {
        t := before;
        assert ops[..n][..|t|] == ops[..|t|];
      } else {
        var step := Step(ops[n], Verdict(ops[n], Replay(w, before)));
        AnswerOne(Replay(w, before), ops[n]);
        AnsweredConcat(w, before, [step]);
        t := before + [step];
        EntryStep(ops, before, step);
      }
    }
  }

  lemma EntryStep(ops: seq<Op>, before: seq<Step>, step: Step)
    requires ops != [] && Makes(before, ops[..|ops| - 1]) && AllDone(before) && step.op == ops[|ops| - 1]
    ensures var t := before + [step]; StopsEntering(ops, t) || (Makes(t, ops) && AllDone(t))
  {
    var t := before + [step];
    assert ops[..|t|] == ops && t[..|t| - 1] == before;
  }

  lemma AnswerPower(w: World, plan: Plan, r: RoomId, room: RoomPlan) returns (t: seq<Step>)
    ensures if room.powerLevel.Some? then SetsPowerLevel(plan, r, room.powerLevel.value, t) else t == []
    ensures Answered(w, t)
  {
    if room.powerLevel.None? {
      t := [];
      NothingAnswered(w);
    } else {
      var seen := w.RoomOf(r).LevelsRead({});
      var read := Step(ReadLevels(r, plan.oldUserId, seen), Verdict(ReadLevels(r, plan.oldUserId, seen), w));
      AnswerOne(w, read.op);
      t := [read];
      if read.outcome.Done? {
        var op := WriteLevels(r, plan.oldUserId, WithLevel(seen, plan.newUserId, room.powerLevel.value));
        hide Answered, Verdict;
        AnswerOne(Replay(w, t), op);
        AnsweredConcat(w, t, [Step(op, Verdict(op, Replay(w, t)))]);
        t := t + [Step(op, Verdict(op, Replay(w, t)))];
      }
    }
  }

  lemma AnswerMigration(w: World, plan: Plan, r: RoomId, room: RoomPlan) returns (t: seq<Step>)
    ensures MigratesRoom(plan, r, room, t) && Answered(w, t)
  {
    hide MigratesRoom, Answered, Replay, Makes, SetsPowerLevel, RoomDataOps, EntryOps, NoReads, AllDone, StopsEntering;
    RoomRequestsRead(plan, r, room);
    var entry := AnswerEntry(w, EntryOps(plan, r, room));
    if StopsEntering(EntryOps(plan, r, room), entry) {
      t := entry;
      StoppedMigration(plan, r, room, t);
    } else {
      var w1 := Replay(w, entry);
      var power := AnswerPower(w1, plan, r, room);
      var data := AnswerAll(Replay(w1, power), RoomDataOps(plan, r, room));
      AnsweredConcat(w1, power, data);
      AnsweredConcat(w, entry, power + data);
      t := entry + power + data;
      assert t == entry + (power + data);
      EnteredMigration(plan, r, room, entry, power, data);
    }
  }

  lemma {:induction false} AnswerMigrations(w: World, plan: Plan, n: nat) returns (ms: seq<seq<Step>>)
    requires n <= |RoomOrder(plan)|
    ensures |ms| == n && MigratesRooms(plan, ms) && Answered(w, Flatten(ms))
  {
    hide MigratesRoom, Answered, Replay;
    if n == 0 {
      ms := [];
      NothingAnswered(w);
    } else {
      var before := AnswerMigrations(w, plan, n - 1);
      var r := RoomOrder(plan)[n - 1];
      var t := AnswerMigration(Replay(w, Flatten(before)), plan, r, plan.rooms[r]);
      ms := before + [t];
      assert ms[..n - 1] == before;
      AnsweredConcat(w, Flatten(before), t);
    }
  }

  /** Every plan has a run against a server that enforces its rules. */
  lemma EveryPlanHasEnforcedRun(m: Migration) returns (run: Run)
    ensures EnforcedRun(m, run)
  {
    hide Migration.FinalPlan, MigratesRooms, Answered, AllDone, Replay, Makes, NoReads, LeaveOps, GlobalOps;
    var plan := m.FinalPlan();
    var ms := AnswerMigrations(m.world, plan, |RoomOrder(plan)|);
    WritesAndLeavesRead(plan, ms);
    NoReadsInNothing();
    var before := Flatten(ms);
    var globals := AnswerAll(Replay(m.world, before), GlobalOps(SortedKeys(plan.globalAccountData.Keys), plan.newUserId, plan.globalAccountData));
    var leaves := AnswerAll(Replay(m.world, before + globals), if AllDone(globals) then LeaveOps(plan, ms, |ms|) else []);
    AnsweredConcat(m.world, before, globals);
    AnsweredConcat(m.world, before + globals, leaves);
    run := Run(ms, globals, leaves);
  }

  lemma NoReadsInNothing()
    ensures NoReads([])
  {
  }

  // What they have in common

  lemma {:induction false} FlattenAt(ms: seq<seq<Step>>, i: nat, j: nat) returns (k: nat)
    requires i < |ms| && j < |ms[i]|
    ensures k < |Flatten(ms)| && Flatten(ms)[k] == ms[i][j]
    ensures Flatten(ms)[..k] == Flatten(ms[..i]) + ms[i][..j]
    decreases |ms|
  {
    var n := |ms| - 1;
    if i == n {
      k := |Flatten(ms[..n])| + j;
    } else {
      k := FlattenAt(ms[..n], i, j);
      assert ms[..n][..i] == ms[..i] && Flatten(ms)[..k] == Flatten(ms[..n])[..k];
    }
  }

  /** A request of a migration succeeds exactly when it is admitted, and has its place in the trace. */
  lemma AnsweredIfAdmitted(m: Migration, run: Run, i: nat, j: nat) returns (k: nat)
    requires m.ListsJoinedRooms() && WellFormedLevels(m.world) && EnforcedRun(m, run)
    requires i < |run.migrations| && j < |run.migrations[i]|
    ensures var step := run.migrations[i][j];
            && k < |run.Trace()| && run.Trace()[k] == step
            && step.outcome == if Admitted(m, step.op) then Done else Failed(false)
  {
    hide RunOf, Migration.FinalPlan, Undisturbed, Permitted, Admitted, Replay;
    k := FlattenAt(run.migrations, i, j);
    assert run.Trace()[k] == run.migrations[i][j] && run.Trace()[..k] == Flatten(run.migrations)[..k];
    EveryRequestIsPermitted(m, run, k);
  }

  /** The migration of a planned room. */
  lemma MigrationOf(m: Migration, run: Run, r: RoomId) returns (i: nat)
    requires RunOf(m.FinalPlan(), run) && r in m.FinalPlan().rooms
    ensures i < |run.migrations| && MigratesRoom(m.FinalPlan(), r, m.FinalPlan().rooms[r], run.migrations[i])
  {
    hide Migration.FinalPlan, MigratesRoom, LeaveOps, GlobalOps, Makes;
    var order := RoomOrder(m.FinalPlan());
    assert r in order;
    i :| 0 <= i < |order| && order[i] == r;
  }

  /** Where a migration ends if the `p`-th request to enter the room is the first to fail. */
  lemma StopsAtFirst(plan: Plan, r: RoomId, room: RoomPlan, t: seq<Step>, p: nat)
    requires MigratesRoom(plan, r, room, t) && p < |EntryOps(plan, r, room)|
    requires forall j :: 0 <= j < |t| && j < p && t[j].op == EntryOps(plan, r, room)[j] ==> t[j].outcome.Done?
    requires p < |t| && t[p].op == EntryOps(plan, r, room)[p] ==> !t[p].outcome.Done?
    ensures p < |t| && t[p].op == EntryOps(plan, r, room)[p]
  {
    hide EntryOps, MigratesRoom;
    EntryAnswers(plan, r, room, t);
    assert 0 < |t| <= |EntryOps(plan, r, room)| ==> t[|t| - 1].op == EntryOps(plan, r, room)[|t| - 1];
  }

  /** A migration makes the requests to enter its room in turn, up to the first that fails. */
  lemma EntryAnswers(plan: Plan, r: RoomId, room: RoomPlan, t: seq<Step>)
    requires MigratesRoom(plan, r, room, t)
    ensures var entry := EntryOps(plan, r, room);
            && (forall j :: 0 <= j < |t| && j < |entry| ==> t[j].op == entry[j])
            && ((|entry| <= |t| && forall j :: 0 <= j < |entry| ==> t[j].outcome.Done?)
                || (0 < |t| <= |entry| && !t[|t| - 1].outcome.Done? && forall j :: 0 <= j < |t| - 1 ==> t[j].outcome.Done?))
  {
    var entry := EntryOps(plan, r, room);
    hide EntryOps, MigratesInside;
    if StopsEntering(entry, t) {
      assert forall j :: 0 <= j < |t| ==> t[j].op == entry[..|t|][j];
      assert forall j :: 0 <= j < |t| - 1 ==> t[j] == t[..|t| - 1][j];
    } else {
      assert forall j :: 0 <= j < |entry| ==> t[j] == t[..|entry|][j];
    }
  }

  /** The requests to enter a room: an invite and the wait for it, a join. */
  lemma EntryRequests(plan: Plan, r: RoomId, room: RoomPlan, op: Op)
    ensures op in EntryOps(plan, r, room) <==>
              || (room.invite && (op == Invite(r, plan.oldUserId, plan.newUserId) || op == WaitForInvite(r, plan.newUserId)))
              || (room.join && op == Join(r, plan.newUserId))
  {
  }

  /** A step of the trace that the server rejects. */
  ghost predicate RejectedAt(run: Run, k: nat, op: Op) {
    k < |run.Trace()| && run.Trace()[k] == Step(op, Failed(false))
  }

  /** The first planned request to enter a room that is not admitted is asked for, and rejected. */
  lemma UnadmittedEntryIsRejected(m: Migration, run: Run, r: RoomId, p: nat) returns (k: nat)
    requires m.ListsJoinedRooms() && WellFormedLevels(m.world) && EnforcedRun(m, run) && r in m.FinalPlan().rooms
    requires var entry := EntryOps(m.FinalPlan(), r, m.FinalPlan().rooms[r]);
             p < |entry| && !Admitted(m, entry[p]) && forall q :: 0 <= q < p ==> Admitted(m, entry[q])
    ensures RejectedAt(run, k, EntryOps(m.FinalPlan(), r, m.FinalPlan().rooms[r])[p])
  {
    var plan := m.FinalPlan();
    var room := plan.rooms[r];
    var entry := EntryOps(plan, r, room);
    hide Migration.FinalPlan, EntryOps, Admitted, Answered, MigratesRoom, Migration.ListsJoinedRooms, WellFormedLevels;
    var i := MigrationOf(m, run, r);
    var t := run.migrations[i];
    forall j | 0 <= j < |t|
      ensures t[j].outcome == if Admitted(m, t[j].op) then Done else Failed(false)
    {
      var at := AnsweredIfAdmitted(m, run, i, j);
    }
    StopsAtFirst(plan, r, room, t, p);
    k := AnsweredIfAdmitted(m, run, i, p);
  }

  /** A planned invite by a user who only passes for a creator is rejected. */
  lemma UnadmittedInviteIsRejected(m: Migration, run: Run, r: RoomId) returns (k: nat)
    requires m.ListsJoinedRooms() && WellFormedLevels(m.world) && EnforcedRun(m, run) && r in m.oldJoined
    requires m.RoomPlanFor(r).invite && !InviteAdmitted(m, r)
    ensures RejectedAt(run, k, Invite(r, m.oldUser, m.newUser))
  {
    hide Migration.FinalPlan, EnforcedRun, InviteAdmitted, Migration.RoomPlanFor, WellFormedLevels, Migration.ListsJoinedRooms;
    EntryOfFinalPlan(m, r);
    PlanUsers(m);
    k := UnadmittedEntryIsRejected(m, run, r, 0);
  }

  /** A planned join that the room's rule does not admit is rejected, unless the invite before it is. */
  lemma UnadmittedJoinIsRejected(m: Migration, run: Run, r: RoomId) returns (k: nat)
    requires m.ListsJoinedRooms() && WellFormedLevels(m.world) && EnforcedRun(m, run) && r in m.oldJoined
    requires m.RoomPlanFor(r).join && !AdmitsInvited(m.world.RoomOf(r).joinRule)
    requires m.RoomPlanFor(r).invite ==> InviteAdmitted(m, r)
    ensures RejectedAt(run, k, Join(r, m.newUser))
  {
    hide Migration.FinalPlan, EnforcedRun, InviteAdmitted, AdmitsInvited, Migration.RoomPlanFor, WellFormedLevels, Migration.ListsJoinedRooms;
    EntryOfFinalPlan(m, r);
    PlanUsers(m);
    k := UnadmittedEntryIsRejected(m, run, r, if m.RoomPlanFor(r).invite then 2 else 0);
  }

  lemma StoppedByFailure(entry: seq<Op>, t: seq<Step>)
    ensures StopsEntering(entry, t) ==> exists j :: 0 <= j < |t| && t[j].op in entry && !t[j].outcome.Done?
  {
    if StopsEntering(entry, t) {
      assert t[|t| - 1].op == entry[..|t|][|t| - 1];
    }
  }

  /** With all requests to enter the room, and the read, successful, a migration comes to the write. */
  lemma ComesToWrite(plan: Plan, r: RoomId, room: RoomPlan, t: seq<Step>) returns (j: nat)
    requires MigratesRoom(plan, r, room, t) && room.powerLevel.Some?
    requires forall j :: 0 <= j < |t| && (t[j].op in EntryOps(plan, r, room) || t[j].op.ReadLevels?) ==> t[j].outcome.Done?
    ensures j < |t| && t[j].op.WriteLevels? && t[j].op == WriteLevels(r, plan.oldUserId, t[j].op.levels)
  {
    var entry := EntryOps(plan, r, room);
    hide EntryOps, RoomDataOps;
    var n := |entry|;
    StoppedByFailure(entry, t);
    var inside := t[n..];
    var k := PowerSteps(room, inside);
    assert inside[..k][0] == inside[0] == t[n];
    assert inside[..k][1] == inside[1] == t[n + 1];
    j := n + 1;
  }

  /** A planned write that is not admitted, whatever is read, comes to be asked for when the room is entered, and is rejected. */
  lemma UnadmittedWriteIsRejected(m: Migration, run: Run, r: RoomId) returns (k: nat, levels: LevelsEvent)
    requires m.ListsJoinedRooms() && WellFormedLevels(m.world) && EnforcedRun(m, run) && r in m.oldJoined
    requires m.RoomPlanFor(r).powerLevel.Some? && forall levels :: !WriteAdmitted(m, r, levels)
    requires m.RoomPlanFor(r).join ==> AdmitsInvited(m.world.RoomOf(r).joinRule)
    requires m.RoomPlanFor(r).invite ==> InviteAdmitted(m, r)
    ensures RejectedAt(run, k, WriteLevels(r, m.oldUser, levels))
  {
    hide Migration.FinalPlan, Answered, InviteAdmitted, AdmitsInvited, Migration.RoomPlanFor, WellFormedLevels, EntryOps;
    hide MigratesRoom, WriteAdmitted, Migration.ListsJoinedRooms;
    EntryOfFinalPlan(m, r);
    PlanUsers(m);
    var plan := m.FinalPlan();
    var room := plan.rooms[r];
    var i := MigrationOf(m, run, r);
    var t := run.migrations[i];
    forall j | 0 <= j < |t| && (t[j].op in EntryOps(plan, r, room) || t[j].op.ReadLevels?)
      ensures t[j].outcome.Done?
    {
      EntryRequests(plan, r, room, t[j].op);
      var at := AnsweredIfAdmitted(m, run, i, j);
    }
    var j := ComesToWrite(plan, r, room, t);
    k := AnsweredIfAdmitted(m, run, i, j);
    levels := t[j].op.levels;
  }
}
