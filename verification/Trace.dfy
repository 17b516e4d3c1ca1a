/**
  Runs of the executor (src/execute.rs) as traces of requests: the effect of a
  request on the server, and which traces are runs of a plan.
 */
module Trace {
  import opened Wrappers
  import opened Ordering
  import opened Homeserver
  import opened Planning

  /** The requests of a migration, with the user who makes each of them. */
  datatype Op =
    | Invite(room: RoomId, user: UserId, invitee: UserId)
    | WaitForInvite(room: RoomId, user: UserId)
    | Join(room: RoomId, user: UserId)
    | ReadLevels(room: RoomId, user: UserId, seen: LevelsEvent)
    | WriteLevels(room: RoomId, user: UserId, levels: LevelsEvent)
    | SetRoomData(room: RoomId, user: UserId, key: string, content: Content)
    | SetGlobal(user: UserId, key: string, content: Content)
    | Leave(room: RoomId, user: UserId)
  {
    predicate Concerns(r: RoomId) {
      !SetGlobal? && room == r
    }

    /** The effect of the request when the server applies it. */
    function Apply(w: World): World {
      match this
      case Invite(room, _, invitee) => w.SetMembership(room, invitee, Invited)
      case WaitForInvite(_, _) => w
      case Join(room, user) => w.SetMembership(room, user, Joined)
      case ReadLevels(_, _, _) => w
      case WriteLevels(room, _, levels) => w.SetRoom(room, w.RoomOf(room).(levels := Some(levels)))
      case SetRoomData(room, user, key, content) => w.SetRoomData(user, room, key, content)
      case SetGlobal(user, key, content) => w.SetGlobal(user, key, content)
      case Leave(room, user) => w.SetMembership(room, user, Left)
    }
  }

  /** A request that fails may have taken effect all the same, when its response is lost. */
  datatype Outcome = Done | Failed(applied: bool)

  datatype Step = Step(op: Op, outcome: Outcome) {
    function Effect(w: World): World {
      if outcome.Done? || outcome.applied then op.Apply(w) else w
    }
  }

  function Replay(w: World, t: seq<Step>): World {
    if t == [] then w else t[|t| - 1].Effect(Replay(w, t[..|t| - 1]))
  }

  /**
    Nobody else changed the power levels: each read saw what the trace had left
    there, as far as a client reads it.
   */
  ghost predicate Undisturbed(w: World, t: seq<Step>) {
    forall i :: 0 <= i < |t| && t[i].op.ReadLevels? ==>
      Replay(w, t[..i]).RoomOf(t[i].op.room).MayReadAs(t[i].op.seen)
  }

  ghost predicate AllDone(t: seq<Step>) {
    forall i :: 0 <= i < |t| ==> t[i].outcome.Done?
  }

  /** The steps of `t` make the requests `ops`, with any outcomes. */
  ghost predicate Makes(t: seq<Step>, ops: seq<Op>) {
    |t| == |ops| && forall i :: 0 <= i < |t| ==> t[i].op == ops[i]
  }

  // The runs of a plan

  function EntryOps(plan: Plan, r: RoomId, room: RoomPlan): seq<Op> {
    (if room.invite then [Invite(r, plan.oldUserId, plan.newUserId), WaitForInvite(r, plan.newUserId)] else []) +
    (if room.join then [Join(r, plan.newUserId)] else [])
  }

  function DataOps(keys: seq<string>, user: UserId, r: RoomId, data: AccountData): seq<Op>
    requires forall k :: k in keys ==> k in data
  {
    seq(|keys|, i requires 0 <= i < |keys| => SetRoomData(r, user, keys[i], data[keys[i]]))
  }

  function RoomDataOps(plan: Plan, r: RoomId, room: RoomPlan): seq<Op> {
    DataOps(SortedKeys(room.accountData.Keys), plan.newUserId, r, room.accountData)
  }

  function GlobalOps(keys: seq<string>, user: UserId, data: AccountData): seq<Op>
    requires forall k :: k in keys ==> k in data
  {
    seq(|keys|, i requires 0 <= i < |keys| => SetGlobal(user, keys[i], data[keys[i]]))
  }

  /** The map that was read, with the new user's entry. */
  function WithLevel(seen: LevelsEvent, user: UserId, level: Int): LevelsEvent {
    seen.(users := seen.users[user := level])
  }

  /** Setting the power level: a read of what survives redaction, and a write of what was read unless that failed. */
  ghost predicate SetsPowerLevel(plan: Plan, r: RoomId, level: Int, t: seq<Step>) {
    && 1 <= |t| <= 2
    && t[0].op.ReadLevels? && t[0].op.room == r && t[0].op.user == plan.oldUserId
    && t[0].op.seen == t[0].op.seen.Redacted()
    && (t[0].outcome.Done? <==> |t| == 2)
    && (|t| == 2 ==> t[1].op == WriteLevels(r, plan.oldUserId, WithLevel(t[0].op.seen, plan.newUserId, level)))
  }

  /** Entering the room stopped at its first failing request. */
  ghost predicate StopsEntering(ops: seq<Op>, t: seq<Step>) {
    && 0 < |t| <= |ops|
    && Makes(t, ops[..|t|])
    && AllDone(t[..|t| - 1])
    && !t[|t| - 1].outcome.Done?
  }

  /** Having entered the room: power level, then account data, whatever fails among them. */
  ghost predicate MigratesInside(plan: Plan, r: RoomId, room: RoomPlan, t: seq<Step>) {
    var n := PowerSteps(room, t);
    && n <= |t|
    && (room.powerLevel.Some? ==> SetsPowerLevel(plan, r, room.powerLevel.value, t[..n]))
    && Makes(t[n..], RoomDataOps(plan, r, room))
  }

  function PowerSteps(room: RoomPlan, t: seq<Step>): nat {
    if room.powerLevel.None? then 0
    else if t != [] && t[0].outcome.Done? then 2 else 1
  }

  /** The traces of the migration of one room. */
  ghost predicate MigratesRoom(plan: Plan, r: RoomId, room: RoomPlan, t: seq<Step>) {
    var entry := EntryOps(plan, r, room);
    || StopsEntering(entry, t)
    || (|entry| <= |t|
        && Makes(t[..|entry|], entry) && AllDone(t[..|entry|])
        && MigratesInside(plan, r, room, t[|entry|..]))
  }

  /** A run: the migration of each room in turn, the global writes, the leaves. */
  datatype Run = Run(migrations: seq<seq<Step>>, globals: seq<Step>, leaves: seq<Step>) {
    function Trace(): seq<Step> {
      Flatten(migrations) + globals + leaves
    }
  }

  function Flatten(ts: seq<seq<Step>>): seq<Step> {
    if ts == [] then [] else Flatten(ts[..|ts| - 1]) + ts[|ts| - 1]
  }

  function RoomOrder(plan: Plan): seq<RoomId> {
    SortedKeys(plan.rooms.Keys)
  }

  /** The requests to leave the first `n` rooms: those marked, and migrated without a failure. */
  ghost function LeaveOps(plan: Plan, migrations: seq<seq<Step>>, n: nat): seq<Op>
    requires n <= |RoomOrder(plan)| && n <= |migrations|
  {
    if n == 0 then []
    else
      var r := RoomOrder(plan)[n - 1];
      LeaveOps(plan, migrations, n - 1) +
      if plan.rooms[r].leave && AllDone(migrations[n - 1]) then [Leave(r, plan.oldUserId)] else []
  }

  ghost predicate MigratesRooms(plan: Plan, migrations: seq<seq<Step>>) {
    && |migrations| <= |RoomOrder(plan)|
    && forall i :: 0 <= i < |migrations| ==>
         MigratesRoom(plan, RoomOrder(plan)[i], plan.rooms[RoomOrder(plan)[i]], migrations[i])
  }

  /** The runs of `plan`, for every outcome of every request. */
  ghost predicate RunOf(plan: Plan, run: Run) {
    && |run.migrations| == |RoomOrder(plan)|
    && MigratesRooms(plan, run.migrations)
    && Makes(run.globals, GlobalOps(SortedKeys(plan.globalAccountData.Keys), plan.newUserId, plan.globalAccountData))
    && Makes(run.leaves, if AllDone(run.globals) then LeaveOps(plan, run.migrations, |run.migrations|) else [])
  }

  // Accounting

  function FailureCount(t: seq<Step>): nat {
    if t == [] then 0
    else FailureCount(t[..|t| - 1]) + if t[|t| - 1].outcome.Done? then 0 else 1
  }

  function FailedRooms(t: seq<Step>): set<RoomId> {
    set i | 0 <= i < |t| && !t[i].outcome.Done? && !t[i].op.SetGlobal? :: t[i].op.room
  }

  ghost predicate GlobalFailure(t: seq<Step>) {
    exists i :: 0 <= i < |t| && !t[i].outcome.Done? && t[i].op.SetGlobal?
  }

  // Concatenation

  lemma {:induction false} ReplayConcat(w: World, a: seq<Step>, b: seq<Step>)
    ensures Replay(w, a + b) == Replay(Replay(w, a), b)
  {
    if b == [] {
      assert a + b == a;
    } else {
      var n := |b| - 1;
      ReplayConcat(w, a, b[..n]);
      assert (a + b)[..|a + b| - 1] == a + b[..n];
    }
  }

  lemma UndisturbedConcat(w: World, a: seq<Step>, b: seq<Step>)
    ensures Undisturbed(w, a + b) <==> Undisturbed(w, a) && Undisturbed(Replay(w, a), b)
  {
    forall i | 0 <= i <= |a|
      ensures (a + b)[..i] == a[..i]
    {
    }
    forall i | 0 <= i <= |b|
      ensures (a + b)[..|a| + i] == a + b[..i]
      ensures Replay(w, (a + b)[..|a| + i]) == Replay(Replay(w, a), b[..i])
    {
      ReplayConcat(w, a, b[..i]);
    }
    if Undisturbed(w, a + b) {
      forall i | 0 <= i < |a| && a[i].op.ReadLevels?
        ensures Replay(w, a[..i]).RoomOf(a[i].op.room).MayReadAs(a[i].op.seen)
      {
        assert (a + b)[i] == a[i];
      }
      forall i | 0 <= i < |b| && b[i].op.ReadLevels?
        ensures Replay(Replay(w, a), b[..i]).RoomOf(b[i].op.room).MayReadAs(b[i].op.seen)
      {
        assert (a + b)[|a| + i] == b[i];
      }
    }
    if Undisturbed(w, a) && Undisturbed(Replay(w, a), b) {
      forall i | 0 <= i < |a + b| && (a + b)[i].op.ReadLevels?
        ensures Replay(w, (a + b)[..i]).RoomOf((a + b)[i].op.room).MayReadAs((a + b)[i].op.seen)
      {
        if i >= |a| {
          assert (a + b)[i] == b[i - |a|];
          assert (a + b)[..|a| + (i - |a|)] == (a + b)[..i];
        }
      }
    }
  }

  lemma {:induction false} FailureCountConcat(a: seq<Step>, b: seq<Step>)
    ensures FailureCount(a + b) == FailureCount(a) + FailureCount(b)
  {
    if b == [] {
      assert a + b == a;
    } else {
      FailureCountConcat(a, b[..|b| - 1]);
      assert (a + b)[..|a + b| - 1] == a + b[..|b| - 1];
    }
  }

  lemma FailedRoomsConcat(a: seq<Step>, b: seq<Step>)
    ensures FailedRooms(a + b) == FailedRooms(a) + FailedRooms(b)
    ensures GlobalFailure(a + b) <==> GlobalFailure(a) || GlobalFailure(b)
  {
    var t := a + b;
    forall r
      ensures r in FailedRooms(t) <==> r in FailedRooms(a) || r in FailedRooms(b)
    {
      if r in FailedRooms(a) {
        var i :| 0 <= i < |a| && !a[i].outcome.Done? && !a[i].op.SetGlobal? && a[i].op.room == r;
        assert t[i] == a[i];
      }
      if r in FailedRooms(b) {
        var i :| 0 <= i < |b| && !b[i].outcome.Done? && !b[i].op.SetGlobal? && b[i].op.room == r;
        assert t[|a| + i] == b[i];
      }
    }
    if GlobalFailure(a) {
      var i :| 0 <= i < |a| && !a[i].outcome.Done? && a[i].op.SetGlobal?;
      assert t[i] == a[i];
    }
    if GlobalFailure(b) {
      var i :| 0 <= i < |b| && !b[i].outcome.Done? && b[i].op.SetGlobal?;
      assert t[|a| + i] == b[i];
    }
  }
}
