/**
  Plans are executable. A server that enforces server ACLs and the
  authorization rules of Matrix room version 11, with the infinite levels of
  room creators from version 12, would allow every request of every run,
  with exceptions that are stated exactly. The server judges by its own levels,
  which are not always those that planning sees.
 */
module Permissions {
  import opened Wrappers
  import opened Homeserver
  import opened Planning
  import opened PlanProperties
  import opened Trace
  import opened Effects
  import opened LeaveSafety

  /** Join rules under which an invite lets a user in; without a rule, `invite` applies. */
  predicate AdmitsInvited(rule: Option<JoinRule>) {
    rule.None? || !(rule.value.Private? || rule.value.CustomRule?)
  }

  /** Rules 4.3 (join) of the m.room.member authorization, and the server ACL. */
  ghost predicate MayJoin(w: World, r: RoomId, user: UserId) {
    var state := w.RoomOf(r);
    var membership := w.MembershipOf(r, user);
    && (state.acl.Some? ==> state.acl.value.IsAllowed(user))
    && membership != Some(Banned)
    && (state.joinRule == Some(Public)
        || (AdmitsInvited(state.joinRule) && (membership == Some(Invited) || membership == Some(Joined))))
  }

  /** A changed level must not exceed the sender's, before or after. */
  predicate MayChangeLevel(mine: PowerLevel, before: Int, after: Int) {
    before != after ==> !mine.Less(Finite(before)) && !mine.Less(Finite(after))
  }

  /** Entries that are changed or removed must not exceed the sender's level, nor those that are changed or added. */
  ghost predicate MayChangeEntries(mine: PowerLevel, before: map<string, Int>, after: map<string, Int>) {
    && (forall k :: k in before && !(k in after && after[k] == before[k]) ==> !mine.Less(Finite(before[k])))
    && (forall k :: k in after && !(k in before && before[k] == after[k]) ==> !mine.Less(Finite(after[k])))
  }

  /** Rule 9 (m.room.power_levels), once there are levels: what a sender may change, entry by entry. */
  ghost predicate MayChangeLevels(mine: PowerLevel, user: UserId, before: LevelsEvent, after: LevelsEvent) {
    && MayChangeLevel(mine, before.usersDefault, after.usersDefault)
    && MayChangeLevel(mine, before.invite, after.invite)
    && MayChangeLevel(mine, before.powerLevelsEvent, after.powerLevelsEvent)
    && MayChangeEntries(mine, before.notifications, after.notifications)
    && (forall u :: u in before.users && u != user && !(u in after.users && after.users[u] == before.users[u]) ==>
          Finite(before.users[u]).Less(mine))
    && (forall u :: u in after.users && !(u in before.users && before.users[u] == after.users[u]) ==>
          !mine.Less(Finite(after.users[u])))
  }

  /** The first levels may be anything, but for entries of creators with an infinite level. */
  ghost predicate MayWriteLevels(room: Room, user: UserId, after: LevelsEvent) {
    && room.TrueLevels().CanSendPowerLevels(user)
    && after.Resolve(room.Infinite()).WellFormed()
    && (room.levels.Some? ==> MayChangeLevels(room.TrueLevels().ForUser(user), user, room.levels.value, after))
  }

  ghost predicate Permitted(op: Op, w: World) {
    match op
    case Invite(r, user, invitee) =>
      && w.MembershipOf(r, user) == Some(Joined)
      && w.MembershipOf(r, invitee) != Some(Joined) && w.MembershipOf(r, invitee) != Some(Banned)
      && w.RoomOf(r).TrueLevels().CanInvite(user)
    case WaitForInvite(r, user) => w.MembershipOf(r, user) == Some(Invited)
    case Join(r, user) => MayJoin(w, r, user)
    case ReadLevels(r, user, _) => w.MembershipOf(r, user) == Some(Joined)
    case WriteLevels(r, user, levels) =>
      w.MembershipOf(r, user) == Some(Joined) && MayWriteLevels(w.RoomOf(r), user, levels)
    case Leave(r, user) =>
      var membership := w.MembershipOf(r, user);
      membership == Some(Joined) || membership == Some(Invited) || membership == Some(Knocked)
    case SetRoomData(_, _, _, _) => true
    case SetGlobal(_, _, _) => true
  }

  /** Planning takes the user for a creator whose level is infinite, and the server does not. */
  predicate PassesForCreator(m: Migration, r: RoomId, user: UserId) {
    user in m.SeenPrivileged(r) && user !in m.world.RoomOf(r).Infinite()
  }

  /** The level of the user is infinite, and planning does not see it. */
  predicate UnseenCreator(m: Migration, r: RoomId, user: UserId) {
    user in m.world.RoomOf(r).Infinite() && user !in m.SeenPrivileged(r)
  }

  /** What planning does not look at before it plans to change `levels`. */
  ghost predicate ChangeAdmitted(m: Migration, r: RoomId, levels: LevelsEvent) {
    && (m.oldUser !in m.world.RoomOf(r).Infinite() ==>
          forall k :: k in levels.notifications ==> levels.notifications[k] <= levels.LevelOf(m.oldUser))
    && (PassesForCreator(m, r, m.oldUser) ==>
          levels.LevelOf(m.oldUser) == INT_MAX || (m.newUser in levels.users && levels.users[m.newUser] == INT_MAX))
  }

  ghost predicate WriteAdmitted(m: Migration, r: RoomId, written: LevelsEvent) {
    var room := m.world.RoomOf(r);
    && m.newUser !in room.Infinite() && (room.levels.None? ==> written.users.Keys !! room.Infinite())
    && room.TrueLevels().CanSendPowerLevels(m.oldUser)
    && (room.levels.Some? ==> ChangeAdmitted(m, r, room.levels.value))
  }

  predicate InviteAdmitted(m: Migration, r: RoomId) {
    var levels := m.world.RoomOf(r).FiniteLevels();
    PassesForCreator(m, r, m.oldUser) ==> levels.LevelOf(m.oldUser) >= levels.invite
  }

  /** The exceptions, by what the server holds before the migration starts. */
  ghost predicate Admitted(m: Migration, op: Op) {
    match op
    case Join(r, _) => AdmitsInvited(m.world.RoomOf(r).joinRule)
    case Invite(r, _, _) => InviteAdmitted(m, r)
    case WriteLevels(r, _, levels) => WriteAdmitted(m, r, levels)
    case _ => true
  }

  ghost predicate PermittedIfAdmitted(m: Migration, op: Op, w: World) {
    Permitted(op, w) <==> Admitted(m, op)
  }

  ghost predicate WellFormedLevels(w: World) {
    forall r :: w.RoomOf(r).TrueLevels().WellFormed()
  }

  /** Where no event sets levels, no infinite creator has an entry among the defaults. */
  lemma DefaultsWellFormed(m: Migration, r: RoomId)
    requires m.world.RoomOf(r).levels.None?
    ensures m.world.RoomOf(r).TrueLevels().WellFormed() && m.SeenLevels(r).WellFormed()
  {
  }

  /** The actions planned for `r`, in `room`. */
  ghost predicate ActsAsPlanned(m: Migration, r: RoomId, room: RoomPlan) {
    var planned := m.RoomPlanFor(r);
    room.invite == planned.invite && room.join == planned.join
    && room.powerLevel == planned.powerLevel && room.accountData == planned.accountData
  }

  lemma PlanUsers(m: Migration)
    ensures m.FinalPlan().oldUserId == m.oldUser && m.FinalPlan().newUserId == m.newUser
  {
  }

  lemma PlannedActions(m: Migration, r: RoomId)
    requires r in m.FinalPlan().rooms
    ensures r in m.oldJoined && ActsAsPlanned(m, r, m.FinalPlan().rooms[r])
  {
    assert r in m.MarkedRooms();
    EntryOfFinalPlan(m, r);
  }

  // Inside one migration

  lemma JoinPrerequisites(m: Migration, r: RoomId)
    requires m.ListsJoinedRooms() && r in m.oldJoined && m.PlansJoin(r)
    ensures m.oldUser != m.newUser
    ensures var state, membership := m.world.RoomOf(r), m.world.MembershipOf(r, m.newUser);
            && membership != Some(Joined) && membership != Some(Banned)
            && (state.acl.Some? ==> state.acl.value.IsAllowed(m.newUser))
            && (m.JoinOutcome(r) == Success(true) ==> m.SeenLevels(r).CanInvite(m.oldUser))
            && (m.JoinOutcome(r) == Success(false) ==> membership == Some(Invited) || state.joinRule == Some(Public))
  {
  }

  lemma EntryPermitted(m: Migration, plan: Plan, r: RoomId, room: RoomPlan, w: World, t: seq<Step>, j: nat)
    requires m.ListsJoinedRooms() && r in m.oldJoined && ActsAsPlanned(m, r, room)
    requires plan.oldUserId == m.oldUser && plan.newUserId == m.newUser
    requires SameAbout(r, m.world, w)
    requires j < |EntryOps(plan, r, room)| && |t| == j && Makes(t, EntryOps(plan, r, room)[..j]) && AllDone(t)
    ensures PermittedIfAdmitted(m, EntryOps(plan, r, room)[j], Replay(w, t))
  {
    hide Permitted, PermittedIfAdmitted, Replay;
    PlannedEntry(m, r, room);
    if j == 0 {
      assert t == [];
      ReplayNone(w);
    } else if j == 1 {
      assert t == [t[0]];
      ReplayOne(w, t[0]);
    } else {
      assert t == [t[0], t[1]];
      ReplayTwo(w, t[0], t[1]);
    }
    hide ActsAsPlanned, SameAbout, Migration.ListsJoinedRooms, World.SetMembership, Makes;
    if room.invite && j == 0 {
      FirstInvitePermitted(m, r, w);
    } else {
      if room.invite {
        MembershipEffect(w, r, m.newUser, Invited);
      }
      WaitOrJoinPermitted(m, r, room, w, Replay(w, t));
    }
  }

  /** A room to be entered is one to be joined, and an invite is what planning said it takes. */
  lemma PlannedEntry(m: Migration, r: RoomId, room: RoomPlan)
    requires ActsAsPlanned(m, r, room) && (room.invite || room.join)
    ensures room.join && m.PlansJoin(r) && (room.invite <==> m.JoinOutcome(r) == Success(true))
  {
    hide Migration.JoinOutcome, Migration.RoomErrors, Migration.RoomTags, Migration.RoomPowerLevel;
  }

  lemma FirstInvitePermitted(m: Migration, r: RoomId, w: World)
    requires m.ListsJoinedRooms() && r in m.oldJoined && SameAbout(r, m.world, w)
    requires m.PlansJoin(r) && m.JoinOutcome(r) == Success(true)
    ensures PermittedIfAdmitted(m, Invite(r, m.oldUser, m.newUser), w)
  {
    JoinPrerequisites(m, r);
    InvitePermitted(m, r);
    hide Migration.JoinOutcome, Migration.SeenLevels, InviteAdmitted;
  }

  lemma WaitOrJoinPermitted(m: Migration, r: RoomId, room: RoomPlan, w: World, now: World)
    requires m.ListsJoinedRooms() && r in m.oldJoined && SameAbout(r, m.world, w)
    requires m.PlansJoin(r) && (room.invite <==> m.JoinOutcome(r) == Success(true))
    requires var members := w.RoomOf(r).members;
             now.RoomOf(r) == w.RoomOf(r).(members := if room.invite then members[m.newUser := Invited] else members)
    ensures room.invite ==> PermittedIfAdmitted(m, WaitForInvite(r, m.newUser), now)
    ensures PermittedIfAdmitted(m, Join(r, m.newUser), now)
  {
    JoinPrerequisites(m, r);
    hide Migration.JoinOutcome, Migration.SeenLevels, World.RoomOf;
  }

  ghost predicate SameLevels(a: Room, b: Room) {
    a.levels == b.levels && a.create == b.create && a.stateDefault == b.stateDefault
  }

  /** The server allows a planned write exactly when it meets what planning did not look at. */
  lemma WritePermitted(m: Migration, r: RoomId, room: Room, seen: LevelsEvent, level: Int)
    requires SameLevels(room, m.world.RoomOf(r)) && room.MayReadAs(seen)
    requires room.TrueLevels().WellFormed() && m.PowerLevelToSet(m.SeenLevels(r)) == Some(level)
    ensures var written := WithLevel(seen, m.newUser, level);
            MayWriteLevels(room, m.oldUser, written) <==> WriteAdmitted(m, r, written)
  {
    var written := WithLevel(seen, m.newUser, level);
    var before := m.world.RoomOf(r);
    assert m.newUser in written.users;
    assert room.Infinite() == before.Infinite() && room.TrueLevels() == before.TrueLevels() && room.levels == before.levels;
    if room.levels.Some? {
      hide Room.TrueLevels, Room.MayReadAs;
      ChangePermitted(m, r, level);
    }
  }

  lemma ChangePermitted(m: Migration, r: RoomId, level: Int)
    requires m.world.RoomOf(r).levels.Some? && m.PowerLevelToSet(m.SeenLevels(r)) == Some(level)
    ensures var room := m.world.RoomOf(r);
            room.TrueLevels().CanSendPowerLevels(m.oldUser) ==>
              (MayChangeLevels(room.TrueLevels().ForUser(m.oldUser), m.oldUser, room.levels.value,
                               WithLevel(room.levels.value.Redacted(), m.newUser, level))
               <==> ChangeAdmitted(m, r, room.levels.value))
  {
    assert m.newUser in WithLevel(m.world.RoomOf(r).levels.value.Redacted(), m.newUser, level).users;
  }

  lemma InvitePermitted(m: Migration, r: RoomId)
    requires m.SeenLevels(r).CanInvite(m.oldUser)
    ensures m.world.RoomOf(r).TrueLevels().CanInvite(m.oldUser) <==> InviteAdmitted(m, r)
  {
  }

  /** After entering: the old user is still in the room, and its levels are those planned from. */
  lemma InsidePermitted(m: Migration, plan: Plan, r: RoomId, room: RoomPlan, w: World, t: seq<Step>, j: nat)
    requires r in m.oldJoined && ActsAsPlanned(m, r, room)
    requires plan.oldUserId == m.oldUser && plan.newUserId == m.newUser
    requires w.MembershipOf(r, m.oldUser) == Some(Joined)
    requires SameLevels(w.RoomOf(r), m.world.RoomOf(r))
    requires WellFormedLevels(m.world)
    requires MigratesInside(plan, r, room, t) && Undisturbed(w, t) && j < |t|
    ensures PermittedIfAdmitted(m, t[j].op, Replay(w, t[..j]))
  {
    hide Undisturbed, Replay, Permitted, SetsPowerLevel, MigratesInside, PowerSteps, PermittedIfAdmitted, WellFormedLevels;
    InsideParts(plan, r, room, t, j);
    var k := PowerSteps(room, t);
    if j >= k {
      DataPermitted(m, t[j].op, Replay(w, t[..j]));
    } else {
      UndisturbedConcat(w, t[..k], t[k..]);
      PlannedPowerLevel(m, r, room);
      PowerPermitted(m, plan, r, room.powerLevel.value, w, t[..k], j);
    }
  }

  lemma AllRoomData(plan: Plan, r: RoomId, room: RoomPlan, t: seq<Step>)
    requires Makes(t, RoomDataOps(plan, r, room))
    ensures forall i :: 0 <= i < |t| ==> t[i].op.SetRoomData?
  {
  }

  lemma InsideParts(plan: Plan, r: RoomId, room: RoomPlan, t: seq<Step>, j: nat)
    requires MigratesInside(plan, r, room, t) && j < |t|
    ensures var k := PowerSteps(room, t);
            && k <= |t| && t == t[..k] + t[k..]
            && (k <= j ==> t[j].op.SetRoomData?)
            && (j < k ==> room.powerLevel.Some? && SetsPowerLevel(plan, r, room.powerLevel.value, t[..k])
                          && t[..k][j] == t[j] && t[..k][..j] == t[..j])
  {
    hide SetsPowerLevel, Makes, RoomDataOps;
    var k := PowerSteps(room, t);
    if k <= j {
      assert t[k..][j - k] == t[j];
      AllRoomData(plan, r, room, t[k..]);
    }
  }

  lemma PlannedPowerLevel(m: Migration, r: RoomId, room: RoomPlan)
    requires ActsAsPlanned(m, r, room) && room.powerLevel.Some?
    ensures m.RoomPowerLevel(r) == room.powerLevel
  {
    hide Migration.RoomPowerLevel;
  }

  lemma DataPermitted(m: Migration, op: Op, w: World)
    requires op.SetRoomData? || op.SetGlobal?
    ensures PermittedIfAdmitted(m, op, w)
  {
  }

  lemma PowerPermitted(m: Migration, plan: Plan, r: RoomId, level: Int, w: World, t: seq<Step>, j: nat)
    requires plan.oldUserId == m.oldUser && plan.newUserId == m.newUser && m.RoomPowerLevel(r) == Some(level)
    requires w.MembershipOf(r, m.oldUser) == Some(Joined)
    requires SameLevels(w.RoomOf(r), m.world.RoomOf(r))
    requires WellFormedLevels(m.world)
    requires SetsPowerLevel(plan, r, level, t) && Undisturbed(w, t) && j < |t|
    ensures PermittedIfAdmitted(m, t[j].op, Replay(w, t[..j]))
  {
    hide MayWriteLevels, WriteAdmitted, Migration.SeenPrivileged, InviteAdmitted, MayJoin, AdmitsInvited;
    assert t[..0] == [];
    if j == 1 {
      assert t[..1] == [t[0]];
      ReplayOne(w, t[0]);
      WritePermitted(m, r, w.RoomOf(r), t[0].op.seen, level);
    }
  }

  lemma MigrationPermitted(m: Migration, plan: Plan, r: RoomId, room: RoomPlan, w: World, t: seq<Step>, j: nat)
    requires m.ListsJoinedRooms() && r in m.oldJoined && ActsAsPlanned(m, r, room) && WellFormedLevels(m.world)
    requires plan.oldUserId == m.oldUser && plan.newUserId == m.newUser
    requires SameAbout(r, m.world, w) && MigratesRoom(plan, r, room, t) && Undisturbed(w, t) && j < |t|
    ensures PermittedIfAdmitted(m, t[j].op, Replay(w, t[..j]))
  {
    hide Undisturbed, Permitted, MigratesRoom, EntryOps, ActsAsPlanned, PermittedIfAdmitted, Makes, AllDone, SameAbout;
    hide MigratesInside, Replay, WellFormedLevels, Migration.ListsJoinedRooms;
    var n := |EntryOps(plan, r, room)|;
    if j < n {
      EntryPrefix(plan, r, room, t, j);
      EntryPermitted(m, plan, r, room, w, t[..j], j);
    } else {
      var before, inside := EnteredParts(plan, r, room, t, j);
      UndisturbedConcat(w, before, inside);
      ReplayConcat(w, before, inside[..j - n]);
      EnteredPermitted(m, plan, r, room, w, before, inside, j - n);
    }
  }

  lemma EnteredPermitted(m: Migration, plan: Plan, r: RoomId, room: RoomPlan, w: World, before: seq<Step>, inside: seq<Step>, j: nat)
    requires m.ListsJoinedRooms() && r in m.oldJoined && ActsAsPlanned(m, r, room) && WellFormedLevels(m.world)
    requires plan.oldUserId == m.oldUser && plan.newUserId == m.newUser
    requires SameAbout(r, m.world, w) && j < |inside|
    requires Makes(before, EntryOps(plan, r, room)) && AllDone(before) && MigratesInside(plan, r, room, inside)
    requires Undisturbed(Replay(w, before), inside)
    ensures PermittedIfAdmitted(m, inside[j].op, Replay(Replay(w, before), inside[..j]))
  {
    EntryEffect(w, plan, r, room, before);
    OldUserStays(m, plan, r, room);
    hide Undisturbed, Permitted, EntryOps, ActsAsPlanned, Makes, MigratesInside, Replay, WellFormedLevels, Migration.ListsJoinedRooms;
    InsidePermitted(m, plan, r, room, Replay(w, before), inside, j);
  }

  lemma EnteredParts(plan: Plan, r: RoomId, room: RoomPlan, t: seq<Step>, j: nat) returns (before: seq<Step>, inside: seq<Step>)
    requires MigratesRoom(plan, r, room, t) && |EntryOps(plan, r, room)| <= j < |t|
    ensures var n := |EntryOps(plan, r, room)|;
            && t == before + inside && |before| == n && t[..j] == before + inside[..j - n]
            && Makes(before, EntryOps(plan, r, room)) && AllDone(before) && MigratesInside(plan, r, room, inside)
  {
    hide EntryOps, MigratesInside;
    var n := |EntryOps(plan, r, room)|;
    assert !StopsEntering(EntryOps(plan, r, room), t);
    before, inside := t[..n], t[n..];
  }

  lemma EntryPrefix(plan: Plan, r: RoomId, room: RoomPlan, t: seq<Step>, j: nat)
    requires MigratesRoom(plan, r, room, t) && j < |t| && j < |EntryOps(plan, r, room)|
    ensures var entry := EntryOps(plan, r, room);
            t[j].op == entry[j] && Makes(t[..j], entry[..j]) && AllDone(t[..j])
  {
    hide EntryOps, MigratesInside;
    var n := |EntryOps(plan, r, room)|;
    if !StopsEntering(EntryOps(plan, r, room), t) {
      assert t[..n][j] == t[j];
      assert t[..j] == t[..n][..j];
    } else {
      assert t[..j] == t[..|t| - 1][..j];
    }
  }

  lemma OldUserStays(m: Migration, plan: Plan, r: RoomId, room: RoomPlan)
    requires m.ListsJoinedRooms() && r in m.oldJoined && ActsAsPlanned(m, r, room)
    requires plan.oldUserId == m.oldUser && plan.newUserId == m.newUser
    ensures var members := RoomAfter(plan, room, m.world.RoomOf(r), {}).members;
            m.oldUser in members && members[m.oldUser] == Joined
  {
    if room.join {
      JoinPrerequisites(m, r);
    } else {
      assert !room.invite;
    }
  }

  // Nothing possible is refused

  ghost predicate JoinReadsSucceed(m: Migration, r: RoomId) {
    m.faults !! {ReadMembership(r), ReadServerAcl(r), ReadJoinRule(r), ReadPowerLevels(r)}
  }

  /** The old user could get the new user into the room: without an invite, or with one. */
  ghost predicate CanBringIn(m: Migration, r: RoomId) {
    || MayJoin(m.world, r, m.newUser)
    || (Permitted(Invite(r, m.oldUser, m.newUser), m.world)
        && MayJoin(m.world.SetMembership(r, m.newUser, Invited), r, m.newUser))
  }

  /** The new user can only come in by an invite. */
  predicate NeedsInvite(m: Migration, r: RoomId) {
    var state, membership := m.world.RoomOf(r), m.world.MembershipOf(r, m.newUser);
    && (state.acl.Some? ==> state.acl.value.IsAllowed(m.newUser))
    && membership != Some(Banned) && membership != Some(Invited) && state.joinRule != Some(Public)
  }

  /** Planning is wrong about the old user's level, and that level is what an invite takes. */
  predicate InviteMisjudged(m: Migration, r: RoomId) {
    var room := m.world.RoomOf(r);
    && NeedsInvite(m, r)
    && (UnseenCreator(m, r, m.oldUser) || PassesForCreator(m, r, m.oldUser))
    && room.FiniteLevels().LevelOf(m.oldUser) < room.FiniteLevels().invite
  }

  /**
    Where invites let users in, a join is planned exactly when the server would
    allow it, unless the old user's right to invite is misjudged; and it is
    planned without an invite exactly when the server would allow that.
   */
  lemma JoinPlannedIffPossible(m: Migration, r: RoomId)
    requires m.ListsJoinedRooms() && r in m.oldJoined && r !in m.newJoined
    requires JoinReadsSucceed(m, r) && AdmitsInvited(m.world.RoomOf(r).joinRule)
    ensures (m.PlansJoin(r) <==> CanBringIn(m, r)) <==> !InviteMisjudged(m, r)
    ensures m.PlansJoin(r) && !m.RoomPlanFor(r).invite <==> MayJoin(m.world, r, m.newUser)
  {
    MembershipEffect(m.world, r, m.newUser, Invited);
    hide World.SetMembership, Migration.RoomErrors, Migration.RoomTags, Migration.RoomPowerLevel;
  }

  /**
    A lower level of the new user is either raised or reported. A planned write
    is one that the server would allow, but for what planning does not look at;
    and an allowed write is withheld exactly from an old user who is a creator
    without planning seeing it.
   */
  lemma LevelPlannedIffPermitted(m: Migration, r: RoomId)
    requires m.world.RoomOf(r).TrueLevels().WellFormed()
    ensures var room, seen := m.world.RoomOf(r), m.SeenLevels(r);
            var mine := seen.ForUser(m.oldUser);
            var lower := seen.ForUser(m.newUser).Less(mine);
            var planned := m.PowerLevelToSet(seen).Some?;
            var written := WithLevel(room.LevelsRead(m.SeenFinite(r)), m.newUser, mine.Clamped());
            var permitted := MayWriteLevels(room, m.oldUser, written);
            && (planned ==> lower && (permitted <==> WriteAdmitted(m, r, written)))
            && (lower && !planned ==>
                  (permitted <==> room.levels.Some? && UnseenCreator(m, r, m.oldUser) && m.newUser !in room.Infinite()))
            && (CopyPowerLevel(mine.Clamped()) in m.PowerLevelErrors(seen) <==> lower && !planned)
  {
    var room, seen := m.world.RoomOf(r), m.SeenLevels(r);
    if m.PowerLevelToSet(seen).Some? {
      ReadsByPlanning(m, r);
      WritePermitted(m, r, room, room.LevelsRead(m.SeenFinite(r)), seen.ForUser(m.oldUser).Clamped());
    } else {
      assert m.newUser in WithLevel(room.LevelsRead(m.SeenFinite(r)), m.newUser, seen.ForUser(m.oldUser).Clamped()).users;
      assert CopyPowerLevel(seen.ForUser(m.oldUser).Clamped()) in m.PowerLevelErrors(seen) <==>
             seen.ForUser(m.newUser).Less(seen.ForUser(m.oldUser));
    }
  }

  /** Planning reads the levels in one of the ways in which executing may read them. */
  lemma ReadsByPlanning(m: Migration, r: RoomId)
    ensures m.world.RoomOf(r).MayReadAs(m.world.RoomOf(r).LevelsRead(m.SeenFinite(r)))
  {
    var room := m.world.RoomOf(r);
    assert m.SeenFinite(r) == {} || m.SeenFinite(r) == room.NamedCreators();
  }

  // Any step of a run

  /** The migration and the place in it of the `k`-th step. */
  lemma {:induction false} FlattenIndex(ms: seq<seq<Step>>, k: nat) returns (i: nat, j: nat)
    requires k < |Flatten(ms)|
    ensures i < |ms| && j < |ms[i]| && Flatten(ms)[k] == ms[i][j]
    ensures Flatten(ms)[..k] == Flatten(ms[..i]) + ms[i][..j]
  {
    var n := |ms| - 1;
    var before := Flatten(ms[..n]);
    if k < |before| {
      i, j := FlattenIndex(ms[..n], k);
      assert ms[..n][..i] == ms[..i] && Flatten(ms)[..k] == before[..k];
    } else {
      i, j := n, k - |before|;
    }
  }

  /**
    EXECUTABILITY. Every request of every run, whatever failed before it, is
    permitted at the moment it is made, with three exact exceptions: a join under
    a rule that admits nobody by invite; a write of levels for a creator, or one
    that removes `notifications` above the old user's level; and an invite or a
    write by an old user who only passes for a creator.
   */
  lemma EveryRequestIsPermitted(m: Migration, run: Run, k: nat)
    requires m.ListsJoinedRooms() && WellFormedLevels(m.world)
    requires RunOf(m.FinalPlan(), run) && Undisturbed(m.world, run.Trace())
    requires k < |run.Trace()|
    ensures PermittedIfAdmitted(m, run.Trace()[k].op, Replay(m.world, run.Trace()[..k]))
  {
    hide Migration.FinalPlan, Undisturbed, PermittedIfAdmitted, Permitted, RunOf, Replay;
    var ms := run.migrations;
    var t := run.Trace();
    var n, g := |Flatten(ms)|, |run.globals|;
    if k < n {
      var i, j := FlattenIndex(ms, k);
      assert t[..k] == Flatten(ms)[..k] && t[k] == ms[i][j];
      StepInMigrationPermitted(m, run, i, j);
    } else if k < n + g {
      assert t[k] == run.globals[k - n];
      GlobalPermitted(m, run, k - n, Replay(m.world, t[..k]));
    } else {
      var j := k - n - g;
      assert t[k] == run.leaves[j];
      assert t[..k] == Flatten(ms) + run.globals + run.leaves[..j];
      LeavePermitted(m, run, j);
      LeaveAdmitted(m, t[k].op, Replay(m.world, t[..k]));
    }
  }

  lemma LeaveAdmitted(m: Migration, op: Op, w: World)
    requires op.Leave? && Permitted(op, w)
    ensures PermittedIfAdmitted(m, op, w)
  {
  }

  lemma GlobalPermitted(m: Migration, run: Run, j: nat, w: World)
    requires RunOf(m.FinalPlan(), run) && j < |run.globals|
    ensures PermittedIfAdmitted(m, run.globals[j].op, w)
  {
    hide Migration.FinalPlan, MigratesRooms, LeaveOps, RoomOrder, PermittedIfAdmitted;
    assert run.globals[j].op.SetGlobal?;
    DataPermitted(m, run.globals[j].op, w);
  }

  lemma StepInMigrationPermitted(m: Migration, run: Run, i: nat, j: nat)
    requires m.ListsJoinedRooms() && WellFormedLevels(m.world)
    requires RunOf(m.FinalPlan(), run) && Undisturbed(m.world, run.Trace())
    requires i < |run.migrations| && j < |run.migrations[i]|
    ensures PermittedIfAdmitted(m, run.migrations[i][j].op,
                                Replay(m.world, Flatten(run.migrations[..i]) + run.migrations[i][..j]))
  {
    hide Migration.FinalPlan, Undisturbed, MigratesRoom, ActsAsPlanned, PermittedIfAdmitted;
    var plan := m.FinalPlan();
    var ms := run.migrations;
    var r := RoomOrder(plan)[i];
    PlannedActions(m, r);
    PlanUsers(m);
    UndisturbedMigrations(m.world, run);
    BeforeMigration(m.world, plan, ms, i);
    var w := Replay(m.world, Flatten(ms[..i]));
    MigrationPermitted(m, plan, r, plan.rooms[r], w, ms[i], j);
    ReplayConcat(m.world, Flatten(ms[..i]), ms[i][..j]);
  }

  lemma NotLeftBefore(plan: Plan, run: Run, j: nat, r: RoomId)
    requires RunOf(plan, run) && j < |run.leaves| && run.leaves[j].op == Leave(r, plan.oldUserId)
    ensures forall k :: 0 <= k < j ==> !run.leaves[k].op.Concerns(r)
  {
    LeavesAreLeaves(plan, run);
  }

  /** The room of the `j`-th leave: one of the old user's, migrated as planned. */
  lemma LeaveOrigin(m: Migration, run: Run, j: nat) returns (i: nat)
    requires RunOf(m.FinalPlan(), run) && j < |run.leaves|
    ensures i < |run.migrations| == |RoomOrder(m.FinalPlan())| && AllDone(run.migrations[i])
    ensures var r := RoomOrder(m.FinalPlan())[i];
            && r in m.FinalPlan().rooms
            && run.leaves[j].op == Leave(r, m.oldUser)
            && r in m.oldJoined && ActsAsPlanned(m, r, m.FinalPlan().rooms[r])
  {
    hide Migration.FinalPlan, RunOf, ActsAsPlanned;
    var plan := m.FinalPlan();
    i := LeaveIndex(plan, run, j);
    PlanUsers(m);
    PlannedActions(m, RoomOrder(plan)[i]);
  }

  lemma LeavePermitted(m: Migration, run: Run, j: nat)
    requires m.ListsJoinedRooms()
    requires RunOf(m.FinalPlan(), run) && Undisturbed(m.world, run.Trace())
    requires j < |run.leaves|
    ensures run.leaves[j].op.Leave? && Permitted(run.leaves[j].op, AfterLeaves(m.world, run, j))
  {
    hide Migration.FinalPlan, Undisturbed, AfterLeaves, ActsAsPlanned, RunOf, Migration.ListsJoinedRooms, RoomAfter;
    var plan := m.FinalPlan();
    PlanUsers(m);
    var i := LeaveOrigin(m, run, j);
    var r := RoomOrder(plan)[i];
    OldUserStays(m, plan, r, plan.rooms[r]);
    NotLeftBefore(plan, run, j, r);
    RoomDuringLeaves(m.world, plan, run, i, j);
    MigratedMembers(plan, plan.rooms[r], m.world.RoomOf(r), AfterLeaves(m.world, run, j).RoomOf(r));
  }
}
