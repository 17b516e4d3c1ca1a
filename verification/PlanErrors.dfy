/**
  What planning decides and reports, case by case, in terms of the state of the
  server and of the reads that fail.
 */
module PlanErrors {
  import opened Wrappers
  import opened Ordering
  import opened JsonMerge
  import opened Homeserver
  import opened Planning
  import opened PlanProperties
  import opened Trace
  import opened LeaveSafety
  import opened TraceExact

  // Levels

  /** Planning sees the user as a creator: the create event was read, and its content names the user. */
  predicate NamedAndRead(m: Migration, r: RoomId, user: UserId) {
    var create := m.world.RoomOf(r).create;
    && ReadCreators(r) !in m.faults && create.Some?
    && (create.value.creator == Some(user) || user in create.value.additionalCreators)
  }

  /** The version was read, and is the one whose creators are infinite. */
  predicate ReadAs12(m: Migration, r: RoomId) {
    var create := m.world.RoomOf(r).create;
    ReadRoomVersion(r) !in m.faults && create.Some? && create.value.roomVersion == Some("12")
  }

  /**
    The level that planning sees: infinite exactly for a creator of version 12;
    else the entry of the user or the default, or 100 and 0 where no event sets
    levels.
   */
  lemma SeenLevelExactly(m: Migration, r: RoomId, user: UserId)
    ensures var seen, levels := m.SeenLevels(r).ForUser(user), m.world.RoomOf(r).levels;
            && (seen.Infinite? <==> NamedAndRead(m, r, user) && ReadAs12(m, r))
            && (seen.Finite? ==>
                  seen.level == match levels
                                case Some(event) => if user in event.users then event.users[user] else event.usersDefault
                                case None => if NamedAndRead(m, r, user) then 100 else 0)
  {
  }

  /** What it takes to invite and to write levels, as planning sees it. */
  lemma RequiredLevelsExactly(m: Migration, r: RoomId, user: UserId)
    ensures var room, seen := m.world.RoomOf(r), m.SeenLevels(r).ForUser(user);
            && (m.SeenLevels(r).CanInvite(user) <==>
                  seen.Infinite? || seen.level >= if room.levels.Some? then room.levels.value.invite else 0)
            && (m.SeenLevels(r).CanSendPowerLevels(user) <==>
                  seen.Infinite? || seen.level >= if room.levels.Some? then room.levels.value.powerLevelsEvent else room.stateDefault)
  {
  }

  /** The new user's level is lower, as planning sees it. */
  predicate SeenLower(m: Migration, r: RoomId) {
    var mine, theirs := m.SeenLevels(r).ForUser(m.oldUser), m.SeenLevels(r).ForUser(m.newUser);
    theirs.Finite? && (mine.Infinite? || theirs.level < mine.level)
  }

  /** The level to copy, the largest that can be written if it is infinite. */
  function SeenToCopy(m: Migration, r: RoomId): int {
    var mine := m.SeenLevels(r).ForUser(m.oldUser);
    if mine.Infinite? then 9007199254740991 else mine.level
  }

  /** A level is planned exactly when the new user's is lower and the old user may write levels; it is the old user's. */
  lemma LevelPlannedExactly(m: Migration, r: RoomId, level: Int)
    ensures m.RoomPowerLevel(r) == Some(level) <==>
              && ReadPowerLevels(r) !in m.faults && SeenLower(m, r)
              && m.SeenLevels(r).CanSendPowerLevels(m.oldUser) && level == SeenToCopy(m, r)
  {
  }

  // Joining

  predicate KnownNotBanned(m: Migration, r: RoomId) {
    ReadMembership(r) !in m.faults && m.world.MembershipOf(r, m.newUser) != Some(Banned)
  }

  predicate KnownAllowed(m: Migration, r: RoomId) {
    var acl := m.world.RoomOf(r).acl;
    KnownNotBanned(m, r) && ReadServerAcl(r) !in m.faults && (acl.Some? ==> m.newUser !in acl.value.deniedServersOf)
  }

  /** Without an invite in hand, and with a join rule that was read and is not `public`. */
  predicate KnownToNeedInvite(m: Migration, r: RoomId) {
    && KnownAllowed(m, r) && ReadJoinRule(r) !in m.faults
    && m.world.MembershipOf(r, m.newUser) != Some(Invited) && m.world.RoomOf(r).joinRule != Some(Public)
  }

  /**
    Why a room cannot be joined: the first of the reads that fails, or the first
    obstacle that is found, in the order of the checks.
   */
  predicate Obstacle(m: Migration, r: RoomId, reason: JoinPlanError) {
    match reason
    case GetMembership => ReadMembership(r) in m.faults
    case UserBanned => ReadMembership(r) !in m.faults && m.world.MembershipOf(r, m.newUser) == Some(Banned)
    case GetServerAcl => KnownNotBanned(m, r) && ReadServerAcl(r) in m.faults
    case AclBanned => KnownNotBanned(m, r) && ReadServerAcl(r) !in m.faults && !KnownAllowed(m, r)
    case GetJoinRule => KnownAllowed(m, r) && ReadJoinRule(r) in m.faults
    case MissingPowerLevels => KnownToNeedInvite(m, r) && ReadPowerLevels(r) in m.faults
    case CannotInvite =>
      KnownToNeedInvite(m, r) && ReadPowerLevels(r) !in m.faults && !m.SeenLevels(r).CanInvite(m.oldUser)
  }

  /** A room to be joined has no obstacle, otherwise the one that is reported; an invite is planned when it is needed. */
  lemma JoinDecidedExactly(m: Migration, r: RoomId)
    ensures forall reason :: m.JoinOutcome(r) == Failure(reason) <==> Obstacle(m, r, reason)
    ensures m.JoinOutcome(r).Success? <==> forall reason :: !Obstacle(m, r, reason)
    ensures m.JoinOutcome(r).Success? ==> (m.JoinOutcome(r).value <==> KnownToNeedInvite(m, r))
  {
    hide PowerLevels.CanInvite, Migration.SeenLevels;
    assert Obstacle(m, r, CannotInvite) || !Obstacle(m, r, CannotInvite);
    forall reason
      ensures m.JoinOutcome(r) == Failure(reason) <==> Obstacle(m, r, reason)
    {
    }
    if m.JoinOutcome(r).Failure? {
      assert Obstacle(m, r, m.JoinOutcome(r).error);
    }
  }

  /** The actions of a room: as decided if the new user will be in it, and none otherwise. */
  lemma ActionsExactly(m: Migration, r: RoomId)
    requires r in m.oldJoined
    ensures var entry := EntryOf(m.FinalPlan(), r);
            && (entry.join <==> r !in m.newJoined && forall reason :: !Obstacle(m, r, reason))
            && (entry.invite <==> entry.join && KnownToNeedInvite(m, r))
            && (r in m.newJoined || entry.join ==> entry.powerLevel == m.RoomPowerLevel(r) && entry.accountData == m.RoomTags(r))
            && (r !in m.newJoined && !entry.join ==> entry.powerLevel == None && entry.accountData == map[])
  {
    EntryOfFinalPlan(m, r);
    JoinDecidedExactly(m, r);
    hide Migration.JoinOutcome, Obstacle, KnownToNeedInvite, Migration.RoomErrors, Migration.RoomTags, Migration.RoomPowerLevel;
  }

  // Account data

  /** The content of an account data event can be read by a reader of tags. */
  predicate TagsUnreadable(m: Migration, kind: UserKind, r: RoomId) {
    var data := m.world.RoomData(m.UserOf(kind), r);
    ReadTags(kind, r) in m.faults || ("m.tag" in data && !data["m.tag"].TagContent?)
  }

  function TagsOf(data: AccountData): JsonMap {
    if "m.tag" in data && data["m.tag"].TagContent? then data["m.tag"].tags else map[]
  }

  /** A clash of two maps: a key that they share, with both its values. */
  predicate Clash(from: JsonMap, into: JsonMap, clash: JsonMergeError) {
    && clash.key in from && clash.key in into && from[clash.key] != into[clash.key]
    && clash == JsonMergeError(clash.key, from[clash.key], into[clash.key])
  }

  /** Tags are written exactly when the old user has one that the new user lacks: all of both, the new user's value first. */
  lemma TagsWrittenExactly(m: Migration, r: RoomId)
    ensures var oldData, newData := m.world.RoomData(m.oldUser, r), m.world.RoomData(m.newUser, r);
            var written := !TagsUnreadable(m, OldUser, r) && !TagsUnreadable(m, NewUser, r)
                           && exists k :: k in TagsOf(oldData) && k !in TagsOf(newData);
            && (!written ==> m.RoomTags(r) == map[])
            && (written ==> exists tags ::
                  && m.RoomTags(r) == map["m.tag" := TagContent(tags)]
                  && tags.Keys == TagsOf(oldData).Keys + TagsOf(newData).Keys
                  && forall k :: k in tags ==>
                       tags[k] == if k in TagsOf(newData) then TagsOf(newData)[k] else TagsOf(oldData)[k])
  {
    var from, into := TagsOf(m.world.RoomData(m.oldUser, r)), TagsOf(m.world.RoomData(m.newUser, r));
    if m.RoomTags(r) != map[] {
      assert m.RoomTags(r) == map["m.tag" := TagContent(from + into)];
    }
  }

  // Errors

  /** What makes planning report `e` for room `r`. */
  ghost predicate Reported(m: Migration, r: RoomId, e: RoomPlanError) {
    var room := m.world.RoomOf(r);
    match e
    case GetPowerLevels => ReadPowerLevels(r) in m.faults
    case CreatorPowerLevelApproximation =>
      ReadPowerLevels(r) !in m.faults && NamedAndRead(m, r, m.oldUser) && ReadAs12(m, r)
    case CopyPowerLevel(level) =>
      && ReadPowerLevels(r) !in m.faults && SeenLower(m, r)
      && !m.SeenLevels(r).CanSendPowerLevels(m.oldUser) && level == SeenToCopy(m, r)
    case JoinRefused(reason) => r !in m.newJoined && Obstacle(m, r, reason)
    case RoomTagsFailed(OldUser) => TagsUnreadable(m, OldUser, r)
    case RoomTagsFailed(NewUser) =>
      && !TagsUnreadable(m, OldUser, r) && "m.tag" in m.world.RoomData(m.oldUser, r)
      && TagsUnreadable(m, NewUser, r)
    case RoomTagMerge(clash) =>
      && !TagsUnreadable(m, OldUser, r) && !TagsUnreadable(m, NewUser, r)
      && Clash(TagsOf(m.world.RoomData(m.oldUser, r)), TagsOf(m.world.RoomData(m.newUser, r)), clash)
    case GetHistoryVisibility => ReadHistoryVisibility(r) in m.faults
    case RestrictedHistoryVisibility(visibility, alreadyJoined) =>
      && ReadHistoryVisibility(r) !in m.faults && room.visibility == Some(visibility)
      && visibility != Shared && visibility != WorldReadable
      && alreadyJoined == (r in m.newJoined)
    case GetAlias => false
  }

  /** The order in which a room is examined. */
  function Stage(e: RoomPlanError): nat {
    match e
    case GetPowerLevels => 0
    case CreatorPowerLevelApproximation => 0
    case CopyPowerLevel(_) => 1
    case JoinRefused(_) => 2
    case RoomTagsFailed(_) => 3
    case RoomTagMerge(_) => 3
    case GetHistoryVisibility => 4
    case RestrictedHistoryVisibility(_, _) => 4
    case GetAlias => 5
  }

  lemma PowerReported(m: Migration, r: RoomId, e: RoomPlanError)
    ensures e in m.RoomPowerErrors(r) <==> Stage(e) <= 1 && Reported(m, r, e)
  {
    SeenLevelExactly(m, r, m.oldUser);
    hide Migration.SeenLevels;
    var seen := m.SeenLevels(r);
    assert e in m.PowerLevelErrors(seen) <==>
             || (e == CreatorPowerLevelApproximation && seen.ForUser(m.oldUser).Infinite?)
             || (seen.ForUser(m.newUser).Less(seen.ForUser(m.oldUser)) && !seen.CanChangeUser(m.oldUser, m.newUser)
                 && e == CopyPowerLevel(seen.ForUser(m.oldUser).Clamped()));
  }

  lemma JoinReported(m: Migration, r: RoomId, e: RoomPlanError)
    ensures e in m.JoinErrors(r) <==> Stage(e) == 2 && Reported(m, r, e)
  {
    JoinDecidedExactly(m, r);
    hide Migration.JoinOutcome, Obstacle;
  }

  lemma TagsReported(m: Migration, r: RoomId, e: RoomPlanError)
    ensures e in m.RoomTagErrors(r) <==> Stage(e) == 3 && Reported(m, r, e)
  {
    var from, into := TagsOf(m.world.RoomData(m.oldUser, r)), TagsOf(m.world.RoomData(m.newUser, r));
    ClashesReported(from, into, e);
    hide Conflicts;
    if TagsUnreadable(m, OldUser, r) || "m.tag" !in m.world.RoomData(m.oldUser, r) || TagsUnreadable(m, NewUser, r) {
      assert "m.tag" !in m.world.RoomData(m.oldUser, r) ==> from == map[];
    } else {
      assert m.RoomTagErrors(r) == Migration.AsTagErrors(Conflicts(from, into));
    }
  }

  lemma ClashesReported(from: JsonMap, into: JsonMap, e: RoomPlanError)
    ensures e in Migration.AsTagErrors(Conflicts(from, into)) <==> e.RoomTagMerge? && Clash(from, into, e.clash)
  {
    ClashesExactly(from, into);
    hide Conflicts;
    var es := Conflicts(from, into);
    if e.RoomTagMerge? && e.clash in es {
      var i :| 0 <= i < |es| && es[i] == e.clash;
      assert Migration.AsTagErrors(es)[i] == e;
    }
  }

  lemma ClashesExactly(from: JsonMap, into: JsonMap)
    ensures forall clash :: clash in Conflicts(from, into) <==> Clash(from, into, clash)
  {
    MergeReportsExactConflicts(from, into);
    hide Conflicts;
    var es := Conflicts(from, into);
    forall clash
      ensures clash in es <==> Clash(from, into, clash)
    {
      if Clash(from, into, clash) {
        var e :| e in es && e.key == clash.key;
      }
      assert clash in es ==> exists e :: e in es && e.key == clash.key;
    }
  }

  function HistoryErrors(m: Migration, r: RoomId): seq<RoomPlanError> {
    m.VisibilityErrors(r, r !in m.newJoined)
  }

  lemma VisibilityReported(m: Migration, r: RoomId, e: RoomPlanError)
    ensures e in HistoryErrors(m, r) <==> Stage(e) == 4 && Reported(m, r, e)
  {
  }

  /** ERRORS, EXACTLY. An error is recorded for a room if and only if there is the reason for it. */
  lemma ErrorsExactly(m: Migration, r: RoomId, e: RoomPlanError)
    ensures e in m.RoomErrors(r) <==> Reported(m, r, e)
  {
    PowerReported(m, r, e);
    JoinReported(m, r, e);
    TagsReported(m, r, e);
    VisibilityReported(m, r, e);
    assert Stage(e) == 5 ==> !Reported(m, r, e);
    hide Reported, Migration.RoomPowerErrors, Migration.JoinErrors, Migration.RoomTagErrors, Migration.VisibilityErrors;
  }

  /** Each error comes after those of earlier stages, and clashes in key order; so none is recorded twice. */
  ghost predicate InStages(errors: seq<RoomPlanError>) {
    forall i, j :: 0 <= i < j < |errors| ==> Staged(errors[i], errors[j])
  }

  ghost predicate Staged(a: RoomPlanError, b: RoomPlanError) {
    Stage(a) < Stage(b) || (a.RoomTagMerge? && b.RoomTagMerge? && Below(a.clash.key, b.clash.key))
  }

  lemma StagesConcat(a: seq<RoomPlanError>, b: seq<RoomPlanError>)
    requires InStages(a) && InStages(b) && forall x, y :: x in a && y in b ==> Stage(x) < Stage(y)
    ensures InStages(a + b)
  {
    hide Stage;
    forall i, j | 0 <= i < j < |a + b|
      ensures Staged((a + b)[i], (a + b)[j])
    {
      if i < |a| && j >= |a| {
        assert a[i] in a && b[j - |a|] in b;
      }
    }
  }

  lemma ClashesInStages(from: JsonMap, into: JsonMap)
    ensures InStages(Migration.AsTagErrors(Conflicts(from, into)))
  {
    MergeReportsExactConflicts(from, into);
    hide Conflicts;
  }

  lemma PartsInStages(m: Migration, r: RoomId)
    ensures InStages(m.RoomPowerErrors(r)) && InStages(m.JoinErrors(r))
    ensures InStages(m.RoomTagErrors(r)) && InStages(HistoryErrors(m, r))
  {
    hide Conflicts;
    forall from, into
      ensures InStages(Migration.AsTagErrors(Conflicts(from, into)))
    {
      ClashesInStages(from, into);
    }
  }

  lemma PartsOfStages(m: Migration, r: RoomId)
    ensures forall e :: e in m.RoomPowerErrors(r) ==> Stage(e) <= 1
    ensures forall e :: e in m.JoinErrors(r) ==> Stage(e) == 2
    ensures forall e :: e in m.RoomTagErrors(r) ==> Stage(e) == 3
    ensures forall e :: e in HistoryErrors(m, r) ==> Stage(e) == 4
  {
    forall e
      ensures e in m.RoomPowerErrors(r) ==> Stage(e) <= 1
      ensures e in m.JoinErrors(r) ==> Stage(e) == 2
      ensures e in m.RoomTagErrors(r) ==> Stage(e) == 3
      ensures e in HistoryErrors(m, r) ==> Stage(e) == 4
    {
      PowerReported(m, r, e);
      JoinReported(m, r, e);
      TagsReported(m, r, e);
      VisibilityReported(m, r, e);
    }
  }

  /** The errors of a room are recorded in the order in which it is examined, each once. */
  lemma ErrorsInStages(m: Migration, r: RoomId)
    ensures InStages(m.RoomErrors(r))
  {
    PartsInStages(m, r);
    PartsOfStages(m, r);
    hide InStages, Stage, Migration.RoomPowerErrors, Migration.JoinErrors, Migration.RoomTagErrors, Migration.VisibilityErrors;
    var power, join, tags := m.RoomPowerErrors(r), m.JoinErrors(r), m.RoomTagErrors(r);
    StagesConcat(power, join);
    StagesConcat(power + join, tags);
    StagesConcat(power + join + tags, HistoryErrors(m, r));
  }

  /** A history that a newcomer could not read is reported, and nothing else about it. */
  lemma HistoryReportedIffHidden(m: Migration, r: RoomId)
    requires ReadHistoryVisibility(r) !in m.faults
    ensures (exists e :: e in m.RoomErrors(r) && e.RestrictedHistoryVisibility?) <==> !HistoryVisible(m.world, r)
    ensures RoomPlanError.GetHistoryVisibility !in m.RoomErrors(r)
  {
    ErrorsExactly(m, r, RoomPlanError.GetHistoryVisibility);
    var visibility := m.world.RoomOf(r).visibility;
    if !HistoryVisible(m.world, r) {
      var e := RestrictedHistoryVisibility(visibility.value, r in m.newJoined);
      ErrorsExactly(m, r, e);
      assert e in m.RoomErrors(r);
    }
    forall e | e in m.RoomErrors(r) && e.RestrictedHistoryVisibility?
      ensures !HistoryVisible(m.world, r)
    {
      ErrorsExactly(m, r, e);
    }
  }

  /**
    An old user that the create event of a version 12 room names stays: the
    approximation is recorded, and no run of the plan leaves the room.
   */
  lemma SeenCreatorStays(m: Migration, run: Run, r: RoomId, k: nat)
    requires RunOf(m.FinalPlan(), run) && k < |run.Trace()|
    requires m.faults !! {ReadPowerLevels(r), ReadCreators(r), ReadRoomVersion(r)}
    requires var create := m.world.RoomOf(r).create;
             && create.Some? && create.value.roomVersion == Some("12")
             && (create.value.creator == Some(m.oldUser) || m.oldUser in create.value.additionalCreators)
    ensures CreatorPowerLevelApproximation in m.RoomErrors(r)
    ensures run.Trace()[k].op != Leave(r, m.oldUser)
  {
    ErrorsExactly(m, r, CreatorPowerLevelApproximation);
    hide Migration.FinalPlan, RunOf, Migration.RoomErrors;
    LeaveWasPlanned(m, run, r, k);
  }

  lemma LeaveWasPlanned(m: Migration, run: Run, r: RoomId, k: nat)
    requires RunOf(m.FinalPlan(), run) && k < |run.Trace()|
    ensures run.Trace()[k].op == Leave(r, m.oldUser) ==> m.RoomErrors(r) == []
  {
    hide Migration.FinalPlan, RunOf, Migration.RoomErrors, NothingFailed;
    if run.Trace()[k].op == Leave(r, m.oldUser) {
      AskedExactly(m.FinalPlan(), run, Leave(r, m.oldUser));
      assert Asked(run.Trace(), Leave(r, m.oldUser));
      PlannedLeave(m, r);
    }
  }

  // Global account data

  predicate DirectUnreadable(m: Migration, kind: UserKind) {
    var data := m.world.Global(m.UserOf(kind));
    ReadGlobal(kind, "m.direct") in m.faults || ("m.direct" in data && !data["m.direct"].DirectContent?)
  }

  predicate IgnoredUnreadable(m: Migration, kind: UserKind) {
    var data := m.world.Global(m.UserOf(kind));
    ReadGlobal(kind, "m.ignored_user_list") in m.faults
    || ("m.ignored_user_list" in data && !data["m.ignored_user_list"].JsonContent?)
  }

  function DirectOf(data: AccountData): Direct {
    if "m.direct" in data && data["m.direct"].DirectContent? then data["m.direct"].direct else map[]
  }

  function IgnoredOf(data: AccountData): JsonMap {
    if "m.ignored_user_list" in data && data["m.ignored_user_list"].JsonContent?
    then data["m.ignored_user_list"].entries else map[]
  }

  /** What makes planning report `e` for the account. */
  ghost predicate ReportedGlobally(m: Migration, e: PlanError) {
    var oldData, newData := m.world.Global(m.oldUser), m.world.Global(m.newUser);
    match e
    case DirectAccountDataFailed(OldUser) => DirectUnreadable(m, OldUser)
    case DirectAccountDataFailed(NewUser) =>
      !DirectUnreadable(m, OldUser) && "m.direct" in oldData && DirectUnreadable(m, NewUser)
    case IgnoredUsersAccountDataFailed(OldUser) => IgnoredUnreadable(m, OldUser)
    case IgnoredUsersAccountDataFailed(NewUser) =>
      !IgnoredUnreadable(m, OldUser) && "m.ignored_user_list" in oldData && IgnoredUnreadable(m, NewUser)
    case IgnoredUserMerge(clash) =>
      !IgnoredUnreadable(m, OldUser) && !IgnoredUnreadable(m, NewUser) && Clash(IgnoredOf(oldData), IgnoredOf(newData), clash)
  }

  lemma DirectReported(m: Migration, e: PlanError)
    ensures e in m.DirectErrors() <==> e.DirectAccountDataFailed? && ReportedGlobally(m, e)
  {
  }

  lemma IgnoredReported(m: Migration, e: PlanError)
    ensures e in m.IgnoredErrors() <==> !e.DirectAccountDataFailed? && ReportedGlobally(m, e)
  {
    var from, into := IgnoredOf(m.world.Global(m.oldUser)), IgnoredOf(m.world.Global(m.newUser));
    IgnoredClashes(from, into, e);
    hide Conflicts;
    if IgnoredUnreadable(m, OldUser) || "m.ignored_user_list" !in m.world.Global(m.oldUser) || IgnoredUnreadable(m, NewUser) {
      assert "m.ignored_user_list" !in m.world.Global(m.oldUser) ==> from == map[];
    } else {
      assert m.IgnoredErrors() == Migration.AsIgnoredErrors(Conflicts(from, into));
    }
  }

  lemma IgnoredClashes(from: JsonMap, into: JsonMap, e: PlanError)
    ensures e in Migration.AsIgnoredErrors(Conflicts(from, into)) <==> e.IgnoredUserMerge? && Clash(from, into, e.clash)
  {
    ClashesExactly(from, into);
    hide Conflicts;
    var es := Conflicts(from, into);
    if e.IgnoredUserMerge? && e.clash in es {
      var i :| 0 <= i < |es| && es[i] == e.clash;
      assert Migration.AsIgnoredErrors(es)[i] == e;
    }
  }

  /** A global error is recorded if and only if there is the reason for it. */
  lemma GlobalErrorsExactly(m: Migration, e: PlanError)
    ensures e in m.FinalPlan().errors <==> ReportedGlobally(m, e)
  {
    DirectReported(m, e);
    IgnoredReported(m, e);
    hide ReportedGlobally, Migration.DirectErrors, Migration.IgnoredErrors, Migration.FinalRooms, Migration.GlobalData;
  }

  /** An error about direct messages comes first and is the only one of its kind; clashes are in key order. */
  lemma GlobalErrorsInOrder(m: Migration)
    ensures var errors := m.FinalPlan().errors;
            forall i, j :: 0 <= i < j < |errors| ==>
              && !errors[j].DirectAccountDataFailed?
              && (errors[i].DirectAccountDataFailed?
                  || (errors[i].IgnoredUserMerge? && errors[j].IgnoredUserMerge? && Below(errors[i].clash.key, errors[j].clash.key)))
  {
    var direct, ignored := m.DirectErrors(), m.IgnoredErrors();
    assert |direct| <= 1 && forall e :: e in direct ==> e.DirectAccountDataFailed?;
    IgnoredInOrder(m);
    hide Migration.DirectErrors, Migration.IgnoredErrors, Migration.FinalRooms, Migration.GlobalData;
    assert forall k :: 0 <= k < |direct| ==> direct[k] in direct;
  }

  lemma IgnoredInOrder(m: Migration)
    ensures var errors := m.IgnoredErrors();
            && (forall k :: 0 <= k < |errors| ==> !errors[k].DirectAccountDataFailed?)
            && (forall i, j :: 0 <= i < j < |errors| ==>
                  errors[i].IgnoredUserMerge? && errors[j].IgnoredUserMerge? && Below(errors[i].clash.key, errors[j].clash.key))
  {
    if m.GetIgnored(OldUser).Success? && m.GetIgnored(OldUser).value.Some? && m.GetIgnored(NewUser).Success? {
      MergeReportsExactConflicts(m.GetIgnored(OldUser).value.value, m.GetIgnored(NewUser).value.GetOr(map[]));
    }
    hide Conflicts;
  }

  /** A room of the old user's direct messages with somebody else that the new user's lack, and will be able to use. */
  predicate DirectToAdd(m: Migration, user: UserId, r: RoomId) {
    var mine, theirs := DirectOf(m.world.Global(m.oldUser)), DirectOf(m.world.Global(m.newUser));
    && user != m.newUser && user in mine && r in mine[user]
    && !(user in theirs && r in theirs[user])
    && (r in m.newJoined || (r in m.oldJoined && forall reason :: !Obstacle(m, r, reason)))
  }

  lemma DestinationExactly(m: Migration, r: RoomId)
    ensures r in m.Destinations() <==> r in m.newJoined || (r in m.oldJoined && forall reason :: !Obstacle(m, r, reason))
  {
    JoinDecidedExactly(m, r);
    hide Migration.JoinOutcome, Obstacle;
  }

  /**
    Global account data is written exactly when the old user's could be read along
    with the new user's and has something to add. Ignored users are then the
    entries of both, the new user's value first; what becomes of the direct
    messages is said by `MergedDirectExact`.
   */
  lemma GlobalWritesExactly(m: Migration)
    ensures var data := m.FinalPlan().globalAccountData;
            var from, into := IgnoredOf(m.world.Global(m.oldUser)), IgnoredOf(m.world.Global(m.newUser));
            && data.Keys <= {"m.direct", "m.ignored_user_list"}
            && ("m.direct" in data <==>
                  !DirectUnreadable(m, OldUser) && !DirectUnreadable(m, NewUser) && exists u, r :: DirectToAdd(m, u, r))
            && ("m.direct" in data ==>
                  Some(data["m.direct"]) == AsContent(MergedDirect(DirectOf(m.world.Global(m.oldUser)), DirectOf(m.world.Global(m.newUser)),
                                                                   m.newUser, m.Destinations())))
            && ("m.ignored_user_list" in data <==>
                  !IgnoredUnreadable(m, OldUser) && !IgnoredUnreadable(m, NewUser) && exists k :: k in from && k !in into)
            && ("m.ignored_user_list" in data ==>
                  data["m.ignored_user_list"] == JsonContent(map k | k in from.Keys + into.Keys :: if k in into then into[k] else from[k]))
  {
    DirectWrites(m);
    IgnoredWrites(m);
    hide DirectUnreadable, IgnoredUnreadable, DirectToAdd, MergedDirect, Migration.DirectToSet, Migration.IgnoredToSet, Migration.FinalRooms;
    hide Migration.GlobalErrors, IgnoredOf, DirectOf;
    assert |"m.direct"| != |"m.ignored_user_list"|;
  }

  function AsContent(direct: Option<Direct>): Option<Content> {
    if direct.Some? then Some(DirectContent(direct.value)) else None
  }

  lemma DirectWrites(m: Migration)
    ensures var from, into := DirectOf(m.world.Global(m.oldUser)), DirectOf(m.world.Global(m.newUser));
            && (m.DirectToSet().Some? <==>
                  !DirectUnreadable(m, OldUser) && !DirectUnreadable(m, NewUser) && exists u, r :: DirectToAdd(m, u, r))
            && (m.DirectToSet().Some? ==> m.DirectToSet() == MergedDirect(from, into, m.newUser, m.Destinations()))
  {
    var from, into := DirectOf(m.world.Global(m.oldUser)), DirectOf(m.world.Global(m.newUser));
    DirectReads(m);
    MergedDirectExact(from, into, m.newUser, m.Destinations());
    hide Migration.Destinations, Migration.DirectToSet, DirectUnreadable, MergedDirect, Obstacle, Wanted, DirectOf;
    forall u, r
      ensures DirectToAdd(m, u, r) <==> u in from && u != m.newUser && r in from[u] && r in m.Destinations() && r !in RoomsWith(into, u)
    {
      DestinationExactly(m, r);
    }
    hide DirectToAdd;
    if MergedDirect(from, into, m.newUser, m.Destinations()).Some? {
      var u, r :| u in from && u != m.newUser && r in from[u] && r in m.Destinations() && r !in RoomsWith(into, u);
      assert DirectToAdd(m, u, r);
    }
  }

  lemma DirectReads(m: Migration)
    ensures var from, into := DirectOf(m.world.Global(m.oldUser)), DirectOf(m.world.Global(m.newUser));
            m.DirectToSet() == if DirectUnreadable(m, OldUser) || DirectUnreadable(m, NewUser) then None
                               else MergedDirect(from, into, m.newUser, m.Destinations())
  {
    hide Migration.Destinations;
  }

  lemma IgnoredWrites(m: Migration)
    ensures var from, into := IgnoredOf(m.world.Global(m.oldUser)), IgnoredOf(m.world.Global(m.newUser));
            && (m.IgnoredToSet().Some? <==>
                  !IgnoredUnreadable(m, OldUser) && !IgnoredUnreadable(m, NewUser) && exists k :: k in from && k !in into)
            && (m.IgnoredToSet().Some? ==>
                  m.IgnoredToSet().value == map k | k in from.Keys + into.Keys :: if k in into then into[k] else from[k])
  {
    var from, into := IgnoredOf(m.world.Global(m.oldUser)), IgnoredOf(m.world.Global(m.newUser));
    hide World.Global;
    if m.IgnoredToSet().Some? {
      assert m.IgnoredToSet().value == from + into;
    }
  }
}
