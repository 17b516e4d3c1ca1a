/**
  Migration plans (src/plan.rs): their shape, and what the plan of a migration
  is. Each part of the plan is given as a function of what planning can read,
  without the order in which the planner fills it in.
 */
module Planning {
  import opened Wrappers
  import opened JsonMerge
  import opened Homeserver

  datatype JoinPlanError =
    | GetMembership | GetJoinRule | GetServerAcl | MissingPowerLevels | CannotInvite | UserBanned | AclBanned

  datatype RoomPlanError =
    | GetAlias
    | GetPowerLevels
    | JoinRefused(reason: JoinPlanError)
    | RoomTagsFailed(kind: UserKind)
    | RoomTagMerge(clash: JsonMergeError)
    | CopyPowerLevel(oldPowerLevel: Int)
    | CreatorPowerLevelApproximation
    | GetHistoryVisibility
    | RestrictedHistoryVisibility(visibility: HistoryVisibility, alreadyJoined: bool)

  datatype PlanError =
    | DirectAccountDataFailed(kind: UserKind)
    | IgnoredUsersAccountDataFailed(kind: UserKind)
    | IgnoredUserMerge(clash: JsonMergeError)

  datatype FatalPlanError = GetUserId(kind: UserKind) | GetJoinedRooms(kind: UserKind)

  datatype RoomPlan = RoomPlan(
    alias: Option<string>,
    invite: bool,
    join: bool,
    leave: bool,
    powerLevel: Option<Int>,
    accountData: AccountData,
    errors: seq<RoomPlanError>)
  {
    /** No action to take and no error recorded. */
    predicate IsEmpty() {
      !invite && !join && !leave && powerLevel.None? && accountData == map[] && errors == []
    }
  }

  const EMPTY_ROOM_PLAN := RoomPlan(None, false, false, false, None, map[], [])

  datatype Plan = Plan(
    oldUserId: UserId,
    newUserId: UserId,
    rooms: map<RoomId, RoomPlan>,
    globalAccountData: AccountData,
    errors: seq<PlanError>)

  /**
    The rooms of `offered` that are in `keep` and not in `have`, each once, in
    the order of their first occurrence.
   */
  function Missing(have: seq<RoomId>, offered: seq<RoomId>, keep: set<RoomId>): seq<RoomId> {
    if offered == [] then []
    else
      var room := offered[|offered| - 1];
      var before := Missing(have, offered[..|offered| - 1], keep);
      if room in keep && room !in have && room !in before then before + [room] else before
  }

  function RoomsWith(direct: Direct, user: UserId): seq<RoomId> {
    if user in direct then direct[user] else []
  }

  /** The direct messages to add for `user`, who is not the new user. */
  function DirectAdditions(from: Direct, into: Direct, self: UserId, keep: set<RoomId>, user: UserId): seq<RoomId> {
    if user == self || user !in from then []
    else Missing(RoomsWith(into, user), from[user], keep)
  }

  function ExtendedDirect(from: Direct, into: Direct, self: UserId, keep: set<RoomId>): Direct {
    map u | u in from.Keys + into.Keys && (u in into || DirectAdditions(from, into, self, keep, u) != []) ::
      RoomsWith(into, u) + DirectAdditions(from, into, self, keep, u)
  }

  function MergedDirect(from: Direct, into: Direct, self: UserId, keep: set<RoomId>): Option<Direct> {
    if forall u :: u in from ==> DirectAdditions(from, into, self, keep, u) == [] then None
    else Some(ExtendedDirect(from, into, self, keep))
  }

  /**
    What planning starts from: the state of the server, the reads that fail,
    the two users, the rooms that the server listed as joined by each of them,
    and the setting.
   */
  datatype Migration = Migration(
    world: World,
    faults: set<Read>,
    oldUser: UserId,
    newUser: UserId,
    oldJoined: set<RoomId>,
    newJoined: set<RoomId>,
    leave: bool)
  {
    /** The server listed the rooms whose membership state is `join`. */
    ghost predicate ListsJoinedRooms() {
      oldJoined == world.JoinedRooms(oldUser) && newJoined == world.JoinedRooms(newUser)
    }

    function Fetch<T>(read: Read, value: T): Fetched<T> {
      if read in faults then Failure(ReadError) else Success(value)
    }

    /** A failed read of the create event counts as one that names nobody. */
    function SeenCreators(room: RoomId): set<UserId> {
      if ReadCreators(room) in faults then {} else world.RoomOf(room).NamedCreators()
    }

    function SeenVersion(room: RoomId): Option<string> {
      if ReadRoomVersion(room) in faults then None else world.RoomOf(room).Version()
    }

    /** The users that planning takes to have an infinite level. */
    function SeenPrivileged(room: RoomId): set<UserId> {
      if SeenVersion(room) == Some(KNOWN_PRIVILEGING_VERSION) then SeenCreators(room) else {}
    }

    /** The users that planning takes for creators with level 100, should nothing set levels. */
    function SeenFinite(room: RoomId): set<UserId> {
      SeenCreators(room) - SeenPrivileged(room)
    }

    /** The levels as the client resolves them, which need not be those the server enforces. */
    function SeenLevels(room: RoomId): PowerLevels {
      world.RoomOf(room).LevelsRead(SeenFinite(room)).Resolve(SeenPrivileged(room))
    }

    function GetPowerLevels(room: RoomId): Fetched<PowerLevels> {
      Fetch(ReadPowerLevels(room), SeenLevels(room))
    }

    function GetMembership(room: RoomId): Fetched<Option<Membership>> {
      Fetch(ReadMembership(room), world.MembershipOf(room, newUser))
    }

    function GetServerAcl(room: RoomId): Fetched<Option<ServerAcl>> {
      Fetch(ReadServerAcl(room), world.RoomOf(room).acl)
    }

    function GetJoinRule(room: RoomId): Fetched<Option<JoinRule>> {
      Fetch(ReadJoinRule(room), world.RoomOf(room).joinRule)
    }

    function GetHistoryVisibility(room: RoomId): Fetched<Option<HistoryVisibility>> {
      Fetch(ReadHistoryVisibility(room), world.RoomOf(room).visibility)
    }

    function GetAlias(room: RoomId): Fetched<Option<string>> {
      Fetch(ReadAlias(room), world.RoomOf(room).alias)
    }

    function UserOf(kind: UserKind): UserId {
      if kind.OldUser? then oldUser else newUser
    }

    function GetTags(kind: UserKind, room: RoomId): Fetched<Option<JsonMap>> {
      if ReadTags(kind, room) in faults then Failure(ReadError)
      else FetchTags(world.RoomData(UserOf(kind), room))
    }

    function GetDirect(kind: UserKind): Fetched<Option<Direct>> {
      if ReadGlobal(kind, DIRECT) in faults then Failure(ReadError)
      else FetchDirect(world.Global(UserOf(kind)))
    }

    function GetIgnored(kind: UserKind): Fetched<Option<JsonMap>> {
      if ReadGlobal(kind, IGNORED_USER_LIST) in faults then Failure(ReadError)
      else FetchIgnored(world.Global(UserOf(kind)))
    }

    // Power levels

    function PowerLevelToSet(levels: PowerLevels): Option<Int> {
      if levels.ForUser(newUser).Less(levels.ForUser(oldUser)) && levels.CanChangeUser(oldUser, newUser)
      then Some(levels.ForUser(oldUser).Clamped())
      else None
    }

    function PowerLevelErrors(levels: PowerLevels): seq<RoomPlanError> {
      (if levels.ForUser(oldUser).Infinite? then [CreatorPowerLevelApproximation] else []) +
      (if levels.ForUser(newUser).Less(levels.ForUser(oldUser)) && !levels.CanChangeUser(oldUser, newUser)
       then [CopyPowerLevel(levels.ForUser(oldUser).Clamped())] else [])
    }

    function RoomPowerLevel(room: RoomId): Option<Int> {
      match GetPowerLevels(room)
      case Success(levels) => PowerLevelToSet(levels)
      case Failure(_) => None
    }

    function RoomPowerErrors(room: RoomId): seq<RoomPlanError> {
      match GetPowerLevels(room)
      case Success(levels) => PowerLevelErrors(levels)
      case Failure(_) => [RoomPlanError.GetPowerLevels]
    }

    // Joining

    /** Whether an invite is needed to join `room`, or why it cannot be joined. */
    function PlanJoin(room: RoomId, levels: Option<PowerLevels>): Result<bool, JoinPlanError> {
      match GetMembership(room)
      case Failure(_) => Failure(JoinPlanError.GetMembership)
      case Success(membership) =>
        if membership == Some(Banned) then Failure(UserBanned)
        else
          match GetServerAcl(room)
          case Failure(_) => Failure(JoinPlanError.GetServerAcl)
          case Success(acl) =>
            if acl.Some? && !acl.value.IsAllowed(newUser) then Failure(AclBanned)
            else
              match GetJoinRule(room)
              case Failure(_) => Failure(JoinPlanError.GetJoinRule)
              case Success(rule) =>
                var needInvite := membership != Some(Invited) && rule != Some(Public);
                if !needInvite then Success(false)
                else if levels.None? then Failure(MissingPowerLevels)
                else if !levels.value.CanInvite(oldUser) then Failure(CannotInvite)
                else Success(true)
    }

    function KnownPowerLevels(room: RoomId): Option<PowerLevels> {
      match GetPowerLevels(room)
      case Success(levels) => Some(levels)
      case Failure(_) => None
    }

    function JoinOutcome(room: RoomId): Result<bool, JoinPlanError> {
      PlanJoin(room, KnownPowerLevels(room))
    }

    predicate PlansJoin(room: RoomId) {
      room !in newJoined && JoinOutcome(room).Success?
    }

    /** The new user is in the room already, or a join is planned. */
    predicate EndsJoined(room: RoomId) {
      room in newJoined || JoinOutcome(room).Success?
    }

    function JoinErrors(room: RoomId): seq<RoomPlanError> {
      if EndsJoined(room) then [] else [JoinRefused(JoinOutcome(room).error)]
    }

    // Tags

    function RoomTags(room: RoomId): AccountData {
      match GetTags(OldUser, room)
      case Success(Some(from)) =>
        (match GetTags(NewUser, room)
         case Success(into) =>
           var merged := Merged(from, into.GetOr(map[]));
           if merged.Some? then map[TAG := TagContent(merged.value)] else map[]
         case Failure(_) => map[])
      case _ => map[]
    }

    function RoomTagErrors(room: RoomId): seq<RoomPlanError> {
      match GetTags(OldUser, room)
      case Success(Some(from)) =>
        (match GetTags(NewUser, room)
         case Success(into) => AsTagErrors(Conflicts(from, into.GetOr(map[])))
         case Failure(_) => [RoomTagsFailed(NewUser)])
      case Success(None) => []
      case Failure(_) => [RoomTagsFailed(OldUser)]
    }

    static function AsTagErrors(clashes: seq<JsonMergeError>): seq<RoomPlanError> {
      seq(|clashes|, i requires 0 <= i < |clashes| => RoomTagMerge(clashes[i]))
    }

    // History visibility

    function VisibilityErrors(room: RoomId, needJoin: bool): seq<RoomPlanError> {
      match GetHistoryVisibility(room)
      case Failure(_) => [RoomPlanError.GetHistoryVisibility]
      case Success(visibility) =>
        if visibility.None? || visibility.value.WorldReadable? || visibility.value.Shared? then []
        else [RestrictedHistoryVisibility(visibility.value, !needJoin)]
    }

    // Rooms

    function RoomErrors(room: RoomId): seq<RoomPlanError> {
      RoomPowerErrors(room) + JoinErrors(room) + RoomTagErrors(room) + VisibilityErrors(room, room !in newJoined)
    }

    /** The plan of one room before leaves and aliases. */
    function RoomPlanFor(room: RoomId): RoomPlan {
      RoomPlan(
        None,
        room !in newJoined && JoinOutcome(room) == Success(true),
        PlansJoin(room),
        false,
        if EndsJoined(room) then RoomPowerLevel(room) else None,
        if EndsJoined(room) then RoomTags(room) else map[],
        RoomErrors(room))
    }

    function RoomPlans(): map<RoomId, RoomPlan> {
      map r | r in oldJoined && !RoomPlanFor(r).IsEmpty() :: RoomPlanFor(r)
    }

    /** The rooms that have the new user in them if all goes as planned. */
    function Destinations(): set<RoomId> {
      newJoined + set r | r in oldJoined && PlansJoin(r)
    }

    // Global account data

    function DirectToSet(): Option<Direct> {
      match GetDirect(OldUser)
      case Success(Some(from)) =>
        (match GetDirect(NewUser)
         case Success(into) => MergedDirect(from, into.GetOr(map[]), newUser, Destinations())
         case Failure(_) => None)
      case _ => None
    }

    function DirectErrors(): seq<PlanError> {
      match GetDirect(OldUser)
      case Success(Some(_)) => if GetDirect(NewUser).Failure? then [DirectAccountDataFailed(NewUser)] else []
      case Success(None) => []
      case Failure(_) => [DirectAccountDataFailed(OldUser)]
    }

    function IgnoredToSet(): Option<JsonMap> {
      match GetIgnored(OldUser)
      case Success(Some(from)) =>
        (match GetIgnored(NewUser)
         case Success(into) => Merged(from, into.GetOr(map[]))
         case Failure(_) => None)
      case _ => None
    }

    function IgnoredErrors(): seq<PlanError> {
      match GetIgnored(OldUser)
      case Success(Some(from)) =>
        (match GetIgnored(NewUser)
         case Success(into) => AsIgnoredErrors(Conflicts(from, into.GetOr(map[])))
         case Failure(_) => [IgnoredUsersAccountDataFailed(NewUser)])
      case Success(None) => []
      case Failure(_) => [IgnoredUsersAccountDataFailed(OldUser)]
    }

    static function AsIgnoredErrors(clashes: seq<JsonMergeError>): seq<PlanError> {
      seq(|clashes|, i requires 0 <= i < |clashes| => IgnoredUserMerge(clashes[i]))
    }

    function GlobalErrors(): seq<PlanError> {
      DirectErrors() + IgnoredErrors()
    }

    function GlobalData(): AccountData {
      (if DirectToSet().Some? then map[DIRECT := DirectContent(DirectToSet().value)] else map[]) +
      (if IgnoredToSet().Some? then map[IGNORED_USER_LIST := JsonContent(IgnoredToSet().value)] else map[])
    }

    // Leaves and aliases

    predicate MarksLeaves() {
      leave && GlobalErrors() == []
    }

    function MarkedRooms(): map<RoomId, RoomPlan> {
      if MarksLeaves()
      then map r | r in oldJoined :: RoomPlanFor(r).(leave := RoomErrors(r) == [])
      else RoomPlans()
    }

    function WithAlias(room: RoomId, plan: RoomPlan): RoomPlan {
      match GetAlias(room)
      case Success(alias) => plan.(alias := alias)
      case Failure(_) => plan.(errors := plan.errors + [RoomPlanError.GetAlias])
    }

    function FinalRooms(): map<RoomId, RoomPlan> {
      var marked := MarkedRooms();
      map r | r in marked :: WithAlias(r, marked[r])
    }

    /** The plan that the planner returns. */
    function FinalPlan(): Plan {
      Plan(oldUser, newUser, FinalRooms(), GlobalData(), GlobalErrors())
    }
  }
}
