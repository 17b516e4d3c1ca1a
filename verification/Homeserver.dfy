/**
  The homeserver as the two users' clients see it: the `ReadState` and
  `WriteState` interfaces of src/state.rs over one shared state. A read may
  fail because the request fails or because the stored content does not have
  the shape the reader asks for.
 */
module Homeserver {
  import opened Wrappers
  import opened JsonMerge

  type RoomId = string
  type UserId = string

  /** Largest and smallest integers of a power level. */
  const INT_MAX := 9007199254740991
  const INT_MIN := -9007199254740991

  type Int = n: int | INT_MIN <= n <= INT_MAX

  datatype Membership = Invited | Joined | Knocked | Left | Banned

  datatype JoinRule = Public | InviteOnly | Knock | Restricted | KnockRestricted | Private | CustomRule(name: string)

  datatype HistoryVisibility = WorldReadable | Shared | SinceInvited | SinceJoined | CustomVisibility(name: string)

  /** The server ACL of a room, as its verdict on a user's server. */
  datatype ServerAcl = ServerAcl(deniedServersOf: set<UserId>) {
    predicate IsAllowed(user: UserId) {
      user !in deniedServersOf
    }
  }

  datatype PowerLevel = Finite(level: Int) | Infinite {
    predicate Less(other: PowerLevel) {
      Finite? && (other.Infinite? || level < other.level)
    }

    /** The closest level that can be written for a user. */
    function Clamped(): Int {
      if Infinite? then INT_MAX else level
    }
  }

  /**
    Power levels resolved against a set of users whose level is infinite. The
    server resolves them against the creators of the room, a client against
    those it knows of.
   */
  datatype PowerLevels = PowerLevels(
    users: map<UserId, Int>,
    usersDefault: Int,
    invite: Int,
    powerLevelsEvent: Int,
    privilegedCreators: set<UserId>)
  {
    function ForUser(user: UserId): PowerLevel {
      if user in privilegedCreators then Infinite
      else if user in users then Finite(users[user])
      else Finite(usersDefault)
    }

    predicate CanInvite(user: UserId) {
      !ForUser(user).Less(Finite(invite))
    }

    predicate CanSendPowerLevels(user: UserId) {
      !ForUser(user).Less(Finite(powerLevelsEvent))
    }

    /** Whether `acting` may change the entry of `target`. */
    predicate CanChangeUser(acting: UserId, target: UserId) {
      && CanSendPowerLevels(acting)
      && !ForUser(target).Infinite?
      && (acting == target || (target in users ==> Finite(users[target]).Less(ForUser(acting))))
    }

    /** Room version 12 rejects entries for creators. */
    predicate WellFormed() {
      users.Keys !! privilegedCreators
    }
  }

  /** The content of `m.room.power_levels`. Only `notifications` does not survive redaction. */
  datatype LevelsEvent = LevelsEvent(
    users: map<UserId, Int>,
    usersDefault: Int,
    invite: Int,
    powerLevelsEvent: Int,
    notifications: map<string, Int>)
  {
    function LevelOf(user: UserId): Int {
      if user in users then users[user] else usersDefault
    }

    function Redacted(): LevelsEvent {
      this.(notifications := map[])
    }

    function Resolve(privilegedCreators: set<UserId>): PowerLevels {
      PowerLevels(users, usersDefault, invite, powerLevelsEvent, privilegedCreators)
    }
  }

  /** The level of a creator where no event sets levels. */
  const CREATOR_LEVEL := 100

  /**
    What holds without an event: the creators have level 100, everybody else 0,
    anybody may invite, and state takes `stateDefault`.
   */
  function DefaultLevels(creators: set<UserId>, stateDefault: Int): LevelsEvent {
    LevelsEvent(map u | u in creators :: CREATOR_LEVEL, 0, 0, stateDefault, map[])
  }

  /**
    Whom a room version takes for the creators: who is named (1 to 10), who sent
    the create event (11), or that user and those whom the event adds, all with
    an infinite level (12).
   */
  datatype CreatorRule = NamedCreator | SenderCreates | PrivilegedCreators

  /**
    `m.room.create`: its sender, the two fields that name creators, the version,
    and what that version says about creators. The program knows versions 1 to 12.
   */
  datatype CreateEvent = CreateEvent(
    sender: UserId,
    creator: Option<UserId>,
    additionalCreators: set<UserId>,
    roomVersion: Option<string>,
    rule: CreatorRule)
  {
    function Named(): set<UserId> {
      if creator.Some? then {creator.value} else {}
    }

    /** By the rule of the version. */
    function Creators(): set<UserId> {
      match rule
      case NamedCreator => Named()
      case SenderCreates => {sender}
      case PrivilegedCreators => {sender} + additionalCreators
    }
  }

  /** The one version whose creators the program takes to be infinite. */
  const KNOWN_PRIVILEGING_VERSION := "12"

  datatype Room = Room(
    members: map<UserId, Membership>,
    joinRule: Option<JoinRule>,
    acl: Option<ServerAcl>,
    create: Option<CreateEvent>,
    levels: Option<LevelsEvent>,
    stateDefault: Int,
    visibility: Option<HistoryVisibility>,
    alias: Option<string>)
  {
    function Creators(): set<UserId> {
      match create
      case Some(event) => event.Creators()
      case None => {}
    }

    predicate PrivilegesCreators() {
      create.Some? && create.value.rule.PrivilegedCreators?
    }

    /** The users whose level is infinite. */
    function Infinite(): set<UserId> {
      if PrivilegesCreators() then Creators() else {}
    }

    /** The creators that the content of the create event names. */
    function NamedCreators(): set<UserId> {
      match create
      case Some(event) => event.Named() + event.additionalCreators
      case None => {}
    }

    function Version(): Option<string> {
      match create
      case Some(event) => event.roomVersion
      case None => None
    }

    /** The levels that the server enforces, but for the infinite ones. */
    function FiniteLevels(): LevelsEvent {
      match levels
      case Some(event) => event
      case None => DefaultLevels(Creators() - Infinite(), stateDefault)
    }

    function TrueLevels(): PowerLevels {
      FiniteLevels().Resolve(Infinite())
    }

    /**
      What a client reads that takes `creators` for the creators: what survives
      redaction, or the defaults where there is no event.
     */
    function LevelsRead(creators: set<UserId>): LevelsEvent {
      match levels
      case Some(event) => event.Redacted()
      case None => DefaultLevels(creators, stateDefault)
    }

    /** Reading the create event along with the levels may fail, which counts as nobody named. */
    predicate MayReadAs(seen: LevelsEvent) {
      seen == LevelsRead(NamedCreators()) || seen == LevelsRead({})
    }
  }

  const EMPTY_ROOM := Room(map[], None, None, None, None, 50, None, None)

  /** `m.direct`: for each user, the rooms that are direct messages with them. */
  type Direct = map<UserId, seq<RoomId>>

  /** The content of an account data event. */
  datatype Content =
    | TagContent(tags: JsonMap)
    | DirectContent(direct: Direct)
    | JsonContent(entries: JsonMap)

  const TAG := "m.tag"
  const DIRECT := "m.direct"
  const IGNORED_USER_LIST := "m.ignored_user_list"

  type AccountData = map<string, Content>

  datatype Account = Account(global: AccountData, rooms: map<RoomId, AccountData>)

  datatype World = World(rooms: map<RoomId, Room>, accounts: map<UserId, Account>) {
    function RoomOf(room: RoomId): Room {
      if room in rooms then rooms[room] else EMPTY_ROOM
    }

    function MembershipOf(room: RoomId, user: UserId): Option<Membership> {
      var members := RoomOf(room).members;
      if user in members then Some(members[user]) else None
    }

    function JoinedRooms(user: UserId): set<RoomId> {
      set r | r in rooms && MembershipOf(r, user) == Some(Joined)
    }

    function AccountOf(user: UserId): Account {
      if user in accounts then accounts[user] else Account(map[], map[])
    }

    function Global(user: UserId): AccountData {
      AccountOf(user).global
    }

    function RoomData(user: UserId, room: RoomId): AccountData {
      var data := AccountOf(user).rooms;
      if room in data then data[room] else map[]
    }

    function SetRoom(room: RoomId, state: Room): World {
      this.(rooms := rooms[room := state])
    }

    function SetMembership(room: RoomId, user: UserId, membership: Membership): World {
      var state := RoomOf(room);
      SetRoom(room, state.(members := state.members[user := membership]))
    }

    function SetRoomData(user: UserId, room: RoomId, key: string, content: Content): World {
      var account := AccountOf(user);
      var data := RoomData(user, room)[key := content];
      this.(accounts := accounts[user := account.(rooms := account.rooms[room := data])])
    }

    function SetGlobal(user: UserId, key: string, content: Content): World {
      var account := AccountOf(user);
      this.(accounts := accounts[user := account.(global := account.global[key := content])])
    }
  }

  datatype UserKind = OldUser | NewUser

  /** The reads that planning makes. */
  datatype Read =
    | ReadUserId(kind: UserKind)
    | ReadJoinedRooms(kind: UserKind)
    | ReadPowerLevels(room: RoomId)
    | ReadCreators(room: RoomId)
    | ReadRoomVersion(room: RoomId)
    | ReadMembership(room: RoomId)
    | ReadServerAcl(room: RoomId)
    | ReadJoinRule(room: RoomId)
    | ReadHistoryVisibility(room: RoomId)
    | ReadAlias(room: RoomId)
    | ReadTags(kind: UserKind, room: RoomId)
    | ReadGlobal(kind: UserKind, key: string)

  datatype ReadError = ReadError

  type Fetched<T> = Result<T, ReadError>

  function FetchTags(data: AccountData): Fetched<Option<JsonMap>> {
    if TAG !in data then Success(None)
    else if data[TAG].TagContent? then Success(Some(data[TAG].tags))
    else Failure(ReadError)
  }

  function FetchDirect(data: AccountData): Fetched<Option<Direct>> {
    if DIRECT !in data then Success(None)
    else if data[DIRECT].DirectContent? then Success(Some(data[DIRECT].direct))
    else Failure(ReadError)
  }

  function FetchIgnored(data: AccountData): Fetched<Option<JsonMap>> {
    if IGNORED_USER_LIST !in data then Success(None)
    else if data[IGNORED_USER_LIST].JsonContent? then Success(Some(data[IGNORED_USER_LIST].entries))
    else Failure(ReadError)
  }
}
