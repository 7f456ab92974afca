/** Persistent events with the content fields that authorization reads, and the decoders applied
    to them. A field is kept as the decoders see it: absent, present with a value they refuse, or
    present with a value. Each decoder then fails exactly where its derived deserializer does. */
module Events {
  import opened Wrappers
  import opened Identifiers

  datatype EventType =
    | RoomCreate
    | RoomMember
    | RoomPowerLevels
    | RoomJoinRules
    | RoomThirdPartyInvite
    | RoomAliases
    | RoomRedaction
    | Other(name: string)

  /** The key of an entry in a room state: event type and state key. */
  type StateKey = (EventType, string)

  const POWER_LEVELS_KEY: StateKey := (RoomPowerLevels, "")
  const CREATE_KEY: StateKey := (RoomCreate, "")
  const JOIN_RULES_KEY: StateKey := (RoomJoinRules, "")

  function MemberKey(user: UserId): StateKey {
    (RoomMember, user)
  }

  datatype Membership = Ban | Invite | Join | Knock | Leave | CustomMembership(name: string)

  datatype JoinRule = InviteRule | KnockRule | PrivateRule | PublicRule | CustomRule(name: string)

  datatype Field<+T> = Absent | Malformed | Value(v: T)

  /** The `signed` block of a third party invite. */
  datatype SignedInvite = SignedInvite(mxid: UserId, token: string)

  datatype Levels = Levels(
    ban: Field<int>, kick: Field<int>, invite: Field<int>, redact: Field<int>,
    stateDefault: Field<int>, eventsDefault: Field<int>, usersDefault: Field<int>,
    notificationsRoom: Field<int>,
    users: Field<map<UserId, int>>, events: Field<map<EventType, int>>)

  datatype Content =
    | NotAnObject
    | Object(
        membership: Field<Membership>,
        thirdPartyInvite: Field<SignedInvite>,
        otherMemberFieldsOk: bool,
        joinRule: Field<JoinRule>,
        creator: Field<UserId>,
        roomVersion: Field<string>,
        otherCreateFieldsOk: bool,
        levels: Levels,
        inviteKey: Field<string>,
        inviteKeys: Field<seq<string>>,
        otherInviteFieldsOk: bool)

  datatype Event = Event(
    id: EventId,
    roomServer: ServerName,
    sender: UserId,
    eventType: EventType,
    stateKey: Option<string>,
    ts: nat,
    prevEvents: seq<EventId>,
    authEvents: seq<EventId>,
    redacts: Option<EventId>,
    content: Content)

  /** Where `fetch_event` finds events: a finite map that answers with the event asked for. */
  type Store = map<EventId, Event>

  predicate Consistent(fetch: Store) {
    forall id | id in fetch :: fetch[id].id == id
  }

  function KeyOfEvent(e: Event): StateKey
    requires e.stateKey.Some?
  {
    (e.eventType, e.stateKey.value)
  }

  predicate IsTypeAndKey(e: Event, kind: EventType, key: string) {
    e.eventType == kind && e.stateKey == Some(key)
  }

  // ---- Decoders ----

  /** A field that must be there. */
  function Required<T>(f: Field<T>): Option<T> {
    if f.Value? then Some(f.v) else None
  }

  /** A field with `#[serde(default)]`. */
  function Defaulted<T>(f: Field<T>, default: T): Option<T> {
    match f
    case Absent => Some(default)
    case Malformed => None
    case Value(v) => Some(v)
  }

  /** `GetMembership`: the membership must be present and well-formed. */
  function DecodeMembership(c: Content): Option<Membership> {
    if c.Object? then Required(c.membership) else None
  }

  /** `RoomMemberEventContent`, of which only the membership is read. */
  function DecodeMember(c: Content): Option<Membership> {
    if c.Object? && c.otherMemberFieldsOk && !c.thirdPartyInvite.Malformed? then Required(c.membership) else None
  }

  /** `RoomJoinRulesEventContent`. */
  function DecodeJoinRule(c: Content): Option<JoinRule> {
    if c.Object? then Required(c.joinRule) else None
  }

  /** `RoomCreateEventContent`, of which only the creator is read. */
  function DecodeCreator(c: Content): Option<UserId> {
    if c.Object? && c.otherCreateFieldsOk && !c.roomVersion.Malformed? then Required(c.creator) else None
  }

  datatype UserLevels = UserLevels(users: map<UserId, int>, usersDefault: int) {
    function Of(user: UserId): int {
      if user in users then users[user] else usersDefault
    }
  }

  /** `PowerLevelsContentFields`. */
  function DecodeUserLevels(c: Content): Option<UserLevels> {
    if c.NotAnObject? then None
    else
      match (Defaulted(c.levels.users, map[]), Defaulted(c.levels.usersDefault, 0))
      case (Some(users), Some(usersDefault)) => Some(UserLevels(users, usersDefault))
      case _ => None
  }

  /** `PowerLevelsContentInvite`: no default. */
  function DecodeInviteLevel(c: Content): Option<int> {
    if c.Object? then Required(c.levels.invite) else None
  }

  /** `PowerLevelsContentRedact`: no default. */
  function DecodeRedactLevel(c: Content): Option<int> {
    if c.Object? then Required(c.levels.redact) else None
  }

  /** `RoomPowerLevelsEventContent`. */
  datatype PowerLevels = PowerLevels(
    ban: int, kick: int, invite: int, redact: int,
    stateDefault: int, eventsDefault: int, usersDefault: int, notificationsRoom: int,
    users: map<UserId, int>, events: map<EventType, int>)

  const DEFAULT_LEVEL := 50

  const DEFAULT_POWER_LEVELS := PowerLevels(50, 50, 50, 50, 50, 0, 0, 50, map[], map[])

  predicate PowerLevelsDecode(l: Levels) {
    && !l.ban.Malformed? && !l.kick.Malformed? && !l.invite.Malformed? && !l.redact.Malformed?
    && !l.stateDefault.Malformed? && !l.eventsDefault.Malformed? && !l.usersDefault.Malformed?
    && !l.notificationsRoom.Malformed? && !l.users.Malformed? && !l.events.Malformed?
  }

  function ValueOr<T>(f: Field<T>, default: T): T {
    if f.Value? then f.v else default
  }

  function DecodePowerLevels(c: Content): (r: Option<PowerLevels>)
    ensures r.Some? ==> DecodeUserLevels(c) == Some(UserLevels(r.value.users, r.value.usersDefault))
  {
    if c.Object? && PowerLevelsDecode(c.levels) then
      var l := c.levels;
      Some(PowerLevels(
             ValueOr(l.ban, 50), ValueOr(l.kick, 50), ValueOr(l.invite, 50), ValueOr(l.redact, 50),
             ValueOr(l.stateDefault, 50), ValueOr(l.eventsDefault, 0), ValueOr(l.usersDefault, 0),
             ValueOr(l.notificationsRoom, 50),
             ValueOr(l.users, map[]), ValueOr(l.events, map[])))
    else None
  }

  /** `RoomThirdPartyInviteEventContent`, of which only the keys are read. */
  function DecodeInviteKeys(c: Content): Option<(string, seq<string>)> {
    if c.Object? && c.otherInviteFieldsOk && c.inviteKey.Value? && !c.inviteKeys.Malformed?
    then Some((c.inviteKey.v, ValueOr(c.inviteKeys, [])))
    else None
  }
}
