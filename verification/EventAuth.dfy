/** The authorization rules of `event_auth`: which state an event is judged against, and the
    verdict. A verdict of `Ok(false)` rejects the event; `Err` ends the whole resolution. */
module EventAuth {
  import opened Wrappers
  import opened Identifiers
  import opened Events
  import opened RoomVersions

  /** The state an event is judged against: what the source's `fetch_state` answers. */
  type AuthMap = map<StateKey, Event>

  function Lookup(auth: AuthMap, key: StateKey): Option<Event> {
    if key in auth then Some(auth[key]) else None
  }

  // ---- auth_types_for_event ----

  /** Only a member event's content is decoded to find the keys it needs. */
  predicate AuthTypesFail(kind: EventType, stateKey: Option<string>, content: Content) {
    kind == RoomMember && stateKey.Some? && content.NotAnObject?
  }

  /** The state keys an event is judged against. */
  function AuthTypes(kind: EventType, sender: UserId, stateKey: Option<string>, content: Content): set<StateKey> {
    if kind == RoomCreate then {}
    else if kind == RoomMember && stateKey.Some? && content.Object? && content.membership.Value?
    then MemberTypes(SenderTypes(sender), stateKey.value, content.membership.v, content.thirdPartyInvite)
    else SenderTypes(sender)
  }

  function SenderTypes(sender: UserId): set<StateKey> {
    {POWER_LEVELS_KEY, MemberKey(sender), CREATE_KEY}
  }

  /** Join rules for a join or an invite, the target's membership, and the invite's token. */
  function MemberTypes(base: set<StateKey>, target: string, membership: Membership, invite: Field<SignedInvite>): set<StateKey> {
    var rules := if membership == Join || membership == Invite then base + {JOIN_RULES_KEY} else base;
    var members := rules + {MemberKey(target)};
    if membership == Invite && invite.Value? then members + {(RoomThirdPartyInvite, invite.v.token)} else members
  }

  predicate Distinct<T(==)>(s: seq<T>) {
    forall i, j | 0 <= i < j < |s| :: s[i] != s[j]
  }

  function KeySet(keys: seq<StateKey>): set<StateKey> {
    set k | k in keys
  }

  /** `if !auth_types.contains(&key) { auth_types.push(key) }` */
  function PushNew(keys: seq<StateKey>, key: StateKey): (r: seq<StateKey>)
    ensures KeySet(r) == KeySet(keys) + {key}
    ensures Distinct(keys) ==> Distinct(r)
  {
    if key in keys then keys else keys + [key]
  }

  function BaseTypes(sender: UserId): (r: seq<StateKey>)
    ensures Distinct(r) && KeySet(r) == SenderTypes(sender)
  {
    [POWER_LEVELS_KEY, MemberKey(sender), CREATE_KEY]
  }

  method AuthTypesForEvent(kind: EventType, sender: UserId, stateKey: Option<string>, content: Content)
    returns (r: Result<seq<StateKey>>)
    ensures r.Err? <==> AuthTypesFail(kind, stateKey, content)
    ensures r.Ok? ==> Distinct(r.value) && KeySet(r.value) == AuthTypes(kind, sender, stateKey, content)
  {
    if kind == RoomCreate {
      return Ok([]);
    }
    var authTypes := BaseTypes(sender);
    if kind == RoomMember && stateKey.Some? {
      if content.NotAnObject? {
        return Err(SerdeJson);
      }
      if content.membership.Value? {
        var membership := content.membership.v;
        if membership == Join || membership == Invite {
          authTypes := PushNew(authTypes, JOIN_RULES_KEY);
        }
        authTypes := PushNew(authTypes, MemberKey(stateKey.value));
        if membership == Invite && content.thirdPartyInvite.Value? {
          authTypes := PushNew(authTypes, (RoomThirdPartyInvite, content.thirdPartyInvite.v.token));
        }
      }
    }
    return Ok(authTypes);
  }

  // ---- Rule 1: the create event ----

  /** No previous events, the room's server is the sender's, any room version is a known one, and
      a creator is named. */
  function CreateVerdict(e: Event): Result<bool> {
    if e.prevEvents != [] then Ok(false)
    else if Some(e.roomServer) != ServerNameOf(e.sender) then Ok(false)
    else if e.content.NotAnObject? then Err(SerdeJson)
    else if e.content.roomVersion.Malformed? then Ok(false)
    else Ok(!e.content.creator.Absent?)
  }

  // ---- Membership changes ----

  /** The previous event is the root create event. */
  predicate FollowsRootCreate(prev: Option<Event>) {
    prev.Some? && prev.value.eventType == RoomCreate && prev.value.prevEvents == []
  }

  /** The membership a member event gives; a user without one has left. */
  function MembershipOf(e: Option<Event>): Option<Membership> {
    if e.None? then Some(Leave) else DecodeMembership(e.value.content)
  }

  function PowerLevelsOf(e: Option<Event>): Option<PowerLevels> {
    if e.None? then Some(DEFAULT_POWER_LEVELS) else DecodePowerLevels(e.value.content)
  }

  function JoinRuleOf(e: Option<Event>): Option<JoinRule> {
    if e.None? then Some(InviteRule) else DecodeJoinRule(e.value.content)
  }

  function Listed(levels: map<UserId, int>, user: UserId): Option<int> {
    if user in levels then Some(levels[user]) else None
  }

  /** `Option` comparison in the source: no level is below every level. */
  predicate Below(a: Option<int>, b: Option<int>) {
    b.Some? && (a.None? || a.value < b.value)
  }

  predicate AtLeast(a: Option<int>, level: int) {
    a.Some? && a.value >= level
  }

  /** The decoded facts a membership change is judged by. */
  datatype ChangeFacts = ChangeFacts(
    membership: Membership,
    senderJoined: bool,
    current: Membership,
    levels: PowerLevels,
    joinRule: JoinRule)
  {
    /** The sender's power; a sender who is not joined has only an explicit level. */
    function SenderPower(sender: UserId): Option<int> {
      if sender in levels.users then Some(levels.users[sender])
      else if senderJoined then Some(levels.usersDefault)
      else None
    }

    /** The target's power; unless joining, a target has only an explicit level. */
    function TargetPower(target: UserId): Option<int> {
      if target in levels.users then Some(levels.users[target])
      else if membership == Join then Some(levels.usersDefault)
      else None
    }
  }

  /** Every content is decoded before the rules are looked at; any failure is an error. */
  function Facts(content: Content, targetMember: Option<Event>, senderMember: Option<Event>,
                 powerLevels: Option<Event>, joinRules: Option<Event>): Option<ChangeFacts>
  {
    match (DecodeMembership(content), MembershipOf(senderMember), MembershipOf(targetMember),
           PowerLevelsOf(powerLevels), JoinRuleOf(joinRules))
    case (Some(membership), Some(senderMembership), Some(current), Some(levels), Some(joinRule)) =>
      Some(ChangeFacts(membership, senderMembership == Join, current, levels, joinRule))
    case _ => None
  }

  function ValidMembershipChange(
    target: UserId, targetMember: Option<Event>, sender: UserId, senderMember: Option<Event>, content: Content,
    prev: Option<Event>, thirdParty: Option<Event>, powerLevels: Option<Event>, joinRules: Option<Event>): Result<bool>
  {
    match Facts(content, targetMember, senderMember, powerLevels, joinRules)
    case None => Err(SerdeJson)
    case Some(f) =>
      if FollowsRootCreate(prev) then Ok(true)
      else Ok(ChangeAllowed(target, sender, content, thirdParty, f))
  }

  predicate ChangeAllowed(target: UserId, sender: UserId, content: Content, thirdParty: Option<Event>, f: ChangeFacts) {
    match f.membership
    case Join => JoinAllowed(target, sender, f)
    case Invite =>
      if content.Object? && content.thirdPartyInvite.Value?
      then f.current != Ban && VerifyThirdPartyInvite(target, sender, content.thirdPartyInvite.v, thirdParty)
      else InviteAllowed(sender, f)
    case Leave => LeaveAllowed(target, sender, f)
    case Ban => BanAllowed(target, sender, f)
    case _ => false
  }

  predicate JoinAllowed(target: UserId, sender: UserId, f: ChangeFacts) {
    if sender != target then false
    else if f.current == Ban then false
    else (f.joinRule == InviteRule && (f.current == Join || f.current == Invite)) || f.joinRule == PublicRule
  }

  predicate InviteAllowed(sender: UserId, f: ChangeFacts) {
    if !f.senderJoined || f.current == Join || f.current == Ban then false
    else AtLeast(f.SenderPower(sender), f.levels.invite)
  }

  predicate LeaveAllowed(target: UserId, sender: UserId, f: ChangeFacts) {
    if sender == target then f.current == Join || f.current == Invite
    else if !f.senderJoined
            || (f.current == Ban && f.SenderPower(sender).Some? && f.SenderPower(sender).value < f.levels.ban)
    then false
    else AtLeast(f.SenderPower(sender), f.levels.kick) && Below(f.TargetPower(target), f.SenderPower(sender))
  }

  predicate BanAllowed(target: UserId, sender: UserId, f: ChangeFacts) {
    if !f.senderJoined then false
    else AtLeast(f.SenderPower(sender), f.levels.ban) && Below(f.TargetPower(target), f.SenderPower(sender))
  }

  /** The invitee, the token and the inviter match, and the token is one of the listed keys. */
  predicate VerifyThirdPartyInvite(target: UserId, sender: UserId, invite: SignedInvite, thirdParty: Option<Event>) {
    && target == invite.mxid
    && thirdParty.Some?
    && thirdParty.value.stateKey == Some(invite.token)
    && sender == thirdParty.value.sender
    && match DecodeInviteKeys(thirdParty.value.content)
       case None => false
       case Some((key, keys)) => invite.token in keys || key == invite.token
  }

  function MemberVerdict(e: Event, prev: Option<Event>, thirdParty: Option<Event>, auth: AuthMap): Result<bool> {
    if e.stateKey.None? then Ok(false)
    else if e.content.NotAnObject? then Err(SerdeJson)
    else if !e.content.membership.Value? then Ok(false)
    else if !IsUserId(e.stateKey.value) then Err(InvalidPdu)
    else
      ValidMembershipChange(
        e.stateKey.value, Lookup(auth, MemberKey(e.stateKey.value)),
        e.sender, Lookup(auth, MemberKey(e.sender)), e.content, prev, thirdParty,
        Lookup(auth, POWER_LEVELS_KEY), Lookup(auth, JOIN_RULES_KEY))
  }

  // ---- Events by joined senders ----

  /** The sender's level: from the power levels, or 100 for the creator of a room without any. */
  function SenderLevel(sender: UserId, auth: AuthMap): int {
    match Lookup(auth, POWER_LEVELS_KEY)
    case Some(pl) =>
      (match DecodeUserLevels(pl.content)
       case Some(levels) => levels.Of(sender)
       case None => 0)
    case None =>
      if CREATE_KEY in auth && DecodeCreator(auth[CREATE_KEY].content) == Some(sender) then 100 else 0
  }

  /** `get_send_level`. */
  function SendLevel(kind: EventType, stateKey: Option<string>, powerLevels: Option<Event>): int {
    var decoded := if powerLevels.Some? then DecodePowerLevels(powerLevels.value.content) else None;
    match decoded
    case None => if stateKey.Some? then 50 else 0
    case Some(c) =>
      if kind in c.events then c.events[kind] else if stateKey.Some? then c.stateDefault else c.eventsDefault
  }

  /** `can_send_event`. */
  predicate CanSend(e: Event, powerLevels: Option<Event>, level: int) {
    && level >= SendLevel(e.eventType, e.stateKey, powerLevels)
    && !(e.stateKey.Some? && e.stateKey.value != "" && e.stateKey.value[0] == '@' && e.stateKey.value != e.sender)
  }

  /** A third party invite needs the invite level, which has no default in a power levels event. */
  function InviteLevelVerdict(e: Event, powerLevels: Option<Event>, level: int): Result<bool> {
    if e.eventType != RoomThirdPartyInvite then Ok(true)
    else
      match powerLevels
      case None => Ok(level >= DEFAULT_LEVEL)
      case Some(pl) =>
        match DecodeInviteLevel(pl.content)
        case None => Err(SerdeJson)
        case Some(invite) => Ok(level >= invite)
  }

  // ---- check_power_levels ----

  /** An explicit level may change only when neither value is above the sender's. */
  predicate EntryGuard<K(==)>(prior: map<K, int>, proposed: map<K, int>, k: K, level: int) {
    || (k in prior && k in proposed && prior[k] == proposed[k])
    || ((k in prior ==> prior[k] <= level) && (k in proposed ==> proposed[k] <= level))
  }

  /** Moreover another user's level equal to the sender's may not change. */
  predicate UserGuard(prior: map<UserId, int>, proposed: map<UserId, int>, user: UserId, sender: UserId, level: int) {
    && EntryGuard(prior, proposed, user, level)
    && (user != sender && user in prior && prior[user] == level ==> user in proposed && proposed[user] == prior[user])
  }

  /** What serialization keeps of a level: nothing when it has its default value. */
  function Serialized(level: int, default: int): Option<int> {
    if level == default then None else Some(level)
  }

  predicate NamedGuard(prior: Option<int>, proposed: Option<int>, level: int) {
    prior.Some? && proposed.Some? ==> prior.value <= level && proposed.value <= level
  }

  /** The serialized named levels, in the order the source lists them. */
  function NamedLevels(c: PowerLevels): seq<Option<int>> {
    [Serialized(c.usersDefault, 0), Serialized(c.eventsDefault, 0), Serialized(c.stateDefault, 50),
     Serialized(c.ban, 50), Serialized(c.redact, 50), Serialized(c.kick, 50), Serialized(c.invite, 50)]
  }

  /** Named levels are compared only when both serialized contents hold them, changed or not. */
  predicate NamedGuards(prior: seq<Option<int>>, proposed: seq<Option<int>>, level: int)
    requires |prior| == |proposed|
  {
    forall i | 0 <= i < |prior| :: NamedGuard(prior[i], proposed[i], level)
  }

  predicate NotificationsGuard(rv: RoomVersion, prior: PowerLevels, proposed: PowerLevels, level: int) {
    rv.limitNotificationsPowerLevels && prior.notificationsRoom != proposed.notificationsRoom ==>
      prior.notificationsRoom <= level && proposed.notificationsRoom <= level
  }

  predicate LevelsGuard(rv: RoomVersion, prior: PowerLevels, proposed: PowerLevels, sender: UserId, level: int) {
    && (forall user | user in prior.users.Keys + proposed.users.Keys :: UserGuard(prior.users, proposed.users, user, sender, level))
    && (forall kind | kind in prior.events.Keys + proposed.events.Keys :: EntryGuard(prior.events, proposed.events, kind, level))
    && NotificationsGuard(rv, prior, proposed, level)
    && NamedGuards(NamedLevels(prior), NamedLevels(proposed), level)
  }

  /** The verdict on a power levels event. Contents that do not decode are unwrapped in the source. */
  function PowerLevelsVerdict(rv: RoomVersion, e: Event, previous: Option<Event>, level: int): Result<bool> {
    if e.stateKey != Some("") then Ok(false)
    else
      match previous
      case None => Ok(true)
      case Some(prev) =>
        match (DecodePowerLevels(e.content), DecodePowerLevels(prev.content))
        case (Some(proposed), Some(prior)) => Ok(LevelsGuard(rv, prior, proposed, e.sender, level))
        case _ => Err(Panic)
  }

  /** `check_power_levels`, with its early returns. `None` in the source, for a state key that is not
      empty, rejects the event just like `Some(false)`. */
  method CheckPowerLevels(rv: RoomVersion, e: Event, previous: Option<Event>, level: int) returns (r: Result<bool>)
    ensures r == PowerLevelsVerdict(rv, e, previous, level)
  {
    if e.stateKey != Some("") {
      return Ok(false);
    }
    if previous.None? {
      return Ok(true);
    }
    var proposedContent := DecodePowerLevels(e.content);
    var priorContent := DecodePowerLevels(previous.value.content);
    if proposedContent.None? || priorContent.None? {
      return Err(Panic);
    }
    var proposed, prior := proposedContent.value, priorContent.value;
    var usersAllowed := CheckUsers(prior.users, proposed.users, e.sender, level);
    if !usersAllowed {
      return Ok(false);
    }
    var eventsAllowed := CheckEvents(prior.events, proposed.events, level);
    if !eventsAllowed {
      return Ok(false);
    }
    if rv.limitNotificationsPowerLevels && prior.notificationsRoom != proposed.notificationsRoom {
      if prior.notificationsRoom > level || proposed.notificationsRoom > level {
        return Ok(false);
      }
    }
    var namedAllowed := CheckNamed(NamedLevels(prior), NamedLevels(proposed), level);
    return Ok(namedAllowed);
  }

  /** The loop over `user_levels_to_check`. */
  method CheckUsers(prior: map<UserId, int>, proposed: map<UserId, int>, sender: UserId, level: int) returns (allowed: bool)
    ensures allowed <==> forall user | user in prior.Keys + proposed.Keys :: UserGuard(prior, proposed, user, sender, level)
  {
    ghost var done: set<UserId> := {};
    var rest := prior.Keys + proposed.Keys;
    while rest != {}
      invariant done + rest == prior.Keys + proposed.Keys
      invariant forall user | user in done :: UserGuard(prior, proposed, user, sender, level)
    {
      var user :| user in rest;
      var priorLevel, proposedLevel := Listed(prior, user), Listed(proposed, user);
      if !(priorLevel.Some? && proposedLevel.Some? && priorLevel == proposedLevel) {
        if user != sender && priorLevel == Some(level) {
          return false;
        }
        if Below(Some(level), priorLevel) || Below(Some(level), proposedLevel) {
          return false;
        }
      }
      rest, done := rest - {user}, done + {user};
    }
    return true;
  }

  /** The loop over `event_levels_to_check`. */
  method CheckEvents(prior: map<EventType, int>, proposed: map<EventType, int>, level: int) returns (allowed: bool)
    ensures allowed <==> forall kind | kind in prior.Keys + proposed.Keys :: EntryGuard(prior, proposed, kind, level)
  {
    ghost var done: set<EventType> := {};
    var rest := prior.Keys + proposed.Keys;
    while rest != {}
      invariant done + rest == prior.Keys + proposed.Keys
      invariant forall kind | kind in done :: EntryGuard(prior, proposed, kind, level)
    {
      var kind :| kind in rest;
      if !(kind in prior && kind in proposed && prior[kind] == proposed[kind]) {
        if (kind in prior && prior[kind] > level) || (kind in proposed && proposed[kind] > level) {
          return false;
        }
      }
      rest, done := rest - {kind}, done + {kind};
    }
    return true;
  }

  /** The loop over the level names. */
  method CheckNamed(prior: seq<Option<int>>, proposed: seq<Option<int>>, level: int) returns (allowed: bool)
    requires |prior| == |proposed|
    ensures allowed <==> NamedGuards(prior, proposed, level)
  {
    for i := 0 to |prior|
      invariant forall j | 0 <= j < i :: NamedGuard(prior[j], proposed[j], level)
    {
      if prior[i].Some? && proposed[i].Some? {
        if prior[i].value > level || proposed[i].value > level {
          return false;
        }
      }
    }
    return true;
  }

  // ---- Redactions ----

  /** `check_redaction`: enough power, or both event ids name the same server, or neither does. */
  predicate RedactionAllowed(e: Event, powerLevels: Option<Event>, level: int) {
    var decoded := if powerLevels.Some? then DecodeRedactLevel(powerLevels.value.content) else None;
    var redactLevel := if decoded.Some? then decoded.value else DEFAULT_LEVEL;
    || level >= redactLevel
    || ServerNameOf(e.id) == (if e.redacts.Some? then ServerNameOf(e.redacts.value) else None)
  }

  // ---- auth_check ----

  /** The rules for an event that is neither a create, an alias nor a member event, once its sender
      is known to be joined. */
  function JoinedSenderVerdict(rv: RoomVersion, e: Event, auth: AuthMap): Result<bool> {
    var level := SenderLevel(e.sender, auth);
    var powerLevels := Lookup(auth, POWER_LEVELS_KEY);
    var inviteAllowed :- InviteLevelVerdict(e, powerLevels, level);
    if !inviteAllowed || !CanSend(e, powerLevels, level) then Ok(false)
    else
      var levelsAllowed :-
        if e.eventType == RoomPowerLevels then PowerLevelsVerdict(rv, e, powerLevels, level) else Ok(true);
      if !levelsAllowed then Ok(false)
      else Ok(!(rv.extraRedactionChecks && e.eventType == RoomRedaction) || RedactionAllowed(e, powerLevels, level))
  }

  /** `auth_check`: the verdict on `e` given its latest previous event, a third party invite and the
      state it is judged against. */
  function AuthCheck(rv: RoomVersion, e: Event, prev: Option<Event>, thirdParty: Option<Event>, auth: AuthMap): Result<bool> {
    if e.eventType == RoomCreate then CreateVerdict(e)
    else if CREATE_KEY !in auth then Ok(false)
    else if e.eventType == RoomAliases && rv.specialCaseAliasesAuth
    then Ok(e.stateKey.Some? && Some(e.stateKey.value) == ServerNameOf(e.sender))
    else if e.eventType == RoomMember then MemberVerdict(e, prev, thirdParty, auth)
    else if MemberKey(e.sender) !in auth then Ok(false)
    else
      var content := auth[MemberKey(e.sender)].content;
      if content.NotAnObject? then Err(SerdeJson)
      else
        match content.membership
        case Absent => Err(Panic)
        case Malformed => Err(SerdeJson)
        case Value(membership) => if membership != Join then Ok(false) else JoinedSenderVerdict(rv, e, auth)
  }
}
