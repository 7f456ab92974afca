/** The authorization rules by the fields of the events: for each kind of event, exactly when it is
    accepted, without the decoders and helpers that `EventAuth` goes through. */
module AuthRules {
  import opened Wrappers
  import opened Identifiers
  import opened Events
  import opened RoomVersions
  import opened EventAuth
  import opened Samples
  import opened Replay
  import opened Ambiguity
  import opened PowerSafety
  import opened DefaultLevels
  import opened MembershipSafety

  // ---- Which state an event is judged against ----

  /** The keys an event needs: the power levels, its sender's membership and the create event; for a
      member event also its target's membership, for a join or an invite the join rules, and for a
      signed invite the third party invite of its token. A create event needs none. */
  lemma NeededKeys(e: Event, k: StateKey)
    ensures k in AuthTypes(e.eventType, e.sender, e.stateKey, e.content) <==>
            && e.eventType != RoomCreate
            && (|| k in {(RoomPowerLevels, ""), (RoomCreate, ""), (RoomMember, e.sender)}
                || (&& e.eventType == RoomMember && e.stateKey.Some? && e.content.Object? && e.content.membership.Value?
                    && (|| k == (RoomMember, e.stateKey.value)
                        || (k == (RoomJoinRules, "") && e.content.membership.v in {Join, Invite})
                        || (&& k.0 == RoomThirdPartyInvite && e.content.membership.v == Invite
                            && e.content.thirdPartyInvite.Value? && k.1 == e.content.thirdPartyInvite.v.token))))
  {
  }

  // ---- Power levels as they are serialized ----

  function Kept(level: int, default: int): Field<int> {
    if level == default then Absent else Value(level)
  }

  /** The content that levels are serialized to: what has its default value is left out. */
  function SerializedContent(l: PowerLevels): Content {
    EMPTY_OBJECT.(levels := Levels(
      Kept(l.ban, 50), Kept(l.kick, 50), Kept(l.invite, 50), Kept(l.redact, 50), Kept(l.stateDefault, 50),
      Kept(l.eventsDefault, 0), Kept(l.usersDefault, 0), Kept(l.notificationsRoom, 50),
      if l.users == map[] then Absent else Value(l.users), if l.events == map[] then Absent else Value(l.events)))
  }

  /** Decoding serialized levels gives them back; and they decode exactly when no field is malformed. */
  lemma LevelsRoundTrip(l: PowerLevels, c: Content)
    ensures DecodePowerLevels(SerializedContent(l)) == Some(l)
    ensures DecodePowerLevels(c).Some? <==>
            && c.Object? && !c.levels.users.Malformed? && !c.levels.events.Malformed?
            && Malformed !in {c.levels.ban, c.levels.kick, c.levels.invite, c.levels.redact, c.levels.stateDefault,
                              c.levels.eventsDefault, c.levels.usersDefault, c.levels.notificationsRoom}
  {
  }

  // ---- Replacing power levels ----

  function Entry<K>(m: map<K, int>, k: K): Option<int> {
    if k in m then Some(m[k]) else None
  }

  /** A listed level is unchanged, or neither value is above the sender's. */
  predicate MayChange(prior: Option<int>, proposed: Option<int>, level: int) {
    prior == proposed || ((prior.Some? ==> prior.value <= level) && (proposed.Some? ==> proposed.value <= level))
  }

  /** A named level: when neither value is the default one, neither is above the sender's. */
  predicate Compared(prior: int, proposed: int, default: int, level: int) {
    prior != default && proposed != default ==> prior <= level && proposed <= level
  }

  ghost predicate ReplacementAllowed(rv: RoomVersion, prior: PowerLevels, proposed: PowerLevels, sender: UserId, level: int) {
    && (forall user: UserId ::
          && MayChange(Entry(prior.users, user), Entry(proposed.users, user), level)
          && (user != sender && Entry(prior.users, user) == Some(level) ==> Entry(proposed.users, user) == Some(level)))
    && (forall kind: EventType :: MayChange(Entry(prior.events, kind), Entry(proposed.events, kind), level))
    && Compared(prior.usersDefault, proposed.usersDefault, 0, level)
    && Compared(prior.eventsDefault, proposed.eventsDefault, 0, level)
    && Compared(prior.stateDefault, proposed.stateDefault, 50, level)
    && Compared(prior.ban, proposed.ban, 50, level)
    && Compared(prior.redact, proposed.redact, 50, level)
    && Compared(prior.kick, proposed.kick, 50, level)
    && Compared(prior.invite, proposed.invite, 50, level)
    && (rv.limitNotificationsPowerLevels && prior.notificationsRoom != proposed.notificationsRoom ==>
          prior.notificationsRoom <= level && proposed.notificationsRoom <= level)
  }

  lemma NamedByField(prior: PowerLevels, proposed: PowerLevels, level: int)
    ensures NamedGuards(NamedLevels(prior), NamedLevels(proposed), level) <==>
            && Compared(prior.usersDefault, proposed.usersDefault, 0, level)
            && Compared(prior.eventsDefault, proposed.eventsDefault, 0, level)
            && Compared(prior.stateDefault, proposed.stateDefault, 50, level)
            && Compared(prior.ban, proposed.ban, 50, level)
            && Compared(prior.redact, proposed.redact, 50, level)
            && Compared(prior.kick, proposed.kick, 50, level)
            && Compared(prior.invite, proposed.invite, 50, level)
  {
    var a, b := NamedLevels(prior), NamedLevels(proposed);
    assert NamedGuards(a, b, level) <==>
           && NamedGuard(a[0], b[0], level) && NamedGuard(a[1], b[1], level) && NamedGuard(a[2], b[2], level)
           && NamedGuard(a[3], b[3], level) && NamedGuard(a[4], b[4], level) && NamedGuard(a[5], b[5], level)
           && NamedGuard(a[6], b[6], level);
  }

  lemma EntriesByField<K(!new)>(prior: map<K, int>, proposed: map<K, int>, level: int)
    ensures (forall k | k in prior.Keys + proposed.Keys :: EntryGuard(prior, proposed, k, level)) <==>
            (forall k: K :: MayChange(Entry(prior, k), Entry(proposed, k), level))
  {
    forall k: K
      ensures MayChange(Entry(prior, k), Entry(proposed, k), level) <==>
              (k in prior.Keys + proposed.Keys ==> EntryGuard(prior, proposed, k, level))
    {
    }
  }

  lemma UsersByField(prior: map<UserId, int>, proposed: map<UserId, int>, sender: UserId, level: int)
    ensures (forall u | u in prior.Keys + proposed.Keys :: UserGuard(prior, proposed, u, sender, level)) <==>
            forall u: UserId ::
              && MayChange(Entry(prior, u), Entry(proposed, u), level)
              && (u != sender && Entry(prior, u) == Some(level) ==> Entry(proposed, u) == Some(level))
  {
    forall u: UserId
      ensures (u in prior.Keys + proposed.Keys ==> UserGuard(prior, proposed, u, sender, level)) <==>
              && MayChange(Entry(prior, u), Entry(proposed, u), level)
              && (u != sender && Entry(prior, u) == Some(level) ==> Entry(proposed, u) == Some(level))
    {
    }
  }

  lemma GuardByField(rv: RoomVersion, prior: PowerLevels, proposed: PowerLevels, sender: UserId, level: int)
    ensures LevelsGuard(rv, prior, proposed, sender, level) <==> ReplacementAllowed(rv, prior, proposed, sender, level)
  {
    UsersByField(prior.users, proposed.users, sender, level);
    EntriesByField(prior.events, proposed.events, level);
    NamedByField(prior, proposed, level);
  }

  /** A replacement by a sender who can send power levels is accepted if and only if every level it
      changes is allowed by field; and no other is accepted over fetchable power levels. */
  lemma ReplacementRule(rv: RoomVersion, fetch: Store, s: Step)
    requires ValidStep(rv, fetch, s) && IsTypeAndKey(fetch[s.id], RoomPowerLevels, "") && HasLevels(fetch, s.before)
    ensures s.accepted ==> LevelsAt(fetch, s.before).Some? && DecodePowerLevels(fetch[s.id].content).Some?
    ensures LevelsAt(fetch, s.before).Some? && DecodePowerLevels(fetch[s.id].content).Some? ==>
              var prior, proposed := LevelsAt(fetch, s.before).value, DecodePowerLevels(fetch[s.id].content).value;
              var sender := fetch[s.id].sender;
              && (s.accepted ==> ReplacementAllowed(rv, prior, proposed, sender, LevelIn(prior, sender)))
              && (CanReplace(fetch, s.before, sender) && ReplacementAllowed(rv, prior, proposed, sender, LevelIn(prior, sender))
                  ==> s.accepted)
  {
    var e := fetch[s.id];
    if s.accepted {
      AcceptedReplacement(rv, fetch, s);
    }
    if LevelsAt(fetch, s.before).Some? && DecodePowerLevels(e.content).Some? {
      var prior, proposed := LevelsAt(fetch, s.before).value, DecodePowerLevels(e.content).value;
      GuardByField(rv, prior, proposed, e.sender, LevelIn(prior, e.sender));
      if CanReplace(fetch, s.before, e.sender) {
        ReplacementVerdict(rv, fetch, s.before, s.id);
        JudgementUnique(rv, fetch, s.before, s.id, Ok(s.accepted),
                        Ok(LevelsGuard(rv, prior, proposed, e.sender, LevelIn(prior, e.sender))));
      }
    }
  }

  // ---- Create and aliases events ----

  /** A create event is accepted exactly when it has no previous events, the room is on its sender's
      server, no malformed room version is given, and a creator is. */
  lemma CreateRule(rv: RoomVersion, e: Event, prev: Option<Event>, tp: Option<Event>, auth: AuthMap)
    requires e.eventType == RoomCreate
    ensures AuthCheck(rv, e, prev, tp, auth) == Ok(true) <==>
            && e.prevEvents == [] && ServerNameOf(e.sender) == Some(e.roomServer)
            && e.content.Object? && !e.content.roomVersion.Malformed? && !e.content.creator.Absent?
    ensures AuthCheck(rv, e, prev, tp, auth).Err? <==>
            e.prevEvents == [] && ServerNameOf(e.sender) == Some(e.roomServer) && e.content.NotAnObject?
  {
  }

  /** In the versions that treat them specially, an aliases event is accepted exactly when the create event
      is known and its state key is its sender's server. */
  lemma AliasesRule(rv: RoomVersion, e: Event, prev: Option<Event>, tp: Option<Event>, auth: AuthMap)
    requires e.eventType == RoomAliases && rv.specialCaseAliasesAuth
    ensures AuthCheck(rv, e, prev, tp, auth) ==
            Ok(CREATE_KEY in auth && e.stateKey.Some? && ServerNameOf(e.sender) == Some(e.stateKey.value))
  {
  }

  // ---- Member events ----

  /** A third party invite allows a signed invite exactly when it names the invited user, both are sent by
      the same user, and the token is both its state key and one of its keys. */
  lemma ThirdPartyInviteRule(target: UserId, sender: UserId, invite: SignedInvite, thirdParty: Option<Event>)
    ensures VerifyThirdPartyInvite(target, sender, invite, thirdParty) <==>
            && thirdParty.Some? && invite.mxid == target && thirdParty.value.sender == sender
            && thirdParty.value.stateKey == Some(invite.token)
            && var c := thirdParty.value.content;
               && c.Object? && c.otherInviteFieldsOk && c.inviteKey.Value? && !c.inviteKeys.Malformed?
               && (c.inviteKey.v == invite.token || (c.inviteKeys.Value? && invite.token in c.inviteKeys.v))
  {
  }

  /** The membership the state gives a user; without a member event they have left. */
  predicate HasMembership(auth: AuthMap, user: UserId, m: Membership) {
    if (RoomMember, user) in auth
    then auth[(RoomMember, user)].content.Object? && auth[(RoomMember, user)].content.membership == Value(m)
    else m == Leave
  }

  predicate MembershipReadable(auth: AuthMap, user: UserId) {
    (RoomMember, user) in auth ==>
      auth[(RoomMember, user)].content.Object? && auth[(RoomMember, user)].content.membership.Value?
  }

  /** The facts of a member event, by the fields of the events they come from. */
  predicate HasFacts(e: Event, auth: AuthMap, target: UserId, f: ChangeFacts) {
    && e.content.Object? && e.content.membership == Value(f.membership)
    && HasMembership(auth, target, f.current)
    && MembershipReadable(auth, e.sender) && (f.senderJoined <==> HasMembership(auth, e.sender, Join))
    && (if (RoomPowerLevels, "") in auth then DecodePowerLevels(auth[(RoomPowerLevels, "")].content) == Some(f.levels)
        else f.levels == PowerLevels(50, 50, 50, 50, 50, 0, 0, 50, map[], map[]))
    && (if (RoomJoinRules, "") in auth
        then auth[(RoomJoinRules, "")].content.Object? && auth[(RoomJoinRules, "")].content.joinRule == Value(f.joinRule)
        else f.joinRule == InviteRule)
  }

  /** The change is allowed: a signed invite by the third party invite, anything else by the table. */
  predicate MayHappen(e: Event, target: UserId, tp: Option<Event>, f: ChangeFacts)
    requires e.content.Object?
  {
    if f.membership == Invite && e.content.thirdPartyInvite.Value?
    then f.current != Ban && VerifyThirdPartyInvite(target, e.sender, e.content.thirdPartyInvite.v, tp)
    else Meets(Table(f.current, f.membership, e.sender == target, f.levels), target, e.sender, f)
  }

  lemma FactsByField(e: Event, auth: AuthMap, target: UserId, f: ChangeFacts)
    ensures HasFacts(e, auth, target, f) <==>
            e.content.Object? && e.content.membership.Value?
            && Facts(e.content, Lookup(auth, MemberKey(target)), Lookup(auth, MemberKey(e.sender)),
                     Lookup(auth, POWER_LEVELS_KEY), Lookup(auth, JOIN_RULES_KEY)) == Some(f)
  {
  }

  /** A member event is accepted exactly when the create event is known, the state key is a user id, all
      contents decode, and it follows the root create event or the change is allowed. It is an error when
      the contents do not decode or the state key is no user id, but not when its membership is missing. */
  lemma MemberRule(rv: RoomVersion, e: Event, prev: Option<Event>, tp: Option<Event>, auth: AuthMap)
    requires e.eventType == RoomMember
    ensures AuthCheck(rv, e, prev, tp, auth) == Ok(true) <==>
            && CREATE_KEY in auth && e.stateKey.Some? && IsUserId(e.stateKey.value)
            && exists f :: HasFacts(e, auth, e.stateKey.value, f)
                           && ((prev.Some? && prev.value.eventType == RoomCreate && prev.value.prevEvents == [])
                               || MayHappen(e, e.stateKey.value, tp, f))
    ensures AuthCheck(rv, e, prev, tp, auth).Err? <==>
            && CREATE_KEY in auth && e.stateKey.Some?
            && (|| e.content.NotAnObject?
                || (e.content.membership.Value?
                    && (!IsUserId(e.stateKey.value) || forall f :: !HasFacts(e, auth, e.stateKey.value, f))))
  {
    if CREATE_KEY in auth && e.stateKey.Some? && IsUserId(e.stateKey.value) && e.content.Object? && e.content.membership.Value? {
      var target := e.stateKey.value;
      var facts := FactsOf(e, auth);
      if facts.Some? {
        var f := facts.value;
        FactsByField(e, auth, target, f);
        if !(f.membership == Invite && e.content.thirdPartyInvite.Value?) {
          ChangeFollowsTable(target, e.sender, e.content, tp, f);
        }
      }
      forall f | HasFacts(e, auth, target, f)
        ensures facts == Some(f)
      {
        FactsByField(e, auth, target, f);
      }
    }
  }

  // ---- Everything else ----

  /** A user's level: as listed, else the default; 0 under unreadable power levels; without any, 100 for
      the creator and 0 for the others. */
  function LevelOf(auth: AuthMap, user: UserId): int {
    if (RoomPowerLevels, "") in auth then
      var c := auth[(RoomPowerLevels, "")].content;
      if c.NotAnObject? || c.levels.users.Malformed? || c.levels.usersDefault.Malformed? then 0
      else if c.levels.users.Value? && user in c.levels.users.v then c.levels.users.v[user]
      else if c.levels.usersDefault.Value? then c.levels.usersDefault.v
      else 0
    else if (RoomCreate, "") in auth && CreatorIs(auth[(RoomCreate, "")].content, user) then 100
    else 0
  }

  predicate CreatorIs(c: Content, user: UserId) {
    c.Object? && c.otherCreateFieldsOk && !c.roomVersion.Malformed? && c.creator == Value(user)
  }

  /** The level the event needs: its type's, else the state's or the events' default. */
  function LevelFor(auth: AuthMap, e: Event): int {
    if (RoomPowerLevels, "") in auth && DecodePowerLevels(auth[(RoomPowerLevels, "")].content).Some? then
      var l := auth[(RoomPowerLevels, "")].content.levels;
      if l.events.Value? && e.eventType in l.events.v then l.events.v[e.eventType]
      else if e.stateKey.Some? then (if l.stateDefault.Value? then l.stateDefault.v else 50)
      else if l.eventsDefault.Value? then l.eventsDefault.v
      else 0
    else if e.stateKey.Some? then 50
    else 0
  }

  /** What a third party invite needs beyond the level for its type. */
  predicate InviteLevelMet(auth: AuthMap, level: int) {
    if (RoomPowerLevels, "") in auth then
      var c := auth[(RoomPowerLevels, "")].content;
      c.Object? && c.levels.invite.Value? && level >= c.levels.invite.v
    else level >= 50
  }

  /** What a redaction needs: the redact level, or an id from the server of what it redacts. */
  predicate RedactionMet(e: Event, auth: AuthMap, level: int) {
    var readable := (RoomPowerLevels, "") in auth && auth[(RoomPowerLevels, "")].content.Object?
                    && auth[(RoomPowerLevels, "")].content.levels.redact.Value?;
    || level >= (if readable then auth[(RoomPowerLevels, "")].content.levels.redact.v else 50)
    || ServerNameOf(e.id) == (if e.redacts.Some? then ServerNameOf(e.redacts.value) else None)
  }

  /** What power levels need. */
  ghost predicate PowerLevelsMet(rv: RoomVersion, e: Event, auth: AuthMap, level: int) {
    && e.stateKey == Some("")
    && ((RoomPowerLevels, "") in auth ==>
          var prior, proposed := DecodePowerLevels(auth[(RoomPowerLevels, "")].content), DecodePowerLevels(e.content);
          prior.Some? && proposed.Some? && ReplacementAllowed(rv, prior.value, proposed.value, e.sender, level))
  }

  /** The state key does not name another user. */
  predicate SpeaksForItself(e: Event) {
    e.stateKey.Some? && e.stateKey.value != "" && e.stateKey.value[0] == '@' ==> e.stateKey.value == e.sender
  }

  lemma LevelByField(auth: AuthMap, e: Event)
    ensures SenderLevel(e.sender, auth) == LevelOf(auth, e.sender)
    ensures SendLevel(e.eventType, e.stateKey, Lookup(auth, POWER_LEVELS_KEY)) == LevelFor(auth, e)
  {
  }

  /** What a joined sender's event needs. */
  ghost predicate SenderMay(rv: RoomVersion, e: Event, auth: AuthMap, level: int) {
    && level >= LevelFor(auth, e) && SpeaksForItself(e)
    && (e.eventType == RoomThirdPartyInvite ==> InviteLevelMet(auth, level))
    && (e.eventType == RoomPowerLevels ==> PowerLevelsMet(rv, e, auth, level))
    && (e.eventType == RoomRedaction && rv.extraRedactionChecks ==> RedactionMet(e, auth, level))
  }

  /** The power levels that the event's type has to be compared with cannot be read. */
  predicate UnreadableLevels(e: Event, auth: AuthMap, level: int) {
    && (RoomPowerLevels, "") in auth
    && var c := auth[(RoomPowerLevels, "")].content;
       || (e.eventType == RoomThirdPartyInvite && !(c.Object? && c.levels.invite.Value?))
       || (&& e.eventType == RoomPowerLevels && e.stateKey == Some("") && level >= LevelFor(auth, e)
           && (DecodePowerLevels(c).None? || DecodePowerLevels(e.content).None?))
  }

  lemma PowerLevelsByField(rv: RoomVersion, e: Event, auth: AuthMap, level: int)
    ensures PowerLevelsVerdict(rv, e, Lookup(auth, POWER_LEVELS_KEY), level) == Ok(true) <==> PowerLevelsMet(rv, e, auth, level)
  {
    if POWER_LEVELS_KEY in auth {
      var prior, proposed := DecodePowerLevels(auth[POWER_LEVELS_KEY].content), DecodePowerLevels(e.content);
      if prior.Some? && proposed.Some? {
        GuardByField(rv, prior.value, proposed.value, e.sender, level);
      }
    }
  }

  lemma JoinedSenderRule(rv: RoomVersion, e: Event, auth: AuthMap)
    ensures JoinedSenderVerdict(rv, e, auth) == Ok(true) <==> SenderMay(rv, e, auth, LevelOf(auth, e.sender))
    ensures JoinedSenderVerdict(rv, e, auth).Err? <==> UnreadableLevels(e, auth, LevelOf(auth, e.sender))
  {
    LevelByField(auth, e);
    PowerLevelsByField(rv, e, auth, LevelOf(auth, e.sender));
  }

  /** Any other event is accepted exactly when the create event is known, its sender is joined and has the
      level it needs, it does not speak for another user, and what its type asks for besides is met. It is
      an error when its sender's membership, or the levels its type is compared with, cannot be read. */
  lemma SenderRule(rv: RoomVersion, e: Event, prev: Option<Event>, tp: Option<Event>, auth: AuthMap)
    requires e.eventType != RoomCreate && e.eventType != RoomMember
    requires !(e.eventType == RoomAliases && rv.specialCaseAliasesAuth)
    ensures AuthCheck(rv, e, prev, tp, auth) == Ok(true) <==>
            && CREATE_KEY in auth && (RoomMember, e.sender) in auth && HasMembership(auth, e.sender, Join)
            && SenderMay(rv, e, auth, LevelOf(auth, e.sender))
    ensures AuthCheck(rv, e, prev, tp, auth).Err? <==>
            && CREATE_KEY in auth && (RoomMember, e.sender) in auth
            && (|| !MembershipReadable(auth, e.sender)
                || (HasMembership(auth, e.sender, Join) && UnreadableLevels(e, auth, LevelOf(auth, e.sender))))
  {
    JoinedSenderRule(rv, e, auth);
  }

  // ---- Errors ----

  /** An event is an error in some judgement exactly when it cannot be fetched, has no state key, cannot be
      gathered for, or the rules fail on it with some third party invite found. */
  lemma ErrorsExactly(rv: RoomVersion, fetch: Store, state: StateMap, id: EventId)
    ensures (exists error :: Judges(rv, fetch, state, id, Err(error))) <==>
            || id !in fetch || fetch[id].stateKey.None? || Gather(fetch, state, fetch[id]).Err?
            || exists tp :: ThirdPartyChoice(Gather(fetch, state, fetch[id]).value, tp)
                            && JudgeWith(rv, fetch, fetch[id], tp, Gather(fetch, state, fetch[id]).value).Err?
  {
    if id !in fetch {
      assert Judges(rv, fetch, state, id, Err(NotFound));
    } else if fetch[id].stateKey.None? {
      assert Judges(rv, fetch, state, id, Err(InvalidPdu));
    } else if Gather(fetch, state, fetch[id]).Err? {
      assert Judges(rv, fetch, state, id, Err(Gather(fetch, state, fetch[id]).error));
    } else {
      var auth := Gather(fetch, state, fetch[id]).value;
      if tp :| ThirdPartyChoice(auth, tp) && JudgeWith(rv, fetch, fetch[id], tp, auth).Err? {
        assert Judges(rv, fetch, state, id, Err(JudgeWith(rv, fetch, fetch[id], tp, auth).error));
      }
    }
  }
}
