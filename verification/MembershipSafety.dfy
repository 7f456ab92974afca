/** Who can join, speak, or be removed while events are replayed. */
module MembershipSafety {
  import opened Wrappers
  import opened Identifiers
  import opened Events
  import opened RoomVersions
  import opened EventAuth
  import opened AuthFrame
  import opened Replay
  import opened PowerSafety
  import opened BanSafety

  /** The membership the state gives a user: none without a fetchable, decodable member event. */
  function MembershipAt(fetch: Store, state: StateMap, user: UserId): Option<Membership> {
    if MemberKey(user) in state && state[MemberKey(user)] in fetch
    then DecodeMembership(fetch[state[MemberKey(user)]].content) else None
  }

  // ---- The transition table ----

  /** What a change from one membership to another asks for. */
  datatype Requirement =
    | Never
    | BySelf
    | BySelfUnder(rules: set<JoinRule>)
    | ByMember(levels: set<int>, aboveTarget: bool)

  /** The table of transitions, by the current and the wanted membership and whether users change
      their own. Memberships outside the five named ones count as having left. */
  function Table(current: Membership, wanted: Membership, own: bool, levels: PowerLevels): Requirement {
    match (wanted, current)
    case (Join, Join) => if own then BySelfUnder({InviteRule, PublicRule}) else Never
    case (Join, Invite) => if own then BySelfUnder({InviteRule, PublicRule}) else Never
    case (Join, Ban) => Never
    case (Join, _) => if own then BySelfUnder({PublicRule}) else Never
    case (Invite, Join) => Never
    case (Invite, Ban) => Never
    case (Invite, _) => ByMember({levels.invite}, false)
    case (Leave, Join) => if own then BySelf else ByMember({levels.kick}, true)
    case (Leave, Invite) => if own then BySelf else ByMember({levels.kick}, true)
    case (Leave, Ban) => if own then Never else ByMember({levels.kick, levels.ban}, true)
    case (Leave, _) => if own then Never else ByMember({levels.kick}, true)
    case (Ban, _) => ByMember({levels.ban}, true)
    case _ => Never
  }

  /** A joined sender's level is the listed or the default one; a target has only a listed level. */
  predicate Meets(r: Requirement, target: UserId, sender: UserId, f: ChangeFacts) {
    match r
    case Never => false
    case BySelf => true
    case BySelfUnder(rules) => f.joinRule in rules
    case ByMember(levels, aboveTarget) =>
      && f.senderJoined
      && (forall level | level in levels :: LevelIn(f.levels, sender) >= level)
      && (aboveTarget && target in f.levels.users ==> f.levels.users[target] < LevelIn(f.levels, sender))
  }

  /** A change without a signed invite is allowed exactly when its entry in the table is met. */
  lemma ChangeFollowsTable(target: UserId, sender: UserId, content: Content, tp: Option<Event>, f: ChangeFacts)
    requires f.membership == Invite ==> !(content.Object? && content.thirdPartyInvite.Value?)
    ensures ChangeAllowed(target, sender, content, tp, f)
            <==> Meets(Table(f.current, f.membership, sender == target, f.levels), target, sender, f)
  {
    var r := Table(f.current, f.membership, sender == target, f.levels);
    if r.ByMember? && f.senderJoined {
      assert f.SenderPower(sender) == Some(LevelIn(f.levels, sender));
      LevelsMet(r.levels, f.levels, f.membership, f.current, LevelIn(f.levels, sender));
    }
  }

  lemma LevelsMet(levels: set<int>, l: PowerLevels, wanted: Membership, current: Membership, power: int)
    requires levels == if wanted == Invite then {l.invite} else if wanted == Ban then {l.ban}
                       else if current == Ban then {l.kick, l.ban} else {l.kick}
    ensures (forall level | level in levels :: power >= level) <==>
            if wanted == Invite then power >= l.invite else if wanted == Ban then power >= l.ban
            else if current == Ban then power >= l.kick && power >= l.ban else power >= l.kick
  {
    assert wanted == Invite ==> l.invite in levels;
    assert wanted == Ban ==> l.ban in levels;
    assert wanted != Invite && wanted != Ban ==> l.kick in levels;
    assert wanted != Invite && wanted != Ban && current == Ban ==> l.ban in levels;
  }

  // ---- Joining a room that is not public ----

  /** The state holds fetchable join rules other than public. */
  predicate ClosedRoom(fetch: Store, state: StateMap) {
    && JOIN_RULES_KEY in state && state[JOIN_RULES_KEY] in fetch
    && DecodeJoinRule(fetch[state[JOIN_RULES_KEY]].content).Some?
    && DecodeJoinRule(fetch[state[JOIN_RULES_KEY]].content).value != PublicRule
  }

  predicate Outsider(fetch: Store, state: StateMap, user: UserId) {
    MembershipAt(fetch, state, user).Some? && MembershipAt(fetch, state, user).value !in {Join, Invite}
  }

  predicate Invites(fetch: Store, s: Step, user: UserId) {
    ChangesMembership(fetch, s, user) && DecodeMembership(fetch[s.id].content) == Some(Invite)
  }

  predicate ChangesJoinRules(fetch: Store, s: Step) {
    s.accepted && s.id in fetch && IsTypeAndKey(fetch[s.id], RoomJoinRules, "")
  }

  /** The steps that can open the door to the user: an invite, other join rules, or a member event
      straight after the root create event. */
  predicate OpensDoor(fetch: Store, s: Step, user: UserId) {
    || Invites(fetch, s, user) || ChangesJoinRules(fetch, s)
    || (ChangesMembership(fetch, s, user) && AfterRootCreate(fetch, s))
  }

  lemma OutsiderStep(rv: RoomVersion, fetch: Store, s: Step, user: UserId)
    requires ValidStep(rv, fetch, s) && !OpensDoor(fetch, s, user)
    requires ClosedRoom(fetch, s.before) && Outsider(fetch, s.before, user)
    ensures ClosedRoom(fetch, s.after) && Outsider(fetch, s.after, user)
  {
    if ChangesMembership(fetch, s, user) {
      var e := fetch[s.id];
      var auth, tp, f := AcceptedChange(rv, fetch, s);
      GatheredFromState(fetch, s.before, e, auth, MemberKey(user));
      if f.membership == Join {
        GatheredFromState(fetch, s.before, e, auth, JOIN_RULES_KEY);
      }
    }
  }

  /** Over any run, an outsider of a room that is not public stays outside until one of those steps. */
  lemma {:induction false} OutsiderStaysOut(rv: RoomVersion, fetch: Store, start: StateMap, run: seq<Step>, user: UserId)
    requires IsRun(rv, fetch, start, run)
    requires ClosedRoom(fetch, start) && Outsider(fetch, start, user)
    requires forall i | 0 <= i < |run| :: !OpensDoor(fetch, run[i], user)
    ensures ClosedRoom(fetch, Final(start, run)) && Outsider(fetch, Final(start, run), user)
  {
    if run == [] {
    } else {
      OutsiderStaysOut(rv, fetch, start, run[..|run| - 1], user);
      OutsiderStep(rv, fetch, run[|run| - 1], user);
    }
  }

  // ---- The top user ----

  predicate TopMember(fetch: Store, state: StateMap, user: UserId, top: int) {
    TopsState(fetch, state, user, top) && MembershipAt(fetch, state, user) == Some(Join)
  }

  /** The changes of a user's membership that the levels do not guard: the user's own, one by a signed
      invite, whoever sends it, and any member event straight after the root create event. */
  predicate UnguardedChange(fetch: Store, s: Step, user: UserId) {
    ChangesMembership(fetch, s, user)
    && (fetch[s.id].sender == user || CarriesSignedInvite(fetch[s.id]) || AfterRootCreate(fetch, s))
  }

  /** The one change of another sender that is allowed against a joined user at the top is a signed
      invite that passes: there the code looks for a ban only. */
  lemma TopUntouchable(target: UserId, sender: UserId, content: Content, tp: Option<Event>, f: ChangeFacts, top: int)
    requires Tops(f.levels, target, top) && f.current == Join && sender != target
    ensures ChangeAllowed(target, sender, content, tp, f) <==>
            && f.membership == Invite && content.Object? && content.thirdPartyInvite.Value?
            && VerifyThirdPartyInvite(target, sender, content.thirdPartyInvite.v, tp)
  {
  }

  /** So a step by another sender, not straight after the root create event, changes the membership of
      a joined top user exactly when it accepts a signed invite, and the user is then invited. */
  lemma TopMemberStep(rv: RoomVersion, fetch: Store, s: Step, user: UserId, top: int)
    requires ValidStep(rv, fetch, s) && TopMember(fetch, s.before, user, top)
    requires ChangesMembership(fetch, s, user) ==> fetch[s.id].sender != user && !AfterRootCreate(fetch, s)
    ensures MembershipAt(fetch, s.after, user) ==
            Some(if ChangesMembership(fetch, s, user) && CarriesSignedInvite(fetch[s.id]) then Invite else Join)
    ensures ChangesMembership(fetch, s, user) ==> CarriesSignedInvite(fetch[s.id])
  {
    if ChangesMembership(fetch, s, user) {
      TopMemberChange(rv, fetch, s, user, top);
    }
  }

  lemma TopMemberChange(rv: RoomVersion, fetch: Store, s: Step, user: UserId, top: int)
    requires ValidStep(rv, fetch, s) && TopMember(fetch, s.before, user, top)
    requires ChangesMembership(fetch, s, user) && fetch[s.id].sender != user && !AfterRootCreate(fetch, s)
    ensures CarriesSignedInvite(fetch[s.id])
  {
    var e := fetch[s.id];
    var auth, tp, f := AcceptedChange(rv, fetch, s);
    GatheredFromState(fetch, s.before, e, auth, MemberKey(user));
    GatheredFromState(fetch, s.before, e, auth, POWER_LEVELS_KEY);
    assert f.levels == LevelsAt(fetch, s.before).value;
    TopUntouchable(user, e.sender, e.content, tp, f, top);
  }

  /** Over any run in which only others replace the power levels and the default level stays under the
      top, a joined user at the top stays both, as long as the run accepts none of the unguarded
      changes. */
  lemma {:induction false} TopMemberStays(rv: RoomVersion, fetch: Store, start: StateMap, run: seq<Step>, user: UserId, top: int)
    requires IsRun(rv, fetch, start, run) && TopMember(fetch, start, user, top)
    requires forall i | 0 <= i < |run| :: OthersReplace(fetch, run[i], user, top) && !UnguardedChange(fetch, run[i], user)
    ensures TopMember(fetch, Final(start, run), user, top)
  {
    TopUserStays(rv, fetch, start, run, user, top);
    if run == [] {
    } else {
      var last := |run| - 1;
      TopMemberStays(rv, fetch, start, run[..last], user, top);
      TopMemberStep(rv, fetch, run[last], user, top);
    }
  }

  // ---- Speaking ----

  /** What a user who is not joined can get accepted. */
  predicate OutsiderMaySend(rv: RoomVersion, e: Event) {
    e.eventType == RoomCreate || e.eventType == RoomMember || (e.eventType == RoomAliases && rv.specialCaseAliasesAuth)
  }

  /** Any other accepted event is sent by a joined user whose level reaches the one the event needs,
      does not speak for another user, and comes with a known create event. */
  lemma AcceptedSpeaker(rv: RoomVersion, fetch: Store, s: Step)
    requires ValidStep(rv, fetch, s) && s.accepted && !OutsiderMaySend(rv, fetch[s.id])
    ensures var e := fetch[s.id];
            && Gather(fetch, s.before, e).Ok?
            && var auth := Gather(fetch, s.before, e).value;
               var level, pl := SenderLevel(e.sender, auth), Lookup(auth, POWER_LEVELS_KEY);
               && CREATE_KEY in auth
               && MembershipOf(Lookup(auth, MemberKey(e.sender))) == Some(Join)
               && (MemberKey(e.sender) in s.before && s.before[MemberKey(e.sender)] in fetch ==>
                     MembershipAt(fetch, s.before, e.sender) == Some(Join))
               && level >= SendLevel(e.eventType, e.stateKey, pl)
               && (e.eventType == RoomThirdPartyInvite && pl.Some? ==>
                     DecodeInviteLevel(pl.value.content).Some? && level >= DecodeInviteLevel(pl.value.content).value)
               && (e.eventType == RoomThirdPartyInvite && pl.None? ==> level >= 50)
               && (e.stateKey.value != "" && e.stateKey.value[0] == '@' ==> e.stateKey.value == e.sender)
  {
    var e := fetch[s.id];
    var auth := Gather(fetch, s.before, e).value;
    var tp :| ThirdPartyChoice(auth, tp) && Ok(true) == JudgeWith(rv, fetch, e, tp, auth);
    assert JoinedSenderVerdict(rv, e, auth) == Ok(true);
    if MemberKey(e.sender) in s.before && s.before[MemberKey(e.sender)] in fetch {
      GatheredFromState(fetch, s.before, e, auth, MemberKey(e.sender));
    }
  }
}
