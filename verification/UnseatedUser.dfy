/** A room in which others change the membership of a joined user at the top. */
module UnseatedUser {
  import opened Wrappers
  import opened Identifiers
  import opened Events
  import opened RoomVersions
  import opened EventAuth
  import opened Samples
  import opened Replay
  import opened Ambiguity
  import opened PowerSafety
  import opened DefaultLevels
  import opened MembershipSafety

  /** The user at the top, and a moderator. */
  const LEVELS := DEFAULT_POWER_LEVELS.(users := map["@a:h" := 100, "@s:h" := 50])

  const LEVELS_EVENT := Sample("$0", "@a:h", RoomPowerLevels, "", ["$c", "$a"], ContentOf(LEVELS))

  const TOKEN := Sample("$t", "@s:h", RoomThirdPartyInvite, "t", ["$c", "$s", "$0"], EMPTY_OBJECT.(inviteKey := Value("t")))

  /** The moderator's signed invite of the top user. */
  const INVITE := Sample("$i", "@s:h", RoomMember, "@a:h", ["$c", "$s", "$0", "$a", "$t"], SignedContent("@a:h", "t"))

  /** The moderator's kick of the top user, sent straight after the create event. */
  const KICK := Sample("$k", "@s:h", RoomMember, "@a:h", ["$c", "$s", "$0", "$a"], MembershipContent(Leave)).(prevEvents := ["$c"])

  const ROOM: Store := map[
    "$c" := CreatedBy("@a:h"), "$a" := JoinOf("$a", "@a:h"), "$s" := JoinOf("$s", "@s:h"), "$0" := LEVELS_EVENT,
    "$t" := TOKEN, "$i" := INVITE, "$k" := KICK]

  const START: StateMap := map[
    CREATE_KEY := "$c", MemberKey("@a:h") := "$a", MemberKey("@s:h") := "$s", POWER_LEVELS_KEY := "$0",
    (RoomThirdPartyInvite, "t") := "$t"]

  lemma RoomEvents()
    ensures forall id | id in ROOM :: ROOM[id].stateKey.Some?
  {
  }

  lemma StartsOnTop()
    ensures TopMember(ROOM, START, "@a:h", 100) && LevelIn(LevelsAt(ROOM, START).value, "@s:h") == 50
  {
    assert LevelsAt(ROOM, START) == Some(LEVELS);
    assert "@a:h"[1] == 'a' && "@s:h"[1] == 's';
  }

  // ---- What both are judged against ----

  predicate Holds(fetch: Store, state: StateMap, k: StateKey, e: Event) {
    k in state && state[k] in fetch && fetch[state[k]] == e
  }

  /** The facts of a member event in a state that holds the memberships and the power levels, and no
      join rules. */
  lemma MemberFacts(fetch: Store, state: StateMap, id: EventId, user: UserId, create: Event, target: Event, sender: Event, pl: Event)
    returns (auth: AuthMap, f: ChangeFacts)
    requires id in fetch && IsTypeAndKey(fetch[id], RoomMember, user) && (forall a | a in fetch :: fetch[a].stateKey.Some?)
    requires fetch[id].content.Object? && fetch[id].content.membership.Value?
    requires Holds(fetch, state, CREATE_KEY, create) && Holds(fetch, state, MemberKey(user), target)
    requires Holds(fetch, state, MemberKey(fetch[id].sender), sender) && Holds(fetch, state, POWER_LEVELS_KEY, pl)
    requires DecodeMembership(target.content) == DecodeMembership(sender.content) == Some(Join)
    requires DecodePowerLevels(pl.content).Some? && JOIN_RULES_KEY !in state
    requires forall a | a in fetch[id].authEvents && a in fetch :: KeyOfEvent(fetch[a]) in state
    ensures Gather(fetch, state, fetch[id]) == Ok(auth) && CREATE_KEY in auth && FactsOf(fetch[id], auth) == Some(f)
    ensures f == ChangeFacts(fetch[id].content.membership.v, true, Join, DecodePowerLevels(pl.content).value, InviteRule)
  {
    var e := fetch[id];
    OwnAuthSucceeds(fetch, e.authEvents);
    auth := Gather(fetch, state, e).value;
    GatheredFromState(fetch, state, e, auth, CREATE_KEY);
    GatheredFromState(fetch, state, e, auth, MemberKey(user));
    GatheredFromState(fetch, state, e, auth, MemberKey(e.sender));
    GatheredFromState(fetch, state, e, auth, POWER_LEVELS_KEY);
    GatheredWithin(fetch, state, e, auth);
    f := FactsOf(e, auth).value;
  }

  /** Accepted when it follows the root create event, or when the change is allowed. */
  lemma ChangeAccepted(rv: RoomVersion, fetch: Store, state: StateMap, id: EventId, user: UserId, auth: AuthMap,
                       tp: Option<Event>, f: ChangeFacts)
    returns (s: Step)
    requires id in fetch && IsTypeAndKey(fetch[id], RoomMember, user) && IsUserId(user)
    requires Gather(fetch, state, fetch[id]) == Ok(auth) && CREATE_KEY in auth && FactsOf(fetch[id], auth) == Some(f)
    requires fetch[id].content.Object? && fetch[id].content.membership.Value? && ThirdPartyChoice(auth, tp)
    requires || FollowsRootCreate(MostRecentPrev(fetch, fetch[id].prevEvents))
             || ChangeAllowed(user, fetch[id].sender, fetch[id].content, tp, f)
    ensures ValidStep(rv, fetch, s) && s == Step(state, id, true, state[MemberKey(user) := id])
  {
    assert JudgeWith(rv, fetch, fetch[id], tp, auth) == Ok(true);
    s := StepFor(rv, fetch, state, id, true);
  }

  // ---- Both are accepted ----

  lemma StartHolds()
    ensures Holds(ROOM, START, CREATE_KEY, CreatedBy("@a:h")) && Holds(ROOM, START, POWER_LEVELS_KEY, LEVELS_EVENT)
    ensures Holds(ROOM, START, MemberKey("@a:h"), JoinOf("$a", "@a:h"))
    ensures Holds(ROOM, START, MemberKey("@s:h"), JoinOf("$s", "@s:h"))
    ensures Holds(ROOM, START, (RoomThirdPartyInvite, "t"), TOKEN) && JOIN_RULES_KEY !in START
    ensures DecodePowerLevels(LEVELS_EVENT.content) == Some(LEVELS)
  {
    assert "@a:h"[1] == 'a' && "@s:h"[1] == 's';
  }

  lemma AuthKeys()
    ensures forall a | a in ["$c", "$s", "$0", "$a", "$t"] :: a in ROOM && KeyOfEvent(ROOM[a]) in START
  {
    assert forall a | a in ["$c", "$s", "$0", "$a", "$t"] :: a == "$c" || a == "$s" || a == "$0" || a == "$a" || a == "$t";
  }

  lemma FactsFor(id: EventId) returns (auth: AuthMap, f: ChangeFacts)
    requires id in ROOM && IsTypeAndKey(ROOM[id], RoomMember, "@a:h") && ROOM[id].sender == "@s:h"
    requires ROOM[id].content.Object? && ROOM[id].content.membership.Value?
    requires forall a | a in ROOM[id].authEvents :: a in ["$c", "$s", "$0", "$a", "$t"]
    ensures Gather(ROOM, START, ROOM[id]) == Ok(auth) && CREATE_KEY in auth && FactsOf(ROOM[id], auth) == Some(f)
    ensures f == ChangeFacts(ROOM[id].content.membership.v, true, Join, LEVELS, InviteRule)
  {
    RoomEvents();
    AuthKeys();
    StartHolds();
    auth, f := MemberFacts(ROOM, START, id, "@a:h", CreatedBy("@a:h"), JoinOf("$a", "@a:h"), JoinOf("$s", "@s:h"), LEVELS_EVENT);
  }

  lemma TokenGathered(auth: AuthMap)
    requires Gather(ROOM, START, INVITE) == Ok(auth)
    ensures ThirdPartyChoice(auth, Some(TOKEN))
  {
    StartHolds();
    GatheredFromState(ROOM, START, INVITE, auth, (RoomThirdPartyInvite, "t"));
    assert auth[(RoomThirdPartyInvite, "t")] == TOKEN;
  }

  lemma TokenPasses(f: ChangeFacts)
    requires f.membership == Invite && f.current == Join
    ensures ChangeAllowed("@a:h", "@s:h", INVITE.content, Some(TOKEN), f)
  {
    assert VerifyThirdPartyInvite("@a:h", "@s:h", SignedInvite("@a:h", "t"), Some(TOKEN));
  }

  lemma InviteAccepted(rv: RoomVersion) returns (s: Step)
    ensures ValidStep(rv, ROOM, s) && s == Step(START, "$i", true, START[MemberKey("@a:h") := "$i"])
  {
    SampleUser();
    assert ROOM["$i"] == INVITE;
    var auth, f := FactsFor("$i");
    TokenGathered(auth);
    TokenPasses(f);
    s := ChangeAccepted(rv, ROOM, START, "$i", "@a:h", auth, Some(TOKEN), f);
  }

  lemma KickAccepted(rv: RoomVersion) returns (s: Step)
    ensures ValidStep(rv, ROOM, s) && s == Step(START, "$k", true, START[MemberKey("@a:h") := "$k"])
  {
    SampleUser();
    assert ROOM["$k"] == KICK && ROOM["$c"] == CreatedBy("@a:h");
    var auth, f := FactsFor("$k");
    var tp := SomeThirdParty(auth);
    assert MostRecentPrev(ROOM, ["$c"]) == Some(ROOM["$c"]);
    s := ChangeAccepted(rv, ROOM, START, "$k", "@a:h", auth, tp, f);
  }

  /** A moderator's signed invite turns the joined top user into an invited one, and a moderator's
      kick sent straight after the create event removes them. */
  lemma TopUserUnseated(rv: RoomVersion) returns (byInvite: Step, byKick: Step)
    ensures TopMember(ROOM, START, "@a:h", 100) && LevelIn(LevelsAt(ROOM, START).value, "@s:h") == 50
    ensures ValidStep(rv, ROOM, byInvite) && byInvite.before == START && byInvite.id == "$i" && INVITE.sender == "@s:h"
    ensures MembershipAt(ROOM, byInvite.after, "@a:h") == Some(Invite)
    ensures ValidStep(rv, ROOM, byKick) && byKick.before == START && byKick.id == "$k" && KICK.sender == "@s:h"
    ensures MembershipAt(ROOM, byKick.after, "@a:h") == Some(Leave)
  {
    StartsOnTop();
    byInvite := InviteAccepted(rv);
    byKick := KickAccepted(rv);
  }
}
