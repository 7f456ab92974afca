/** How much of the state a verdict depends on: the keys of `auth_types_for_event`, and one decoding
    the code does outside them. */
module AuthFrame {
  import opened Wrappers
  import opened Identifiers
  import opened Events
  import opened RoomVersions
  import opened EventAuth
  import opened Replay
  import opened Samples

  function TypesOf(e: Event): set<StateKey> {
    AuthTypes(e.eventType, e.sender, e.stateKey, e.content)
  }

  predicate AgreeOn(a: AuthMap, b: AuthMap, keys: set<StateKey>) {
    forall k | k in keys :: Lookup(a, k) == Lookup(b, k)
  }

  predicate JoinRulesDecode(auth: AuthMap) {
    JoinRuleOf(Lookup(auth, JOIN_RULES_KEY)).Some?
  }

  /** A member event that is neither a join nor an invite does not list the join rules, yet its
      judgement decodes them once the create event, the target and the other contents pass. */
  predicate DecodesUnlistedJoinRules(e: Event, auth: AuthMap) {
    && e.eventType == RoomMember && CREATE_KEY in auth
    && e.stateKey.Some? && IsUserId(e.stateKey.value)
    && e.content.Object? && e.content.membership.Value?
    && e.content.membership.v != Join && e.content.membership.v != Invite
    && MembershipOf(Lookup(auth, MemberKey(e.sender))).Some?
    && MembershipOf(Lookup(auth, MemberKey(e.stateKey.value))).Some?
    && PowerLevelsOf(Lookup(auth, POWER_LEVELS_KEY)).Some?
  }

  /** Frame theorem: two states that agree on the listed keys give the same verdict, exactly unless
      the unlisted join rules are decoded and only one of the two states has ones that decode. */
  lemma VerdictFrame(rv: RoomVersion, e: Event, prev: Option<Event>, thirdParty: Option<Event>, a: AuthMap, b: AuthMap)
    requires AgreeOn(a, b, TypesOf(e))
    ensures AuthCheck(rv, e, prev, thirdParty, a) == AuthCheck(rv, e, prev, thirdParty, b)
            <==> (DecodesUnlistedJoinRules(e, a) ==> (JoinRulesDecode(a) <==> JoinRulesDecode(b)))
  {
    if e.eventType == RoomMember {
      MemberFrame(e, prev, thirdParty, a, b);
      AgreeAt(a, b, TypesOf(e), CREATE_KEY);
    } else if e.eventType != RoomCreate {
      AgreeAt(a, b, TypesOf(e), CREATE_KEY);
      AgreeAt(a, b, TypesOf(e), POWER_LEVELS_KEY);
      AgreeAt(a, b, TypesOf(e), MemberKey(e.sender));
      JoinedSenderFrame(rv, e, a, b);
    }
  }

  lemma MemberFrame(e: Event, prev: Option<Event>, thirdParty: Option<Event>, a: AuthMap, b: AuthMap)
    requires AgreeOn(a, b, TypesOf(e)) && e.eventType == RoomMember
    ensures CREATE_KEY in a ==>
              (MemberVerdict(e, prev, thirdParty, a) == MemberVerdict(e, prev, thirdParty, b)
               <==> (DecodesUnlistedJoinRules(e, a) ==> (JoinRulesDecode(a) <==> JoinRulesDecode(b))))
  {
    if e.stateKey.Some? && e.content.Object? && e.content.membership.Value? {
      AgreeAt(a, b, TypesOf(e), POWER_LEVELS_KEY);
      AgreeAt(a, b, TypesOf(e), MemberKey(e.sender));
      AgreeAt(a, b, TypesOf(e), MemberKey(e.stateKey.value));
      if e.content.membership.v == Join || e.content.membership.v == Invite {
        AgreeAt(a, b, TypesOf(e), JOIN_RULES_KEY);
      } else {
        ChangeFrame(e.stateKey.value, Lookup(a, MemberKey(e.stateKey.value)), e.sender, Lookup(a, MemberKey(e.sender)),
                    e.content, prev, thirdParty, Lookup(a, POWER_LEVELS_KEY),
                    Lookup(a, JOIN_RULES_KEY), Lookup(b, JOIN_RULES_KEY));
      }
    }
  }

  /** Without a join or an invite, the join rules matter only in that they must decode. */
  lemma ChangeFrame(
    target: UserId, targetMember: Option<Event>, sender: UserId, senderMember: Option<Event>, content: Content,
    prev: Option<Event>, thirdParty: Option<Event>, powerLevels: Option<Event>, rules: Option<Event>, rules': Option<Event>)
    requires content.Object? && content.membership.Value?
    requires content.membership.v != Join && content.membership.v != Invite
    ensures var v := ValidMembershipChange(target, targetMember, sender, senderMember, content, prev, thirdParty, powerLevels, rules);
            var v' := ValidMembershipChange(target, targetMember, sender, senderMember, content, prev, thirdParty, powerLevels, rules');
            v == v' <==>
              (MembershipOf(senderMember).Some? && MembershipOf(targetMember).Some? && PowerLevelsOf(powerLevels).Some? ==>
                (JoinRuleOf(rules).Some? <==> JoinRuleOf(rules').Some?))
  {
    var f := Facts(content, targetMember, senderMember, powerLevels, rules);
    var f' := Facts(content, targetMember, senderMember, powerLevels, rules');
    if f.Some? && f'.Some? {
      assert f'.value == f.value.(joinRule := f'.value.joinRule);
      JoinRuleUnread(target, sender, content, thirdParty, f.value, f'.value.joinRule);
    }
  }

  lemma JoinRuleUnread(target: UserId, sender: UserId, content: Content, thirdParty: Option<Event>, f: ChangeFacts, rule: JoinRule)
    requires f.membership != Join
    ensures ChangeAllowed(target, sender, content, thirdParty, f)
            == ChangeAllowed(target, sender, content, thirdParty, f.(joinRule := rule))
  {
  }

  lemma AgreeAt(a: AuthMap, b: AuthMap, keys: set<StateKey>, k: StateKey)
    requires AgreeOn(a, b, keys) && k in keys
    ensures Lookup(a, k) == Lookup(b, k)
    ensures k in a <==> k in b
    ensures k in a ==> a[k] == b[k]
  {
    assert Lookup(a, k) == Lookup(b, k);
  }

  lemma JoinedSenderFrame(rv: RoomVersion, e: Event, a: AuthMap, b: AuthMap)
    requires Lookup(a, CREATE_KEY) == Lookup(b, CREATE_KEY)
    requires Lookup(a, POWER_LEVELS_KEY) == Lookup(b, POWER_LEVELS_KEY)
    ensures JoinedSenderVerdict(rv, e, a) == JoinedSenderVerdict(rv, e, b)
  {
    assert SenderLevel(e.sender, a) == SenderLevel(e.sender, b);
  }

  /** For contents that decode the verdict depends on the listed keys alone. */
  lemma DecodedVerdictFrame(rv: RoomVersion, e: Event, prev: Option<Event>, thirdParty: Option<Event>, a: AuthMap, b: AuthMap)
    requires AgreeOn(a, b, TypesOf(e)) && JoinRulesDecode(a) && JoinRulesDecode(b)
    ensures AuthCheck(rv, e, prev, thirdParty, a) == AuthCheck(rv, e, prev, thirdParty, b)
  {
    VerdictFrame(rv, e, prev, thirdParty, a, b);
  }

  /** A third party invite is looked at only to judge an invite that carries a signed block. */
  lemma ThirdPartyIrrelevant(rv: RoomVersion, e: Event, prev: Option<Event>, tp: Option<Event>, tp': Option<Event>, auth: AuthMap)
    requires !CarriesSignedInvite(e)
    ensures AuthCheck(rv, e, prev, tp, auth) == AuthCheck(rv, e, prev, tp', auth)
  {
  }

  predicate CarriesSignedInvite(e: Event) {
    && e.eventType == RoomMember && e.content.Object?
    && e.content.membership == Value(Invite) && e.content.thirdPartyInvite.Value?
  }

  // ---- The frame does fail ----

  /** A leave that names the create event and the join rules as its auth events. */
  const LEAVE := Sample("$l", "@a:h", RoomMember, "@a:h", ["$c", "$j"], MembershipContent(Leave))

  const BAD_RULES := Sample("$j", "@a:h", RoomJoinRules, "", ["$c"], EMPTY_OBJECT)

  /** With and without the join rules at hand. */
  const WITH_RULES: Store := map["$c" := CreatedBy("@a:h"), "$j" := BAD_RULES, "$l" := LEAVE]

  const WITHOUT_RULES: Store := map["$c" := CreatedBy("@a:h"), "$l" := LEAVE]

  const CREATE_ONLY: AuthMap := map[CREATE_KEY := CreatedBy("@a:h")]

  const WITH_BAD_RULES: AuthMap := map[CREATE_KEY := CreatedBy("@a:h"), JOIN_RULES_KEY := BAD_RULES]

  lemma GatheredForLeave()
    ensures Gather(WITHOUT_RULES, map[], LEAVE) == Ok(CREATE_ONLY)
    ensures Gather(WITH_RULES, map[], LEAVE) == Ok(WITH_BAD_RULES)
  {
    OwnAuthOfTwo(WITHOUT_RULES, "$c", "$j");
    OwnAuthOfTwo(WITH_RULES, "$c", "$j");
    GatherFromOwn(WITHOUT_RULES, LEAVE);
    GatherFromOwn(WITH_RULES, LEAVE);
  }

  lemma GatherFromOwn(fetch: Store, e: Event)
    requires OwnAuth(fetch, e.authEvents).Ok? && !AuthTypesFail(e.eventType, e.stateKey, e.content)
    ensures Gather(fetch, map[], e) == OwnAuth(fetch, e.authEvents)
  {
    var own := OwnAuth(fetch, e.authEvents).value;
    assert StateAuth(fetch, map[], TypesOf(e)) == map[];
    assert own + map[] == own;
  }

  lemma OwnAuthOfTwo(fetch: Store, a: EventId, b: EventId)
    requires a in fetch && fetch[a].stateKey.Some?
    requires b in fetch ==> fetch[b].stateKey.Some?
    ensures var first := map[KeyOfEvent(fetch[a]) := fetch[a]];
            OwnAuth(fetch, [a, b]) == Ok(if b in fetch then first[KeyOfEvent(fetch[b]) := fetch[b]] else first)
  {
    assert [a, b][..1] == [a] && [a][..0] == [];
    assert OwnAuth(fetch, []) == Ok(map[]);
    assert OwnAuth(fetch, [a]) == Ok(map[KeyOfEvent(fetch[a]) := fetch[a]]);
  }

  /** A leave is rejected without join rules, and is an error when they are there but do not decode,
      although a leave does not list them; both states are gathered for one and the same leave. */
  lemma FrameFails(rv: RoomVersion)
    ensures Gather(WITHOUT_RULES, map[], LEAVE) == Ok(CREATE_ONLY)
    ensures Gather(WITH_RULES, map[], LEAVE) == Ok(WITH_BAD_RULES)
    ensures AgreeOn(CREATE_ONLY, WITH_BAD_RULES, TypesOf(LEAVE))
    ensures AuthCheck(rv, LEAVE, None, None, CREATE_ONLY) == Ok(false)
    ensures AuthCheck(rv, LEAVE, None, None, WITH_BAD_RULES).Err?
  {
    GatheredForLeave();
    LeaveAgrees();
    LeaveVerdicts(rv);
  }

  lemma LeaveAgrees()
    ensures AgreeOn(CREATE_ONLY, WITH_BAD_RULES, TypesOf(LEAVE))
  {
    assert JOIN_RULES_KEY !in TypesOf(LEAVE);
  }

  lemma LeaveVerdicts(rv: RoomVersion)
    ensures AuthCheck(rv, LEAVE, None, None, CREATE_ONLY) == Ok(false)
    ensures AuthCheck(rv, LEAVE, None, None, WITH_BAD_RULES).Err?
  {
    SampleUser();
  }
}
