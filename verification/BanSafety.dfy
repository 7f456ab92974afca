/** What replaying events can do to a ban, and what a banned user can still send. */
module BanSafety {
  import opened Wrappers
  import opened Identifiers
  import opened Events
  import opened RoomVersions
  import opened EventAuth
  import opened AuthFrame
  import opened Replay
  import opened PowerSafety

  predicate Banned(fetch: Store, state: StateMap, user: UserId) {
    && MemberKey(user) in state && state[MemberKey(user)] in fetch
    && DecodeMembership(fetch[state[MemberKey(user)]].content) == Some(Ban)
  }

  /** The step accepts a member event for `user`. */
  predicate ChangesMembership(fetch: Store, s: Step, user: UserId) {
    s.accepted && s.id in fetch && IsTypeAndKey(fetch[s.id], RoomMember, user)
  }

  /** The event's latest previous event is the root create event: such member events are accepted
      without further rules. */
  predicate AfterRootCreate(fetch: Store, s: Step) {
    s.id in fetch && FollowsRootCreate(MostRecentPrev(fetch, fetch[s.id].prevEvents))
  }

  /** A leave for `user` by another, joined user, with power at least the ban and the kick level and
      above the user's listed level, all judged against the gathered state. */
  predicate Pardons(fetch: Store, s: Step, user: UserId) {
    && ChangesMembership(fetch, s, user)
    && fetch[s.id].sender != user
    && DecodeMembership(fetch[s.id].content) == Some(Leave)
    && match Gather(fetch, s.before, fetch[s.id])
       case Err(_) => false
       case Ok(auth) =>
         && MembershipOf(Lookup(auth, MemberKey(fetch[s.id].sender))) == Some(Join)
         && match PowerLevelsOf(Lookup(auth, POWER_LEVELS_KEY))
            case None => false
            case Some(levels) =>
              var power := LevelIn(levels, fetch[s.id].sender);
              && power >= levels.ban && power >= levels.kick
              && (user in levels.users ==> levels.users[user] < power)
  }

  /** One judged member event of a banned user, in terms of the facts it is judged by. */
  lemma BannedChange(target: UserId, sender: UserId, content: Content, thirdParty: Option<Event>, f: ChangeFacts)
    requires f.current == Ban && ChangeAllowed(target, sender, content, thirdParty, f)
    ensures f.membership == Ban || f.membership == Leave
    ensures f.membership == Leave ==>
              && sender != target && f.senderJoined
              && var power := LevelIn(f.levels, sender);
                 && power >= f.levels.ban && power >= f.levels.kick
                 && (target in f.levels.users ==> f.levels.users[target] < power)
  {
  }

  /** The facts behind an accepted member event. */
  lemma AcceptedChange(rv: RoomVersion, fetch: Store, s: Step) returns (auth: AuthMap, tp: Option<Event>, f: ChangeFacts)
    requires ValidStep(rv, fetch, s) && s.accepted && fetch[s.id].eventType == RoomMember && !AfterRootCreate(fetch, s)
    ensures Gather(fetch, s.before, fetch[s.id]) == Ok(auth) && ThirdPartyChoice(auth, tp)
    ensures var e := fetch[s.id];
            && e.content.Object? && e.content.membership.Value?
            && Facts(e.content, Lookup(auth, MemberKey(e.stateKey.value)), Lookup(auth, MemberKey(e.sender)),
                     Lookup(auth, POWER_LEVELS_KEY), Lookup(auth, JOIN_RULES_KEY)) == Some(f)
            && ChangeAllowed(e.stateKey.value, e.sender, e.content, tp, f)
  {
    var e := fetch[s.id];
    auth := Gather(fetch, s.before, e).value;
    tp :| ThirdPartyChoice(auth, tp) && Ok(true) == JudgeWith(rv, fetch, e, tp, auth);
    f := Facts(e.content, Lookup(auth, MemberKey(e.stateKey.value)), Lookup(auth, MemberKey(e.sender)),
               Lookup(auth, POWER_LEVELS_KEY), Lookup(auth, JOIN_RULES_KEY)).value;
  }

  /** The last previous event that can be fetched is a create event without previous events. */
  predicate LastPrevIsRoot(fetch: Store, ids: seq<EventId>) {
    exists i | 0 <= i < |ids| ::
      && IsLastFetchable(fetch, ids, i)
      && fetch[ids[i]].eventType == RoomCreate && fetch[ids[i]].prevEvents == []
  }

  lemma {:induction false} SomeLastFetchable(fetch: Store, ids: seq<EventId>, id: EventId) returns (i: nat)
    requires id in ids && id in fetch
    ensures IsLastFetchable(fetch, ids, i)
  {
    var last := |ids| - 1;
    if ids[last] in fetch {
      i := last;
    } else {
      assert ids == ids[..last] + [ids[last]];
      i := SomeLastFetchable(fetch, ids[..last], id);
      assert forall j | 0 <= j < last :: ids[..last][j] == ids[j];
    }
  }

  /** Straight after the root create event means: that is the last previous event that can be fetched. */
  lemma RootCreateIsLast(fetch: Store, ids: seq<EventId>)
    ensures FollowsRootCreate(MostRecentPrev(fetch, ids)) <==> LastPrevIsRoot(fetch, ids)
  {
    MostRecentPrevByIndex(fetch, ids);
    if id :| id in ids && id in fetch {
      var i := SomeLastFetchable(fetch, ids, id);
      assert MostRecentPrev(fetch, ids) == Some(fetch[ids[i]]);
    }
  }

  /** A member event whose last fetchable previous event is not the root create event is accepted only as a
      change that is allowed by the facts it is judged by. */
  lemma AcceptedByRules(rv: RoomVersion, fetch: Store, s: Step) returns (auth: AuthMap, tp: Option<Event>, f: ChangeFacts)
    requires ValidStep(rv, fetch, s) && s.accepted && fetch[s.id].eventType == RoomMember
    requires !LastPrevIsRoot(fetch, fetch[s.id].prevEvents)
    ensures Gather(fetch, s.before, fetch[s.id]) == Ok(auth) && ThirdPartyChoice(auth, tp)
    ensures var e := fetch[s.id];
            && e.content.Object? && e.content.membership.Value?
            && Facts(e.content, Lookup(auth, MemberKey(e.stateKey.value)), Lookup(auth, MemberKey(e.sender)),
                     Lookup(auth, POWER_LEVELS_KEY), Lookup(auth, JOIN_RULES_KEY)) == Some(f)
            && ChangeAllowed(e.stateKey.value, e.sender, e.content, tp, f)
  {
    RootCreateIsLast(fetch, fetch[s.id].prevEvents);
    auth, tp, f := AcceptedChange(rv, fetch, s);
  }

  lemma BanStep(rv: RoomVersion, fetch: Store, s: Step, user: UserId)
    requires ValidStep(rv, fetch, s) && Banned(fetch, s.before, user)
    requires ChangesMembership(fetch, s, user) ==> !AfterRootCreate(fetch, s)
    ensures Banned(fetch, s.after, user) || Pardons(fetch, s, user)
  {
    if ChangesMembership(fetch, s, user) {
      var e := fetch[s.id];
      var auth, tp, f := AcceptedChange(rv, fetch, s);
      GatheredFromState(fetch, s.before, e, auth, MemberKey(user));
      BannedChange(user, e.sender, e.content, tp, f);
    }
  }

  /** Ban persistence: over any run that accepts no member event of the user straight after the root
      create event, the user stays banned until a pardon. */
  lemma {:induction false} BanPersists(rv: RoomVersion, fetch: Store, start: StateMap, run: seq<Step>, user: UserId)
    requires IsRun(rv, fetch, start, run) && Banned(fetch, start, user)
    requires forall i | 0 <= i < |run| :: ChangesMembership(fetch, run[i], user) ==> !AfterRootCreate(fetch, run[i])
    ensures Banned(fetch, Final(start, run), user)
            || exists i | 0 <= i < |run| :: Banned(fetch, run[i].before, user) && Pardons(fetch, run[i], user)
  {
    if run == [] {
    } else {
      var last := |run| - 1;
      BanPersists(rv, fetch, start, run[..last], user);
      if Banned(fetch, Final(start, run[..last]), user) {
        BanStep(rv, fetch, run[last], user);
      } else {
        var i :| 0 <= i < last && Banned(fetch, run[..last][i].before, user) && Pardons(fetch, run[..last][i], user);
        assert run[i] == run[..last][i];
      }
    }
  }

  /** What a banned user can still get accepted. */
  predicate ExemptFromBan(rv: RoomVersion, fetch: Store, s: Step, user: UserId)
    requires s.id in fetch
  {
    var e := fetch[s.id];
    || e.eventType == RoomCreate
    || (e.eventType == RoomAliases && rv.specialCaseAliasesAuth)
    || (e.eventType == RoomMember && AfterRootCreate(fetch, s))
    || (CarriesSignedInvite(e) && e.stateKey != Some(user))
  }

  lemma BannedSenderStep(rv: RoomVersion, fetch: Store, s: Step, user: UserId)
    requires ValidStep(rv, fetch, s) && Banned(fetch, s.before, user)
    requires s.accepted && fetch[s.id].sender == user
    ensures ExemptFromBan(rv, fetch, s, user)
  {
    var e := fetch[s.id];
    if e.eventType != RoomCreate {
      var auth := Gather(fetch, s.before, e).value;
      GatheredFromState(fetch, s.before, e, auth, MemberKey(user));
      if e.eventType == RoomMember && !AfterRootCreate(fetch, s) {
        var auth', tp, f := AcceptedChange(rv, fetch, s);
      }
    }
  }

  /** Ban effectiveness: as long as nobody pardons them, the only events of a banned user that a run
      accepts are the exempt ones. */
  lemma {:induction false} BannedSenderSilenced(rv: RoomVersion, fetch: Store, start: StateMap, run: seq<Step>, user: UserId, i: nat)
    requires IsRun(rv, fetch, start, run) && Banned(fetch, start, user)
    requires forall j | 0 <= j < |run| ::
               !Pardons(fetch, run[j], user) && (ChangesMembership(fetch, run[j], user) ==> !AfterRootCreate(fetch, run[j]))
    requires i < |run| && run[i].accepted && run[i].id in fetch && fetch[run[i].id].sender == user
    ensures ExemptFromBan(rv, fetch, run[i], user)
  {
    StepOf(rv, fetch, start, run, i);
    BanPersists(rv, fetch, start, run[..i], user);
    BannedSenderStep(rv, fetch, run[i], user);
  }
}
