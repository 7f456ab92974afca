/** A room in which the order of a hash map decides the outcome of `resolve`. */
module AmbiguousInvite {
  import opened Wrappers
  import opened Identifiers
  import opened Events
  import opened RoomVersions
  import opened EventAuth
  import opened AuthFrame
  import opened Samples
  import opened Replay
  import opened Ambiguity
  import opened PowerSafety
  import opened StateSets
  import opened AuthChains
  import opened TopologicalSort
  import opened ControlGraph
  import opened Mainline
  import opened StateResolution

  // ---- The room ----

  function InviteFor(id: EventId, token: string): Event {
    Sample(id, "@s:h", RoomThirdPartyInvite, token, ["$c", "$m"], EMPTY_OBJECT.(inviteKey := Value(token)))
  }

  /** A signed invite with the token "t" that names the third party invites of both tokens among its
      auth events. */
  const INVITE := Sample("$i", "@s:h", RoomMember, "@a:h", ["$c", "$m", "$t", "$u"], SignedContent("@a:h", "t"))

  const ROOM: Store := map[
    "$c" := CreatedBy("@s:h"), "$m" := JoinOf("$m", "@s:h"), "$t" := InviteFor("$t", "t"), "$u" := InviteFor("$u", "u"), "$i" := INVITE]

  const AGREED: StateMap := map[
    CREATE_KEY := "$c", MemberKey("@s:h") := "$m",
    (RoomThirdPartyInvite, "t") := "$t", (RoomThirdPartyInvite, "u") := "$u"]

  const INVITED: StateMap := AGREED[MemberKey("@a:h") := "$i"]

  /** One fork has the invite, the other has not. */
  const FORKS := [AGREED, INVITED]

  const CHAINS: seq<set<EventId>> := [{"$c", "$m", "$t", "$u"}, {"$c", "$m", "$t", "$u", "$i"}]

  // ---- Judging the invite ----

  lemma RoomEvents()
    ensures forall id | id in ROOM :: ROOM[id].stateKey.Some? && ROOM[id].id == id && ROOM[id].eventType != RoomPowerLevels
  {
  }

  lemma AuthKeys()
    ensures forall a | a in INVITE.authEvents :: a in ROOM && KeyOfEvent(ROOM[a]) in AGREED
  {
    assert forall a | a in INVITE.authEvents :: a == "$c" || a == "$m" || a == "$t" || a == "$u";
  }

  /** The last of the event's own auth events is gathered, unless the event needs its key. */
  lemma GatheredFromOwn(fetch: Store, state: StateMap, e: Event, auth: AuthMap)
    requires Gather(fetch, state, e) == Ok(auth) && e.authEvents != []
    requires var last := e.authEvents[|e.authEvents| - 1];
             last in fetch && fetch[last].stateKey.Some? && KeyOfEvent(fetch[last]) !in TypesOf(e)
    ensures var last := fetch[e.authEvents[|e.authEvents| - 1]];
            Lookup(auth, KeyOfEvent(last)) == Some(last)
  {
  }

  lemma InviteGathers() returns (auth: AuthMap)
    ensures Gather(ROOM, AGREED, INVITE) == Ok(auth) && auth.Keys <= AGREED.Keys
  {
    RoomEvents();
    AuthKeys();
    OwnAuthSucceeds(ROOM, INVITE.authEvents);
    auth := Gather(ROOM, AGREED, INVITE).value;
    GatheredWithin(ROOM, AGREED, INVITE, auth);
  }

  /** The entries of the state that the invite needs. */
  lemma NeededGathered(auth: AuthMap)
    requires Gather(ROOM, AGREED, INVITE) == Ok(auth)
    ensures CREATE_KEY in auth
    ensures Lookup(auth, MemberKey("@s:h")) == Some(JoinOf("$m", "@s:h"))
    ensures Lookup(auth, (RoomThirdPartyInvite, "t")) == Some(InviteFor("$t", "t"))
  {
    GatheredFromState(ROOM, AGREED, INVITE, auth, CREATE_KEY);
    GatheredFromState(ROOM, AGREED, INVITE, auth, MemberKey("@s:h"));
    GatheredFromState(ROOM, AGREED, INVITE, auth, (RoomThirdPartyInvite, "t"));
  }

  /** Its own auth events bring in the third party invite of the other token. */
  lemma OtherGathered(auth: AuthMap)
    requires Gather(ROOM, AGREED, INVITE) == Ok(auth)
    ensures Lookup(auth, (RoomThirdPartyInvite, "u")) == Some(InviteFor("$u", "u"))
  {
    assert "u"[0] != "t"[0];
    GatheredFromOwn(ROOM, AGREED, INVITE, auth);
  }

  /** A signed invite of somebody new, in a room without power levels and join rules. */
  lemma NewcomerReaches(e: Event, auth: AuthMap, user: UserId, token: string)
    requires e.eventType == RoomMember && e.stateKey == Some(user) && e.content == SignedContent(user, token)
    requires CREATE_KEY in auth && IsUserId(user) && MemberKey(user) !in auth
    requires MemberKey(e.sender) in auth && DecodeMembership(auth[MemberKey(e.sender)].content).Some?
    requires POWER_LEVELS_KEY !in auth && JOIN_RULES_KEY !in auth
    ensures ReachesInvite(e, None, auth)
  {
    assert FactsOf(e, auth).Some? && FactsOf(e, auth).value.current == Leave;
  }

  lemma PassesByToken(e: Event, id: EventId, user: UserId, token: string, other: string)
    requires e.eventType == RoomMember && e.stateKey == Some(user) && e.content == SignedContent(user, token)
    requires e.sender == "@s:h"
    ensures Passes(e, Some(InviteFor(id, other))) <==> other == token
  {
  }

  lemma InviteReached(auth: AuthMap)
    requires Gather(ROOM, AGREED, INVITE) == Ok(auth) && auth.Keys <= AGREED.Keys
    ensures ReachesInvite(INVITE, None, auth)
  {
    SampleUser();
    NotAgreed();
    NeededGathered(auth);
    NewcomerReaches(INVITE, auth, "@a:h", "t");
  }

  lemma InviteDivided(auth: AuthMap)
    requires Gather(ROOM, AGREED, INVITE) == Ok(auth)
    ensures Divided(INVITE, auth)
  {
    NeededGathered(auth);
    OtherGathered(auth);
    PassesByToken(INVITE, "$t", "@a:h", "t", "t");
    PassesByToken(INVITE, "$u", "@a:h", "t", "u");
    assert "u"[0] != "t"[0];
    BothGathered(INVITE, auth, (RoomThirdPartyInvite, "t"), (RoomThirdPartyInvite, "u"));
  }

  /** Judged against the invite of its own token it is allowed, against the other one rejected. */
  lemma InviteUndecided()
    ensures ChoiceMatters(ROOM, AGREED, "$i")
  {
    var auth := InviteGathers();
    InviteReached(auth);
    InviteDivided(auth);
    NoPrevious();
    ChoiceAt(ROOM, AGREED, "$i", auth);
  }

  lemma NoPrevious()
    ensures "$i" in ROOM && ROOM["$i"] == INVITE && MostRecentPrev(ROOM, INVITE.prevEvents) == None
  {
    assert ["$p"][..0] == [] && MostRecentPrev(ROOM, []) == None;
  }

  lemma ChoiceAt(fetch: Store, state: StateMap, id: EventId, auth: AuthMap)
    requires id in fetch && Gather(fetch, state, fetch[id]) == Ok(auth)
    requires ReachesInvite(fetch[id], MostRecentPrev(fetch, fetch[id].prevEvents), auth) && Divided(fetch[id], auth)
    ensures ChoiceMatters(fetch, state, id)
  {
  }

  lemma BothGathered(e: Event, auth: AuthMap, j: StateKey, k: StateKey)
    requires CarriesSignedInvite(e) && e.stateKey.Some? && j in auth && k in auth
    requires auth[j].eventType == RoomThirdPartyInvite && auth[k].eventType == RoomThirdPartyInvite
    requires Passes(e, Some(auth[j])) && !Passes(e, Some(auth[k]))
    ensures Divided(e, auth)
  {
  }

  lemma NotAgreed()
    ensures POWER_LEVELS_KEY !in AGREED && JOIN_RULES_KEY !in AGREED && MemberKey("@a:h") !in AGREED
  {
    assert "@a:h"[1] == 'a' && "@s:h"[1] == 's';
  }

  // ---- Its stages ----

  lemma RoomAcyclic()
    ensures Acyclic(ROOM)
  {
    var rank: map<EventId, nat> := map["$c" := 0, "$m" := 1, "$t" := 2, "$u" := 2, "$i" := 3];
    forall id, a | id in ROOM && a in ROOM && a in AuthEdges(ROOM, id)
      ensures rank[a] < rank[id]
    {
      if id == "$i" {
        assert a in INVITE.authEvents;
      } else if id == "$t" || id == "$u" {
        assert a in ["$c", "$m"];
      } else {
        assert id == "$m" && a in ["$c"];
      }
    }
    assert Ranks(ROOM, rank);
  }

  lemma ForksSplit()
    ensures CleanState(FORKS) == AGREED && AllKeys(FORKS) == INVITED.Keys && ConflictingIds(FORKS) == {"$i"}
  {
    NotAgreed();
    assert FORKS[0] == AGREED && FORKS[1] == INVITED;
    assert forall k :: IsClean(FORKS, k) <==> k in AGREED;
    assert AllKeys(FORKS) == INVITED.Keys;
    assert ConflictingIds(FORKS) == {"$i"} by {
      assert !IsClean(FORKS, MemberKey("@a:h")) && FORKS[1][MemberKey("@a:h")] == "$i";
    }
  }

  lemma OnlyInviteConflicts()
    ensures AllConflicted(ROOM, FORKS, CHAINS) == {"$i"}
  {
    ForksSplit();
    assert CHAINS[0] == {"$c", "$m", "$t", "$u"} && CHAINS[1] == CHAINS[0] + {"$i"};
    assert AnyChain(CHAINS) == CHAINS[1];
    forall id
      ensures id in AuthDifference(CHAINS) <==> id == "$i"
    {
      assert InEveryChain(CHAINS, id) <==> id in CHAINS[0] && id in CHAINS[1];
    }
  }

  lemma {:induction false} NoPowerAuth(fetch: Store, ids: seq<EventId>)
    requires forall id | id in ids :: id in fetch && fetch[id].eventType != RoomPowerLevels
    ensures FirstPowerAuth(fetch, ids) == NoPowerLevels
  {
    if ids == [] {
    } else {
      NoPowerAuth(fetch, ids[1..]);
    }
  }

  lemma OneSorted(fetch: Store, id: EventId)
    requires Acyclic(fetch) && id in fetch && fetch[id].id == id
    requires FirstPowerAuth(fetch, fetch[id].authEvents) == NoPowerLevels
    ensures MainlineOrder(fetch, MainlineIndex([]), {id}, [id])
  {
    var index := MainlineIndex([]);
    assert Depth(fetch, index, id) == Ok(0);
    assert Sortable(fetch, index, id);
    assert Ids([id]) == {id};
  }

  lemma InviteSorted()
    requires Acyclic(ROOM)
    ensures MainlineOf(ROOM, ResolvedPower(AGREED)) == Ok([])
    ensures MainlineOrder(ROOM, MainlineIndex([]), {"$i"}, ["$i"])
  {
    NotAgreed();
    RoomEvents();
    AuthKeys();
    NoPowerAuth(ROOM, INVITE.authEvents);
    OneSorted(ROOM, "$i");
  }

  lemma NoControlEvents()
    ensures ControlEvents(ROOM, {"$i"}) == {}
    ensures IsControlGraph(ROOM, {"$i"}, {}, map[]) && GreedyOrder(map[], PowerKeys(ROOM, {}), [])
  {
    assert !IsPowerEvent(INVITE);
  }

  /** No control events, then one event alone. */
  function StagesOf(clean: StateMap, s: Step): Stages {
    Stages(map[], [], [], Ok(clean), [s.id], [s], Ok(s.after))
  }

  /** A single conflicted event that is not a control event is judged in the clean state. */
  lemma OneEventFinishes(rv: RoomVersion, fetch: Store, clean: StateMap, s: Step)
    requires Acyclic(fetch) && ValidStep(rv, fetch, s) && s.before == clean
    requires MainlineOf(fetch, ResolvedPower(clean)) == Ok([])
    requires MainlineOrder(fetch, MainlineIndex([]), {s.id}, [s.id])
    ensures FinishesWith(rv, fetch, {s.id}, clean, StagesOf(clean, s), Ok(s.after + clean))
  {
    assert [] + [s] == [s];
    RunGrows(rv, fetch, clean, [], s);
    assert LeftIds({s.id}, []) == {s.id};
  }

  lemma OneEventResolves(version: RoomVersionId, fetch: Store, sets: seq<StateMap>, chains: seq<set<EventId>>, clean: StateMap, s: Step)
    requires Acyclic(fetch) && New(version).Ok? && ValidStep(New(version).value, fetch, s) && s.before == clean
    requires CleanState(sets) == clean && AllKeys(sets) != clean.Keys && AllConflicted(fetch, sets, chains) == {s.id}
    requires ControlEvents(fetch, {s.id}) == {} && IsControlGraph(fetch, {s.id}, {}, map[])
    requires GreedyOrder(map[], PowerKeys(fetch, {}), [])
    requires FinishesWith(New(version).value, fetch, {s.id}, clean, StagesOf(clean, s), Ok(s.after + clean))
    ensures ResolveOutcome(version, fetch, sets, chains, Ok(s.after + clean))
  {
    var st := StagesOf(clean, s);
    assert SortsControl(fetch, {s.id}, st);
    assert Replays(New(version).value, fetch, clean, [], [], Ok(clean));
    assert Resolves(version, fetch, sets, chains, st, Ok(s.after + clean));
  }

  lemma InviteResolves(version: RoomVersionId, accepted: bool)
    requires New(version).Ok? && Acyclic(ROOM)
    ensures ResolveOutcome(version, ROOM, FORKS, CHAINS, Ok(if accepted then INVITED else AGREED))
  {
    var s := InviteStep(New(version).value, accepted);
    OnlyInviteConflicts();
    ForksSplit();
    ForksDiffer();
    NoControlEvents();
    InviteSorted();
    OneEventFinishes(New(version).value, ROOM, AGREED, s);
    OneEventResolves(version, ROOM, FORKS, CHAINS, AGREED, s);
  }

  lemma ForksDiffer()
    ensures INVITED != AGREED && INVITED.Keys != AGREED.Keys
  {
    NotAgreed();
    assert MemberKey("@a:h") in INVITED;
  }

  lemma InviteStep(rv: RoomVersion, accepted: bool) returns (s: Step)
    ensures ValidStep(rv, ROOM, s) && s.before == AGREED && s.id == "$i"
    ensures s.after + AGREED == if accepted then INVITED else AGREED
  {
    InviteUndecided();
    BothJudgements(rv, ROOM, AGREED, "$i");
    s := StepFor(rv, ROOM, AGREED, "$i", accepted);
    assert s.after == if accepted then INVITED else AGREED;
    NotAgreed();
    CleanOnTop(AGREED, MemberKey("@a:h"), "$i");
  }

  lemma CleanOnTop(clean: StateMap, k: StateKey, id: EventId)
    requires k !in clean
    ensures clean[k := id] + clean == clean[k := id] && clean + clean == clean
  {
  }

  /** The chains are what `resolve` asks for: the full auth chains of each fork. */
  lemma ForkChains()
    ensures forall i | 0 <= i < |FORKS| :: LeastClosed(ROOM, EVERYWHERE, FORKS[i].Values, CHAINS[i])
  {
    ForkValues();
    RoomClosed();
    assert FORKS[0].Values == CHAINS[0] && FORKS[1].Values == CHAINS[1];
  }

  lemma ForkValues()
    ensures AGREED.Values == {"$c", "$m", "$t", "$u"} && INVITED.Values == {"$c", "$m", "$t", "$u", "$i"}
  {
    NotAgreed();
    assert AGREED[CREATE_KEY] == "$c" && AGREED[MemberKey("@s:h")] == "$m";
    assert AGREED[(RoomThirdPartyInvite, "t")] == "$t" && AGREED[(RoomThirdPartyInvite, "u")] == "$u";
    assert forall k | k in AGREED :: INVITED[k] == AGREED[k];
    assert INVITED[MemberKey("@a:h")] == "$i";
  }

  lemma RoomClosed()
    ensures ClosedUnder(ROOM, EVERYWHERE, CHAINS[0]) && ClosedUnder(ROOM, EVERYWHERE, CHAINS[1])
  {
    forall id, a | id in CHAINS[1] && a in AuthEdges(ROOM, id)
      ensures a in CHAINS[0]
    {
      if id == "$i" {
        assert a in INVITE.authEvents;
      } else if id == "$t" || id == "$u" {
        assert a in ["$c", "$m"];
      } else {
        assert a in ["$c"];
      }
    }
  }

  /** In every supported room version `resolve` may answer with the invite or without it. */
  lemma ResolveDiverges(version: RoomVersionId)
    requires New(version).Ok?
    ensures Acyclic(ROOM) && Consistent(ROOM)
    ensures forall i | 0 <= i < |FORKS| :: LeastClosed(ROOM, EVERYWHERE, FORKS[i].Values, CHAINS[i])
    ensures ResolveOutcome(version, ROOM, FORKS, CHAINS, Ok(INVITED))
    ensures ResolveOutcome(version, ROOM, FORKS, CHAINS, Ok(AGREED))
    ensures INVITED != AGREED
  {
    RoomAcyclic();
    RoomEvents();
    ForkChains();
    ForksDiffer();
    InviteResolves(version, true);
    InviteResolves(version, false);
  }
}
