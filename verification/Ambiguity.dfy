/** The one choice a hash map makes: which third party invite an invite with a signed block is checked
    against, and exactly when the choice matters. */
module Ambiguity {
  import opened Wrappers
  import opened Identifiers
  import opened Events
  import opened RoomVersions
  import opened EventAuth
  import opened AuthFrame
  import opened Replay

  // ---- One judgement ----

  function FactsOf(e: Event, auth: AuthMap): Option<ChangeFacts>
    requires e.stateKey.Some?
  {
    Facts(e.content, Lookup(auth, MemberKey(e.stateKey.value)), Lookup(auth, MemberKey(e.sender)),
          Lookup(auth, POWER_LEVELS_KEY), Lookup(auth, JOIN_RULES_KEY))
  }

  /** The judgement comes down to the third party invite: a signed invite of a user who is not banned,
      with a known create event and contents that decode, and not straight after the root create event. */
  predicate ReachesInvite(e: Event, prev: Option<Event>, auth: AuthMap) {
    && CarriesSignedInvite(e) && e.stateKey.Some? && IsUserId(e.stateKey.value)
    && CREATE_KEY in auth && !FollowsRootCreate(prev)
    && FactsOf(e, auth).Some? && FactsOf(e, auth).value.current != Ban
  }

  predicate Passes(e: Event, thirdParty: Option<Event>)
    requires CarriesSignedInvite(e) && e.stateKey.Some?
  {
    VerifyThirdPartyInvite(e.stateKey.value, e.sender, e.content.thirdPartyInvite.v, thirdParty)
  }

  /** The third party invite decides exactly the judgements that reach it. */
  lemma InviteDecides(rv: RoomVersion, e: Event, prev: Option<Event>, tp: Option<Event>, tp': Option<Event>, auth: AuthMap)
    ensures ReachesInvite(e, prev, auth) ==> AuthCheck(rv, e, prev, tp, auth) == Ok(Passes(e, tp))
    ensures !ReachesInvite(e, prev, auth) ==> AuthCheck(rv, e, prev, tp, auth) == AuthCheck(rv, e, prev, tp', auth)
  {
    if !CarriesSignedInvite(e) {
      ThirdPartyIrrelevant(rv, e, prev, tp, tp', auth);
    }
  }

  /** One gathered third party invite passes and another does not. */
  ghost predicate Divided(e: Event, auth: AuthMap)
    requires CarriesSignedInvite(e) && e.stateKey.Some?
  {
    exists j, k :: j in auth && k in auth
                   && auth[j].eventType == RoomThirdPartyInvite && auth[k].eventType == RoomThirdPartyInvite
                   && Passes(e, Some(auth[j])) && !Passes(e, Some(auth[k]))
  }

  /** Which third party invite is found first decides the judgement of the event in `state`. */
  ghost predicate ChoiceMatters(fetch: Store, state: StateMap, id: EventId) {
    && id in fetch && Gather(fetch, state, fetch[id]).Ok?
    && var e, auth := fetch[id], Gather(fetch, state, fetch[id]).value;
       ReachesInvite(e, MostRecentPrev(fetch, e.prevEvents), auth) && Divided(e, auth)
  }

  lemma SomeThirdParty(auth: AuthMap) returns (tp: Option<Event>)
    ensures ThirdPartyChoice(auth, tp)
  {
    if k :| k in auth && auth[k].eventType == RoomThirdPartyInvite {
      tp := Some(auth[k]);
    } else {
      tp := None;
    }
  }

  lemma SomeJudgement(rv: RoomVersion, fetch: Store, state: StateMap, id: EventId) returns (v: Result<bool>)
    ensures Judges(rv, fetch, state, id, v)
  {
    if id !in fetch {
      v := Err(NotFound);
    } else if fetch[id].stateKey.None? {
      v := Err(InvalidPdu);
    } else {
      var gathered := Gather(fetch, state, fetch[id]);
      if gathered.Err? {
        v := Err(gathered.error);
      } else {
        var tp := SomeThirdParty(gathered.value);
        v := JudgeWith(rv, fetch, fetch[id], tp, gathered.value);
      }
    }
  }

  lemma JudgementUnique(rv: RoomVersion, fetch: Store, state: StateMap, id: EventId, v: Result<bool>, v': Result<bool>)
    requires !ChoiceMatters(fetch, state, id)
    requires Judges(rv, fetch, state, id, v) && Judges(rv, fetch, state, id, v')
    ensures v == v'
  {
    if id in fetch && fetch[id].stateKey.Some? && Gather(fetch, state, fetch[id]).Ok? {
      var e, auth := fetch[id], Gather(fetch, state, fetch[id]).value;
      var prev := MostRecentPrev(fetch, e.prevEvents);
      var tp :| ThirdPartyChoice(auth, tp) && v == JudgeWith(rv, fetch, e, tp, auth);
      var tp' :| ThirdPartyChoice(auth, tp') && v' == JudgeWith(rv, fetch, e, tp', auth);
      InviteDecides(rv, e, prev, tp, tp', auth);
      InviteDecides(rv, e, prev, tp', tp, auth);
      if ReachesInvite(e, prev, auth) {
        PassesAlike(e, auth, tp, tp');
      }
    }
  }

  lemma PassesAlike(e: Event, auth: AuthMap, tp: Option<Event>, tp': Option<Event>)
    requires CarriesSignedInvite(e) && e.stateKey.Some? && !Divided(e, auth)
    requires ThirdPartyChoice(auth, tp) && ThirdPartyChoice(auth, tp')
    ensures Passes(e, tp) == Passes(e, tp')
  {
    if tp.Some? {
      var j :| j in auth && auth[j] == tp.value;
      if tp'.Some? {
        var k :| k in auth && auth[k] == tp'.value;
      }
    }
  }

  lemma BothJudgements(rv: RoomVersion, fetch: Store, state: StateMap, id: EventId)
    requires ChoiceMatters(fetch, state, id)
    ensures Judges(rv, fetch, state, id, Ok(true)) && Judges(rv, fetch, state, id, Ok(false))
  {
    var e, auth := fetch[id], Gather(fetch, state, fetch[id]).value;
    var prev := MostRecentPrev(fetch, e.prevEvents);
    var j, k :| j in auth && k in auth
                && auth[j].eventType == RoomThirdPartyInvite && auth[k].eventType == RoomThirdPartyInvite
                && Passes(e, Some(auth[j])) && !Passes(e, Some(auth[k]));
    InviteDecides(rv, e, prev, Some(auth[j]), None, auth);
    InviteDecides(rv, e, prev, Some(auth[k]), None, auth);
    assert ThirdPartyChoice(auth, Some(auth[j])) && ThirdPartyChoice(auth, Some(auth[k]));
  }

  /** All judgements of an event in a state agree if and only if the choice does not matter. */
  lemma JudgementsAgree(rv: RoomVersion, fetch: Store, state: StateMap, id: EventId)
    ensures (forall v, v' :: Judges(rv, fetch, state, id, v) && Judges(rv, fetch, state, id, v') ==> v == v')
            <==> !ChoiceMatters(fetch, state, id)
  {
    if ChoiceMatters(fetch, state, id) {
      BothJudgements(rv, fetch, state, id);
    } else {
      forall v, v' | Judges(rv, fetch, state, id, v) && Judges(rv, fetch, state, id, v')
        ensures v == v'
      {
        JudgementUnique(rv, fetch, state, id, v, v');
      }
    }
  }

  // ---- A whole replay ----

  /** No judgement along the run, nor the failing one after it, depends on the choice. */
  ghost predicate UnambiguousRun(fetch: Store, start: StateMap, ids: seq<EventId>, run: seq<Step>) {
    forall i | 0 <= i <= |run| && i < |ids| :: !ChoiceMatters(fetch, Final(start, run[..i]), ids[i])
  }

  /** The step at `i` judges `ids[i]` in the state the steps before it left. */
  lemma StepAt(rv: RoomVersion, fetch: Store, start: StateMap, ids: seq<EventId>, run: seq<Step>, i: nat)
    requires IsRun(rv, fetch, start, run) && |run| <= |ids| && RunIds(run) == ids[..|run|] && i < |run|
    ensures run[i].id == ids[i] && run[i].before == Final(start, run[..i]) && ValidStep(rv, fetch, run[i])
  {
    StepOf(rv, fetch, start, run, i);
    assert run[i].id == RunIds(run)[i];
  }

  lemma UnambiguousAt(fetch: Store, start: StateMap, ids: seq<EventId>, run: seq<Step>, i: nat)
    requires UnambiguousRun(fetch, start, ids, run) && i <= |run| && i < |ids|
    ensures !ChoiceMatters(fetch, Final(start, run[..i]), ids[i])
  {
  }

  lemma StepUnique(rv: RoomVersion, fetch: Store, s: Step, s': Step)
    requires ValidStep(rv, fetch, s) && ValidStep(rv, fetch, s') && s.before == s'.before && s.id == s'.id
    requires !ChoiceMatters(fetch, s.before, s.id)
    ensures s == s'
  {
    JudgementUnique(rv, fetch, s.before, s.id, Ok(s.accepted), Ok(s'.accepted));
  }

  lemma {:induction false} RunsAgree(rv: RoomVersion, fetch: Store, start: StateMap, ids: seq<EventId>,
                                     run: seq<Step>, run': seq<Step>, n: nat)
    requires IsRun(rv, fetch, start, run) && IsRun(rv, fetch, start, run')
    requires n <= |run| <= |ids| && n <= |run'| <= |ids|
    requires RunIds(run) == ids[..|run|] && RunIds(run') == ids[..|run'|]
    requires UnambiguousRun(fetch, start, ids, run)
    ensures run[..n] == run'[..n]
  {
    if n == 0 {
    } else {
      var i := n - 1;
      RunsAgree(rv, fetch, start, ids, run, run', i);
      StepAt(rv, fetch, start, ids, run, i);
      StepAt(rv, fetch, start, ids, run', i);
      UnambiguousAt(fetch, start, ids, run, i);
      StepUnique(rv, fetch, run[i], run'[i]);
      TakeOneMore(run, i);
      TakeOneMore(run', i);
    }
  }

  /** A run cannot both stop with an error at an event and go past it. */
  lemma NoErrorPassed(rv: RoomVersion, fetch: Store, start: StateMap, ids: seq<EventId>,
                      short: seq<Step>, long: seq<Step>, r: Result<StateMap>)
    requires Replays(rv, fetch, start, ids, short, r)
    requires IsRun(rv, fetch, start, long) && |short| < |long| <= |ids| && RunIds(long) == ids[..|long|]
    requires short == long[..|short|]
    ensures ChoiceMatters(fetch, Final(start, short), ids[|short|])
  {
    var n := |short|;
    assert r.Ok? ==> |RunIds(short)| == |ids|;
    StepAt(rv, fetch, start, ids, long, n);
    if !ChoiceMatters(fetch, Final(start, short), ids[n]) {
      JudgementUnique(rv, fetch, Final(start, short), ids[n], Err(r.error), Ok(long[n].accepted));
    }
  }

  /** Replaying the same events from the same state takes the same run to the same outcome. */
  lemma ReplaysAgree(rv: RoomVersion, fetch: Store, start: StateMap, ids: seq<EventId>,
                     run: seq<Step>, r: Result<StateMap>, run': seq<Step>, r': Result<StateMap>)
    requires Replays(rv, fetch, start, ids, run, r) && Replays(rv, fetch, start, ids, run', r')
    requires UnambiguousRun(fetch, start, ids, run)
    ensures run == run' && r == r'
  {
    assert RunIds(run) == ids[..|run|] && RunIds(run') == ids[..|run'|];
    var n := if |run| <= |run'| then |run| else |run'|;
    RunsAgree(rv, fetch, start, ids, run, run', n);
    assert n == |run| ==> run[..n] == run;
    assert n == |run'| ==> run'[..n] == run';
    if n < |ids| {
      UnambiguousAt(fetch, start, ids, run, n);
    }
    if |run| < |run'| {
      NoErrorPassed(rv, fetch, start, ids, run, run', r);
    } else if |run'| < |run| {
      NoErrorPassed(rv, fetch, start, ids, run', run, r');
    } else {
      SameEnd(rv, fetch, start, ids, run, r, r');
    }
  }

  lemma SameEnd(rv: RoomVersion, fetch: Store, start: StateMap, ids: seq<EventId>, run: seq<Step>,
                r: Result<StateMap>, r': Result<StateMap>)
    requires Replays(rv, fetch, start, ids, run, r) && Replays(rv, fetch, start, ids, run, r')
    requires |run| < |ids| ==> !ChoiceMatters(fetch, Final(start, run), ids[|run|])
    ensures r == r'
  {
    assert |RunIds(run)| == |run|;
    if r.Err? {
      JudgementUnique(rv, fetch, Final(start, run), ids[|run|], Err(r.error), Err(r'.error));
    }
  }

  /** Any start of a replay can be carried on to its end. */
  lemma {:induction false} ReplayGoesOn(rv: RoomVersion, fetch: Store, start: StateMap, ids: seq<EventId>, begun: seq<Step>)
    returns (run: seq<Step>, r: Result<StateMap>)
    requires IsRun(rv, fetch, start, begun) && |begun| <= |ids| && RunIds(begun) == ids[..|begun|]
    ensures Replays(rv, fetch, start, ids, run, r) && begun <= run
    decreases |ids| - |begun|
  {
    var n := |begun|;
    if n == |ids| {
      run, r := begun, Ok(Final(start, begun));
    } else {
      var state := Final(start, begun);
      var v := SomeJudgement(rv, fetch, state, ids[n]);
      if v.Err? {
        run, r := begun, Err(v.error);
      } else {
        var s := StepFor(rv, fetch, state, ids[n], v.value);
        RunGrows(rv, fetch, start, begun, s);
        TakeOneMore(ids, n);
        run, r := ReplayGoesOn(rv, fetch, start, ids, begun + [s]);
      }
    }
  }

  lemma StepFor(rv: RoomVersion, fetch: Store, state: StateMap, id: EventId, accepted: bool) returns (s: Step)
    requires Judges(rv, fetch, state, id, Ok(accepted))
    ensures ValidStep(rv, fetch, s) && id in fetch && fetch[id].stateKey.Some?
    ensures s == Step(state, id, accepted, if accepted then state[KeyOfEvent(fetch[id]) := id] else state)
  {
    s := Step(state, id, accepted, if accepted then state[KeyOfEvent(fetch[id]) := id] else state);
  }

  /** Where the choice matters, another replay leaves the run. */
  lemma ReplayBranches(rv: RoomVersion, fetch: Store, start: StateMap, ids: seq<EventId>, run: seq<Step>, i: nat)
    returns (run': seq<Step>, r': Result<StateMap>)
    requires IsRun(rv, fetch, start, run) && |run| <= |ids| && RunIds(run) == ids[..|run|]
    requires i <= |run| && i < |ids| && ChoiceMatters(fetch, Final(start, run[..i]), ids[i])
    ensures Replays(rv, fetch, start, ids, run', r') && run' != run
  {
    var state := Final(start, run[..i]);
    BothJudgements(rv, fetch, state, ids[i]);
    var s := StepFor(rv, fetch, state, ids[i], if i < |run| then !run[i].accepted else true);
    PrefixIsRun(rv, fetch, start, ids, run, i);
    RunGrows(rv, fetch, start, run[..i], s);
    TakeOneMore(ids, i);
    run', r' := ReplayGoesOn(rv, fetch, start, ids, run[..i] + [s]);
    BranchDiffers(run, i, s, run');
  }

  lemma BranchDiffers<T>(s: seq<T>, i: nat, x: T, t: seq<T>)
    requires i <= |s| && s[..i] + [x] <= t
    requires i < |s| ==> s[i] != x
    ensures t != s
  {
    assert t[i] == (s[..i] + [x])[i];
  }

  lemma PrefixIsRun(rv: RoomVersion, fetch: Store, start: StateMap, ids: seq<EventId>, run: seq<Step>, i: nat)
    requires IsRun(rv, fetch, start, run) && |run| <= |ids| && RunIds(run) == ids[..|run|] && i <= |run|
    ensures IsRun(rv, fetch, start, run[..i]) && RunIds(run[..i]) == ids[..i]
  {
    if i < |run| {
      StepOf(rv, fetch, start, run, i);
    } else {
      assert run[..i] == run;
    }
    assert RunIds(run[..i]) == RunIds(run)[..i];
  }

  lemma AnotherReplay(rv: RoomVersion, fetch: Store, start: StateMap, ids: seq<EventId>, run: seq<Step>, r: Result<StateMap>)
    returns (run': seq<Step>, r': Result<StateMap>)
    requires Replays(rv, fetch, start, ids, run, r) && !UnambiguousRun(fetch, start, ids, run)
    ensures Replays(rv, fetch, start, ids, run', r') && run' != run
  {
    var i :| 0 <= i <= |run| && i < |ids| && ChoiceMatters(fetch, Final(start, run[..i]), ids[i]);
    ReplayedIds(rv, fetch, start, ids, run, r);
    run', r' := ReplayBranches(rv, fetch, start, ids, run, i);
  }

  lemma ReplayedIds(rv: RoomVersion, fetch: Store, start: StateMap, ids: seq<EventId>, run: seq<Step>, r: Result<StateMap>)
    requires Replays(rv, fetch, start, ids, run, r)
    ensures IsRun(rv, fetch, start, run) && |run| <= |ids| && RunIds(run) == ids[..|run|]
  {
    assert |RunIds(run)| == |run|;
  }

  /** A replay is the only one from its start over its events if and only if no judgement along it
      depends on the choice. */
  lemma ReplayDetermined(rv: RoomVersion, fetch: Store, start: StateMap, ids: seq<EventId>, run: seq<Step>, r: Result<StateMap>)
    requires Replays(rv, fetch, start, ids, run, r)
    ensures (forall run', r' :: Replays(rv, fetch, start, ids, run', r') ==> run' == run && r' == r)
            <==> UnambiguousRun(fetch, start, ids, run)
  {
    if UnambiguousRun(fetch, start, ids, run) {
      forall run', r' | Replays(rv, fetch, start, ids, run', r')
        ensures run' == run && r' == r
      {
        ReplaysAgree(rv, fetch, start, ids, run, r, run', r');
      }
    } else {
      var run', r' := AnotherReplay(rv, fetch, start, ids, run, r);
    }
  }
}
