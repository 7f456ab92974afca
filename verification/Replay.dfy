/** The authorization state machine of `iterative_auth_check`: events are judged one by one against
    the state reached so far, and an accepted event becomes the entry at its own key. */
module Replay {
  import opened Wrappers
  import opened Identifiers
  import opened Events
  import opened RoomVersions
  import opened EventAuth

  type StateMap = map<StateKey, EventId>

  // ---- What an event is judged against ----

  /** The event's own auth events by key; a later one replaces an earlier one, and one that cannot
      be fetched is passed over. */
  function OwnAuth(fetch: Store, ids: seq<EventId>): Result<AuthMap> {
    if ids == [] then Ok(map[])
    else
      var earlier :- OwnAuth(fetch, ids[..|ids| - 1]);
      var id := ids[|ids| - 1];
      if id !in fetch then Ok(earlier)
      else if fetch[id].stateKey.None? then Err(InvalidPdu)
      else Ok(earlier[KeyOfEvent(fetch[id]) := fetch[id]])
  }

  /** Gathering the auth events fails only on one without a state key. */
  lemma {:induction false} OwnAuthSucceeds(fetch: Store, ids: seq<EventId>)
    requires forall id | id in ids && id in fetch :: fetch[id].stateKey.Some?
    ensures OwnAuth(fetch, ids).Ok?
  {
    if ids == [] {
    } else {
      OwnAuthSucceeds(fetch, ids[..|ids| - 1]);
    }
  }

  /** Each gathered auth event is filed at its own key. */
  lemma {:induction false} OwnAuthKeyed(fetch: Store, ids: seq<EventId>)
    requires OwnAuth(fetch, ids).Ok?
    ensures forall k | k in OwnAuth(fetch, ids).value ::
              var e := OwnAuth(fetch, ids).value[k];
              e.stateKey.Some? && KeyOfEvent(e) == k && exists a :: a in ids && a in fetch && fetch[a] == e
  {
    if ids == [] {
    } else {
      var last := |ids| - 1;
      OwnAuthKeyed(fetch, ids[..last]);
      forall k | k in OwnAuth(fetch, ids).value
        ensures var e := OwnAuth(fetch, ids).value[k];
                e.stateKey.Some? && KeyOfEvent(e) == k && exists a :: a in ids && a in fetch && fetch[a] == e
      {
        var e := OwnAuth(fetch, ids).value[k];
        if !(ids[last] in fetch && k == KeyOfEvent(fetch[ids[last]])) {
          var a :| a in ids[..last] && a in fetch && fetch[a] == e;
          assert a in ids;
        }
      }
    }
  }

  /** The entries of the state at the given keys, as far as they can be fetched. */
  function StateAuth(fetch: Store, state: StateMap, keys: set<StateKey>): AuthMap {
    map k | k in keys && k in state && state[k] in fetch :: fetch[state[k]]
  }

  /** The state's entries take precedence over the event's own auth events. */
  function Gather(fetch: Store, state: StateMap, e: Event): Result<AuthMap> {
    var own :- OwnAuth(fetch, e.authEvents);
    if AuthTypesFail(e.eventType, e.stateKey, e.content) then Err(SerdeJson)
    else Ok(own + StateAuth(fetch, state, AuthTypes(e.eventType, e.sender, e.stateKey, e.content)))
  }

  /** The last of the previous events that can be fetched. */
  function MostRecentPrev(fetch: Store, ids: seq<EventId>): Option<Event> {
    if ids == [] then None
    else if ids[|ids| - 1] in fetch then Some(fetch[ids[|ids| - 1]])
    else MostRecentPrev(fetch, ids[..|ids| - 1])
  }

  /** The id at `i` is the last one that can be fetched. */
  predicate IsLastFetchable(fetch: Store, ids: seq<EventId>, i: nat) {
    i < |ids| && ids[i] in fetch && forall j | i < j < |ids| :: ids[j] !in fetch
  }

  /** It is the event of the last id that can be fetched, and there is none exactly when no id can be. */
  lemma {:induction false} MostRecentPrevByIndex(fetch: Store, ids: seq<EventId>)
    ensures MostRecentPrev(fetch, ids).None? <==> forall id | id in ids :: id !in fetch
    ensures forall i: nat | IsLastFetchable(fetch, ids, i) :: MostRecentPrev(fetch, ids) == Some(fetch[ids[i]])
  {
    if ids == [] || ids[|ids| - 1] in fetch {
    } else {
      var front := ids[..|ids| - 1];
      MostRecentPrevByIndex(fetch, front);
      assert ids == front + [ids[|ids| - 1]];
      forall i: nat | IsLastFetchable(fetch, ids, i)
        ensures MostRecentPrev(fetch, ids) == Some(fetch[ids[i]])
      {
        assert IsLastFetchable(fetch, front, i);
      }
    }
  }

  /** The auth event at `i` is the last fetchable one with the key. */
  predicate IsLastWithKey(fetch: Store, ids: seq<EventId>, i: nat, k: StateKey) {
    && i < |ids| && HasKey(fetch, ids[i], k)
    && forall j | i < j < |ids| :: !HasKey(fetch, ids[j], k)
  }

  predicate HasKey(fetch: Store, id: EventId, k: StateKey) {
    id in fetch && fetch[id].stateKey.Some? && KeyOfEvent(fetch[id]) == k
  }

  lemma SomeHasKey(fetch: Store, front: seq<EventId>, last: EventId, k: StateKey)
    ensures (exists id :: id in front + [last] && HasKey(fetch, id, k)) <==>
            (exists id :: id in front && HasKey(fetch, id, k)) || HasKey(fetch, last, k)
  {
    if id :| id in front && HasKey(fetch, id, k) {
      assert id in front + [last];
    }
    assert last in front + [last];
  }

  lemma {:induction false} OwnAuthByIndex(fetch: Store, ids: seq<EventId>, k: StateKey)
    ensures OwnAuth(fetch, ids).Ok? <==> forall id | id in ids && id in fetch :: fetch[id].stateKey.Some?
    ensures OwnAuth(fetch, ids).Ok? ==>
              && (k in OwnAuth(fetch, ids).value <==> exists id :: id in ids && HasKey(fetch, id, k))
              && forall i: nat | IsLastWithKey(fetch, ids, i, k) ::
                   k in OwnAuth(fetch, ids).value && OwnAuth(fetch, ids).value[k] == fetch[ids[i]]
  {
    if ids == [] {
    } else {
      var last := |ids| - 1;
      var front := ids[..last];
      OwnAuthByIndex(fetch, front, k);
      assert ids == front + [ids[last]];
      assert forall id :: id in ids <==> id in front || id == ids[last];
      SomeHasKey(fetch, front, ids[last], k);
      forall i: nat | i < last && IsLastWithKey(fetch, ids, i, k)
        ensures IsLastWithKey(fetch, front, i, k) && front[i] == ids[i] && !HasKey(fetch, ids[last], k)
      {
        assert forall j | 0 <= j < last :: front[j] == ids[j];
      }
    }
  }

  /** What an event is judged against at a key: the state's entry, when the event needs the key and the
      entry can be fetched; else the last of its own fetchable auth events with that key. */
  lemma GatheredByKey(fetch: Store, state: StateMap, e: Event, k: StateKey)
    ensures Gather(fetch, state, e).Ok? <==>
            && (forall id | id in e.authEvents && id in fetch :: fetch[id].stateKey.Some?)
            && !(e.eventType == RoomMember && e.stateKey.Some? && e.content.NotAnObject?)
    ensures Gather(fetch, state, e).Ok? ==>
              var auth := Gather(fetch, state, e).value;
              if k in AuthTypes(e.eventType, e.sender, e.stateKey, e.content) && k in state && state[k] in fetch
              then k in auth && auth[k] == fetch[state[k]]
              else
                && (k in auth <==> exists id :: id in e.authEvents && HasKey(fetch, id, k))
                && forall i: nat | IsLastWithKey(fetch, e.authEvents, i, k) :: auth[k] == fetch[e.authEvents[i]]
  {
    OwnAuthByIndex(fetch, e.authEvents, k);
  }

  /** Some third party invite of the gathered events, whichever the hash map yields first. */
  ghost predicate ThirdPartyChoice(auth: AuthMap, thirdParty: Option<Event>) {
    match thirdParty
    case Some(tp) => tp.eventType == RoomThirdPartyInvite && exists k :: k in auth && auth[k] == tp
    case None => forall k | k in auth :: auth[k].eventType != RoomThirdPartyInvite
  }

  // ---- Steps and runs ----

  /** `verdict` is a possible judgement of the event `id` in `state`. */
  ghost predicate Judges(rv: RoomVersion, fetch: Store, state: StateMap, id: EventId, verdict: Result<bool>) {
    if id !in fetch then verdict == Err(NotFound)
    else if fetch[id].stateKey.None? then verdict == Err(InvalidPdu)
    else
      match Gather(fetch, state, fetch[id])
      case Err(error) => verdict == Err(error)
      case Ok(auth) => exists tp :: ThirdPartyChoice(auth, tp) && verdict == JudgeWith(rv, fetch, fetch[id], tp, auth)
  }

  function JudgeWith(rv: RoomVersion, fetch: Store, e: Event, thirdParty: Option<Event>, auth: AuthMap): Result<bool> {
    AuthCheck(rv, e, MostRecentPrev(fetch, e.prevEvents), thirdParty, auth)
  }

  /** One event judged without error. */
  datatype Step = Step(before: StateMap, id: EventId, accepted: bool, after: StateMap)

  ghost predicate ValidStep(rv: RoomVersion, fetch: Store, s: Step) {
    && Judges(rv, fetch, s.before, s.id, Ok(s.accepted))
    && s.id in fetch && fetch[s.id].stateKey.Some?
    && s.after == if s.accepted then s.before[KeyOfEvent(fetch[s.id]) := s.id] else s.before
  }

  function Final(start: StateMap, run: seq<Step>): StateMap {
    if run == [] then start else run[|run| - 1].after
  }

  /** Each step starts from the state the one before it left. */
  ghost predicate IsRun(rv: RoomVersion, fetch: Store, start: StateMap, run: seq<Step>) {
    run != [] ==>
      var last := |run| - 1;
      && IsRun(rv, fetch, start, run[..last])
      && run[last].before == Final(start, run[..last])
      && ValidStep(rv, fetch, run[last])
  }

  function RunIds(run: seq<Step>): seq<EventId> {
    seq(|run|, i requires 0 <= i < |run| => run[i].id)
  }

  /** The outcome of replaying `ids` from `start`: all of them were judged, or the one after `run`
      could not be. */
  ghost predicate Replays(rv: RoomVersion, fetch: Store, start: StateMap, ids: seq<EventId>, run: seq<Step>,
                          r: Result<StateMap>) {
    && IsRun(rv, fetch, start, run)
    && match r
       case Ok(state) => RunIds(run) == ids && state == Final(start, run)
       case Err(error) =>
         && |run| < |ids| && RunIds(run) == ids[..|run|]
         && Judges(rv, fetch, Final(start, run), ids[|run|], Err(error))
  }

  ghost predicate ReplayOutcome(rv: RoomVersion, fetch: Store, start: StateMap, ids: seq<EventId>, r: Result<StateMap>) {
    exists run :: Replays(rv, fetch, start, ids, run, r)
  }

  lemma {:induction false} StepOf(rv: RoomVersion, fetch: Store, start: StateMap, run: seq<Step>, i: nat)
    requires IsRun(rv, fetch, start, run) && i < |run|
    ensures IsRun(rv, fetch, start, run[..i])
    ensures run[i].before == Final(start, run[..i]) && ValidStep(rv, fetch, run[i])
    ensures Final(start, run[..i + 1]) == run[i].after
    decreases |run|
  {
    var last := |run| - 1;
    if i < last {
      StepOf(rv, fetch, start, run[..last], i);
      assert run[..last][..i] == run[..i] && run[..last][..i + 1] == run[..i + 1];
    } else {
      assert run[..i + 1] == run;
    }
  }

  lemma RunGrows(rv: RoomVersion, fetch: Store, start: StateMap, run: seq<Step>, s: Step)
    requires IsRun(rv, fetch, start, run) && s.before == Final(start, run) && ValidStep(rv, fetch, s)
    ensures IsRun(rv, fetch, start, run + [s]) && Final(start, run + [s]) == s.after
    ensures RunIds(run + [s]) == RunIds(run) + [s.id]
  {
    assert (run + [s])[..|run|] == run;
  }

  // ---- The loop ----

  method GatherAuth(fetch: Store, state: StateMap, e: Event) returns (r: Result<AuthMap>)
    ensures r == Gather(fetch, state, e)
  {
    var auth: AuthMap := map[];
    var i := 0;
    while i < |e.authEvents|
      invariant i <= |e.authEvents|
      invariant OwnAuth(fetch, e.authEvents[..i]) == Ok(auth)
    {
      var id := e.authEvents[i];
      assert e.authEvents[..i + 1][..i] == e.authEvents[..i];
      if id in fetch {
        if fetch[id].stateKey.None? {
          OwnAuthFails(fetch, e.authEvents, i);
          return Err(InvalidPdu);
        }
        auth := auth[KeyOfEvent(fetch[id]) := fetch[id]];
      }
      i := i + 1;
    }
    assert e.authEvents[..i] == e.authEvents;
    var types := AuthTypesForEvent(e.eventType, e.sender, e.stateKey, e.content);
    if types.Err? {
      return Err(SerdeJson);
    }
    auth := Overlay(fetch, state, auth, types.value);
    return Ok(auth);
  }

  lemma {:induction false} OwnAuthFails(fetch: Store, ids: seq<EventId>, i: nat)
    requires i < |ids| && OwnAuth(fetch, ids[..i + 1]) == Err(InvalidPdu)
    ensures OwnAuth(fetch, ids) == Err(InvalidPdu)
    decreases |ids|
  {
    if i + 1 == |ids| {
      assert ids[..i + 1] == ids;
    } else {
      var last := |ids| - 1;
      assert ids[..last][..i + 1] == ids[..i + 1];
      OwnAuthFails(fetch, ids[..last], i);
    }
  }

  lemma OverlayStep(fetch: Store, state: StateMap, own: AuthMap, keys: set<StateKey>, key: StateKey)
    ensures own + StateAuth(fetch, state, keys + {key}) ==
            if key in state && state[key] in fetch
            then (own + StateAuth(fetch, state, keys))[key := fetch[state[key]]]
            else own + StateAuth(fetch, state, keys)
  {
  }

  /** The loop over the needed keys. */
  method Overlay(fetch: Store, state: StateMap, own: AuthMap, keys: seq<StateKey>) returns (auth: AuthMap)
    ensures auth == own + StateAuth(fetch, state, KeySet(keys))
  {
    auth := own;
    for i := 0 to |keys|
      invariant auth == own + StateAuth(fetch, state, KeySet(keys[..i]))
    {
      var key := keys[i];
      assert KeySet(keys[..i + 1]) == KeySet(keys[..i]) + {key};
      OverlayStep(fetch, state, own, KeySet(keys[..i]), key);
      if key in state && state[key] in fetch {
        auth := auth[key := fetch[state[key]]];
      }
    }
    assert keys[..|keys|] == keys;
  }

  /** `auth_events.iter().find_map(..)` over a hash map. */
  method FindThirdParty(auth: AuthMap) returns (thirdParty: Option<Event>)
    ensures ThirdPartyChoice(auth, thirdParty)
  {
    ghost var done: set<StateKey> := {};
    var rest := auth.Keys;
    while rest != {}
      invariant done + rest == auth.Keys
      invariant forall k | k in done :: auth[k].eventType != RoomThirdPartyInvite
    {
      var k :| k in rest;
      if auth[k].eventType == RoomThirdPartyInvite {
        return Some(auth[k]);
      }
      rest, done := rest - {k}, done + {k};
    }
    return None;
  }

  method Judge(rv: RoomVersion, fetch: Store, state: StateMap, id: EventId) returns (verdict: Result<bool>)
    ensures Judges(rv, fetch, state, id, verdict)
    ensures verdict.Ok? ==> id in fetch && fetch[id].stateKey.Some?
  {
    if id !in fetch {
      return Err(NotFound);
    }
    var e := fetch[id];
    if e.stateKey.None? {
      return Err(InvalidPdu);
    }
    var auth := GatherAuth(fetch, state, e);
    if auth.Err? {
      return Err(auth.error);
    }
    var thirdParty := FindThirdParty(auth.value);
    return JudgeWith(rv, fetch, e, thirdParty, auth.value);
  }

  method IterativeAuthCheck(rv: RoomVersion, fetch: Store, ids: seq<EventId>, start: StateMap)
    returns (r: Result<StateMap>)
    ensures ReplayOutcome(rv, fetch, start, ids, r)
  {
    var state := start;
    ghost var run: seq<Step> := [];
    for i := 0 to |ids|
      invariant IsRun(rv, fetch, start, run) && RunIds(run) == ids[..i] && state == Final(start, run)
    {
      var verdict := Judge(rv, fetch, state, ids[i]);
      if verdict.Err? {
        r := Err(verdict.error);
        assert Replays(rv, fetch, start, ids, run, r);
        return;
      }
      assert ids[..i + 1] == ids[..i] + [ids[i]];
      ghost var before := state;
      if verdict.value {
        state := state[KeyOfEvent(fetch[ids[i]]) := ids[i]];
      }
      ghost var step := Step(before, ids[i], verdict.value, state);
      assert ValidStep(rv, fetch, step);
      RunGrows(rv, fetch, start, run, step);
      run := run + [step];
    }
    assert ids[..|ids|] == ids;
    r := Ok(state);
    assert Replays(rv, fetch, start, ids, run, r);
  }
}
