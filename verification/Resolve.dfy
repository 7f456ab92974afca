/** `resolve`: one agreed state out of several forked ones. */
module StateResolution {
  import opened Wrappers
  import opened Identifiers
  import opened Events
  import opened RoomVersions
  import opened Replay
  import opened StateSets
  import opened AuthChains
  import opened TopologicalSort
  import opened ControlGraph
  import opened Mainline

  // ---- Control events ----

  /** Power levels, join rules, the create event, and kicks and bans of others. */
  predicate IsPowerEvent(e: Event) {
    match e.eventType
    case RoomPowerLevels => e.stateKey == Some("")
    case RoomJoinRules => e.stateKey == Some("")
    case RoomCreate => e.stateKey == Some("")
    case RoomMember =>
      (match DecodeMember(e.content)
       case None => false
       case Some(m) => (m == Leave || m == Ban) && Some(e.sender) != e.stateKey)
    case _ => false
  }

  /** The fetchable ids of the auth difference and of the conflicting entries. */
  function AllConflicted(fetch: Store, sets: seq<StateMap>, chains: seq<set<EventId>>): set<EventId> {
    set id | id in AuthDifference(chains) + ConflictingIds(sets) && id in fetch
  }

  /** Some chain holds the event and another does not. */
  ghost predicate ChainsDiffer(chains: seq<set<EventId>>, id: EventId) {
    exists i, j :: 0 <= i < |chains| && 0 <= j < |chains| && id in chains[i] && id !in chains[j]
  }

  /** Some state holds the event at a key that another state lacks or maps elsewhere. */
  ghost predicate StatesDiffer(sets: seq<StateMap>, id: EventId) {
    exists i, j, k :: 0 <= i < |sets| && 0 <= j < |sets| && k in sets[i] && sets[i][k] == id
                      && (k !in sets[j] || sets[j][k] != id)
  }

  /** An event is conflicted: it can be fetched, and the chains or the states differ about it. */
  ghost predicate Conflicted(fetch: Store, sets: seq<StateMap>, chains: seq<set<EventId>>, id: EventId) {
    id in fetch && (ChainsDiffer(chains, id) || StatesDiffer(sets, id))
  }

  lemma ChainsDifferExactly(chains: seq<set<EventId>>, id: EventId)
    ensures id in AuthDifference(chains) <==> ChainsDiffer(chains, id)
  {
    if id in AuthDifference(chains) {
      var i :| 0 <= i < |chains| && id in chains[i];
      var j :| 0 <= j < |chains| && id !in chains[j];
    }
    if i, j :| 0 <= i < |chains| && 0 <= j < |chains| && id in chains[i] && id !in chains[j] {
      assert id in AnyChain(chains);
    }
  }

  lemma StatesDifferExactly(sets: seq<StateMap>, id: EventId)
    ensures id in ConflictingIds(sets) <==> StatesDiffer(sets, id)
  {
    if id in ConflictingIds(sets) {
      var i, k :| 0 <= i < |sets| && k in sets[i] && !IsClean(sets, k) && sets[i][k] == id;
      KeyDiffers(sets, i, k);
    }
    if i, j, k :| 0 <= i < |sets| && 0 <= j < |sets| && k in sets[i] && sets[i][k] == id && (k !in sets[j] || sets[j][k] != id) {
      assert !IsClean(sets, k);
    }
  }

  lemma KeyDiffers(sets: seq<StateMap>, i: nat, k: StateKey)
    requires i < |sets| && k in sets[i] && !IsClean(sets, k)
    ensures exists j :: 0 <= j < |sets| && (k !in sets[j] || sets[j][k] != sets[i][k])
  {
    if forall j | 0 <= j < |sets| :: k in sets[j] && sets[j][k] == sets[i][k] {
      assert IsClean(sets, k);
    }
  }

  /** The full conflicted set is exactly the conflicted events. */
  lemma ConflictedExactly(fetch: Store, sets: seq<StateMap>, chains: seq<set<EventId>>)
    ensures forall id :: id in AllConflicted(fetch, sets, chains) <==> Conflicted(fetch, sets, chains, id)
  {
    forall id
      ensures id in AllConflicted(fetch, sets, chains) <==> Conflicted(fetch, sets, chains, id)
    {
      ChainsDifferExactly(chains, id);
      StatesDifferExactly(sets, id);
    }
  }

  /** What counts as a control event, by its fields. */
  lemma ControlEventByFields(e: Event)
    ensures IsPowerEvent(e) <==>
            || (e.eventType in {RoomPowerLevels, RoomJoinRules, RoomCreate} && e.stateKey == Some(""))
            || (&& e.eventType == RoomMember && e.stateKey != Some(e.sender)
                && e.content.Object? && e.content.otherMemberFieldsOk && !e.content.thirdPartyInvite.Malformed?
                && e.content.membership in {Value(Leave), Value(Ban)})
  {
  }

  function ControlEvents(fetch: Store, all: set<EventId>): set<EventId> {
    set id | id in all && id in fetch && IsPowerEvent(fetch[id])
  }

  // ---- The outcome, stage by stage ----

  /** What the stages compute when there is a conflict: the control graph, its order and its replay,
      then the order of the remaining events and their replay. */
  datatype Stages = Stages(
    graph: Graph, control: seq<EventId>, controlRun: seq<Step>, afterControl: Result<StateMap>,
    left: seq<EventId>, leftRun: seq<Step>, afterLeft: Result<StateMap>)

  /** Placeholders for stages that are not reached. */
  const NO_STAGES := Stages(map[], [], [], Err(NotFound), [], [], Err(NotFound))

  ghost predicate SortsControl(fetch: Store, all: set<EventId>, st: Stages) {
    IsControlGraph(fetch, all, ControlEvents(fetch, all), st.graph)
    && (PowersDecode(fetch, st.graph.Keys) ==> GreedyOrder(st.graph, PowerKeys(fetch, st.graph.Keys), st.control))
  }

  /** The power levels event the first pass ends with. */
  function ResolvedPower(state: StateMap): Option<EventId> {
    EntryAt(state, POWER_LEVELS_KEY)
  }

  function LeftIds(all: set<EventId>, control: seq<EventId>): set<EventId> {
    all - Ids(control)
  }

  predicate MainlineFails(fetch: Store, left: set<EventId>, state: StateMap)
    requires Acyclic(fetch)
  {
    left != {} && MainlineOf(fetch, ResolvedPower(state)).Err?
  }

  /** The order of the remaining events. */
  ghost predicate SortsLeft(fetch: Store, left: set<EventId>, state: StateMap, out: seq<EventId>)
    requires Acyclic(fetch) && !MainlineFails(fetch, left, state)
  {
    if left == {} then out == []
    else MainlineOrder(fetch, MainlineIndex(MainlineOf(fetch, ResolvedPower(state)).value), left, out)
  }

  /** The second half: sort and replay what the first pass left, then put the clean entries back. */
  ghost predicate FinishesWith(rv: RoomVersion, fetch: Store, all: set<EventId>, clean: StateMap, st: Stages, r: Result<StateMap>)
    requires Acyclic(fetch) && st.afterControl.Ok?
  {
    var left, state := LeftIds(all, st.control), st.afterControl.value;
    if MainlineFails(fetch, left, state) then r.Err?
    else
      && SortsLeft(fetch, left, state, st.left)
      && Replays(rv, fetch, state, st.left, st.leftRun, st.afterLeft)
      && if st.afterLeft.Err? then r.Err? else r == Ok(st.afterLeft.value + clean)
  }

  /** `r` comes of the conflicted events `all` on top of the clean state, through `st`. */
  ghost predicate ResolvesConflicts(version: RoomVersionId, fetch: Store, all: set<EventId>, clean: StateMap, st: Stages,
                                    r: Result<StateMap>)
    requires Acyclic(fetch)
  {
    && SortsControl(fetch, all, st)
    && if !PowersDecode(fetch, st.graph.Keys) || New(version).Err? then r.Err?
       else
         && Replays(New(version).value, fetch, clean, st.control, st.controlRun, st.afterControl)
         && if st.afterControl.Err? then r.Err?
            else FinishesWith(New(version).value, fetch, all, clean, st, r)
  }

  /** `r` is an outcome of `resolve`, reached through `st`. */
  ghost predicate Resolves(version: RoomVersionId, fetch: Store, sets: seq<StateMap>, chains: seq<set<EventId>>,
                           st: Stages, r: Result<StateMap>)
    requires Acyclic(fetch)
  {
    var clean, all := CleanState(sets), AllConflicted(fetch, sets, chains);
    if AllKeys(sets) == clean.Keys then r == Ok(clean)
    else ResolvesConflicts(version, fetch, all, clean, st, r)
  }

  /** `r` is an outcome of `resolve`. */
  ghost predicate ResolveOutcome(version: RoomVersionId, fetch: Store, sets: seq<StateMap>, chains: seq<set<EventId>>,
                                 r: Result<StateMap>)
    requires Acyclic(fetch)
  {
    exists st :: Resolves(version, fetch, sets, chains, st, r)
  }

  // ---- The method ----

  /** The conflicted ids as a hash set: the auth difference and the conflicting entries, without
      those that cannot be fetched. */
  method CollectConflicted(fetch: Store, sets: seq<StateMap>, chains: seq<set<EventId>>, conflicting: map<StateKey, seq<EventId>>)
    returns (all: set<EventId>)
    requires conflicting.Keys == AllKeys(sets) - CleanState(sets).Keys
    requires forall k | k in conflicting :: conflicting[k] == Present(sets, k)
    ensures all == AllConflicted(fetch, sets, chains)
    ensures forall id :: id in all <==> Conflicted(fetch, sets, chains, id)
  {
    ConflictedExactly(fetch, sets, chains);
    var diff := GetAuthChainDiff(chains);
    var ids := Ids(diff) + set k, id | k in conflicting && id in conflicting[k] :: id;
    all := set id | id in ids && id in fetch;
    forall id
      ensures id in ConflictingIds(sets) <==> exists k :: k in conflicting && id in conflicting[k]
    {
      ConflictingListed(sets, conflicting, id);
    }
    assert ids == AuthDifference(chains) + ConflictingIds(sets);
  }

  lemma ConflictingListed(sets: seq<StateMap>, conflicting: map<StateKey, seq<EventId>>, id: EventId)
    requires conflicting.Keys == AllKeys(sets) - CleanState(sets).Keys
    requires forall k | k in conflicting :: conflicting[k] == Present(sets, k)
    ensures id in ConflictingIds(sets) <==> exists k :: k in conflicting && id in conflicting[k]
  {
    if id in ConflictingIds(sets) {
      var i, k :| 0 <= i < |sets| && k in sets[i] && !IsClean(sets, k) && sets[i][k] == id;
      PresentMembers(sets, k, id);
      assert k in conflicting && id in conflicting[k];
    }
    if k :| k in conflicting && id in conflicting[k] {
      PresentMembers(sets, k, id);
    }
  }

  /** A hash set collected into a vector, in any order, keeping the ids of `keep`. */
  method Filter(ids: set<EventId>, keep: set<EventId>) returns (out: seq<EventId>)
    ensures Ids(out) == ids * keep
  {
    out := [];
    var rest := ids;
    while rest != {}
      invariant rest <= ids && Ids(out) == (ids - rest) * keep
    {
      var id :| id in rest;
      IdsAppend(out, [id]);
      assert Ids([id]) == {id};
      if id in keep {
        out := out + [id];
      }
      rest := rest - {id};
    }
  }

  /** Sorting the control events fails only when some power levels do not decode. */
  lemma SortFailure(fetch: Store, all: set<EventId>, g: Graph, r: Result<seq<EventId>>)
    requires IsControlGraph(fetch, all, ControlEvents(fetch, all), g) && all <= fetch.Keys
    requires PowerSorted(fetch, g, r) && r.Err?
    ensures !PowersDecode(fetch, g.Keys)
  {
    ControlGraphInside(fetch, all, ControlEvents(fetch, all), g);
    if PowersDecode(fetch, g.Keys) {
      var out :| GreedyPrefix(g, PowerKeys(fetch, g.Keys), out) && !AllKeysFound(g, PowerKeys(fetch, g.Keys), out);
      KeysFound(fetch, g, out);
    }
  }

  /** The second pass. */
  method FinishResolve(rv: RoomVersion, fetch: Store, all: set<EventId>, clean: StateMap, control: seq<EventId>,
                       state: StateMap, ghost before: Stages)
    returns (r: Result<StateMap>)
    requires Acyclic(fetch) && before.control == control && before.afterControl == Ok(state)
    ensures exists left, leftRun, afterLeft ::
              FinishesWith(rv, fetch, all, clean, before.(left := left, leftRun := leftRun, afterLeft := afterLeft), r)
  {
    var toResolve := Filter(all, all - Ids(control));
    assert Ids(toResolve) == LeftIds(all, control);
    NoIds(toResolve);
    var left := MainlineSort(fetch, toResolve, EntryAt(state, POWER_LEVELS_KEY));
    if left.Err? {
      r := Err(left.error);
      assert FinishesWith(rv, fetch, all, clean, before.(left := [], leftRun := [], afterLeft := r), r);
      return;
    }
    var final := IterativeAuthCheck(rv, fetch, left.value, state);
    ghost var leftRun :| Replays(rv, fetch, state, left.value, leftRun, final);
    r := if final.Err? then Err(final.error) else Ok(final.value + clean);
    assert FinishesWith(rv, fetch, all, clean, before.(left := left.value, leftRun := leftRun, afterLeft := final), r);
  }

  /** `resolve`. */
  method Resolve(version: RoomVersionId, fetch: Store, sets: seq<StateMap>, chains: seq<set<EventId>>)
    returns (r: Result<StateMap>)
    requires Acyclic(fetch)
    ensures ResolveOutcome(version, fetch, sets, chains, r)
  {
    var clean, conflicting := Separate(sets);
    if conflicting == map[] {
      assert AllKeys(sets) == clean.Keys;
      r := Ok(clean);
      assert Resolves(version, fetch, sets, chains, NO_STAGES, r);
      return;
    }
    assert conflicting.Keys == AllKeys(sets) - clean.Keys;
    assert AllKeys(sets) != clean.Keys by {
      var k :| k in conflicting;
    }
    var all := CollectConflicted(fetch, sets, chains, conflicting);
    r := ResolveConflicts(version, fetch, all, clean);
    ghost var st :| ResolvesConflicts(version, fetch, all, clean, st, r);
    assert Resolves(version, fetch, sets, chains, st, r);
  }

  /** Both passes, over the conflicted events. */
  method ResolveConflicts(version: RoomVersionId, fetch: Store, all: set<EventId>, clean: StateMap)
    returns (r: Result<StateMap>)
    requires Acyclic(fetch) && all <= fetch.Keys
    ensures exists st :: ResolvesConflicts(version, fetch, all, clean, st, r)
  {
    var controlEvents := Filter(all, ControlEvents(fetch, all));
    assert Ids(controlEvents) == ControlEvents(fetch, all);
    var sorted := ReverseTopologicalPowerSort(fetch, all, controlEvents);
    ghost var g :| IsControlGraph(fetch, all, ControlEvents(fetch, all), g) && PowerSorted(fetch, g, sorted);
    ghost var st := NO_STAGES.(graph := g);
    if sorted.Err? {
      SortFailure(fetch, all, g, sorted);
      r := Err(sorted.error);
      assert ResolvesConflicts(version, fetch, all, clean, st, r);
      return;
    }
    st := st.(control := sorted.value);
    var rv := New(version);
    if rv.Err? {
      r := Err(rv.error);
      assert ResolvesConflicts(version, fetch, all, clean, st, r);
      return;
    }
    var control := IterativeAuthCheck(rv.value, fetch, sorted.value, clean);
    ghost var controlRun :| Replays(rv.value, fetch, clean, sorted.value, controlRun, control);
    st := st.(controlRun := controlRun, afterControl := control);
    if control.Err? {
      r := Err(control.error);
      assert ResolvesConflicts(version, fetch, all, clean, st, r);
      return;
    }
    r := FinishResolve(rv.value, fetch, all, clean, sorted.value, control.value, st);
    ghost var left, leftRun, afterLeft :|
      FinishesWith(rv.value, fetch, all, clean, st.(left := left, leftRun := leftRun, afterLeft := afterLeft), r);
    assert ResolvesConflicts(version, fetch, all, clean, st.(left := left, leftRun := leftRun, afterLeft := afterLeft), r);
  }
}
