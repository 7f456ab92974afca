/** What the result of `resolve` holds, and what becomes of every conflicted event. */
module ResolveProperties {
  import opened Wrappers
  import opened Identifiers
  import opened Events
  import opened RoomVersions
  import opened Replay
  import opened StateSets
  import opened AuthChains
  import opened TopologicalSort
  import opened ControlGraph
  import opened Mainline
  import opened StateResolution

  // ---- Who put an entry there ----

  predicate AcceptsAt(fetch: Store, s: Step, k: StateKey) {
    s.accepted && s.id in fetch && fetch[s.id].stateKey.Some? && KeyOfEvent(fetch[s.id]) == k
  }

  /** The run accepts `id` for `k`, and nothing for `k` after it. */
  ghost predicate AcceptsLast(fetch: Store, run: seq<Step>, k: StateKey, id: EventId) {
    exists i :: 0 <= i < |run| && run[i].id == id && AcceptsAt(fetch, run[i], k)
                && forall j | i < j < |run| :: !AcceptsAt(fetch, run[j], k)
  }

  ghost predicate NeverAccepts(fetch: Store, run: seq<Step>, k: StateKey) {
    forall i | 0 <= i < |run| :: !AcceptsAt(fetch, run[i], k)
  }

  lemma AcceptedNow(fetch: Store, run: seq<Step>, k: StateKey)
    requires run != [] && AcceptsAt(fetch, run[|run| - 1], k)
    ensures !NeverAccepts(fetch, run, k) && AcceptsLast(fetch, run, k, run[|run| - 1].id)
  {
  }

  lemma AcceptedBefore(fetch: Store, run: seq<Step>, k: StateKey, id: EventId)
    requires run != [] && !AcceptsAt(fetch, run[|run| - 1], k) && AcceptsLast(fetch, run[..|run| - 1], k, id)
    ensures !NeverAccepts(fetch, run, k) && AcceptsLast(fetch, run, k, id)
  {
    var front := run[..|run| - 1];
    var i :| 0 <= i < |front| && front[i].id == id && AcceptsAt(fetch, front[i], k)
             && forall j | i < j < |front| :: !AcceptsAt(fetch, front[j], k);
    assert forall j | 0 <= j < |front| :: run[j] == front[j];
    assert AcceptsAt(fetch, run[i], k);
  }

  lemma AcceptedNever(fetch: Store, run: seq<Step>, k: StateKey)
    requires run != [] && !AcceptsAt(fetch, run[|run| - 1], k) && NeverAccepts(fetch, run[..|run| - 1], k)
    ensures NeverAccepts(fetch, run, k)
  {
    assert forall j | 0 <= j < |run| - 1 :: run[j] == run[..|run| - 1][j];
  }

  /** An entry after a run is the last accepted one, or the one from before if none was accepted. */
  lemma {:induction false} EntryOrigin(rv: RoomVersion, fetch: Store, start: StateMap, run: seq<Step>, k: StateKey)
    requires IsRun(rv, fetch, start, run)
    ensures NeverAccepts(fetch, run, k) ==> EntryAt(Final(start, run), k) == EntryAt(start, k)
    ensures !NeverAccepts(fetch, run, k) ==>
              k in Final(start, run) && AcceptsLast(fetch, run, k, Final(start, run)[k])
  {
    if run == [] {
    } else {
      var front := run[..|run| - 1];
      EntryOrigin(rv, fetch, start, front, k);
      if AcceptsAt(fetch, run[|run| - 1], k) {
        AcceptedNow(fetch, run, k);
      } else if NeverAccepts(fetch, front, k) {
        AcceptedNever(fetch, run, k);
      } else {
        AcceptedBefore(fetch, run, k, Final(start, front)[k]);
      }
    }
  }

  // ---- Both passes are one run ----

  lemma {:induction false} RunsJoin(rv: RoomVersion, fetch: Store, start: StateMap, a: seq<Step>, b: seq<Step>)
    requires IsRun(rv, fetch, start, a) && IsRun(rv, fetch, Final(start, a), b)
    ensures IsRun(rv, fetch, start, a + b) && Final(start, a + b) == Final(Final(start, a), b)
    decreases |b|
  {
    if b == [] {
      assert a + b == a;
    } else {
      var last := |b| - 1;
      RunsJoin(rv, fetch, start, a, b[..last]);
      RunGrows(rv, fetch, start, a + b[..last], b[last]);
      LastOfSum(a, b);
    }
  }

  lemma LastOfSum<T>(a: seq<T>, b: seq<T>)
    requires b != []
    ensures a + b == a + b[..|b| - 1] + [b[|b| - 1]]
  {
  }

  lemma RunIdsJoin(a: seq<Step>, b: seq<Step>)
    ensures RunIds(a + b) == RunIds(a) + RunIds(b)
  {
  }

  /** A resolution that went through both passes. */
  ghost predicate Resolved(version: RoomVersionId, fetch: Store, sets: seq<StateMap>, chains: seq<set<EventId>>,
                           st: Stages, state: StateMap)
    requires Acyclic(fetch)
  {
    Resolves(version, fetch, sets, chains, st, Ok(state)) && AllKeys(sets) != CleanState(sets).Keys
  }

  function BothPasses(st: Stages): seq<Step> {
    st.controlRun + st.leftRun
  }

  /** The two passes make one run from the clean state, so everything that holds over runs holds from
      the clean state to the end of the second pass. */
  lemma PassesAreOneRun(version: RoomVersionId, fetch: Store, sets: seq<StateMap>, chains: seq<set<EventId>>,
                        st: Stages, state: StateMap)
    requires Acyclic(fetch) && Resolved(version, fetch, sets, chains, st, state)
    ensures New(version).Ok? && st.afterLeft.Ok?
    ensures IsRun(New(version).value, fetch, CleanState(sets), BothPasses(st))
    ensures Final(CleanState(sets), BothPasses(st)) == st.afterLeft.value
    ensures RunIds(BothPasses(st)) == st.control + st.left
    ensures state == st.afterLeft.value + CleanState(sets)
  {
    RunsJoin(New(version).value, fetch, CleanState(sets), st.controlRun, st.leftRun);
    RunIdsJoin(st.controlRun, st.leftRun);
  }

  // ---- The result ----

  /** Clean keys keep their clean entry; any other entry is a conflicted, fetchable event of that very
      type and state key that was accepted, and no later accepted event has the same key. */
  lemma ResultEntries(version: RoomVersionId, fetch: Store, sets: seq<StateMap>, chains: seq<set<EventId>>,
                      st: Stages, state: StateMap, k: StateKey)
    requires Acyclic(fetch) && Resolved(version, fetch, sets, chains, st, state)
    ensures k in CleanState(sets) ==> k in state && state[k] == CleanState(sets)[k]
    ensures k !in CleanState(sets) ==> (k in state <==> !NeverAccepts(fetch, BothPasses(st), k))
    ensures k !in CleanState(sets) && k in state ==>
              && Conflicted(fetch, sets, chains, state[k])
              && fetch[state[k]].stateKey.Some? && KeyOfEvent(fetch[state[k]]) == k
              && AcceptsLast(fetch, BothPasses(st), k, state[k])
  {
    var clean, run := CleanState(sets), BothPasses(st);
    PassesAreOneRun(version, fetch, sets, chains, st, state);
    ConflictedExactly(fetch, sets, chains);
    EntryOrigin(New(version).value, fetch, clean, run, k);
    if k !in clean && k in state {
      var i :| 0 <= i < |run| && run[i].id == state[k] && AcceptsAt(fetch, run[i], k);
      assert RunIds(run)[i] == state[k];
      SortedWithin(version, fetch, sets, chains, st, state, state[k]);
    }
  }

  lemma SortedWithin(version: RoomVersionId, fetch: Store, sets: seq<StateMap>, chains: seq<set<EventId>>,
                     st: Stages, state: StateMap, id: EventId)
    requires Acyclic(fetch) && Resolved(version, fetch, sets, chains, st, state)
    ensures id in st.control ==> id in st.graph && id in AllConflicted(fetch, sets, chains)
    ensures id in st.left ==> id in LeftIds(AllConflicted(fetch, sets, chains), st.control)
  {
    var all := AllConflicted(fetch, sets, chains);
    ControlGraphInside(fetch, all, ControlEvents(fetch, all), st.graph);
    EdgesEmitted(st.graph, PowerKeys(fetch, st.graph.Keys), st.control, id);
    assert id in st.left ==> id in Ids(st.left);
  }

  // ---- Conservation ----

  lemma GraphAcyclic(fetch: Store, all: set<EventId>, g: Graph) returns (level: map<EventId, nat>)
    requires Acyclic(fetch) && all <= fetch.Keys && IsControlGraph(fetch, all, ControlEvents(fetch, all), g)
    ensures ClosedAcyclic(g, level)
  {
    ControlGraphInside(fetch, all, ControlEvents(fetch, all), g);
    level :| Ranks(fetch, level);
  }

  /** The ids of the second sort: those of the rest whose depth from the resolved power levels can be
      computed; none when there is no rest. */
  function SortableRest(fetch: Store, rest: set<EventId>, state: StateMap): set<EventId>
    requires Acyclic(fetch) && !MainlineFails(fetch, rest, state)
  {
    if rest == {} then {}
    else
      var index := MainlineIndex(MainlineOf(fetch, ResolvedPower(state)).value);
      set id | id in rest && Sortable(fetch, index, id)
  }

  /** The control sort emits exactly the control graph, each event once and after its own conflicted
      auth events; the second sort gets the rest, and keeps exactly what has a computable depth, once
      each. */
  lemma ConflictedEventsConserved(version: RoomVersionId, fetch: Store, sets: seq<StateMap>, chains: seq<set<EventId>>,
                                  st: Stages, state: StateMap)
    requires Acyclic(fetch) && Resolved(version, fetch, sets, chains, st, state)
    ensures multiset(st.control) == multiset(st.graph.Keys)
    ensures forall id | id in st.control :: Conflicted(fetch, sets, chains, id)
    ensures forall id | Conflicted(fetch, sets, chains, id) && IsPowerEvent(fetch[id]) :: id in st.control
    ensures forall i, a | 0 <= i < |st.control| && st.control[i] in fetch && a in fetch[st.control[i]].authEvents
                          && Conflicted(fetch, sets, chains, a) :: a in st.control[..i]
    ensures var rest := AllConflicted(fetch, sets, chains) - Ids(st.control);
            && (forall id :: id in rest <==> Conflicted(fetch, sets, chains, id) && id !in st.control)
            && !MainlineFails(fetch, rest, st.afterControl.value)
            && multiset(st.left) == multiset(SortableRest(fetch, rest, st.afterControl.value))
  {
    var all := AllConflicted(fetch, sets, chains);
    var keys := PowerKeys(fetch, st.graph.Keys);
    var level := GraphAcyclic(fetch, all, st.graph);
    EmitsEveryNode(st.graph, keys, st.control, level);
    ControlGraphInside(fetch, all, ControlEvents(fetch, all), st.graph);
    ConflictedExactly(fetch, sets, chains);
    assert forall id :: id in st.control <==> id in Ids(st.control);
    forall i, a | 0 <= i < |st.control| && st.control[i] in fetch && a in fetch[st.control[i]].authEvents
                  && Conflicted(fetch, sets, chains, a)
      ensures a in st.control[..i]
    {
      EdgesFirst(st.graph, keys, st.control, i, a);
      assert a in ControlEdges(fetch, all, st.control[i]);
    }
    SecondSort(fetch, all - Ids(st.control), st.afterControl.value, st.left);
  }

  /** A path of conflicted auth events from a conflicted control event. */
  ghost predicate ControlPath(fetch: Store, sets: seq<StateMap>, chains: seq<set<EventId>>, p: seq<EventId>) {
    && p != [] && Conflicted(fetch, sets, chains, p[0]) && IsPowerEvent(fetch[p[0]])
    && forall i | 0 < i < |p| :: Conflicted(fetch, sets, chains, p[i]) && IsAuthEvent(fetch, p, i)
  }

  /** The `i`-th event of the path is an auth event of the one before it. */
  predicate IsAuthEvent(fetch: Store, p: seq<EventId>, i: nat)
    requires 0 < i < |p|
  {
    p[i - 1] in fetch && p[i] in fetch[p[i - 1]].authEvents
  }

  /** The first pass judges exactly the events at the ends of such paths. */
  lemma ControlSortExactly(version: RoomVersionId, fetch: Store, sets: seq<StateMap>, chains: seq<set<EventId>>,
                           st: Stages, state: StateMap, id: EventId)
    requires Acyclic(fetch) && Resolved(version, fetch, sets, chains, st, state)
    ensures id in st.control <==> exists p :: ControlPath(fetch, sets, chains, p) && p[|p| - 1] == id
  {
    var all := AllConflicted(fetch, sets, chains);
    var roots := ControlEvents(fetch, all);
    ConflictedExactly(fetch, sets, chains);
    ConflictedEventsConserved(version, fetch, sets, chains, st, state);
    assert id in st.control <==> id in multiset(st.control);
    LeastClosedIsReachable(fetch, Within(all), roots, st.graph.Keys, id);
    if p :| IsPath(fetch, Within(all), p) && p[0] in roots && p[|p| - 1] == id {
      assert ControlPath(fetch, sets, chains, p) by {
        forall i | 0 < i < |p|
          ensures Conflicted(fetch, sets, chains, p[i]) && IsAuthEvent(fetch, p, i)
        {
          assert p[i] in AuthEdges(fetch, p[i - 1]) && p[i] in Within(all);
        }
      }
    }
    if p :| ControlPath(fetch, sets, chains, p) && p[|p| - 1] == id {
      forall i | 0 < i < |p|
        ensures p[i] in AuthEdges(fetch, p[i - 1]) && p[i] in Within(all)
      {
        assert IsAuthEvent(fetch, p, i);
      }
      assert IsPath(fetch, Within(all), p) && p[0] in roots;
    }
  }

  /** The second sort keeps exactly the sortable ids, once each. */
  lemma SecondSort(fetch: Store, rest: set<EventId>, state: StateMap, out: seq<EventId>)
    requires Acyclic(fetch) && !MainlineFails(fetch, rest, state) && SortsLeft(fetch, rest, state, out)
    ensures multiset(out) == multiset(SortableRest(fetch, rest, state)) && Ids(out) <= rest
  {
    var kept := SortableRest(fetch, rest, state);
    assert Ids(out) == kept;
    assert forall id :: id in out <==> id in Ids(out);
    forall id
      ensures multiset(out)[id] == multiset(kept)[id]
    {
      OccursOnce(out, id);
    }
  }

  /** The store answers for every auth event of its events. */
  predicate AuthComplete(fetch: Store) {
    forall id | id in fetch :: AuthEdges(fetch, id) <= fetch.Keys
  }

  lemma {:induction false} DepthComputable(fetch: Store, index: map<EventId, nat>, id: EventId)
    requires Acyclic(fetch) && AuthComplete(fetch) && id in fetch
    ensures Depth(fetch, index, id).Ok?
    decreases RankOf(fetch, id)
  {
    FirstPowerAuthFound(fetch, fetch[id].authEvents);
    assert AuthEdges(fetch, id) <= fetch.Keys;
    assert forall a | a in fetch[id].authEvents :: a in AuthEdges(fetch, id);
    var parent := PowerParent(fetch, id);
    if !parent.Found? {
    } else {
      DepthComputable(fetch, index, parent.id);
    }
  }

  lemma {:induction false} FirstPowerAuthFound(fetch: Store, ids: seq<EventId>)
    ensures (forall a | a in ids :: a in fetch) ==> !FirstPowerAuth(fetch, ids).MissingEvent?
  {
    if ids == [] {
    } else {
      FirstPowerAuthFound(fetch, ids[1..]);
    }
  }

  /** With complete auth events no conflicted event is lost: each is judged in exactly one pass. */
  lemma NoConflictedEventLost(version: RoomVersionId, fetch: Store, sets: seq<StateMap>, chains: seq<set<EventId>>,
                              st: Stages, state: StateMap, id: EventId)
    requires Acyclic(fetch) && AuthComplete(fetch) && Resolved(version, fetch, sets, chains, st, state)
    requires Conflicted(fetch, sets, chains, id)
    ensures id in st.control <==> id !in st.left
  {
    ConflictedExactly(fetch, sets, chains);
    var all := AllConflicted(fetch, sets, chains);
    SortedWithin(version, fetch, sets, chains, st, state, id);
    if id !in st.control {
      assert id in LeftIds(all, st.control);
      var index := MainlineIndex(MainlineOf(fetch, ResolvedPower(st.afterControl.value)).value);
      DepthComputable(fetch, index, id);
      assert id in Ids(st.left);
    }
  }

  /** The second pass goes by the mainline of the power levels event that the first pass ends with: by depth
      under it, then by timestamp, then by id. */
  lemma SecondPassOrder(version: RoomVersionId, fetch: Store, sets: seq<StateMap>, chains: seq<set<EventId>>,
                        st: Stages, state: StateMap, i: nat, j: nat)
    requires Acyclic(fetch) && Resolved(version, fetch, sets, chains, st, state) && i < j < |st.left|
    ensures st.afterControl.Ok?
    ensures var power := st.afterControl.value;
            var chain := if (RoomPowerLevels, "") in power then PowerChain(fetch, power[(RoomPowerLevels, "")]) else Ok([]);
            && chain.Ok?
            && var index := MainlineIndex(chain.value);
               && Sortable(fetch, index, st.left[i]) && Sortable(fetch, index, st.left[j])
               && Before(fetch, index, st.left[i], st.left[j])
  {
    var all := AllConflicted(fetch, sets, chains);
    var left := LeftIds(all, st.control);
    assert left != {};
    var index := MainlineIndex(MainlineOf(fetch, ResolvedPower(st.afterControl.value)).value);
    SortedByFields(fetch, index, left, st.left);
    assert st.left[i] in st.left && st.left[j] in st.left;
  }

  /** What a resolution with conflicts fails on, stage by stage; nothing else does. */
  lemma FailsExactly(version: RoomVersionId, fetch: Store, sets: seq<StateMap>, chains: seq<set<EventId>>,
                     st: Stages, r: Result<StateMap>)
    requires Acyclic(fetch) && Resolves(version, fetch, sets, chains, st, r)
    ensures r.Err? <==>
            && (exists k :: k in AllKeys(sets) && k !in CleanState(sets))
            && (|| (exists id :: id in st.graph && PowerForSender(fetch, id).Err?)
                || version.Custom?
                || st.afterControl.Err?
                || (&& (exists id :: Conflicted(fetch, sets, chains, id) && id !in st.control)
                    && (RoomPowerLevels, "") in st.afterControl.value
                    && PowerChain(fetch, st.afterControl.value[(RoomPowerLevels, "")]).Err?)
                || st.afterLeft.Err?)
  {
    if AllKeys(sets) != CleanState(sets).Keys {
      var k :| k in AllKeys(sets) && k !in CleanState(sets);
      if st.afterControl.Ok? {
        MainlineFailsExactly(fetch, sets, chains, st.control, st.afterControl.value);
      }
    }
  }

  lemma MainlineFailsExactly(fetch: Store, sets: seq<StateMap>, chains: seq<set<EventId>>, control: seq<EventId>, state: StateMap)
    requires Acyclic(fetch)
    ensures MainlineFails(fetch, LeftIds(AllConflicted(fetch, sets, chains), control), state) <==>
            && (exists id :: Conflicted(fetch, sets, chains, id) && id !in control)
            && (RoomPowerLevels, "") in state && PowerChain(fetch, state[(RoomPowerLevels, "")]).Err?
  {
    ConflictedExactly(fetch, sets, chains);
    var left := LeftIds(AllConflicted(fetch, sets, chains), control);
    assert forall id :: id in left <==> Conflicted(fetch, sets, chains, id) && id !in control;
  }

  // ---- What the second pass cannot change ----

  /** A step of the second pass accepts no control event. */
  lemma SecondPassEvents(version: RoomVersionId, fetch: Store, sets: seq<StateMap>, chains: seq<set<EventId>>,
                         st: Stages, state: StateMap, i: nat)
    requires Acyclic(fetch) && Resolved(version, fetch, sets, chains, st, state) && i < |st.leftRun|
    ensures st.leftRun[i].id in fetch && !IsPowerEvent(fetch[st.leftRun[i].id])
  {
    var all := AllConflicted(fetch, sets, chains);
    var id := st.leftRun[i].id;
    assert RunIds(st.leftRun)[i] == id && id in st.left;
    SortedWithin(version, fetch, sets, chains, st, state, id);
    ConflictedEventsConserved(version, fetch, sets, chains, st, state);
  }

  predicate ControlKey(k: StateKey) {
    k == POWER_LEVELS_KEY || k == JOIN_RULES_KEY || k == CREATE_KEY
  }

  lemma ControlKeyMeansControl(e: Event)
    requires e.stateKey.Some? && ControlKey(KeyOfEvent(e))
    ensures IsPowerEvent(e)
  {
  }

  /** The second pass leaves the power levels, the join rules and the create event as the first pass
      left them, so the mainline it is sorted by stays that of the resolved power levels. */
  lemma SecondPassKeepsControlState(version: RoomVersionId, fetch: Store, sets: seq<StateMap>, chains: seq<set<EventId>>,
                                    st: Stages, state: StateMap, k: StateKey)
    requires Acyclic(fetch) && Resolved(version, fetch, sets, chains, st, state) && ControlKey(k)
    ensures EntryAt(st.afterLeft.value, k) == EntryAt(st.afterControl.value, k)
  {
    forall i | 0 <= i < |st.leftRun|
      ensures !AcceptsAt(fetch, st.leftRun[i], k)
    {
      SecondPassEvents(version, fetch, sets, chains, st, state, i);
      if AcceptsAt(fetch, st.leftRun[i], k) {
        ControlKeyMeansControl(fetch[st.leftRun[i].id]);
      }
    }
    EntryOrigin(New(version).value, fetch, st.afterControl.value, st.leftRun, k);
  }

  /** And it bans or kicks nobody, except by a member event whose content as a whole does not decode
      although its membership does. */
  lemma SecondPassRemovesNobody(version: RoomVersionId, fetch: Store, sets: seq<StateMap>, chains: seq<set<EventId>>,
                                st: Stages, state: StateMap, i: nat)
    requires Acyclic(fetch) && Resolved(version, fetch, sets, chains, st, state) && i < |st.leftRun|
    requires st.leftRun[i].id in fetch && fetch[st.leftRun[i].id].eventType == RoomMember
    requires fetch[st.leftRun[i].id].stateKey != Some(fetch[st.leftRun[i].id].sender)
    ensures var content := fetch[st.leftRun[i].id].content;
            DecodeMembership(content) in {Some(Leave), Some(Ban)} ==> DecodeMember(content).None?
  {
    SecondPassEvents(version, fetch, sets, chains, st, state, i);
  }
}
