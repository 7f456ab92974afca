/** Two resolutions of the same forks agree, whatever order the forks, their chains and the hash maps
    come in. */
module Convergence {
  import opened Wrappers
  import opened Identifiers
  import opened Events
  import opened RoomVersions
  import opened EventAuth
  import opened AuthFrame
  import opened Ambiguity
  import opened Replay
  import opened StateSets
  import opened AuthChains
  import opened TopologicalSort
  import opened ControlGraph
  import opened Mainline
  import opened StateResolution

  // ---- Convergence ----

  /** No pass that is reached has to choose between third party invites. */
  ghost predicate UnambiguousStages(version: RoomVersionId, fetch: Store, sets: seq<StateMap>, chains: seq<set<EventId>>, st: Stages)
    requires Acyclic(fetch)
  {
    AllKeys(sets) != CleanState(sets).Keys && PowersDecode(fetch, st.graph.Keys) && New(version).Ok? ==>
      && UnambiguousRun(fetch, CleanState(sets), st.control, st.controlRun)
      && (st.afterControl.Ok?
          && !MainlineFails(fetch, LeftIds(AllConflicted(fetch, sets, chains), st.control), st.afterControl.value) ==>
            UnambiguousRun(fetch, st.afterControl.value, st.left, st.leftRun))
  }

  /** The stages that are reached with conflicted events `all`; the others are placeholders. */
  ghost function ReachedFor(version: RoomVersionId, fetch: Store, all: set<EventId>, st: Stages): Stages
    requires Acyclic(fetch)
  {
    if !PowersDecode(fetch, st.graph.Keys) then NO_STAGES.(graph := st.graph)
    else if New(version).Err? then NO_STAGES.(graph := st.graph, control := st.control)
    else if st.afterControl.Err? || MainlineFails(fetch, LeftIds(all, st.control), st.afterControl.value)
    then NO_STAGES.(graph := st.graph, control := st.control, controlRun := st.controlRun, afterControl := st.afterControl)
    else st
  }

  ghost function Reached(version: RoomVersionId, fetch: Store, sets: seq<StateMap>, chains: seq<set<EventId>>, st: Stages): Stages
    requires Acyclic(fetch)
  {
    if AllKeys(sets) == CleanState(sets).Keys then NO_STAGES
    else ReachedFor(version, fetch, AllConflicted(fetch, sets, chains), st)
  }

  lemma FinishConverges(rv: RoomVersion, fetch: Store, all: set<EventId>, clean: StateMap,
                        st: Stages, r: Result<StateMap>, st': Stages, r': Result<StateMap>)
    requires Acyclic(fetch) && st.afterControl.Ok? && st'.afterControl == st.afterControl && st'.control == st.control
    requires FinishesWith(rv, fetch, all, clean, st, r) && FinishesWith(rv, fetch, all, clean, st', r')
    requires !MainlineFails(fetch, LeftIds(all, st.control), st.afterControl.value) ==>
               UnambiguousRun(fetch, st.afterControl.value, st.left, st.leftRun)
    ensures SameOutcome(r, r')
    ensures !MainlineFails(fetch, LeftIds(all, st.control), st.afterControl.value) ==>
              st'.left == st.left && st'.leftRun == st.leftRun && st'.afterLeft == st.afterLeft
  {
    var left, state := LeftIds(all, st.control), st.afterControl.value;
    if !MainlineFails(fetch, left, state) {
      if left != {} {
        var index := MainlineIndex(MainlineOf(fetch, ResolvedPower(state)).value);
        SortedUnique(OrderMap(fetch, index, left), st.left, st'.left);
      }
      ReplaysAgree(rv, fetch, state, st.left, st.leftRun, st.afterLeft, st'.leftRun, st'.afterLeft);
    }
  }

  lemma ConflictsConverge(version: RoomVersionId, fetch: Store, all: set<EventId>, clean: StateMap,
                          st: Stages, r: Result<StateMap>, st': Stages, r': Result<StateMap>)
    requires Acyclic(fetch)
    requires ResolvesConflicts(version, fetch, all, clean, st, r) && ResolvesConflicts(version, fetch, all, clean, st', r')
    requires PowersDecode(fetch, st.graph.Keys) && New(version).Ok? ==>
               && UnambiguousRun(fetch, clean, st.control, st.controlRun)
               && (st.afterControl.Ok? && !MainlineFails(fetch, LeftIds(all, st.control), st.afterControl.value) ==>
                     UnambiguousRun(fetch, st.afterControl.value, st.left, st.leftRun))
    ensures SameOutcome(r, r')
    ensures ReachedFor(version, fetch, all, st') == ReachedFor(version, fetch, all, st)
  {
    ControlGraphUnique(fetch, all, ControlEvents(fetch, all), st.graph, st'.graph);
    if PowersDecode(fetch, st.graph.Keys) {
      GreedyOrderUnique(st.graph, PowerKeys(fetch, st.graph.Keys), st.control, st'.control);
      if New(version).Ok? {
        var rv := New(version).value;
        ReplaysAgree(rv, fetch, clean, st.control, st.controlRun, st.afterControl, st'.controlRun, st'.afterControl);
        if st.afterControl.Ok? {
          FinishConverges(rv, fetch, all, clean, st, r, st', r');
        }
      }
    }
  }

  /** Any two resolutions of the same forked states and auth chains, in any orders, go through the same
      stages and end with the same map or both fail, as long as in one of them the choice between third
      party invites never matters. */
  lemma ResolveConverges(version: RoomVersionId, fetch: Store,
                         sets: seq<StateMap>, chains: seq<set<EventId>>, st: Stages, r: Result<StateMap>,
                         sets': seq<StateMap>, chains': seq<set<EventId>>, st': Stages, r': Result<StateMap>)
    requires Acyclic(fetch)
    requires multiset(sets) == multiset(sets') && multiset(chains) == multiset(chains')
    requires Resolves(version, fetch, sets, chains, st, r) && Resolves(version, fetch, sets', chains', st', r')
    requires UnambiguousStages(version, fetch, sets, chains, st)
    ensures SameOutcome(r, r')
    ensures Reached(version, fetch, sets', chains', st') == Reached(version, fetch, sets, chains, st)
  {
    SeparationPermuted(sets, sets');
    DifferencePermuted(chains, chains');
    var clean, all := CleanState(sets), AllConflicted(fetch, sets, chains);
    assert all == AllConflicted(fetch, sets', chains');
    if AllKeys(sets) != clean.Keys {
      ConflictsConverge(version, fetch, all, clean, st, r, st', r');
    }
  }

  // ---- Exactly when a resolution is determined ----

  /** Whatever the first pass ends with, the second half goes on to some outcome. */
  lemma FinishExists(rv: RoomVersion, fetch: Store, all: set<EventId>, clean: StateMap, st: Stages)
    returns (st': Stages, r: Result<StateMap>)
    requires Acyclic(fetch) && st.afterControl.Ok?
    ensures st' == st.(left := st'.left, leftRun := st'.leftRun, afterLeft := st'.afterLeft)
    ensures FinishesWith(rv, fetch, all, clean, st', r)
  {
    var left, state := LeftIds(all, st.control), st.afterControl.value;
    if MainlineFails(fetch, left, state) {
      st', r := st, Err(NotFound);
    } else {
      var out := SortLeftExists(fetch, left, state);
      var run, after := ReplayGoesOn(rv, fetch, state, out, []);
      st' := st.(left := out, leftRun := run, afterLeft := after);
      r := if after.Err? then Err(after.error) else Ok(after.value + clean);
    }
  }

  lemma SortLeftExists(fetch: Store, left: set<EventId>, state: StateMap) returns (out: seq<EventId>)
    requires Acyclic(fetch) && !MainlineFails(fetch, left, state)
    ensures SortsLeft(fetch, left, state, out)
  {
    if left == {} {
      out := [];
    } else {
      out := SortedExists(OrderMap(fetch, MainlineIndex(MainlineOf(fetch, ResolvedPower(state)).value), left));
    }
  }

  /** Where a choice matters in the first pass, a resolution with another first pass exists. */
  lemma OtherControlRun(version: RoomVersionId, fetch: Store, all: set<EventId>, clean: StateMap, st: Stages, r: Result<StateMap>)
    returns (st': Stages, r': Result<StateMap>)
    requires Acyclic(fetch) && ResolvesConflicts(version, fetch, all, clean, st, r)
    requires PowersDecode(fetch, st.graph.Keys) && New(version).Ok?
    requires !UnambiguousRun(fetch, clean, st.control, st.controlRun)
    ensures ResolvesConflicts(version, fetch, all, clean, st', r')
    ensures st'.graph == st.graph && st'.controlRun != st.controlRun
  {
    var rv := New(version).value;
    var run, after := AnotherReplay(rv, fetch, clean, st.control, st.controlRun, st.afterControl);
    st', r' := st.(controlRun := run, afterControl := after), Err(NotFound);
    if after.Ok? {
      st', r' := FinishExists(rv, fetch, all, clean, st');
    }
  }

  /** And likewise in the second pass. */
  lemma OtherLeftRun(version: RoomVersionId, fetch: Store, all: set<EventId>, clean: StateMap, st: Stages, r: Result<StateMap>)
    returns (st': Stages, r': Result<StateMap>)
    requires Acyclic(fetch) && ResolvesConflicts(version, fetch, all, clean, st, r)
    requires PowersDecode(fetch, st.graph.Keys) && New(version).Ok? && st.afterControl.Ok?
    requires !MainlineFails(fetch, LeftIds(all, st.control), st.afterControl.value)
    requires !UnambiguousRun(fetch, st.afterControl.value, st.left, st.leftRun)
    ensures ResolvesConflicts(version, fetch, all, clean, st', r')
    ensures st' == st.(leftRun := st'.leftRun, afterLeft := st'.afterLeft) && st'.leftRun != st.leftRun
  {
    var rv := New(version).value;
    var run, after := AnotherReplay(rv, fetch, st.afterControl.value, st.left, st.leftRun, st.afterLeft);
    st' := st.(leftRun := run, afterLeft := after);
    r' := if after.Err? then Err(after.error) else Ok(after.value + clean);
  }

  lemma AnotherResolution(version: RoomVersionId, fetch: Store, sets: seq<StateMap>, chains: seq<set<EventId>>,
                          st: Stages, r: Result<StateMap>)
    returns (st': Stages, r': Result<StateMap>)
    requires Acyclic(fetch) && Resolves(version, fetch, sets, chains, st, r)
    requires !UnambiguousStages(version, fetch, sets, chains, st)
    ensures Resolves(version, fetch, sets, chains, st', r')
    ensures Reached(version, fetch, sets, chains, st') != Reached(version, fetch, sets, chains, st)
  {
    var clean, all := CleanState(sets), AllConflicted(fetch, sets, chains);
    if !UnambiguousRun(fetch, clean, st.control, st.controlRun) {
      st', r' := OtherControlRun(version, fetch, all, clean, st, r);
    } else {
      st', r' := OtherLeftRun(version, fetch, all, clean, st, r);
    }
  }

  /** The stages a resolution goes through are the only ones for its inputs if and only if the choice
      between third party invites matters in no judgement along the way. */
  lemma ResolutionDetermined(version: RoomVersionId, fetch: Store, sets: seq<StateMap>, chains: seq<set<EventId>>,
                             st: Stages, r: Result<StateMap>)
    requires Acyclic(fetch) && Resolves(version, fetch, sets, chains, st, r)
    ensures (forall st', r' :: Resolves(version, fetch, sets, chains, st', r') ==>
                                 Reached(version, fetch, sets, chains, st') == Reached(version, fetch, sets, chains, st))
            <==> UnambiguousStages(version, fetch, sets, chains, st)
  {
    if UnambiguousStages(version, fetch, sets, chains, st) {
      forall st', r' | Resolves(version, fetch, sets, chains, st', r')
        ensures Reached(version, fetch, sets, chains, st') == Reached(version, fetch, sets, chains, st)
      {
        ResolveConverges(version, fetch, sets, chains, st, r, sets, chains, st', r');
      }
    } else {
      var st', r' := AnotherResolution(version, fetch, sets, chains, st, r);
    }
  }

  // ---- A condition to check before the call ----

  /** The entries of the state are events of that very type and state key. */
  predicate WellKeyed(fetch: Store, state: StateMap) {
    forall k | k in state && state[k] in fetch :: fetch[state[k]].stateKey.Some? && KeyOfEvent(fetch[state[k]]) == k
  }

  /** An invite with a signed block names no third party invite but the one of its own token. */
  predicate NamesOwnInvite(fetch: Store, id: EventId) {
    id in fetch && CarriesSignedInvite(fetch[id]) ==>
      forall a | a in fetch[id].authEvents && a in fetch && fetch[a].eventType == RoomThirdPartyInvite ::
        fetch[a].stateKey == Some(fetch[id].content.thirdPartyInvite.v.token)
  }

  /** Accepted events are filed at their own keys. */
  lemma {:induction false} WellKeyedStays(rv: RoomVersion, fetch: Store, start: StateMap, run: seq<Step>)
    requires WellKeyed(fetch, start) && IsRun(rv, fetch, start, run)
    ensures WellKeyed(fetch, Final(start, run))
  {
    if run == [] {
    } else {
      WellKeyedStays(rv, fetch, start, run[..|run| - 1]);
    }
  }

  lemma NamedInviteUnambiguous(fetch: Store, state: StateMap, id: EventId)
    requires WellKeyed(fetch, state) && NamesOwnInvite(fetch, id)
    ensures !ChoiceMatters(fetch, state, id)
  {
    if id in fetch && CarriesSignedInvite(fetch[id]) && Gather(fetch, state, fetch[id]).Ok? {
      var e := fetch[id];
      var auth := Gather(fetch, state, e).value;
      OwnAuthKeyed(fetch, e.authEvents);
      forall k | k in auth && auth[k].eventType == RoomThirdPartyInvite
        ensures k == (RoomThirdPartyInvite, e.content.thirdPartyInvite.v.token)
      {
        if k !in StateAuth(fetch, state, AuthTypes(e.eventType, e.sender, e.stateKey, e.content)) {
          var a :| a in e.authEvents && a in fetch && fetch[a] == auth[k];
          assert fetch[a].stateKey == Some(e.content.thirdPartyInvite.v.token);
        }
      }
    }
  }

  lemma NamedRunUnambiguous(rv: RoomVersion, fetch: Store, start: StateMap, ids: seq<EventId>, run: seq<Step>)
    requires WellKeyed(fetch, start) && IsRun(rv, fetch, start, run)
    requires forall id | id in ids :: NamesOwnInvite(fetch, id)
    ensures UnambiguousRun(fetch, start, ids, run)
  {
    forall i | 0 <= i <= |run| && i < |ids|
      ensures !ChoiceMatters(fetch, Final(start, run[..i]), ids[i])
    {
      if i < |run| {
        StepOf(rv, fetch, start, run, i);
      } else {
        assert run[..i] == run;
      }
      WellKeyedStays(rv, fetch, start, run[..i]);
      NamedInviteUnambiguous(fetch, Final(start, run[..i]), ids[i]);
    }
  }

  /** Convergence under a condition on the inputs alone: the clean entries are events of their own
      keys, and no fetchable invite names somebody else's third party invite. */
  lemma ResolveConvergesForNamedInvites(version: RoomVersionId, fetch: Store,
                                        sets: seq<StateMap>, chains: seq<set<EventId>>, r: Result<StateMap>,
                                        sets': seq<StateMap>, chains': seq<set<EventId>>, r': Result<StateMap>)
    requires Acyclic(fetch)
    requires multiset(sets) == multiset(sets') && multiset(chains) == multiset(chains')
    requires ResolveOutcome(version, fetch, sets, chains, r) && ResolveOutcome(version, fetch, sets', chains', r')
    requires WellKeyed(fetch, CleanState(sets)) && forall id :: NamesOwnInvite(fetch, id)
    ensures SameOutcome(r, r')
  {
    var st, st' :| Resolves(version, fetch, sets, chains, st, r) && Resolves(version, fetch, sets', chains', st', r');
    if AllKeys(sets) != CleanState(sets).Keys && PowersDecode(fetch, st.graph.Keys) && New(version).Ok? {
      NamedStagesUnambiguous(version, fetch, sets, chains, st, r);
    }
    ResolveConverges(version, fetch, sets, chains, st, r, sets', chains', st', r');
  }

  lemma NamedStagesUnambiguous(version: RoomVersionId, fetch: Store, sets: seq<StateMap>, chains: seq<set<EventId>>,
                               st: Stages, r: Result<StateMap>)
    requires Acyclic(fetch) && Resolves(version, fetch, sets, chains, st, r)
    requires AllKeys(sets) != CleanState(sets).Keys && PowersDecode(fetch, st.graph.Keys) && New(version).Ok?
    requires WellKeyed(fetch, CleanState(sets)) && forall id :: NamesOwnInvite(fetch, id)
    ensures UnambiguousStages(version, fetch, sets, chains, st)
  {
    var rv, clean := New(version).value, CleanState(sets);
    NamedRunUnambiguous(rv, fetch, clean, st.control, st.controlRun);
    if st.afterControl.Ok? {
      WellKeyedStays(rv, fetch, clean, st.controlRun);
      if !MainlineFails(fetch, LeftIds(AllConflicted(fetch, sets, chains), st.control), st.afterControl.value) {
        NamedRunUnambiguous(rv, fetch, st.afterControl.value, st.left, st.leftRun);
      }
    }
  }
}
