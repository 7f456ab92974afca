/** Splitting forked states into clean and conflicting keys. */
module StateSets {
  import opened Wrappers
  import opened Identifiers
  import opened Events
  import opened Replay

  function AllKeys(sets: seq<StateMap>): set<StateKey> {
    set i, k | 0 <= i < |sets| && k in sets[i] :: k
  }

  /** Every state maps the key, all to one event. */
  predicate IsClean(sets: seq<StateMap>, k: StateKey) {
    && sets != [] && k in sets[|sets| - 1]
    && forall i | 0 <= i < |sets| :: k in sets[i] && sets[i][k] == sets[|sets| - 1][k]
  }

  /** The ids the states hold at a key, state by state. */
  function Present(sets: seq<StateMap>, k: StateKey): seq<EventId> {
    if sets == [] then []
    else
      var last := |sets| - 1;
      Present(sets[..last], k) + if k in sets[last] then [sets[last][k]] else []
  }

  /** The entries that all states agree on. */
  function CleanState(sets: seq<StateMap>): StateMap {
    map k | k in AllKeys(sets) && IsClean(sets, k) :: sets[|sets| - 1][k]
  }

  /** An entry is clean exactly when there are states and all of them have it. */
  lemma CleanExactly(sets: seq<StateMap>, k: StateKey, id: EventId)
    ensures k in CleanState(sets) && CleanState(sets)[k] == id <==>
            sets != [] && forall i | 0 <= i < |sets| :: k in sets[i] && sets[i][k] == id
    ensures k in AllKeys(sets) <==> exists i :: 0 <= i < |sets| && k in sets[i]
  {
    if sets != [] && forall i | 0 <= i < |sets| :: k in sets[i] && sets[i][k] == id {
      assert k in sets[0] && 0 < |sets|;
    }
  }

  /** The ids some state holds at a key that is not clean. */
  function ConflictingIds(sets: seq<StateMap>): set<EventId> {
    set i, k | 0 <= i < |sets| && k in sets[i] && !IsClean(sets, k) :: sets[i][k]
  }

  lemma {:induction false} PresentMembers(sets: seq<StateMap>, k: StateKey, id: EventId)
    ensures id in Present(sets, k) <==> exists i :: 0 <= i < |sets| && k in sets[i] && sets[i][k] == id
  {
    if sets == [] {
    } else {
      var last := |sets| - 1;
      PresentMembers(sets[..last], k, id);
      if id in Present(sets[..last], k) {
        var i :| 0 <= i < last && k in sets[..last][i] && sets[..last][i][k] == id;
        assert sets[i] == sets[..last][i];
      }
      if i :| 0 <= i < last && k in sets[i] && sets[i][k] == id {
        assert sets[..last][i] == sets[i];
      }
    }
  }

  /** The states that map the key to the event. */
  function Holders(sets: seq<StateMap>, k: StateKey, id: EventId): set<nat> {
    set i: nat | 0 <= i < |sets| && k in sets[i] && sets[i][k] == id
  }

  /** The id is listed once for every state that maps the key to it. */
  lemma {:induction false} PresentCount(sets: seq<StateMap>, k: StateKey, id: EventId)
    ensures multiset(Present(sets, k))[id] == |Holders(sets, k, id)|
  {
    if sets == [] {
      assert Holders(sets, k, id) == {};
    } else {
      var last := |sets| - 1;
      PresentCount(sets[..last], k, id);
      HoldersOfLast(sets, k, id);
      CountOfSum(Present(sets[..last], k), if k in sets[last] then [sets[last][k]] else [], id);
    }
  }

  lemma CountOfSum(a: seq<EventId>, b: seq<EventId>, id: EventId)
    requires |b| <= 1
    ensures multiset(a + b)[id] == multiset(a)[id] + if b == [id] then 1 else 0
  {
    assert |b| == 1 ==> b == [b[0]];
  }

  lemma HoldersOfLast(sets: seq<StateMap>, k: StateKey, id: EventId)
    requires sets != []
    ensures var last := |sets| - 1;
            |Holders(sets, k, id)| ==
            |Holders(sets[..last], k, id)| + if k in sets[last] && sets[last][k] == id then 1 else 0
  {
    var last := |sets| - 1;
    var before := Holders(sets[..last], k, id);
    assert forall i | 0 <= i < last :: sets[..last][i] == sets[i];
    assert last !in before;
    assert Holders(sets, k, id) == before + if k in sets[last] && sets[last][k] == id then {last} else {};
  }

  /** `separate`. The keys are walked in any order; each key's entries are collected, compared, and
      filed as clean or conflicting. */
  method Separate(sets: seq<StateMap>) returns (clean: StateMap, conflicting: map<StateKey, seq<EventId>>)
    ensures clean == CleanState(sets)
    ensures clean.Keys + conflicting.Keys == AllKeys(sets) && clean.Keys !! conflicting.Keys
    ensures forall k | k in conflicting :: !IsClean(sets, k) && conflicting[k] == Present(sets, k)
  {
    clean, conflicting := map[], map[];
    ghost var done: set<StateKey> := {};
    var rest := AllKeys(sets);
    while rest != {}
      invariant done !! rest && done + rest == AllKeys(sets)
      invariant clean.Keys + conflicting.Keys == done && clean.Keys !! conflicting.Keys
      invariant forall k | k in clean :: IsClean(sets, k) && clean[k] == sets[|sets| - 1][k]
      invariant forall k | k in conflicting :: !IsClean(sets, k) && conflicting[k] == Present(sets, k)
    {
      var k :| k in rest;
      var equal, ids := Collect(sets, k);
      if equal {
        assert ids[|ids| - 1].Some?;  // the source's `expect`
        clean := clean[k := ids[|ids| - 1].value];
      } else {
        var values := FilterSome(ids);
        PresentIsSome(sets, k);
        assert ids == EntriesAt(sets, k);
        conflicting := conflicting[k := values];
      }
      rest, done := rest - {k}, done + {k};
    }
  }

  function EntryAt(m: StateMap, k: StateKey): Option<EventId> {
    if k in m then Some(m[k]) else None
  }

  function EntriesAt(sets: seq<StateMap>, k: StateKey): seq<Option<EventId>> {
    seq(|sets|, i requires 0 <= i < |sets| => EntryAt(sets[i], k))
  }

  function SomeValues(ids: seq<Option<EventId>>): seq<EventId> {
    if ids == [] then []
    else
      var last := |ids| - 1;
      SomeValues(ids[..last]) + if ids[last].Some? then [ids[last].value] else []
  }

  lemma {:induction false} PresentIsSome(sets: seq<StateMap>, k: StateKey)
    ensures Present(sets, k) == SomeValues(EntriesAt(sets, k))
  {
    if sets == [] {
    } else {
      var last := |sets| - 1;
      PresentIsSome(sets[..last], k);
      assert EntriesAt(sets, k)[..last] == EntriesAt(sets[..last], k);
    }
  }

  /** `state_sets.map(|s| s.get(key))` and `all_equal`. */
  method Collect(sets: seq<StateMap>, k: StateKey) returns (equal: bool, ids: seq<Option<EventId>>)
    requires k in AllKeys(sets)
    ensures ids == EntriesAt(sets, k)
    ensures equal <==> IsClean(sets, k)
  {
    ids := EntriesAt(sets, k);
    var i := 0;
    while i < |ids| && ids[i] == ids[0]
      invariant i <= |ids|
      invariant forall j | 0 <= j < i :: ids[j] == ids[0]
    {
      i := i + 1;
    }
    equal := i == |ids|;
    assert forall j | 0 <= j < |ids| :: ids[j] == EntryAt(sets[j], k);
    ghost var holder :| 0 <= holder < |sets| && k in sets[holder];
    if equal {
      assert ids[holder] == ids[0] && ids[|ids| - 1] == ids[0];
    } else {
      assert EntryAt(sets[i], k) != EntryAt(sets[0], k);
    }
  }

  /** `filter_map(|o| o.cloned())`. */
  method FilterSome(ids: seq<Option<EventId>>) returns (values: seq<EventId>)
    ensures values == SomeValues(ids)
  {
    values := [];
    for i := 0 to |ids|
      invariant values == SomeValues(ids[..i])
    {
      assert ids[..i + 1][..i] == ids[..i];
      if ids[i].Some? {
        values := values + [ids[i].value];
      }
    }
    assert ids[..|ids|] == ids;
  }

  // ---- The order of the states does not matter ----

  lemma SameMembers<T>(a: seq<T>, b: seq<T>, i: nat) returns (j: nat)
    requires multiset(a) == multiset(b) && i < |a|
    ensures j < |b| && b[j] == a[i]
  {
    assert a[i] in multiset(a);
    assert a[i] in b;
    j :| 0 <= j < |b| && b[j] == a[i];
  }

  lemma CleanPermuted(a: seq<StateMap>, b: seq<StateMap>, k: StateKey)
    requires multiset(a) == multiset(b) && IsClean(a, k)
    ensures IsClean(b, k) && b[|b| - 1][k] == a[|a| - 1][k]
  {
    var j := SameMembers(a, b, 0);
    forall i | 0 <= i < |b|
      ensures k in b[i] && b[i][k] == a[|a| - 1][k]
    {
      var j := SameMembers(b, a, i);
    }
  }

  /** Any order of the forked states gives the same clean state and the same conflicting ids. */
  lemma SeparationPermuted(a: seq<StateMap>, b: seq<StateMap>)
    requires multiset(a) == multiset(b)
    ensures CleanState(a) == CleanState(b)
    ensures ConflictingIds(a) == ConflictingIds(b)
    ensures AllKeys(a) == AllKeys(b)
  {
    SeparationWithin(a, b);
    SeparationWithin(b, a);
    forall k | k in CleanState(a)
      ensures k in CleanState(b) && CleanState(a)[k] == CleanState(b)[k]
    {
      CleanPermuted(a, b, k);
    }
    assert CleanState(a).Keys == CleanState(b).Keys by {
      forall k | k in CleanState(b)
        ensures k in CleanState(a)
      {
        CleanPermuted(b, a, k);
      }
    }
  }

  lemma SeparationWithin(a: seq<StateMap>, b: seq<StateMap>)
    requires multiset(a) == multiset(b)
    ensures AllKeys(a) <= AllKeys(b) && ConflictingIds(a) <= ConflictingIds(b)
  {
    forall k | k in AllKeys(a)
      ensures k in AllKeys(b)
    {
      var i :| 0 <= i < |a| && k in a[i];
      var j := SameMembers(a, b, i);
    }
    forall id | id in ConflictingIds(a)
      ensures id in ConflictingIds(b)
    {
      var i, k :| 0 <= i < |a| && k in a[i] && !IsClean(a, k) && a[i][k] == id;
      var j := SameMembers(a, b, i);
      if IsClean(b, k) {
        CleanPermuted(b, a, k);
      }
    }
  }
}
