/** Sorting by distance to the mainline of power levels events.

    Depths are indices counted from the oldest mainline event, which has depth 0; an event without a
    mainline ancestor also has depth 0. */
module Mainline {
  import opened Wrappers
  import opened Identifiers
  import opened Events
  import opened AuthChains

  // ---- Acyclic auth events ----

  ghost predicate Ranks(fetch: Store, rank: map<EventId, nat>) {
    && fetch.Keys <= rank.Keys
    && forall id, a | id in fetch && a in fetch && a in AuthEdges(fetch, id) :: rank[a] < rank[id]
  }

  /** No event is among its own auth ancestors. */
  ghost predicate Acyclic(fetch: Store) {
    exists rank :: Ranks(fetch, rank)
  }

  ghost function RankOf(fetch: Store, id: EventId): nat
    requires Acyclic(fetch)
  {
    var rank :| Ranks(fetch, rank);
    if id in rank then rank[id] else 0
  }

  lemma RankDecreases(fetch: Store, id: EventId, a: EventId)
    requires Acyclic(fetch) && id in fetch && a in fetch && a in AuthEdges(fetch, id)
    ensures RankOf(fetch, a) < RankOf(fetch, id)
  {
  }

  // ---- The chain of power levels events ----

  datatype PowerAuth = MissingEvent | NoPowerLevels | Found(id: EventId)

  /** The first power levels event among the auth events; one that cannot be fetched before it is an
      error. */
  function FirstPowerAuth(fetch: Store, ids: seq<EventId>): (r: PowerAuth)
    ensures r.Found? ==> r.id in fetch && r.id in ids && IsTypeAndKey(fetch[r.id], RoomPowerLevels, "")
  {
    if ids == [] then NoPowerLevels
    else if ids[0] !in fetch then MissingEvent
    else if IsTypeAndKey(fetch[ids[0]], RoomPowerLevels, "") then Found(ids[0])
    else FirstPowerAuth(fetch, ids[1..])
  }

  /** The power levels event `id` was sent under. */
  function PowerParent(fetch: Store, id: EventId): (r: PowerAuth)
    requires Acyclic(fetch)
    ensures r.Found? ==> id in fetch && r.id in fetch && RankOf(fetch, r.id) < RankOf(fetch, id)
  {
    if id !in fetch then MissingEvent
    else
      var r := FirstPowerAuth(fetch, fetch[id].authEvents);
      if r.Found? then RankDecreases(fetch, id, r.id); r else r
  }

  /** `id` and the power levels events before it, newest first. */
  function PowerChain(fetch: Store, id: EventId): Result<seq<EventId>>
    requires Acyclic(fetch)
    decreases RankOf(fetch, id)
  {
    match PowerParent(fetch, id)
    case MissingEvent => Err(NotFound)
    case NoPowerLevels => Ok([id])
    case Found(a) =>
      var rest :- PowerChain(fetch, a);
      Ok([id] + rest)
  }

  function MainlineOf(fetch: Store, power: Option<EventId>): Result<seq<EventId>>
    requires Acyclic(fetch)
  {
    if power.None? then Ok([]) else PowerChain(fetch, power.value)
  }

  /** `mainline.iter().rev().enumerate()` collected into a map. */
  function MainlineIndex(mainline: seq<EventId>): (index: map<EventId, nat>)
    ensures forall id :: id in index <==> id in mainline
  {
    if mainline == [] then map[] else MainlineIndex(mainline[1..])[mainline[0] := |mainline| - 1]
  }

  /** Consecutive entries are power parents, and the chain is distinct because ranks go down. */
  lemma {:induction false} PowerChainLinks(fetch: Store, id: EventId)
    requires Acyclic(fetch) && PowerChain(fetch, id).Ok?
    ensures var chain := PowerChain(fetch, id).value;
            && chain != [] && chain[0] == id
            && (forall i | 0 <= i < |chain| :: chain[i] in fetch && RankOf(fetch, chain[i]) <= RankOf(fetch, id))
            && (forall i | 0 < i < |chain| :: RankOf(fetch, chain[i]) < RankOf(fetch, id))
            && (forall i | 0 <= i < |chain| - 1 :: PowerParent(fetch, chain[i]) == Found(chain[i + 1]))
            && PowerParent(fetch, chain[|chain| - 1]) == NoPowerLevels
            && (forall i, j | 0 <= i < j < |chain| :: chain[i] != chain[j])
    decreases RankOf(fetch, id)
  {
    var parent := PowerParent(fetch, id);
    if !parent.Found? {
    } else {
      PowerChainLinks(fetch, parent.id);
      var chain, rest := PowerChain(fetch, id).value, PowerChain(fetch, parent.id).value;
      assert forall i | 0 < i < |chain| :: chain[i] == rest[i - 1];
    }
  }

  /** The oldest entry has index 0 and the resolved power levels event the highest. */
  lemma {:induction false} IndexCountsFromOldest(mainline: seq<EventId>, i: nat)
    requires forall j, k | 0 <= j < k < |mainline| :: mainline[j] != mainline[k]
    requires i < |mainline|
    ensures mainline[i] in MainlineIndex(mainline) && MainlineIndex(mainline)[mainline[i]] == |mainline| - 1 - i
  {
    if i == 0 {
    } else {
      var rest := mainline[1..];
      assert forall j | 0 <= j < |rest| :: rest[j] == mainline[j + 1];
      IndexCountsFromOldest(rest, i - 1);
      assert mainline[i] == rest[i - 1] && mainline[i] != mainline[0];
    }
  }

  // ---- Depths ----

  /** `get_mainline_depth`: the index of the closest mainline event among the event and the power
      levels events before it; 0 without one. */
  function Depth(fetch: Store, index: map<EventId, nat>, id: EventId): Result<nat>
    requires Acyclic(fetch) && id in fetch
    decreases RankOf(fetch, id)
  {
    if fetch[id].id in index then Ok(index[fetch[id].id])
    else
      match PowerParent(fetch, id)
      case MissingEvent => Err(NotFound)
      case NoPowerLevels => Ok(0)
      case Found(a) => Depth(fetch, index, a)
  }

  /** The first entry of `chain` on the mainline decides. */
  function ClosestIndex(index: map<EventId, nat>, chain: seq<EventId>): nat {
    if chain == [] then 0
    else if chain[0] in index then index[chain[0]]
    else ClosestIndex(index, chain[1..])
  }

  /** The depth is the index of the closest mainline event on the event's own power chain. */
  lemma {:induction false} DepthIsClosest(fetch: Store, index: map<EventId, nat>, id: EventId)
    requires Acyclic(fetch) && Consistent(fetch) && id in fetch && PowerChain(fetch, id).Ok?
    ensures Depth(fetch, index, id) == Ok(ClosestIndex(index, PowerChain(fetch, id).value))
    decreases RankOf(fetch, id)
  {
    var chain := PowerChain(fetch, id).value;
    var parent := PowerParent(fetch, id);
    if id in index || !parent.Found? {
    } else {
      DepthIsClosest(fetch, index, parent.id);
      assert chain[1..] == PowerChain(fetch, parent.id).value;
    }
  }

  /** Going from an event to the power levels event it was sent under never increases the depth. */
  lemma DepthNeverIncreases(fetch: Store, power: Option<EventId>, id: EventId)
    requires Acyclic(fetch) && Consistent(fetch) && id in fetch
    requires MainlineOf(fetch, power).Ok? && PowerParent(fetch, id).Found?
    requires Depth(fetch, MainlineIndex(MainlineOf(fetch, power).value), id).Ok?
    ensures var index := MainlineIndex(MainlineOf(fetch, power).value);
            var parent := Depth(fetch, index, PowerParent(fetch, id).id);
            parent.Ok? && parent.value <= Depth(fetch, index, id).value
  {
    var mainline := MainlineOf(fetch, power).value;
    if id in mainline {
      PowerChainLinks(fetch, power.value);
      var i :| 0 <= i < |mainline| && mainline[i] == id;
      IndexCountsFromOldest(mainline, i);
      IndexCountsFromOldest(mainline, i + 1);
    }
  }

  // ---- The sorted order ----

  function KeyAt(fetch: Store, index: map<EventId, nat>, id: EventId): SortKey
    requires Acyclic(fetch) && id in fetch && Depth(fetch, index, id).Ok?
  {
    SortKey(Depth(fetch, index, id).value, fetch[id].ts, id)
  }

  /** An id the sort keeps: it can be fetched and its depth computed. */
  predicate Sortable(fetch: Store, index: map<EventId, nat>, id: EventId)
    requires Acyclic(fetch)
  {
    id in fetch && Depth(fetch, index, id).Ok?
  }

  /** What the ids are sorted by; ids whose depth cannot be computed are dropped. */
  function OrderMap(fetch: Store, index: map<EventId, nat>, ids: set<EventId>): map<EventId, SortKey>
    requires Acyclic(fetch)
  {
    map id | id in ids && Sortable(fetch, index, id) :: KeyAt(fetch, index, id)
  }

  ghost predicate SortedBy(order: map<EventId, SortKey>, out: seq<EventId>) {
    && (forall i | 0 <= i < |out| :: out[i] in order)
    && (forall i, j | 0 <= i < j < |out| :: KeyLess(order[out[i]], order[out[j]]))
  }

  /** Exactly the sortable ids of `ids`, strictly sorted by depth, timestamp and id. */
  ghost predicate MainlineOrder(fetch: Store, index: map<EventId, nat>, ids: set<EventId>, out: seq<EventId>)
    requires Acyclic(fetch)
  {
    SortedBy(OrderMap(fetch, index, ids), out) && Ids(out) == OrderMap(fetch, index, ids).Keys
  }

  /** There is only one strictly sorted arrangement, whatever order the hash map comes in. */
  lemma {:induction false} SortedUnique(order: map<EventId, SortKey>, a: seq<EventId>, b: seq<EventId>)
    requires SortedBy(order, a) && SortedBy(order, b) && Ids(a) == Ids(b)
    ensures a == b
    decreases |a|
  {
    if a == [] {
      NoIds(b);
    } else {
      NoIds(a);
      NoIds(b);
      var i, j := |a| - 1, |b| - 1;
      LastIsGreatest(order, a, b[j]);
      LastIsGreatest(order, b, a[i]);
      if a[i] != b[j] {
        KeyAntisymmetric(order[a[i]], order[b[j]]);
      }
      DropLast(order, a);
      DropLast(order, b);
      SortedUnique(order, a[..i], b[..j]);
    }
  }

  /** There is such an arrangement of any keys that hold their ids. */
  lemma {:induction false} SortedExists(order: map<EventId, SortKey>) returns (out: seq<EventId>)
    requires forall id | id in order :: order[id].id == id
    ensures SortedBy(order, out) && Ids(out) == order.Keys
    decreases |order|
  {
    if order == map[] {
      out := [];
    } else {
      var id :| id in order;
      var ties := set i | i in order :: order[i];
      assert order[id] in ties;
      var least := LeastKey(ties);
      var rest := SortedExists(order - {least.id});
      out := [least.id] + rest;
      PrependLeast(order, least.id, rest);
    }
  }

  lemma PrependLeast(order: map<EventId, SortKey>, first: EventId, rest: seq<EventId>)
    requires first in order && (forall id | id in order :: order[id].id == id && KeyLeq(order[first], order[id]))
    requires SortedBy(order - {first}, rest) && Ids(rest) == (order - {first}).Keys
    ensures SortedBy(order, [first] + rest) && Ids([first] + rest) == order.Keys
  {
    var out := [first] + rest;
    forall i | 0 <= i < |rest|
      ensures rest[i] in order && KeyLess(order[first], order[rest[i]])
    {
      assert rest[i] in Ids(rest);
    }
    IdsAppend([first], rest);
    assert Ids([first]) == {first};
  }

  lemma LastIsGreatest(order: map<EventId, SortKey>, out: seq<EventId>, id: EventId)
    requires SortedBy(order, out) && id in Ids(out)
    ensures out != [] && (id == out[|out| - 1] || KeyLess(order[id], order[out[|out| - 1]]))
  {
    var i :| 0 <= i < |out| && out[i] == id;
  }

  lemma DropLast(order: map<EventId, SortKey>, out: seq<EventId>)
    requires SortedBy(order, out) && out != []
    ensures SortedBy(order, out[..|out| - 1]) && Ids(out[..|out| - 1]) == Ids(out) - {out[|out| - 1]}
    ensures out == out[..|out| - 1] + [out[|out| - 1]]
  {
    var last := |out| - 1;
    assert forall i | 0 <= i < last :: out[i] != out[last];
    assert forall i | 0 <= i < last :: out[..last][i] == out[i];
    assert out == out[..last] + [out[last]];
    IdsAppend(out[..last], [out[last]]);
  }

  /** `a` stands before `b` by depth, then by timestamp, then by id. */
  ghost predicate Before(fetch: Store, index: map<EventId, nat>, a: EventId, b: EventId)
    requires Acyclic(fetch) && Sortable(fetch, index, a) && Sortable(fetch, index, b)
  {
    var da, db := Depth(fetch, index, a).value, Depth(fetch, index, b).value;
    || da < db
    || (da == db && fetch[a].ts < fetch[b].ts)
    || (da == db && fetch[a].ts == fetch[b].ts && LexLess(a, b))
  }

  /** The output holds exactly the ids that can be fetched and whose depth can be computed: those nearer to
      the oldest mainline event first, then the older ones, then by id. */
  lemma SortedByFields(fetch: Store, index: map<EventId, nat>, ids: set<EventId>, out: seq<EventId>)
    requires Acyclic(fetch) && MainlineOrder(fetch, index, ids, out)
    ensures forall id :: id in out <==> id in ids && id in fetch && Depth(fetch, index, id).Ok?
    ensures forall i, j | 0 <= i < j < |out| :: Before(fetch, index, out[i], out[j])
  {
    var order := OrderMap(fetch, index, ids);
    assert forall id :: id in out <==> id in Ids(out);
    forall i, j | 0 <= i < j < |out|
      ensures Before(fetch, index, out[i], out[j])
    {
      assert KeyLess(order[out[i]], order[out[j]]);
      LexByDifference(out[i], out[j]);
    }
  }

  // ---- The chain walks by index ----

  /** The auth event at `i` is the first power levels event, and all before it can be fetched. */
  predicate IsFirstPowerAuth(fetch: Store, ids: seq<EventId>, i: int) {
    && 0 <= i < |ids| && (forall j | 0 <= j <= i :: ids[j] in fetch)
    && fetch[ids[i]].eventType == RoomPowerLevels && fetch[ids[i]].stateKey == Some("")
    && forall j | 0 <= j < i :: !(fetch[ids[j]].eventType == RoomPowerLevels && fetch[ids[j]].stateKey == Some(""))
  }

  /** The auth events are looked at in order up to the first power levels event; one that cannot be fetched
      on the way is an error. */
  lemma {:induction false} FirstPowerAuthByIndex(fetch: Store, ids: seq<EventId>)
    ensures forall id :: FirstPowerAuth(fetch, ids) == Found(id) <==>
                         exists i :: IsFirstPowerAuth(fetch, ids, i) && ids[i] == id
    ensures FirstPowerAuth(fetch, ids) == NoPowerLevels <==>
            forall id | id in ids :: id in fetch && !(fetch[id].eventType == RoomPowerLevels && fetch[id].stateKey == Some(""))
  {
    if ids == [] {
    } else if ids[0] !in fetch || IsTypeAndKey(fetch[ids[0]], RoomPowerLevels, "") {
      assert ids[0] in fetch ==> IsFirstPowerAuth(fetch, ids, 0);
      assert ids[0] in ids;
    } else {
      var rest := ids[1..];
      FirstPowerAuthByIndex(fetch, rest);
      assert forall j | 0 <= j < |rest| :: rest[j] == ids[j + 1];
      assert ids == [ids[0]] + rest;
      forall i | IsFirstPowerAuth(fetch, rest, i)
        ensures IsFirstPowerAuth(fetch, ids, i + 1) && ids[i + 1] == rest[i]
      {
        assert forall j | 0 < j <= i + 1 :: ids[j] == rest[j - 1];
      }
      forall i | IsFirstPowerAuth(fetch, ids, i)
        ensures i > 0 && IsFirstPowerAuth(fetch, rest, i - 1) && ids[i] == rest[i - 1]
      {
        assert i > 0;
        assert forall j | 0 <= j <= i - 1 :: rest[j] == ids[j + 1] && ids[j + 1] in fetch;
      }
    }
  }

  /** A walk from event to power levels event that has met no mainline event before its last. */
  ghost predicate IsWalk(fetch: Store, index: map<EventId, nat>, p: seq<EventId>)
    requires Acyclic(fetch)
  {
    && p != [] && (forall i | 0 <= i < |p| :: p[i] in fetch)
    && forall i | 0 <= i < |p| - 1 :: p[i] !in index && PowerParent(fetch, p[i]) == Found(p[i + 1])
  }

  /** Where a walk ends with depth `d`: at a mainline event, or with depth 0 where no power levels event
      comes before. */
  ghost predicate EndsWith(fetch: Store, index: map<EventId, nat>, id: EventId, d: nat)
    requires Acyclic(fetch)
  {
    if id in index then d == index[id] else d == 0 && PowerParent(fetch, id) == NoPowerLevels
  }

  lemma WalkFrom(fetch: Store, index: map<EventId, nat>, id: EventId, p: seq<EventId>)
    requires Acyclic(fetch) && IsWalk(fetch, index, p) && id in fetch && id !in index
    requires PowerParent(fetch, id) == Found(p[0])
    ensures IsWalk(fetch, index, [id] + p) && ([id] + p)[0] == id
  {
    var q := [id] + p;
    assert forall i | 0 < i < |q| :: q[i] == p[i - 1];
  }

  lemma WalkOn(fetch: Store, index: map<EventId, nat>, q: seq<EventId>)
    requires Acyclic(fetch) && IsWalk(fetch, index, q) && |q| > 1
    ensures IsWalk(fetch, index, q[1..]) && PowerParent(fetch, q[0]) == Found(q[1..][0])
  {
    var p := q[1..];
    assert forall i | 0 <= i < |p| :: p[i] == q[i + 1];
    assert PowerParent(fetch, q[0]) == Found(q[0 + 1]);
  }

  lemma {:induction false} DepthHasWalk(fetch: Store, index: map<EventId, nat>, id: EventId) returns (p: seq<EventId>)
    requires Acyclic(fetch) && Consistent(fetch) && id in fetch && Depth(fetch, index, id).Ok?
    ensures IsWalk(fetch, index, p) && p[0] == id && EndsWith(fetch, index, p[|p| - 1], Depth(fetch, index, id).value)
    decreases RankOf(fetch, id)
  {
    var parent := PowerParent(fetch, id);
    if id in index || !parent.Found? {
      p := [id];
    } else {
      var rest := DepthHasWalk(fetch, index, parent.id);
      WalkFrom(fetch, index, id, rest);
      p := [id] + rest;
    }
  }

  lemma {:induction false} WalkGivesDepth(fetch: Store, index: map<EventId, nat>, p: seq<EventId>, d: nat)
    requires Acyclic(fetch) && Consistent(fetch) && IsWalk(fetch, index, p) && EndsWith(fetch, index, p[|p| - 1], d)
    ensures Depth(fetch, index, p[0]) == Ok(d)
    decreases |p|
  {
    if |p| == 1 {
    } else {
      WalkOn(fetch, index, p);
      WalkGivesDepth(fetch, index, p[1..], d);
      assert p[0] !in index && PowerParent(fetch, p[0]) == Found(p[0 + 1]);
    }
  }

  /** The depth of an event is where the walk from it ends; it has none exactly when no walk ends. */
  lemma DepthByWalk(fetch: Store, index: map<EventId, nat>, id: EventId, d: nat)
    requires Acyclic(fetch) && Consistent(fetch) && id in fetch
    ensures Depth(fetch, index, id) == Ok(d) <==>
            exists p :: IsWalk(fetch, index, p) && p[0] == id && EndsWith(fetch, index, p[|p| - 1], d)
  {
    if Depth(fetch, index, id) == Ok(d) {
      var p := DepthHasWalk(fetch, index, id);
    }
    if p :| IsWalk(fetch, index, p) && p[0] == id && EndsWith(fetch, index, p[|p| - 1], d) {
      WalkGivesDepth(fetch, index, p, d);
    }
  }

  // ---- The loops ----

  /** The loop over the auth events. */
  method FindPowerAuth(fetch: Store, ids: seq<EventId>) returns (r: PowerAuth)
    ensures r == FirstPowerAuth(fetch, ids)
  {
    var i := 0;
    while i < |ids|
      invariant i <= |ids|
      invariant FirstPowerAuth(fetch, ids) == FirstPowerAuth(fetch, ids[i..])
    {
      assert ids[i..][1..] == ids[i + 1..];
      if ids[i] !in fetch {
        return MissingEvent;
      }
      if IsTypeAndKey(fetch[ids[i]], RoomPowerLevels, "") {
        return Found(ids[i]);
      }
      i := i + 1;
    }
    return NoPowerLevels;
  }

  /** The first loop of `mainline_sort`; with acyclic auth events it ends. */
  method WalkMainline(fetch: Store, power: Option<EventId>) returns (r: Result<seq<EventId>>)
    requires Acyclic(fetch)
    ensures r == MainlineOf(fetch, power)
  {
    var mainline: seq<EventId> := [];
    var pl := power;
    EmptyFront(MainlineOf(fetch, pl));
    while pl.Some?
      invariant Prepended(mainline, MainlineOf(fetch, pl)) == MainlineOf(fetch, power)
      decreases pl.Some?, if pl.Some? then RankOf(fetch, pl.value) else 0
    {
      var p := pl.value;
      ghost var before := mainline;
      mainline := mainline + [p];
      if p !in fetch {
        return Err(NotFound);
      }
      var next := FindPowerAuth(fetch, fetch[p].authEvents);
      assert next == PowerParent(fetch, p);
      match next {
        case MissingEvent => return Err(NotFound);
        case NoPowerLevels =>
          ChainGrows(before, p, Ok([]));
          pl := None;
        case Found(a) =>
          ChainGrows(before, p, PowerChain(fetch, a));
          pl := Some(a);
      }
    }
    assert mainline + [] == mainline;
    return Ok(mainline);
  }

  function Prepended(front: seq<EventId>, rest: Result<seq<EventId>>): Result<seq<EventId>> {
    if rest.Ok? then Ok(front + rest.value) else rest
  }

  lemma EmptyFront(rest: Result<seq<EventId>>)
    ensures Prepended([], rest) == rest
  {
    if rest.Ok? {
      assert [] + rest.value == rest.value;
    }
  }

  lemma ChainGrows(front: seq<EventId>, p: EventId, rest: Result<seq<EventId>>)
    ensures Prepended(front + [p], rest) == Prepended(front, Prepended([p], rest))
    ensures Prepended([p], Ok([])) == Ok([p])
  {
    if rest.Ok? {
      assert front + [p] + rest.value == front + ([p] + rest.value);
    }
    assert [p] + [] == [p];
  }

  method IndexMainline(mainline: seq<EventId>) returns (index: map<EventId, nat>)
    ensures index == MainlineIndex(mainline)
  {
    index := map[];
    var i := |mainline|;
    while i > 0
      invariant 0 <= i <= |mainline| && index == MainlineIndex(mainline[i..])
    {
      i := i - 1;
      assert mainline[i..][1..] == mainline[i + 1..];
      index := index[mainline[i] := |mainline| - 1 - i];
    }
    assert mainline[0..] == mainline;
  }

  method GetMainlineDepth(fetch: Store, index: map<EventId, nat>, event: EventId) returns (r: Result<nat>)
    requires Acyclic(fetch) && event in fetch
    ensures r == Depth(fetch, index, event)
  {
    var id := event;
    while true
      invariant id in fetch && Depth(fetch, index, id) == Depth(fetch, index, event)
      decreases RankOf(fetch, id)
    {
      if fetch[id].id in index {
        return Ok(index[fetch[id].id]);
      }
      var next := FindPowerAuth(fetch, fetch[id].authEvents);
      assert next == PowerParent(fetch, id);
      match next {
        case MissingEvent => return Err(NotFound);
        case NoPowerLevels => return Ok(0);
        case Found(a) => id := a;
      }
    }
  }

  /** One insertion into a sorted list. */
  method Insert(order: map<EventId, SortKey>, out: seq<EventId>, id: EventId) returns (r: seq<EventId>)
    requires SortedBy(order, out) && id in order && id !in out
    requires forall k | k in order :: order[k].id == k
    ensures SortedBy(order, r) && Ids(r) == Ids(out) + {id}
  {
    var i := 0;
    while i < |out| && KeyLeq(order[out[i]], order[id])
      invariant i <= |out|
      invariant forall j | 0 <= j < i :: KeyLess(order[out[j]], order[id])
    {
      i := i + 1;
    }
    r := out[..i] + [id] + out[i..];
    assert out == out[..i] + out[i..];
    forall j | i <= j < |out|
      ensures KeyLess(order[id], order[out[j]])
    {
      KeyTotal(order[id], order[out[i]]);
      if j > i {
        assert KeyLess(order[out[i]], order[out[j]]);
        KeyTransitive(order[id], order[out[i]], order[out[j]]);
      }
    }
  }

  /** `sort_by_key` on the keys of `order_map`, which come in any order. */
  method SortByKey(order: map<EventId, SortKey>) returns (out: seq<EventId>)
    requires forall k | k in order :: order[k].id == k
    ensures SortedBy(order, out) && Ids(out) == order.Keys
  {
    out := [];
    var rest := order.Keys;
    while rest != {}
      invariant rest <= order.Keys
      invariant SortedBy(order, out) && Ids(out) == order.Keys - rest
    {
      var id :| id in rest;
      assert id !in Ids(out);
      out := Insert(order, out, id);
      rest := rest - {id};
    }
  }

  lemma OrderMapGrows(fetch: Store, index: map<EventId, nat>, ids: set<EventId>, id: EventId)
    requires Acyclic(fetch)
    ensures OrderMap(fetch, index, ids + {id}) ==
            if Sortable(fetch, index, id) then OrderMap(fetch, index, ids)[id := KeyAt(fetch, index, id)]
            else OrderMap(fetch, index, ids)
  {
  }

  /** `mainline_sort`. Ids whose depth cannot be computed are dropped. */
  method MainlineSort(fetch: Store, toSort: seq<EventId>, power: Option<EventId>) returns (r: Result<seq<EventId>>)
    requires Acyclic(fetch)
    ensures r.Err? <==> toSort != [] && MainlineOf(fetch, power).Err?
    ensures r.Ok? && toSort == [] ==> r.value == []
    ensures r.Ok? && toSort != [] ==>
              MainlineOrder(fetch, MainlineIndex(MainlineOf(fetch, power).value), Ids(toSort), r.value)
  {
    if toSort == [] {
      return Ok([]);
    }
    var mainline := WalkMainline(fetch, power);
    if mainline.Err? {
      return Err(mainline.error);
    }
    var index := IndexMainline(mainline.value);
    var order: map<EventId, SortKey> := map[];
    for i := 0 to |toSort|
      invariant order == OrderMap(fetch, index, Ids(toSort[..i]))
    {
      var id := toSort[i];
      assert Ids(toSort[..i + 1]) == Ids(toSort[..i]) + {id};
      OrderMapGrows(fetch, index, Ids(toSort[..i]), id);
      if id in fetch {
        var depth := GetMainlineDepth(fetch, index, id);
        if depth.Ok? {
          order := order[id := SortKey(depth.value, fetch[id].ts, id)];
        }
      }
    }
    assert toSort[..|toSort|] == toSort;
    var out := SortByKey(order);
    return Ok(out);
  }
}
