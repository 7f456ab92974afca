/** Auth chains: their depth-first closure, and the difference of several chains. */
module AuthChains {
  import opened Wrappers
  import opened Identifiers
  import opened Events

  /** The auth events of an event; none when the event cannot be fetched. */
  function AuthEdges(fetch: Store, id: EventId): set<EventId> {
    if id in fetch then set a | a in fetch[id].authEvents else {}
  }

  ghost const EVERYWHERE: iset<EventId> := iset id: EventId | true

  ghost predicate ClosedUnder(fetch: Store, within: iset<EventId>, s: set<EventId>) {
    forall id, a | id in s && a in AuthEdges(fetch, id) && a in within :: a in s
  }

  /** The least set that holds `roots` and the auth events of its members inside `within`. */
  ghost predicate LeastClosed(fetch: Store, within: iset<EventId>, roots: set<EventId>, s: set<EventId>) {
    && roots <= s && ClosedUnder(fetch, within, s)
    && forall t: set<EventId> | roots <= t && ClosedUnder(fetch, within, t) :: s <= t
  }

  lemma LeastClosedUnique(fetch: Store, within: iset<EventId>, roots: set<EventId>, s: set<EventId>, t: set<EventId>)
    requires LeastClosed(fetch, within, roots, s) && LeastClosed(fetch, within, roots, t)
    ensures s == t
  {
  }

  // ---- The same closure in terms of paths ----

  /** A path of auth edges that stays inside `within` after its first event. */
  ghost predicate IsPath(fetch: Store, within: iset<EventId>, p: seq<EventId>) {
    p != [] && forall i | 0 < i < |p| :: p[i] in AuthEdges(fetch, p[i - 1]) && p[i] in within
  }

  ghost predicate Reachable(fetch: Store, within: iset<EventId>, roots: set<EventId>, id: EventId) {
    exists p :: IsPath(fetch, within, p) && p[0] in roots && p[|p| - 1] == id
  }

  lemma {:induction false} PathStaysInside(fetch: Store, within: iset<EventId>, p: seq<EventId>, s: set<EventId>, n: nat)
    requires IsPath(fetch, within, p) && ClosedUnder(fetch, within, s) && p[0] in s && n < |p|
    ensures p[n] in s
  {
    if n == 0 {
    } else {
      PathStaysInside(fetch, within, p, s, n - 1);
    }
  }

  /** The least closed set holds exactly the events reachable from the roots. */
  lemma LeastClosedIsReachable(fetch: Store, within: iset<EventId>, roots: set<EventId>, s: set<EventId>, id: EventId)
    requires LeastClosed(fetch, within, roots, s)
    ensures id in s <==> Reachable(fetch, within, roots, id)
  {
    if Reachable(fetch, within, roots, id) {
      var p :| IsPath(fetch, within, p) && p[0] in roots && p[|p| - 1] == id;
      PathStaysInside(fetch, within, p, s, |p| - 1);
    }
    var reached := set x | x in s && Reachable(fetch, within, roots, x);
    RootsReachable(fetch, within, roots);
    forall x, a | x in reached && a in AuthEdges(fetch, x) && a in within
      ensures a in reached
    {
      AuthEventsReachable(fetch, within, roots, x);
    }
    assert s <= reached;
  }

  // ---- The depth-first closure that callers of resolve hand in ----

  /** `TestStore::auth_event_ids`: the closure of the ids, or an error when some event of it is not
      in the store. `resolve` documents its `auth_chain_sets` as such full recursive sets of auth
      events. */
  method AuthEventIds(fetch: Store, ids: seq<EventId>) returns (r: Result<set<EventId>>)
    ensures r.Ok? ==> LeastClosed(fetch, EVERYWHERE, Ids(ids), r.value) && r.value <= fetch.Keys
    ensures r.Err? ==> exists id :: id !in fetch && Reachable(fetch, EVERYWHERE, Ids(ids), id)
  {
    ghost var roots := Ids(ids);
    var result: set<EventId> := {};
    var stack := ids;
    RootsReachable(fetch, EVERYWHERE, roots);
    while stack != []
      invariant DfsState(fetch, roots, result, Ids(stack))
      decreases fetch.Keys - result, |stack|
    {
      var id := stack[|stack| - 1];
      IdsPop(stack);
      stack := stack[..|stack| - 1];
      if id !in result {
        if id !in fetch {
          return Err(NotFound);
        }
        DfsVisit(fetch, roots, result, Ids(stack), id);
        IdsAppend(stack, fetch[id].authEvents);
        result := result + {id};
        stack := stack + fetch[id].authEvents;
      } else {
        DfsKnown(fetch, roots, result, Ids(stack), id);
      }
    }
    DfsDone(fetch, roots, result);
    return Ok(result);
  }

  lemma IdsPop(s: seq<EventId>)
    requires s != []
    ensures Ids(s) == Ids(s[..|s| - 1]) + {s[|s| - 1]}
  {
  }

  lemma NoIds(s: seq<EventId>)
    ensures Ids(s) == {} <==> s == []
  {
    if s != [] {
      assert s[0] in Ids(s);
    }
  }

  lemma IdsAppend(a: seq<EventId>, b: seq<EventId>)
    ensures Ids(a + b) == Ids(a) + Ids(b)
  {
  }

  lemma DfsDone(fetch: Store, roots: set<EventId>, result: set<EventId>)
    requires DfsState(fetch, roots, result, {})
    ensures LeastClosed(fetch, EVERYWHERE, roots, result)
  {
    forall t: set<EventId> | roots <= t && ClosedUnder(fetch, EVERYWHERE, t)
      ensures result <= t
    {
      ReachableInside(fetch, EVERYWHERE, roots, result, t);
    }
  }

  /** Everything found so far is reachable, and what the visited events lead to is visited or waiting. */
  ghost predicate DfsState(fetch: Store, roots: set<EventId>, result: set<EventId>, waiting: set<EventId>) {
    && result <= fetch.Keys && roots <= result + waiting
    && (forall id | id in result :: AuthEdges(fetch, id) <= result + waiting)
    && (forall id | id in result + waiting :: Reachable(fetch, EVERYWHERE, roots, id))
  }

  lemma DfsKnown(fetch: Store, roots: set<EventId>, result: set<EventId>, waiting: set<EventId>, id: EventId)
    requires DfsState(fetch, roots, result, waiting + {id}) && id in result
    ensures DfsState(fetch, roots, result, waiting)
  {
    assert result + waiting == result + (waiting + {id});
  }

  lemma DfsVisit(fetch: Store, roots: set<EventId>, result: set<EventId>, waiting: set<EventId>, id: EventId)
    requires DfsState(fetch, roots, result, waiting + {id}) && id in fetch
    ensures DfsState(fetch, roots, result + {id}, waiting + AuthEdges(fetch, id))
  {
    AuthEventsReachable(fetch, EVERYWHERE, roots, id);
  }

  lemma RootsReachable(fetch: Store, within: iset<EventId>, roots: set<EventId>)
    ensures forall r | r in roots :: Reachable(fetch, within, roots, r)
  {
    forall r | r in roots
      ensures Reachable(fetch, within, roots, r)
    {
      assert IsPath(fetch, within, [r]);
    }
  }

  function Ids(ids: seq<EventId>): set<EventId> {
    set id | id in ids
  }

  lemma AuthEventsReachable(fetch: Store, within: iset<EventId>, roots: set<EventId>, id: EventId)
    requires Reachable(fetch, within, roots, id)
    ensures forall a | a in AuthEdges(fetch, id) && a in within :: Reachable(fetch, within, roots, a)
  {
    var p :| IsPath(fetch, within, p) && p[0] in roots && p[|p| - 1] == id;
    forall a | a in AuthEdges(fetch, id) && a in within
      ensures Reachable(fetch, within, roots, a)
    {
      var q := p + [a];
      assert IsPath(fetch, within, q) && q[|q| - 1] == a;
    }
  }

  lemma ReachableInside(fetch: Store, within: iset<EventId>, roots: set<EventId>, s: set<EventId>, t: set<EventId>)
    requires forall id | id in s :: Reachable(fetch, within, roots, id)
    requires roots <= t && ClosedUnder(fetch, within, t)
    ensures s <= t
  {
    forall id | id in s
      ensures id in t
    {
      var p :| IsPath(fetch, within, p) && p[0] in roots && p[|p| - 1] == id;
      PathStaysInside(fetch, within, p, t, |p| - 1);
    }
  }

  // ---- The difference of several chains ----

  function AnyChain(chains: seq<set<EventId>>): set<EventId> {
    set i, id | 0 <= i < |chains| && id in chains[i] :: id
  }

  predicate InEveryChain(chains: seq<set<EventId>>, id: EventId) {
    forall i | 0 <= i < |chains| :: id in chains[i]
  }

  /** The events of some chain that are not in every chain. */
  function AuthDifference(chains: seq<set<EventId>>): set<EventId> {
    set id | id in AnyChain(chains) && !InEveryChain(chains, id)
  }

  /** How many chains hold the event. */
  function Count(chains: seq<set<EventId>>, id: EventId): nat {
    if chains == [] then 0
    else Count(chains[..|chains| - 1], id) + if id in chains[|chains| - 1] then 1 else 0
  }

  lemma LastChain(chains: seq<set<EventId>>, id: EventId)
    requires chains != []
    ensures var front, last := chains[..|chains| - 1], chains[|chains| - 1];
            && (InEveryChain(chains, id) <==> InEveryChain(front, id) && id in last)
            && (id in AnyChain(chains) <==> id in AnyChain(front) || id in last)
  {
    var front, last := chains[..|chains| - 1], chains[|chains| - 1];
    assert forall i | 0 <= i < |front| :: front[i] == chains[i];
    if InEveryChain(front, id) && id in last {
      forall i | 0 <= i < |chains|
        ensures id in chains[i]
      {
        assert i < |front| ==> id in front[i];
      }
    }
    if InEveryChain(chains, id) {
      forall i | 0 <= i < |front|
        ensures id in front[i]
      {
        assert id in chains[i];
      }
    }
    if id in AnyChain(front) {
      var i :| 0 <= i < |front| && id in front[i];
      assert id in chains[i];
    }
    if id in AnyChain(chains) {
      var i :| 0 <= i < |chains| && id in chains[i];
      assert i < |front| ==> id in front[i];
    }
  }

  lemma {:induction false} CountBounds(chains: seq<set<EventId>>, id: EventId)
    ensures Count(chains, id) <= |chains|
    ensures Count(chains, id) == |chains| <==> InEveryChain(chains, id)
    ensures Count(chains, id) > 0 <==> id in AnyChain(chains)
  {
    if chains == [] {
    } else {
      CountBounds(chains[..|chains| - 1], id);
      LastChain(chains, id);
    }
  }

  /** `get_auth_chain_diff`: counts, and keeps what is counted fewer times than there are chains. */
  method GetAuthChainDiff(chains: seq<set<EventId>>) returns (diff: seq<EventId>)
    ensures forall i, j | 0 <= i < j < |diff| :: diff[i] != diff[j]
    ensures Ids(diff) == AuthDifference(chains)
  {
    var counts: map<EventId, nat> := map[];
    for i := 0 to |chains|
      invariant forall id :: CountOf(counts, id) == Count(chains[..i], id)
      invariant forall id | id in counts :: counts[id] > 0
    {
      assert chains[..i + 1][..i] == chains[..i];
      counts := CountChain(counts, chains[i]);
    }
    assert chains[..|chains|] == chains;
    diff := [];
    var rest := counts.Keys;
    while rest != {}
      invariant rest <= counts.Keys
      invariant forall i, j | 0 <= i < j < |diff| :: diff[i] != diff[j]
      invariant forall id :: id in diff <==> id in counts.Keys - rest && counts[id] < |chains|
    {
      var id :| id in rest;
      if counts[id] < |chains| {
        diff := diff + [id];
      }
      rest := rest - {id};
    }
    forall id
      ensures id in diff <==> id in AuthDifference(chains)
    {
      CountBounds(chains, id);
      assert CountOf(counts, id) == Count(chains, id);
    }
  }

  function CountOf(counts: map<EventId, nat>, id: EventId): nat {
    if id in counts then counts[id] else 0
  }

  /** `*id_counts.entry(id).or_default() += 1` for the members of one chain. */
  method CountChain(before: map<EventId, nat>, chain: set<EventId>) returns (counts: map<EventId, nat>)
    requires forall id | id in before :: before[id] > 0
    ensures forall id :: CountOf(counts, id) == CountOf(before, id) + if id in chain then 1 else 0
    ensures forall id | id in counts :: counts[id] > 0
  {
    counts := before;
    var rest := chain;
    while rest != {}
      invariant rest <= chain
      invariant forall id :: CountOf(counts, id) == CountOf(before, id) + if id in chain - rest then 1 else 0
      invariant forall id | id in counts :: counts[id] > 0
    {
      var id :| id in rest;
      counts := counts[id := CountOf(counts, id) + 1];
      rest := rest - {id};
    }
  }

  // ---- The simple reference form ----

  /** The fold of intersections in `TestStore::auth_chain_diff`. */
  function CommonPart(chains: seq<set<EventId>>): set<EventId>
    requires chains != []
  {
    if |chains| == 1 then chains[0] else CommonPart(chains[..|chains| - 1]) * chains[|chains| - 1]
  }

  function ReferenceDifference(chains: seq<set<EventId>>): set<EventId> {
    if chains == [] then {} else AnyChain(chains) - CommonPart(chains)
  }

  lemma {:induction false} CommonPartMembers(chains: seq<set<EventId>>, id: EventId)
    requires chains != []
    ensures id in CommonPart(chains) <==> InEveryChain(chains, id)
  {
    LastChain(chains, id);
    if |chains| <= 1 {
    } else {
      CommonPartMembers(chains[..|chains| - 1], id);
    }
  }

  /** The counting form computes the reference difference. */
  lemma CountingRefinesReference(chains: seq<set<EventId>>)
    ensures AuthDifference(chains) == ReferenceDifference(chains)
  {
    forall id | chains != []
      ensures id in CommonPart(chains) <==> InEveryChain(chains, id)
    {
      CommonPartMembers(chains, id);
    }
  }

  /** Chains that are closures have a common part closed under auth events; so the auth events of an
      event outside the difference are outside it too. */
  lemma CommonPartClosed(fetch: Store, chains: seq<set<EventId>>, id: EventId, a: EventId)
    requires forall i | 0 <= i < |chains| :: ClosedUnder(fetch, EVERYWHERE, chains[i])
    requires InEveryChain(chains, id) && a in AuthEdges(fetch, id)
    ensures InEveryChain(chains, a) && a !in AuthDifference(chains)
  {
    forall i | 0 <= i < |chains|
      ensures a in chains[i]
    {
      assert ClosedUnder(fetch, EVERYWHERE, chains[i]) && id in chains[i];
    }
  }

  lemma DifferencePermuted(a: seq<set<EventId>>, b: seq<set<EventId>>)
    requires multiset(a) == multiset(b)
    ensures AuthDifference(a) == AuthDifference(b)
  {
    DifferenceWithin(a, b);
    DifferenceWithin(b, a);
  }

  lemma DifferenceWithin(a: seq<set<EventId>>, b: seq<set<EventId>>)
    requires multiset(a) == multiset(b)
    ensures AuthDifference(a) <= AuthDifference(b)
  {
    forall id | id in AuthDifference(a)
      ensures id in AuthDifference(b)
    {
      var i :| 0 <= i < |a| && id in a[i];
      var j :| 0 <= j < |a| && id !in a[j];
      assert a[i] in multiset(a) && a[j] in multiset(a);
      assert a[i] in b && a[j] in b;
    }
  }
}
