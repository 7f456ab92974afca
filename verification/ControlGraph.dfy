/** The sub-graph of control events: each event with its auth chain inside the conflicted events. */
module ControlGraph {
  import opened Wrappers
  import opened Identifiers
  import opened Events
  import opened AuthChains
  import opened TopologicalSort
  import opened SortFields

  /** The edges of an event: its auth events among the conflicted ones. */
  function ControlEdges(fetch: Store, diff: set<EventId>, id: EventId): set<EventId> {
    AuthEdges(fetch, id) * diff
  }

  ghost function Within(diff: set<EventId>): iset<EventId> {
    iset id | id in diff
  }

  /** The graph of everything reachable from `roots` through auth edges inside `diff`. */
  ghost predicate IsControlGraph(fetch: Store, diff: set<EventId>, roots: set<EventId>, g: Graph) {
    && LeastClosed(fetch, Within(diff), roots, g.Keys)
    && forall id | id in g :: g[id] == ControlEdges(fetch, diff, id)
  }

  /** The graph does not depend on the order of the calls that build it. */
  lemma ControlGraphUnique(fetch: Store, diff: set<EventId>, roots: set<EventId>, g: Graph, h: Graph)
    requires IsControlGraph(fetch, diff, roots, g) && IsControlGraph(fetch, diff, roots, h)
    ensures g == h
  {
    LeastClosedUnique(fetch, Within(diff), roots, g.Keys, h.Keys);
  }

  /** Its events are roots or conflicted, and its edges stay inside it. */
  lemma ControlGraphInside(fetch: Store, diff: set<EventId>, roots: set<EventId>, g: Graph)
    requires IsControlGraph(fetch, diff, roots, g)
    ensures g.Keys <= roots + diff
    ensures forall n, e | n in g && e in g[n] :: e in g
  {
    assert ClosedUnder(fetch, Within(diff), roots + diff);
  }

  // ---- Building it with a stack ----

  /** An event already in the graph has its edges in the graph or above it on the stack; so when it
      comes up again nothing is pushed for it. */
  ghost predicate StackOrder(fetch: Store, diff: set<EventId>, known: set<EventId>, stack: seq<EventId>) {
    forall j | 0 <= j < |stack| && stack[j] in known :: ControlEdges(fetch, diff, stack[j]) <= known + Ids(stack[j + 1..])
  }

  ghost predicate EdgesExact(fetch: Store, diff: set<EventId>, g: Graph) {
    forall id | id in g :: g[id] == ControlEdges(fetch, diff, id)
  }

  /** Everything found is reachable, and what the graph's events lead to is in it or waiting. */
  ghost predicate Explored(fetch: Store, diff: set<EventId>, roots: set<EventId>, known: set<EventId>, waiting: set<EventId>) {
    && roots <= known + waiting
    && (forall id | id in known :: ControlEdges(fetch, diff, id) <= known + waiting)
    && (forall id | id in known + waiting :: Reachable(fetch, Within(diff), roots, id))
  }

  lemma ExploredPop(fetch: Store, diff: set<EventId>, roots: set<EventId>, known: set<EventId>, waiting: set<EventId>, id: EventId)
    requires Explored(fetch, diff, roots, known, waiting + {id})
    ensures Explored(fetch, diff, roots, known + {id}, waiting + (ControlEdges(fetch, diff, id) - (known + {id})))
  {
    var edges := ControlEdges(fetch, diff, id);
    var found := known + (waiting + {id});
    assert (known + {id}) + (waiting + (edges - (known + {id}))) == found + edges;
    forall x | x in known + {id}
      ensures ControlEdges(fetch, diff, x) <= found + edges
    {
      assert x == id || ControlEdges(fetch, diff, x) <= found;
    }
    ControlEdgesReachable(fetch, diff, roots, id);
  }

  lemma ControlEdgesReachable(fetch: Store, diff: set<EventId>, roots: set<EventId>, id: EventId)
    requires Reachable(fetch, Within(diff), roots, id)
    ensures forall a | a in ControlEdges(fetch, diff, id) :: Reachable(fetch, Within(diff), roots, a)
  {
    AuthEventsReachable(fetch, Within(diff), roots, id);
  }

  lemma StackOrderPop(fetch: Store, diff: set<EventId>, known: set<EventId>, stack: seq<EventId>, id: EventId, pushed: seq<EventId>)
    requires StackOrder(fetch, diff, known, stack + [id])
    requires Ids(pushed) == ControlEdges(fetch, diff, id) - (known + {id})
    ensures StackOrder(fetch, diff, known + {id}, stack + pushed)
    ensures id in known ==> pushed == []
  {
    var before, after := stack + [id], stack + pushed;
    if id in known {
      assert before[|stack|] == id && before[|stack| + 1..] == [];
      NoIds(pushed);
    }
    forall j | |stack| <= j < |after|
      ensures after[j] !in known + {id}
    {
      assert after[j] in Ids(pushed);
    }
    forall j | 0 <= j < |stack| && after[j] in known + {id}
      ensures ControlEdges(fetch, diff, after[j]) <= known + {id} + Ids(after[j + 1..])
    {
      assert after[j + 1..] == stack[j + 1..] + pushed && before[j + 1..] == stack[j + 1..] + [id];
      IdsAppend(stack[j + 1..], pushed);
      IdsAppend(stack[j + 1..], [id]);
      assert before[j] == after[j];
    }
  }

  lemma OneMoreEdge(ids: seq<EventId>, aid: EventId, diff: set<EventId>, known: set<EventId>, pushed: seq<EventId>)
    requires Ids(pushed) == Ids(ids) * diff - known
    ensures Ids(ids + [aid]) * diff == Ids(ids) * diff + if aid in diff then {aid} else {}
    ensures Ids(if aid in diff && aid !in known then pushed + [aid] else pushed) == Ids(ids + [aid]) * diff - known
  {
    IdsAppend(ids, [aid]);
    IdsAppend(pushed, [aid]);
  }

  /** The inner loop over the auth events. */
  method PushAuthEvents(fetch: Store, diff: set<EventId>, before: Graph, id: EventId)
    returns (g: Graph, pushed: seq<EventId>)
    requires id in before && before[id] <= ControlEdges(fetch, diff, id)
    ensures g == before[id := ControlEdges(fetch, diff, id)]
    ensures Ids(pushed) == ControlEdges(fetch, diff, id) - before.Keys
  {
    g, pushed := before, [];
    var edges := before[id];
    assert before == before[id := edges];
    var auths := if id in fetch then fetch[id].authEvents else [];
    for i := 0 to |auths|
      invariant edges == before[id] + Ids(auths[..i]) * diff
      invariant g == before[id := edges]
      invariant Ids(pushed) == Ids(auths[..i]) * diff - before.Keys
    {
      var aid := auths[i];
      assert auths[..i + 1] == auths[..i] + [aid];
      OneMoreEdge(auths[..i], aid, diff, before.Keys, pushed);
      if aid in diff {
        if aid !in g {
          pushed := pushed + [aid];
        }
        edges := edges + {aid};
        g := g[id := edges];
      }
    }
    assert auths[..|auths|] == auths && Ids(auths) == AuthEdges(fetch, id);
    assert before[id] + Ids(auths) * diff == ControlEdges(fetch, diff, id);
  }

  /** `add_event_and_auth_chain_to_graph`. It ends on cyclic auth events too: an event is new only
      once, and a known one shrinks the stack. */
  method AddEventAndAuthChain(fetch: Store, diff: set<EventId>, before: Graph, event: EventId, ghost roots: set<EventId>)
    returns (g: Graph)
    requires IsControlGraph(fetch, diff, roots, before)
    ensures IsControlGraph(fetch, diff, roots + {event}, g)
  {
    ghost var found := roots + {event};
    g := before;
    var stack := [event];
    StartExplored(fetch, diff, roots, before, event);
    while stack != []
      invariant GraphState(fetch, diff, found, g, stack)
      decreases (found + diff) - g.Keys, |stack|
    {
      g, stack := PopEvent(fetch, diff, g, stack, found);
    }
    ExploredIsLeast(fetch, diff, found, g.Keys);
  }

  ghost predicate GraphState(fetch: Store, diff: set<EventId>, roots: set<EventId>, g: Graph, stack: seq<EventId>) {
    && EdgesExact(fetch, diff, g)
    && Explored(fetch, diff, roots, g.Keys, Ids(stack))
    && StackOrder(fetch, diff, g.Keys, stack)
  }

  /** One iteration: the top of the stack enters the graph and its missing auth events are pushed. */
  method PopEvent(fetch: Store, diff: set<EventId>, before: Graph, stack: seq<EventId>, ghost roots: set<EventId>)
    returns (g: Graph, next: seq<EventId>)
    requires GraphState(fetch, diff, roots, before, stack) && stack != []
    ensures GraphState(fetch, diff, roots, g, next)
    ensures (g.Keys == before.Keys && |next| < |stack|) || (roots + diff) - g.Keys < (roots + diff) - before.Keys
  {
    var id := stack[|stack| - 1];
    var rest := stack[..|stack| - 1];
    assert stack == rest + [id];
    var pushed;
    g, pushed := PushAuthEvents(fetch, diff, Entry(before, id), id);
    PopKeeps(fetch, diff, roots, before, rest, id, g, pushed);
    next := rest + pushed;
  }

  lemma PopKeeps(fetch: Store, diff: set<EventId>, roots: set<EventId>, before: Graph, rest: seq<EventId>, id: EventId,
                 g: Graph, pushed: seq<EventId>)
    requires GraphState(fetch, diff, roots, before, rest + [id])
    requires g == Entry(before, id)[id := ControlEdges(fetch, diff, id)]
    requires Ids(pushed) == ControlEdges(fetch, diff, id) - Entry(before, id).Keys
    ensures GraphState(fetch, diff, roots, g, rest + pushed)
    ensures id in before ==> g.Keys == before.Keys && pushed == []
    ensures id !in before ==> (roots + diff) - g.Keys < (roots + diff) - before.Keys
  {
    EdgesExactStep(fetch, diff, before, id);
    ExploredStep(fetch, diff, roots, before.Keys, rest, id, pushed);
    StackOrderPop(fetch, diff, before.Keys, rest, id, pushed);
  }

  lemma EdgesExactStep(fetch: Store, diff: set<EventId>, before: Graph, id: EventId)
    requires EdgesExact(fetch, diff, before)
    ensures EdgesExact(fetch, diff, Entry(before, id)[id := ControlEdges(fetch, diff, id)])
    ensures Entry(before, id)[id := ControlEdges(fetch, diff, id)].Keys == before.Keys + {id}
  {
  }

  lemma ExploredStep(fetch: Store, diff: set<EventId>, roots: set<EventId>, known: set<EventId>, rest: seq<EventId>,
                     id: EventId, pushed: seq<EventId>)
    requires Explored(fetch, diff, roots, known, Ids(rest + [id]))
    requires Ids(pushed) == ControlEdges(fetch, diff, id) - (known + {id})
    ensures Explored(fetch, diff, roots, known + {id}, Ids(rest + pushed))
    ensures id !in known ==> (roots + diff) - (known + {id}) < (roots + diff) - known
  {
    IdsAppend(rest, [id]);
    IdsAppend(rest, pushed);
    assert Ids([id]) == {id};
    ExploredPop(fetch, diff, roots, known, Ids(rest), id);
    FoundInside(fetch, diff, roots, id);
    assert id !in known ==> id in (roots + diff) - known;
  }

  lemma StartExplored(fetch: Store, diff: set<EventId>, roots: set<EventId>, g: Graph, event: EventId)
    requires IsControlGraph(fetch, diff, roots, g)
    ensures Explored(fetch, diff, roots + {event}, g.Keys, Ids([event]))
    ensures StackOrder(fetch, diff, g.Keys, [event])
  {
    RootsReachable(fetch, Within(diff), roots + {event});
    assert forall id | id in g :: ControlEdges(fetch, diff, id) <= g.Keys;
    forall id | id in g
      ensures Reachable(fetch, Within(diff), roots + {event}, id)
    {
      LeastClosedIsReachable(fetch, Within(diff), roots, g.Keys, id);
      var p :| IsPath(fetch, Within(diff), p) && p[0] in roots && p[|p| - 1] == id;
      assert p[0] in roots + {event};
    }
  }

  lemma FoundInside(fetch: Store, diff: set<EventId>, roots: set<EventId>, id: EventId)
    requires Reachable(fetch, Within(diff), roots, id)
    ensures id in roots + diff
  {
    var p :| IsPath(fetch, Within(diff), p) && p[0] in roots && p[|p| - 1] == id;
    if |p| > 1 {
      assert p[|p| - 1] in Within(diff);
    }
  }

  lemma ExploredIsLeast(fetch: Store, diff: set<EventId>, roots: set<EventId>, known: set<EventId>)
    requires Explored(fetch, diff, roots, known, {})
    ensures LeastClosed(fetch, Within(diff), roots, known)
  {
    assert ClosedUnder(fetch, Within(diff), known) by {
      forall id, a | id in known && a in AuthEdges(fetch, id) && a in Within(diff)
        ensures a in known
      {
        assert a in ControlEdges(fetch, diff, id);
      }
    }
    forall t: set<EventId> | roots <= t && ClosedUnder(fetch, Within(diff), t)
      ensures known <= t
    {
      ReachableInside(fetch, Within(diff), roots, known, t);
    }
  }

  /** The loop of `reverse_topological_power_sort` that adds the control events one by one. */
  method BuildGraph(fetch: Store, diff: set<EventId>, events: seq<EventId>) returns (g: Graph)
    ensures IsControlGraph(fetch, diff, Ids(events), g)
  {
    g := map[];
    for i := 0 to |events|
      invariant IsControlGraph(fetch, diff, Ids(events[..i]), g)
    {
      g := AddEventAndAuthChain(fetch, diff, g, events[i], Ids(events[..i]));
      assert events[..i + 1] == events[..i] + [events[i]];
      IdsAppend(events[..i], [events[i]]);
    }
    assert events[..|events|] == events;
  }

  // ---- The power level an event is sorted by ----

  /** The first auth event that can be fetched and is the room's power levels. */
  function FirstPowerLevels(fetch: Store, ids: seq<EventId>): Option<Event> {
    if ids == [] then None
    else if ids[0] in fetch && IsTypeAndKey(fetch[ids[0]], RoomPowerLevels, "") then Some(fetch[ids[0]])
    else FirstPowerLevels(fetch, ids[1..])
  }

  /** `get_power_level_for_sender`: the sender's level in the event's own generation; zero when the
      event has no power levels, an error when they do not decode. */
  function PowerForSender(fetch: Store, id: EventId): Result<int> {
    var pl := if id in fetch then FirstPowerLevels(fetch, fetch[id].authEvents) else None;
    match pl
    case None => Ok(0)
    case Some(ev) =>
      match DecodeUserLevels(ev.content)
      case None => Err(SerdeJson)
      case Some(levels) => Ok(levels.Of(fetch[id].sender))
  }

  method GetPowerLevelForSender(fetch: Store, id: EventId) returns (r: Result<int>)
    ensures r == PowerForSender(fetch, id)
  {
    var auths := if id in fetch then fetch[id].authEvents else [];
    var pl: Option<Event> := None;
    var i := 0;
    while i < |auths| && pl.None?
      invariant i <= |auths|
      invariant pl.Some? ==> FirstPowerLevels(fetch, auths) == pl
      invariant pl.None? ==> FirstPowerLevels(fetch, auths) == FirstPowerLevels(fetch, auths[i..])
    {
      assert auths[i..][1..] == auths[i + 1..];
      if auths[i] in fetch && IsTypeAndKey(fetch[auths[i]], RoomPowerLevels, "") {
        pl := Some(fetch[auths[i]]);
      }
      i := i + 1;
    }
    if pl.None? {
      return Ok(0);
    }
    var content := DecodeUserLevels(pl.value.content);
    if content.None? {
      return Err(SerdeJson);
    }
    return Ok(content.value.Of(fetch[id].sender));
  }

  /** The keys the events are compared by; one that cannot be fetched has none. */
  function PowerKeys(fetch: Store, ids: set<EventId>): Keys {
    map id | id in ids && id in fetch && PowerForSender(fetch, id).Ok? ::
      PowerAge(PowerForSender(fetch, id).value, fetch[id].ts)
  }

  predicate PowersDecode(fetch: Store, ids: set<EventId>) {
    forall id | id in ids :: PowerForSender(fetch, id).Ok?
  }

  /** `r` is the greedy order of the graph by power and timestamp, or a sign that some power levels do
      not decode or that a key is missing. */
  ghost predicate PowerSorted(fetch: Store, g: Graph, r: Result<seq<EventId>>) {
    var keys := PowerKeys(fetch, g.Keys);
    match r
    case Ok(out) => GreedyOrder(g, keys, out) && PowersDecode(fetch, g.Keys) && AllKeysFound(g, keys, out)
    case Err(_) =>
      !PowersDecode(fetch, g.Keys) || exists out :: GreedyPrefix(g, keys, out) && !AllKeysFound(g, keys, out)
  }

  /** `reverse_topological_power_sort`. The graph's events are walked in any order. */
  method ReverseTopologicalPowerSort(fetch: Store, diff: set<EventId>, events: seq<EventId>)
    returns (r: Result<seq<EventId>>)
    ensures exists g :: IsControlGraph(fetch, diff, Ids(events), g) && PowerSorted(fetch, g, r)
  {
    var graph := BuildGraph(fetch, diff, events);
    var keys: Keys := map[];
    var rest := graph.Keys;
    ghost var done: set<EventId> := {};
    while rest != {}
      invariant done !! rest && done + rest == graph.Keys
      invariant PowersDecode(fetch, done) && keys == PowerKeys(fetch, done)
    {
      var id :| id in rest;
      var power := GetPowerLevelForSender(fetch, id);
      if power.Err? {
        r := Err(power.error);
        assert PowerSorted(fetch, graph, r);
        return;
      }
      if id in fetch {
        keys := keys[id := PowerAge(power.value, fetch[id].ts)];
      }
      rest, done := rest - {id}, done + {id};
    }
    assert done == graph.Keys;
    r := LexicographicalTopologicalSort(graph, keys);
    assert PowerSorted(fetch, graph, r);
  }

  /** The keys are the senders' power levels and the timestamps of the events; control events without
      conflicted auth events come out by power, then by timestamp, oldest first, then by id. */
  lemma ControlRootsByFields(fetch: Store, g: Graph, out: seq<EventId>, i: nat, j: nat)
    requires GreedyPrefix(g, PowerKeys(fetch, g.Keys), out) && i < j < |out| && g.Keys <= fetch.Keys && PowersDecode(fetch, g.Keys)
    requires out[i] in g && g[out[i]] == {} && out[j] in g && g[out[j]] == {}
    ensures var p, q := PowerForSender(fetch, out[i]).value, PowerForSender(fetch, out[j]).value;
            || p > q
            || (p == q && fetch[out[i]].ts < fetch[out[j]].ts)
            || (p == q && fetch[out[i]].ts == fetch[out[j]].ts && LexLess(out[i], out[j]))
  {
    var keys := PowerKeys(fetch, g.Keys);
    RootsByFields(g, keys, out, i, j);
    NoDuplicates(g, keys, out);
    assert KeyOf(keys, out[i]) == PowerAge(PowerForSender(fetch, out[i]).value, fetch[out[i]].ts);
    assert KeyOf(keys, out[j]) == PowerAge(PowerForSender(fetch, out[j]).value, fetch[out[j]].ts);
  }

  /** When every event can be fetched, the sort fails exactly when some power levels do not decode. */
  lemma KeysFound(fetch: Store, g: Graph, out: seq<EventId>)
    requires g.Keys <= fetch.Keys && PowersDecode(fetch, g.Keys)
    requires GreedyPrefix(g, PowerKeys(fetch, g.Keys), out)
    ensures AllKeysFound(g, PowerKeys(fetch, g.Keys), out)
  {
    var keys := PowerKeys(fetch, g.Keys);
    forall n | Consulted(g, out, n)
      ensures n in keys
    {
      if n in out {
        EdgesEmitted(g, keys, out, n);
      }
    }
  }

  // ---- The sort's power level and the level the event is judged by ----

  predicate IsPowerLevels(fetch: Store, id: EventId) {
    id in fetch && IsTypeAndKey(fetch[id], RoomPowerLevels, "")
  }

  /** The power levels event at `i` is the first one among the ids; there is none when `i` is past the
      end. */
  predicate FirstNamed(fetch: Store, ids: seq<EventId>, i: nat) {
    && i <= |ids| && (forall j | 0 <= j < i :: !IsPowerLevels(fetch, ids[j]))
    && (i < |ids| ==> IsPowerLevels(fetch, ids[i]))
  }

  lemma {:induction false} FirstNamedFound(fetch: Store, ids: seq<EventId>) returns (i: nat)
    ensures FirstNamed(fetch, ids, i)
    ensures FirstPowerLevels(fetch, ids) == if i < |ids| then Some(fetch[ids[i]]) else None
  {
    if ids == [] || IsPowerLevels(fetch, ids[0]) {
      i := 0;
    } else {
      i := FirstNamedFound(fetch, ids[1..]);
      assert forall j | 0 < j < i + 1 :: ids[j] == ids[1..][j - 1];
      i := i + 1;
    }
  }

  /** What every event is sorted by: zero when it cannot be fetched or names no fetchable power levels;
      else its sender's level in the first it names, and an error when that one does not decode. */
  lemma SortPower(fetch: Store, id: EventId) returns (i: nat)
    ensures id !in fetch ==> PowerForSender(fetch, id) == Ok(0)
    ensures id in fetch ==> FirstNamed(fetch, fetch[id].authEvents, i)
    ensures id in fetch && i == |fetch[id].authEvents| ==> PowerForSender(fetch, id) == Ok(0)
    ensures id in fetch && i < |fetch[id].authEvents| ==>
              var levels := DecodeUserLevels(fetch[fetch[id].authEvents[i]].content);
              PowerForSender(fetch, id) == if levels.Some? then Ok(levels.value.Of(fetch[id].sender)) else Err(SerdeJson)
  {
    if id in fetch {
      i := FirstNamedFound(fetch, fetch[id].authEvents);
    } else {
      i := 0;
    }
  }
}
