/** The heap-driven Kahn sort of `lexicographical_topological_sort`.

    The specification says, for each position of the output, which node must stand there: the
    least ready node, where a ready node carries the key it was given when it became ready. A node
    without edges carries its own key; any other node carries the key of the edge target that was
    emitted last, because that is the node whose popping released it. */
module TopologicalSort {
  import opened Wrappers
  import opened Identifiers

  /** An event and the events before it. */
  type Graph = map<EventId, set<EventId>>

  /** What `key_fn` returns: the sender's power level and the event's age. */
  datatype PowerAge = PowerAge(power: int, age: nat)

  /** The answers of `key_fn`; it fails on an event that has none here. */
  type Keys = map<EventId, PowerAge>

  /** `key_fn` with its failures filled in; the sort stops at the first failure it meets. */
  function KeyOf(keys: Keys, n: EventId): PowerAge {
    if n in keys then keys[n] else PowerAge(0, 0)
  }

  /** The heap entry of `n` under the key of `source`. */
  function EntryFor(keys: Keys, source: EventId, n: EventId): SortKey {
    var k := KeyOf(keys, source);
    SortKey(-k.power, k.age, n)
  }

  // ---- Specification ----

  predicate AllIn(s: set<EventId>, out: seq<EventId>) {
    forall e | e in s :: e in out
  }

  predicate IsReady(g: Graph, out: seq<EventId>, n: EventId) {
    n in g && n !in out && AllIn(g[n], out)
  }

  /** The member of `s` that stands last in `out`. */
  function LastIn(out: seq<EventId>, s: set<EventId>): (last: EventId)
    requires exists e :: e in s && e in out
    ensures last in s && last in out
  {
    if out[|out| - 1] in s then out[|out| - 1] else LastIn(out[..|out| - 1], s)
  }

  /** The heap entry of `n` once it is ready after `out`. */
  function Tie(g: Graph, keys: Keys, out: seq<EventId>, n: EventId): SortKey
    requires IsReady(g, out, n)
  {
    if g[n] == {} then EntryFor(keys, n, n)
    else
      assert exists e :: e in g[n] && e in out by { var e :| e in g[n]; }
      EntryFor(keys, LastIn(out, g[n]), n)
  }

  ghost predicate IsLeastReady(g: Graph, keys: Keys, out: seq<EventId>, n: EventId) {
    IsReady(g, out, n) && forall m | IsReady(g, out, m) :: KeyLeq(Tie(g, keys, out, n), Tie(g, keys, out, m))
  }

  /** Every position of `out` holds the node that was the least ready one after the nodes before. */
  ghost predicate GreedyPrefix(g: Graph, keys: Keys, out: seq<EventId>) {
    out != [] ==>
      var i := |out| - 1;
      GreedyPrefix(g, keys, out[..i]) && IsLeastReady(g, keys, out[..i], out[i])
  }

  lemma {:induction false} GreedyAt(g: Graph, keys: Keys, out: seq<EventId>, i: nat)
    requires GreedyPrefix(g, keys, out) && i < |out|
    ensures GreedyPrefix(g, keys, out[..i]) && IsLeastReady(g, keys, out[..i], out[i])
    decreases |out|
  {
    var last := |out| - 1;
    if i == last {
    } else {
      GreedyAt(g, keys, out[..last], i);
      assert out[..last][..i] == out[..i];
    }
  }

  /** A complete run: every position holds the least ready node, and nothing is ready at the end. */
  ghost predicate GreedyOrder(g: Graph, keys: Keys, out: seq<EventId>) {
    GreedyPrefix(g, keys, out) && forall n :: !IsReady(g, out, n)
  }

  /** `key_fn` is asked for the key of `n`: at the start when `n` has no edges, and when `n` is
      popped and releases another node. */
  ghost predicate Consulted(g: Graph, out: seq<EventId>, n: EventId) {
    || (n in g && g[n] == {})
    || exists i, m | 0 <= i < |out| :: out[i] == n && Releases(g, out[..i], n, m)
  }

  predicate Releases(g: Graph, out: seq<EventId>, n: EventId, m: EventId) {
    m in g && n in g[m] && AllIn(g[m], out + [n])
  }

  // ---- The output is determined by the graph and the keys ----

  lemma LeastReadyUnique(g: Graph, keys: Keys, out: seq<EventId>, m: EventId, n: EventId)
    requires IsLeastReady(g, keys, out, m) && IsLeastReady(g, keys, out, n)
    ensures m == n
  {
    KeyAntisymmetric(Tie(g, keys, out, m), Tie(g, keys, out, n));
  }

  lemma {:induction false} GreedyPrefixesAgree(g: Graph, keys: Keys, a: seq<EventId>, b: seq<EventId>, n: nat)
    requires GreedyPrefix(g, keys, a) && GreedyPrefix(g, keys, b)
    requires n <= |a| && n <= |b|
    ensures a[..n] == b[..n]
  {
    if n == 0 {
    } else {
      var i := n - 1;
      GreedyPrefixesAgree(g, keys, a, b, i);
      GreedyAt(g, keys, a, i);
      GreedyAt(g, keys, b, i);
      LeastReadyUnique(g, keys, a[..i], a[i], b[i]);
      TakeOneMore(a, i);
      TakeOneMore(b, i);
    }
  }

  /** A partial run is the start of every complete run. */
  lemma GreedyPrefixStarts(g: Graph, keys: Keys, a: seq<EventId>, b: seq<EventId>)
    requires GreedyPrefix(g, keys, a) && GreedyOrder(g, keys, b)
    ensures a <= b
  {
    if |a| <= |b| {
      GreedyPrefixesAgree(g, keys, a, b, |a|);
    } else {
      assert b[..|b|] == b;
      GreedyAt(g, keys, a, |b|);
      GreedyPrefixesAgree(g, keys, a, b, |b|);
      assert false;
    }
  }

  /** Whatever order the hash maps are walked in, there is one possible output. */
  lemma GreedyOrderUnique(g: Graph, keys: Keys, a: seq<EventId>, b: seq<EventId>)
    requires GreedyOrder(g, keys, a) && GreedyOrder(g, keys, b)
    ensures a == b
  {
    GreedyPrefixStarts(g, keys, a, b);
    GreedyPrefixStarts(g, keys, b, a);
  }

  // ---- What the output holds, on any graph ----

  /** The output has no duplicates. */
  lemma NoDuplicates(g: Graph, keys: Keys, out: seq<EventId>)
    requires GreedyPrefix(g, keys, out)
    ensures forall i, j | 0 <= i < j < |out| :: out[i] != out[j]
  {
    forall i, j | 0 <= i < j < |out|
      ensures out[i] != out[j]
    {
      GreedyAt(g, keys, out, j);
      assert out[..j][i] == out[i];
    }
  }

  /** Every edge target stands before its source. */
  lemma EdgesFirst(g: Graph, keys: Keys, out: seq<EventId>, i: nat, e: EventId)
    requires GreedyPrefix(g, keys, out)
    requires i < |out|
    ensures out[i] in g
    ensures e in g[out[i]] ==> e in out[..i]
  {
    GreedyAt(g, keys, out, i);
  }

  lemma EdgesEmitted(g: Graph, keys: Keys, out: seq<EventId>, n: EventId)
    requires GreedyPrefix(g, keys, out)
    ensures n in out ==> n in g && AllIn(g[n], out)
  {
    if n in out {
      var i :| 0 <= i < |out| && out[i] == n;
      GreedyAt(g, keys, out, i);
    }
  }

  /** A set holding every node whose edges it holds. */
  ghost predicate ClosedUnderRelease(g: Graph, s: set<EventId>) {
    forall n | n in g && g[n] <= s :: n in s
  }

  /** On any graph, with cycles and dangling edges too, exactly the least set closed under
      "all my edges are emitted" comes out. */
  lemma EmitsLeastClosedSet(g: Graph, keys: Keys, out: seq<EventId>, s: set<EventId>)
    requires GreedyOrder(g, keys, out)
    ensures ClosedUnderRelease(g, set n | n in out)
    ensures ClosedUnderRelease(g, s) ==> (set n | n in out) <= s
  {
    forall n | n in g && g[n] <= (set m | m in out)
      ensures n in out
    {
      assert !IsReady(g, out, n);
    }
    if ClosedUnderRelease(g, s) {
      EmittedWithin(g, keys, out, s, |out|);
    }
  }

  lemma {:induction false} EmittedWithin(g: Graph, keys: Keys, out: seq<EventId>,
                                         s: set<EventId>, n: nat)
    requires GreedyPrefix(g, keys, out) && ClosedUnderRelease(g, s)
    requires n <= |out|
    ensures forall i | 0 <= i < n :: out[i] in s
  {
    if n == 0 {
    } else {
      EmittedWithin(g, keys, out, s, n - 1);
      EdgesFirst(g, keys, out, n - 1, out[n - 1]);
      assert g[out[n - 1]] <= s by {
        forall e | e in g[out[n - 1]]
          ensures e in s
        {
          EdgesFirst(g, keys, out, n - 1, e);
        }
      }
    }
  }

  /** Edges lead to nodes of the graph, and down some measure. */
  ghost predicate ClosedAcyclic(g: Graph, level: map<EventId, nat>) {
    && g.Keys <= level.Keys
    && forall n, e | n in g && e in g[n] :: e in g && level[e] < level[n]
  }

  /** On a closed acyclic graph the output is a permutation of the nodes. */
  lemma EmitsEveryNode(g: Graph, keys: Keys, out: seq<EventId>, level: map<EventId, nat>)
    requires GreedyOrder(g, keys, out) && ClosedAcyclic(g, level)
    ensures forall n :: n in out <==> n in g
    ensures multiset(out) == multiset(g.Keys)
  {
    forall n | n in g
      ensures n in out
    {
      NodeEmitted(g, keys, out, level, n);
    }
    forall n | n in out
      ensures n in g
    {
      EdgesEmitted(g, keys, out, n);
    }
    NoDuplicates(g, keys, out);
    forall n
      ensures multiset(out)[n] == multiset(g.Keys)[n]
    {
      OccursOnce(out, n);
    }
  }

  lemma {:induction false} NodeEmitted(g: Graph, keys: Keys, out: seq<EventId>, level: map<EventId, nat>, n: EventId)
    requires GreedyOrder(g, keys, out) && ClosedAcyclic(g, level) && n in g
    ensures n in out
    decreases level[n]
  {
    forall e | e in g[n]
      ensures e in out
    {
      NodeEmitted(g, keys, out, level, e);
    }
    assert !IsReady(g, out, n);
  }

  lemma {:induction false} OccursOnce(s: seq<EventId>, n: EventId)
    requires forall i, j | 0 <= i < j < |s| :: s[i] != s[j]
    ensures multiset(s)[n] == if n in s then 1 else 0
  {
    if s == [] {
    } else {
      var last := |s| - 1;
      assert s == s[..last] + [s[last]];
      OccursOnce(s[..last], n);
    }
  }

  // ---- Constant keys: the smallest topological order ----

  /** A topological order of a closed graph: each node once, after all its edges. */
  ghost predicate TopologicalOrder(g: Graph, t: seq<EventId>) {
    && (forall n :: n in t <==> n in g)
    && (forall i | 0 <= i < |t| :: t[i] in g && t[i] !in t[..i] && AllIn(g[t[i]], t[..i]))
  }

  /** `a` comes before `b` in the lexicographic order of sequences of ids. */
  ghost predicate SmallerAt(a: seq<EventId>, b: seq<EventId>, i: nat) {
    i < |a| && i < |b| && a[..i] == b[..i] && a[i] != b[i] && LexLeq(a[i], b[i])
  }

  /** With one key for all nodes the output is the lexicographically smallest topological order by
      event id. */
  lemma SmallestTopologicalOrder(g: Graph, keys: Keys, k: PowerAge, out: seq<EventId>, t: seq<EventId>)
    requires GreedyOrder(g, keys, out) && TopologicalOrder(g, t)
    requires forall n | n in g :: KeyOf(keys, n) == k
    ensures out == t || exists i :: SmallerAt(out, t, i)
  {
    var i := FirstDifference(out, t);
    if i < |t| {
      assert IsReady(g, out[..i], t[i]);
      if i < |out| {
        GreedyAt(g, keys, out, i);
        ConstantTie(g, keys, k, out[..i], out[i]);
        ConstantTie(g, keys, k, out[..i], t[i]);
        assert SmallerAt(out, t, i);
      }
    } else if i < |out| {
      GreedyAt(g, keys, out, i);
    }
  }

  lemma ConstantTie(g: Graph, keys: Keys, k: PowerAge, out: seq<EventId>, n: EventId)
    requires GreedyPrefix(g, keys, out) && IsReady(g, out, n)
    requires forall m | m in g :: KeyOf(keys, m) == k
    ensures Tie(g, keys, out, n) == SortKey(-k.power, k.age, n)
  {
    forall m | m in out
      ensures m in g
    {
      EdgesEmitted(g, keys, out, m);
    }
  }

  lemma {:induction false} FirstDifference(a: seq<EventId>, b: seq<EventId>) returns (i: nat)
    ensures i <= |a| && i <= |b| && a[..i] == b[..i]
    ensures i < |a| && i < |b| ==> a[i] != b[i]
    ensures i == |a| ==> a == b[..i]
    ensures i == |b| ==> b == a[..i]
  {
    i := 0;
    while i < |a| && i < |b| && a[i] == b[i]
      invariant i <= |a| && i <= |b| && a[..i] == b[..i]
    {
      i := i + 1;
    }
  }

  // ---- The heap loop ----

  function Members(out: seq<EventId>): set<EventId> {
    set e | e in out
  }

  /** The entries the heap should hold after `out`. */
  ghost function ReadyTies(g: Graph, keys: Keys, out: seq<EventId>): set<SortKey> {
    set n | n in g && IsReady(g, out, n) :: Tie(g, keys, out, n)
  }

  /** The entries of the nodes of `among` that popping `node` after `out` releases. */
  ghost function ReleasedTies(g: Graph, keys: Keys, out: seq<EventId>, node: EventId,
                              among: set<EventId>): set<SortKey> {
    set n | n in among && Releases(g, out, node, n) :: EntryFor(keys, node, n)
  }

  lemma ReleasedGrow(g: Graph, keys: Keys, out: seq<EventId>, node: EventId,
                     among: set<EventId>, n: EventId)
    ensures ReleasedTies(g, keys, out, node, among + {n}) ==
            ReleasedTies(g, keys, out, node, among) +
            if Releases(g, out, node, n) then {EntryFor(keys, node, n)} else {}
  {
  }

  /** Emitting `node` leaves the other ready nodes ready under the same keys, and releases exactly
      those that waited for `node` alone, under the key of `node`. */
  lemma ReadyAfter(g: Graph, keys: Keys, out: seq<EventId>, node: EventId, n: EventId)
    requires GreedyPrefix(g, keys, out) && IsReady(g, out, node)
    ensures IsReady(g, out + [node], n) <==> n != node && (IsReady(g, out, n) || Releases(g, out, node, n))
    ensures !(IsReady(g, out, n) && Releases(g, out, node, n))
    ensures n != node && IsReady(g, out, n) ==> Tie(g, keys, out + [node], n) == Tie(g, keys, out, n)
    ensures Releases(g, out, node, n) ==>
            n != node && Tie(g, keys, out + [node], n) == EntryFor(keys, node, n)
  {
    var next := out + [node];
    assert next[..|next| - 1] == out;
    EdgesEmitted(g, keys, out, n);
    if n in g && AllIn(g[n], next) && node !in g[n] {
      assert AllIn(g[n], out);
    }
  }

  /** The heap after `node` is popped and its waiting nodes are handled. */
  lemma TiesAfter(g: Graph, keys: Keys, out: seq<EventId>, node: EventId, reverse: set<EventId>)
    requires GreedyPrefix(g, keys, out) && IsReady(g, out, node)
    requires forall n :: n in reverse <==> n in g && node in g[n]
    ensures ReadyTies(g, keys, out + [node]) ==
            (ReadyTies(g, keys, out) - {Tie(g, keys, out, node)}) + ReleasedTies(g, keys, out, node, reverse)
  {
    var before, after := ReadyTies(g, keys, out), ReadyTies(g, keys, out + [node]);
    var released := ReleasedTies(g, keys, out, node, reverse);
    var item := Tie(g, keys, out, node);
    forall t
      ensures t in after <==> (t in before && t != item) || t in released
    {
      ReadyAfter(g, keys, out, node, t.id);
      ReadyAfter(g, keys, out, node, node);
    }
  }

  lemma ConsultedAfter(g: Graph, out: seq<EventId>, node: EventId, n: EventId)
    ensures Consulted(g, out + [node], n) ==>
            Consulted(g, out, n) || (n == node && exists m :: Releases(g, out, node, m))
  {
    var next := out + [node];
    if Consulted(g, next, n) && !(n in g && g[n] == {}) {
      var i, m :| 0 <= i < |next| && next[i] == n && Releases(g, next[..i], n, m);
      if i < |out| {
        assert next[..i] == out[..i];
      } else {
        assert next[..i] == out;
      }
    }
  }

  /** Who waits for whom: `reverse[n]` holds the nodes of `g` with an edge to `n`. */
  ghost predicate IsReverse(g: Graph, reverse: Graph, nodes: set<EventId>) {
    && nodes <= reverse.Keys
    && forall n, m :: n in reverse && m in reverse[n] <==> m in nodes && m in g && n in g[m]
  }

  /** The heap entries of the nodes without edges among `nodes`. */
  ghost function Roots(g: Graph, keys: Keys, nodes: set<EventId>): set<SortKey> {
    set n | n in nodes && n in g && g[n] == {} :: EntryFor(keys, n, n)
  }

  /** The first loop: fills the heap with the nodes without edges and builds `reverse_graph`. */
  method Prepare(g: Graph, keys: Keys)
    returns (r: Result<set<SortKey>>, reverse: Graph)
    ensures r.Ok? ==> r.value == Roots(g, keys, g.Keys) && IsReverse(g, reverse, g.Keys)
    ensures r.Ok? <==> forall n | n in g && g[n] == {} :: n in keys
  {
    ghost var done: set<EventId> := {};
    reverse := map[];
    var heap: set<SortKey> := {};
    var nodes := g.Keys;
    while nodes != {}
      invariant done !! nodes && done + nodes == g.Keys
      invariant heap == Roots(g, keys, done)
      invariant IsReverse(g, reverse, done)
      invariant forall n | n in done && g[n] == {} :: n in keys
    {
      var node :| node in nodes;
      RootsGrow(g, keys, done, node);
      if g[node] == {} {
        if node !in keys {
          return Err(NotFound), reverse;
        }
        var entry := EntryFor(keys, node, node);
        assert entry !in heap;
        heap := heap + {entry};
      }
      reverse := AddSource(g, reverse, done, node);
      nodes, done := nodes - {node}, done + {node};
    }
    r := Ok(heap);
  }

  lemma RootsGrow(g: Graph, keys: Keys, nodes: set<EventId>, node: EventId)
    requires node in g
    ensures Roots(g, keys, nodes + {node}) ==
            Roots(g, keys, nodes) + if g[node] == {} then {EntryFor(keys, node, node)} else {}
  {
  }

  /** Registers `node` as a source of each of its edges. */
  method AddSource(g: Graph, before: Graph, ghost nodes: set<EventId>, node: EventId) returns (reverse: Graph)
    requires IsReverse(g, before, nodes) && node in g && node !in nodes
    ensures IsReverse(g, reverse, nodes + {node})
  {
    reverse := Entry(before, node);
    var rest := g[node];
    while rest != {}
      invariant rest <= g[node]
      invariant nodes + {node} <= reverse.Keys
      invariant forall n, m :: n in reverse && m in reverse[n] <==>
                               (m in nodes && m in g && n in g[m]) || (m == node && n in g[node] - rest)
    {
      var edge :| edge in rest;
      reverse := Entry(reverse, edge);
      reverse := reverse[edge := reverse[edge] + {node}];
      rest := rest - {edge};
    }
  }

  /** The emitted nodes are cleared from every node's edges. */
  ghost predicate Cleared(g: Graph, outdegree: Graph, emitted: set<EventId>) {
    outdegree.Keys == g.Keys && forall n | n in g :: outdegree[n] == g[n] - emitted
  }

  /** ... and `node` from the nodes of `done` besides. */
  ghost predicate PartlyCleared(g: Graph, outdegree: Graph, emitted: set<EventId>, node: EventId, done: set<EventId>) {
    outdegree.Keys == g.Keys
    && forall n | n in g :: outdegree[n] == g[n] - if n in done then emitted + {node} else emitted
  }

  lemma ClearStep(g: Graph, outdegree: Graph, emitted: set<EventId>, node: EventId, done: set<EventId>, n: EventId)
    requires PartlyCleared(g, outdegree, emitted, node, done) && n in g
    ensures PartlyCleared(g, outdegree[n := outdegree[n] - {node}], emitted, node, done + {n})
    ensures outdegree[n] - {node} == g[n] - (emitted + {node})
  {
  }

  /** A released node has no entry in the heap yet. */
  lemma EntryFresh(g: Graph, keys: Keys, out: seq<EventId>, node: EventId, done: set<EventId>, n: EventId)
    requires GreedyPrefix(g, keys, out) && IsReady(g, out, node)
    requires Releases(g, out, node, n) && n !in done
    ensures var entry := EntryFor(keys, node, n);
            entry !in ReadyTies(g, keys, out) && entry !in ReleasedTies(g, keys, out, node, done)
  {
    ReadyAfter(g, keys, out, node, n);
  }

  lemma ClearedMeansReleased(g: Graph, out: seq<EventId>, node: EventId, n: EventId)
    requires n in g && node in g[n]
    ensures g[n] - (Members(out) + {node}) == {} <==> Releases(g, out, node, n)
  {
    if g[n] - (Members(out) + {node}) == {} {
      forall e | e in g[n]
        ensures e in out + [node]
      {
        assert e !in g[n] - (Members(out) + {node});
      }
    } else {
      var e :| e in g[n] - (Members(out) + {node});
      assert e !in out + [node];
    }
  }

  /** The inner loop: clears `node` from the nodes waiting for it and pushes those it releases,
      under the key of `node`. */
  method ClearNode(g: Graph, keys: Keys, before: Graph, rest: set<SortKey>,
                   ghost sorted: seq<EventId>, node: EventId, waiting: set<EventId>)
    returns (r: Result<set<SortKey>>, outdegree: Graph)
    requires GreedyPrefix(g, keys, sorted) && IsReady(g, sorted, node)
    requires Cleared(g, before, Members(sorted))
    requires rest == ReadyTies(g, keys, sorted) - {Tie(g, keys, sorted, node)}
    requires forall n :: n in waiting <==> n in g && node in g[n]
    ensures r.Ok? ==> Cleared(g, outdegree, Members(sorted + [node]))
    ensures r.Ok? ==> r.value == ReadyTies(g, keys, sorted + [node])
    ensures r.Ok? <==> (node in keys || forall n :: !Releases(g, sorted, node, n))
  {
    ghost var emitted := Members(sorted);
    ghost var done: set<EventId> := {};
    outdegree := before;
    var heap := rest;
    var left := waiting;
    while left != {}
      invariant done !! left && done + left == waiting
      invariant PartlyCleared(g, outdegree, emitted, node, done)
      invariant heap == rest + ReleasedTies(g, keys, sorted, node, done)
      invariant node in keys || forall n | n in done :: !Releases(g, sorted, node, n)
    {
      var parent :| parent in left;
      assert parent in outdegree;  // the source's second `expect`
      ClearStep(g, outdegree, emitted, node, done, parent);
      outdegree := outdegree[parent := outdegree[parent] - {node}];
      ClearedMeansReleased(g, sorted, node, parent);
      ReleasedGrow(g, keys, sorted, node, done, parent);
      if outdegree[parent] == {} {  // the source's `out.is_empty()`
        if node !in keys {
          return Err(NotFound), outdegree;
        }
        var entry := EntryFor(keys, node, parent);
        EntryFresh(g, keys, sorted, node, done, parent);
        heap := heap + {entry};
      }
      left, done := left - {parent}, done + {parent};
    }
    TiesAfter(g, keys, sorted, node, waiting);
    assert Members(sorted + [node]) == emitted + {node};
    r := Ok(heap);
  }

  /** Repeatedly takes the least entry off the heap and clears it from the nodes that wait for it.
      `reverse` and `outdegree` are the source's `reverse_graph` and `outdegree_map`; sets are
      walked in any order. No entry is ever pushed twice, so a set serves for the heap. */
  method LexicographicalTopologicalSort(g: Graph, keys: Keys)
    returns (r: Result<seq<EventId>>)
    ensures r.Ok? ==> GreedyOrder(g, keys, r.value)
    ensures r.Ok? ==> AllKeysFound(g, keys, r.value)
    ensures r.Err? ==> exists out :: GreedyPrefix(g, keys, out) && !AllKeysFound(g, keys, out)
  {
    var outdegree := g;
    var roots, reverse := Prepare(g, keys);
    var sorted: seq<EventId> := [];
    if roots.Err? {
      assert GreedyPrefix(g, keys, sorted) && !AllKeysFound(g, keys, sorted);
      return Err(roots.error);
    }
    var heap := roots.value;
    RootTies(g, keys);

    while heap != {}
      invariant SortState(g, keys, sorted, heap, outdegree)
      decreases g.Keys - Members(sorted)
    {
      assert forall n | n in g :: n in reverse;  // the source's first `expect`
      r, outdegree, heap := PopNode(g, keys, sorted, heap, outdegree, reverse);
      if r.Err? {
        return;
      }
      sorted := r.value;
    }
    NothingReady(g, keys, sorted);
    return Ok(sorted);
  }

  /** What holds between two iterations. */
  ghost predicate SortState(g: Graph, keys: Keys, sorted: seq<EventId>, heap: set<SortKey>, outdegree: Graph) {
    && GreedyPrefix(g, keys, sorted)
    && heap == ReadyTies(g, keys, sorted)
    && Cleared(g, outdegree, Members(sorted))
    && AllKeysFound(g, keys, sorted)
  }

  /** One iteration: pops the least entry, clears its node and emits it. */
  method PopNode(g: Graph, keys: Keys, sorted: seq<EventId>, entries: set<SortKey>, degrees: Graph, reverse: Graph)
    returns (r: Result<seq<EventId>>, outdegree: Graph, heap: set<SortKey>)
    requires SortState(g, keys, sorted, entries, degrees) && entries != {} && IsReverse(g, reverse, g.Keys)
    ensures r.Ok? ==> SortState(g, keys, r.value, heap, outdegree)
    ensures r.Ok? ==> g.Keys - Members(r.value) < g.Keys - Members(sorted)
    ensures r.Err? ==> exists out :: GreedyPrefix(g, keys, out) && !AllKeysFound(g, keys, out)
  {
    heap := entries;
    var item := PopLeast(heap);
    var node := item.id;
    LeastTie(g, keys, sorted, item);
    GreedyExtend(g, keys, sorted, node);
    var next;
    next, outdegree := ClearNode(g, keys, degrees, heap - {item}, sorted, node, reverse[node]);
    if next.Err? {
      ReleaseConsults(g, sorted, node);
      assert !AllKeysFound(g, keys, sorted + [node]);
      return Err(next.error), outdegree, heap;
    }
    FoundAfter(g, keys, sorted, node);
    return Ok(sorted + [node]), outdegree, next.value;
  }

  ghost predicate AllKeysFound(g: Graph, keys: Keys, out: seq<EventId>) {
    forall n | Consulted(g, out, n) :: n in keys
  }

  lemma GreedyExtend(g: Graph, keys: Keys, out: seq<EventId>, node: EventId)
    requires GreedyPrefix(g, keys, out) && IsLeastReady(g, keys, out, node)
    ensures GreedyPrefix(g, keys, out + [node])
    ensures Members(out + [node]) == Members(out) + {node} && node in g.Keys - Members(out)
  {
    assert (out + [node])[..|out|] == out;
  }

  lemma ReleaseConsults(g: Graph, out: seq<EventId>, node: EventId)
    requires exists n :: Releases(g, out, node, n)
    ensures Consulted(g, out + [node], node)
  {
    var n :| Releases(g, out, node, n);
    assert (out + [node])[..|out|] == out && (out + [node])[|out|] == node;
  }

  lemma FoundAfter(g: Graph, keys: Keys, out: seq<EventId>, node: EventId)
    requires AllKeysFound(g, keys, out)
    requires node in keys || forall n :: !Releases(g, out, node, n)
    ensures AllKeysFound(g, keys, out + [node])
  {
    forall n | Consulted(g, out + [node], n)
      ensures n in keys
    {
      ConsultedAfter(g, out, node, n);
    }
  }

  lemma RootTies(g: Graph, keys: Keys)
    ensures ReadyTies(g, keys, []) == Roots(g, keys, g.Keys)
  {
  }

  lemma NothingReady(g: Graph, keys: Keys, out: seq<EventId>)
    requires ReadyTies(g, keys, out) == {}
    ensures forall n :: !IsReady(g, out, n)
  {
    forall n
      ensures !IsReady(g, out, n)
    {
      if IsReady(g, out, n) {
        NoTie(g, keys, out, n);
      }
    }
  }

  lemma NoTie(g: Graph, keys: Keys, out: seq<EventId>, n: EventId)
    requires IsReady(g, out, n)
    ensures ReadyTies(g, keys, out) != {}
  {
    assert Tie(g, keys, out, n) in ReadyTies(g, keys, out);
  }

  /** The least heap entry is the least ready node. */
  lemma LeastTie(g: Graph, keys: Keys, out: seq<EventId>, item: SortKey)
    requires item in ReadyTies(g, keys, out) && forall other | other in ReadyTies(g, keys, out) :: KeyLeq(item, other)
    ensures IsLeastReady(g, keys, out, item.id) && Tie(g, keys, out, item.id) == item
  {
    forall m | IsReady(g, out, m)
      ensures KeyLeq(item, Tie(g, keys, out, m))
    {
      assert Tie(g, keys, out, m) in ReadyTies(g, keys, out);
    }
  }

  method PopLeast(heap: set<SortKey>) returns (item: SortKey)
    requires heap != {}
    ensures item in heap && forall other | other in heap :: KeyLeq(item, other)
  {
    ghost var least := LeastKey(heap);
    item :| item in heap && forall other | other in heap :: KeyLeq(item, other);
  }

  /** `entry(k).or_default()`. */
  function Entry(m: map<EventId, set<EventId>>, k: EventId): (r: map<EventId, set<EventId>>)
    ensures r.Keys == m.Keys + {k}
    ensures forall n | n in r :: r[n] == if n in m then m[n] else {}
  {
    if k in m then m else m[k := {}]
  }
}
