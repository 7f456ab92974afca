/** The topological sort gives a node the key of the node that releases it, where its documentation
    and the specification sort every node by its own key. When that matters, and when it does not. */
module ReleaserKeys {
  import opened Identifiers
  import opened TopologicalSort

  // ---- The order by own keys ----

  /** The least ready node, each under its own key. */
  ghost predicate IsLeastByOwn(g: Graph, keys: Keys, out: seq<EventId>, n: EventId) {
    IsReady(g, out, n) && forall m | IsReady(g, out, m) :: KeyLeq(EntryFor(keys, n, n), EntryFor(keys, m, m))
  }

  ghost predicate OwnKeyPrefix(g: Graph, keys: Keys, out: seq<EventId>) {
    out != [] ==>
      var i := |out| - 1;
      OwnKeyPrefix(g, keys, out[..i]) && IsLeastByOwn(g, keys, out[..i], out[i])
  }

  ghost predicate OwnKeyOrder(g: Graph, keys: Keys, out: seq<EventId>) {
    OwnKeyPrefix(g, keys, out) && forall n :: !IsReady(g, out, n)
  }

  // ---- When the two agree ----

  predicate SameKeyAlongEdges(g: Graph, keys: Keys) {
    forall n, e | n in g && e in g[n] :: KeyOf(keys, e) == KeyOf(keys, n)
  }

  lemma TieIsOwn(g: Graph, keys: Keys, out: seq<EventId>, n: EventId)
    requires SameKeyAlongEdges(g, keys) && IsReady(g, out, n)
    ensures Tie(g, keys, out, n) == EntryFor(keys, n, n)
  {
    if g[n] != {} {
      var e :| e in g[n];
      assert e in out;
      assert LastIn(out, g[n]) in g[n];
    }
  }

  lemma {:induction false} OwnKeyPrefixes(g: Graph, keys: Keys, out: seq<EventId>)
    requires SameKeyAlongEdges(g, keys)
    ensures GreedyPrefix(g, keys, out) <==> OwnKeyPrefix(g, keys, out)
  {
    if out == [] {
    } else {
      var i := |out| - 1;
      OwnKeyPrefixes(g, keys, out[..i]);
      forall m | IsReady(g, out[..i], m)
        ensures Tie(g, keys, out[..i], m) == EntryFor(keys, m, m)
      {
        TieIsOwn(g, keys, out[..i], m);
      }
    }
  }

  /** If nodes joined by an edge have equal keys, the order is the one by own keys. */
  lemma SameKeysSameOrder(g: Graph, keys: Keys, out: seq<EventId>)
    requires SameKeyAlongEdges(g, keys)
    ensures GreedyOrder(g, keys, out) <==> OwnKeyOrder(g, keys, out)
  {
    OwnKeyPrefixes(g, keys, out);
  }

  // ---- Nodes released together ----

  /** A ready node stays ready under the same key until it is emitted. */
  lemma {:induction false} ReadyStays(g: Graph, keys: Keys, out: seq<EventId>, i: nat, j: nat, n: EventId)
    requires GreedyPrefix(g, keys, out) && i <= j <= |out| && IsReady(g, out[..i], n) && n !in out[..j]
    ensures IsReady(g, out[..j], n) && Tie(g, keys, out[..j], n) == Tie(g, keys, out[..i], n)
    decreases j
  {
    if i == j {
    } else {
      var last := j - 1;
      assert out[..j] == out[..last] + [out[last]];
      ReadyStays(g, keys, out, i, last, n);
      GreedyAt(g, keys, out, last);
      ReadyAfter(g, keys, out[..last], out[last], n);
    }
  }

  /** Nodes released by the same node come out in the order of their ids, whatever their own keys. */
  lemma ReleasedTogether(g: Graph, keys: Keys, out: seq<EventId>, i: nat, j: nat, k: nat)
    requires GreedyPrefix(g, keys, out) && i < j <= k < |out|
    requires Releases(g, out[..i], out[i], out[j]) && Releases(g, out[..i], out[i], out[k])
    ensures LexLeq(out[j], out[k])
  {
    assert out[..i + 1] == out[..i] + [out[i]];
    GreedyAt(g, keys, out, i);
    GreedyAt(g, keys, out, j);
    ReleasedUnder(g, keys, out, i, j, j);
    ReleasedUnder(g, keys, out, i, j, k);
  }

  lemma ReleasedUnder(g: Graph, keys: Keys, out: seq<EventId>, i: nat, j: nat, k: nat)
    requires GreedyPrefix(g, keys, out) && i < j <= k < |out| && Releases(g, out[..i], out[i], out[k])
    ensures IsReady(g, out[..j], out[k]) && Tie(g, keys, out[..j], out[k]) == EntryFor(keys, out[i], out[k])
  {
    assert out[..i + 1] == out[..i] + [out[i]];
    GreedyAt(g, keys, out, i);
    ReadyAfter(g, keys, out[..i], out[i], out[k]);
    NoDuplicates(g, keys, out);
    ReadyStays(g, keys, out, i + 1, j, out[k]);
  }

  // ---- When they differ ----

  /** Two nodes that wait for a third. */
  function Fork(o: EventId, p: EventId, q: EventId): Graph {
    map[o := {}, p := {o}, q := {o}]
  }

  lemma ForkReady(o: EventId, p: EventId, q: EventId, n: EventId)
    requires o != p && o != q && p != q
    ensures IsReady(Fork(o, p, q), [], n) <==> n == o
    ensures IsReady(Fork(o, p, q), [o], n) <==> n == p || n == q
    ensures IsReady(Fork(o, p, q), [o, p], n) <==> n == q
    ensures !IsReady(Fork(o, p, q), [o, p, q], n)
  {
    assert Fork(o, p, q)[o] == {} && Fork(o, p, q)[p] == {o} && Fork(o, p, q)[q] == {o};
  }

  lemma OfThree(g: Graph, keys: Keys, a: EventId, b: EventId, c: EventId)
    ensures GreedyPrefix(g, keys, [a, b, c]) <==>
            IsLeastReady(g, keys, [], a) && IsLeastReady(g, keys, [a], b) && IsLeastReady(g, keys, [a, b], c)
    ensures OwnKeyPrefix(g, keys, [a, b, c]) <==>
            IsLeastByOwn(g, keys, [], a) && IsLeastByOwn(g, keys, [a], b) && IsLeastByOwn(g, keys, [a, b], c)
  {
    assert [a, b, c][..2] == [a, b] && [a, b][..1] == [a] && [a][..0] == [];
    assert GreedyPrefix(g, keys, [a]) <==> IsLeastReady(g, keys, [], a);
    assert GreedyPrefix(g, keys, [a, b]) <==> GreedyPrefix(g, keys, [a]) && IsLeastReady(g, keys, [a], b);
    assert OwnKeyPrefix(g, keys, [a]) <==> IsLeastByOwn(g, keys, [], a);
    assert OwnKeyPrefix(g, keys, [a, b]) <==> OwnKeyPrefix(g, keys, [a]) && IsLeastByOwn(g, keys, [a], b);
  }

  lemma OnlyReady(g: Graph, keys: Keys, out: seq<EventId>, n: EventId)
    requires forall m :: IsReady(g, out, m) <==> m == n
    ensures IsLeastReady(g, keys, out, n) && IsLeastByOwn(g, keys, out, n)
  {
    KeyTotal(Tie(g, keys, out, n), Tie(g, keys, out, n));
    KeyTotal(EntryFor(keys, n, n), EntryFor(keys, n, n));
  }

  lemma TwoReady(g: Graph, keys: Keys, out: seq<EventId>, p: EventId, q: EventId)
    requires forall m :: IsReady(g, out, m) <==> m == p || m == q
    ensures IsLeastReady(g, keys, out, p) <==> KeyLeq(Tie(g, keys, out, p), Tie(g, keys, out, q))
    ensures IsLeastByOwn(g, keys, out, p) <==> KeyLeq(EntryFor(keys, p, p), EntryFor(keys, q, q))
  {
    KeyTotal(Tie(g, keys, out, p), Tie(g, keys, out, p));
    KeyTotal(EntryFor(keys, p, p), EntryFor(keys, p, p));
    assert IsReady(g, out, p) && IsReady(g, out, q);
  }

  /** With whatever keys, the code emits the one with the smaller id first; the order by own keys does
      so if and only if its own key is not above the other's. */
  lemma ForkOrder(o: EventId, p: EventId, q: EventId, keys: Keys)
    requires o != p && o != q && p != q && LexLeq(p, q)
    ensures GreedyOrder(Fork(o, p, q), keys, [o, p, q])
    ensures OwnKeyOrder(Fork(o, p, q), keys, [o, p, q]) <==> KeyLeq(EntryFor(keys, p, p), EntryFor(keys, q, q))
  {
    var g := Fork(o, p, q);
    forall n
      ensures IsReady(g, [], n) <==> n == o
      ensures IsReady(g, [o], n) <==> n == p || n == q
      ensures IsReady(g, [o, p], n) <==> n == q
      ensures !IsReady(g, [o, p, q], n)
    {
      ForkReady(o, p, q, n);
    }
    OnlyReady(g, keys, [], o);
    TwoReady(g, keys, [o], p, q);
    OnlyReady(g, keys, [o, p], q);
    OfThree(g, keys, o, p, q);
  }

  /** Where the order by own keys would start with the more powerful sender, the code does not. */
  lemma ReleaserDecides(keys: Keys)
    requires KeyOf(keys, "p") == PowerAge(0, 0) && KeyOf(keys, "q") == PowerAge(100, 0)
    ensures GreedyOrder(Fork("o", "p", "q"), keys, ["o", "p", "q"])
    ensures !OwnKeyOrder(Fork("o", "p", "q"), keys, ["o", "p", "q"])
  {
    assert "o"[0] < "p"[0] < "q"[0];
    ForkOrder("o", "p", "q", keys);
  }
}
