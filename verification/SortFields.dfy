/** What the topological sort compares, by the fields of the keys. */
module SortFields {
  import opened Identifiers
  import opened TopologicalSort

  /** The node whose key a ready node carries: itself without edges, else its edge target that was emitted
      last. */
  ghost predicate CarriesKeyOf(g: Graph, out: seq<EventId>, n: EventId, source: EventId)
    requires n in g
  {
    if g[n] == {} then source == n
    else exists i :: 0 <= i < |out| && out[i] == source && source in g[n] && forall j | i < j < |out| :: out[j] !in g[n]
  }

  /** More power first, then the older key, then the smaller id. */
  ghost predicate ComesFirst(keys: Keys, a: EventId, m: EventId, b: EventId, n: EventId) {
    var x, y := KeyOf(keys, a), KeyOf(keys, b);
    || x.power > y.power
    || (x.power == y.power && x.age < y.age)
    || (x.power == y.power && x.age == y.age && (m == n || LexLess(m, n)))
  }

  lemma {:induction false} LastInByIndex(out: seq<EventId>, s: set<EventId>) returns (i: nat)
    requires exists e :: e in s && e in out
    ensures i < |out| && LastIn(out, s) == out[i] && out[i] in s && forall j | i < j < |out| :: out[j] !in s
  {
    if out[|out| - 1] in s {
      i := |out| - 1;
    } else {
      var front := out[..|out| - 1];
      var e :| e in s && e in out;
      assert out == front + [out[|out| - 1]];
      assert e in front;
      i := LastInByIndex(front, s);
      assert forall j | 0 <= j < |front| :: out[j] == front[j];
    }
  }

  lemma TieByFields(g: Graph, keys: Keys, out: seq<EventId>, n: EventId, source: EventId)
    requires IsReady(g, out, n) && CarriesKeyOf(g, out, n, source)
    ensures Tie(g, keys, out, n) == EntryFor(keys, source, n)
  {
    if g[n] != {} {
      assert exists e :: e in g[n] && e in out by { var e :| e in g[n]; }
      var i := LastInByIndex(out, g[n]);
      var k :| 0 <= k < |out| && out[k] == source && source in g[n] && forall j | k < j < |out| :: out[j] !in g[n];
      assert i == k;
    }
  }

  /** At every position stands a ready node that comes first among the ready ones, under the keys they
      carry. */
  lemma FirstByFields(g: Graph, keys: Keys, out: seq<EventId>, i: nat, a: EventId, n: EventId, b: EventId)
    requires GreedyPrefix(g, keys, out) && i < |out| && IsReady(g, out[..i], n)
    requires out[i] in g && CarriesKeyOf(g, out[..i], out[i], a) && CarriesKeyOf(g, out[..i], n, b)
    ensures ComesFirst(keys, a, out[i], b, n)
  {
    GreedyAt(g, keys, out, i);
    TieByFields(g, keys, out[..i], out[i], a);
    TieByFields(g, keys, out[..i], n, b);
    LexByDifference(out[i], n);
  }

  /** Nodes without edges come out by power, then by age, then by id. */
  lemma RootsByFields(g: Graph, keys: Keys, out: seq<EventId>, i: nat, j: nat)
    requires GreedyPrefix(g, keys, out) && i < j < |out|
    requires out[i] in g && g[out[i]] == {} && out[j] in g && g[out[j]] == {}
    ensures ComesFirst(keys, out[i], out[i], out[j], out[j])
  {
    NoDuplicates(g, keys, out);
    FirstByFields(g, keys, out, i, out[i], out[j], out[j]);
  }
}
