/** Exactly the graphs on which the keys the code gives to released nodes never matter. */
module OrderAgreement {
  import opened Identifiers
  import opened TopologicalSort
  import opened ReleaserKeys

  // ---- The condition ----

  /** A path of one or more edges. */
  ghost predicate IsDescent(g: Graph, p: seq<EventId>) {
    |p| >= 2 && forall i | 0 <= i < |p| - 1 :: p[i] in g && p[i + 1] in g[p[i]]
  }

  ghost predicate Leads(g: Graph, n: EventId, a: EventId) {
    exists p :: IsDescent(g, p) && p[0] == n && p[|p| - 1] == a
  }

  /** Every node with edges comes before or after every other node along the edges. */
  ghost predicate WaitersComparable(g: Graph) {
    forall n, m | n in g && m in g && n != m && g[n] != {} :: Leads(g, n, m) || Leads(g, m, n)
  }

  /** Under any keys for its nodes, the graph is sorted as by own keys. */
  ghost predicate AlwaysByOwnKeys(g: Graph) {
    forall keys: Keys, out | g.Keys <= keys.Keys :: GreedyOrder(g, keys, out) <==> OwnKeyOrder(g, keys, out)
  }

  // ---- A comparable node with edges is ready alone ----

  lemma {:induction false} DescentEmitted(g: Graph, keys: Keys, out: seq<EventId>, p: seq<EventId>, i: nat)
    requires GreedyPrefix(g, keys, out) && IsDescent(g, p) && IsReady(g, out, p[0]) && 0 < i < |p|
    ensures p[i] in out
  {
    if i == 1 {
    } else {
      DescentEmitted(g, keys, out, p, i - 1);
      EdgesEmitted(g, keys, out, p[i - 1]);
    }
  }

  lemma LeadsEmitted(g: Graph, keys: Keys, out: seq<EventId>, n: EventId, a: EventId)
    requires GreedyPrefix(g, keys, out) && IsReady(g, out, n) && Leads(g, n, a)
    ensures a in out
  {
    var p :| IsDescent(g, p) && p[0] == n && p[|p| - 1] == a;
    DescentEmitted(g, keys, out, p, |p| - 1);
  }

  lemma ReadyAlone(g: Graph, keys: Keys, out: seq<EventId>, n: EventId, m: EventId)
    requires WaitersComparable(g) && GreedyPrefix(g, keys, out) && IsReady(g, out, n) && IsReady(g, out, m)
    ensures n == m || g[n] == {}
  {
    if n != m && g[n] != {} {
      if Leads(g, n, m) {
        LeadsEmitted(g, keys, out, n, m);
      } else {
        LeadsEmitted(g, keys, out, m, n);
      }
    }
  }

  lemma SameLeast(g: Graph, keys: Keys, out: seq<EventId>, n: EventId)
    requires WaitersComparable(g) && GreedyPrefix(g, keys, out)
    ensures IsLeastReady(g, keys, out, n) <==> IsLeastByOwn(g, keys, out, n)
  {
    if IsReady(g, out, n) {
      KeyTotal(Tie(g, keys, out, n), Tie(g, keys, out, n));
      KeyTotal(EntryFor(keys, n, n), EntryFor(keys, n, n));
      forall m | IsReady(g, out, m)
        ensures n == m || (Tie(g, keys, out, m) == EntryFor(keys, m, m) && Tie(g, keys, out, n) == EntryFor(keys, n, n))
      {
        ReadyAlone(g, keys, out, n, m);
        ReadyAlone(g, keys, out, m, n);
      }
    }
  }

  lemma {:induction false} SamePrefixes(g: Graph, keys: Keys, out: seq<EventId>)
    requires WaitersComparable(g)
    ensures GreedyPrefix(g, keys, out) <==> OwnKeyPrefix(g, keys, out)
  {
    if out == [] {
    } else {
      var i := |out| - 1;
      SamePrefixes(g, keys, out[..i]);
      if GreedyPrefix(g, keys, out[..i]) {
        SameLeast(g, keys, out[..i], out[i]);
      }
    }
  }

  // ---- Sets that contain their edges ----

  ghost predicate EdgeClosed(g: Graph, b: set<EventId>) {
    forall a | a in b :: a in g && g[a] <= b
  }

  /** As long as some of such a set is not emitted, some of it is ready. */
  lemma {:induction false} SomeReady(g: Graph, level: map<EventId, nat>, out: seq<EventId>, b: set<EventId>, a: EventId)
    returns (s: EventId)
    requires ClosedAcyclic(g, level) && EdgeClosed(g, b) && a in b && a !in out
    ensures s in b && IsReady(g, out, s)
    decreases level[a]
  {
    if AllIn(g[a], out) {
      s := a;
    } else {
      var e :| e in g[a] && e !in out;
      s := SomeReady(g, level, out, b, e);
    }
  }

  ghost function After(g: Graph, n: EventId): set<EventId> {
    set a | a in g && Leads(g, n, a)
  }

  lemma {:induction false} DescentDown(g: Graph, level: map<EventId, nat>, p: seq<EventId>, i: nat)
    requires ClosedAcyclic(g, level) && IsDescent(g, p) && 0 < i < |p|
    ensures p[i] in g && p[0] in g && level[p[i]] < level[p[0]]
  {
    if i == 1 {
      assert p[0] in g && p[0 + 1] in g[p[0]];
    } else {
      DescentDown(g, level, p, i - 1);
      assert p[i - 1] in g && p[i - 1 + 1] in g[p[i - 1]];
    }
  }

  lemma LeadsFurther(g: Graph, n: EventId, a: EventId, e: EventId)
    requires Leads(g, n, a) && a in g && e in g[a]
    ensures Leads(g, n, e)
  {
    var p :| IsDescent(g, p) && p[0] == n && p[|p| - 1] == a;
    var q := p + [e];
    assert IsDescent(g, q) && q[0] == n && q[|q| - 1] == e;
  }

  lemma LeadsOne(g: Graph, n: EventId, e: EventId)
    requires n in g && e in g[n]
    ensures Leads(g, n, e)
  {
    assert IsDescent(g, [n, e]) && [n, e][0] == n && [n, e][|[n, e]| - 1] == e;
  }

  /** What a node waits for contains its edges, and not the node itself. */
  lemma AfterClosed(g: Graph, level: map<EventId, nat>, n: EventId)
    requires ClosedAcyclic(g, level) && n in g
    ensures EdgeClosed(g, After(g, n)) && g[n] <= After(g, n) && n !in After(g, n)
  {
    forall a, e | a in After(g, n) && e in g[a]
      ensures e in After(g, n)
    {
      LeadsFurther(g, n, a, e);
    }
    forall e | e in g[n]
      ensures e in After(g, n)
    {
      LeadsOne(g, n, e);
    }
    if Leads(g, n, n) {
      var p :| IsDescent(g, p) && p[0] == n && p[|p| - 1] == n;
      DescentDown(g, level, p, |p| - 1);
    }
  }

  // ---- What comes first under given keys ----

  lemma {:induction false} OwnKeyAt(g: Graph, keys: Keys, out: seq<EventId>, i: nat)
    requires OwnKeyPrefix(g, keys, out) && i < |out|
    ensures IsLeastByOwn(g, keys, out[..i], out[i])
    decreases |out|
  {
    var last := |out| - 1;
    if i == last {
    } else {
      OwnKeyAt(g, keys, out[..last], i);
      assert out[..last][..i] == out[..i];
    }
  }

  /** By own keys, a set that contains its edges comes out before a node with less power. */
  lemma PowerfulFirst(g: Graph, level: map<EventId, nat>, keys: Keys, out: seq<EventId>, b: set<EventId>, i: nat)
    requires ClosedAcyclic(g, level) && OwnKeyPrefix(g, keys, out) && i < |out|
    requires EdgeClosed(g, b) && out[i] !in b && forall a | a in b :: KeyOf(keys, a).power > KeyOf(keys, out[i]).power
    ensures forall a | a in b :: a in out[..i]
  {
    OwnKeyAt(g, keys, out, i);
    forall a | a in b
      ensures a in out[..i]
    {
      if a !in out[..i] {
        var s := SomeReady(g, level, out[..i], b, a);
      }
    }
  }

  /** Until `n` is emitted, some ready node has a key above power `p`, if all that `n` waits for do. */
  lemma ReadyAbove(g: Graph, level: map<EventId, nat>, keys: Keys, out: seq<EventId>, n: EventId, p: int) returns (s: EventId)
    requires ClosedAcyclic(g, level) && n in g && g[n] != {} && n !in out
    requires forall a | a in After(g, n) :: KeyOf(keys, a).power > p
    ensures IsReady(g, out, s) && Tie(g, keys, out, s).rank < -p
  {
    AfterClosed(g, level, n);
    s := SomeReady(g, level, out, After(g, n) + {n}, n);
    if g[s] != {} {
      var e :| e in g[s];
      assert e in out;
      assert LastIn(out, g[s]) in After(g, n);
    }
  }

  /** In the code, a node that waits only for nodes with more power comes out before a node without
      edges, whatever its own key. */
  lemma ReleasedFirst(g: Graph, level: map<EventId, nat>, keys: Keys, out: seq<EventId>, n: EventId, i: nat)
    requires ClosedAcyclic(g, level) && GreedyPrefix(g, keys, out) && i < |out|
    requires n in g && g[n] != {} && out[i] in g && g[out[i]] == {}
    requires forall a | a in After(g, n) :: KeyOf(keys, a).power > KeyOf(keys, out[i]).power
    ensures n in out[..i]
  {
    GreedyAt(g, keys, out, i);
    if n !in out[..i] {
      var s := ReadyAbove(g, level, keys, out[..i], n, KeyOf(keys, out[i]).power);
    }
  }

  // ---- A greedy order exists ----

  lemma LeastReadyExists(g: Graph, keys: Keys, out: seq<EventId>, n: EventId) returns (least: EventId)
    requires IsReady(g, out, n)
    ensures IsLeastReady(g, keys, out, least)
  {
    assert Tie(g, keys, out, n) in ReadyTies(g, keys, out);
    var tie := LeastKey(ReadyTies(g, keys, out));
    least :| IsReady(g, out, least) && Tie(g, keys, out, least) == tie;
    forall m | IsReady(g, out, m)
      ensures KeyLeq(tie, Tie(g, keys, out, m))
    {
      assert Tie(g, keys, out, m) in ReadyTies(g, keys, out);
    }
  }

  lemma EmitOne(g: Graph, keys: Keys, out: seq<EventId>, n: EventId)
    requires GreedyPrefix(g, keys, out) && IsLeastReady(g, keys, out, n)
    ensures GreedyPrefix(g, keys, out + [n])
    ensures g.Keys - Members(out + [n]) < g.Keys - Members(out)
  {
    assert (out + [n])[..|out|] == out;
    assert Members(out + [n]) == Members(out) + {n} && n in g.Keys - Members(out);
  }

  lemma {:induction false} GreedyGrows(g: Graph, keys: Keys, begun: seq<EventId>) returns (out: seq<EventId>)
    requires GreedyPrefix(g, keys, begun)
    ensures GreedyOrder(g, keys, out)
    decreases g.Keys - Members(begun)
  {
    if n :| IsReady(g, begun, n) {
      var least := LeastReadyExists(g, keys, begun, n);
      EmitOne(g, keys, begun, least);
      out := GreedyGrows(g, keys, begun + [least]);
    } else {
      out := begun;
    }
  }

  lemma GreedyExists(g: Graph, keys: Keys) returns (out: seq<EventId>)
    ensures GreedyOrder(g, keys, out)
  {
    out := GreedyGrows(g, keys, []);
  }

  // ---- Keys that tell the orders apart ----

  /** Power 2 for `high`, power 1 for `middle`, none for the other nodes. */
  function Ranked(g: Graph, high: set<EventId>, middle: EventId): Keys {
    map n | n in g :: PowerAge(if n in high then 2 else if n == middle then 1 else 0, 0)
  }

  /** Of two incomparable nodes, `n` with edges and `m` without: what `n` waits for gets most power and `m`
      more than `n`. By own keys `m` comes first, in the code `n` does. */
  lemma RootApart(g: Graph, level: map<EventId, nat>, n: EventId, m: EventId)
    requires ClosedAcyclic(g, level) && n in g && m in g && n != m && g[n] != {} && g[m] == {} && !Leads(g, n, m)
    ensures !AlwaysByOwnKeys(g)
  {
    var keys := Ranked(g, After(g, n), m);
    AfterClosed(g, level, n);
    var out := GreedyExists(g, keys);
    EmitsEveryNode(g, keys, out, level);
    var i :| 0 <= i < |out| && out[i] == m;
    ReleasedFirst(g, level, keys, out, n, i);
    var j :| 0 <= j < i && out[..i][j] == n;
    if OwnKeyOrder(g, keys, out) {
      PowerfulFirst(g, level, keys, out, {m}, j);
      var k :| 0 <= k < j && out[..j][k] == m;
      NoDuplicates(g, keys, out);
    }
  }

  /** The keys of nodes with edges do not matter before these nodes are emitted. */
  ghost predicate SameButFor(keys: Keys, keys': Keys, n: EventId, m: EventId) {
    forall x | x != n && x != m :: KeyOf(keys, x) == KeyOf(keys', x)
  }

  lemma SameTies(g: Graph, keys: Keys, keys': Keys, out: seq<EventId>, n: EventId, m: EventId, x: EventId)
    requires SameButFor(keys, keys', n, m) && n !in out && m !in out && IsReady(g, out, x)
    requires n in g && g[n] != {} && m in g && g[m] != {}
    ensures Tie(g, keys, out, x) == Tie(g, keys', out, x)
  {
    if g[x] != {} {
      var e :| e in g[x];
      assert e in out;
      assert LastIn(out, g[x]) in out;
    }
  }

  lemma {:induction false} SameGreedyPrefix(g: Graph, keys: Keys, keys': Keys, out: seq<EventId>, n: EventId, m: EventId)
    requires SameButFor(keys, keys', n, m) && n in g && g[n] != {} && m in g && g[m] != {}
    requires GreedyPrefix(g, keys, out) && out != [] && n !in out[..|out| - 1] && m !in out[..|out| - 1]
    ensures GreedyPrefix(g, keys', out)
  {
    var i := |out| - 1;
    forall x | IsReady(g, out[..i], x)
      ensures Tie(g, keys, out[..i], x) == Tie(g, keys', out[..i], x)
    {
      SameTies(g, keys, keys', out[..i], n, m, x);
    }
    if i == 0 {
    } else {
      assert forall x | x in out[..i][..i - 1] :: x in out[..i];
      SameGreedyPrefix(g, keys, keys', out[..i], n, m);
    }
  }

  /** If the code sorts by own keys, the node that gets more power comes first. */
  lemma MiddleFirst(g: Graph, level: map<EventId, nat>, high: set<EventId>, n: EventId, m: EventId) returns (out: seq<EventId>, i: nat)
    requires ClosedAcyclic(g, level) && AlwaysByOwnKeys(g) && n in g && m in g && n != m
    requires EdgeClosed(g, high) && g[n] <= high && n !in high && m !in high
    ensures GreedyOrder(g, Ranked(g, high, n), out) && i < |out| && out[i] == n && n !in out[..i] && m !in out[..i]
    ensures forall k | 0 <= k < |out| && out[k] == m :: n in out[..k]
  {
    var keys := Ranked(g, high, n);
    out := GreedyExists(g, keys);
    EmitsEveryNode(g, keys, out, level);
    NoDuplicates(g, keys, out);
    assert OwnKeyOrder(g, keys, out);
    i :| 0 <= i < |out| && out[i] == n;
    forall k | 0 <= k < |out| && out[k] == m
      ensures n in out[..k]
    {
      PowerfulFirst(g, level, keys, out, high + {n}, k);
    }
  }

  /** The code emits the same one of two incomparable nodes with edges first, whichever of them gets more
      power. */
  lemma SameFirst(g: Graph, keys: Keys, keys': Keys, n: EventId, m: EventId, a: seq<EventId>, b: seq<EventId>, i: nat)
    requires SameButFor(keys, keys', n, m) && n in g && g[n] != {} && m in g && g[m] != {}
    requires GreedyOrder(g, keys, a) && GreedyOrder(g, keys', b)
    requires i < |a| && a[i] == n && n !in a[..i] && m !in a[..i]
    ensures i < |b| && b[i] == n && m !in b[..i]
  {
    PrefixIsGreedy(g, keys, a, i + 1);
    assert a[..i + 1][..i] == a[..i];
    SameGreedyPrefix(g, keys, keys', a[..i + 1], n, m);
    GreedyPrefixStarts(g, keys', a[..i + 1], b);
    assert b[..i + 1] == a[..i + 1] && b[..i] == b[..i + 1][..i];
  }

  lemma WaitersApart(g: Graph, level: map<EventId, nat>, n: EventId, m: EventId)
    requires ClosedAcyclic(g, level) && n in g && m in g && n != m && g[n] != {} && g[m] != {}
    requires !Leads(g, n, m) && !Leads(g, m, n)
    ensures !AlwaysByOwnKeys(g)
  {
    if AlwaysByOwnKeys(g) {
      var high := After(g, n) + After(g, m);
      HighClosed(g, level, n, m);
      var a, i := MiddleFirst(g, level, high, n, m);
      var b, j := MiddleFirst(g, level, high, m, n);
      SameFirst(g, Ranked(g, high, n), Ranked(g, high, m), n, m, a, b, i);
    }
  }

  lemma HighClosed(g: Graph, level: map<EventId, nat>, n: EventId, m: EventId)
    requires ClosedAcyclic(g, level) && n in g && m in g && !Leads(g, n, m) && !Leads(g, m, n)
    ensures var high := After(g, n) + After(g, m);
            EdgeClosed(g, high) && g[n] <= high && g[m] <= high && n !in high && m !in high
  {
    AfterClosed(g, level, n);
    AfterClosed(g, level, m);
  }

  lemma PrefixIsGreedy(g: Graph, keys: Keys, out: seq<EventId>, i: nat)
    requires GreedyPrefix(g, keys, out) && i <= |out|
    ensures GreedyPrefix(g, keys, out[..i])
  {
    if i < |out| {
      GreedyAt(g, keys, out, i);
    } else {
      assert out[..i] == out;
    }
  }

  /** A closed acyclic graph is sorted as by own keys, under any keys, if and only if every node with edges
      is comparable with every other node. */
  lemma OrdersAgreeExactly(g: Graph, level: map<EventId, nat>)
    requires ClosedAcyclic(g, level)
    ensures AlwaysByOwnKeys(g) <==> WaitersComparable(g)
  {
    if WaitersComparable(g) {
      forall keys: Keys, out | g.Keys <= keys.Keys
        ensures GreedyOrder(g, keys, out) <==> OwnKeyOrder(g, keys, out)
      {
        SamePrefixes(g, keys, out);
      }
    } else {
      var n, m :| n in g && m in g && n != m && g[n] != {} && !Leads(g, n, m) && !Leads(g, m, n);
      if g[m] == {} {
        RootApart(g, level, n, m);
      } else {
        WaitersApart(g, level, n, m);
      }
    }
  }
}
