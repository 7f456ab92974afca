/** Matrix identifiers as strings, and the orders the sorts compare them with. */
module Identifiers {
  import opened Wrappers

  type EventId = string
  type UserId = string
  type ServerName = string

  /** All identifiers must be 255 bytes or less. */
  const MAX_BYTES := 255

  // ---- Parsing ----

  function FindChar(s: string, c: char): (r: Option<nat>)
    ensures r.Some? ==> r.value < |s| && s[r.value] == c && c !in s[..r.value]
    ensures r.None? <==> c !in s
  {
    if s == [] then None
    else if s[0] == c then Some(0)
    else
      match FindChar(s[1..], c)
      case None => None
      case Some(i) =>
        assert s[..i + 1] == [s[0]] + s[1..][..i];
        Some(i + 1)
  }

  /** The part after the first colon, which only ids of the original format have. */
  function ServerNameOf(id: string): Option<ServerName> {
    match FindChar(id, ':')
    case None => None
    case Some(i) => Some(id[i + 1..])
  }

  predicate IsLocalpartChar(c: char) {
    '\U{21}' <= c <= '\U{7E}' && c != ':'
  }

  /** A user id: sigil, a localpart of visible ASCII characters, a colon and a server name. */
  predicate IsUserId(s: string) {
    && |s| <= MAX_BYTES
    && s != []
    && s[0] == '@'
    && match FindChar(s, ':')
       case None => false
       case Some(i) => i + 1 < |s| && forall j | 1 <= j < i :: IsLocalpartChar(s[j])
  }

  /** An event id: sigil, and in the original format a colon and a server name. */
  predicate IsEventId(s: string) {
    && s != [] && s[0] == '$'
    && match FindChar(s, ':')
       case None => true
       case Some(i) => |s| <= MAX_BYTES && i + 1 < |s|
  }

  lemma {:induction false} FirstOf(a: string, c: char, b: string)
    requires c !in a
    ensures FindChar(a + [c] + b, c) == Some(|a|)
    decreases |a|
  {
    var s := a + [c] + b;
    if a == "" {
      assert s[0] == c;
    } else {
      assert s[1..] == a[1..] + [c] + b;
      FirstOf(a[1..], c, b);
    }
  }

  /** The server name is what follows the first colon. */
  lemma ServerNameByParts(local: string, server: string)
    requires ':' !in local
    ensures ServerNameOf(local + ":" + server) == Some(server)
    ensures ServerNameOf(local) == None
  {
    FirstOf(local, ':', server);
    assert (local + ":" + server)[|local| + 1..] == server;
  }

  predicate UserIdParts(s: string, local: string, server: string) {
    s == "@" + local + ":" + server && server != "" && forall c | c in local :: '!' <= c <= '~' && c != ':'
  }

  /** A user id is `@`, visible characters other than a colon, a colon and a server name, in at most 255
      characters. */
  lemma UserIdByParts(s: string)
    ensures IsUserId(s) <==> |s| <= 255 && exists local, server :: UserIdParts(s, local, server)
  {
    if IsUserId(s) {
      var i := FindChar(s, ':').value;
      assert s == "@" + s[1..i] + ":" + s[i + 1..];
      assert UserIdParts(s, s[1..i], s[i + 1..]);
    }
    if local, server :| UserIdParts(s, local, server) {
      FirstOf("@" + local, ':', server);
      assert s == ("@" + local) + [':'] + server;
      forall j | 1 <= j < |local| + 1
        ensures IsLocalpartChar(s[j])
      {
        assert s[j] == local[j - 1] && local[j - 1] in local;
      }
    }
  }

  predicate HashedIdParts(s: string, local: string) {
    s == "$" + local && ':' !in local
  }

  predicate ServerIdParts(s: string, local: string, server: string) {
    s == "$" + local + ":" + server && ':' !in local && server != ""
  }

  lemma HashedIdIsEventId(s: string, local: string)
    requires HashedIdParts(s, local)
    ensures IsEventId(s)
  {
    assert ':' !in s && s[0] == '$';
  }

  lemma ServerIdIsEventId(s: string, local: string, server: string)
    requires ServerIdParts(s, local, server)
    ensures IsEventId(s) <==> |s| <= 255
  {
    FirstOf("$" + local, ':', server);
    assert s == ("$" + local) + [':'] + server;
  }

  lemma EventIdHasParts(s: string)
    requires IsEventId(s)
    ensures FindChar(s, ':').None? ==> HashedIdParts(s, s[1..])
    ensures FindChar(s, ':').Some? ==> exists local, server :: ServerIdParts(s, local, server)
  {
    match FindChar(s, ':')
    case None => assert s == "$" + s[1..];
    case Some(i) =>
      assert s == "$" + s[1..i] + ":" + s[i + 1..];
      assert forall c | c in s[1..i] :: c in s[..i];
      assert ServerIdParts(s, s[1..i], s[i + 1..]);
  }

  /** An event id is `$` and anything without a colon, or `$`, a part without a colon, a colon and a server
      name, in at most 255 characters. */
  lemma EventIdByParts(s: string)
    ensures IsEventId(s) <==>
            || (exists local :: HashedIdParts(s, local))
            || (|s| <= 255 && exists local, server :: ServerIdParts(s, local, server))
  {
    forall local | HashedIdParts(s, local)
      ensures IsEventId(s)
    {
      HashedIdIsEventId(s, local);
    }
    forall local, server | ServerIdParts(s, local, server)
      ensures IsEventId(s) <==> |s| <= 255
    {
      ServerIdIsEventId(s, local, server);
    }
    if IsEventId(s) {
      EventIdHasParts(s);
    }
  }

  // ---- Order of identifiers ----

  /** Lexicographic order of strings, as `Ord` for `EventId`. */
  predicate LexLeq(a: string, b: string) {
    a == [] || (b != [] && (a[0] < b[0] || (a[0] == b[0] && LexLeq(a[1..], b[1..]))))
  }

  lemma LexTotal(a: string, b: string)
    ensures LexLeq(a, b) || LexLeq(b, a)
  {
  }

  lemma {:induction false} LexAntisymmetric(a: string, b: string)
    requires LexLeq(a, b) && LexLeq(b, a)
    ensures a == b
  {
    if a == [] {
    } else {
      LexAntisymmetric(a[1..], b[1..]);
      assert a == [a[0]] + a[1..] && b == [b[0]] + b[1..];
    }
  }

  lemma {:induction false} LexTransitive(a: string, b: string, c: string)
    requires LexLeq(a, b) && LexLeq(b, c)
    ensures LexLeq(a, c)
  {
    if a == [] || a[0] != b[0] || b[0] != c[0] {
    } else {
      LexTransitive(a[1..], b[1..], c[1..]);
    }
  }

  /** The strings agree up to a place where `a` has the smaller character, or `a` ends there. */
  predicate LexSmallerAt(a: string, b: string, i: int) {
    && 0 <= i < |b| && i <= |a| && a[..i] == b[..i]
    && (i < |a| ==> a[i] < b[i])
  }

  /** `a` comes strictly before `b`. */
  ghost predicate LexLess(a: string, b: string) {
    exists i :: LexSmallerAt(a, b, i)
  }

  /** What the order of identifiers is: the first difference decides. */
  lemma {:induction false} LexByDifference(a: string, b: string)
    ensures LexLeq(a, b) <==> a == b || LexLess(a, b)
  {
    if a == [] || b == [] {
      assert b != [] && a == [] ==> LexSmallerAt(a, b, 0);
    } else if a[0] != b[0] {
      assert a[0] < b[0] ==> LexSmallerAt(a, b, 0);
      forall i | LexSmallerAt(a, b, i)
        ensures i == 0
      {
        if i > 0 {
          SameHead(a, b, i);
        }
      }
    } else {
      LexByDifference(a[1..], b[1..]);
      SameFirst(a, b);
    }
  }

  lemma SameHead(a: string, b: string, i: nat)
    requires 0 < i <= |a| && i <= |b| && a[..i] == b[..i]
    ensures a[0] == b[0]
  {
    assert a[0] == a[..i][0] && b[0] == b[..i][0];
  }

  lemma SameFirst(a: string, b: string)
    requires a != [] && b != [] && a[0] == b[0]
    ensures a == b <==> a[1..] == b[1..]
    ensures LexLess(a, b) <==> LexLess(a[1..], b[1..])
  {
    assert a == [a[0]] + a[1..] && b == [b[0]] + b[1..];
    if i :| LexSmallerAt(a, b, i) {
      assert i > 0;
      assert a[1..][..i - 1] == a[..i][1..] && b[1..][..i - 1] == b[..i][1..];
      assert LexSmallerAt(a[1..], b[1..], i - 1);
    }
    if i :| LexSmallerAt(a[1..], b[1..], i) {
      assert a[..i + 1] == [a[0]] + a[1..][..i] && b[..i + 1] == [b[0]] + b[1..][..i];
      assert LexSmallerAt(a, b, i + 1);
    }
  }

  // ---- Sort keys ----

  /** What both sorts compare: a number (negated power level or mainline depth), then the
      origin server timestamp, then the event id. */
  datatype SortKey = SortKey(rank: int, ts: nat, id: EventId)

  predicate KeyLeq(a: SortKey, b: SortKey) {
    a.rank < b.rank
    || (a.rank == b.rank && (a.ts < b.ts || (a.ts == b.ts && LexLeq(a.id, b.id))))
  }

  predicate KeyLess(a: SortKey, b: SortKey) {
    a != b && KeyLeq(a, b)
  }

  lemma KeyTotal(a: SortKey, b: SortKey)
    ensures KeyLeq(a, b) || KeyLeq(b, a)
  {
    LexTotal(a.id, b.id);
  }

  lemma KeyAntisymmetric(a: SortKey, b: SortKey)
    requires KeyLeq(a, b) && KeyLeq(b, a)
    ensures a == b
  {
    LexAntisymmetric(a.id, b.id);
  }

  lemma KeyTransitive(a: SortKey, b: SortKey, c: SortKey)
    requires KeyLeq(a, b) && KeyLeq(b, c)
    ensures KeyLeq(a, c)
  {
    if a.rank == b.rank == c.rank && a.ts == b.ts == c.ts {
      LexTransitive(a.id, b.id, c.id);
    }
  }

  /** Every non-empty set of sort keys has a least element. */
  lemma {:induction false} LeastKey(s: set<SortKey>) returns (least: SortKey)
    requires s != {}
    ensures least in s && forall k | k in s :: KeyLeq(least, k)
  {
    var k :| k in s;
    if s == {k} {
      KeyTotal(k, k);
      least := k;
    } else {
      assert s - {k} != {} by {
        assert s == (s - {k}) + {k};
      }
      var other := LeastKey(s - {k});
      KeyTotal(k, k);
      KeyTotal(k, other);
      least := if KeyLeq(k, other) then k else other;
      forall m | m in s
        ensures KeyLeq(least, m)
      {
        if m != k && KeyLeq(k, other) {
          KeyTransitive(k, other, m);
        }
      }
    }
  }
}
