/** Key identifiers, redaction, and the hashes computed from what redaction leaves. */
module Redaction {
  import opened Wrappers
  import opened Identifiers
  import opened RoomVersions
  import opened CanonicalJson
  import opened CanonicalLength

  /** The largest canonical form of an event, in bytes. */
  const MAX_PDU_BYTES := 65535

  // ---- Key identifiers ----

  predicate IsVersionChar(c: char) {
    'a' <= c <= 'z' || 'A' <= c <= 'Z' || '0' <= c <= '9' || c == '_'
  }

  const ALGORITHM := "ed25519"

  /** `split_id`: the version of a key identifier of the one supported algorithm. */
  function SplitId(id: string): Result<string> {
    match FindChar(id, ':')
    case None => Err(ParseId)
    case Some(i) =>
      var version := id[i + 1..];
      if ':' in version then Err(ParseId)
      else if exists c | c in version :: !IsVersionChar(c) then Err(ParseId)
      else if id[..i] != ALGORITHM then Err(ParseId)
      else Ok(version)
  }

  function KeyId(version: string): string {
    ALGORITHM + ":" + version
  }

  /** A key identifier splits exactly when it is the algorithm, a colon, and a version of letters,
      digits and underscores. */
  lemma SplitIdExact(id: string, version: string)
    ensures SplitId(id) == Ok(version) <==> id == KeyId(version) && forall c | c in version :: IsVersionChar(c)
  {
    if SplitId(id) == Ok(version) {
      var i := FindChar(id, ':').value;
      assert id == id[..i] + [id[i]] + id[i + 1..];
    }
    if id == KeyId(version) && forall c | c in version :: IsVersionChar(c) {
      FirstOf(ALGORITHM, ':', version);
      assert id[..7] == ALGORITHM && id[8..] == version;
      assert ':' !in version;
    }
  }

  // ---- Redaction ----

  const ALLOWED_KEYS: seq<string> :=
    ["event_id", "type", "room_id", "sender", "state_key", "content", "hashes", "signatures", "depth",
     "prev_events", "prev_state", "auth_events", "origin", "origin_server_ts", "membership"]

  /** The content keys that survive; all versions but 1 to 5 follow the rules of version 6. */
  function AllowedContentKeys(eventType: string, version: RoomVersionId): seq<string> {
    if eventType == "m.room.member" then ["membership"]
    else if eventType == "m.room.create" then ["creator"]
    else if eventType == "m.room.join_rules" then ["join_rule"]
    else if eventType == "m.room.power_levels" then
      ["ban", "events", "events_default", "kick", "redact", "state_default", "users", "users_default"]
    else if eventType == "m.room.aliases" then
      match version
      case V1 => ["aliases"]
      case V2 => ["aliases"]
      case V3 => ["aliases"]
      case V4 => ["aliases"]
      case V5 => ["aliases"]
      case _ => []
    else if eventType == "m.room.history_visibility" then ["history_visibility"]
    else []
  }

  function Keep(o: Object, keys: seq<string>): Object {
    map k | k in o && k in keys :: o[k]
  }

  function StringAt(o: Object, k: string): Option<string> {
    if k in o && o[k].Str? then Some(o[k].s) else None
  }

  predicate HasBadContent(o: Object) {
    "content" in o && !o["content"].Obj?
  }

  /** What `redact` leaves: the allowed keys, and under `content` the keys allowed for the type. It
      fails without a type, and when the content is not an object. */
  function Redact(o: Object, version: RoomVersionId): Result<Object> {
    match StringAt(o, "type")
    case None => Err(JsonField)
    case Some(eventType) =>
      if HasBadContent(o) then Err(JsonField)
      else
        var trimmed :=
          if "content" in o
          then o["content" := Obj(Keep(o["content"].fields, AllowedContentKeys(eventType, version)))]
          else o;
        Ok(Keep(trimmed, ALLOWED_KEYS))
  }

  /** `mem::take`, then moving the allowed keys back one by one. */
  method MoveBack(source: Object, keys: seq<string>) returns (o: Object)
    ensures o == Keep(source, keys)
  {
    var rest := source;
    o := map[];
    for i := 0 to |keys|
      invariant o == Keep(source, keys[..i])
      invariant rest == map k | k in source && k !in keys[..i] :: source[k]
    {
      var key := keys[i];
      assert forall k :: k in keys[..i + 1] <==> k in keys[..i] || k == key;
      if key in rest {
        o := o[key := rest[key]];
        rest := rest - {key};
      }
    }
    assert keys[..|keys|] == keys;
  }

  method RedactEvent(o: Object, version: RoomVersionId) returns (r: Result<Object>)
    ensures r == Redact(o, version)
  {
    var event := o;
    if "type" !in event || !event["type"].Str? {
      return Err(JsonField);
    }
    var allowed := AllowedContentKeys(event["type"].s, version);
    if "content" in event {
      if !event["content"].Obj? {
        return Err(JsonField);
      }
      var content := MoveBack(event["content"].fields, allowed);
      event := event["content" := Obj(content)];
    }
    event := MoveBack(event, ALLOWED_KEYS);
    return Ok(event);
  }

  lemma KeepTwice(o: Object, keys: seq<string>)
    ensures Keep(Keep(o, keys), keys) == Keep(o, keys)
  {
  }

  /** The entries redaction leaves. */
  lemma RedactedEntries(o: Object, version: RoomVersionId, k: string)
    requires Redact(o, version).Ok?
    ensures var r := Redact(o, version).value;
            && (k in r <==> k in o && k in ALLOWED_KEYS)
            && (k in r && k != "content" ==> r[k] == o[k])
            && (k in r && k == "content" ==>
                  o[k].Obj? && r[k] == Obj(Keep(o[k].fields, AllowedContentKeys(o["type"].s, version))))
  {
  }

  lemma AllowedEssentials()
    ensures "type" in ALLOWED_KEYS && "content" in ALLOWED_KEYS && "sender" in ALLOWED_KEYS
    ensures "event_id" in ALLOWED_KEYS && "hashes" in ALLOWED_KEYS && "signatures" in ALLOWED_KEYS
  {
    assert ALLOWED_KEYS[0] == "event_id" && ALLOWED_KEYS[1] == "type" && ALLOWED_KEYS[3] == "sender";
    assert ALLOWED_KEYS[5] == "content" && ALLOWED_KEYS[6] == "hashes" && ALLOWED_KEYS[7] == "signatures";
  }

  /** The top-level keys that survive redaction. */
  const SURVIVING_KEYS := {
    "auth_events", "content", "depth", "event_id", "hashes", "membership", "origin", "origin_server_ts", "prev_events",
    "prev_state", "room_id", "sender", "signatures", "state_key", "type"}

  /** The content keys that survive redaction, with the event types they survive in. */
  const SURVIVING_CONTENT := {
    ("m.room.create", "creator"), ("m.room.history_visibility", "history_visibility"),
    ("m.room.join_rules", "join_rule"), ("m.room.member", "membership"),
    ("m.room.power_levels", "ban"), ("m.room.power_levels", "events"), ("m.room.power_levels", "events_default"),
    ("m.room.power_levels", "kick"), ("m.room.power_levels", "redact"), ("m.room.power_levels", "state_default"),
    ("m.room.power_levels", "users"), ("m.room.power_levels", "users_default")}

  predicate ContentSurvives(eventType: string, version: RoomVersionId, k: string) {
    (eventType, k) in SURVIVING_CONTENT
    || (eventType == "m.room.aliases" && k == "aliases" && version in {V1, V2, V3, V4, V5})
  }

  lemma AllowedByTable(eventType: string, version: RoomVersionId, k: string)
    ensures k in ALLOWED_KEYS <==> k in SURVIVING_KEYS
    ensures k in AllowedContentKeys(eventType, version) <==> ContentSurvives(eventType, version, k)
  {
  }

  /** What redaction leaves, entry by entry: it fails exactly without a type that is a string, or with a
      content that is not an object. */
  lemma RedactedByTable(o: Object, version: RoomVersionId, k: string, c: string)
    ensures Redact(o, version).Ok? <==>
            "type" in o && o["type"].Str? && ("content" in o ==> o["content"].Obj?)
    ensures Redact(o, version).Ok? ==>
              var r := Redact(o, version).value;
              && (k in r <==> k in o && k in SURVIVING_KEYS)
              && (k in r && k != "content" ==> r[k] == o[k])
              && ("content" in o ==>
                    && "content" in r && r["content"].Obj?
                    && (c in r["content"].fields <==>
                          c in o["content"].fields && ContentSurvives(o["type"].s, version, c))
                    && (c in r["content"].fields ==> r["content"].fields[c] == o["content"].fields[c]))
  {
    if Redact(o, version).Ok? {
      AllowedEssentials();
      RedactedEntries(o, version, k);
      RedactedEntries(o, version, "content");
      AllowedByTable(o["type"].s, version, k);
      AllowedByTable(o["type"].s, version, c);
    }
  }

  /** Redacting twice is redacting once. */
  lemma RedactIdempotent(o: Object, version: RoomVersionId)
    requires Redact(o, version).Ok?
    ensures Redact(Redact(o, version).value, version) == Redact(o, version)
  {
    var r := Redact(o, version).value;
    AllowedEssentials();
    RedactedEntries(o, version, "type");
    RedactedEntries(o, version, "content");
    if "content" in r {
      KeepTwice(o["content"].fields, AllowedContentKeys(o["type"].s, version));
      assert r["content" := r["content"]] == r;
    }
    forall k
      ensures k in r ==> k in ALLOWED_KEYS
    {
      RedactedEntries(o, version, k);
    }
    assert Keep(r, ALLOWED_KEYS) == r;
  }

  /** Redaction does not look at `signatures` and only passes them on. */
  lemma RedactIgnoresSignatures(o: Object, version: RoomVersionId, signatures: Json)
    ensures Redact(o, version).Ok? <==> Redact(o["signatures" := signatures], version).Ok?
    ensures Redact(o, version).Ok? ==>
              Redact(o["signatures" := signatures], version) == Ok(Redact(o, version).value["signatures" := signatures])
  {
    AllowedEssentials();
    var p := o["signatures" := signatures];
    if Redact(o, version).Ok? {
      var r := Redact(o, version).value;
      forall k
        ensures k in Redact(p, version).value <==> k in r["signatures" := signatures]
        ensures k in r["signatures" := signatures] ==> Redact(p, version).value[k] == r["signatures" := signatures][k]
      {
        RedactedEntries(o, version, k);
        RedactedEntries(p, version, k);
      }
      assert Redact(p, version).value == r["signatures" := signatures];
    }
  }

  // ---- Canonical forms and hashes ----

  const HASH_FIELDS := {"hashes", "signatures", "unsigned"}
  const SIGNED_FIELDS := {"signatures", "unsigned"}
  const REFERENCE_FIELDS := {"age_ts", "signatures", "unsigned"}

  /** `canonical_json_with_fields_to_remove`. */
  function CanonicalWithout(o: Object, fields: set<string>): string {
    Print(Obj(o - fields))
  }

  /** The hash function and the two alphabets its digests are written in. */
  datatype Hasher = Hasher(digest: string -> string, standard: string -> string, urlSafe: string -> string)

  function ContentHash(h: Hasher, o: Object): Result<string> {
    var json := CanonicalWithout(o, HASH_FIELDS);
    if ByteLength(json) > MAX_PDU_BYTES then Err(PduSize) else Ok(h.standard(h.digest(json)))
  }

  function ReferenceHash(h: Hasher, o: Object, version: RoomVersionId): Result<string> {
    var redacted :- Redact(o, version);
    var json := CanonicalWithout(redacted, REFERENCE_FIELDS);
    if ByteLength(json) > MAX_PDU_BYTES then Err(PduSize)
    else
      var hash := h.digest(json);
      match version
      case V1 => Ok(h.standard(hash))
      case V2 => Ok(h.standard(hash))
      case V3 => Ok(h.standard(hash))
      case _ => Ok(h.urlSafe(hash))
  }

  /** The two hashes by field: what is left out, the size bound, and the alphabet, which from version 4 on is
      the URL-safe one for reference hashes. */
  lemma HashesByField(h: Hasher, o: Object, version: RoomVersionId)
    ensures var text := Print(Obj(o - {"hashes", "signatures", "unsigned"}));
            ContentHash(h, o) == if ByteLength(text) <= 65535 then Ok(h.standard(h.digest(text))) else Err(PduSize)
    ensures Redact(o, version).Err? ==> ReferenceHash(h, o, version).Err?
    ensures Redact(o, version).Ok? ==>
              var text := Print(Obj(Redact(o, version).value - {"age_ts", "signatures", "unsigned"}));
              ReferenceHash(h, o, version) ==
                if ByteLength(text) > 65535 then Err(PduSize)
                else if version in {V1, V2, V3} then Ok(h.standard(h.digest(text)))
                else Ok(h.urlSafe(h.digest(text)))
  {
  }

  /** The id of an event survives its redaction. */
  lemma ReferenceHashSurvivesRedaction(h: Hasher, o: Object, version: RoomVersionId)
    requires Redact(o, version).Ok?
    ensures ReferenceHash(h, Redact(o, version).value, version) == ReferenceHash(h, o, version)
  {
    RedactIdempotent(o, version);
  }

  /** Signing does not change the id of an event. */
  lemma ReferenceHashIgnoresSignatures(h: Hasher, o: Object, version: RoomVersionId, signatures: Json)
    ensures SameOutcome(ReferenceHash(h, o["signatures" := signatures], version), ReferenceHash(h, o, version))
  {
    RedactIgnoresSignatures(o, version, signatures);
    if Redact(o, version).Ok? {
      var r := Redact(o, version).value;
      assert r["signatures" := signatures] - REFERENCE_FIELDS == r - REFERENCE_FIELDS;
    }
  }

  /** A redacted event is no longer than the event, whatever further fields are left out. */
  lemma RedactionShortens(o: Object, version: RoomVersionId, fields: set<string>)
    requires Redact(o, version).Ok?
    ensures ByteLength(CanonicalWithout(Redact(o, version).value, fields)) <= ByteLength(CanonicalWithout(o, fields))
  {
    var r := Redact(o, version).value;
    var a, b := r - fields, o - fields;
    forall k | k in a
      ensures k in b && ByteLength(Print(a[k])) <= ByteLength(Print(b[k]))
    {
      RedactedEntries(o, version, k);
      if k == "content" {
        var allowed := AllowedContentKeys(o["type"].s, version);
        ShorterObject(Keep(o[k].fields, allowed), o[k].fields);
      }
    }
    ShorterObject(a, b);
  }

  /** So the size bound of the content hash holds for the redacted event if it held before. */
  lemma ContentHashSurvivesRedaction(h: Hasher, o: Object, version: RoomVersionId)
    requires Redact(o, version).Ok? && ContentHash(h, o).Ok?
    ensures ContentHash(h, Redact(o, version).value).Ok?
  {
    RedactionShortens(o, version, HASH_FIELDS);
  }
}
