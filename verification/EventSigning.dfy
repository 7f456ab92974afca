/** Hashing, signing and verifying events, so that signatures survive redaction. */
module EventSigning {
  import opened Wrappers
  import opened Identifiers
  import opened RoomVersions
  import opened CanonicalJson
  import opened CanonicalInjective
  import opened Redaction
  import opened Signing

  datatype Verified = All | Signatures

  // ---- hash_and_sign_event ----

  function WithHash(h: Hasher, o: Object): Result<Object> {
    var hash :- ContentHash(h, o);
    match ObjectAt(o, "hashes")
    case None => Err(JsonField)
    case Some(hashes) => Ok(o["hashes" := Obj(hashes["sha256" := Str(hash)])])
  }

  /** The event with its content hash and a signature over its redacted form. */
  function HashedAndSigned(s: Scheme, entity: string, key: KeyPair, o: Object, version: RoomVersionId): Result<Object> {
    var hashed :- WithHash(s.hasher, o);
    var redacted :- Redact(hashed, version);
    if !CanSign(redacted, entity) then Err(JsonField)
    else Ok(hashed["signatures" := Signed(s, entity, key, redacted)["signatures"]])
  }

  /** `hash_and_sign_event` succeeds exactly on an event that fits the size bound without the fields
      left out of its hash, has a type, and whose `content`, `hashes`, `signatures` and the entity's
      own entry in them are objects or absent. */
  lemma HashAndSignSucceeds(s: Scheme, entity: string, key: KeyPair, o: Object, version: RoomVersionId)
    ensures HashedAndSigned(s, entity, key, o, version).Ok? <==>
            && ContentHash(s.hasher, o).Ok? && ObjectAt(o, "hashes").Some?
            && StringAt(o, "type").Some? && !HasBadContent(o) && CanSign(o, entity)
  {
    if WithHash(s.hasher, o).Ok? {
      var hashes := WithHash(s.hasher, o).value["hashes"];
      HashKeepsSignable(o, hashes, version, entity);
    }
  }

  lemma HashKeepsSignable(o: Object, hashes: Json, version: RoomVersionId, entity: string)
    ensures var hashed := o["hashes" := hashes];
            && (Redact(hashed, version).Ok? <==> StringAt(o, "type").Some? && !HasBadContent(o))
            && (Redact(hashed, version).Ok? ==> (CanSign(Redact(hashed, version).value, entity) <==> CanSign(o, entity)))
  {
    var hashed := o["hashes" := hashes];
    if Redact(hashed, version).Ok? {
      AllowedEssentials();
      RedactedEntries(hashed, version, "signatures");
    }
  }

  /** `hash_and_sign_event`. On failure the object is as it was, or already holds its hash. */
  method HashAndSignEvent(s: Scheme, entity: string, key: KeyPair, target: JsonObject, version: RoomVersionId)
    returns (r: Result<()>)
    modifies target
    ensures r.Ok? <==> HashedAndSigned(s, entity, key, old(target.fields), version).Ok?
    ensures r.Ok? ==> target.fields == HashedAndSigned(s, entity, key, old(target.fields), version).value
    ensures r.Err? ==> target.fields == if WithHash(s.hasher, old(target.fields)).Ok?
                                        then WithHash(s.hasher, old(target.fields)).value else old(target.fields)
  {
    var hash := ContentHash(s.hasher, target.fields);
    if hash.Err? {
      return Err(hash.error);
    }
    var hashes := if "hashes" in target.fields then target.fields["hashes"] else Obj(map[]);
    if !hashes.Obj? {
      return Err(JsonField);
    }
    target.fields := target.fields["hashes" := Obj(hashes.fields["sha256" := Str(hash.value)])];
    var redacted := RedactEvent(target.fields, version);
    if redacted.Err? {
      return Err(redacted.error);
    }
    var copy := new JsonObject(redacted.value);
    var signed := SignJson(s, entity, key, copy);
    if signed.Err? {
      return Err(signed.error);
    }
    target.fields := target.fields["signatures" := copy.fields["signatures"]];
    return Ok(());
  }

  // ---- verify_event ----

  /** `servers_to_check_signatures`: the sender's server, unless the event is a third party invite,
      and in versions 1 and 2 the server of the event id. */
  function ServersToCheck(o: Object, version: RoomVersionId): Result<set<ServerName>> {
    var bySender :- SenderServer(o);
    if version.V1? || version.V2? then
      var byId :- EventIdServer(o);
      Ok(bySender + byId)
    else Ok(bySender)
  }

  function SenderServer(o: Object): Result<set<ServerName>> {
    match StringAt(o, "type")
    case None => Err(JsonField)
    case Some(eventType) =>
      if eventType == "m.room.third_party_invite" then Ok({})
      else
        match StringAt(o, "sender")
        case None => Err(JsonField)
        case Some(sender) => if IsUserId(sender) then Ok({ServerNameOf(sender).value}) else Err(ParseId)
  }

  function EventIdServer(o: Object): Result<set<ServerName>> {
    match StringAt(o, "event_id")
    case None => Err(JsonField)
    case Some(id) =>
      if IsEventId(id) && ServerNameOf(id).Some? then Ok({ServerNameOf(id).value}) else Err(ParseId)
  }

  /** The first known key that has a signature; a malformed key id ends the search. */
  function SelectKey(ids: seq<string>, entries: Object): Option<string> {
    if ids == [] || SplitId(ids[0]).Err? then None
    else if ids[0] in entries then Some(ids[0])
    else SelectKey(ids[1..], entries)
  }

  /** The first `n` key ids are well-formed, and none has a signature. */
  predicate PassedOver(ids: seq<string>, entries: Object, n: nat)
    requires n <= |ids|
  {
    forall j | 0 <= j < n :: SplitId(ids[j]).Ok? && ids[j] !in entries
  }

  /** The selected key is the first id with a signature, with well-formed ids up to it; none is selected
      when a malformed id comes first, or the ids end. */
  lemma {:induction false} SelectedIsFirst(ids: seq<string>, entries: Object)
    ensures var id := SelectKey(ids, entries);
            && (id.Some? ==> exists i :: 0 <= i < |ids| && ids[i] == id.value && SplitId(ids[i]).Ok? && ids[i] in entries
                                         && PassedOver(ids, entries, i))
            && (id.None? ==> exists i :: 0 <= i <= |ids| && (i < |ids| ==> SplitId(ids[i]).Err?) && PassedOver(ids, entries, i))
  {
    if ids == [] || SplitId(ids[0]).Err? || ids[0] in entries {
      assert PassedOver(ids, entries, 0);
    } else {
      SelectedIsFirst(ids[1..], entries);
      var id := SelectKey(ids, entries);
      var i :| 0 <= i <= |ids[1..]| && PassedOver(ids[1..], entries, i)
               && if id.Some? then i < |ids[1..]| && ids[1..][i] == id.value && SplitId(id.value).Ok? && id.value in entries
                  else i < |ids[1..]| ==> SplitId(ids[1..][i]).Err?;
      PassedOneMore(ids, entries, i);
    }
  }

  lemma PassedOneMore(ids: seq<string>, entries: Object, i: nat)
    requires ids != [] && i <= |ids[1..]| && PassedOver(ids[1..], entries, i)
    requires SplitId(ids[0]).Ok? && ids[0] !in entries
    ensures PassedOver(ids, entries, i + 1)
  {
    forall j | 0 <= j < i + 1
      ensures SplitId(ids[j]).Ok? && ids[j] !in entries
    {
      if j > 0 {
        assert ids[j] == ids[1..][j - 1];
      }
    }
  }

  predicate ServerVerified(s: Scheme, keys: PublicKeyMap, signatures: Object, server: ServerName, message: string) {
    && server in signatures && signatures[server].Obj? && server in keys
    && var entries := signatures[server].fields;
       match SelectKey(Sorted(keys[server].Keys), entries)
       case None => false
       case Some(id) =>
         id in keys[server] && StringAt(entries, id).Some?
         && Accepts(s, keys[server][id], StringAt(entries, id).value, message)
  }

  predicate AllServersVerified(s: Scheme, keys: PublicKeyMap, signatures: Object, servers: set<ServerName>, message: string) {
    forall server | server in servers :: ServerVerified(s, keys, signatures, server, message)
  }

  /** The stored content hash. */
  function StoredHash(o: Object): Option<string> {
    if "hashes" in o && o["hashes"].Obj? then StringAt(o["hashes"].fields, "sha256") else None
  }

  predicate HasSignatures(o: Object) {
    "signatures" in o && o["signatures"].Obj?
  }

  /** What is checked against the signatures: the redacted event, printed, parsed and printed again. */
  function EventMessage(s: Scheme, redacted: Object): Option<string> {
    match Parse(s, Message(redacted))
    case None => None
    case Some(parsed) => Some(Message(parsed))
  }

  function VerifyEvent(s: Scheme, keys: PublicKeyMap, o: Object, version: RoomVersionId): Result<Verified> {
    var redacted :- Redact(o, version);
    if StoredHash(o).None? || !HasSignatures(o) then Err(JsonField)
    else
      var servers :- ServersToCheck(o, version);
      match EventMessage(s, redacted)
      case None => Err(JsonField)
      case Some(message) =>
        if !AllServersVerified(s, keys, o["signatures"].fields, servers, message) then Err(Verification)
        else
          var calculated :- ContentHash(s.hasher, o);
          Ok(if StoredHash(o).value == calculated then All else Signatures)
  }

  /** The loop over the known keys of a server. */
  method FindKey(ids: seq<string>, entries: Object) returns (id: Option<string>)
    ensures id == SelectKey(ids, entries)
    ensures id.Some? ==> exists i :: 0 <= i < |ids| && ids[i] == id.value && SplitId(ids[i]).Ok? && ids[i] in entries
                                     && PassedOver(ids, entries, i)
    ensures id.None? ==> exists i :: 0 <= i <= |ids| && (i < |ids| ==> SplitId(ids[i]).Err?) && PassedOver(ids, entries, i)
  {
    SelectedIsFirst(ids, entries);
    var i := 0;
    while i < |ids|
      invariant i <= |ids| && SelectKey(ids, entries) == SelectKey(ids[i..], entries)
    {
      assert ids[i..][1..] == ids[i + 1..];
      if SplitId(ids[i]).Err? {
        return None;
      }
      if ids[i] in entries {
        return Some(ids[i]);
      }
      i := i + 1;
    }
    return None;
  }

  /** `verify_event`, up to which of several errors is reported. */
  method CheckEvent(s: Scheme, keys: PublicKeyMap, o: Object, version: RoomVersionId) returns (r: Result<Verified>)
    ensures SameOutcome(r, VerifyEvent(s, keys, o, version))
  {
    var redacted := RedactEvent(o, version);
    if redacted.Err? {
      return Err(redacted.error);
    }
    if StoredHash(o).None? || !HasSignatures(o) {
      return Err(JsonField);
    }
    var servers := ServersToCheck(o, version);
    if servers.Err? {
      return Err(servers.error);
    }
    var message := EventMessage(s, redacted.value);
    if message.None? {
      return Err(JsonField);
    }
    var ok := CheckServers(s, keys, o["signatures"].fields, servers.value, message.value);
    if !ok {
      return Err(Verification);
    }
    var calculated := ContentHash(s.hasher, o);
    if calculated.Err? {
      return Err(calculated.error);
    }
    return Ok(if StoredHash(o).value == calculated.value then All else Signatures);
  }

  /** The loop over the required servers. */
  method CheckServers(s: Scheme, keys: PublicKeyMap, signatures: Object, servers: set<ServerName>, message: string)
    returns (ok: bool)
    ensures ok <==> AllServersVerified(s, keys, signatures, servers, message)
  {
    var rest := servers;
    ok := true;
    while rest != {} && ok
      invariant rest <= servers
      invariant ok ==> (AllServersVerified(s, keys, signatures, servers, message) <==>
                        AllServersVerified(s, keys, signatures, rest, message))
      invariant !ok ==> !AllServersVerified(s, keys, signatures, servers, message)
    {
      var server :| server in rest;
      ok := CheckServer(s, keys, signatures, server, message);
      TakeServer(s, keys, signatures, rest, message, server);
      rest := rest - {server};
    }
  }

  lemma TakeServer(s: Scheme, keys: PublicKeyMap, signatures: Object, servers: set<ServerName>, message: string, server: ServerName)
    requires server in servers
    ensures AllServersVerified(s, keys, signatures, servers, message) <==>
            ServerVerified(s, keys, signatures, server, message)
            && AllServersVerified(s, keys, signatures, servers - {server}, message)
  {
  }

  /** One required server. */
  method CheckServer(s: Scheme, keys: PublicKeyMap, signatures: Object, server: ServerName, message: string) returns (ok: bool)
    ensures ok <==> ServerVerified(s, keys, signatures, server, message)
  {
    if server !in signatures || !signatures[server].Obj? || server !in keys {
      return false;
    }
    var entries := signatures[server].fields;
    var id := FindKey(Sorted(keys[server].Keys), entries);
    if id.None? {
      return false;
    }
    SelectedIsListed(Sorted(keys[server].Keys), entries);
    if StringAt(entries, id.value).None? {
      return false;
    }
    return Accepts(s, keys[server][id.value], StringAt(entries, id.value).value, message);
  }

  lemma {:induction false} SelectedIsListed(ids: seq<string>, entries: Object)
    ensures SelectKey(ids, entries).Some? ==> SelectKey(ids, entries).value in ids && SelectKey(ids, entries).value in entries
  {
    if ids == [] {
    } else {
      SelectedIsListed(ids[1..], entries);
    }
  }

  // ---- Redacting a verified event ----

  lemma ReprintedMessage(s: Scheme, redacted: Object)
    requires Sound(s)
    ensures EventMessage(s, redacted) == Some(Message(redacted))
  {
    var signed := redacted - SIGNED_FIELDS;
    assert Parse(s, Print(Obj(signed))) == Some(signed);
    assert signed - SIGNED_FIELDS == signed;
  }

  /** Events with the same type, sender and event id need the same servers. */
  lemma SameServers(o: Object, p: Object, version: RoomVersionId)
    requires StringAt(o, "type") == StringAt(p, "type") && StringAt(o, "sender") == StringAt(p, "sender")
    requires StringAt(o, "event_id") == StringAt(p, "event_id")
    ensures ServersToCheck(o, version) == ServersToCheck(p, version)
  {
  }

  /** Redaction keeps what verification reads besides the message. */
  lemma RedactionKeepsEvidence(o: Object, version: RoomVersionId)
    requires Redact(o, version).Ok?
    ensures var r := Redact(o, version).value;
            && ServersToCheck(r, version) == ServersToCheck(o, version)
            && StoredHash(r) == StoredHash(o)
            && (HasSignatures(o) ==> HasSignatures(r) && r["signatures"] == o["signatures"])
  {
    AllowedEssentials();
    RedactedEntries(o, version, "type");
    RedactedEntries(o, version, "sender");
    RedactedEntries(o, version, "event_id");
    RedactedEntries(o, version, "hashes");
    RedactedEntries(o, version, "signatures");
    SameServers(o, Redact(o, version).value, version);
  }

  /** A verified event is still verified after it is redacted, size bound included; only whether its
      content hash still matches may change. */
  lemma VerificationSurvivesRedaction(s: Scheme, keys: PublicKeyMap, o: Object, version: RoomVersionId)
    requires VerifyEvent(s, keys, o, version).Ok?
    ensures VerifyEvent(s, keys, Redact(o, version).value, version).Ok?
  {
    RedactIdempotent(o, version);
    RedactionKeepsEvidence(o, version);
    ContentHashSurvivesRedaction(s.hasher, o, version);
  }

  // ---- What a signature commits to ----

  /** Objects have the same signed message if and only if they agree outside `signatures` and
      `unsigned`. */
  lemma MessageInjective(o: Object, p: Object)
    ensures Message(o) == Message(p) <==> o - SIGNED_FIELDS == p - SIGNED_FIELDS
  {
    if Message(o) == Message(p) {
      CanonicalFormUnique(Obj(o - SIGNED_FIELDS), Obj(p - SIGNED_FIELDS));
    }
  }

  /** The content redaction leaves of an event, if it has any. */
  function RedactedContent(o: Object, version: RoomVersionId): Option<Object>
    requires Redact(o, version).Ok?
  {
    if "content" in o then Some(Keep(o["content"].fields, AllowedContentKeys(o["type"].s, version))) else None
  }

  predicate SameEntry(o: Object, p: Object, k: string) {
    (k in o <==> k in p) && (k in o ==> o[k] == p[k])
  }

  /** A signature over the redacted form commits to everything redaction keeps: two events whose
      redacted forms have the same signed message agree on every allowed key but `signatures`, and on
      what redaction leaves of their content. */
  lemma SignedMessageCommits(o: Object, p: Object, version: RoomVersionId)
    requires Redact(o, version).Ok? && Redact(p, version).Ok?
    ensures Message(Redact(o, version).value) == Message(Redact(p, version).value) <==>
            && (forall k | k in ALLOWED_KEYS && k != "signatures" && k != "content" :: SameEntry(o, p, k))
            && RedactedContent(o, version) == RedactedContent(p, version)
  {
    var r, q := Redact(o, version).value, Redact(p, version).value;
    MessageInjective(r, q);
    if r - SIGNED_FIELDS == q - SIGNED_FIELDS {
      SameKept(o, p, version);
    }
    if (forall k | k in ALLOWED_KEYS && k != "signatures" && k != "content" :: SameEntry(o, p, k))
       && RedactedContent(o, version) == RedactedContent(p, version) {
      SameRedacted(o, p, version);
    }
  }

  lemma UnsignedNotAllowed()
    ensures "unsigned" !in ALLOWED_KEYS
  {
    assert forall k | k in ALLOWED_KEYS :: k[0] != 'u';
    assert "unsigned"[0] == 'u';
  }

  lemma SameKept(o: Object, p: Object, version: RoomVersionId)
    requires Redact(o, version).Ok? && Redact(p, version).Ok?
    requires Redact(o, version).value - SIGNED_FIELDS == Redact(p, version).value - SIGNED_FIELDS
    ensures forall k | k in ALLOWED_KEYS && k != "signatures" && k != "content" :: SameEntry(o, p, k)
    ensures RedactedContent(o, version) == RedactedContent(p, version)
  {
    UnsignedNotAllowed();
    AllowedEssentials();
    forall k | k in ALLOWED_KEYS && k != "signatures"
      ensures k != "content" ==> SameEntry(o, p, k)
      ensures SameEntry(Redact(o, version).value, Redact(p, version).value, k)
    {
      SameWithout(Redact(o, version).value, Redact(p, version).value, SIGNED_FIELDS, k);
      RedactedEntries(o, version, k);
      RedactedEntries(p, version, k);
    }
    assert SameEntry(Redact(o, version).value, Redact(p, version).value, "content");
    RedactedEntries(o, version, "content");
    RedactedEntries(p, version, "content");
  }

  lemma SameWithout(o: Object, p: Object, fields: set<string>, k: string)
    requires o - fields == p - fields && k !in fields
    ensures SameEntry(o, p, k)
  {
    assert k in o <==> k in o - fields;
    assert k in p <==> k in p - fields;
  }

  lemma SameRedacted(o: Object, p: Object, version: RoomVersionId)
    requires Redact(o, version).Ok? && Redact(p, version).Ok?
    requires forall k | k in ALLOWED_KEYS && k != "signatures" && k != "content" :: SameEntry(o, p, k)
    requires RedactedContent(o, version) == RedactedContent(p, version)
    ensures Redact(o, version).value - SIGNED_FIELDS == Redact(p, version).value - SIGNED_FIELDS
  {
    var r, q := Redact(o, version).value, Redact(p, version).value;
    AllowedEssentials();
    forall k | k !in SIGNED_FIELDS
      ensures SameEntry(r, q, k)
    {
      RedactedEntries(o, version, k);
      RedactedEntries(p, version, k);
      if k in ALLOWED_KEYS && k != "content" {
        assert SameEntry(o, p, k);
      }
    }
    EqualWithout(r, q, SIGNED_FIELDS);
  }

  lemma EqualWithout(o: Object, p: Object, fields: set<string>)
    requires forall k | k !in fields :: SameEntry(o, p, k)
    ensures o - fields == p - fields
  {
    assert forall k :: k in o - fields ==> SameEntry(o, p, k);
    assert forall k :: k in p - fields ==> SameEntry(o, p, k);
  }

  // ---- Verifying a signed event ----

  /** The event carries a signature of the signer that its redacted form is accepted under. */
  predicate CarriesSignature(s: Scheme, keys: PublicKeyMap, o: Object, version: RoomVersionId, signer: Signer) {
    && Knows(s, keys, signer) && Redact(o, version).Ok?
    && var signature := SignatureAt(o, signer.entity, KeyId(signer.key.version));
       signature.Some?
       && Accepts(s, keys[signer.entity][KeyId(signer.key.version)], signature.value, Message(Redact(o, version).value))
  }

  /** The stored hash is the content hash. */
  predicate HashMatches(h: Hasher, o: Object) {
    ContentHash(h, o).Ok? && StoredHash(o) == Some(ContentHash(h, o).value)
  }

  /** Hashing again finds the hash in place. */
  lemma HashStable(h: Hasher, o: Object)
    requires HashMatches(h, o)
    ensures WithHash(h, o) == Ok(o)
  {
    var hashes := o["hashes"].fields;
    assert hashes["sha256" := hashes["sha256"]] == hashes;
    assert o["hashes" := o["hashes"]] == o;
  }

  lemma HashIgnores(h: Hasher, o: Object, p: Object)
    requires o - HASH_FIELDS == p - HASH_FIELDS
    ensures ContentHash(h, o) == ContentHash(h, p)
  {
  }

  lemma HashedThenSigned(h: Hasher, o: Object, signatures: Json)
    requires WithHash(h, o).Ok?
    ensures var p := WithHash(h, o).value["signatures" := signatures];
            HashMatches(h, p) && p - HASH_FIELDS == o - HASH_FIELDS
  {
    var p := WithHash(h, o).value["signatures" := signatures];
    assert p - HASH_FIELDS == o - HASH_FIELDS;
    HashIgnores(h, o, p);
  }

  /** What a successful `hash_and_sign_event` does to the event. */
  lemma SignedEventEntries(s: Scheme, entity: string, key: KeyPair, o: Object, version: RoomVersionId)
    requires HashedAndSigned(s, entity, key, o, version).Ok?
    ensures var p := HashedAndSigned(s, entity, key, o, version).value;
            HashMatches(s.hasher, p) && HasSignatures(p) && p - HASH_FIELDS == o - HASH_FIELDS
  {
    var hashed := WithHash(s.hasher, o).value;
    HashedThenSigned(s.hasher, o, Signed(s, entity, key, Redact(hashed, version).value)["signatures"]);
  }

  /** The redacted form that was signed is the one a verifier recomputes. */
  lemma SignedEventMessage(s: Scheme, entity: string, key: KeyPair, o: Object, version: RoomVersionId)
    requires HashedAndSigned(s, entity, key, o, version).Ok?
    ensures var p, hashed := HashedAndSigned(s, entity, key, o, version).value, WithHash(s.hasher, o).value;
            && Redact(p, version).Ok? && Redact(hashed, version).Ok?
            && Message(Redact(p, version).value) == Message(Redact(hashed, version).value)
  {
    var hashed := WithHash(s.hasher, o).value;
    var redacted := Redact(hashed, version).value;
    var signatures := Signed(s, entity, key, redacted)["signatures"];
    RedactIgnoresSignatures(hashed, version, signatures);
    assert redacted["signatures" := signatures] - SIGNED_FIELDS == redacted - SIGNED_FIELDS;
  }

  lemma SameSignatures(o: Object, p: Object, entity: string, id: string)
    requires ObjectAt(o, "signatures") == ObjectAt(p, "signatures")
    ensures SignatureAt(o, entity, id) == SignatureAt(p, entity, id)
  {
  }

  /** It adds the signer's signature and keeps every other one. */
  lemma SignedEventSignatures(s: Scheme, entity: string, key: KeyPair, o: Object, version: RoomVersionId, other: string, id: string)
    requires HashedAndSigned(s, entity, key, o, version).Ok?
    ensures var p := HashedAndSigned(s, entity, key, o, version).value;
            Redact(p, version).Ok?
            && SignatureAt(p, other, id) ==
                 if other == entity && id == KeyId(key.version)
                 then Some(SignatureOf(s, key.secret, Message(Redact(p, version).value)))
                 else SignatureAt(o, other, id)
  {
    var p, hashed := HashedAndSigned(s, entity, key, o, version).value, WithHash(s.hasher, o).value;
    var redacted := Redact(hashed, version).value;
    SignedEventMessage(s, entity, key, o, version);
    SignedEntries(s, entity, key, redacted, other, id);
    SameSignatures(p, Signed(s, entity, key, redacted), other, id);
    AllowedEssentials();
    RedactedEntries(hashed, version, "signatures");
    SameSignatures(redacted, o, other, id);
  }

  /** The event after the signers have hashed and signed it in turn, if every call succeeds. */
  function EventSignedByAll(s: Scheme, signers: seq<Signer>, o: Object, version: RoomVersionId): Result<Object> {
    if signers == [] then Ok(o)
    else
      var last := |signers| - 1;
      var p :- EventSignedByAll(s, signers[..last], o, version);
      HashedAndSigned(s, signers[last].entity, signers[last].key, p, version)
  }

  /** Every one of several signers in turn is still accepted at the end: later calls find the hash in
      place, so the redacted form they sign is the same. */
  lemma {:induction false} EventSignersCarried(s: Scheme, keys: PublicKeyMap, signers: seq<Signer>, o: Object, version: RoomVersionId)
    requires Sound(s) && (forall signer | signer in signers :: Knows(s, keys, signer))
    requires EventSignedByAll(s, signers, o, version).Ok?
    ensures var p := EventSignedByAll(s, signers, o, version).value;
            && (signers != [] ==> HashMatches(s.hasher, p) && HasSignatures(p))
            && p - HASH_FIELDS == o - HASH_FIELDS
            && (forall signer | signer in signers :: CarriesSignature(s, keys, p, version, signer))
  {
    if signers == [] {
    } else {
      var last := |signers| - 1;
      EventSignersCarried(s, keys, signers[..last], o, version);
      var p, signer := EventSignedByAll(s, signers[..last], o, version).value, signers[last];
      SignedEventEntries(s, signer.entity, signer.key, p, version);
      assert forall other :: other in signers ==> other in signers[..last] + [signer];
      OneMoreSigner(s, keys, signers[..last], signer, p, version);
    }
  }

  /** One more signer keeps the signatures of those before it and adds its own. */
  lemma OneMoreSigner(s: Scheme, keys: PublicKeyMap, signers: seq<Signer>, signer: Signer, p: Object, version: RoomVersionId)
    requires Sound(s) && HashedAndSigned(s, signer.entity, signer.key, p, version).Ok?
    requires forall other | other in signers + [signer] :: Knows(s, keys, other)
    requires signers != [] ==> HashMatches(s.hasher, p)
    requires forall other | other in signers :: CarriesSignature(s, keys, p, version, other)
    ensures var q := HashedAndSigned(s, signer.entity, signer.key, p, version).value;
            forall other | other in signers + [signer] :: CarriesSignature(s, keys, q, version, other)
  {
    var q := HashedAndSigned(s, signer.entity, signer.key, p, version).value;
    assert signer in signers + [signer];
    forall other | other in signers + [signer]
      ensures CarriesSignature(s, keys, q, version, other)
    {
      SignatureStays(s, keys, signer, p, version, other);
    }
  }

  /** The new signature is accepted, and one accepted before still is. */
  lemma SignatureStays(s: Scheme, keys: PublicKeyMap, signer: Signer, o: Object, version: RoomVersionId, other: Signer)
    requires Sound(s) && HashedAndSigned(s, signer.entity, signer.key, o, version).Ok?
    requires Knows(s, keys, signer) && Knows(s, keys, other)
    requires other == signer || (HashMatches(s.hasher, o) && CarriesSignature(s, keys, o, version, other))
    ensures CarriesSignature(s, keys, HashedAndSigned(s, signer.entity, signer.key, o, version).value, version, other)
  {
    var q := HashedAndSigned(s, signer.entity, signer.key, o, version).value;
    SignedEventSignatures(s, signer.entity, signer.key, o, version, other.entity, KeyId(other.key.version));
    var message := Message(Redact(q, version).value);
    assert Accepts(s, PublicKey(s, signer.key.secret), SignatureOf(s, signer.key.secret, message), message);
    if other != signer {
      HashStable(s.hasher, o);
      SignedEventMessage(s, signer.entity, signer.key, o, version);
    }
  }

  /** The signer's key is well-formed and the only one known for its entity. */
  predicate SoleKey(s: Scheme, keys: PublicKeyMap, signer: Signer) {
    && signer.entity in keys
    && keys[signer.entity] == map[KeyId(signer.key.version) := PublicKey(s, signer.key.secret)]
    && SplitId(KeyId(signer.key.version)).Ok?
  }

  /** A required server with a sole key that a carried signature belongs to is verified. */
  lemma CarriedServerVerified(s: Scheme, keys: PublicKeyMap, o: Object, version: RoomVersionId, signer: Signer)
    requires CarriesSignature(s, keys, o, version, signer) && SoleKey(s, keys, signer) && HasSignatures(o)
    ensures ServerVerified(s, keys, o["signatures"].fields, signer.entity, Message(Redact(o, version).value))
  {
    var id := KeyId(signer.key.version);
    assert keys[signer.entity].Keys == {id};
    OnlyKey(id);
  }

  lemma OnlyKey(id: string)
    ensures Sorted({id}) == [id]
  {
    assert Sorted({id})[0] == id;
  }

  /** Hashing and signing change none of the fields that name the required servers. */
  lemma HashedEventServers(o: Object, p: Object, version: RoomVersionId)
    requires o - HASH_FIELDS == p - HASH_FIELDS
    ensures ServersToCheck(o, version) == ServersToCheck(p, version)
  {
    OutsideHashFields(o, p, "type");
    OutsideHashFields(o, p, "sender");
    OutsideHashFields(o, p, "event_id");
    SameServers(o, p, version);
  }

  lemma OutsideHashFields(o: Object, p: Object, k: string)
    requires o - HASH_FIELDS == p - HASH_FIELDS && k !in HASH_FIELDS
    ensures StringAt(o, k) == StringAt(p, k)
  {
    assert k in o <==> k in o - HASH_FIELDS;
    assert k in p <==> k in p - HASH_FIELDS;
  }

  lemma AllVerified(s: Scheme, keys: PublicKeyMap, o: Object, version: RoomVersionId)
    requires Sound(s) && Redact(o, version).Ok? && HashMatches(s.hasher, o) && HasSignatures(o)
    requires ServersToCheck(o, version).Ok?
    requires AllServersVerified(s, keys, o["signatures"].fields, ServersToCheck(o, version).value,
                                Message(Redact(o, version).value))
    ensures VerifyEvent(s, keys, o, version) == Ok(All)
  {
    ReprintedMessage(s, Redact(o, version).value);
  }

  /** Every required server has a signer whose key is its sole known key. */
  ghost predicate Covers(s: Scheme, keys: PublicKeyMap, signers: seq<Signer>, servers: set<ServerName>) {
    forall server | server in servers :: exists i :: 0 <= i < |signers| && signers[i].entity == server && SoleKey(s, keys, signers[i])
  }

  /** After any successful sequence of signers that covers the servers required for the event and
      room version, `verify_event` finds every signature valid and the hash matching. */
  lemma SignedEventVerifies(s: Scheme, keys: PublicKeyMap, signers: seq<Signer>, o: Object, version: RoomVersionId)
    requires Sound(s) && signers != [] && (forall signer | signer in signers :: Knows(s, keys, signer))
    requires EventSignedByAll(s, signers, o, version).Ok?
    requires ServersToCheck(o, version).Ok? && Covers(s, keys, signers, ServersToCheck(o, version).value)
    ensures VerifyEvent(s, keys, EventSignedByAll(s, signers, o, version).value, version) == Ok(All)
  {
    var p := EventSignedByAll(s, signers, o, version).value;
    EventSignersCarried(s, keys, signers, o, version);
    HashedEventServers(o, p, version);
    CoveredServersVerified(s, keys, signers, p, version, ServersToCheck(o, version).value);
    AllVerified(s, keys, p, version);
  }

  lemma CoveredServersVerified(s: Scheme, keys: PublicKeyMap, signers: seq<Signer>, o: Object, version: RoomVersionId,
                               servers: set<ServerName>)
    requires signers != [] && HasSignatures(o) && Covers(s, keys, signers, servers)
    requires forall signer | signer in signers :: CarriesSignature(s, keys, o, version, signer)
    ensures Redact(o, version).Ok?
    ensures AllServersVerified(s, keys, o["signatures"].fields, servers, Message(Redact(o, version).value))
  {
    assert CarriesSignature(s, keys, o, version, signers[0]);
    forall server | server in servers
      ensures ServerVerified(s, keys, o["signatures"].fields, server, Message(Redact(o, version).value))
    {
      var i :| 0 <= i < |signers| && signers[i].entity == server && SoleKey(s, keys, signers[i]);
      assert CarriesSignature(s, keys, o, version, signers[i]);
      CarriedServerVerified(s, keys, o, version, signers[i]);
    }
  }

  /** One call by the only required server is enough. */
  lemma SignThenVerify(s: Scheme, keys: PublicKeyMap, signer: Signer, o: Object, version: RoomVersionId)
    requires Sound(s) && SoleKey(s, keys, signer)
    requires HashedAndSigned(s, signer.entity, signer.key, o, version).Ok?
    requires ServersToCheck(o, version).Ok? && ServersToCheck(o, version).value <= {signer.entity}
    ensures VerifyEvent(s, keys, HashedAndSigned(s, signer.entity, signer.key, o, version).value, version) == Ok(All)
  {
    assert [signer][..0] == [];
    assert EventSignedByAll(s, [], o, version) == Ok(o);
    SignedEventVerifies(s, keys, [signer], o, version);
  }
}
