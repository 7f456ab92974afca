/** What the answers of `verify_event`, `verify_json`, `sign_json` and `hash_and_sign_event` mean, by the
    fields of the objects: which signatures were accepted over which text, and which hash was compared. */
module VerifiedEvents {
  import opened Wrappers
  import opened Identifiers
  import opened RoomVersions
  import opened CanonicalJson
  import opened Redaction
  import opened Signing
  import opened EventSigning

  // ---- Texts ----

  /** The object printed without the two fields that are never signed. */
  function SignedText(o: Object): string {
    Print(Obj(o - {"signatures", "unsigned"}))
  }

  /** The event printed without the fields left out of its content hash. */
  function HashedText(o: Object): string {
    Print(Obj(o - {"hashes", "signatures", "unsigned"}))
  }

  // ---- Required servers ----

  /** The sender's server, unless the event is a third party invite; in versions 1 and 2 also the server of
      the event id. */
  predicate Required(o: Object, version: RoomVersionId, server: ServerName) {
    || ("type" in o && o["type"] != Str("m.room.third_party_invite")
        && "sender" in o && o["sender"].Str? && ServerNameOf(o["sender"].s) == Some(server))
    || (version in {V1, V2} && "event_id" in o && o["event_id"].Str? && ServerNameOf(o["event_id"].s) == Some(server))
  }

  /** The fields that name the required servers can be read. */
  predicate Readable(o: Object, version: RoomVersionId) {
    && "type" in o && o["type"].Str?
    && (o["type"].s != "m.room.third_party_invite" ==> "sender" in o && o["sender"].Str? && IsUserId(o["sender"].s))
    && (version in {V1, V2} ==>
          "event_id" in o && o["event_id"].Str? && IsEventId(o["event_id"].s) && ':' in o["event_id"].s)
  }

  lemma ServersByFields(o: Object, version: RoomVersionId)
    ensures ServersToCheck(o, version).Ok? <==> Readable(o, version)
    ensures ServersToCheck(o, version).Ok? ==>
              forall server :: server in ServersToCheck(o, version).value <==> Required(o, version, server)
  {
  }

  // ---- One server's signature ----

  /** The `i`-th of the server's known keys, in order, is the first with a signature; the ids up to it are
      well-formed, and its signature of the text is accepted. */
  predicate AcceptedAt(s: Scheme, keys: PublicKeyMap, signatures: Object, server: ServerName, text: string, i: int)
    requires server in signatures && signatures[server].Obj? && server in keys
  {
    var ids, entries := Sorted(keys[server].Keys), signatures[server].fields;
    && 0 <= i < |ids| && ids[i] in keys[server] && ids[i] in entries && entries[ids[i]].Str?
    && (forall j | 0 <= j < i :: ids[j] !in entries)
    && (forall j | 0 <= j <= i :: SplitId(ids[j]).Ok?)
    && s.accepts(keys[server][ids[i]], entries[ids[i]].s, text)
  }

  predicate SignedBy(s: Scheme, keys: PublicKeyMap, o: Object, server: ServerName, text: string) {
    && "signatures" in o && o["signatures"].Obj?
    && server in o["signatures"].fields && o["signatures"].fields[server].Obj? && server in keys
    && exists i | 0 <= i < |Sorted(keys[server].Keys)| :: AcceptedAt(s, keys, o["signatures"].fields, server, text, i)
  }

  lemma ServerByFields(s: Scheme, keys: PublicKeyMap, o: Object, server: ServerName, text: string)
    requires "signatures" in o && o["signatures"].Obj?
    ensures ServerVerified(s, keys, o["signatures"].fields, server, text) <==> SignedBy(s, keys, o, server, text)
  {
    var signatures := o["signatures"].fields;
    if server in signatures && signatures[server].Obj? && server in keys {
      var ids, entries := Sorted(keys[server].Keys), signatures[server].fields;
      SelectedIsFirst(ids, entries);
      if ServerVerified(s, keys, signatures, server, text) {
        var id := SelectKey(ids, entries).value;
        var i :| 0 <= i < |ids| && ids[i] == id && SplitId(ids[i]).Ok? && ids[i] in entries && PassedOver(ids, entries, i);
        assert AcceptedAt(s, keys, signatures, server, text, i);
      }
      if i :| 0 <= i < |ids| && AcceptedAt(s, keys, signatures, server, text, i) {
        FirstSelected(ids, entries, i);
      }
    }
  }

  lemma {:induction false} FirstSelected(ids: seq<string>, entries: Object, i: nat)
    requires i < |ids| && ids[i] in entries && forall j | 0 <= j < i :: ids[j] !in entries
    requires forall j | 0 <= j <= i :: SplitId(ids[j]).Ok?
    ensures SelectKey(ids, entries) == Some(ids[i])
    decreases i
  {
    if i == 0 {
    } else {
      assert forall j | 0 <= j < i :: ids[1..][j] == ids[j + 1];
      FirstSelected(ids[1..], entries, i - 1);
    }
  }

  // ---- verify_event ----

  lemma VerifyInParts(s: Scheme, keys: PublicKeyMap, o: Object, version: RoomVersionId)
    ensures VerifyEvent(s, keys, o, version).Ok? <==>
            && Redact(o, version).Ok? && StoredHash(o).Some? && HasSignatures(o) && ServersToCheck(o, version).Ok?
            && EventMessage(s, Redact(o, version).value).Some? && ContentHash(s.hasher, o).Ok?
            && AllServersVerified(s, keys, o["signatures"].fields, ServersToCheck(o, version).value,
                                  EventMessage(s, Redact(o, version).value).value)
  {
  }

  lemma VerifiedServers(s: Scheme, keys: PublicKeyMap, o: Object, version: RoomVersionId, servers: set<ServerName>)
    requires Sound(s) && Redact(o, version).Ok? && "signatures" in o && o["signatures"].Obj?
    ensures EventMessage(s, Redact(o, version).value) == Some(SignedText(Redact(o, version).value))
    ensures AllServersVerified(s, keys, o["signatures"].fields, servers, SignedText(Redact(o, version).value)) <==>
            forall server | server in servers :: SignedBy(s, keys, o, server, SignedText(Redact(o, version).value))
  {
    ReprintedMessage(s, Redact(o, version).value);
    forall server
      ensures ServerVerified(s, keys, o["signatures"].fields, server, SignedText(Redact(o, version).value)) <==>
              SignedBy(s, keys, o, server, SignedText(Redact(o, version).value))
    {
      ServerByFields(s, keys, o, server, SignedText(Redact(o, version).value));
    }
  }

  lemma RequiredVerified(s: Scheme, keys: PublicKeyMap, o: Object, version: RoomVersionId)
    requires Sound(s) && Redact(o, version).Ok? && HasSignatures(o) && ServersToCheck(o, version).Ok?
    ensures EventMessage(s, Redact(o, version).value).Some?
    ensures AllServersVerified(s, keys, o["signatures"].fields, ServersToCheck(o, version).value,
                               EventMessage(s, Redact(o, version).value).value) <==>
            forall server | Required(o, version, server) ::
              SignedBy(s, keys, o, server, SignedText(Redact(o, version).value))
  {
    ServersByFields(o, version);
    VerifiedServers(s, keys, o, version, ServersToCheck(o, version).value);
  }

  lemma RedactsAndFits(h: Hasher, o: Object, version: RoomVersionId)
    ensures Redact(o, version).Ok? <==> "type" in o && o["type"].Str? && ("content" in o ==> o["content"].Obj?)
    ensures ContentHash(h, o).Ok? <==> ByteLength(HashedText(o)) <= 65535
  {
  }

  /** `verify_event` accepts an event exactly when it can be redacted, names its required servers, holds a
      content hash and fits the size bound, and every required server's first known signature of the
      redacted form is accepted. */
  lemma VerifyEventExactly(s: Scheme, keys: PublicKeyMap, o: Object, version: RoomVersionId)
    requires Sound(s)
    ensures VerifyEvent(s, keys, o, version).Ok? <==>
            && Readable(o, version) && ("content" in o ==> o["content"].Obj?)
            && "hashes" in o && o["hashes"].Obj? && "sha256" in o["hashes"].fields && o["hashes"].fields["sha256"].Str?
            && "signatures" in o && o["signatures"].Obj?
            && ByteLength(HashedText(o)) <= 65535
            && forall server | Required(o, version, server) ::
                 SignedBy(s, keys, o, server, SignedText(Redact(o, version).value))
  {
    VerifyInParts(s, keys, o, version);
    RedactsAndFits(s.hasher, o, version);
    ServersByFields(o, version);
    if Redact(o, version).Ok? && HasSignatures(o) && ServersToCheck(o, version).Ok? {
      RequiredVerified(s, keys, o, version);
    }
  }

  /** So behind every accepted event there is, for each required server, a known key whose signature of the
      redacted form is accepted. */
  lemma VerifiedMeansSigned(s: Scheme, keys: PublicKeyMap, o: Object, version: RoomVersionId, server: ServerName)
    returns (id: string)
    requires Sound(s) && VerifyEvent(s, keys, o, version).Ok? && Required(o, version, server)
    ensures "signatures" in o && o["signatures"].Obj?
            && server in o["signatures"].fields && o["signatures"].fields[server].Obj?
    ensures server in keys && id in keys[server] && SplitId(id).Ok?
    ensures var entries := o["signatures"].fields[server].fields;
            && id in entries && entries[id].Str? && Redact(o, version).Ok?
            && s.accepts(keys[server][id], entries[id].s,
                         Print(Obj(Redact(o, version).value - {"signatures", "unsigned"})))
  {
    VerifyEventExactly(s, keys, o, version);
    var text := SignedText(Redact(o, version).value);
    assert SignedBy(s, keys, o, server, text);
    var i :| 0 <= i < |Sorted(keys[server].Keys)| && AcceptedAt(s, keys, o["signatures"].fields, server, text, i);
    id := Sorted(keys[server].Keys)[i];
  }

  /** The answer is `All` exactly when the stored hash is the digest of the event without its hashes,
      signatures and unsigned part, and else `Signatures`. */
  lemma AllMeansHashed(s: Scheme, keys: PublicKeyMap, o: Object, version: RoomVersionId)
    requires VerifyEvent(s, keys, o, version).Ok?
    ensures "hashes" in o && o["hashes"].Obj? && "sha256" in o["hashes"].fields
    ensures VerifyEvent(s, keys, o, version) ==
            Ok(if o["hashes"].fields["sha256"] == Str(s.hasher.standard(s.hasher.digest(HashedText(o)))) then All
               else Signatures)
  {
  }

  // ---- verify_json ----

  /** `verify_json` accepts exactly when every signature of every entity is one of a known key and is
      accepted over the object without its signatures and unsigned part. */
  lemma VerifyJsonExactly(s: Scheme, keys: PublicKeyMap, o: Object)
    ensures JsonVerified(s, keys, o) <==>
            && "signatures" in o && o["signatures"].Obj?
            && forall entity | entity in o["signatures"].fields ::
                 && o["signatures"].fields[entity].Obj? && entity in keys
                 && var entries := o["signatures"].fields[entity].fields;
                    forall id | id in entries ::
                      entries[id].Str? && id in keys[entity] && s.accepts(keys[entity][id], entries[id].s, SignedText(o))
  {
    if "signatures" in o && o["signatures"].Obj? {
      forall entity | entity in o["signatures"].fields
        ensures EntityVerified(s, keys, entity, o["signatures"].fields[entity], Message(o)) <==>
                && o["signatures"].fields[entity].Obj? && entity in keys
                && var entries := o["signatures"].fields[entity].fields;
                   forall id | id in entries ::
                     entries[id].Str? && id in keys[entity] && s.accepts(keys[entity][id], entries[id].s, SignedText(o))
      {
      }
    }
  }

  // ---- Signing ----

  /** The entry under an entity and a key id. */
  predicate HoldsSignature(o: Object, entity: string, id: string, signature: string) {
    && "signatures" in o && o["signatures"].Obj?
    && entity in o["signatures"].fields && o["signatures"].fields[entity].Obj?
    && id in o["signatures"].fields[entity].fields && o["signatures"].fields[entity].fields[id] == Str(signature)
  }

  /** `sign_json` succeeds exactly when `signatures` and the entity's entry in it are objects or absent. */
  lemma CanSignByFields(o: Object, entity: string)
    ensures CanSign(o, entity) <==>
            ("signatures" in o ==>
               && o["signatures"].Obj?
               && (entity in o["signatures"].fields ==> o["signatures"].fields[entity].Obj?))
  {
  }

  /** `sign_json` files the signature of the object's text under the entity and `ed25519:` with the key's
      version. */
  lemma SignedByFields(s: Scheme, entity: string, key: KeyPair, o: Object)
    requires CanSign(o, entity)
    ensures HoldsSignature(Signed(s, entity, key, o), entity, "ed25519" + ":" + key.version, s.sign(key.secret, SignedText(o)))
  {
  }

  /** `hash_and_sign_event` stores the digest of the event without hashes, signatures and unsigned part, and
      files the signature of the redacted form of the event that holds it. */
  lemma HashedAndSignedByFields(s: Scheme, entity: string, key: KeyPair, o: Object, version: RoomVersionId)
    requires HashedAndSigned(s, entity, key, o, version).Ok?
    ensures var p := HashedAndSigned(s, entity, key, o, version).value;
            && "hashes" in p && p["hashes"].Obj? && "sha256" in p["hashes"].fields
            && p["hashes"].fields["sha256"] == Str(s.hasher.standard(s.hasher.digest(HashedText(o))))
            && Redact(p, version).Ok?
            && HoldsSignature(p, entity, "ed25519" + ":" + key.version,
                              s.sign(key.secret, SignedText(Redact(p, version).value)))
  {
    var p := HashedAndSigned(s, entity, key, o, version).value;
    SignedEventMessage(s, entity, key, o, version);
    var hashed := WithHash(s.hasher, o).value;
    SignedByFields(s, entity, key, Redact(hashed, version).value);
  }
}
