/** Signing and verifying JSON objects and events.

    The signature scheme is a parameter: all that is known of it is that a signature made with a
    secret key is accepted under its public key. So is the parser of canonical JSON: all that is
    known of it is that it inverts printing, as the reader of the JSON grammar does. */
module Signing {
  import opened Wrappers
  import opened RoomVersions
  import opened CanonicalJson
  import opened CanonicalReader
  import opened Redaction

  datatype Scheme = Scheme(
    sign: (string, string) -> string,
    publicKey: string -> string,
    accepts: (string, string, string) -> bool,
    parse: string -> Option<Object>,
    hasher: Hasher)

  ghost predicate Sound(s: Scheme) {
    && (forall secret, message :: Accepts(s, PublicKey(s, secret), SignatureOf(s, secret, message), message))
    && (forall o :: Parse(s, Print(Obj(o))) == Some(o))
  }

  function SignatureOf(s: Scheme, secret: string, message: string): string {
    s.sign(secret, message)
  }

  function PublicKey(s: Scheme, secret: string): string {
    s.publicKey(secret)
  }

  /** Decoding both base64 strings and checking the signature. */
  predicate Accepts(s: Scheme, publicKey: string, signature: string, message: string) {
    s.accepts(publicKey, signature, message)
  }

  function Parse(s: Scheme, text: string): Option<Object> {
    s.parse(text)
  }

  /** There are sound schemes: signatures that quote key and message, and the reader of the grammar. */
  lemma SoundSchemeExists(h: Hasher)
    ensures Sound(Scheme((secret, message) => secret + message, secret => secret,
                         (publicKey, signature, message) => signature == publicKey + message,
                         text => ReadObject(text), h))
  {
    forall o
      ensures ReadObject(Print(Obj(o))) == Some(o)
    {
      ObjectBack(o);
    }
  }

  datatype KeyPair = KeyPair(secret: string, version: string)

  /** Public keys by entity and key identifier. */
  type PublicKeyMap = map<string, map<string, string>>

  /** The JSON object a caller passes by mutable reference. */
  class JsonObject {
    var fields: Object

    constructor (fields: Object)
      ensures this.fields == fields
    {
      this.fields := fields;
    }
  }

  // ---- sign_json ----

  /** The object at a key; an empty one when the key is absent. */
  function ObjectAt(o: Object, k: string): Option<Object> {
    if k !in o then Some(map[]) else if o[k].Obj? then Some(o[k].fields) else None
  }

  /** The signature a verifier finds for an entity and a key identifier. */
  function SignatureAt(o: Object, entity: string, keyId: string): Option<string> {
    match ObjectAt(o, "signatures")
    case None => None
    case Some(signatures) =>
      match ObjectAt(signatures, entity)
      case None => None
      case Some(entries) => StringAt(entries, keyId)
  }

  /** What is signed: the canonical form without `signatures` and `unsigned`. */
  function Message(o: Object): string {
    CanonicalWithout(o, SIGNED_FIELDS)
  }

  predicate CanSign(o: Object, entity: string) {
    ObjectAt(o, "signatures").Some? && ObjectAt(ObjectAt(o, "signatures").value, entity).Some?
  }

  /** `signatures` with one entry added or replaced. */
  function AddSignature(signatures: Object, entity: string, keyId: string, signature: string): Object
    requires ObjectAt(signatures, entity).Some?
  {
    signatures[entity := Obj(ObjectAt(signatures, entity).value[keyId := Str(signature)])]
  }

  function Signed(s: Scheme, entity: string, key: KeyPair, o: Object): Object
    requires CanSign(o, entity)
  {
    var signatures := ObjectAt(o, "signatures").value;
    o["signatures" := Obj(AddSignature(signatures, entity, KeyId(key.version), SignatureOf(s, key.secret, Message(o))))]
  }

  /** `sign_json`. On failure the object is left without the entries already taken out of it. */
  method SignJson(s: Scheme, entity: string, key: KeyPair, target: JsonObject) returns (r: Result<()>)
    modifies target
    ensures r.Ok? <==> CanSign(old(target.fields), entity)
    ensures r.Ok? ==> target.fields == Signed(s, entity, key, old(target.fields))
    ensures r.Err? && ObjectAt(old(target.fields), "signatures").None? ==>
              target.fields == old(target.fields) - {"signatures"}
    ensures r.Err? && ObjectAt(old(target.fields), "signatures").Some? ==>
              target.fields == old(target.fields) - SIGNED_FIELDS
  {
    ghost var before := target.fields;
    var entry := if "signatures" in target.fields then Some(target.fields["signatures"]) else None;
    target.fields := target.fields - {"signatures"};
    if entry.Some? && !entry.value.Obj? {
      return Err(JsonField);
    }
    var signatures := if entry.Some? then entry.value.fields else map[];
    var unsigned := if "unsigned" in target.fields then Some(target.fields["unsigned"]) else None;
    target.fields := target.fields - {"unsigned"};
    TakenOut(before);
    var signature := SignatureOf(s, key.secret, Print(Obj(target.fields)));
    if entity in signatures && !signatures[entity].Obj? {
      return Err(JsonField);
    }
    var entries := if entity in signatures then signatures[entity].fields else map[];
    signatures := signatures[entity := Obj(entries[KeyId(key.version) := Str(signature)])];
    target.fields := target.fields["signatures" := Obj(signatures)];
    if unsigned.Some? {
      target.fields := target.fields["unsigned" := unsigned.value];
    }
    PutBack(before, Obj(signatures));
    return Ok(());
  }

  lemma TakenOut(o: Object)
    ensures o - {"signatures"} - {"unsigned"} == o - SIGNED_FIELDS
    ensures "signatures" !in o ==> o - {"signatures"} == o
  {
  }

  lemma PutBack(o: Object, signatures: Json)
    ensures "unsigned" in o ==>
              (o - SIGNED_FIELDS)["signatures" := signatures]["unsigned" := o["unsigned"]] == o["signatures" := signatures]
    ensures "unsigned" !in o ==> (o - SIGNED_FIELDS)["signatures" := signatures] == o["signatures" := signatures]
  {
  }

  /** Signing changes `signatures` only, adds this signature there, and leaves every other one. */
  lemma SignedEntries(s: Scheme, entity: string, key: KeyPair, o: Object, other: string, keyId: string)
    requires CanSign(o, entity)
    ensures var p := Signed(s, entity, key, o);
            && (forall k | k != "signatures" :: (k in p <==> k in o) && (k in o ==> p[k] == o[k]))
            && Message(p) == Message(o)
            && (CanSign(o, other) ==> CanSign(p, other))
            && SignatureAt(p, other, keyId) ==
                 if other == entity && keyId == KeyId(key.version) then Some(SignatureOf(s, key.secret, Message(o)))
                 else SignatureAt(o, other, keyId)
  {
    var p := Signed(s, entity, key, o);
    assert p - SIGNED_FIELDS == o - SIGNED_FIELDS;
  }

  /** Signatures under different entities or key identifiers can be made in either order. */
  lemma SigningCommutes(s: Scheme, e1: string, k1: KeyPair, e2: string, k2: KeyPair, o: Object)
    requires CanSign(o, e1) && CanSign(o, e2) && (e1 != e2 || KeyId(k1.version) != KeyId(k2.version))
    ensures CanSign(Signed(s, e1, k1, o), e2) && CanSign(Signed(s, e2, k2, o), e1)
    ensures Signed(s, e2, k2, Signed(s, e1, k1, o)) == Signed(s, e1, k1, Signed(s, e2, k2, o))
  {
    SignedEntries(s, e1, k1, o, e2, KeyId(k2.version));
    SignedEntries(s, e2, k2, o, e1, KeyId(k1.version));
    var message := Message(o);
    AddCommutes(ObjectAt(o, "signatures").value,
                e1, KeyId(k1.version), SignatureOf(s, k1.secret, message),
                e2, KeyId(k2.version), SignatureOf(s, k2.secret, message));
  }

  lemma AddCommutes(signatures: Object, e1: string, i1: string, s1: string, e2: string, i2: string, s2: string)
    requires ObjectAt(signatures, e1).Some? && ObjectAt(signatures, e2).Some? && (e1 != e2 || i1 != i2)
    ensures ObjectAt(AddSignature(signatures, e1, i1, s1), e2).Some?
    ensures ObjectAt(AddSignature(signatures, e2, i2, s2), e1).Some?
    ensures AddSignature(AddSignature(signatures, e1, i1, s1), e2, i2, s2)
            == AddSignature(AddSignature(signatures, e2, i2, s2), e1, i1, s1)
  {
    var a := AddSignature(AddSignature(signatures, e1, i1, s1), e2, i2, s2);
    var b := AddSignature(AddSignature(signatures, e2, i2, s2), e1, i1, s1);
    if e1 == e2 {
      var entries := ObjectAt(signatures, e1).value;
      assert entries[i1 := Str(s1)][i2 := Str(s2)] == entries[i2 := Str(s2)][i1 := Str(s1)];
    }
    assert a[e1] == b[e1] && a[e2] == b[e2];
  }

  /** Signing leaves the event id alone. */
  lemma SigningKeepsReferenceHash(s: Scheme, entity: string, key: KeyPair, o: Object, version: RoomVersionId)
    requires CanSign(o, entity)
    ensures SameOutcome(ReferenceHash(s.hasher, Signed(s, entity, key, o), version), ReferenceHash(s.hasher, o, version))
  {
    ReferenceHashIgnoresSignatures(s.hasher, o, version, Signed(s, entity, key, o)["signatures"]);
  }

  // ---- verify_json ----

  /** One entry of `signatures` is fully covered by known keys and accepted signatures. */
  predicate EntityVerified(s: Scheme, keys: PublicKeyMap, entity: string, entries: Json, message: string) {
    && entries.Obj? && entity in keys
    && forall keyId | keyId in entries.fields ::
         entries.fields[keyId].Str? && keyId in keys[entity]
         && Accepts(s, keys[entity][keyId], entries.fields[keyId].s, message)
  }

  predicate JsonVerified(s: Scheme, keys: PublicKeyMap, o: Object) {
    && "signatures" in o && o["signatures"].Obj?
    && forall entity | entity in o["signatures"].fields ::
         EntityVerified(s, keys, entity, o["signatures"].fields[entity], Message(o))
  }

  method VerifyEntity(s: Scheme, keys: PublicKeyMap, entity: string, entries: Json, message: string) returns (ok: bool)
    ensures ok <==> EntityVerified(s, keys, entity, entries, message)
  {
    if !entries.Obj? || entity !in keys {
      return false;
    }
    ghost var done: set<string> := {};
    var rest := entries.fields.Keys;
    while rest != {}
      invariant done + rest == entries.fields.Keys
      invariant forall keyId | keyId in done ::
                  entries.fields[keyId].Str? && keyId in keys[entity]
                  && Accepts(s, keys[entity][keyId], entries.fields[keyId].s, message)
    {
      var keyId :| keyId in rest;
      if !entries.fields[keyId].Str? || keyId !in keys[entity] {
        return false;
      }
      if !Accepts(s, keys[entity][keyId], entries.fields[keyId].s, message) {
        return false;
      }
      rest, done := rest - {keyId}, done + {keyId};
    }
    return true;
  }

  /** `verify_json`, up to which of several errors is reported. */
  method VerifyJson(s: Scheme, keys: PublicKeyMap, o: Object) returns (r: Result<()>)
    ensures r.Ok? <==> JsonVerified(s, keys, o)
  {
    if "signatures" !in o || !o["signatures"].Obj? {
      return Err(JsonField);
    }
    var signatures := o["signatures"].fields;
    ghost var done: set<string> := {};
    var rest := signatures.Keys;
    while rest != {}
      invariant done + rest == signatures.Keys
      invariant forall entity | entity in done :: EntityVerified(s, keys, entity, signatures[entity], Message(o))
    {
      var entity :| entity in rest;
      var ok := VerifyEntity(s, keys, entity, signatures[entity], Message(o));
      if !ok {
        return Err(Verification);
      }
      rest, done := rest - {entity}, done + {entity};
    }
    return Ok(());
  }

  // ---- Any sequence of signers ----

  datatype Signer = Signer(entity: string, key: KeyPair)

  /** The key map holds the signer's public key under the signer's own key identifier. */
  predicate Knows(s: Scheme, keys: PublicKeyMap, signer: Signer) {
    && signer.entity in keys && KeyId(signer.key.version) in keys[signer.entity]
    && keys[signer.entity][KeyId(signer.key.version)] == PublicKey(s, signer.key.secret)
  }

  /** The object after the signers have signed in turn, if every call succeeds. */
  function SignedByAll(s: Scheme, signers: seq<Signer>, o: Object): Option<Object> {
    if signers == [] then Some(o)
    else
      var last := |signers| - 1;
      match SignedByAll(s, signers[..last], o)
      case None => None
      case Some(p) =>
        if CanSign(p, signers[last].entity) then Some(Signed(s, signers[last].entity, signers[last].key, p)) else None
  }

  /** Any sequence of signers of an unsigned object all succeed, leave everything but `signatures` as
      it was, and `verify_json` accepts the result under any key map that holds their public keys. */
  lemma {:induction false} SignersVerified(s: Scheme, keys: PublicKeyMap, signers: seq<Signer>, o: Object)
    requires Sound(s) && "signatures" !in o
    requires forall signer | signer in signers :: Knows(s, keys, signer)
    ensures SignedByAll(s, signers, o).Some?
    ensures var p := SignedByAll(s, signers, o).value;
            && p - {"signatures"} == o && Message(p) == Message(o)
            && (signers != [] ==> JsonVerified(s, keys, p))
            && forall entity :: CanSign(p, entity)
  {
    if signers == [] {
    } else {
      var last := |signers| - 1;
      SignersVerified(s, keys, signers[..last], o);
      var p := SignedByAll(s, signers[..last], o).value;
      var signer := signers[last];
      assert Knows(s, keys, signer);
      SigningKeepsVerified(s, keys, signer, p);
    }
  }

  /** One more known signer of an object that is unsigned or verified. */
  lemma SigningKeepsVerified(s: Scheme, keys: PublicKeyMap, signer: Signer, o: Object)
    requires Sound(s) && Knows(s, keys, signer) && (forall entity :: CanSign(o, entity))
    requires "signatures" in o ==> JsonVerified(s, keys, o)
    ensures var p := Signed(s, signer.entity, signer.key, o);
            && JsonVerified(s, keys, p) && Message(p) == Message(o)
            && p - {"signatures"} == o - {"signatures"}
            && forall entity :: CanSign(p, entity)
  {
    var p := Signed(s, signer.entity, signer.key, o);
    SignedEntries(s, signer.entity, signer.key, o, signer.entity, "");
    var signatures := p["signatures"].fields;
    var keyId, signature := KeyId(signer.key.version), SignatureOf(s, signer.key.secret, Message(o));
    assert Accepts(s, PublicKey(s, signer.key.secret), signature, Message(o));
    forall entity | entity in signatures
      ensures EntityVerified(s, keys, entity, signatures[entity], Message(p))
    {
      if "signatures" in o && entity in o["signatures"].fields {
        assert EntityVerified(s, keys, entity, o["signatures"].fields[entity], Message(o));
      }
    }
  }
}
