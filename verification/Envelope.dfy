/**
 Registering a manifest: taking a SUIT envelope apart, authenticating it, and storing what
 its manifest says under the digest it was signed with.
 */
module Envelope {
  import opened Wrappers
  import opened Tables
  import opened Protocol
  import opened Machine
  import opened RequestFacts
  import opened Registry
  import opened Beliefs
  import opened Effects
  import opened Tam
  import Service
  import Cbor

  datatype HeaderValue = ByteString(bytes: Bytes) | SomethingElse

  /** A COSE_Sign1 message as far as it is looked at: the kid of each header, the payload, and
      all the rest. */
  datatype Sign1 = Sign1(protectedKid: Option<HeaderValue>, unprotectedKid: Option<HeaderValue>,
                         payload: Option<Bytes>, rest: Bytes)

  datatype SuitDigest = SuitDigest(alg: int, bytes: Bytes)

  type Sha256 = b: Bytes | |b| == SHA256_SIZE witness seq(SHA256_SIZE, i => 0)

  datatype Manifest = Manifest(sequenceNumber: nat, components: seq<Cbor.ComponentId>)

  datatype SuitError = InvalidFormat | MissingKid | NotAuthentic | BadKey

  /** The CBOR, COSE and hash libraries.  The raw items keep their encoding. */
  datatype Libraries = Libraries(
    mapOf: Bytes -> Option<map<nat, Bytes>>,      // a map's values by unsigned key
    arrayOf: Bytes -> Option<seq<Bytes>>,         // an array's items
    bytesOf: Bytes -> Option<Bytes>,              // a byte string's content
    sign1Of: Bytes -> Option<Sign1>,              // a COSE_Sign1 wrapped in a byte string
    digestOf: Bytes -> Option<SuitDigest>,
    manifestOf: Bytes -> Option<Manifest>,        // a manifest wrapped in a byte string
    sha256: Bytes -> Sha256,
    usable: Key -> bool,
    verifies: (Sign1, Key) -> bool)

  const ENVELOPE_TAG: Bytes := [0xD8, 0x6B]

  /** What is left after the envelope tag, if it is there. */
  function SkipTag(data: Bytes): (r: (bool, Bytes))
    ensures r.0 ==> data == [0xD8, 0x6B] + r.1
    ensures !r.0 ==> data == r.1 && !([0xD8, 0x6B] <= data)
  {
    if ENVELOPE_TAG <= data then (true, data[2..]) else (false, data)
  }

  /** The kid of the protected header if it has one, even one of the wrong type, else of the
      unprotected header. */
  function ExtractKid(sign1: Sign1): (kid: Option<Bytes>)
    ensures sign1.protectedKid.Some? ==>
      kid == if sign1.protectedKid.value.ByteString? then Some(sign1.protectedKid.value.bytes) else None
    ensures forall k :: sign1.protectedKid.None? && sign1.unprotectedKid == Some(ByteString(k)) ==> kid == Some(k)
    ensures kid.None? ==>
      sign1.protectedKid.Some? || sign1.unprotectedKid.None? || sign1.unprotectedKid.value.SomethingElse?
  {
    match (if sign1.protectedKid.Some? then sign1.protectedKid else sign1.unprotectedKid)
    case Some(ByteString(kid)) => Some(kid)
    case _ => None
  }

  /** An envelope taken apart. */
  datatype Parts = Parts(tagged: bool, digestBstr: Bytes, kid: Bytes, block: Bytes, manifestBstr: Bytes)

  /** The envelope is a map whose entry 2 wraps a digest and exactly one signature block with a
      kid, and whose entry 3 is the manifest. */
  predicate Contains(lib: Libraries, data: Bytes, parts: Parts)
  {
    && parts.tagged == SkipTag(data).0
    && lib.mapOf(SkipTag(data).1).Some?
    && var fields := lib.mapOf(SkipTag(data).1).value;
    && 2 in fields && 3 in fields && parts.manifestBstr == fields[3]
    && lib.bytesOf(fields[2]).Some?
    && var items := lib.arrayOf(lib.bytesOf(fields[2]).value);
    && items.Some? && |items.value| == 2
    && lib.bytesOf(items.value[0]) == Some(parts.digestBstr)
    && parts.block == items.value[1]
    && lib.sign1Of(parts.block).Some?
    && ExtractKid(lib.sign1Of(parts.block).value) == Some(parts.kid)
  }

  /** The digest is the SHA-256 digest of the manifest as it is carried, and the block is a
      detached signature over the digest under the key. */
  predicate Authentic(lib: Libraries, parts: Parts, key: Key)
  {
    && DigestMatches(lib, parts.digestBstr, parts.manifestBstr)
    && lib.usable(key)
    && lib.sign1Of(parts.block).Some?
    && lib.sign1Of(parts.block).value.payload.None?
    && lib.verifies(lib.sign1Of(parts.block).value.(payload := Some(parts.digestBstr)), key)
  }

  predicate DigestMatches(lib: Libraries, digestBstr: Bytes, manifestBstr: Bytes)
  {
    lib.digestOf(digestBstr) == Some(SuitDigest(-16, lib.sha256(manifestBstr)))
  }

  /** The parser's target: its fields are filled as the input is taken apart. */
  class Envelope {
    var tagged: bool
    var digestBstr: Bytes
    var kids: seq<Bytes>        // one authentication block only
    var blocks: seq<Bytes>
    var manifestBstr: Bytes

    constructor ()
    {
      tagged, digestBstr, kids, blocks, manifestBstr := false, [], [], [], [];
    }

    ghost predicate Holds(parts: Parts)
      reads this
    {
      tagged == parts.tagged && digestBstr == parts.digestBstr && kids == [parts.kid]
      && blocks == [parts.block] && manifestBstr == parts.manifestBstr
    }

    method UnmarshalWrapper(lib: Libraries, data: Bytes) returns (error: Option<SuitError>)
      modifies this`digestBstr, this`kids, this`blocks
      ensures error.None? <==>
        && lib.arrayOf(data).Some? && |lib.arrayOf(data).value| == 2
        && var items := lib.arrayOf(data).value;
        && lib.bytesOf(items[0]).Some? && lib.sign1Of(items[1]).Some?
        && ExtractKid(lib.sign1Of(items[1]).value).Some?
      ensures error.None? ==>
        && var items := lib.arrayOf(data).value;
        && lib.bytesOf(items[0]) == Some(digestBstr) && blocks == [items[1]]
        && |kids| == 1 && ExtractKid(lib.sign1Of(items[1]).value) == Some(kids[0])
    {
      var items := lib.arrayOf(data);
      if items.None? || |items.value| != 2 {
        return Some(InvalidFormat);
      }
      var digest := lib.bytesOf(items.value[0]);
      if digest.None? {
        return Some(InvalidFormat);
      }
      digestBstr, blocks := digest.value, [items.value[1]];
      var sign1 := lib.sign1Of(items.value[1]);
      if sign1.None? {
        return Some(InvalidFormat);
      }
      var kid := ExtractKid(sign1.value);
      if kid.None? {
        return Some(MissingKid);
      }
      kids := [kid.value];
      error := None;
    }

    /** Fills the fields, exactly when the data is such an envelope. */
    method Unmarshal(lib: Libraries, data: Bytes) returns (error: Option<SuitError>)
      modifies this
      ensures error.None? <==> exists parts :: Contains(lib, data, parts)
      ensures error.None? ==> exists parts :: Contains(lib, data, parts) && Holds(parts)
    {
      var (tag, rest) := SkipTag(data);
      tagged := tag;
      var fields := lib.mapOf(rest);
      if fields.None? || 2 !in fields.value || lib.bytesOf(fields.value[2]).None? {
        return Some(InvalidFormat);
      }
      error := UnmarshalWrapper(lib, lib.bytesOf(fields.value[2]).value);
      if error.Some? {
        return;
      }
      if 3 !in fields.value {
        return Some(InvalidFormat);
      }
      manifestBstr := fields.value[3];
      assert Contains(lib, data, Parts(tagged, digestBstr, kids[0], blocks[0], manifestBstr));
    }

    method Verify(lib: Libraries, key: Key, ghost parts: Parts) returns (error: Option<SuitError>)
      requires Holds(parts)
      ensures error.None? <==> Authentic(lib, parts, key)
    {
      var digest := lib.digestOf(digestBstr);
      if digest.None? || digest.value.alg != ALG_SHA256 || digest.value.bytes != lib.sha256(manifestBstr) {
        return Some(NotAuthentic);
      }
      if !lib.usable(key) {
        return Some(BadKey);
      }
      for i := 0 to |blocks|
        invariant i == 1 ==> !Authentic(lib, parts, key)
      {
        var sign1 := lib.sign1Of(blocks[i]);
        if sign1.None? {
          return Some(NotAuthentic);
        }
        if sign1.value.payload.Some? {
          return Some(InvalidFormat);
        }
        if lib.verifies(sign1.value.(payload := Some(digestBstr)), key) {
          return None;
        }
      }
      error := Some(NotAuthentic);
    }
  }

  /** The registration an envelope amounts to under a signing key: the digest as carried, the
      component and the sequence number of the manifest it covers. */
  ghost predicate AmountsTo(lib: Libraries, keys: seq<SigningKeyRow>, body: Bytes, input: Input)
  {
    && input.Registration? && input.envelope == Some(SkipTag(body).1)
    && exists parts: Parts, k: nat ::
         && Contains(lib, body, parts) && k < |keys| && keys[k].kid == parts.kid && |parts.kid| == 32
         && Authentic(lib, parts, keys[k].publicKey)
         && input.digest == parts.digestBstr && input.signer == parts.kid
         && Covers(lib, parts.manifestBstr, input.component, input.sequenceNumber)
  }

  /** The manifest names this one component and carries this sequence number. */
  predicate Covers(lib: Libraries, manifestBstr: Bytes, component: Bytes, sequenceNumber: nat)
  {
    && lib.manifestOf(manifestBstr).Some?
    && var m := lib.manifestOf(manifestBstr).value;
    && m.sequenceNumber == sequenceNumber && |m.components| == 1
    && component == Cbor.ComponentKey(m.components[0])
  }

  const HTTP_OK: nat := 200
  const HTTP_BAD_REQUEST: nat := 400
  const HTTP_SERVER_ERROR: nat := 500

  /** An envelope comes apart in one way. */
  lemma PartsAreUnique(lib: Libraries, data: Bytes, parts: Parts, other: Parts)
    requires Contains(lib, data, parts) && Contains(lib, data, other)
    ensures parts == other
  {
  }

  /** What a body whose parts and signing key are known amounts to. */
  lemma AmountsToExactly(lib: Libraries, keys: seq<SigningKeyRow>, body: Bytes, parts: Parts, k: nat, input: Input)
    requires DistinctSigners(keys) && Contains(lib, body, parts) && k < |keys| && keys[k].kid == parts.kid
    ensures AmountsTo(lib, keys, body, input) <==>
      && input.Registration? && input.envelope == Some(SkipTag(body).1) && |parts.kid| == 32
      && Authentic(lib, parts, keys[k].publicKey) && input.digest == parts.digestBstr && input.signer == parts.kid
      && Covers(lib, parts.manifestBstr, input.component, input.sequenceNumber)
  {
    hide Contains, Authentic, Covers, SkipTag;
    if AmountsTo(lib, keys, body, input) {
      var other: Parts, j: nat :|
        && Contains(lib, body, other) && j < |keys| && keys[j].kid == other.kid && |other.kid| == 32
        && Authentic(lib, other, keys[j].publicKey)
        && input.digest == other.digestBstr && input.signer == other.kid
        && Covers(lib, other.manifestBstr, input.component, input.sequenceNumber);
      PartsAreUnique(lib, body, parts, other);
      assert j == k;
    }
  }

  lemma UnknownAmountsToNothing(lib: Libraries, keys: seq<SigningKeyRow>, body: Bytes, input: Input)
    requires !(exists parts :: Contains(lib, body, parts))
      || exists parts :: Contains(lib, body, parts) && (|parts.kid| != 32 || PicksSigningKey(keys, parts.kid, None))
    ensures !AmountsTo(lib, keys, body, input)
  {
    hide Contains, Authentic, Covers, SkipTag;
    if parts: Parts :| Contains(lib, body, parts) && (|parts.kid| != 32 || PicksSigningKey(keys, parts.kid, None)) {
      forall other: Parts | Contains(lib, body, other)
        ensures other == parts
      {
        PartsAreUnique(lib, body, parts, other);
      }
    }
  }

  /** The body amounts to a registration that may be made. */
  ghost predicate Acceptable(lib: Libraries, db: Db, body: Bytes)
  {
    exists input: Input :: AmountsTo(lib, db.signingKeys, body, input) && Service.Admits(db, input)
  }

  /** The body amounts to a registration that could be made if its number were smaller. */
  ghost predicate TooLarge(lib: Libraries, db: Db, body: Bytes)
  {
    exists input: Input :: AmountsTo(lib, db.signingKeys, body, input) && Service.Oversized(db, input)
  }

  function StatusOf(outcome: Outcome): nat
  {
    match outcome
    case Registered => HTTP_OK
    case Refused(e) =>
      if e.NotAuthenticated? || e.SmallerSequenceNumber? || e.SigningKeyMismatch? then HTTP_BAD_REQUEST
      else HTTP_SERVER_ERROR
    case _ => HTTP_SERVER_ERROR
  }

  /** The registration the body amounts to, if it does. */
  method VetEnvelope(tam: Tam, lib: Libraries, body: Bytes) returns (input: Option<Input>)
    ensures input.Some? ==> input.value.Registration? && AmountsTo(lib, tam.store.signingKeys, body, input.value)
    ensures DistinctSigners(tam.store.signingKeys) ==>
      forall other: Input :: AmountsTo(lib, tam.store.signingKeys, body, other) <==> input == Some(other)
  {
    hide Contains, Authentic, AmountsTo, DistinctSigners;
    ghost var keys := tam.store.signingKeys;
    var envelope := new Envelope();
    var error := envelope.Unmarshal(lib, body);
    if error.Some? {
      forall other: Input
        ensures !AmountsTo(lib, keys, body, other)
      {
        UnknownAmountsToNothing(lib, keys, body, other);
      }
      return None;
    }
    ghost var parts :| Contains(lib, body, parts) && envelope.Holds(parts);
    var (_, untagged) := SkipTag(body);
    var kid := envelope.kids[0];
    if |kid| != 32 {
      forall other: Input
        ensures !AmountsTo(lib, keys, body, other)
      {
        UnknownAmountsToNothing(lib, keys, body, other);
      }
      return None;
    }
    var found := tam.store.FindSigningKey(kid);
    if found.None? {
      forall other: Input
        ensures !AmountsTo(lib, keys, body, other)
      {
        UnknownAmountsToNothing(lib, keys, body, other);
      }
      return None;
    }
    var key := tam.store.signingKeys[found.value].publicKey;
    error := envelope.Verify(lib, key, parts);
    if DistinctSigners(keys) {
      forall other: Input
        ensures AmountsTo(lib, keys, body, other) <==>
          && other.Registration? && other.envelope == Some(untagged) && error.None?
          && other.digest == parts.digestBstr && other.signer == kid
          && Covers(lib, parts.manifestBstr, other.component, other.sequenceNumber)
      {
        AmountsToExactly(lib, keys, body, parts, found.value, other);
      }
    }
    if error.Some? {
      return None;
    }
    var manifest := lib.manifestOf(envelope.manifestBstr);
    if manifest.None? || |manifest.value.components| != 1 {
      return None;
    }
    var component := Cbor.ComponentKey(manifest.value.components[0]);
    input := Some(Registration(Some(untagged), envelope.digestBstr, kid, component, manifest.value.sequenceNumber));
    assert AmountsTo(lib, keys, body, input.value) by { Amounts(lib, keys, body, parts, found.value, input.value); }
  }

  lemma Amounts(lib: Libraries, keys: seq<SigningKeyRow>, body: Bytes, parts: Parts, k: nat, input: Input)
    requires Contains(lib, body, parts) && k < |keys| && keys[k].kid == parts.kid && |parts.kid| == 32
    requires input.Registration? && input.envelope == Some(SkipTag(body).1)
    requires Authentic(lib, parts, keys[k].publicKey) && input.digest == parts.digestBstr && input.signer == parts.kid
    requires Covers(lib, parts.manifestBstr, input.component, input.sequenceNumber)
    ensures AmountsTo(lib, keys, body, input)
  {
  }

  /** The validation pipeline.  The answer is 200 for exactly the bodies that amount to a
      registration that may be made, and then exactly its row is added; 500 if only the number is
      too large; and 400 for every other body. */
  method AddTcManifest(tam: Tam, lib: Libraries, body: Bytes) returns (status: nat)
    requires tam.Valid()
    modifies tam`past, tam.store, tam.env
    ensures tam.Valid()
    ensures DistinctSigners(old(tam.store.signingKeys)) ==>
      status == if Acceptable(lib, old(tam.store.View()), body) then 200
                else if TooLarge(lib, old(tam.store.View()), body) then 500 else 400
    ensures status == 200 ==> exists input: Input, key: nat ::
      && AmountsTo(lib, old(tam.store.signingKeys), body, input) && Service.Passes(old(tam.store.View()), input, key)
      && Service.RowAdded(old(tam.store.View()), tam.store.View(), input, key)
    ensures status != 200 ==> tam.store.View() == old(tam.store.View())
    ensures AllGenuine(lib, old(tam.store.manifests)) ==> AllGenuine(lib, tam.store.manifests)
  {
    hide AmountsTo, DistinctSigners, MayRegister, AllGenuine, InsertedUnder, Service.Admits, Service.Oversized,
         Service.Passes, Service.RowAdded, Service.Registers, Service.Serves, FulfilsSigned, BeliefsFollow,
         Service.Vouched, Service.TokenAnswers, OrderedStreams, NonNegative, UniqueDigests, Execute;
    var input := VetEnvelope(tam, lib, body);
    if input.None? {
      return HTTP_BAD_REQUEST;
    }
    ghost var db := tam.store.View();
    HasEnvelope(lib, db.signingKeys, body, input.value);
    var outcome := tam.Serve(input.value);
    status := StatusOf(outcome);
    ServesRegistration(tam.world, old(tam.env.now), tam.env.now, old(tam.env.draws), db, tam.store.View(),
                       input.value, outcome);
    Service.RegisteredIsAdded(db, tam.store.View(), input.value, outcome);
    if DistinctSigners(db.signingKeys) { RegistersDistinct(db, tam.store.View(), input.value, outcome); }
    if status == HTTP_OK {
      ghost var key: nat :| InsertedUnder(old(tam.store.View()), tam.store.View(), input.value, key);
      InsertedIsGenuine(lib, old(tam.store.View()), tam.store.View(), body, input.value, key);
    }
  }

  lemma ServesRegistration(w: World, from: int, to: int, draws: seq<Bytes>, db: Db, db': Db, input: Input,
                           outcome: Outcome)
    requires input.Registration? && Service.Serves(w, from, to, draws, db, db', input, outcome)
    ensures Service.Registers(db, db', input, outcome)
  {
  }

  lemma HasEnvelope(lib: Libraries, keys: seq<SigningKeyRow>, body: Bytes, input: Input)
    requires AmountsTo(lib, keys, body, input)
    ensures input.Registration? && input.envelope.Some?
  {
  }

  lemma RegistersDistinct(db: Db, db': Db, input: Input, outcome: Outcome)
    requires DistinctSigners(db.signingKeys)
    requires input.Registration? && input.envelope.Some? && Service.Registers(db, db', input, outcome)
    ensures outcome == Registered <==> Service.Admits(db, input)
    ensures outcome == Refused(SequenceTooLarge) <==> Service.Oversized(db, input)
  {
    Service.RegistersWhat(db, db', input, outcome);
  }

  lemma InsertedIsGenuine(lib: Libraries, db: Db, db': Db, body: Bytes, input: Input, key: nat)
    requires AmountsTo(lib, db.signingKeys, body, input) && InsertedUnder(db, db', input, key)
    ensures AllGenuine(lib, db.manifests) ==> AllGenuine(lib, db'.manifests)
  {
    VettedIsGenuine(lib, db.signingKeys, input, NewManifest(input, key));
    hide AmountsTo, FromManifest;
  }

  /** In the store of a TAM whose registrations came through the pipeline, a digest names one
      row unless the manifests stored in two rows collide; so there the reports of a Success are
      folded into the beliefs with nothing further to ask. */
  lemma VettedStoreHasUniqueDigests(tam: Tam, lib: Libraries)
    requires tam.Valid() && AllGenuine(lib, tam.store.manifests) && NoneCollide(lib, tam.store.manifests)
    ensures UniqueDigests(tam.store.manifests)
  {
    hide Execute, Genuine, RowsCollide;
    assert OrderedStreams(tam.store.manifests);
    hide OrderedStreams;
    DigestIdentifiesRow(lib, tam.store.manifests);
  }

  // ---- what a stored digest means ----

  /** Two different manifests with one digest. */
  predicate Collide(lib: Libraries, x: Bytes, y: Bytes)
  {
    x != y && lib.sha256(x) == lib.sha256(y)
  }

  /** The row's digest is that of a manifest, and the row says what that manifest says. */
  predicate Genuine(lib: Libraries, row: ManifestRow, manifestBstr: Bytes)
  {
    && DigestMatches(lib, row.digest, manifestBstr)
    && lib.manifestOf(manifestBstr).Some? && |lib.manifestOf(manifestBstr).value.components| == 1
    && row.component == Cbor.ComponentKey(lib.manifestOf(manifestBstr).value.components[0])
    && row.sequenceNumber == Signed64(lib.manifestOf(manifestBstr).value.sequenceNumber)
  }

  /** The manifest an envelope carries: entry 3 of its map. */
  function Carried(lib: Libraries, envelope: Bytes): Option<Bytes>
  {
    match lib.mapOf(envelope)
    case None => None
    case Some(fields) => if 3 in fields then Some(fields[3]) else None
  }

  /** The stored envelope carries a manifest, and the row's digest and contents are that
      manifest's. */
  predicate FromManifest(lib: Libraries, row: ManifestRow)
  {
    Carried(lib, row.envelope).Some? && Genuine(lib, row, Carried(lib, row.envelope).value)
  }

  ghost predicate AllGenuine(lib: Libraries, manifests: seq<ManifestRow>)
  {
    forall m :: 0 <= m < |manifests| ==> FromManifest(lib, manifests[m])
  }

  /** The manifests stored in the two rows are different and have one digest. */
  predicate RowsCollide(lib: Libraries, a: ManifestRow, b: ManifestRow)
  {
    && Carried(lib, a.envelope).Some? && Carried(lib, b.envelope).Some?
    && Collide(lib, Carried(lib, a.envelope).value, Carried(lib, b.envelope).value)
  }

  /** The manifest stored in the row is different from this one and has the same digest. */
  predicate CollidesWith(lib: Libraries, row: ManifestRow, manifestBstr: Bytes)
  {
    Carried(lib, row.envelope).Some? && Collide(lib, Carried(lib, row.envelope).value, manifestBstr)
  }

  lemma SameDigestSameContents(lib: Libraries, a: ManifestRow, b: ManifestRow)
    requires FromManifest(lib, a) && FromManifest(lib, b) && a.digest == b.digest
    ensures Carried(lib, a.envelope) == Carried(lib, b.envelope) || RowsCollide(lib, a, b)
    ensures !RowsCollide(lib, a, b) ==> a.component == b.component && a.sequenceNumber == b.sequenceNumber
  {
  }

  /** Two rows of ordered streams have one digest only if the two manifests stored in them are
      a collision; and a manifest with the digest of a row is the very one stored in it, or
      collides with it. */
  lemma DigestIdentifiesRow(lib: Libraries, manifests: seq<ManifestRow>)
    requires AllGenuine(lib, manifests) && OrderedStreams(manifests)
    ensures forall i, j :: 0 <= i < j < |manifests| && manifests[i].digest == manifests[j].digest ==>
      RowsCollide(lib, manifests[i], manifests[j])
    ensures forall m, bstr: Bytes :: 0 <= m < |manifests| && DigestMatches(lib, manifests[m].digest, bstr) ==>
      Carried(lib, manifests[m].envelope) == Some(bstr) || CollidesWith(lib, manifests[m], bstr)
  {
    forall m, bstr: Bytes | 0 <= m < |manifests| && DigestMatches(lib, manifests[m].digest, bstr)
      ensures Carried(lib, manifests[m].envelope) == Some(bstr) || CollidesWith(lib, manifests[m], bstr)
    {
      assert FromManifest(lib, manifests[m]);
    }
    forall i, j | 0 <= i < j < |manifests| && manifests[i].digest == manifests[j].digest
      ensures RowsCollide(lib, manifests[i], manifests[j])
    {
      SameDigestSameContents(lib, manifests[i], manifests[j]);
    }
  }

  /** A good report of the digest of a stored manifest is looked up to that manifest's row, if the
      row carries the digest as the array of -16 and its bytes, or to one it collides with. */
  lemma ReportFindsItsManifest(lib: Libraries, db: Db, m: nat, report: ReportItem, pick: Option<nat>)
    requires AllGenuine(lib, db.manifests) && OrderedStreams(db.manifests) && m < |db.manifests|
    requires Service.Good(report) && Carried(lib, db.manifests[m].envelope).Some?
    requires report.content.value.digest == lib.sha256(Carried(lib, db.manifests[m].envelope).value)
    requires db.manifests[m].digest == [0x82, 0x2F, 0x58, 0x20] + report.content.value.digest
    requires Counted(report) ==> PicksManifestByDigest(db.manifests, DigestKey(report), pick)
    ensures Counted(report) && pick.Some? && pick.value < |db.manifests|
    ensures pick.value == m || RowsCollide(lib, db.manifests[pick.value], db.manifests[m])
  {
    CountedExactly(report.raw, report.content.value);
    assert report == ReportItem(report.raw, Some(report.content.value));
    DigestKeyBytes(report);
    hide Counted, DigestKey, OrderedStreams, Genuine;
    DigestIdentifiesRow(lib, db.manifests);
  }

  /** So a Success with that report makes that manifest the belief about its component, where no
      two stored manifests collide. */
  lemma ReportedManifestIsBelieved(lib: Libraries, db: Db, m: nat, report: ReportItem, belief: map<Bytes, nat>)
    requires AllGenuine(lib, db.manifests) && OrderedStreams(db.manifests) && m < |db.manifests|
    requires Service.Good(report) && Carried(lib, db.manifests[m].envelope).Some?
    requires report.content.value.digest == lib.sha256(Carried(lib, db.manifests[m].envelope).value)
    requires db.manifests[m].digest == [0x82, 0x2F, 0x58, 0x20] + report.content.value.digest
    requires NoneCollide(lib, db.manifests)
    ensures Asserted(db.manifests, belief, [report]) == belief[db.manifests[m].component := m]
  {
    var pick: Option<nat> := None;
    if Counted(report) { pick := ManifestWith(db.manifests, DigestKey(report)); }
    ReportFindsItsManifest(lib, db, m, report, pick);
    if pick.value != m {
      CollidesBothWays(lib, db.manifests[pick.value], db.manifests[m]);
    }
    hide ManifestWith, Counted, DigestKey;
    AssertedOneMore(db.manifests, belief, [], report);
    assert [] + [report] == [report] && Asserted(db.manifests, belief, []) == belief;
  }

  lemma CollidesBothWays(lib: Libraries, a: ManifestRow, b: ManifestRow)
    ensures RowsCollide(lib, a, b) <==> RowsCollide(lib, b, a)
  {
  }

  /** No two manifests in the store are a collision. */
  ghost predicate NoneCollide(lib: Libraries, manifests: seq<ManifestRow>)
  {
    forall i, j :: 0 <= i < j < |manifests| ==> !RowsCollide(lib, manifests[i], manifests[j])
  }

  // ---- every run ----

  /** The request, if it is a registration, came through the validation pipeline. */
  ghost predicate Vetted(lib: Libraries, keys: seq<SigningKeyRow>, input: Input)
  {
    input.Registration? ==> exists body: Bytes :: AmountsTo(lib, keys, body, input)
  }

  lemma VettedIsGenuine(lib: Libraries, keys: seq<SigningKeyRow>, input: Input, row: ManifestRow)
    requires input.Registration? && Vetted(lib, keys, input) && AsRegistered(input, row)
    ensures FromManifest(lib, row)
  {
    var body: Bytes :| AmountsTo(lib, keys, body, input);
    var parts: Parts, k: nat :|
      && Contains(lib, body, parts) && k < |keys| && keys[k].kid == parts.kid && |parts.kid| == 32
      && Authentic(lib, parts, keys[k].publicKey)
      && input.digest == parts.digestBstr && input.signer == parts.kid
      && Covers(lib, parts.manifestBstr, input.component, input.sequenceNumber);
    assert Carried(lib, row.envelope) == Some(parts.manifestBstr);
  }

  ghost predicate AllVetted(lib: Libraries, keys: seq<SigningKeyRow>, threads: seq<Thread>)
  {
    forall i :: 0 <= i < |threads| ==> Vetted(lib, keys, threads[i].req.input)
  }

  ghost predicate ArrivalsVetted(lib: Libraries, keys: seq<SigningKeyRow>, actions: seq<Action>)
  {
    forall k :: 0 <= k < |actions| && actions[k].Arrive? ==> Vetted(lib, keys, actions[k].input)
  }

  lemma RunStaysGenuine(w: World, lib: Libraries, keys: seq<SigningKeyRow>, s: Sys, i: nat, ev: Event)
    requires i < |s.threads| && AllFaithful(w, s) && AllVetted(lib, keys, s.threads) && AllGenuine(lib, s.db.manifests)
    ensures var s' := Step(w, s, Run(i, ev)); AllVetted(lib, keys, s'.threads) && AllGenuine(lib, s'.db.manifests)
  {
    hide Advance, Apply, Faithful, Vetted, FromManifest, Grounded, Coherent;
    var (write, th') := Advance(w, s.now, s.db, s.threads[i], ev);
    AdvanceGrounded(w, s.now, s.db, s.threads[i], ev);
    OnlyRegistrationWrites(s.db, write);
    if write.PutManifest? {
      PutIsRegistered(w, th'.req, write);
      VettedIsGenuine(lib, keys, th'.req.input, write.manifest);
    }
  }

  lemma PutIsRegistered(w: World, req: Request, write: Write)
    requires write.PutManifest? && Grounded(w, req, write)
    ensures AsRegistered(req.input, write.manifest)
  {
  }

  lemma StepStaysGenuine(w: World, lib: Libraries, keys: seq<SigningKeyRow>, s: Sys, action: Action)
    requires AllFaithful(w, s) && AllVetted(lib, keys, s.threads) && AllGenuine(lib, s.db.manifests)
    requires action.Arrive? ==> Vetted(lib, keys, action.input)
    ensures var s' := Step(w, s, action); AllVetted(lib, keys, s'.threads) && AllGenuine(lib, s'.db.manifests)
  {
    hide Advance, Apply, AllFaithful, Vetted, Genuine, AllGenuine;
    match action
    case Arrive(input) => assert Launch(input).req.input == input by { LaunchKeepsInput(input); } hide Launch;
    case Tick(_) =>
    case Run(i, ev) => if i < |s.threads| { RunStaysGenuine(w, lib, keys, s, i, ev); }
  }

  lemma {:induction false} ExecuteStaysGenuine(w: World, lib: Libraries, keys: seq<SigningKeyRow>, s: Sys,
                                               actions: seq<Action>)
    requires AllFaithful(w, s) && AllVetted(lib, keys, s.threads) && AllGenuine(lib, s.db.manifests)
    requires ArrivalsVetted(lib, keys, actions)
    ensures var s' := Execute(w, s, actions); AllVetted(lib, keys, s'.threads) && AllGenuine(lib, s'.db.manifests)
    decreases |actions|
  {
    hide AllFaithful, AllVetted, AllGenuine, Step, Vetted;
    if actions != [] {
      var before := actions[..|actions| - 1];
      ExecuteStaysGenuine(w, lib, keys, s, before);
      RunFaithful(w, s, before);
      StepStaysGenuine(w, lib, keys, Execute(w, s, before), actions[|actions| - 1]);
    }
  }

  /** In every run whose registrations come through the pipeline, one at a time, the lookup of
      a digest that reports make answers one row whatever row it picks, or the manifests stored
      in the two rows collide; and a manifest with that digest is the one stored in the row, or
      collides with it. */
  lemma DigestLookupIsFunction(w: World, lib: Libraries, now: int, signingKeys: seq<SigningKeyRow>,
                               devices: seq<Bytes>, actions: seq<Action>, digest: Bytes,
                               p: Option<nat>, q: Option<nat>)
    requires ArrivalsVetted(lib, signingKeys, actions)
    requires SerialRun(w, Initial(now, signingKeys, devices), actions)
    requires var manifests := Execute(w, Initial(now, signingKeys, devices), actions).db.manifests;
      PicksManifestByDigest(manifests, digest, p) && PicksManifestByDigest(manifests, digest, q)
    ensures var manifests := Execute(w, Initial(now, signingKeys, devices), actions).db.manifests;
      && (p == q || (p.Some? && q.Some? && RowsCollide(lib, manifests[p.value], manifests[q.value])))
      && (NoneCollide(lib, manifests) ==> UniqueDigests(manifests))
      && forall bstr: Bytes :: p.Some? && DigestMatches(lib, digest, bstr) ==>
           Carried(lib, manifests[p.value].envelope) == Some(bstr) || CollidesWith(lib, manifests[p.value], bstr)
  {
    var s0 := Initial(now, signingKeys, devices);
    SerialRegistrationKeepsStreams(w, now, signingKeys, devices, actions);
    ExecuteStaysGenuine(w, lib, signingKeys, s0, actions);
    var manifests := Execute(w, s0, actions).db.manifests;
    hide Execute, SerialRun, Genuine, OrderedStreams, ArrivalsVetted, RowsCollide;
    DigestIdentifiesRow(lib, manifests);
  }
}
