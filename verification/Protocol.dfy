/**
 What reaches the TAM and what it answers.  Bodies arrive decoded; signature checks and key
 thumbprints are oracles, and the verifier's verdict travels with the request, since a
 request consults the verifier at most once.
 */
module Protocol {
  import opened Wrappers
  import opened Tables
  import Cbor

  /** Signature verification, key usability and key thumbprints. */
  datatype World = World(verifies: (Bytes, Key) -> bool, usable: Key -> bool, thumbprint: Key -> Option<Bytes>)

  datatype TamError =
    | Fatal | Malformed | NotTeepMessage | NotSupported | KidMissing | NotAuthenticated
    | VerifierNotConfigured | AttestationFailed | NotAResponse | PayloadNotFound
    | NotFound | InvalidLength | ManifestMissing | SmallerSequenceNumber | SigningKeyMismatch | SequenceTooLarge

  datatype MessageKind = KindQueryRequest | KindQueryResponse | KindUpdate | KindSuccess | KindError

  // The attestation-payload-format, as far as the program distinguishes it.
  datatype Format = EatFormat | SgxBundleFormat | OtherFormat

  datatype ReportResult = AllGood | Detailed(reason: nat)
  datatype ReportContent = ReportContent(digestAlg: int, digest: Bytes, result: ReportResult)
  datatype ReportItem = ReportItem(raw: Bytes, content: Option<ReportContent>)

  const ALG_SHA256: int := -16
  const SHA256_SIZE: nat := 32
  const REPORT_REASON_OK: nat := 0

  /** A report both branches act on: decodable, with a SHA-256 digest, and positive. */
  predicate Counted(report: ReportItem)
  {
    && report.content.Some?
    && report.content.value.digestAlg == ALG_SHA256
    && |report.content.value.digest| == SHA256_SIZE
    && (report.content.value.result.AllGood? || report.content.value.result.reason == REPORT_REASON_OK)
  }

  /** The digest as the manifest table stores it: the encoded pair of algorithm and bytes. */
  function DigestKey(report: ReportItem): Bytes
    requires Counted(report)
  {
    Cbor.Encode(Cbor.Arr([Cbor.NInt(15), Cbor.BStr(report.content.value.digest)]))
  }

  /** The reports acted on name a 32-byte SHA-256 digest (COSE algorithm -16) and are wholly
      good, or good in detail with reason 0. */
  lemma CountedExactly(raw: Bytes, content: ReportContent)
    ensures Counted(ReportItem(raw, Some(content))) <==>
      && content.digestAlg == -16 && |content.digest| == 32
      && (content.result == AllGood || content.result == Detailed(0))
    ensures !Counted(ReportItem(raw, None))
  {
  }

  /** The digest is looked up as an array of two: the algorithm -16, then the 32 bytes. */
  lemma {:induction false} DigestKeyBytes(report: ReportItem)
    requires Counted(report)
    ensures DigestKey(report) == [0x82, 0x2F, 0x58, 0x20] + report.content.value.digest
  {
    var digest := report.content.value.digest;
    assert Cbor.Encodable(Cbor.NInt(15));
    hide Cbor.Encode, Cbor.Encodable;
    Cbor.ShortForms(15, []);
    Cbor.LongBytes(digest);
    Cbor.PairBytes(Cbor.NInt(15), Cbor.BStr(digest));
    Joined(digest);
  }

  lemma Joined(digest: Bytes)
    ensures [0x82] + [0x20 + 15] + ([0x58, 0x20] + digest) == [0x82, 0x2F, 0x58, 0x20] + digest
  {
  }

  datatype Message = Message(
    kind: MessageKind,
    token: Option<Bytes>,
    payload: Option<Bytes>,
    format: Format,
    requested: seq<Cbor.ComponentId>,
    tcList: seq<Cbor.ComponentId>,
    reports: seq<ReportItem>)

  /** What submitting the attestation payload, and then reading the attested claims, yields. */
  datatype Verdict =
    | SubmitFailed(error: TamError)
    | NotAffirming
    | ClaimsUnreadable(error: TamError)
    | Affirming(nonce: Option<Bytes>, key: Option<Key>, ueid: Option<Bytes>)

  datatype Input =
    | EmptyBody
    | Unparsable(error: TamError)
    | Signed(body: Bytes, message: Message, kid: Option<Bytes>, verdict: Verdict)
    | Registration(envelope: Option<Bytes>, digest: Bytes, signer: Bytes, component: Bytes, sequenceNumber: nat)
    | Revocation(revoked: Bytes)

  datatype Handle = TokenHandle(bytes: Bytes) | ChallengeHandle(bytes: Bytes)

  /** A message the TAM remembers having sent. */
  datatype Sent =
    | SentQuery(handle: Handle, attestation: bool, tcList: bool)
    | SentUpdate(token: Bytes, manifests: seq<Bytes>)

  datatype Outcome =
    | QuerySent(handle: Handle, attestation: bool, tcList: bool)
    | UpdateSent(kid: Bytes, token: Bytes, manifests: seq<Bytes>)
    | NoContent
    | Registered
    | RevokedNow
    | Refused(error: TamError)
    | Panicked                    // a nil dereference

  /** A missing byte string compares equal to an empty one. */
  function BytesOf(token: Option<Bytes>): Bytes
  {
    match token case None => [] case Some(b) => b
  }

  function SentToken(sent: Sent): Bytes
  {
    match sent
    case SentQuery(TokenHandle(b), _, _) => b
    case SentQuery(ChallengeHandle(_), _, _) => []
    case SentUpdate(b, _) => b
  }

  /** The keys of the listed components after those already in acc, each once, in order
      of first occurrence. */
  function AddDistinct(acc: seq<Bytes>, ids: seq<Cbor.ComponentId>): seq<Bytes>
    decreases |ids|
  {
    if ids == [] then acc
    else
      var key := Cbor.ComponentKey(ids[0]);
      AddDistinct(if key in acc then acc else acc + [key], ids[1..])
  }

  /** Components of an Update: requested-tc-list first, then tc-list. */
  function ComponentSet(message: Message): seq<Bytes>
  {
    AddDistinct(AddDistinct([], message.requested), message.tcList)
  }
}
