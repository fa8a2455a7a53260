/**
 The SGX attestation bundle: a quote and the raw report data it is bound to by a SHA-384
 digest, from which the attested key coordinates and the nonce are read.
 */
module SgxBundle {
  import opened Wrappers
  import opened Tables
  import opened Protocol
  import Quote

  const Y_OFFSET: nat := 32
  const KEY_SIZE: nat := 64
  const DIGEST_SIZE: nat := 48

  type Sha384 = b: Bytes | |b| == DIGEST_SIZE witness seq(DIGEST_SIZE, i => 0)

  /** The CBOR, hash and key libraries; a key is refused if the coordinates are no good. */
  datatype Libraries = Libraries(
    bundleOf: Bytes -> Option<Bundle>,
    sha384: Bytes -> Sha384,
    ec2Key: (Bytes, Bytes) -> Option<Key>)

  datatype Bundle = Bundle(quote: Bytes, rawReportData: Bytes)

  function Decode(lib: Libraries, payload: Bytes): (r: Option<Bundle>)
    ensures r.Some? <==>
      && payload != [] && lib.bundleOf(payload).Some?
      && lib.bundleOf(payload).value.quote != [] && lib.bundleOf(payload).value.rawReportData != []
    ensures r.Some? ==> r == lib.bundleOf(payload)
  {
    if payload == [] then None
    else
      var bundle := lib.bundleOf(payload);
      if bundle.Some? && bundle.value.quote != [] && bundle.value.rawReportData != [] then bundle else None
  }

  function Padded(digest: Sha384): (r: Bytes)
    ensures |r| == 64
  {
    digest + seq(64 - DIGEST_SIZE, i => 0)
  }

  /** The quote's report data is the digest of the raw report data, padded with zeros. */
  predicate Binds(lib: Libraries, quote: Bytes, raw: Bytes)
  {
    raw != [] && Quote.ExtractReportData(quote) == Result.Ok(Padded(lib.sha384(raw)))
  }

  /** What the raw report data attests. */
  datatype Claims = Claims(x: Bytes, y: Bytes, nonce: Option<Bytes>)

  function Split(raw: Bytes): Claims
    requires |raw| >= KEY_SIZE
  {
    Claims(raw[..Y_OFFSET], raw[Y_OFFSET..KEY_SIZE], if |raw| > KEY_SIZE then Some(raw[KEY_SIZE..]) else None)
  }

  /** Splitting undoes concatenation, except that an empty nonce reads as none at all. */
  lemma SplitUndoesConcatenation(x: Bytes, y: Bytes, nonce: Bytes)
    requires |x| == 32 && |y| == 32
    ensures Split(x + y + nonce) == Claims(x, y, if nonce == [] then None else Some(nonce))
    ensures forall raw: Bytes :: |raw| >= 64 && Split(raw) == Split(x + y + nonce) ==> raw == x + y + nonce
  {
    var whole := x + y + nonce;
    assert whole[..Y_OFFSET] == x && whole[Y_OFFSET..KEY_SIZE] == y && whole[KEY_SIZE..] == nonce;
    forall raw: Bytes | |raw| >= KEY_SIZE && Split(raw) == Split(whole) ensures raw == whole {
      assert raw == raw[..Y_OFFSET] + raw[Y_OFFSET..KEY_SIZE] + raw[KEY_SIZE..];
      assert |raw| > KEY_SIZE <==> |whole| > KEY_SIZE;
      assert raw[KEY_SIZE..] == whole[KEY_SIZE..];
    }
  }

  /** Two different inputs with one digest. */
  predicate Collide(lib: Libraries, a: Bytes, b: Bytes)
  {
    a != b && lib.sha384(a) == lib.sha384(b)
  }

  lemma PaddingIsInjective(a: Sha384, b: Sha384)
    requires Padded(a) == Padded(b)
    ensures a == b
  {
    assert Padded(a)[..DIGEST_SIZE] == a && Padded(b)[..DIGEST_SIZE] == b;
  }

  /** What passes beside a raw report data that passes for a quote is itself and whatever
      collides with it, and nothing else: without a collision what is attested is a function of
      the quote, and cannot be swapped under a genuine one. */
  lemma ClaimsAreFunctionOfQuote(lib: Libraries, quote: Bytes, raw: Bytes, other: Bytes)
    requires Binds(lib, quote, raw)
    ensures Binds(lib, quote, other) <==> other != [] && (other == raw || Collide(lib, raw, other))
    ensures Binds(lib, quote, other) && !Collide(lib, raw, other) && |raw| >= 64 ==> Split(other) == Split(raw)
    ensures |quote| >= 432 && quote[368..416] == lib.sha384(raw) && forall i :: 416 <= i < 432 ==> quote[i] == 0
  {
    if Binds(lib, quote, other) { PaddingIsInjective(lib.sha384(raw), lib.sha384(other)); }
    Quote.ReportDataIsAt368(quote);
    hide Quote.ExtractReportData;
    var data := quote[368..432];
    assert data == Padded(lib.sha384(raw));
    assert data[..DIGEST_SIZE] == lib.sha384(raw) && quote[368..416] == data[..DIGEST_SIZE];
    assert forall i :: 416 <= i < 432 ==> quote[i] == data[i - 368];
  }

  /** The processed attestation, filled in as claims are read. */
  class ProcessedAttestation {
    var key: Option<Key>
    var nonce: Option<Bytes>

    constructor ()
      ensures key.None? && nonce.None?
    {
      key, nonce := None, None;
    }

    /** Reads key and nonce; a nonce already there stays if the data carries none. */
    method PopulateFromRawReportData(lib: Libraries, raw: Bytes) returns (ok: bool)
      modifies this
      ensures ok == (|raw| >= 64 && lib.ec2Key(raw[..32], raw[32..64]).Some?)
      ensures ok ==>
        && key == lib.ec2Key(raw[..32], raw[32..64])
        && nonce == if |raw| > 64 then Some(raw[64..]) else old(nonce)
      ensures !ok ==> key == old(key) && nonce == old(nonce)
    {
      if raw == [] || |raw| < KEY_SIZE {
        return false;
      }
      var built := lib.ec2Key(raw[0..Y_OFFSET], raw[Y_OFFSET..KEY_SIZE]);
      assert raw[0..Y_OFFSET] == raw[..Y_OFFSET];
      if built.None? {
        return false;
      }
      key := built;
      if |raw| > KEY_SIZE {
        nonce := Some(raw[KEY_SIZE..]);
      }
      ok := true;
    }
  }

  /** The bundle is one whose quote binds raw report data with a key in it. */
  predicate Attests(lib: Libraries, payload: Bytes)
  {
    && Decode(lib, payload).Some?
    && var bundle := Decode(lib, payload).value;
    && Binds(lib, bundle.quote, bundle.rawReportData) && |bundle.rawReportData| >= 64
    && lib.ec2Key(bundle.rawReportData[..32], bundle.rawReportData[32..64]).Some?
  }

  /** What is to be read from a bundle whose quote the verifier has found affirming. */
  predicate IsReading(lib: Libraries, payload: Bytes, verdict: Verdict)
  {
    && (verdict == ClaimsUnreadable(AttestationFailed) || verdict.Affirming?)
    && (verdict.Affirming? <==> Attests(lib, payload))
    && (verdict.Affirming? ==>
          var raw := Decode(lib, payload).value.rawReportData;
          && verdict.key == lib.ec2Key(raw[..32], raw[32..64]) && verdict.ueid.None?
          && verdict.nonce == if |raw| == 64 then None else Some(raw[64..]))
  }

  /** The verdict on an SGX bundle whose quote the verifier has found affirming: the claims of
      the raw report data, if the quote binds them; a refused attestation otherwise. */
  method ReadClaims(lib: Libraries, payload: Bytes) returns (verdict: Verdict)
    ensures IsReading(lib, payload, verdict)
  {
    var bundle := Decode(lib, payload);
    if bundle.None? {
      return ClaimsUnreadable(AttestationFailed);
    }
    var actual := Quote.ExtractReportData(bundle.value.quote);
    if actual.Err? || actual.value != Padded(lib.sha384(bundle.value.rawReportData)) {
      return ClaimsUnreadable(AttestationFailed);
    }
    var result := new ProcessedAttestation();
    var ok := result.PopulateFromRawReportData(lib, bundle.value.rawReportData);
    if !ok {
      return ClaimsUnreadable(AttestationFailed);
    }
    verdict := Affirming(result.nonce, result.key, None);
  }
}
