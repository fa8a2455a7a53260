/**
 Reading SGX and TDX quotes by byte offset (Appendix A.4 of the Intel SGX ECDSA
 QuoteLibReference DCAP API): the report data, and the PCK certificate chain of the
 certification data.  Offsets are 64-bit, so sums of declared lengths do not wrap.
 */
module Quote {
  import opened Wrappers
  import opened Tables

  const REPORT_BODY_SIZE: nat := 384
  const QUOTE3_SIZE: nat := 436
  const QUOTE5_HEADER_SIZE: nat := 48
  const QUOTE5_TYPE_OFFSET: nat := 4
  const QUOTE5_BODY_LENGTH_OFFSET: nat := 44
  const REPORT_DATA_OFFSET_IN_BODY: nat := 320
  const REPORT_DATA_OFFSET: nat := 368
  const REPORT_DATA_SIZE: nat := 64
  const SIGNATURE_LENGTH_OFFSET: nat := 432
  const FIXED_SIGNATURE_SIZE: nat := 64 + 64 + REPORT_BODY_SIZE + 64
  const PCK_CHAIN_TYPE: nat := 5

  datatype QuoteError = TooShort | Truncated | UnsupportedVersion | UnsupportedBody | UnsupportedCertification

  function Get16(data: Bytes, offset: nat): (r: nat)
    requires offset + 2 <= |data|
    ensures r < 0x1_0000
  {
    data[offset] as int + 256 * (data[offset + 1] as int)
  }

  function Get32(data: Bytes, offset: nat): (r: nat)
    requires offset + 4 <= |data|
    ensures r < 0x1_0000_0000
  {
    Get16(data, offset) + 0x1_0000 * Get16(data, offset + 2)
  }

  function Put16(n: nat): (r: Bytes)
    requires n < 0x1_0000
    ensures |r| == 2 && Get16(r, 0) == n
  {
    [n % 256, n / 256]
  }

  function Put32(n: nat): (r: Bytes)
    requires n < 0x1_0000_0000
    ensures |r| == 4 && Get32(r, 0) == n
  {
    var r := Put16(n % 0x1_0000) + Put16(n / 0x1_0000);
    assert Get16(r, 0) == n % 0x1_0000 && Get16(r, 2) == n / 0x1_0000;
    r
  }

  // ---- report data ----

  function ExtractReportData(quote: Bytes): Result<Bytes, QuoteError>
  {
    if |quote| < 2 then Err(TooShort)
    else
      var version := Get16(quote, 0);
      if version == 3 || version == 4 then
        if |quote| < QUOTE3_SIZE then Err(TooShort)
        else Ok(quote[REPORT_DATA_OFFSET..REPORT_DATA_OFFSET + REPORT_DATA_SIZE])
      else if version == 5 then
        if |quote| < QUOTE5_HEADER_SIZE then Err(TooShort)
        else
          var bodyType := Get16(quote, QUOTE5_TYPE_OFFSET);
          var bodySize := Get32(quote, QUOTE5_BODY_LENGTH_OFFSET);
          if |quote| < QUOTE5_HEADER_SIZE + bodySize then Err(Truncated)
          else if 1 <= bodyType <= 4 then
            if bodySize < REPORT_BODY_SIZE then Err(TooShort)
            else
              var offset := QUOTE5_HEADER_SIZE + REPORT_DATA_OFFSET_IN_BODY;
              Ok(quote[offset..offset + REPORT_DATA_SIZE])
          else Err(UnsupportedBody)
      else Err(UnsupportedVersion)
  }

  /** Whatever the version, the report data accepted is bytes 368 to 432 of the quote. */
  lemma ReportDataIsAt368(quote: Bytes)
    ensures ExtractReportData(quote).Ok? ==>
      |quote| >= 432 && ExtractReportData(quote).value == quote[368..432]
    ensures ExtractReportData(quote).Ok? <==>
      && |quote| >= 2
      && (if LittleEndian(quote[..2]) == 5 then
            |quote| >= 48 && 1 <= LittleEndian(quote[4..6]) <= 4 && 384 <= LittleEndian(quote[44..48]) <= |quote| - 48
          else (LittleEndian(quote[..2]) == 3 || LittleEndian(quote[..2]) == 4) && |quote| >= 436)
  {
    ReadsLittleEndian(quote, 0);
    ReadsLittleEndian(quote, 4);
    ReadsLittleEndian(quote, 44);
    hide Get16, Get32, LittleEndian;
    assert |quote| >= 2 ==> quote[0..2] == quote[..2];
  }

  // ---- certification data ----

  /** The content of the certification data, found by walking the signature section. */
  method ExtractPckCertChain(quote: Bytes) returns (r: Result<Bytes, QuoteError>)
    ensures r.Ok? ==> HasChain(quote, r.value)
    ensures r.Err? ==> forall chain: Bytes :: !HasChain(quote, chain)
  {
    ChainExactly(quote);
    hide HasChain;
    if |quote| < QUOTE3_SIZE {
      return Err(TooShort);
    }
    var version := Get16(quote, 0);
    if version != 3 && version != 4 {
      return Err(UnsupportedVersion);
    }
    var signatureLength := Get32(quote, SIGNATURE_LENGTH_OFFSET);
    if |quote| < QUOTE3_SIZE + signatureLength {
      return Err(Truncated);
    }
    var offset := QUOTE3_SIZE;
    if signatureLength < FIXED_SIGNATURE_SIZE + 2 + 6 {
      return Err(TooShort);
    }
    offset := offset + FIXED_SIGNATURE_SIZE;
    var authSize := Get16(quote, offset);
    offset := offset + 2 + authSize;
    if |quote| < offset + 6 {
      return Err(Truncated);
    }
    var certType := Get16(quote, offset);
    var certSize := Get32(quote, offset + 2);
    offset := offset + 6;
    if |quote| < offset + certSize {
      return Err(Truncated);
    }
    if certType != PCK_CHAIN_TYPE {
      return Err(UnsupportedCertification);
    }
    r := Ok(quote[offset..offset + certSize]);
  }

  /** The fields of a version 3 or 4 quote with a PCK certificate chain. */
  datatype Parts = Parts(version: nat, report: Bytes, signature: Bytes, auth: Bytes, chain: Bytes)

  predicate Fits(parts: Parts)
  {
    && (parts.version == 3 || parts.version == 4) && |parts.report| == SIGNATURE_LENGTH_OFFSET - 2
    && |parts.signature| == FIXED_SIGNATURE_SIZE && |parts.auth| < 0x1_0000 && |parts.chain| < 0x1_0000_0000
  }

  /** The length of the signature section these fields fill. */
  function SignatureSize(parts: Parts): nat
  {
    FIXED_SIGNATURE_SIZE + 2 + |parts.auth| + 6 + |parts.chain|
  }

  /** The quote as it is serialised with the signature length it declares, and what follows. */
  function Print(parts: Parts, declared: nat, rest: Bytes): (r: Bytes)
    requires Fits(parts) && declared < 0x1_0000_0000
    ensures |r| == QUOTE3_SIZE + SignatureSize(parts) + |rest|
  {
    Put16(parts.version) + (parts.report + (Put32(declared) + (parts.signature + PrintTail(parts, rest))))
  }

  function PrintTail(parts: Parts, rest: Bytes): (r: Bytes)
    requires Fits(parts)
    ensures |r| == 2 + |parts.auth| + 6 + |parts.chain| + |rest|
  {
    Put16(|parts.auth|) + (parts.auth + (Put16(PCK_CHAIN_TYPE) + (Put32(|parts.chain|) + (parts.chain + rest))))
  }

  /** The bytes are these fields in order, whatever follows, and the declared signature length
      is long enough for the fixed fields and lies within the bytes; it need not reach to the
      end of the chain. */
  predicate LaidOut(quote: Bytes, parts: Parts, declared: nat, rest: Bytes)
  {
    && Fits(parts) && declared < 0x1_0000_0000
    && FIXED_SIGNATURE_SIZE + 8 <= declared && QUOTE3_SIZE + declared <= |quote|
    && quote == Print(parts, declared, rest)
  }

  /** The bytes are laid out around this chain. */
  ghost predicate HasChain(quote: Bytes, chain: Bytes)
  {
    exists parts: Parts, declared: nat, rest: Bytes :: LaidOut(quote, parts, declared, rest) && parts.chain == chain
  }

  /** What the walk checks, by offset. */
  predicate Accepts(quote: Bytes)
  {
    && |quote| >= QUOTE3_SIZE
    && (Get16(quote, 0) == 3 || Get16(quote, 0) == 4)
    && FIXED_SIGNATURE_SIZE + 8 <= Get32(quote, 432) <= |quote| - QUOTE3_SIZE
    && var o := 1014 + Get16(quote, 1012);
    && |quote| >= o + 6 && Get16(quote, o) == PCK_CHAIN_TYPE && |quote| >= o + 6 + Get32(quote, o + 2)
  }

  function ChainAt(quote: Bytes): Bytes
    requires Accepts(quote)
  {
    var o := 1014 + Get16(quote, 1012);
    quote[o + 6..o + 6 + Get32(quote, o + 2)]
  }

  lemma SliceOfShort(data: Bytes, offset: nat)
    requires offset + 2 <= |data|
    ensures data[offset..offset + 2] == Put16(Get16(data, offset))
  {
    assert data[offset..offset + 2] == [data[offset], data[offset + 1]];
  }

  lemma SliceOfLong(data: Bytes, offset: nat)
    requires offset + 4 <= |data|
    ensures data[offset..offset + 4] == Put32(Get32(data, offset))
  {
    SliceOfShort(data, offset);
    SliceOfShort(data, offset + 2);
    var n := Get32(data, offset);
    assert n % 0x1_0000 == Get16(data, offset) && n / 0x1_0000 == Get16(data, offset + 2);
    hide Get16, Put16;
    assert data[offset..offset + 4] == data[offset..offset + 2] + data[offset + 2..offset + 4];
  }

  /** Reading at an offset past a prefix is reading what comes after it. */
  lemma Past(before: Bytes, after: Bytes, k: nat)
    ensures k + 2 <= |after| ==> Get16(before + after, |before| + k) == Get16(after, k)
    ensures k + 4 <= |after| ==> Get32(before + after, |before| + k) == Get32(after, k)
  {
  }

  lemma PastSlice(before: Bytes, after: Bytes, k: nat, n: nat)
    requires k + n <= |after|
    ensures (before + after)[|before| + k..|before| + k + n] == after[k..k + n]
  {
  }

  lemma ReadsPut16(n: nat, after: Bytes)
    requires n < 0x1_0000
    ensures Get16(Put16(n) + after, 0) == n
  {
  }

  lemma ReadsPut32(n: nat, after: Bytes)
    requires n < 0x1_0000_0000
    ensures Get32(Put32(n) + after, 0) == n
  {
    var p := Put32(n);
    assert forall k :: 0 <= k < 4 ==> (p + after)[k] == p[k];
  }

  /** Certification data as it is read: type, size, content. */
  lemma CertificationIsRead(chain: Bytes, rest: Bytes)
    requires |chain| < 0x1_0000_0000
    ensures var typed := Put16(PCK_CHAIN_TYPE) + (Put32(|chain|) + (chain + rest));
      Get16(typed, 0) == PCK_CHAIN_TYPE && Get32(typed, 2) == |chain| && typed[6..6 + |chain|] == chain
  {
    hide Get16, Get32, Put16, Put32;
    var last := chain + rest;
    var sized := Put32(|chain|) + last;
    ReadsPut16(PCK_CHAIN_TYPE, sized);
    ReadsPut32(|chain|, last);
    Past(Put16(PCK_CHAIN_TYPE), sized, 0);
    PastSlice(Put32(|chain|), last, 0, |chain|);
    PastSlice(Put16(PCK_CHAIN_TYPE), sized, 4, |chain|);
    assert last[0..|chain|] == chain;
  }

  /** Reading the tail: the size of the authentication data, then, past it, type, size and
      content of the certification data. */
  lemma TailIsRead(parts: Parts, rest: Bytes)
    requires Fits(parts)
    ensures var tail := PrintTail(parts, rest);
      var n := |parts.auth|;
      && Get16(tail, 0) == n && Get16(tail, 2 + n) == PCK_CHAIN_TYPE && Get32(tail, 4 + n) == |parts.chain|
      && tail[8 + n..8 + n + |parts.chain|] == parts.chain
  {
    hide Get16, Get32, Put16, Put32;
    var n := |parts.auth|;
    var typed := Put16(PCK_CHAIN_TYPE) + (Put32(|parts.chain|) + (parts.chain + rest));
    var front := Put16(n) + parts.auth;
    CertificationIsRead(parts.chain, rest);
    ReadsPut16(n, parts.auth + typed);
    assert PrintTail(parts, rest) == front + typed;
    hide PrintTail;
    Past(front, typed, 0);
    Past(front, typed, 2);
    PastSlice(front, typed, 6, |parts.chain|);
  }

  lemma HeadIsRead(parts: Parts, declared: nat, rest: Bytes)
    requires Fits(parts) && declared < 0x1_0000_0000
    ensures var quote := Print(parts, declared, rest);
      && Get16(quote, 0) == parts.version && Get32(quote, 432) == declared
      && exists before: Bytes :: |before| == 1012 && quote == before + PrintTail(parts, rest)
  {
    var tail := PrintTail(parts, rest);
    var signed := parts.signature + tail;
    var sized := Put32(declared) + signed;
    var front := Put16(parts.version) + parts.report;
    hide Get16, Get32, Put16, Put32, PrintTail;
    ReadsPut16(parts.version, parts.report + sized);
    ReadsPut32(declared, signed);
    assert Print(parts, declared, rest) == front + sized;
    Past(front, sized, 0);
    var before := front + (Put32(declared) + parts.signature);
    assert sized == (Put32(declared) + parts.signature) + tail;
    assert Print(parts, declared, rest) == before + tail;
  }

  /** Laid-out bytes are accepted, and the chain is where it was put. */
  lemma LaidOutIsAccepted(quote: Bytes, parts: Parts, declared: nat, rest: Bytes)
    requires LaidOut(quote, parts, declared, rest)
    ensures Accepts(quote) && ChainAt(quote) == parts.chain
  {
    hide Get16, Get32, Print, PrintTail;
    HeadIsRead(parts, declared, rest);
    TailIsRead(parts, rest);
    var tail := PrintTail(parts, rest);
    var before: Bytes :| |before| == 1012 && quote == before + tail;
    var n, m := |parts.auth|, |parts.chain|;
    Past(before, tail, 0);
    Past(before, tail, 2 + n);
    Past(before, tail, 4 + n);
    PastSlice(before, tail, 8 + n, m);
  }

  lemma Cut(data: Bytes, i: nat, j: nat)
    requires i <= j <= |data|
    ensures data[i..] == data[i..j] + data[j..]
  {
  }

  /** From the type of the certification data on. */
  lemma AcceptedChain(quote: Bytes, o: nat, chain: Bytes)
    requires |quote| >= o + 6 && Get16(quote, o) == PCK_CHAIN_TYPE && |quote| >= o + 6 + Get32(quote, o + 2)
    requires chain == quote[o + 6..o + 6 + Get32(quote, o + 2)]
    ensures |chain| == Get32(quote, o + 2)
    ensures quote[o..] == Put16(PCK_CHAIN_TYPE) + (Put32(|chain|) + (chain + quote[o + 6 + |chain|..]))
  {
    SliceOfShort(quote, o);
    SliceOfLong(quote, o + 2);
    hide Put16, Put32, Get16, Get32;
    Cut(quote, o, o + 2);
    Cut(quote, o + 2, o + 6);
    Cut(quote, o + 6, o + 6 + |chain|);
  }

  lemma AcceptedTail(quote: Bytes, parts: Parts)
    requires Accepts(quote) && Fits(parts)
    requires var o := 1014 + Get16(quote, 1012); parts.auth == quote[1014..o] && parts.chain == ChainAt(quote)
    ensures quote[1012..] == PrintTail(parts, quote[1020 + |parts.auth| + |parts.chain|..])
  {
    var o := 1014 + Get16(quote, 1012);
    SliceOfShort(quote, 1012);
    hide Put16, Put32, Get16, Get32;
    AcceptedChain(quote, o, parts.chain);
    Cut(quote, 1012, 1014);
    Cut(quote, 1014, o);
  }

  lemma AcceptedHead(quote: Bytes, parts: Parts, rest: Bytes)
    requires |quote| >= QUOTE3_SIZE + FIXED_SIGNATURE_SIZE && Fits(parts)
    requires parts.version == Get16(quote, 0) && parts.report == quote[2..432] && parts.signature == quote[436..1012]
    requires quote[1012..] == PrintTail(parts, rest)
    ensures quote == Print(parts, Get32(quote, 432), rest)
  {
    hide Put16, Put32, Get16, Get32, PrintTail;
    SliceOfShort(quote, 0);
    SliceOfLong(quote, 432);
    assert quote == quote[0..];
    Cut(quote, 0, 2);
    Cut(quote, 2, 432);
    Cut(quote, 432, 436);
    Cut(quote, 436, 1012);
  }

  /** Accepted bytes are laid out around the chain that is returned. */
  lemma AcceptedIsLaidOut(quote: Bytes)
    requires Accepts(quote)
    ensures exists parts: Parts, declared: nat, rest: Bytes ::
      LaidOut(quote, parts, declared, rest) && parts.chain == ChainAt(quote)
  {
    hide Put16, Put32, Get16, Get32, PrintTail, Print;
    var o := 1014 + Get16(quote, 1012);
    var parts := Parts(Get16(quote, 0), quote[2..432], quote[436..1012], quote[1014..o], ChainAt(quote));
    var declared := Get32(quote, 432);
    var rest := quote[1020 + |parts.auth| + |parts.chain|..];
    AcceptedTail(quote, parts);
    hide ChainAt;
    AcceptedHead(quote, parts, rest);
    assert LaidOut(quote, parts, declared, rest);
  }

  /** Walking the offsets finds a chain exactly when the bytes are laid out around one. */
  lemma ChainExactly(quote: Bytes)
    ensures forall chain: Bytes :: HasChain(quote, chain) <==> Accepts(quote) && chain == ChainAt(quote)
  {
    forall chain: Bytes ensures HasChain(quote, chain) <==> Accepts(quote) && chain == ChainAt(quote) {
      if HasChain(quote, chain) {
        var parts: Parts, declared: nat, rest: Bytes :| LaidOut(quote, parts, declared, rest) && parts.chain == chain;
        LaidOutIsAccepted(quote, parts, declared, rest);
      }
      if Accepts(quote) && chain == ChainAt(quote) {
        AcceptedIsLaidOut(quote);
      }
    }
  }

  /** Every serialised quote, whatever follows it, is read back: the walk returns its chain and
      no other. */
  lemma PrintedChainIsRead(parts: Parts, rest: Bytes)
    requires Fits(parts) && SignatureSize(parts) < 0x1_0000_0000
    ensures var quote := Print(parts, SignatureSize(parts), rest);
      HasChain(quote, parts.chain) && forall chain: Bytes :: HasChain(quote, chain) ==> chain == parts.chain
  {
    var quote := Print(parts, SignatureSize(parts), rest);
    hide Print, Accepts, ChainAt;
    assert LaidOut(quote, parts, SignatureSize(parts), rest);
    assert HasChain(quote, parts.chain);
    ChainExactly(quote);
  }

  /** Where the chain ends, by the quote's own offsets. */
  function ChainEnd(quote: Bytes): nat
    requires Accepts(quote)
  {
    var o := 1014 + Get16(quote, 1012);
    o + 6 + Get32(quote, o + 2)
  }

  /** The chain lies inside the signature section a quote declares exactly when the section is
      declared at least as long as the fields it holds; the sizes are those the quote gives. */
  lemma ChainInsideExactly(quote: Bytes, parts: Parts, declared: nat, rest: Bytes)
    requires LaidOut(quote, parts, declared, rest)
    ensures Accepts(quote) && Get32(quote, SIGNATURE_LENGTH_OFFSET) == declared
    ensures ChainEnd(quote) == QUOTE3_SIZE + SignatureSize(parts)
    ensures quote[ChainEnd(quote) - |parts.chain|..ChainEnd(quote)] == parts.chain
    ensures ChainEnd(quote) <= QUOTE3_SIZE + Get32(quote, SIGNATURE_LENGTH_OFFSET) <==>
      FIXED_SIGNATURE_SIZE + 2 + Get16(quote, 1012) + 6 + Get32(quote, 1016 + Get16(quote, 1012))
        <= Get32(quote, SIGNATURE_LENGTH_OFFSET)
    ensures ChainEnd(quote) <= QUOTE3_SIZE + declared <==> SignatureSize(parts) <= declared
  {
    LaidOutIsAccepted(quote, parts, declared, rest);
    HeadIsRead(parts, declared, rest);
    TailIsRead(parts, rest);
    hide Get16, Get32, Print, PrintTail, Accepts, ChainAt;
    var before: Bytes :| |before| == 1012 && quote == before + PrintTail(parts, rest);
    Past(before, PrintTail(parts, rest), 0);
    Past(before, PrintTail(parts, rest), 4 + |parts.auth|);
    PastSlice(before, PrintTail(parts, rest), 8 + |parts.auth|, |parts.chain|);
  }

  function Zeros(n: nat): (r: Bytes)
    ensures |r| == n
  {
    seq(n, i => 0)
  }

  /** The chain is bounded by the quote, not by the signature length it declares: a quote that
      declares room for no chain at all still yields one. */
  lemma ChainCanLieOutside(byte: Byte)
    ensures var parts := Parts(3, Zeros(430), Zeros(576), [], [byte]);
      && Fits(parts) && Get32(Print(parts, 584, []), SIGNATURE_LENGTH_OFFSET) == 584 < SignatureSize(parts)
      && HasChain(Print(parts, 584, []), [byte])
  {
    var parts := Parts(3, Zeros(430), Zeros(576), [], [byte]);
    HeadIsRead(parts, 584, []);
    hide Print, Get32;
    assert LaidOut(Print(parts, 584, []), parts, 584, []);
  }

  /** The number with these bytes, the least significant first. */
  function LittleEndian(data: Bytes): (n: nat)
  {
    if data == [] then 0 else data[0] as int + 256 * LittleEndian(data[1..])
  }

  lemma ReadsLittleEndian(data: Bytes, offset: nat)
    ensures offset + 2 <= |data| ==> Get16(data, offset) == LittleEndian(data[offset..offset + 2])
    ensures offset + 4 <= |data| ==> Get32(data, offset) == LittleEndian(data[offset..offset + 4])
  {
    if offset + 2 <= |data| {
      var two := data[offset..offset + 2];
      assert LittleEndian(two[1..]) == two[1] as int + 256 * LittleEndian(two[1..][1..]);
    }
    if offset + 4 <= |data| {
      var four := data[offset..offset + 4];
      assert four[1..][1..] == four[2..] && four[2..][1..] == four[3..] && four[3..][1..] == [];
      assert LittleEndian(four) == four[0] as int + 256 * LittleEndian(four[1..]);
      assert LittleEndian(four[1..]) == four[1] as int + 256 * LittleEndian(four[2..]);
      assert LittleEndian(four[2..]) == four[2] as int + 256 * LittleEndian(four[3..]);
      assert LittleEndian(four[3..]) == four[3];
    }
  }

  lemma AcceptsByBytes(quote: Bytes)
    ensures Accepts(quote) <==>
      && |quote| >= 1020 && (LittleEndian(quote[..2]) == 3 || LittleEndian(quote[..2]) == 4)
      && 584 <= LittleEndian(quote[432..436]) <= |quote| - 436
      && var o := 1014 + LittleEndian(quote[1012..1014]);
      && |quote| >= o + 6 && LittleEndian(quote[o..o + 2]) == 5 && o + 6 + LittleEndian(quote[o + 2..o + 6]) <= |quote|
  {
    ReadsLittleEndian(quote, 0);
    ReadsLittleEndian(quote, 432);
    ReadsLittleEndian(quote, 1012);
    hide LittleEndian, Get32;
    if |quote| >= 1020 {
      ReadsLittleEndian(quote, 1014 + Get16(quote, 1012));
      ReadsLittleEndian(quote, 1016 + Get16(quote, 1012));
    }
    hide Get16;
  }

  lemma ChainAtBytes(quote: Bytes)
    requires Accepts(quote)
    ensures |quote| >= 1020
    ensures var o := 1014 + LittleEndian(quote[1012..1014]);
      && o + 6 <= |quote| && var n := LittleEndian(quote[o + 2..o + 6]);
      && o + 6 + n <= |quote| && ChainAt(quote) == quote[o + 6..o + 6 + n]
  {
    ReadsLittleEndian(quote, 1012);
    ReadsLittleEndian(quote, 1016 + Get16(quote, 1012));
    hide LittleEndian, Get16, Get32;
  }

  /** The chain by the bytes that say where it is, little endian: version 3 or 4, a signature
      section of at least 584 bytes within the quote, and after its 576 fixed bytes the
      authentication data, type 5, and the chain's length. */
  lemma ChainByBytes(quote: Bytes, chain: Bytes)
    ensures HasChain(quote, chain) <==>
      && |quote| >= 1020 && (LittleEndian(quote[..2]) == 3 || LittleEndian(quote[..2]) == 4)
      && 584 <= LittleEndian(quote[432..436]) <= |quote| - 436
      && var o := 1014 + LittleEndian(quote[1012..1014]);
      && |quote| >= o + 6 && LittleEndian(quote[o..o + 2]) == 5
      && o + 6 + |chain| <= |quote| && |chain| == LittleEndian(quote[o + 2..o + 6])
      && chain == quote[o + 6..o + 6 + |chain|]
  {
    hide HasChain, Accepts, ChainAt, LittleEndian;
    ChainExactly(quote);
    AcceptsByBytes(quote);
    if Accepts(quote) { ChainAtBytes(quote); }
  }
}
