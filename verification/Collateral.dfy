/**
 The collateral cache in front of the fetch: entries are kept per platform family and signing
 CA, for seven days at most, and not beyond what the collateral itself says.
 Times are nanoseconds from the zero time, so the zero time is 0.
 */
module Collateral {
  import opened Wrappers
  import opened Tables
  import Quote

  const ZERO_TIME: int := 0
  const CACHE_TTL: int := 7 * 24 * 3600 * SECOND
  const FMSPC_SIZE: nat := 6

  datatype PckCa = Processor | Platform

  datatype Collateral = Collateral(rootCaCrl: Bytes, pckCrl: Bytes, tcbInfo: Bytes, qeIdentity: Bytes, rest: Bytes)
  datatype Entry = Entry(expiresAt: int, collateral: Collateral)

  /** What an update time reads as: unparsable, absent, or a time. */
  datatype Reading = Broken | Absent | At(time: int)

  /** The native FMSPC extraction and the X.509 and JSON libraries.  A JSON reading may be the
      zero time; a CRL reading of the zero time counts as absent. */
  datatype Libraries = Libraries(
    fmspcOf: Bytes -> Option<Bytes>,
    issuerOf: Bytes -> Option<PckCa>,
    crlUpdate: Bytes -> Reading,
    jsonUpdate: Bytes -> Reading)

  // ---- the cache key ----

  function HexDigit(n: nat): char
    requires n < 16
  {
    "0123456789abcdef"[n]
  }

  function Hex(data: Bytes): (r: string)
    ensures |r| == 2 * |data|
  {
    if data == [] then "" else [HexDigit(data[0] / 16), HexDigit(data[0] % 16)] + Hex(data[1..])
  }

  lemma {:induction false} HexIsInjective(a: Bytes, b: Bytes)
    requires Hex(a) == Hex(b)
    ensures a == b
  {
    if a != [] {
      HexUnfolds(a);
      HexUnfolds(b);
      hide Hex;
      DigitsDiffer(a[0] / 16, b[0] / 16);
      DigitsDiffer(a[0] % 16, b[0] % 16);
      HexIsInjective(a[1..], b[1..]);
      assert a == [a[0]] + a[1..] && b == [b[0]] + b[1..];
    }
  }

  lemma HexUnfolds(data: Bytes)
    requires data != []
    ensures |Hex(data)| >= 2 && Hex(data)[0] == HexDigit(data[0] / 16) && Hex(data)[1] == HexDigit(data[0] % 16)
    ensures Hex(data)[2..] == Hex(data[1..])
  {
  }

  lemma DigitsDiffer(m: nat, n: nat)
    requires m < 16 && n < 16
    ensures HexDigit(m) == HexDigit(n) ==> m == n
  {
    var digits := "0123456789abcdef";
    assert forall i, j :: 0 <= i < j < 16 ==> digits[i] != digits[j];
  }

  function CaName(ca: PckCa): string
  {
    match ca case Processor => "processor" case Platform => "platform"
  }

  /** The platform family and the signing CA a quote belongs to. */
  datatype Family = Family(fmspc: Bytes, ca: PckCa)

  function KeyOf(family: Family): string
  {
    "fmspc-" + Hex(family.fmspc) + "-pckca-" + CaName(family.ca)
  }

  function FamilyOf(lib: Libraries, quote: Bytes): (r: Option<Family>)
    ensures r.Some? ==> |r.value.fmspc| == FMSPC_SIZE
  {
    if quote == [] then None
    else
      var fmspc := lib.fmspcOf(quote);
      if fmspc.None? || |fmspc.value| != FMSPC_SIZE then None
      else if !Quote.Accepts(quote) then None
      else
        var ca := lib.issuerOf(Quote.ChainAt(quote));
        if ca.None? then None else Some(Family(fmspc.value, ca.value))
  }

  lemma KeySlices(family: Family)
    requires |family.fmspc| == FMSPC_SIZE
    ensures |KeyOf(family)| >= 25 && KeyOf(family)[6..18] == Hex(family.fmspc)
    ensures KeyOf(family)[25..] == CaName(family.ca)
  {
    hide Hex, CaName;
    var front := "fmspc-" + Hex(family.fmspc);
    assert KeyOf(family) == front + ("-pckca-" + CaName(family.ca));
    assert front[6..18] == Hex(family.fmspc);
    assert KeyOf(family) == (front + "-pckca-") + CaName(family.ca);
  }

  /** A byte is two lower-case hexadecimal digits, the high half first. */
  lemma HexBytes(b: Byte, rest: Bytes)
    ensures Hex([]) == "" && |Hex([b] + rest)| >= 2 && Hex([b] + rest)[2..] == Hex(rest)
    ensures Hex([b] + rest)[0] as int == if b / 16 < 10 then 48 + b / 16 else 87 + b / 16
    ensures Hex([b] + rest)[1] as int == if b % 16 < 10 then 48 + b % 16 else 87 + b % 16
  {
    HexUnfolds([b] + rest);
    assert ([b] + rest)[1..] == rest;
  }

  /** The key names the family in words. */
  lemma KeyWords(family: Family)
    requires |family.fmspc| == 6
    ensures var key := KeyOf(family);
      && |key| >= 25 && key[..6] == "fmspc-" && key[6..18] == Hex(family.fmspc) && key[18..25] == "-pckca-"
      && key[25..] == if family.ca == Processor then "processor" else "platform"
  {
    KeySlices(family);
    hide Hex;
    var key := KeyOf(family);
    var back := "-pckca-" + CaName(family.ca);
    assert key == "fmspc-" + Hex(family.fmspc) + back;
    assert key[18..] == back && key[18..25] == key[18..][..7];
  }

  /** The family of a quote is the six bytes the platform library finds in it and the CA that
      issued the certificate chain the quote is laid out around. */
  lemma FamilyExactly(lib: Libraries, quote: Bytes, fmspc: Bytes, ca: PckCa)
    ensures FamilyOf(lib, quote) == Some(Family(fmspc, ca)) <==>
      && quote != [] && lib.fmspcOf(quote) == Some(fmspc) && |fmspc| == 6
      && exists chain: Bytes :: Quote.HasChain(quote, chain) && lib.issuerOf(chain) == Some(ca)
  {
    Quote.ChainExactly(quote);
    hide Quote.HasChain, Quote.Accepts, Quote.ChainAt;
    if Quote.Accepts(quote) { assert Quote.HasChain(quote, Quote.ChainAt(quote)); }
  }

  /** Different families never share a key. */
  lemma KeysIdentifyFamilies(a: Family, b: Family)
    requires |a.fmspc| == FMSPC_SIZE && |b.fmspc| == FMSPC_SIZE && KeyOf(a) == KeyOf(b)
    ensures a == b
  {
    hide Hex, KeyOf;
    KeySlices(a);
    KeySlices(b);
    HexIsInjective(a.fmspc, b.fmspc);
    assert |CaName(Processor)| != |CaName(Platform)|;
  }

  // ---- expiry ----

  function CrlReading(lib: Libraries, raw: Bytes): Reading
  {
    if raw == [] then Absent
    else match lib.crlUpdate(raw)
      case At(t) => if t == ZERO_TIME then Absent else At(t)
      case r => r
  }

  function JsonReading(lib: Libraries, raw: Bytes): Reading
  {
    if raw == [] then Absent else lib.jsonUpdate(raw)
  }

  /** The four readings in the order in which they are taken. */
  function Readings(lib: Libraries, c: Collateral): (r: seq<Reading>)
    ensures |r| == 4
  {
    [CrlReading(lib, c.rootCaCrl), CrlReading(lib, c.pckCrl), JsonReading(lib, c.tcbInfo),
     JsonReading(lib, c.qeIdentity)]
  }

  predicate Readable(readings: seq<Reading>)
  {
    Broken !in readings
  }

  /** The nearest update so far, the zero time standing for none. */
  function Nearest(readings: seq<Reading>): int
  {
    if readings == [] then ZERO_TIME
    else
      var before := Nearest(readings[..|readings| - 1]);
      match readings[|readings| - 1]
      case At(t) => if before == ZERO_TIME || t < before then t else before
      case _ => before
  }

  function Expiry(readings: seq<Reading>, now: int): int
  {
    var candidate := now + CACHE_TTL;
    var nearest := Nearest(readings);
    if nearest != ZERO_TIME && nearest < candidate then nearest else candidate
  }

  lemma AtMostSevenDays(readings: seq<Reading>, now: int)
    ensures Expiry(readings, now) <= now + 604_800_000_000_000
  {
  }

  /** The expiry is no sooner than it has to be: seven days from now, or an update time. */
  lemma {:induction false} NearestIsRead(readings: seq<Reading>)
    ensures Nearest(readings) != 0 ==> At(Nearest(readings)) in readings
  {
    if readings != [] { NearestIsRead(readings[..|readings| - 1]); }
  }

  lemma ExpiryIsNoSooner(readings: seq<Reading>, now: int)
    ensures Expiry(readings, now) == now + 604_800_000_000_000
      || (Expiry(readings, now) != 0 && At(Expiry(readings, now)) in readings)
  {
    NearestIsRead(readings);
    hide Nearest;
  }

  /** The parts are read in this order: a missing part, and a revocation list without a time or
      with the zero time, counts as absent. */
  lemma ReadingsAre(lib: Libraries, c: Collateral)
    ensures Readings(lib, c)[0] ==
      if c.rootCaCrl == [] || lib.crlUpdate(c.rootCaCrl) == At(0) then Absent else lib.crlUpdate(c.rootCaCrl)
    ensures Readings(lib, c)[1] ==
      if c.pckCrl == [] || lib.crlUpdate(c.pckCrl) == At(0) then Absent else lib.crlUpdate(c.pckCrl)
    ensures Readings(lib, c)[2] == if c.tcbInfo == [] then Absent else lib.jsonUpdate(c.tcbInfo)
    ensures Readings(lib, c)[3] == if c.qeIdentity == [] then Absent else lib.jsonUpdate(c.qeIdentity)
  {
  }

  method NearestUpdate(lib: Libraries, c: Collateral) returns (nearest: Option<int>)
    ensures nearest.None? <==> !Readable(Readings(lib, c))
    ensures nearest.Some? ==> nearest.value == Nearest(Readings(lib, c))
  {
    var n := ZERO_TIME;
    ghost var all := Readings(lib, c);
    var crls := [c.rootCaCrl, c.pckCrl];
    for i := 0 to 2
      invariant n == Nearest(all[..i]) && Readable(all[..i])
    {
      assert all[..i + 1][..i] == all[..i];
      var reading := CrlReading(lib, crls[i]);
      if reading.Broken? {
        assert all[i].Broken?;
        return None;
      }
      if reading.At? && (n == ZERO_TIME || reading.time < n) {
        n := reading.time;
      }
    }
    var jsons := [c.tcbInfo, c.qeIdentity];
    for i := 0 to 2
      invariant n == Nearest(all[..i + 2]) && Readable(all[..i + 2])
    {
      assert all[..i + 3][..i + 2] == all[..i + 2];
      var reading := JsonReading(lib, jsons[i]);
      if reading.Broken? {
        assert all[i + 2].Broken?;
        return None;
      }
      if reading.At? && (n == ZERO_TIME || reading.time < n) {
        n := reading.time;
      }
    }
    assert all[..4] == all;
    nearest := Some(n);
  }

  /** The expiry is no later than seven days from now and than any update time reported, the
      zero time aside. */
  predicate Honours(readings: seq<Reading>, now: int)
  {
    && Expiry(readings, now) <= now + CACHE_TTL
    && forall i :: 0 <= i < |readings| && readings[i].At? && readings[i].time != ZERO_TIME ==>
         Expiry(readings, now) <= readings[i].time
  }

  /** The zero time, reported after a real one, wipes what came before, and nothing after it is
      as near. */
  predicate Wiped(readings: seq<Reading>, now: int)
    requires |readings| == 4
  {
    var first, second := Nearest(readings[..2]), Nearest(readings[..3]);
    || (readings[2] == At(ZERO_TIME) && 0 < first < now + CACHE_TTL
        && !(readings[3].At? && readings[3].time != ZERO_TIME && readings[3].time <= first))
    || (readings[3] == At(ZERO_TIME) && 0 < second < now + CACHE_TTL)
  }

  lemma NearestUnfolds(r: seq<Reading>)
    requires |r| == 4
    ensures var take := (before: int, reading: Reading) =>
        if reading.At? && (before == ZERO_TIME || reading.time < before) then reading.time else before;
      && Nearest(r[..2]) == take(take(ZERO_TIME, r[0]), r[1])
      && Nearest(r[..3]) == take(Nearest(r[..2]), r[2])
      && Nearest(r) == take(Nearest(r[..3]), r[3])
  {
    assert r[..1][..0] == [] && r[..2][..1] == r[..1] && r[..3][..2] == r[..2] && r[..3] == r[..|r| - 1];
    assert Nearest(r[..1]) == if r[0].At? then r[0].time else ZERO_TIME;
  }

  /** The expiry honours every update time exactly when no zero time has wiped a nearer one.
      The CRL readings are never the zero time. */
  lemma HonoursUnlessWiped(readings: seq<Reading>, now: int)
    requires |readings| == 4 && now >= 0
    requires readings[0] != At(ZERO_TIME) && readings[1] != At(ZERO_TIME)
    ensures Honours(readings, now) <==> !Wiped(readings, now)
  {
    NearestUnfolds(readings);
    var r0, r1, r2, r3 := readings[0], readings[1], readings[2], readings[3];
    hide Nearest;
    assert Honours(readings, now) <==>
      && (r0.At? && r0.time != ZERO_TIME ==> Expiry(readings, now) <= r0.time)
      && (r1.At? && r1.time != ZERO_TIME ==> Expiry(readings, now) <= r1.time)
      && (r2.At? && r2.time != ZERO_TIME ==> Expiry(readings, now) <= r2.time)
      && (r3.At? && r3.time != ZERO_TIME ==> Expiry(readings, now) <= r3.time);
  }

  /** A revocation list due tomorrow is forgotten when the quoting enclave's identity reports
      the zero time: the entry is good for seven days. */
  lemma ZeroTimeWipes(now: int)
    requires now >= 0
    ensures var readings := [At(now + 24 * 3600 * SECOND), Absent, Absent, At(ZERO_TIME)];
      Expiry(readings, now) == now + CACHE_TTL && !Honours(readings, now)
  {
    var readings := [At(now + 24 * 3600 * SECOND), Absent, Absent, At(ZERO_TIME)];
    NearestUnfolds(readings);
    assert readings[0].At?;
  }

  // ---- the cache ----

  /** How an entry came to be: for which family, what, and when. */
  datatype Origin = Origin(family: Family, collateral: Collateral, storedAt: int)

  class Cache {
    const lib: Libraries
    var files: map<string, Entry>
    ghost var origins: map<string, Origin>

    constructor (lib: Libraries)
      ensures Valid() && files == map[] && this.lib == lib
    {
      this.lib, files, origins := lib, map[], map[];
    }

    /** Every file was put there for the family its name says, with the expiry computed then. */
    ghost predicate Valid()
      reads this
    {
      forall key :: key in files ==>
        && key in origins && |origins[key].family.fmspc| == FMSPC_SIZE && key == KeyOf(origins[key].family)
        && files[key].collateral == origins[key].collateral
        && Readable(Readings(lib, files[key].collateral))
        && files[key].expiresAt == Expiry(Readings(lib, files[key].collateral), origins[key].storedAt)
    }

    /** What may be handed out at this time for a quote of this family. */
    ghost predicate Fresh(family: Family, collateral: Collateral, now: int)
      reads this
    {
      var key := KeyOf(family);
      && key in origins && origins[key].family == family && origins[key].collateral == collateral
      && now < origins[key].storedAt + 604_800_000_000_000
      && now < Expiry(Readings(lib, collateral), origins[key].storedAt)
    }

    /** A stored entry still valid now; an expired one is deleted and not handed out. */
    method Get(quote: Bytes, now: int) returns (r: Result<Option<Collateral>, ()>)
      requires Valid()
      modifies this`files
      ensures Valid() && r.Err? == FamilyOf(lib, quote).None?
      ensures r.Ok? ==> (r.value.Some? <==>
        var key := KeyOf(FamilyOf(lib, quote).value);
        key in old(files) && old(files)[key].expiresAt != 0 && now < old(files)[key].expiresAt)
      ensures r.Ok? && r.value.Some? ==> r.value.value == old(files)[KeyOf(FamilyOf(lib, quote).value)].collateral
      ensures r.Ok? && r.value.Some? ==> Fresh(FamilyOf(lib, quote).value, r.value.value, now) && files == old(files)
      ensures r.Ok? && r.value.None? ==> files == old(files) - {KeyOf(FamilyOf(lib, quote).value)}
      ensures r.Err? ==> files == old(files)
    {
      hide Expiry, Readings, Readable, KeyOf, FamilyOf;
      var family := FamilyOf(lib, quote);
      if family.None? {
        return Err(());
      }
      var key := KeyOf(family.value);
      if key !in files {
        return Ok(None);
      }
      var entry := files[key];
      if entry.expiresAt == ZERO_TIME || now >= entry.expiresAt {
        files := files - {key};
        return Ok(None);
      }
      KeysIdentifyFamilies(origins[key].family, family.value);
      AtMostSevenDays(Readings(lib, entry.collateral), origins[key].storedAt);
      r := Ok(Some(entry.collateral));
    }

    /** Stores the collateral under the family of the quote, unless an update time in it cannot
        be read. */
    method Put(quote: Bytes, collateral: Collateral, now: int) returns (ok: bool)
      requires Valid()
      modifies this`files, this`origins
      ensures Valid()
      ensures ok == (FamilyOf(lib, quote).Some? && Readable(Readings(lib, collateral)))
      ensures ok ==>
        var key := KeyOf(FamilyOf(lib, quote).value);
        && files == old(files)[key := Entry(Expiry(Readings(lib, collateral), now), collateral)]
        && origins == old(origins)[key := Origin(FamilyOf(lib, quote).value, collateral, now)]
      ensures !ok ==> files == old(files) && origins == old(origins)
    {
      hide Nearest, Readings, Readable, KeyOf, FamilyOf;
      var nearest := NearestUpdate(lib, collateral);
      if nearest.None? {
        return false;
      }
      var candidate := now + CACHE_TTL;
      if nearest.value != ZERO_TIME && nearest.value < candidate {
        candidate := nearest.value;
      }
      var family := FamilyOf(lib, quote);
      if family.None? {
        return false;
      }
      var key := KeyOf(family.value);
      files := files[key := Entry(candidate, collateral)];
      origins := origins[key := Origin(family.value, collateral, now)];
      ok := true;
    }

    /** The cached collateral if fresh, else the fetched one, which is stored if it can be. */
    method QuoteCollateral(quote: Bytes, now: int, fetched: Result<Option<Collateral>, ()>, later: int)
      returns (r: Result<Option<Collateral>, ()>, served: bool)
      requires Valid() && now <= later
      modifies this`files, this`origins
      ensures Valid()
      ensures r.Err? <==> FamilyOf(lib, quote).None? || (!served && fetched.Err?)
      ensures served <==>
        && FamilyOf(lib, quote).Some?
        && var key := KeyOf(FamilyOf(lib, quote).value);
        && key in old(files) && old(files)[key].expiresAt != 0 && now < old(files)[key].expiresAt
      ensures served ==>
        && r.Ok? && r.value.Some? && FamilyOf(lib, quote).Some?
        && Fresh(FamilyOf(lib, quote).value, r.value.value, now) && files == old(files)
      ensures !served && r.Ok? ==> r == fetched && FamilyOf(lib, quote).Some?
      ensures !served && r.Ok? && r.value.Some? && Readable(Readings(lib, r.value.value)) ==>
        var key := KeyOf(FamilyOf(lib, quote).value);
        key in files && files[key].collateral == r.value.value && origins[key].storedAt == later
    {
      var cached := Get(quote, now);
      served := false;
      if cached.Err? {
        return cached, false;
      }
      if cached.value.Some? {
        return cached, true;
      }
      if fetched.Ok? && fetched.value.Some? {
        var stored := Put(quote, fetched.value.value, later);
      }
      r := fetched;
    }

    /** What is served from the cache was stored for a quote of the same family less than seven
        days ago, and the time has not reached any update time it reports, unless a zero time
        wiped a nearer one when it was stored. */
    lemma ServedIsCurrent(family: Family, collateral: Collateral, now: int)
      requires Valid() && Fresh(family, collateral, now) && origins[KeyOf(family)].storedAt >= 0
      ensures var storedAt := origins[KeyOf(family)].storedAt;
        && origins[KeyOf(family)].family == family && now < storedAt + 604_800_000_000_000
        && (!Wiped(Readings(lib, collateral), storedAt) ==> forall t: int | t != 0 ::
              && (collateral.rootCaCrl != [] && lib.crlUpdate(collateral.rootCaCrl) == At(t) ==> now < t)
              && (collateral.pckCrl != [] && lib.crlUpdate(collateral.pckCrl) == At(t) ==> now < t)
              && (collateral.tcbInfo != [] && lib.jsonUpdate(collateral.tcbInfo) == At(t) ==> now < t)
              && (collateral.qeIdentity != [] && lib.jsonUpdate(collateral.qeIdentity) == At(t) ==> now < t))
    {
      var readings, storedAt := Readings(lib, collateral), origins[KeyOf(family)].storedAt;
      HonoursUnlessWiped(readings, storedAt);
      ReadingsAre(lib, collateral);
      hide Readings, Wiped, Expiry, KeyOf;
      if Honours(readings, storedAt) {
        forall i | 0 <= i < 4 && readings[i].At? && readings[i].time != 0 ensures now < readings[i].time {
        }
      }
    }
  }
}
