/**
 The TEEP message codec (sections 4.2 to 4.6 of draft-ietf-teep-protocol-26): each of the five
 messages survives encoding and decoding, with the fields it does not carry cleared and empty
 optional values normalised to absent ones.
 */
module TeepCodec {
  import opened Wrappers
  import opened Tables
  import opened Cbor

  type Int64 = i: int | -0x8000_0000_0000_0000 <= i < 0x8000_0000_0000_0000
  type Uint64 = i: int | 0 <= i < 0x1_0000_0000_0000_0000
  type Uint32 = i: int | 0 <= i < 0x1_0000_0000
  type Uint8 = i: int | 0 <= i < 0x100

  // A slice may be missing (nil), and so may the byte strings in it.
  type Part = Option<Bytes>
  type Slice<T> = Option<seq<T>>

  datatype CipherSuite = CipherSuite(kind: Int64, algorithm: Int64)
  datatype CoseProfile = CoseProfile(digest: Int64, auth: Int64, keyExchange: Int64, encryption: Int64)
  datatype SystemClaims = SystemClaims(component: Slice<Part>, digest: Option<Bytes>, size: Uint64)
  datatype RequestedTc = RequestedTc(component: Slice<Part>, sequenceNumber: Option<Uint64>, haveBinary: Option<bool>)

  datatype Options = Options(
    suites: Slice<Slice<CipherSuite>>,
    challenge: Option<Bytes>,
    versions: Slice<Uint32>,
    profiles: Slice<CoseProfile>,
    selectedVersion: Option<Uint32>,
    payload: Option<Bytes>,
    tcList: Slice<SystemClaims>,
    extList: Slice<Uint32>,
    manifestList: Slice<Part>,
    msg: Option<Bytes>,
    errMsg: Option<Bytes>,
    format: Option<Bytes>,
    requestedTcList: Slice<RequestedTc>,
    unneededManifestList: Slice<Part>,
    suitReports: Slice<Part>,
    token: Option<Bytes>,
    freshness: Slice<Uint64>,
    errLang: Option<Bytes>,
    errCode: Option<Uint8>)

  datatype TeepMessage = TeepMessage(
    kind: Int64,
    options: Options,
    suites: Slice<Slice<CipherSuite>>,
    profiles: Slice<CoseProfile>,
    dataItems: Uint64,
    errCode: Uint8)

  const QUERY_REQUEST: Int64 := 1
  const QUERY_RESPONSE: Int64 := 2
  const UPDATE: Int64 := 3
  const SUCCESS: Int64 := 4
  const ERROR: Int64 := 5

  const NO_OPTIONS := Options(None, None, None, None, None, None, None, None, None, None,
                              None, None, None, None, None, None, None, None, None)
  const BLANK := TeepMessage(0, NO_OPTIONS, None, None, 0, 0)

  // ---- leaves ----

  function IntItem(i: Int64): Item
  {
    if i >= 0 then UInt(i) else NInt(-1 - i)
  }

  function IntOf(item: Item): Option<Int64>
  {
    match item
    case UInt(u) => if u < 0x8000_0000_0000_0000 then Some(u) else None
    case NInt(n) => if n < 0x8000_0000_0000_0000 then Some(-1 - n) else None
    case _ => None
  }

  function UintItem(u: Uint64): Item
  {
    UInt(u)
  }

  function UintOf(item: Item): Option<Uint64>
  {
    match item case UInt(u) => if u <= MAX_ARGUMENT then Some(u) else None case _ => None
  }

  function Uint32Item(u: Uint32): Item
  {
    UInt(u)
  }

  function Uint32Of(item: Item): Option<Uint32>
  {
    match item case UInt(u) => if u < 0x1_0000_0000 then Some(u) else None case _ => None
  }

  function Uint8Item(u: Uint8): Item
  {
    UInt(u)
  }

  function Uint8Of(item: Item): Option<Uint8>
  {
    match item case UInt(u) => if u < 0x100 then Some(u) else None case _ => None
  }

  function BoolItem(b: bool): Item
  {
    if b then True else False
  }

  function BoolOf(item: Item): Option<bool>
  {
    match item case True => Some(true) case False => Some(false) case _ => None
  }

  function PartOf(item: Item): Option<Part>
  {
    match item case Null => Some(None) case BStr(b) => Some(Some(b)) case _ => None
  }

  function TextItem(t: Bytes): Item
  {
    TStr(t)
  }

  function TextOf(item: Item): Option<Bytes>
  {
    match item case TStr(t) => Some(t) case _ => None
  }

  function Each<T, U>(s: seq<T>, f: T -> U): (r: seq<U>)
    ensures |r| == |s| && forall i :: 0 <= i < |s| ==> r[i] == f(s[i])
  {
    seq(|s|, i requires 0 <= i < |s| => f(s[i]))
  }

  function EachOf<T>(items: seq<Item>, g: Item -> Option<T>): (r: seq<T>)
    requires forall i :: 0 <= i < |items| ==> g(items[i]).Some?
    ensures |r| == |items| && forall i :: 0 <= i < |items| ==> g(items[i]) == Some(r[i])
  {
    seq(|items|, i requires 0 <= i < |items| => g(items[i]).value)
  }

  function SliceItem<T>(xs: Slice<T>, f: T -> Item): Item
  {
    match xs case None => Null case Some(s) => Arr(Each(s, f))
  }

  function SliceOf<T>(item: Item, g: Item -> Option<T>): Option<Slice<T>>
  {
    match item
    case Null => Some(None)
    case Arr(items) => if forall i :: 0 <= i < |items| ==> g(items[i]).Some? then Some(Some(EachOf(items, g))) else None
    case _ => None
  }

  function Mapped<T>(xs: Slice<T>, n: T -> T): Slice<T>
  {
    match xs case None => None case Some(s) => Some(Each(s, n))
  }

  lemma SliceRoundTrip<T(!new)>(xs: Slice<T>, f: T -> Item, g: Item -> Option<T>, n: T -> T)
    requires forall x: T :: g(f(x)) == Some(n(x))
    ensures SliceOf(SliceItem(xs, f), g) == Some(Mapped(xs, n))
  {
    if xs.Some? {
      var items := Each(xs.value, f);
      assert forall i :: 0 <= i < |items| ==> g(items[i]) == Some(n(xs.value[i]));
      assert EachOf(items, g) == Each(xs.value, n);
    }
  }

  lemma PlainRoundTrip<T(!new)>(xs: Slice<T>, f: T -> Item, g: Item -> Option<T>)
    requires forall x: T :: g(f(x)) == Some(x)
    ensures SliceOf(SliceItem(xs, f), g) == Some(xs)
  {
    if xs.Some? {
      var items := Each(xs.value, f);
      assert forall i :: 0 <= i < |items| ==> g(items[i]) == Some(xs.value[i]);
      assert EachOf(items, g) == xs.value;
    }
  }

  // ---- structures keyed by integers ----

  /** The present slots under their keys. */
  function Keyed(slots: seq<Option<Item>>, keys: seq<nat>): seq<Field>
    requires |slots| == |keys|
  {
    if slots == [] then []
    else (if slots[0].Some? then [Field(keys[0], slots[0].value)] else []) + Keyed(slots[1..], keys[1..])
  }

  function Lookup(fields: seq<Field>, key: nat): Option<Item>
  {
    if fields == [] then None
    else if fields[0].key == key then Some(fields[0].value)
    else Lookup(fields[1..], key)
  }

  function Slots(fields: seq<Field>, keys: seq<nat>): (r: seq<Option<Item>>)
    ensures |r| == |keys|
  {
    seq(|keys|, i requires 0 <= i < |keys| => Lookup(fields, keys[i]))
  }

  predicate Increasing(keys: seq<nat>)
  {
    forall i, j :: 0 <= i < j < |keys| ==> keys[i] < keys[j]
  }

  lemma {:induction false} AbsentBelow(slots: seq<Option<Item>>, keys: seq<nat>, key: nat)
    requires |slots| == |keys| && forall i :: 0 <= i < |keys| ==> keys[i] != key
    ensures Lookup(Keyed(slots, keys), key) == None
  {
    if slots != [] {
      AbsentBelow(slots[1..], keys[1..], key);
      if slots[0].Some? {
        assert Keyed(slots, keys)[1..] == Keyed(slots[1..], keys[1..]);
      } else {
        assert Keyed(slots, keys) == Keyed(slots[1..], keys[1..]);
      }
    }
  }

  lemma {:induction false} LookupFindsSlot(slots: seq<Option<Item>>, keys: seq<nat>, i: nat)
    requires |slots| == |keys| && i < |keys| && Increasing(keys)
    ensures Lookup(Keyed(slots, keys), keys[i]) == slots[i]
  {
    if i == 0 {
      AbsentBelow(slots[1..], keys[1..], keys[0]);
      if slots[0].None? { assert Keyed(slots, keys) == Keyed(slots[1..], keys[1..]); }
    } else {
      LookupFindsSlot(slots[1..], keys[1..], i - 1);
      if slots[0].Some? {
        assert Keyed(slots, keys)[1..] == Keyed(slots[1..], keys[1..]);
      } else {
        assert Keyed(slots, keys) == Keyed(slots[1..], keys[1..]);
      }
    }
  }

  /** Reading the slots back from the encoded map gives the slots. */
  lemma SlotsRoundTrip(slots: seq<Option<Item>>, keys: seq<nat>)
    requires |slots| == |keys| && Increasing(keys)
    ensures Slots(Keyed(slots, keys), keys) == slots
  {
    forall i | 0 <= i < |keys| ensures Slots(Keyed(slots, keys), keys)[i] == slots[i] {
      LookupFindsSlot(slots, keys, i);
    }
  }

  // Empty values are omitted.

  function SliceSlot<T>(xs: Slice<T>, f: T -> Item): Option<Item>
  {
    if xs.None? || xs.value == [] then None else Some(SliceItem(xs, f))
  }

  function BytesSlot(b: Option<Bytes>): Option<Item>
  {
    if b.None? || b.value == [] then None else Some(BStr(b.value))
  }

  function PointerSlot<T>(p: Option<T>, f: T -> Item): Option<Item>
  {
    match p case None => None case Some(x) => Some(f(x))
  }

  /** An absent slot leaves the field of the receiver as it is. */
  function Read<T>(slot: Option<Item>, base: T, g: Item -> Option<T>): Option<T>
  {
    match slot case None => Some(base) case Some(item) => g(item)
  }

  function ReadSlice<T>(slot: Option<Item>, base: Slice<T>, g: Item -> Option<T>): Option<Slice<T>>
  {
    match slot case None => Some(base) case Some(item) => SliceOf(item, g)
  }

  function ReadPointer<T>(slot: Option<Item>, base: Option<T>, g: Item -> Option<T>): Option<Option<T>>
  {
    match slot
    case None => Some(base)
    case Some(Null) => Some(None)
    case Some(item) => match g(item) case None => None case Some(x) => Some(Some(x))
  }

  // Empty optional values, normalised.

  function NormalSlice<T>(xs: Slice<T>, n: T -> T): Slice<T>
  {
    if xs == Some([]) then None else Mapped(xs, n)
  }

  function NormalPlain<T(==)>(xs: Slice<T>): Slice<T>
  {
    if xs == Some([]) then None else xs
  }

  lemma SliceSlotRoundTrip<T(!new)>(xs: Slice<T>, f: T -> Item, g: Item -> Option<T>, n: T -> T)
    requires forall x: T :: g(f(x)) == Some(n(x))
    ensures ReadSlice(SliceSlot(xs, f), None, g) == Some(NormalSlice(xs, n))
  {
    SliceRoundTrip(xs, f, g, n);
  }

  lemma PlainSlotRoundTrip<T(!new)>(xs: Slice<T>, f: T -> Item, g: Item -> Option<T>)
    requires forall x: T :: g(f(x)) == Some(x)
    ensures ReadSlice(SliceSlot(xs, f), None, g) == Some(NormalPlain(xs))
  {
    PlainRoundTrip(xs, f, g);
  }

  // ---- structures in lists ----

  function SuiteItem(s: CipherSuite): Item
  {
    Arr([IntItem(s.kind), IntItem(s.algorithm)])
  }

  function SuiteOf(item: Item): Option<CipherSuite>
  {
    if !item.Arr? || |item.items| != 2 then None
    else
      var kind, algorithm := IntOf(item.items[0]), IntOf(item.items[1]);
      if kind.None? || algorithm.None? then None else Some(CipherSuite(kind.value, algorithm.value))
  }

  function SuitesItem(s: Slice<CipherSuite>): Item
  {
    SliceItem(s, SuiteItem)
  }

  function SuitesOf(item: Item): Option<Slice<CipherSuite>>
  {
    SliceOf(item, SuiteOf)
  }

  function ProfileItem(p: CoseProfile): Item
  {
    Arr([IntItem(p.digest), IntItem(p.auth), IntItem(p.keyExchange), IntItem(p.encryption)])
  }

  function ProfileOf(item: Item): Option<CoseProfile>
  {
    if !item.Arr? || |item.items| != 4 then None
    else
      var a, b, c, d := IntOf(item.items[0]), IntOf(item.items[1]), IntOf(item.items[2]), IntOf(item.items[3]);
      if a.None? || b.None? || c.None? || d.None? then None
      else Some(CoseProfile(a.value, b.value, c.value, d.value))
  }

  const CLAIMS_KEYS: seq<nat> := [0, 3, 14]

  function ClaimsSlots(c: SystemClaims): (r: seq<Option<Item>>)
    ensures |r| == 3
  {
    [SliceSlot(c.component, ComponentPart), BytesSlot(c.digest), if c.size == 0 then None else Some(UintItem(c.size))]
  }

  function ClaimsItem(c: SystemClaims): Item
  {
    Map(Keyed(ClaimsSlots(c), CLAIMS_KEYS))
  }

  function ClaimsFrom(slots: seq<Option<Item>>): Option<SystemClaims>
    requires |slots| == 3
  {
    var component, digest, size := ReadSlice(slots[0], None, PartOf), Read(slots[1], None, PartOf),
      Read(slots[2], 0, UintOf);
    if component.None? || digest.None? || size.None? then None
    else Some(SystemClaims(component.value, digest.value, size.value))
  }

  function ClaimsOf(item: Item): Option<SystemClaims>
  {
    if !item.Map? then None else ClaimsFrom(Slots(item.fields, CLAIMS_KEYS))
  }

  function NormalClaims(c: SystemClaims): SystemClaims
  {
    SystemClaims(NormalPlain(c.component), NormalPlain(c.digest), c.size)
  }

  const REQUESTED_KEYS: seq<nat> := [15, 16, 17]

  function RequestedSlots(r: RequestedTc): (s: seq<Option<Item>>)
    ensures |s| == 3
  {
    [SliceSlot(r.component, ComponentPart), PointerSlot(r.sequenceNumber, UintItem),
     PointerSlot(r.haveBinary, BoolItem)]
  }

  function RequestedItem(r: RequestedTc): Item
  {
    Map(Keyed(RequestedSlots(r), REQUESTED_KEYS))
  }

  function RequestedFrom(slots: seq<Option<Item>>): Option<RequestedTc>
    requires |slots| == 3
  {
    var component, number := ReadSlice(slots[0], None, PartOf), ReadPointer(slots[1], None, UintOf);
    var binary := ReadPointer(slots[2], None, BoolOf);
    if component.None? || number.None? || binary.None? then None
    else Some(RequestedTc(component.value, number.value, binary.value))
  }

  function RequestedOf(item: Item): Option<RequestedTc>
  {
    if !item.Map? then None else RequestedFrom(Slots(item.fields, REQUESTED_KEYS))
  }

  function NormalRequested(r: RequestedTc): RequestedTc
  {
    r.(component := NormalPlain(r.component))
  }

  lemma IntRoundTrip(i: Int64)
    ensures IntOf(IntItem(i)) == Some(i)
  {
  }

  lemma ProfileRoundTrip(p: CoseProfile)
    ensures ProfileOf(ProfileItem(p)) == Some(p)
  {
    hide IntItem, IntOf;
    IntRoundTrip(p.digest);
    IntRoundTrip(p.auth);
    IntRoundTrip(p.keyExchange);
    IntRoundTrip(p.encryption);
  }

  lemma SuitesRoundTrip(s: Slice<CipherSuite>)
    ensures SuitesOf(SuitesItem(s)) == Some(s)
  {
    PlainRoundTrip(s, SuiteItem, SuiteOf);
  }

  lemma ClaimsRoundTrip(c: SystemClaims)
    ensures ClaimsOf(ClaimsItem(c)) == Some(NormalClaims(c))
  {
    SlotsRoundTrip(ClaimsSlots(c), CLAIMS_KEYS);
    PlainSlotRoundTrip(c.component, ComponentPart, PartOf);
    hide Slots, Keyed, SliceSlot, ReadSlice;
  }

  lemma RequestedRoundTrip(r: RequestedTc)
    ensures RequestedOf(RequestedItem(r)) == Some(NormalRequested(r))
  {
    SlotsRoundTrip(RequestedSlots(r), REQUESTED_KEYS);
    PlainSlotRoundTrip(r.component, ComponentPart, PartOf);
    PointerRoundTrip(r.sequenceNumber, UintItem, UintOf);
    PointerRoundTrip(r.haveBinary, BoolItem, BoolOf);
    hide Slots, Keyed, SliceSlot, ReadSlice, PointerSlot, ReadPointer, Increasing, NormalPlain;
  }

  // ---- options ----

  const OPTION_KEYS: seq<nat> := [1, 2, 3, 4, 5, 6, 7, 8, 9, 10, 11, 12, 13, 14, 18, 19, 20, 21, 22]

  function OptionSlots(o: Options): (r: seq<Option<Item>>)
    ensures |r| == 19
  {
    [ SliceSlot(o.suites, SuitesItem),
      BytesSlot(o.challenge),
      SliceSlot(o.versions, Uint32Item),
      SliceSlot(o.profiles, ProfileItem),
      PointerSlot(o.selectedVersion, Uint32Item),
      BytesSlot(o.payload),
      SliceSlot(o.tcList, ClaimsItem),
      SliceSlot(o.extList, Uint32Item),
      SliceSlot(o.manifestList, ComponentPart),
      PointerSlot(o.msg, TextItem),
      PointerSlot(o.errMsg, TextItem),
      PointerSlot(o.format, TextItem),
      SliceSlot(o.requestedTcList, RequestedItem),
      SliceSlot(o.unneededManifestList, ComponentPart),
      SliceSlot(o.suitReports, ComponentPart),
      BytesSlot(o.token),
      SliceSlot(o.freshness, UintItem),
      PointerSlot(o.errLang, TextItem),
      PointerSlot(o.errCode, Uint8Item) ]
  }

  function OptionsItem(o: Options): Item
  {
    Map(Keyed(OptionSlots(o), OPTION_KEYS))
  }

  function OptionsFrom(s: seq<Option<Item>>, base: Options): Option<Options>
    requires |s| == 19
  {
    var suites := ReadSlice(s[0], base.suites, SuitesOf);
    var challenge := Read(s[1], base.challenge, PartOf);
    var versions := ReadSlice(s[2], base.versions, Uint32Of);
    var profiles := ReadSlice(s[3], base.profiles, ProfileOf);
    var selectedVersion := ReadPointer(s[4], base.selectedVersion, Uint32Of);
    var payload := Read(s[5], base.payload, PartOf);
    var tcList := ReadSlice(s[6], base.tcList, ClaimsOf);
    var extList := ReadSlice(s[7], base.extList, Uint32Of);
    var manifestList := ReadSlice(s[8], base.manifestList, PartOf);
    var msg := ReadPointer(s[9], base.msg, TextOf);
    var errMsg := ReadPointer(s[10], base.errMsg, TextOf);
    var format := ReadPointer(s[11], base.format, TextOf);
    var requestedTcList := ReadSlice(s[12], base.requestedTcList, RequestedOf);
    var unneededManifestList := ReadSlice(s[13], base.unneededManifestList, PartOf);
    var suitReports := ReadSlice(s[14], base.suitReports, PartOf);
    var token := Read(s[15], base.token, PartOf);
    var freshness := ReadSlice(s[16], base.freshness, UintOf);
    var errLang := ReadPointer(s[17], base.errLang, TextOf);
    var errCode := ReadPointer(s[18], base.errCode, Uint8Of);
    if suites.None? || challenge.None? || versions.None? || profiles.None? || selectedVersion.None? || payload.None?
       || tcList.None? || extList.None? || manifestList.None? || msg.None? || errMsg.None? || format.None?
       || requestedTcList.None? || unneededManifestList.None? || suitReports.None? || token.None? || freshness.None?
       || errLang.None? || errCode.None?
    then None
    else Some(Options(suites.value, challenge.value, versions.value, profiles.value, selectedVersion.value,
                      payload.value, tcList.value, extList.value, manifestList.value, msg.value, errMsg.value,
                      format.value, requestedTcList.value, unneededManifestList.value, suitReports.value,
                      token.value, freshness.value, errLang.value, errCode.value))
  }

  function OptionsInto(item: Item, base: Options): Option<Options>
  {
    if !item.Map? then None else OptionsFrom(Slots(item.fields, OPTION_KEYS), base)
  }

  /** Empty slices and byte strings become absent, in the options and in the structures listed
      there; a pointer keeps what it points to, be it empty, zero or false. */
  function NormalOptions(o: Options): Options
  {
    o.(suites := NormalPlain(o.suites), challenge := NormalPlain(o.challenge), versions := NormalPlain(o.versions),
       profiles := NormalPlain(o.profiles), payload := NormalPlain(o.payload),
       tcList := NormalSlice(o.tcList, NormalClaims), extList := NormalPlain(o.extList),
       manifestList := NormalPlain(o.manifestList), requestedTcList := NormalSlice(o.requestedTcList, NormalRequested),
       unneededManifestList := NormalPlain(o.unneededManifestList), suitReports := NormalPlain(o.suitReports),
       token := NormalPlain(o.token), freshness := NormalPlain(o.freshness))
  }

  lemma BytesSlotRoundTrip(b: Option<Bytes>)
    ensures Read(BytesSlot(b), None, PartOf) == Some(NormalPlain(b))
  {
  }

  lemma PointerRoundTrip<T(!new)>(p: Option<T>, f: T -> Item, g: Item -> Option<T>)
    requires forall x: T :: g(f(x)) == Some(x) && !f(x).Null?
    ensures ReadPointer(PointerSlot(p, f), None, g) == Some(p)
  {
    if p.Some? { assert g(f(p.value)) == Some(p.value); }
  }

  lemma StructureListsRoundTrip(o: Options)
    ensures ReadSlice(SliceSlot(o.suites, SuitesItem), None, SuitesOf) == Some(NormalPlain(o.suites))
    ensures ReadSlice(SliceSlot(o.profiles, ProfileItem), None, ProfileOf) == Some(NormalPlain(o.profiles))
    ensures ReadSlice(SliceSlot(o.tcList, ClaimsItem), None, ClaimsOf) == Some(NormalSlice(o.tcList, NormalClaims))
    ensures ReadSlice(SliceSlot(o.requestedTcList, RequestedItem), None, RequestedOf)
         == Some(NormalSlice(o.requestedTcList, NormalRequested))
  {
    forall x ensures SuitesOf(SuitesItem(x)) == Some(x) { SuitesRoundTrip(x); }
    PlainSlotRoundTrip(o.suites, SuitesItem, SuitesOf);
    hide SuitesOf, SuitesItem, ProfileItem, ProfileOf, ClaimsItem, ClaimsOf, RequestedItem, RequestedOf, SliceSlot,
         ReadSlice;
    forall x ensures ProfileOf(ProfileItem(x)) == Some(x) { ProfileRoundTrip(x); }
    PlainSlotRoundTrip(o.profiles, ProfileItem, ProfileOf);
    forall x ensures ClaimsOf(ClaimsItem(x)) == Some(NormalClaims(x)) { ClaimsRoundTrip(x); }
    SliceSlotRoundTrip(o.tcList, ClaimsItem, ClaimsOf, NormalClaims);
    forall x ensures RequestedOf(RequestedItem(x)) == Some(NormalRequested(x)) { RequestedRoundTrip(x); }
    SliceSlotRoundTrip(o.requestedTcList, RequestedItem, RequestedOf, NormalRequested);
  }

  lemma PlainListsRoundTrip(o: Options)
    ensures ReadSlice(SliceSlot(o.versions, Uint32Item), None, Uint32Of) == Some(NormalPlain(o.versions))
    ensures ReadSlice(SliceSlot(o.extList, Uint32Item), None, Uint32Of) == Some(NormalPlain(o.extList))
    ensures ReadSlice(SliceSlot(o.manifestList, ComponentPart), None, PartOf) == Some(NormalPlain(o.manifestList))
    ensures ReadSlice(SliceSlot(o.unneededManifestList, ComponentPart), None, PartOf) ==
      Some(NormalPlain(o.unneededManifestList))
    ensures ReadSlice(SliceSlot(o.suitReports, ComponentPart), None, PartOf) == Some(NormalPlain(o.suitReports))
    ensures ReadSlice(SliceSlot(o.freshness, UintItem), None, UintOf) == Some(NormalPlain(o.freshness))
  {
    PlainSlotRoundTrip(o.versions, Uint32Item, Uint32Of);
    PlainSlotRoundTrip(o.extList, Uint32Item, Uint32Of);
    PlainSlotRoundTrip(o.manifestList, ComponentPart, PartOf);
    PlainSlotRoundTrip(o.unneededManifestList, ComponentPart, PartOf);
    PlainSlotRoundTrip(o.suitReports, ComponentPart, PartOf);
    PlainSlotRoundTrip(o.freshness, UintItem, UintOf);
  }

  lemma PointersRoundTrip(o: Options)
    ensures ReadPointer(PointerSlot(o.selectedVersion, Uint32Item), None, Uint32Of) == Some(o.selectedVersion)
    ensures ReadPointer(PointerSlot(o.msg, TextItem), None, TextOf) == Some(o.msg)
    ensures ReadPointer(PointerSlot(o.errMsg, TextItem), None, TextOf) == Some(o.errMsg)
    ensures ReadPointer(PointerSlot(o.format, TextItem), None, TextOf) == Some(o.format)
    ensures ReadPointer(PointerSlot(o.errLang, TextItem), None, TextOf) == Some(o.errLang)
    ensures ReadPointer(PointerSlot(o.errCode, Uint8Item), None, Uint8Of) == Some(o.errCode)
  {
    PointerRoundTrip(o.selectedVersion, Uint32Item, Uint32Of);
    PointerRoundTrip(o.msg, TextItem, TextOf);
    PointerRoundTrip(o.errCode, Uint8Item, Uint8Of);
  }

  lemma OptionKeysIncrease()
    ensures Increasing(OPTION_KEYS) && |OPTION_KEYS| == 19
  {
  }

  lemma OptionsRoundTrip(o: Options)
    ensures OptionsInto(OptionsItem(o), NO_OPTIONS) == Some(NormalOptions(o))
  {
    hide Slots, Keyed, SliceSlot, BytesSlot, PointerSlot, ReadSlice, Read, ReadPointer, NormalPlain, NormalSlice,
         Increasing, OptionSlots, OptionsFrom, NormalOptions;
    OptionKeysIncrease();
    SlotsRoundTrip(OptionSlots(o), OPTION_KEYS);
    OptionsFromSlots(o);
  }

  lemma OptionsFromSlots(o: Options)
    ensures OptionsFrom(OptionSlots(o), NO_OPTIONS) == Some(NormalOptions(o))
  {
    hide SliceSlot, BytesSlot, PointerSlot, ReadSlice, Read, ReadPointer, NormalPlain, NormalSlice;
    StructureListsRoundTrip(o);
    PlainListsRoundTrip(o);
    PointersRoundTrip(o);
    BytesSlotRoundTrip(o.challenge);
    BytesSlotRoundTrip(o.payload);
    BytesSlotRoundTrip(o.token);
  }

  // ---- messages ----

  function MessageItem(m: TeepMessage): Option<Item>
  {
    if m.kind == QUERY_REQUEST then
      Some(Arr([IntItem(m.kind), OptionsItem(m.options),
                SliceItem(m.suites, SuitesItem), SliceItem(m.profiles, ProfileItem),
                UintItem(m.dataItems)]))
    else if m.kind == QUERY_RESPONSE || m.kind == UPDATE || m.kind == SUCCESS then
      Some(Arr([IntItem(m.kind), OptionsItem(m.options)]))
    else if m.kind == ERROR then Some(Arr([IntItem(m.kind), OptionsItem(m.options), Uint8Item(m.errCode)]))
    else None
  }

  /** All lengths fit the encoding's arguments. */
  ghost predicate Fits(m: TeepMessage)
  {
    MessageItem(m).Some? ==> Encodable(MessageItem(m).value)
  }

  ghost function Marshal(m: TeepMessage): Option<Bytes>
    requires Fits(m)
  {
    match MessageItem(m) case None => None case Some(item) => Some(Encode(item))
  }

  /** The message read into a receiver; fields it does not carry keep the receiver's values. */
  function MessageInto(item: Item, base: TeepMessage): Option<TeepMessage>
  {
    if !item.Arr? || |item.items| < 2 then None
    else
      var a := item.items;
      var kind := IntOf(a[0]);
      if kind.None? then None
      else if kind.value == QUERY_REQUEST then
        if |a| != 5 then None
        else
          var options := OptionsInto(a[1], base.options);
          var suites := SliceOf(a[2], SuitesOf);
          var profiles := SliceOf(a[3], ProfileOf);
          var dataItems := UintOf(a[4]);
          if options.None? || suites.None? || profiles.None? || dataItems.None? then None
          else Some(TeepMessage(kind.value, options.value, suites.value, profiles.value, dataItems.value, base.errCode))
      else if kind.value == QUERY_RESPONSE || kind.value == UPDATE || kind.value == SUCCESS then
        if |a| != 2 then None
        else
          var options := OptionsInto(a[1], base.options);
          if options.None? then None else Some(base.(kind := kind.value, options := options.value))
      else if kind.value == ERROR then
        if |a| != 3 then None
        else
          var options := OptionsInto(a[1], base.options);
          var errCode := Uint8Of(a[2]);
          if options.None? || errCode.None? then None
          else Some(base.(kind := kind.value, options := options.value, errCode := errCode.value))
      else None
  }

  /** The message with what its type does not carry cleared, and its options normalised. */
  function Normal(m: TeepMessage): TeepMessage
  {
    var cleared := BLANK.(kind := m.kind, options := NormalOptions(m.options));
    if m.kind == QUERY_REQUEST then cleared.(suites := m.suites, profiles := m.profiles, dataItems := m.dataItems)
    else if m.kind == ERROR then cleared.(errCode := m.errCode)
    else cleared
  }

  lemma QueryRoundTrip(m: TeepMessage)
    requires m.kind == QUERY_REQUEST
    ensures MessageInto(MessageItem(m).value, BLANK) == Some(Normal(m))
  {
    hide OptionsInto, OptionsItem, NormalOptions, SliceItem, SliceOf, SuitesItem, SuitesOf, IntOf, IntItem;
    IntRoundTrip(m.kind);
    OptionsRoundTrip(m.options);
    forall x ensures SuitesOf(SuitesItem(x)) == Some(x) { SuitesRoundTrip(x); }
    PlainRoundTrip(m.suites, SuitesItem, SuitesOf);
    ProfilesRoundTrip(m.profiles);
  }

  lemma ProfilesRoundTrip(ps: Slice<CoseProfile>)
    ensures SliceOf(SliceItem(ps, ProfileItem), ProfileOf) == Some(ps)
  {
    hide ProfileItem, ProfileOf, SliceItem, SliceOf;
    forall x ensures ProfileOf(ProfileItem(x)) == Some(x) { ProfileRoundTrip(x); }
    PlainRoundTrip(ps, ProfileItem, ProfileOf);
  }

  lemma MessageRoundTrip(m: TeepMessage)
    requires MessageItem(m).Some?
    ensures MessageInto(MessageItem(m).value, BLANK) == Some(Normal(m))
  {
    hide OptionsInto, OptionsItem, NormalOptions, SliceItem, SliceOf, SuitesItem, SuitesOf, IntOf, IntItem;
    if m.kind == QUERY_REQUEST {
      QueryRoundTrip(m);
    } else {
      IntRoundTrip(m.kind);
      OptionsRoundTrip(m.options);
    }
  }

  // ---- text ----

  /** The text options are valid UTF-8. */
  predicate TextsValid(o: Options)
  {
    && (o.msg.Some? ==> ValidUtf8(o.msg.value)) && (o.errMsg.Some? ==> ValidUtf8(o.errMsg.value))
    && (o.format.Some? ==> ValidUtf8(o.format.value)) && (o.errLang.Some? ==> ValidUtf8(o.errLang.value))
  }

  ghost predicate SlotTextual(slot: Option<Item>)
  {
    slot.Some? ==> Textual(slot.value)
  }

  lemma {:induction false} KeyedTextual(slots: seq<Option<Item>>, keys: seq<nat>)
    requires |slots| == |keys|
    ensures FieldsTextual(Keyed(slots, keys)) <==> forall i :: 0 <= i < |slots| ==> SlotTextual(slots[i])
  {
    hide Textual;
    if slots != [] {
      var tail := Keyed(slots[1..], keys[1..]);
      KeyedTextual(slots[1..], keys[1..]);
      assert forall i :: 0 < i < |slots| ==> slots[i] == slots[1..][i - 1];
      if slots[0].Some? {
        FieldsTextualUnfolds(Keyed(slots, keys));
        assert Keyed(slots, keys)[1..] == tail;
      } else {
        assert Keyed(slots, keys) == tail;
      }
      hide FieldsTextual;
    }
  }

  lemma SliceTextual<T(!new)>(xs: Slice<T>, f: T -> Item)
    requires forall x: T :: Textual(f(x))
    ensures Textual(SliceItem(xs, f)) && SlotTextual(SliceSlot(xs, f))
  {
    if xs.Some? {
      var items := Each(xs.value, f);
      assert forall i :: 0 <= i < |items| ==> Textual(items[i]);
    }
  }

  lemma MapTextual(slots: seq<Option<Item>>, keys: seq<nat>)
    requires |slots| == |keys|
    ensures Textual(Map(Keyed(slots, keys))) <==> forall i :: 0 <= i < |slots| ==> SlotTextual(slots[i])
  {
    KeyedTextual(slots, keys);
    hide SlotTextual, Keyed;
  }

  lemma SuitesTextual(s: Slice<CipherSuite>)
    ensures Textual(SuitesItem(s))
  {
    forall x ensures Textual(SuiteItem(x)) { PairTextual(IntItem(x.kind), IntItem(x.algorithm)); }
    SliceTextual(s, SuiteItem);
  }

  lemma PairTextual(a: Item, b: Item)
    requires Textual(a) && Textual(b)
    ensures Textual(Arr([a, b]))
  {
    assert forall i :: 0 <= i < 2 ==> Textual([a, b][i]);
  }

  lemma ClaimsTextual(c: SystemClaims)
    ensures Textual(ClaimsItem(c))
  {
    SliceTextual(c.component, ComponentPart);
    MapTextual(ClaimsSlots(c), CLAIMS_KEYS);
  }

  lemma RequestedTextual(r: RequestedTc)
    ensures Textual(RequestedItem(r))
  {
    SliceTextual(r.component, ComponentPart);
    MapTextual(RequestedSlots(r), REQUESTED_KEYS);
  }

  lemma ListsTextual(o: Options)
    ensures SlotTextual(SliceSlot(o.suites, SuitesItem)) && SlotTextual(SliceSlot(o.profiles, ProfileItem))
    ensures SlotTextual(SliceSlot(o.tcList, ClaimsItem)) && SlotTextual(SliceSlot(o.requestedTcList, RequestedItem))
    ensures SlotTextual(SliceSlot(o.versions, Uint32Item)) && SlotTextual(SliceSlot(o.extList, Uint32Item))
    ensures SlotTextual(SliceSlot(o.manifestList, ComponentPart))
    ensures SlotTextual(SliceSlot(o.unneededManifestList, ComponentPart))
    ensures SlotTextual(SliceSlot(o.suitReports, ComponentPart)) && SlotTextual(SliceSlot(o.freshness, UintItem))
  {
    forall x ensures Textual(SuitesItem(x)) { SuitesTextual(x); }
    SliceTextual(o.suites, SuitesItem);
    ProfilesTextual(o.profiles);
    forall x ensures Textual(ClaimsItem(x)) { ClaimsTextual(x); }
    SliceTextual(o.tcList, ClaimsItem);
    forall x ensures Textual(RequestedItem(x)) { RequestedTextual(x); }
    SliceTextual(o.requestedTcList, RequestedItem);
    hide SlotTextual, SliceSlot, SuitesItem, ClaimsItem, RequestedItem, ProfileItem;
    SliceTextual(o.versions, Uint32Item);
    SliceTextual(o.extList, Uint32Item);
    SliceTextual(o.manifestList, ComponentPart);
    SliceTextual(o.unneededManifestList, ComponentPart);
    SliceTextual(o.suitReports, ComponentPart);
    SliceTextual(o.freshness, UintItem);
  }

  lemma ProfilesTextual(ps: Slice<CoseProfile>)
    ensures Textual(SliceItem(ps, ProfileItem)) && SlotTextual(SliceSlot(ps, ProfileItem))
  {
    forall x ensures Textual(ProfileItem(x)) {
      assert forall i :: 0 <= i < 4 ==> Textual(ProfileItem(x).items[i]);
    }
    SliceTextual(ps, ProfileItem);
  }

  lemma TextSlot(p: Option<Bytes>)
    ensures SlotTextual(PointerSlot(p, TextItem)) <==> (p.Some? ==> ValidUtf8(p.value))
  {
    hide ValidUtf8;
  }

  lemma TextFreeSlot(b: Option<Bytes>, u: Option<Uint32>, v: Option<Uint8>)
    ensures SlotTextual(BytesSlot(b)) && SlotTextual(PointerSlot(u, Uint32Item))
    ensures SlotTextual(PointerSlot(v, Uint8Item))
  {
  }

  lemma OptionsTextual(o: Options)
    ensures Textual(OptionsItem(o)) <==> TextsValid(o)
  {
    hide SlotTextual, SliceSlot, PointerSlot, BytesSlot, Keyed, Textual, ValidUtf8;
    MapTextual(OptionSlots(o), OPTION_KEYS);
    ListsTextual(o);
    TextSlot(o.msg);
    TextSlot(o.errMsg);
    TextSlot(o.format);
    TextSlot(o.errLang);
    TextFreeSlot(o.challenge, o.selectedVersion, o.errCode);
    TextFreeSlot(o.payload, o.selectedVersion, o.errCode);
    TextFreeSlot(o.token, o.selectedVersion, o.errCode);
    var s := OptionSlots(o);
    assert s[9] == PointerSlot(o.msg, TextItem) && s[10] == PointerSlot(o.errMsg, TextItem);
    assert s[11] == PointerSlot(o.format, TextItem) && s[17] == PointerSlot(o.errLang, TextItem);
  }

  lemma MessageTextual(m: TeepMessage)
    requires MessageItem(m).Some?
    ensures Textual(MessageItem(m).value) <==> TextsValid(m.options)
  {
    OptionsTextual(m.options);
    forall x ensures Textual(SuitesItem(x)) { SuitesTextual(x); }
    SliceTextual(m.suites, SuitesItem);
    ProfilesTextual(m.profiles);
    hide OptionsItem, TextsValid, SliceItem, SuitesItem;
    var items := MessageItem(m).value.items;
    assert items[1] == OptionsItem(m.options);
    assert |items| == 2 || |items| == 3 || |items| == 5;
  }

  // ---- the codec ----

  /** What decoding leaves in the receiver, if it succeeds. */
  function Unmarshalled(data: Bytes, base: TeepMessage): Option<TeepMessage>
  {
    match Parse(data) case None => None case Some(item) => MessageInto(item, base)
  }

  /** Every message of the five types decodes from its encoding to its normal form, unless a
      text option is not valid UTF-8, and then it does not decode; no other type encodes. */
  lemma UnmarshalUndoesMarshal(m: TeepMessage)
    requires Fits(m)
    ensures Marshal(m).Some? <==> QUERY_REQUEST <= m.kind <= ERROR
    ensures Marshal(m).Some? ==>
      Unmarshalled(Marshal(m).value, BLANK) == if TextsValid(m.options) then Some(Normal(m)) else None
  {
    if MessageItem(m).Some? {
      ParseUndoesEncode(MessageItem(m).value);
      MessageTextual(m);
      MessageRoundTrip(m);
      hide MessageInto, Normal, Parse, Encode, Encodable, Textual, TextsValid;
    }
  }

  /** A normal message is its own normal form, so it comes back as it was sent; and two messages
      with one encoding have one normal form. */
  lemma NormalFormsAreFaithful(m: TeepMessage, n: TeepMessage)
    requires Fits(m) && Fits(n) && Marshal(m).Some? && TextsValid(m.options) && TextsValid(n.options)
    ensures Normal(Normal(m)) == Normal(m)
    ensures Marshal(m) == Marshal(n) ==> Normal(m) == Normal(n)
  {
    UnmarshalUndoesMarshal(m);
    UnmarshalUndoesMarshal(n);
    NormalIsIdempotent(m);
  }

  lemma NormalIsIdempotent(m: TeepMessage)
    ensures Normal(Normal(m)) == Normal(m)
  {
    var o := m.options;
    NormalTwice(o.tcList, NormalClaims);
    NormalTwice(o.requestedTcList, NormalRequested);
    hide NormalSlice, NormalClaims, NormalRequested;
  }

  lemma NormalTwice<T(!new)>(xs: Slice<T>, n: T -> T)
    requires forall x: T :: n(n(x)) == n(x)
    ensures NormalSlice(NormalSlice(xs, n), n) == NormalSlice(xs, n)
  {
    if xs.Some? && xs.value != [] {
      assert Each(Each(xs.value, n), n) == Each(xs.value, n);
    }
  }

  /** The receiver of a decoded message, filled field by field. */
  class Receiver {
    var kind: Int64
    var options: Options
    var suites: Slice<Slice<CipherSuite>>
    var profiles: Slice<CoseProfile>
    var dataItems: Uint64
    var errCode: Uint8

    constructor ()
      ensures Value() == BLANK
    {
      kind, options, suites, profiles, dataItems, errCode := 0, NO_OPTIONS, None, None, 0, 0;
    }

    function Value(): TeepMessage
      reads this
    {
      TeepMessage(kind, options, suites, profiles, dataItems, errCode)
    }

    method Unmarshal(data: Bytes) returns (ok: bool)
      modifies this
      ensures ok == Unmarshalled(data, old(Value())).Some?
      ensures ok ==> Value() == Unmarshalled(data, old(Value())).value
    {
      hide OptionsInto, SliceOf, Parse;
      var item := Parse(data);
      if item.None? || !item.value.Arr? || |item.value.items| < 2 {
        return false;
      }
      var a := item.value.items;
      var newKind := IntOf(a[0]);
      if newKind.None? {
        return false;
      }
      kind := newKind.value;
      var length := if kind == QUERY_REQUEST then 5 else if kind == ERROR then 3 else 2;
      if kind < QUERY_REQUEST || ERROR < kind || |a| != length {
        return false;
      }
      var newOptions := OptionsInto(a[1], options);
      if newOptions.None? {
        return false;
      }
      options := newOptions.value;
      if kind == QUERY_REQUEST {
        var newSuites := SliceOf(a[2], SuitesOf);
        if newSuites.None? {
          return false;
        }
        suites := newSuites.value;
        var newProfiles := SliceOf(a[3], ProfileOf);
        if newProfiles.None? {
          return false;
        }
        profiles := newProfiles.value;
        var newItems := UintOf(a[4]);
        if newItems.None? {
          return false;
        }
        dataItems := newItems.value;
      } else if kind == ERROR {
        var code := Uint8Of(a[2]);
        if code.None? {
          return false;
        }
        errCode := code.value;
      }
      ok := true;
    }
  }

  // ---- the messages on the wire (section 4 of draft-ietf-teep-protocol-26) ----

  /** The entry of the map under this key is absent for a missing or empty list, and else an array
      of its items in order. */
  ghost predicate Carries<T>(fields: seq<Field>, key: nat, xs: Slice<T>, f: T -> Item)
  {
    if xs.None? || xs.value == [] then Lookup(fields, key).None?
    else
      && Lookup(fields, key).Some? && Lookup(fields, key).value.Arr?
      && |Lookup(fields, key).value.items| == |xs.value|
      && forall i :: 0 <= i < |xs.value| ==> Lookup(fields, key).value.items[i] == f(xs.value[i])
  }

  predicate CarriesBytes(fields: seq<Field>, key: nat, b: Option<Bytes>)
  {
    Lookup(fields, key) == if b.None? || b.value == [] then None else Some(BStr(b.value))
  }

  predicate CarriesText(fields: seq<Field>, key: nat, text: Option<Bytes>)
  {
    Lookup(fields, key) == if text.None? then None else Some(TStr(text.value))
  }

  predicate CarriesNumber(fields: seq<Field>, key: nat, u: Option<Uint64>)
  {
    Lookup(fields, key) == if u.None? then None else Some(UInt(u.value))
  }

  lemma OptionSlot(o: Options, i: nat, key: nat)
    requires i < 19 && OPTION_KEYS[i] == key
    ensures OptionsItem(o).Map? && Lookup(OptionsItem(o).fields, key) == OptionSlots(o)[i]
  {
    OptionKeysIncrease();
    LookupFindsSlot(OptionSlots(o), OPTION_KEYS, i);
  }

  lemma StructuredListsOnTheWire(o: Options)
    ensures OptionsItem(o).Map? && var fields := OptionsItem(o).fields;
      && Carries(fields, 1, o.suites, SuitesItem)
      && Carries(fields, 4, o.profiles, ProfileItem)
      && Carries(fields, 7, o.tcList, ClaimsItem)
      && Carries(fields, 13, o.requestedTcList, RequestedItem)
  {
    hide Lookup, OptionsItem, Carries, SliceSlot, BytesSlot, PointerSlot;
    OptionSlot(o, 0, 1);
    OptionSlot(o, 3, 4);
    OptionSlot(o, 6, 7);
    OptionSlot(o, 12, 13);
    var fields, slots := OptionsItem(o).fields, OptionSlots(o);
    SlotCarries(fields, 1, slots[0], o.suites, SuitesItem);
    SlotCarries(fields, 4, slots[3], o.profiles, ProfileItem);
    SlotCarries(fields, 7, slots[6], o.tcList, ClaimsItem);
    SlotCarries(fields, 13, slots[12], o.requestedTcList, RequestedItem);
  }

  lemma NumberListsOnTheWire(o: Options)
    ensures OptionsItem(o).Map? && var fields := OptionsItem(o).fields;
      && Carries(fields, 3, o.versions, Uint32Item)
      && Carries(fields, 8, o.extList, Uint32Item)
      && Carries(fields, 20, o.freshness, UintItem)
  {
    hide Lookup, OptionsItem, Carries, SliceSlot, BytesSlot, PointerSlot;
    OptionSlot(o, 2, 3);
    OptionSlot(o, 7, 8);
    OptionSlot(o, 16, 20);
    var fields, slots := OptionsItem(o).fields, OptionSlots(o);
    SlotCarries(fields, 3, slots[2], o.versions, Uint32Item);
    SlotCarries(fields, 8, slots[7], o.extList, Uint32Item);
    SlotCarries(fields, 20, slots[16], o.freshness, UintItem);
  }

  lemma BytesListsOnTheWire(o: Options)
    ensures OptionsItem(o).Map? && var fields := OptionsItem(o).fields;
      && Carries(fields, 9, o.manifestList, ComponentPart)
      && Carries(fields, 14, o.unneededManifestList, ComponentPart)
      && Carries(fields, 18, o.suitReports, ComponentPart)
  {
    hide Lookup, OptionsItem, Carries, SliceSlot, BytesSlot, PointerSlot;
    OptionSlot(o, 8, 9);
    OptionSlot(o, 13, 14);
    OptionSlot(o, 14, 18);
    var fields, slots := OptionsItem(o).fields, OptionSlots(o);
    SlotCarries(fields, 9, slots[8], o.manifestList, ComponentPart);
    SlotCarries(fields, 14, slots[13], o.unneededManifestList, ComponentPart);
    SlotCarries(fields, 18, slots[14], o.suitReports, ComponentPart);
  }

  lemma ValuesOnTheWire(o: Options)
    ensures OptionsItem(o).Map? && var fields := OptionsItem(o).fields;
      && CarriesBytes(fields, 2, o.challenge) && CarriesBytes(fields, 6, o.payload) && CarriesBytes(fields, 19, o.token)
      && CarriesNumber(fields, 5, o.selectedVersion) && CarriesNumber(fields, 22, o.errCode)
  {
    hide Lookup, OptionsItem, SliceSlot;
    OptionSlot(o, 1, 2);
    OptionSlot(o, 5, 6);
    OptionSlot(o, 15, 19);
    OptionSlot(o, 4, 5);
    OptionSlot(o, 18, 22);
  }

  lemma TextsOnTheWire(o: Options)
    ensures OptionsItem(o).Map? && var fields := OptionsItem(o).fields;
      && CarriesText(fields, 10, o.msg) && CarriesText(fields, 11, o.errMsg) && CarriesText(fields, 12, o.format)
      && CarriesText(fields, 21, o.errLang)
  {
    hide Lookup, OptionsItem, SliceSlot;
    OptionSlot(o, 9, 10);
    OptionSlot(o, 10, 11);
    OptionSlot(o, 11, 12);
    OptionSlot(o, 17, 21);
  }

  lemma OptionNumbers()
    ensures |OPTION_KEYS| == 19 && forall k :: k in OPTION_KEYS ==> 1 <= k <= 14 || 18 <= k <= 22
  {
  }

  /** Nothing but the options travels, and in ascending order. */
  lemma OptionKeysOnTheWire(o: Options)
    ensures OptionsItem(o).Map?
    ensures forall i :: 0 <= i < |OptionsItem(o).fields| ==>
      1 <= OptionsItem(o).fields[i].key <= 14 || 18 <= OptionsItem(o).fields[i].key <= 22
    ensures forall i, j :: 0 <= i < j < |OptionsItem(o).fields| ==>
      OptionsItem(o).fields[i].key < OptionsItem(o).fields[j].key
  {
    OptionKeysIncrease();
    KeysInOrder(OptionSlots(o), OPTION_KEYS);
    OptionNumbers();
    hide Keyed, OptionSlots, Increasing, OPTION_KEYS;
  }

  /** Every option travels under its own number. */
  lemma OptionsOnTheWire(o: Options)
    ensures OptionsItem(o).Map?
    ensures var fields := OptionsItem(o).fields;
      && Carries(fields, 1, o.suites, SuitesItem) && CarriesBytes(fields, 2, o.challenge)
      && Carries(fields, 3, o.versions, Uint32Item) && Carries(fields, 4, o.profiles, ProfileItem)
      && CarriesNumber(fields, 5, o.selectedVersion) && CarriesBytes(fields, 6, o.payload)
      && Carries(fields, 7, o.tcList, ClaimsItem) && Carries(fields, 8, o.extList, Uint32Item)
      && Carries(fields, 9, o.manifestList, ComponentPart)
    ensures var fields := OptionsItem(o).fields;
      && CarriesText(fields, 10, o.msg) && CarriesText(fields, 11, o.errMsg) && CarriesText(fields, 12, o.format)
      && Carries(fields, 13, o.requestedTcList, RequestedItem)
      && Carries(fields, 14, o.unneededManifestList, ComponentPart)
      && Carries(fields, 18, o.suitReports, ComponentPart) && CarriesBytes(fields, 19, o.token)
      && Carries(fields, 20, o.freshness, UintItem) && CarriesText(fields, 21, o.errLang)
      && CarriesNumber(fields, 22, o.errCode)
  {
    hide Carries, CarriesBytes, CarriesNumber, CarriesText, OptionsItem;
    StructuredListsOnTheWire(o);
    NumberListsOnTheWire(o);
    BytesListsOnTheWire(o);
    ValuesOnTheWire(o);
    TextsOnTheWire(o);
  }

  lemma SlotCarries<T>(fields: seq<Field>, key: nat, slot: Option<Item>, xs: Slice<T>, f: T -> Item)
    requires Lookup(fields, key) == slot == SliceSlot(xs, f)
    ensures Carries(fields, key, xs, f)
  {
    hide Lookup;
  }

  /** What is listed: numbers as they are, negative ones below -1, a missing list or part as null,
      suites and profiles as arrays, claims and requests as maps under their own numbers. */
  lemma StructuresOnTheWire(i: Int64, u: Uint64, s: Slice<CipherSuite>, p: CoseProfile, c: SystemClaims, r: RequestedTc)
    ensures IntItem(i) == if i < 0 then NInt(-1 - i) else UInt(i)
    ensures UintItem(u) == UInt(u) && ComponentPart(None) == Null && ComponentPart(c.digest) ==
      if c.digest.None? then Null else BStr(c.digest.value)
    ensures s.None? ==> SuitesItem(s) == Null
    ensures s.Some? ==>
      && SuitesItem(s).Arr? && |SuitesItem(s).items| == |s.value|
      && forall k :: 0 <= k < |s.value| ==>
           SuitesItem(s).items[k] == Arr([IntItem(s.value[k].kind), IntItem(s.value[k].algorithm)])
    ensures ProfileItem(p) ==
      Arr([IntItem(p.digest), IntItem(p.auth), IntItem(p.keyExchange), IntItem(p.encryption)])
    ensures ClaimsItem(c).Map? && var fields := ClaimsItem(c).fields;
      && Carries(fields, 0, c.component, ComponentPart) && CarriesBytes(fields, 3, c.digest)
      && CarriesNumber(fields, 14, if c.size == 0 then None else Some(c.size))
    ensures RequestedItem(r).Map? && var fields := RequestedItem(r).fields;
      && Carries(fields, 15, r.component, ComponentPart) && CarriesNumber(fields, 16, r.sequenceNumber)
      && Lookup(fields, 17) ==
           if r.haveBinary.None? then None else if r.haveBinary.value then Some(True) else Some(False)
  {
    hide Lookup, Keyed, Carries, SliceSlot;
    ClaimsOnTheWire(c);
    RequestedOnTheWire(r);
  }

  lemma ClaimsOnTheWire(c: SystemClaims)
    ensures var fields := ClaimsItem(c).fields;
      && Carries(fields, 0, c.component, ComponentPart) && CarriesBytes(fields, 3, c.digest)
      && CarriesNumber(fields, 14, if c.size == 0 then None else Some(c.size))
  {
    var slots := ClaimsSlots(c);
    forall i | 0 <= i < 3 ensures Lookup(ClaimsItem(c).fields, CLAIMS_KEYS[i]) == slots[i] {
      LookupFindsSlot(slots, CLAIMS_KEYS, i);
    }
    assert CLAIMS_KEYS[0] == 0 && CLAIMS_KEYS[1] == 3 && CLAIMS_KEYS[2] == 14;
    hide Lookup, Keyed;
    SlotCarries(ClaimsItem(c).fields, 0, slots[0], c.component, ComponentPart);
    hide Carries, SliceSlot;
  }

  lemma RequestedOnTheWire(r: RequestedTc)
    ensures var fields := RequestedItem(r).fields;
      && Carries(fields, 15, r.component, ComponentPart) && CarriesNumber(fields, 16, r.sequenceNumber)
      && Lookup(fields, 17) ==
           if r.haveBinary.None? then None else if r.haveBinary.value then Some(True) else Some(False)
  {
    var slots := RequestedSlots(r);
    forall i | 0 <= i < 3 ensures Lookup(RequestedItem(r).fields, REQUESTED_KEYS[i]) == slots[i] {
      LookupFindsSlot(slots, REQUESTED_KEYS, i);
    }
    assert REQUESTED_KEYS[0] == 15 && REQUESTED_KEYS[1] == 16 && REQUESTED_KEYS[2] == 17;
    hide Lookup, Keyed;
    SlotCarries(RequestedItem(r).fields, 15, slots[0], r.component, ComponentPart);
    hide Carries, SliceSlot;
  }

  predicate KeysAmong(fields: seq<Field>, keys: seq<nat>)
  {
    forall i :: 0 <= i < |fields| ==> fields[i].key in keys
  }

  predicate Ascends(fields: seq<Field>)
  {
    forall i, j :: 0 <= i < j < |fields| ==> fields[i].key < fields[j].key
  }

  lemma KeyedUnfolds(slots: seq<Option<Item>>, keys: seq<nat>)
    requires |slots| == |keys| && slots != []
    ensures var rest := Keyed(slots[1..], keys[1..]);
      Keyed(slots, keys) == if slots[0].Some? then [Field(keys[0], slots[0].value)] + rest else rest
  {
  }

  lemma OneMoreKey(fields: seq<Field>, keys: seq<nat>, first: Option<Item>)
    requires keys != [] && Increasing(keys) && KeysAmong(fields, keys[1..]) && Ascends(fields)
    ensures KeysAmong(fields, keys)
    ensures first.Some? ==>
      var longer := [Field(keys[0], first.value)] + fields; KeysAmong(longer, keys) && Ascends(longer)
  {
    forall i | 0 <= i < |fields| ensures fields[i].key in keys && keys[0] < fields[i].key {
      assert fields[i].key in keys[1..];
      var k: nat :| k < |keys[1..]| && keys[1..][k] == fields[i].key;
      assert keys[k + 1] == fields[i].key;
    }
  }

  /** The keys come in ascending order, and none but those asked for. */
  lemma {:induction false} KeysInOrder(slots: seq<Option<Item>>, keys: seq<nat>)
    requires |slots| == |keys| && Increasing(keys)
    ensures KeysAmong(Keyed(slots, keys), keys) && Ascends(Keyed(slots, keys))
  {
    if slots != [] {
      KeyedUnfolds(slots, keys);
      assert Increasing(keys[1..]);
      hide Keyed, KeysAmong, Ascends, Increasing;
      KeysInOrder(slots[1..], keys[1..]);
      OneMoreKey(Keyed(slots[1..], keys[1..]), keys, slots[0]);
    }
  }

  /** The five messages: an array of the type, the options, and for a QueryRequest the cipher
      suites, the COSE profiles and the data items requested, for an Error its code. */
  lemma MessagesOnTheWire(m: TeepMessage)
    ensures m.kind == 1 ==>
      MessageItem(m) == Some(Arr([UInt(1), OptionsItem(m.options), SliceItem(m.suites, SuitesItem),
                                  SliceItem(m.profiles, ProfileItem), UInt(m.dataItems)]))
    ensures 2 <= m.kind <= 4 ==> MessageItem(m) == Some(Arr([UInt(m.kind), OptionsItem(m.options)]))
    ensures m.kind == 5 ==> MessageItem(m) == Some(Arr([UInt(5), OptionsItem(m.options), UInt(m.errCode)]))
    ensures m.kind < 1 || 5 < m.kind ==> MessageItem(m).None?
  {
  }

  /** Only arrays of these shapes decode; the receiver's other fields stay, and so does every
      option the map has no entry for. */
  lemma OnlyTheseShapes(item: Item, base: TeepMessage)
    requires MessageInto(item, base).Some?
    ensures item.Arr? && |item.items| >= 2 && item.items[1].Map?
    ensures var m := MessageInto(item, base).value;
      && item.items[0] == UInt(m.kind) && 1 <= m.kind <= 5
      && |item.items| == (if m.kind == 1 then 5 else if m.kind == 5 then 3 else 2)
      && (m.kind != 1 ==> m.suites == base.suites && m.profiles == base.profiles && m.dataItems == base.dataItems)
      && (m.kind == 1 ==> item.items[4] == UInt(m.dataItems))
      && (if m.kind == 5 then item.items[2] == UInt(m.errCode) else m.errCode == base.errCode)
      && OptionsInto(item.items[1], base.options) == Some(m.options)
  {
    hide OptionsFrom, SliceOf, Slots;
  }

  lemma AbsentOptionsStay(fields: seq<Field>, base: Options)
    requires OptionsInto(Map(fields), base).Some?
    ensures var o := OptionsInto(Map(fields), base).value;
      && (Lookup(fields, 1).None? ==> o.suites == base.suites)
      && (Lookup(fields, 2).None? ==> o.challenge == base.challenge)
      && (Lookup(fields, 3).None? ==> o.versions == base.versions)
      && (Lookup(fields, 4).None? ==> o.profiles == base.profiles)
      && (Lookup(fields, 5).None? ==> o.selectedVersion == base.selectedVersion)
      && (Lookup(fields, 6).None? ==> o.payload == base.payload)
      && (Lookup(fields, 7).None? ==> o.tcList == base.tcList)
      && (Lookup(fields, 8).None? ==> o.extList == base.extList)
      && (Lookup(fields, 9).None? ==> o.manifestList == base.manifestList)
      && (Lookup(fields, 10).None? ==> o.msg == base.msg)
    ensures var o := OptionsInto(Map(fields), base).value;
      && (Lookup(fields, 11).None? ==> o.errMsg == base.errMsg)
      && (Lookup(fields, 12).None? ==> o.format == base.format)
      && (Lookup(fields, 13).None? ==> o.requestedTcList == base.requestedTcList)
      && (Lookup(fields, 14).None? ==> o.unneededManifestList == base.unneededManifestList)
      && (Lookup(fields, 18).None? ==> o.suitReports == base.suitReports)
      && (Lookup(fields, 19).None? ==> o.token == base.token)
      && (Lookup(fields, 20).None? ==> o.freshness == base.freshness)
      && (Lookup(fields, 21).None? ==> o.errLang == base.errLang)
      && (Lookup(fields, 22).None? ==> o.errCode == base.errCode)
  {
    var slots := Slots(fields, OPTION_KEYS);
    assert slots[0] == Lookup(fields, 1) && slots[18] == Lookup(fields, 22) && slots[13] == Lookup(fields, 14);
    hide SuitesOf, ProfileOf, ClaimsOf, RequestedOf, SliceOf, Lookup;
  }

  // What an entry of each type reads as; an entry of another type is refused.

  predicate ReadsBytes(entry: Option<Item>, v: Option<Bytes>)
  {
    match entry
    case None => true
    case Some(BStr(b)) => v == Some(b)
    case Some(Null) => v == None
    case _ => false
  }

  predicate ReadsText(entry: Option<Item>, v: Option<Bytes>)
  {
    match entry
    case None => true
    case Some(TStr(t)) => v == Some(t)
    case Some(Null) => v == None
    case _ => false
  }

  predicate ReadsNumber(entry: Option<Item>, v: Option<int>, bound: nat)
  {
    match entry
    case None => true
    case Some(UInt(u)) => u < bound && v == Some(u)
    case Some(Null) => v == None
    case _ => false
  }

  predicate ReadsParts(entry: Option<Item>, v: Slice<Part>)
  {
    match entry
    case None => true
    case Some(Arr(items)) =>
      v.Some? && |v.value| == |items| && forall i :: 0 <= i < |items| ==> items[i] == ComponentPart(v.value[i])
    case Some(Null) => v == None
    case _ => false
  }

  lemma ScalarsRead(s: seq<Option<Item>>, base: Options, o: Options)
    requires |s| == 19 && OptionsFrom(s, base) == Some(o)
    ensures ReadsBytes(s[1], o.challenge) && ReadsBytes(s[5], o.payload) && ReadsBytes(s[15], o.token)
    ensures ReadsText(s[9], o.msg) && ReadsText(s[10], o.errMsg) && ReadsText(s[11], o.format)
    ensures ReadsText(s[17], o.errLang)
    ensures ReadsNumber(s[4], o.selectedVersion, 0x1_0000_0000) && ReadsNumber(s[18], o.errCode, 0x100)
  {
    hide SuitesOf, ProfileOf, ClaimsOf, RequestedOf, SliceOf, ReadSlice, UintOf, UintItem;
  }

  lemma ListsRead(s: seq<Option<Item>>, base: Options, o: Options)
    requires |s| == 19 && OptionsFrom(s, base) == Some(o)
    ensures ReadsParts(s[8], o.manifestList) && ReadsParts(s[13], o.unneededManifestList)
    ensures ReadsParts(s[14], o.suitReports)
  {
    hide SuitesOf, ProfileOf, ClaimsOf, RequestedOf, SliceOf, ReadSlice, Read, ReadPointer, ReadsParts, PartOf;
    PartsRead(s[8], base.manifestList, o.manifestList);
    PartsRead(s[13], base.unneededManifestList, o.unneededManifestList);
    PartsRead(s[14], base.suitReports, o.suitReports);
  }

  /** An option the data carries reads as its entry says, null as nothing. */
  lemma PresentOptionsRead(fields: seq<Field>, base: Options, o: Options)
    requires OptionsInto(Map(fields), base) == Some(o)
    ensures ReadsBytes(Lookup(fields, 2), o.challenge) && ReadsBytes(Lookup(fields, 6), o.payload)
    ensures ReadsBytes(Lookup(fields, 19), o.token)
    ensures ReadsText(Lookup(fields, 10), o.msg) && ReadsText(Lookup(fields, 11), o.errMsg)
    ensures ReadsText(Lookup(fields, 12), o.format) && ReadsText(Lookup(fields, 21), o.errLang)
    ensures ReadsNumber(Lookup(fields, 5), o.selectedVersion, 0x1_0000_0000)
    ensures ReadsNumber(Lookup(fields, 22), o.errCode, 0x100)
    ensures ReadsParts(Lookup(fields, 9), o.manifestList) && ReadsParts(Lookup(fields, 18), o.suitReports)
    ensures ReadsParts(Lookup(fields, 14), o.unneededManifestList)
  {
    var s := Slots(fields, OPTION_KEYS);
    ScalarsRead(s, base, o);
    ListsRead(s, base, o);
    hide OptionsFrom, Lookup, ReadsBytes, ReadsText, ReadsNumber, ReadsParts;
    OptionNumbers();
    assert s[1] == Lookup(fields, 2) && s[4] == Lookup(fields, 5) && s[5] == Lookup(fields, 6);
    assert s[8] == Lookup(fields, 9) && s[9] == Lookup(fields, 10) && s[10] == Lookup(fields, 11);
    assert s[11] == Lookup(fields, 12) && s[13] == Lookup(fields, 14) && s[14] == Lookup(fields, 18);
    assert s[15] == Lookup(fields, 19) && s[17] == Lookup(fields, 21) && s[18] == Lookup(fields, 22);
  }

  lemma PartsRead(entry: Option<Item>, base: Slice<Part>, v: Slice<Part>)
    requires ReadSlice(entry, base, PartOf) == Some(v)
    ensures ReadsParts(entry, v)
  {
  }

  /** Of several entries under one number the first counts. */
  lemma {:induction false} FirstEntryCounts(fields: seq<Field>, key: nat, i: nat)
    requires i <= |fields| && forall j :: 0 <= j < i ==> fields[j].key != key
    ensures i == |fields| ==> Lookup(fields, key).None?
    ensures i < |fields| && fields[i].key == key ==> Lookup(fields, key) == Some(fields[i].value)
  {
    if i > 0 { FirstEntryCounts(fields[1..], key, i - 1); }
  }

  // ---- data items ----

  const ATTESTATION_MASK: nat := 1
  const TC_LIST_MASK: nat := 2
  const EXTENSIONS_MASK: nat := 4
  const SUIT_REPORTS_MASK: nat := 8

  function RequestDataItem(attestation: bool, tcList: bool, extensions: bool, suitReports: bool): (v: Uint64)
    ensures v < 16
    ensures Requested(v, 1) == attestation && Requested(v, 2) == tcList
    ensures Requested(v, 4) == extensions && Requested(v, 8) == suitReports
  {
    (if attestation then ATTESTATION_MASK else 0) + (if tcList then TC_LIST_MASK else 0)
    + (if extensions then EXTENSIONS_MASK else 0) + (if suitReports then SUIT_REPORTS_MASK else 0)
  }

  /** The bit of the mask, a power of two, is set. */
  predicate Requested(v: Uint64, mask: nat)
    requires mask > 0
  {
    v / mask % 2 == 1
  }

  /** Attestation counts 1, the tc-list 2, extensions 4 and suit-reports 8; so asking for the
      tc-list alone is 2 and for attestation alone is 1. */
  lemma DataItemNumbers(attestation: bool, tcList: bool, extensions: bool, suitReports: bool)
    ensures RequestDataItem(attestation, tcList, extensions, suitReports) ==
      (if attestation then 1 else 0) + (if tcList then 2 else 0) + (if extensions then 4 else 0)
        + (if suitReports then 8 else 0)
    ensures RequestDataItem(false, true, false, false) == 2 && RequestDataItem(true, false, false, false) == 1
  {
  }

  /** Asking again for what was asked gives the low four bits back, whatever the others. */
  lemma BitsAreReadBack(v: Uint64)
    ensures RequestDataItem(Requested(v, 1), Requested(v, 2), Requested(v, 4), Requested(v, 8)) == v % 16
  {
    var v1 := v / 2;
    var v2 := v1 / 2;
    var v3 := v2 / 2;
    var b0, b1, b2, b3 := v % 2, v1 % 2, v2 % 2, v3 % 2;
    Quarters(v);
    assert v == 16 * (v3 / 2) + (b0 + 2 * b1 + 4 * b2 + 8 * b3);
    Remainder(v, v3 / 2, b0 + 2 * b1 + 4 * b2 + 8 * b3);
  }

  lemma Quarters(v: int)
    ensures v / 1 == v && v / 4 == v / 2 / 2 && v / 8 == v / 2 / 2 / 2
  {
  }

  lemma Remainder(v: int, q: int, r: int)
    requires v == 16 * q + r && 0 <= r < 16
    ensures v % 16 == r
  {
  }
}
