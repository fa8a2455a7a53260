/**
 The messages the TAM answers with, as it fills them in and as they travel (before signing).
 */
module Replies {
  import opened Wrappers
  import opened Tables
  import opened Protocol
  import opened Cbor
  import opened TeepCodec
  import Service

  const SIGN1_TAG: Int64 := 18
  const ESP256: Int64 := -9
  const ECDH_ES_A128KW: Int64 := -29
  const AES128_CTR: Int64 := -65534

  /** The one cipher suite and the one COSE profile the TAM offers. */
  const SUITES: Slice<Slice<CipherSuite>> := Some([Some([CipherSuite(SIGN1_TAG, ESP256)])])
  const PROFILES: Slice<CoseProfile> := Some([CoseProfile(ALG_SHA256, ESP256, ECDH_ES_A128KW, AES128_CTR)])

  /** What a QueryRequest under this handle asks for. */
  function QueryRequest(handle: Handle, attestation: bool, tcList: bool): TeepMessage
  {
    var options := match handle
      case TokenHandle(b) => NO_OPTIONS.(token := Some(b))
      case ChallengeHandle(b) => NO_OPTIONS.(challenge := Some(b));
    TeepMessage(QUERY_REQUEST, options, SUITES, PROFILES, RequestDataItem(attestation, tcList, false, false), 0)
  }

  function Update(token: Bytes, manifests: seq<Bytes>): TeepMessage
  {
    var parts: seq<Part> := seq(|manifests|, i requires 0 <= i < |manifests| => Some(manifests[i]));
    BLANK.(kind := UPDATE, options := NO_OPTIONS.(token := Some(token), manifestList := Some(parts)))
  }

  /** The message an outcome is answered with, if it is answered with one. */
  function Reply(outcome: Outcome): Option<TeepMessage>
  {
    match outcome
    case QuerySent(handle, attestation, tcList) => Some(QueryRequest(handle, attestation, tcList))
    case UpdateSent(_, token, manifests) => Some(Update(token, manifests))
    case _ => None
  }

  // ---- on the wire ----

  /** The suites [[[18, -9]]] and the profiles [[-16, -9, -29, -65534]]. */
  const OFFER: Bytes := [0x81, 0x81, 0x82, 0x12, 0x28, 0x81, 0x84, 0x2F, 0x28, 0x38, 0x1C, 0x39, 0xFF, 0xFD]

  lemma LongNumbers()
    ensures Encode(NInt(28)) == [0x38, 0x1C] && Encode(NInt(65533)) == [0x39, 0xFF, 0xFD]
  {
    HeadBytes(1, 28);
    LongHeadBytes(1, 65533);
    hide Head;
    var long := Head(1, 65533);
    FromFour(long[1], long[2], 0, 0);
    hide FromBigEndian;
    assert long[1..] == [long[1], long[2]];
  }

  lemma {:induction false} FourItems(items: seq<Item>)
    requires |items| == 4 && forall i :: 0 <= i < 4 ==> Encodable(items[i])
    ensures Encodable(Arr(items))
    ensures Encode(Arr(items)) == [0x84] + Encode(items[0]) + Encode(items[1]) + Encode(items[2]) + Encode(items[3])
  {
    hide Encode, EncodeAll;
    assert Encodable(Arr(items)) && Encodable(Arr(items[1..]));
    assert Encodable(Arr(items[2..])) && Encodable(Arr(items[3..]));
    hide Encodable;
    assert items[1..][1..] == items[2..] && items[2..][1..] == items[3..] && items[3..][1..] == [];
    ArrayBytes(items);
    ArrayBytes(items[1..]);
    ArrayBytes(items[2..]);
    ArrayBytes(items[3..]);
    assert EncodeAll(items[3..]) == Encode(items[3]) + [] == Encode(items[3]);
  }

  lemma ProfileBytes()
    ensures var items := [NInt(15), NInt(8), NInt(28), NInt(65533)];
      Encodable(Arr(items)) && Encode(Arr(items)) == [0x84, 0x2F, 0x28, 0x38, 0x1C, 0x39, 0xFF, 0xFD]
  {
    hide Encode;
    var items := [NInt(15), NInt(8), NInt(28), NInt(65533)];
    assert forall i :: 0 <= i < 4 ==> Encodable(items[i]);
    hide Encodable;
    ShortForms(15, []);
    ShortForms(8, []);
    LongNumbers();
    FourItems(items);
  }

  lemma SuiteBytes()
    ensures var items := [UInt(18), NInt(8)];
      Encodable(Arr(items)) && Encode(Arr(items)) == [0x82, 0x12, 0x28]
  {
    assert Encodable(UInt(18)) && Encodable(NInt(8));
    hide Encode, Encodable;
    ShortForms(18, []);
    ShortForms(8, []);
    PairBytes(UInt(18), NInt(8));
  }

  lemma {:induction false} SingletonBytes(item: Item)
    requires Encodable(item)
    ensures Encodable(Arr([item])) && Encode(Arr([item])) == [0x81] + Encode(item)
  {
    assert Encodable(Arr([item])) && [item][1..] == [];
    hide Encode, EncodeAll, Encodable;
    ArrayBytes([item]);
  }

  lemma QueryRequestItem(handle: Handle, attestation: bool, tcList: bool)
    ensures var m := QueryRequest(handle, attestation, tcList);
      MessageItem(m) == Some(Arr(RequestItems(handle, (if attestation then 1 else 0) + (if tcList then 2 else 0))))
  {
    DataItemNumbers(attestation, tcList, false, false);
    hide OptionsItem, SliceItem, RequestDataItem;
  }

  lemma Joined(handle: Bytes, key: Byte, suites: Bytes, profiles: Bytes, n: Byte)
    requires suites + profiles == OFFER
    ensures [0x85] + [0x01] + ([0xA1, key, 0x58, 0x20] + handle) + suites + profiles + [n] ==
      [0x85, 0x01, 0xA1, key, 0x58, 0x20] + handle + OFFER + [n]
  {
    hide OFFER;
    var front := [0x85, 0x01, 0xA1, key, 0x58, 0x20] + handle;
    assert [0x85] + [0x01] + ([0xA1, key, 0x58, 0x20] + handle) == front;
    assert front + suites + profiles == front + (suites + profiles);
  }

  /** Any QueryRequest of the TAM, byte by byte: of an empty POST it ends in 2, the tc-list, and
      when attestation is asked for in 1. */
  lemma QueryRequestBytes(handle: Handle, attestation: bool, tcList: bool)
    requires |handle.bytes| == 32
    ensures Fits(QueryRequest(handle, attestation, tcList))
    ensures Marshal(QueryRequest(handle, attestation, tcList)) ==
      Some([0x85, 0x01, 0xA1, if handle.TokenHandle? then 0x13 else 0x02, 0x58, 0x20] + handle.bytes + OFFER
           + [(if attestation then 1 else 0) + (if tcList then 2 else 0)])
  {
    hide Encode, EncodeAll, Encodable, OptionsItem, SliceItem, MessageItem, QueryRequest, OFFER, Head;
    var n := (if attestation then 1 else 0) + (if tcList then 2 else 0);
    var items := RequestItems(handle, n);
    QueryRequestItem(handle, attestation, tcList);
    RequestEncodable(handle, n);
    FiveItems(items);
    ShortForms(1, []);
    ShortForms(n, []);
    OptionBytes(handle);
    OfferEncoded();
    Joined(handle.bytes, if handle.TokenHandle? then 0x13 else 0x02, Encode(items[2]), Encode(items[3]), n);
  }

  function RequestItems(handle: Handle, n: nat): (r: seq<Item>)
    ensures |r| == 5
  {
    [UInt(1), OptionsItem(QueryRequest(handle, false, false).options), SliceItem(SUITES, SuitesItem),
     SliceItem(PROFILES, ProfileItem), UInt(n)]
  }

  lemma RequestEncodable(handle: Handle, n: nat)
    requires |handle.bytes| == 32 && n < 24
    ensures forall i :: 0 <= i < 5 ==> Encodable(RequestItems(handle, n)[i])
  {
    hide Encode, Encodable, OptionsItem, SliceItem, QueryRequest, SuitesItem, ProfileItem, OFFER, SUITES, PROFILES;
    ShortEncodable(1);
    ShortEncodable(n);
    OptionBytes(handle);
    OfferEncoded();
  }

  lemma ShortEncodable(n: nat)
    requires n < 24
    ensures Encodable(UInt(n))
  {
  }

  lemma OfferEncoded()
    ensures Encodable(SliceItem(SUITES, SuitesItem)) && Encodable(SliceItem(PROFILES, ProfileItem))
    ensures Encode(SliceItem(SUITES, SuitesItem)) + Encode(SliceItem(PROFILES, ProfileItem)) == OFFER
  {
    hide Encode, Encodable, OFFER, SliceItem;
    OfferItems();
    OfferBytes();
  }

  lemma {:induction false} FiveItems(items: seq<Item>)
    requires |items| == 5 && forall i :: 0 <= i < 5 ==> Encodable(items[i])
    ensures Encodable(Arr(items))
    ensures Encode(Arr(items)) ==
      [0x85] + Encode(items[0]) + Encode(items[1]) + Encode(items[2]) + Encode(items[3]) + Encode(items[4])
  {
    hide Encode, EncodeAll;
    assert Encodable(Arr(items)) && Encodable(Arr(items[1..]));
    assert Encodable(Arr(items[2..])) && Encodable(Arr(items[3..]));
    assert Encodable(Arr(items[4..]));
    hide Encodable;
    assert items[1..][1..] == items[2..] && items[2..][1..] == items[3..] && items[3..][1..] == items[4..];
    assert items[4..][1..] == [];
    ArrayBytes(items);
    ArrayBytes(items[1..]);
    ArrayBytes(items[2..]);
    ArrayBytes(items[3..]);
    ArrayBytes(items[4..]);
    assert EncodeAll(items[4..]) == Encode(items[4]) + [] == Encode(items[4]);
  }

  lemma OfferItems()
    ensures SliceItem(SUITES, SuitesItem) == Arr([Arr([Arr([UInt(18), NInt(8)])])])
    ensures SliceItem(PROFILES, ProfileItem) == Arr([Arr([NInt(15), NInt(8), NInt(28), NInt(65533)])])
  {
    var suite := CipherSuite(SIGN1_TAG, ESP256);
    assert SuiteItem(suite) == Arr([UInt(18), NInt(8)]);
    assert Each([suite], SuiteItem) == [Arr([UInt(18), NInt(8)])];
    assert SuitesItem(Some([suite])) == Arr([Arr([UInt(18), NInt(8)])]);
    assert Each(SUITES.value, SuitesItem) == [Arr([Arr([UInt(18), NInt(8)])])];
    assert Each(PROFILES.value, ProfileItem) == [Arr([NInt(15), NInt(8), NInt(28), NInt(65533)])];
  }

  lemma OfferBytes()
    ensures var suites, profiles := Arr([Arr([Arr([UInt(18), NInt(8)])])]),
      Arr([Arr([NInt(15), NInt(8), NInt(28), NInt(65533)])]);
      && Encodable(suites) && Encodable(profiles) && Encode(suites) + Encode(profiles) == OFFER
  {
    hide Encode, Encodable;
    SuiteBytes();
    ProfileBytes();
    SingletonBytes(Arr([UInt(18), NInt(8)]));
    SingletonBytes(Arr([Arr([UInt(18), NInt(8)])]));
    SingletonBytes(Arr([NInt(15), NInt(8), NInt(28), NInt(65533)]));
  }

  lemma OptionBytes(handle: Handle)
    requires |handle.bytes| == 32
    ensures var key := if handle.TokenHandle? then 0x13 else 0x02;
      var options := OptionsItem(QueryRequest(handle, false, false).options);
      && Encodable(options) && Encode(options) == [0xA1, key, 0x58, 0x20] + handle.bytes
  {
    hide Encode, EncodeFields, Encodable, OptionsItem, QueryRequest;
    OnlyHandle(handle);
    OneField(if handle.TokenHandle? then 19 else 2, handle.bytes);
  }

  lemma {:induction false} OneField(key: nat, bytes: Bytes)
    requires key < 24 && |bytes| == 32
    ensures Encodable(Map([Field(key, BStr(bytes))]))
    ensures Encode(Map([Field(key, BStr(bytes))])) == [0xA1, key, 0x58, 0x20] + bytes
  {
    hide Encode, EncodeFields, Encodable;
    var fields := [Field(key, BStr(bytes))];
    LongBytes(bytes);
    FieldEncodable(key, bytes);
    assert fields[1..] == [];
    MapBytes(fields);
    assert EncodeFields(fields) == [key] + ([0x58, 0x20] + bytes) + [];
  }

  lemma {:induction false} FieldEncodable(key: nat, bytes: Bytes)
    requires key < 24 && |bytes| == 32
    ensures Encodable(Map([Field(key, BStr(bytes))]))
  {
    assert Encodable(BStr(bytes));
  }

  lemma {:induction false} KeyedNone(slots: seq<Option<Item>>, keys: seq<nat>)
    requires |slots| == |keys| && forall i :: 0 <= i < |slots| ==> slots[i].None?
    ensures Keyed(slots, keys) == []
  {
    if slots != [] { KeyedNone(slots[1..], keys[1..]); }
  }

  lemma {:induction false} KeyedOne(slots: seq<Option<Item>>, keys: seq<nat>, n: nat)
    requires |slots| == |keys| && n < |slots| && slots[n].Some?
    requires forall i :: 0 <= i < |slots| && i != n ==> slots[i].None?
    ensures Keyed(slots, keys) == [Field(keys[n], slots[n].value)]
  {
    if n == 0 {
      KeyedNone(slots[1..], keys[1..]);
    } else {
      KeyedOne(slots[1..], keys[1..], n - 1);
    }
  }

  lemma OnlyHandle(handle: Handle)
    requires |handle.bytes| == 32
    ensures OptionsItem(QueryRequest(handle, false, false).options) ==
      Map([Field(if handle.TokenHandle? then 19 else 2, BStr(handle.bytes))])
  {
    OptionKeysIncrease();
    hide Keyed, RequestDataItem, Increasing;
    KeyedOne(OptionSlots(QueryRequest(handle, false, false).options), OPTION_KEYS,
             if handle.TokenHandle? then 15 else 1);
  }

  /** A QueryRequest asks for what is remembered of it, and carries its handle and no other. */
  lemma RequestRemembers(handle: Handle, attestation: bool, tcList: bool)
    ensures var m := QueryRequest(handle, attestation, tcList);
      && m.kind == 1 && Requested(m.dataItems, 1) == attestation && Requested(m.dataItems, 2) == tcList
      && m.options.token == (if handle.TokenHandle? then Some(handle.bytes) else None)
      && m.options.challenge == (if handle.ChallengeHandle? then Some(handle.bytes) else None)
    ensures QueryRequest(handle, false, true).dataItems == 2 && QueryRequest(handle, true, false).dataItems == 1
  {
  }

  /** An empty POST is answered asking for 2, the tc-list, under a token; a sender nobody vouches
      for is asked for 1, attestation, under a challenge. */
  lemma RepliesAsk(draws: seq<Bytes>, db: Db, db': Db, outcome: Outcome)
    ensures Service.AsksTcList(draws, db, db', outcome) && outcome.QuerySent? ==>
      && Reply(outcome).Some? && var m := Reply(outcome).value;
      && m.kind == 1 && m.dataItems == 2 && m.options.token == Some(outcome.handle.bytes) && m.options.challenge.None?
    ensures Service.AsksAttestation(draws, db, db', outcome) && outcome.QuerySent? ==>
      && Reply(outcome).Some? && var m := Reply(outcome).value;
      && m.kind == 1 && m.dataItems == 1 && m.options.challenge == Some(outcome.handle.bytes) && m.options.token.None?
    ensures outcome == NoContent || outcome.Refused? ==> Reply(outcome).None?
  {
    hide Service.Draws;
    if outcome.QuerySent? { RequestRemembers(outcome.handle, outcome.attestation, outcome.tcList); }
  }

  /** An Update is type 3, with the envelopes under 9 and the token under 19. */
  lemma UpdateItem(token: Bytes, manifests: seq<Bytes>)
    requires token != [] && manifests != []
    ensures MessageItem(Update(token, manifests)) ==
      Some(Arr([UInt(3), Map([Field(9, Arr(seq(|manifests|, i requires 0 <= i < |manifests| => BStr(manifests[i])))),
                              Field(19, BStr(token))])]))
  {
    var options := Update(token, manifests).options;
    var slots := OptionSlots(options);
    OptionKeysIncrease();
    var list := Arr(seq(|manifests|, i requires 0 <= i < |manifests| => BStr(manifests[i])));
    assert Each(options.manifestList.value, ComponentPart) == list.items;
    assert slots[8] == Some(list) && slots[15] == Some(BStr(token));
    hide Keyed, Increasing;
    KeyedTwo(slots, OPTION_KEYS, 8, 15);
  }

  lemma {:induction false} KeyedTwo(slots: seq<Option<Item>>, keys: seq<nat>, m: nat, n: nat)
    requires |slots| == |keys| && m < n < |slots| && slots[m].Some? && slots[n].Some?
    requires forall i :: 0 <= i < |slots| && i != m && i != n ==> slots[i].None?
    ensures Keyed(slots, keys) == [Field(keys[m], slots[m].value), Field(keys[n], slots[n].value)]
  {
    if m == 0 {
      KeyedOne(slots[1..], keys[1..], n - 1);
    } else {
      KeyedTwo(slots[1..], keys[1..], m - 1, n - 1);
    }
  }
}
