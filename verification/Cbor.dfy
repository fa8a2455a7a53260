/** Deterministically encoded CBOR data items (sections 3 and 4.2 of RFC 8949), as far as
    the modelled messages use them: map keys are unsigned integers. */
module Cbor {
  import opened Wrappers
  import opened Tables

  const MAX_ARGUMENT: nat := 0xFFFF_FFFF_FFFF_FFFF

  datatype Item =
    | UInt(u: nat)
    | NInt(n: nat)               // the integer -1 - n
    | BStr(b: Bytes)
    | TStr(t: Bytes)
    | Arr(items: seq<Item>)
    | Map(fields: seq<Field>)
    | False | True | Null

  datatype Field = Field(key: nat, value: Item)

  function BigEndian(n: nat, width: nat): (r: Bytes)
    ensures |r| == width
  {
    if width == 0 then [] else BigEndian(n / 256, width - 1) + [n % 256]
  }

  /** The additional information of the shortest form of an argument. */
  function Info(n: nat): (r: nat)
    ensures r < 28
  {
    if n < 24 then n else if n < 0x100 then 24 else if n < 0x1_0000 then 25 else if n < 0x1_0000_0000 then 26 else 27
  }

  /** How many bytes of argument the additional information announces. */
  function Width(info: nat): (r: nat)
    ensures r <= 8
  {
    if info == 24 then 1 else if info == 25 then 2 else if info == 26 then 4 else if info == 27 then 8 else 0
  }

  /** Initial byte and argument in their shortest form. */
  function Head(major: nat, n: nat): (r: Bytes)
    requires major < 8 && n <= MAX_ARGUMENT
    ensures |r| >= 1
  {
    [major * 32 + Info(n)] + BigEndian(n, Width(Info(n)))
  }

  predicate Encodable(item: Item)
    decreases item
  {
    match item
    case UInt(u) => u <= MAX_ARGUMENT
    case NInt(n) => n <= MAX_ARGUMENT
    case BStr(b) => |b| <= MAX_ARGUMENT
    case TStr(t) => |t| <= MAX_ARGUMENT
    case Arr(items) => |items| <= MAX_ARGUMENT && forall i :: 0 <= i < |items| ==> Encodable(items[i])
    case Map(fields) => |fields| <= MAX_ARGUMENT
        && forall i :: 0 <= i < |fields| ==> fields[i].key <= MAX_ARGUMENT && Encodable(fields[i].value)
    case _ => true
  }

  function Encode(item: Item): (r: Bytes)
    requires Encodable(item)
    ensures |r| >= 1
    decreases item
  {
    match item
    case UInt(u) => Head(0, u)
    case NInt(n) => Head(1, n)
    case BStr(b) => Head(2, |b|) + b
    case TStr(t) => Head(3, |t|) + t
    case Arr(items) => Head(4, |items|) + EncodeAll(items)
    case Map(fields) => Head(5, |fields|) + EncodeFields(fields)
    case False => [0xF4]
    case True => [0xF5]
    case Null => [0xF6]
  }

  function EncodeAll(items: seq<Item>): Bytes
    requires forall i :: 0 <= i < |items| ==> Encodable(items[i])
    decreases items
  {
    if items == [] then [] else Encode(items[0]) + EncodeAll(items[1..])
  }

  function EncodeFields(fields: seq<Field>): Bytes
    requires forall i :: 0 <= i < |fields| ==> fields[i].key <= MAX_ARGUMENT && Encodable(fields[i].value)
    decreases fields
  {
    if fields == [] then []
    else EncodeField(fields[0]) + EncodeFields(fields[1..])
  }

  function EncodeField(field: Field): Bytes
    requires field.key <= MAX_ARGUMENT && Encodable(field.value)
    decreases field
  {
    Head(0, field.key) + Encode(field.value)
  }

  // ---- decoding ----

  /** The unsigned integer in big-endian order. */
  function FromBigEndian(data: Bytes): (n: nat)
  {
    if data == [] then 0 else FromBigEndian(data[..|data| - 1]) * 256 + data[|data| - 1]
  }

  /** Major type, argument and what follows, the argument in any width. */
  function DecodeHead(data: Bytes): (r: Option<(nat, nat, Bytes)>)
    ensures r.Some? ==> r.value.0 < 8 && |r.value.2| < |data|
  {
    if data == [] then None
    else
      var major, info := data[0] as int / 32, data[0] as int % 32;
      var width := Width(info);
      if info > 27 || |data| < 1 + width then None
      else Some((major, if width == 0 then info else FromBigEndian(data[1..1 + width]), data[1 + width..]))
  }

  /** The first data item and what follows it, unless it is not one of those modelled. */
  function Decode(data: Bytes): (r: Option<(Item, Bytes)>)
    ensures r.Some? ==> |r.value.1| < |data|
    decreases |data|, 0
  {
    match DecodeHead(data)
    case None => None
    case Some((major, n, rest)) =>
      if major == 0 then Some((UInt(n), rest))
      else if major == 1 then Some((NInt(n), rest))
      else if major == 2 then if |rest| < n then None else Some((BStr(rest[..n]), rest[n..]))
      else if major == 3 then if |rest| < n || !ValidUtf8(rest[..n]) then None else Some((TStr(rest[..n]), rest[n..]))
      else if major == 4 then
        (match DecodeAll(rest, n) case None => None case Some((items, after)) => Some((Arr(items), after)))
      else if major == 5 then
        (match DecodeFields(rest, n) case None => None case Some((fields, after)) => Some((Map(fields), after)))
      else if data[0] == 0xF4 then Some((False, rest))
      else if data[0] == 0xF5 then Some((True, rest))
      else if data[0] == 0xF6 then Some((Null, rest))
      else None
  }

  function DecodeAll(data: Bytes, n: nat): (r: Option<(seq<Item>, Bytes)>)
    ensures r.Some? ==> |r.value.1| <= |data|
    decreases |data|, 1
  {
    if n == 0 then Some(([], data))
    else match Decode(data)
      case None => None
      case Some((item, rest)) =>
        match DecodeAll(rest, n - 1)
        case None => None
        case Some((items, after)) => Some(([item] + items, after))
  }

  function DecodeFields(data: Bytes, n: nat): (r: Option<(seq<Field>, Bytes)>)
    ensures r.Some? ==> |r.value.1| <= |data|
    decreases |data|, 1
  {
    if n == 0 then Some(([], data))
    else match Decode(data)
      case Some((UInt(key), middle)) =>
        (match Decode(middle)
         case None => None
         case Some((value, rest)) =>
           match DecodeFields(rest, n - 1)
           case None => None
           case Some((fields, after)) => Some(([Field(key, value)] + fields, after)))
      case _ => None
  }

  /** Exactly one data item, with nothing after it. */
  function Parse(data: Bytes): Option<Item>
  {
    match Decode(data)
    case Some((item, rest)) => if rest == [] then Some(item) else None
    case None => None
  }

  // ---- UTF-8 (section 4 of RFC 3629) ----

  predicate Continues(data: Bytes, from: nat, to: nat)
    requires from <= to <= |data|
  {
    forall i :: from <= i < to ==> 0x80 <= data[i] < 0xC0
  }

  predicate ValidUtf8(data: Bytes)
    decreases |data|
  {
    if data == [] then true
    else
      var b := data[0];
      if b < 0x80 then ValidUtf8(data[1..])
      else if 0xC2 <= b < 0xE0 then |data| >= 2 && Continues(data, 1, 2) && ValidUtf8(data[2..])
      else if 0xE0 <= b < 0xF0 then
        && |data| >= 3 && Continues(data, 1, 3)
        && (b == 0xE0 ==> data[1] >= 0xA0) && (b == 0xED ==> data[1] < 0xA0) && ValidUtf8(data[3..])
      else if 0xF0 <= b < 0xF5 then
        && |data| >= 4 && Continues(data, 1, 4)
        && (b == 0xF0 ==> data[1] >= 0x90) && (b == 0xF4 ==> data[1] < 0x90) && ValidUtf8(data[4..])
      else false
  }

  /** Every text string in the item is valid UTF-8. */
  predicate Textual(item: Item)
    decreases item
  {
    match item
    case TStr(t) => ValidUtf8(t)
    case Arr(items) => forall i :: 0 <= i < |items| ==> Textual(items[i])
    case Map(fields) => forall i :: 0 <= i < |fields| ==> Textual(fields[i].value)
    case _ => true
  }

  // ---- decoding undoes encoding ----

  lemma {:induction false} BigEndianRoundTrip(n: nat, width: nat)
    requires n < Power256(width)
    ensures FromBigEndian(BigEndian(n, width)) == n
  {
    if width > 0 {
      BigEndianRoundTrip(n / 256, width - 1);
      assert BigEndian(n, width)[..width - 1] == BigEndian(n / 256, width - 1);
    }
  }

  function Power256(width: nat): nat
  {
    if width == 0 then 1 else 256 * Power256(width - 1)
  }

  lemma PowersOf256()
    ensures Power256(1) == 0x100 && Power256(2) == 0x1_0000 && Power256(4) == 0x1_0000_0000
    ensures Power256(8) == 0x1_0000_0000_0000_0000
  {
    assert Power256(3) == 0x100_0000 && Power256(4) == 0x1_0000_0000;
    assert Power256(6) == 0x1_0000_0000_0000;
  }

  lemma InfoIsEnough(n: nat)
    requires n <= MAX_ARGUMENT
    ensures Width(Info(n)) == 0 ==> Info(n) == n
    ensures Width(Info(n)) > 0 ==> n < Power256(Width(Info(n)))
  {
    PowersOf256();
    hide Power256;
  }

  lemma InitialByte(major: nat, info: nat)
    requires major < 8 && info < 28
    ensures (major * 32 + info) / 32 == major && (major * 32 + info) % 32 == info
  {
  }

  lemma HeadRoundTrip(major: nat, n: nat, rest: Bytes)
    requires major < 8 && n <= MAX_ARGUMENT
    ensures DecodeHead(Head(major, n) + rest) == Some((major, n, rest))
  {
    hide Info, Width, FromBigEndian, Power256, BigEndian;
    var info, width := Info(n), Width(Info(n));
    var head := Head(major, n);
    var data := head + rest;
    InfoIsEnough(n);
    InitialByte(major, info);
    assert data[0] == major * 32 + info;
    if width > 0 { BigEndianRoundTrip(n, width); }
    assert data[1..1 + width] == BigEndian(n, width);
    assert data[1 + width..] == rest;
  }

  /** Decoding an encoded item and whatever follows gives both back; it fails exactly when some
      text string is not valid UTF-8. */
  lemma {:induction false} DecodeUndoesEncode(item: Item, rest: Bytes)
    requires Encodable(item)
    ensures Decode(Encode(item) + rest) == if Textual(item) then Some((item, rest)) else None
    decreases item
  {
    match item
    case UInt(u) => HeadRoundTrip(0, u, rest);
    case NInt(n) => HeadRoundTrip(1, n, rest);
    case BStr(b) => StringRoundTrip(2, b, rest);
    case TStr(t) => StringRoundTrip(3, t, rest);
    case Arr(items) =>
      DecodeUndoesEncodeAll(items, rest);
      hide Decode, DecodeAll, EncodeAll;
      ArrayRoundTrip(items, rest);
    case Map(fields) =>
      DecodeUndoesEncodeFields(fields, rest);
      hide Decode, DecodeFields, EncodeFields;
      MapRoundTrip(fields, rest);
    case False => SimpleRoundTrip(20, rest);
    case True => SimpleRoundTrip(21, rest);
    case Null => SimpleRoundTrip(22, rest);
  }

  lemma ArrayRoundTrip(items: seq<Item>, rest: Bytes)
    requires Encodable(Arr(items))
    ensures Decode(Encode(Arr(items)) + rest) ==
      match DecodeAll(EncodeAll(items) + rest, |items|)
      case None => None
      case Some((read, after)) => Some((Arr(read), after))
  {
    HeadRoundTrip(4, |items|, EncodeAll(items) + rest);
    ArrayUnfolds(items);
    hide Encode, Encodable, EncodeAll, Head;
    assert Encode(Arr(items)) + rest == Head(4, |items|) + (EncodeAll(items) + rest);
    hide DecodeAll, DecodeFields, DecodeHead, ValidUtf8;
  }

  lemma ArrayUnfolds(items: seq<Item>)
    requires Encodable(Arr(items))
    ensures |items| <= MAX_ARGUMENT && Encode(Arr(items)) == Head(4, |items|) + EncodeAll(items)
  {
    hide Head;
  }

  lemma {:induction false} MapRoundTrip(fields: seq<Field>, rest: Bytes)
    requires Encodable(Map(fields))
    ensures Decode(Encode(Map(fields)) + rest) ==
      match DecodeFields(EncodeFields(fields) + rest, |fields|)
      case None => None
      case Some((read, after)) => Some((Map(read), after))
  {
    HeadRoundTrip(5, |fields|, EncodeFields(fields) + rest);
    MapUnfolds(fields);
    hide Encode, Encodable, EncodeFields, Head;
    assert Encode(Map(fields)) + rest == Head(5, |fields|) + (EncodeFields(fields) + rest);
    hide DecodeAll, DecodeFields, DecodeHead, ValidUtf8;
  }

  lemma MapUnfolds(fields: seq<Field>)
    requires Encodable(Map(fields))
    ensures |fields| <= MAX_ARGUMENT && Encode(Map(fields)) == Head(5, |fields|) + EncodeFields(fields)
  {
    hide Head;
  }

  lemma SimpleRoundTrip(n: nat, rest: Bytes)
    requires 20 <= n < 23
    ensures Decode([224 + n] + rest) == Some((if n == 20 then False else if n == 21 then True else Null, rest))
  {
    HeadRoundTrip(7, n, rest);
    assert Head(7, n) == [224 + n] + BigEndian(n, 0) && BigEndian(n, 0) == [];
    assert ([224 + n] + rest)[0] == 224 + n;
  }

  lemma StringRoundTrip(major: nat, b: Bytes, rest: Bytes)
    requires (major == 2 || major == 3) && |b| <= MAX_ARGUMENT
    ensures Decode(Head(major, |b|) + b + rest) ==
      if major == 2 then Some((BStr(b), rest)) else if ValidUtf8(b) then Some((TStr(b), rest)) else None
  {
    HeadRoundTrip(major, |b|, b + rest);
    assert Head(major, |b|) + b + rest == Head(major, |b|) + (b + rest);
    assert (b + rest)[..|b|] == b && (b + rest)[|b|..] == rest;
    hide ValidUtf8, DecodeHead, Head;
  }

  ghost predicate AllTextual(items: seq<Item>)
  {
    forall i :: 0 <= i < |items| ==> Textual(items[i])
  }

  lemma AllTextualUnfolds(items: seq<Item>)
    requires items != []
    ensures AllTextual(items) <==> Textual(items[0]) && AllTextual(items[1..])
  {
    hide Textual;
    assert forall i :: 0 < i < |items| ==> items[i] == items[1..][i - 1];
  }

  lemma DecodeAllUnfolds(data: Bytes, n: nat)
    ensures n == 0 ==> DecodeAll(data, n) == Some(([], data))
    ensures n > 0 && Decode(data).None? ==> DecodeAll(data, n).None?
    ensures n > 0 && Decode(data).Some? ==>
      DecodeAll(data, n) ==
        match DecodeAll(Decode(data).value.1, n - 1)
        case None => None
        case Some((items, after)) => Some(([Decode(data).value.0] + items, after))
  {
    hide Decode;
  }

  lemma EncodeAllUnfolds(items: seq<Item>)
    requires forall i :: 0 <= i < |items| ==> Encodable(items[i])
    ensures items == [] ==> EncodeAll(items) == []
    ensures items != [] ==> EncodeAll(items) == Encode(items[0]) + EncodeAll(items[1..])
  {
    hide Encode, Encodable;
  }

  lemma {:induction false} DecodeUndoesEncodeAll(items: seq<Item>, rest: Bytes)
    requires forall i :: 0 <= i < |items| ==> Encodable(items[i])
    ensures DecodeAll(EncodeAll(items) + rest, |items|) == if AllTextual(items) then Some((items, rest)) else None
    decreases items
  {
    hide Decode, DecodeAll, Encode, EncodeAll, Textual, Encodable;
    DecodeAllUnfolds(EncodeAll(items) + rest, |items|);
    EncodeAllUnfolds(items);
    if items == [] {
      assert EncodeAll(items) + rest == rest;
    } else {
      var tail := items[1..];
      assert forall i :: 0 <= i < |tail| ==> Encodable(tail[i]);
      DecodeUndoesEncode(items[0], EncodeAll(tail) + rest);
      DecodeUndoesEncodeAll(tail, rest);
      AllTextualUnfolds(items);
      hide AllTextual;
      assert EncodeAll(items) + rest == Encode(items[0]) + (EncodeAll(tail) + rest);
      assert items == [items[0]] + tail;
    }
  }

  ghost predicate FieldsTextual(fields: seq<Field>)
  {
    forall i :: 0 <= i < |fields| ==> Textual(fields[i].value)
  }

  lemma FieldsTextualUnfolds(fields: seq<Field>)
    requires fields != []
    ensures FieldsTextual(fields) <==> Textual(fields[0].value) && FieldsTextual(fields[1..])
  {
    hide Textual;
    assert forall i :: 0 < i < |fields| ==> fields[i] == fields[1..][i - 1];
  }

  lemma DecodeFieldsUnfolds(data: Bytes, n: nat)
    ensures n == 0 ==> DecodeFields(data, n) == Some(([], data))
    ensures n > 0 && Decode(data).Some? && Decode(data).value.0.UInt? ==>
      DecodeFields(data, n) ==
        match Decode(Decode(data).value.1)
        case None => None
        case Some((value, rest)) =>
          match DecodeFields(rest, n - 1)
          case None => None
          case Some((fields, after)) => Some(([Field(Decode(data).value.0.u, value)] + fields, after))
  {
    hide Decode;
  }

  lemma EncodeFieldsUnfolds(fields: seq<Field>)
    requires forall i :: 0 <= i < |fields| ==> fields[i].key <= MAX_ARGUMENT && Encodable(fields[i].value)
    ensures fields == [] ==> EncodeFields(fields) == []
    ensures fields != [] ==>
      EncodeFields(fields) == Head(0, fields[0].key) + Encode(fields[0].value) + EncodeFields(fields[1..])
  {
    hide Encode, Head, Encodable;
  }

  lemma {:induction false} DecodeUndoesEncodeFields(fields: seq<Field>, rest: Bytes)
    requires forall i :: 0 <= i < |fields| ==> fields[i].key <= MAX_ARGUMENT && Encodable(fields[i].value)
    ensures DecodeFields(EncodeFields(fields) + rest, |fields|) ==
      if FieldsTextual(fields) then Some((fields, rest)) else None
    decreases fields
  {
    hide Decode, DecodeFields, Encode, EncodeFields, Textual, Encodable, Head;
    DecodeFieldsUnfolds(EncodeFields(fields) + rest, |fields|);
    EncodeFieldsUnfolds(fields);
    if fields == [] {
      assert EncodeFields(fields) + rest == rest;
    } else {
      var first, tail := fields[0], fields[1..];
      assert forall i :: 0 <= i < |tail| ==> tail[i].key <= MAX_ARGUMENT && Encodable(tail[i].value);
      var after := EncodeFields(tail) + rest;
      KeyRoundTrip(first.key, Encode(first.value) + after);
      DecodeUndoesEncodeField(first, after);
      DecodeUndoesEncodeFields(tail, rest);
      FieldsTextualUnfolds(fields);
      hide FieldsTextual;
      assert EncodeFields(fields) + rest == Head(0, first.key) + (Encode(first.value) + after);
      assert fields == [first] + tail;
    }
  }

  lemma {:induction false} DecodeUndoesEncodeField(field: Field, rest: Bytes)
    requires Encodable(field.value)
    ensures Decode(Encode(field.value) + rest) == if Textual(field.value) then Some((field.value, rest)) else None
    decreases field
  {
    DecodeUndoesEncode(field.value, rest);
  }

  lemma KeyRoundTrip(key: nat, rest: Bytes)
    requires key <= MAX_ARGUMENT
    ensures Decode(Head(0, key) + rest) == Some((UInt(key), rest))
  {
    HeadRoundTrip(0, key, rest);
  }

  /** Parsing an encoding gives the item back, unless some text string is not valid UTF-8. */
  lemma ParseUndoesEncode(item: Item)
    requires Encodable(item)
    ensures Parse(Encode(item)) == if Textual(item) then Some(item) else None
  {
    DecodeUndoesEncode(item, []);
    assert Encode(item) + [] == Encode(item);
  }

  // ---- no encoding begins another ----

  function Major(item: Item): (r: nat)
    ensures r < 8
  {
    match item
    case UInt(_) => 0
    case NInt(_) => 1
    case BStr(_) => 2
    case TStr(_) => 3
    case Arr(_) => 4
    case Map(_) => 5
    case _ => 7
  }

  function Argument(item: Item): (r: nat)
    requires Encodable(item)
    ensures r <= MAX_ARGUMENT
  {
    match item
    case UInt(u) => u
    case NInt(n) => n
    case BStr(b) => |b|
    case TStr(t) => |t|
    case Arr(items) => |items|
    case Map(fields) => |fields|
    case False => 20
    case True => 21
    case Null => 22
  }

  function Body(item: Item): Bytes
    requires Encodable(item)
  {
    match item
    case BStr(b) => b
    case TStr(t) => t
    case Arr(items) => EncodeAll(items)
    case Map(fields) => EncodeFields(fields)
    case _ => []
  }

  lemma EncodeShape(item: Item)
    requires Encodable(item)
    ensures Encode(item) == Head(Major(item), Argument(item)) + Body(item)
  {
    hide EncodeAll, EncodeFields;
    if Major(item) == 7 {
      assert BigEndian(Argument(item), 0) == [];
      assert Head(7, Argument(item)) == [224 + Argument(item)];
    }
  }

  /** Encodings with something after them are equal only if their heads are, and then the rest. */
  lemma {:induction false} SameHead(a: Item, b: Item, x: Bytes, y: Bytes)
    requires Encodable(a) && Encodable(b) && Encode(a) + x == Encode(b) + y
    ensures Major(a) == Major(b) && Argument(a) == Argument(b) && Body(a) + x == Body(b) + y
  {
    EncodeShape(a);
    EncodeShape(b);
    hide Encode, Major, Argument, Body, Head, DecodeHead, Encodable;
    assert Encode(a) + x == Head(Major(a), Argument(a)) + (Body(a) + x);
    assert Encode(b) + y == Head(Major(b), Argument(b)) + (Body(b) + y);
    HeadRoundTrip(Major(a), Argument(a), Body(a) + x);
    HeadRoundTrip(Major(b), Argument(b), Body(b) + y);
  }

  lemma SameStart(a: Bytes, b: Bytes, x: Bytes, y: Bytes)
    requires |a| == |b| && a + x == b + y
    ensures a == b && x == y
  {
    assert a == (a + x)[..|a|] && b == (b + y)[..|b|] && x == (a + x)[|a|..] && y == (b + y)[|b|..];
  }

  /** No encoding begins another, text of any bytes included: what follows an item tells
      nothing about where it ends. */
  lemma {:induction false} EncodeIsPrefixFree(a: Item, b: Item, x: Bytes, y: Bytes)
    requires Encodable(a) && Encodable(b) && Encode(a) + x == Encode(b) + y
    ensures a == b && x == y
    decreases a
  {
    SameHead(a, b, x, y);
    hide Encode, EncodeAll, EncodeFields, Head;
    match a
    case BStr(s) => SameStart(s, b.b, x, y);
    case TStr(s) => SameStart(s, b.t, x, y);
    case Arr(items) => EncodeAllIsPrefixFree(items, b.items, x, y);
    case Map(fields) => EncodeFieldsIsPrefixFree(fields, b.fields, x, y);
    case _ => assert Body(a) + x == x && Body(b) + y == y;
  }

  lemma {:induction false} EncodeAllIsPrefixFree(a: seq<Item>, b: seq<Item>, x: Bytes, y: Bytes)
    requires |a| == |b|
    requires forall i :: 0 <= i < |a| ==> Encodable(a[i])
    requires forall i :: 0 <= i < |b| ==> Encodable(b[i])
    requires EncodeAll(a) + x == EncodeAll(b) + y
    ensures a == b && x == y
    decreases a
  {
    hide Encode, EncodeAll, Encodable;
    EncodeAllUnfolds(a);
    EncodeAllUnfolds(b);
    if a == [] {
      assert EncodeAll(a) + x == x && EncodeAll(b) + y == y;
    } else {
      var rest, other := EncodeAll(a[1..]) + x, EncodeAll(b[1..]) + y;
      assert EncodeAll(a) + x == Encode(a[0]) + rest;
      assert EncodeAll(b) + y == Encode(b[0]) + other;
      EncodeIsPrefixFree(a[0], b[0], rest, other);
      EncodeAllIsPrefixFree(a[1..], b[1..], x, y);
      assert a == [a[0]] + a[1..] && b == [b[0]] + b[1..];
    }
  }

  lemma {:induction false} EncodeFieldsIsPrefixFree(a: seq<Field>, b: seq<Field>, x: Bytes, y: Bytes)
    requires |a| == |b|
    requires forall i :: 0 <= i < |a| ==> a[i].key <= MAX_ARGUMENT && Encodable(a[i].value)
    requires forall i :: 0 <= i < |b| ==> b[i].key <= MAX_ARGUMENT && Encodable(b[i].value)
    requires EncodeFields(a) + x == EncodeFields(b) + y
    ensures a == b && x == y
    decreases a
  {
    hide Encode, EncodeFields, Encodable, Head;
    EncodeFieldsUnfolds(a);
    EncodeFieldsUnfolds(b);
    if a == [] {
      assert EncodeFields(a) + x == x && EncodeFields(b) + y == y;
    } else {
      var rest, other := EncodeFields(a[1..]) + x, EncodeFields(b[1..]) + y;
      assert EncodeFields(a) + x == Head(0, a[0].key) + (Encode(a[0].value) + rest);
      assert EncodeFields(b) + y == Head(0, b[0].key) + (Encode(b[0].value) + other);
      HeadRoundTrip(0, a[0].key, Encode(a[0].value) + rest);
      HeadRoundTrip(0, b[0].key, Encode(b[0].value) + other);
      FieldIsPrefixFree(a[0], b[0], rest, other);
      EncodeFieldsIsPrefixFree(a[1..], b[1..], x, y);
      assert a == [a[0]] + a[1..] && b == [b[0]] + b[1..];
    }
  }

  lemma {:induction false} FieldIsPrefixFree(a: Field, b: Field, x: Bytes, y: Bytes)
    requires Encodable(a.value) && Encodable(b.value) && Encode(a.value) + x == Encode(b.value) + y
    ensures a.value == b.value && x == y
    decreases a
  {
    EncodeIsPrefixFree(a.value, b.value, x, y);
  }

  /** Every item has one encoding, and different items have different ones. */
  lemma EncodeIsInjective(a: Item, b: Item)
    requires Encodable(a) && Encodable(b) && Encode(a) == Encode(b)
    ensures a == b
  {
    EncodeIsPrefixFree(a, b, [], []);
  }

  // ---- the bytes themselves (section 3 of RFC 8949) ----

  lemma HeadBytes(major: nat, n: nat)
    requires major < 8 && n < 0x100
    ensures Head(major, n) == if n < 24 then [major * 32 + n] else [major * 32 + 24, n]
  {
    if n < 24 {
      assert BigEndian(n, 0) == [];
    } else {
      assert BigEndian(n, 1) == BigEndian(n / 256, 0) + [n % 256];
    }
  }

  /** The argument takes the fewest of 0, 1, 2, 4 or 8 bytes that hold it, the most significant
      first. */
  lemma LongHeadBytes(major: nat, n: nat)
    requires major < 8 && 24 <= n <= MAX_ARGUMENT
    ensures n < 0x100 ==> Head(major, n)[0] == major * 32 + 24 && |Head(major, n)| == 2
    ensures 0x100 <= n < 0x1_0000 ==> Head(major, n)[0] == major * 32 + 25 && |Head(major, n)| == 3
    ensures 0x1_0000 <= n < 0x1_0000_0000 ==> Head(major, n)[0] == major * 32 + 26 && |Head(major, n)| == 5
    ensures 0x1_0000_0000 <= n ==> Head(major, n)[0] == major * 32 + 27 && |Head(major, n)| == 9
    ensures FromBigEndian(Head(major, n)[1..]) == n
  {
    InfoIsEnough(n);
    BigEndianRoundTrip(n, Width(Info(n)));
    hide FromBigEndian, Power256, BigEndian;
    assert Head(major, n)[1..] == BigEndian(n, Width(Info(n)));
  }

  /** A head may be decoded from more bytes than it needs. */
  lemma LongHeads(major: nat, a: Byte, b: Byte, c: Byte, d: Byte, rest: Bytes)
    requires major < 8
    ensures DecodeHead([major * 32 + 24, a] + rest) == Some((major, a, rest))
    ensures DecodeHead([major * 32 + 25, a, b] + rest) == Some((major, a * 0x100 + b, rest))
    ensures DecodeHead([major * 32 + 26, a, b, c, d] + rest) ==
      Some((major, a * 0x100_0000 + b * 0x1_0000 + c * 0x100 + d, rest))
  {
    hide FromBigEndian;
    HeadOf(major, 24, [a], rest);
    HeadOf(major, 25, [a, b], rest);
    HeadOf(major, 26, [a, b, c, d], rest);
    hide DecodeHead;
    assert [major * 32 + 24] + [a] + rest == [major * 32 + 24, a] + rest;
    assert [major * 32 + 25] + [a, b] + rest == [major * 32 + 25, a, b] + rest;
    assert [major * 32 + 26] + [a, b, c, d] + rest == [major * 32 + 26, a, b, c, d] + rest;
    FromFour(a, b, c, d);
  }

  lemma HeadOf(major: nat, info: nat, argument: Bytes, rest: Bytes)
    requires major < 8 && 24 <= info < 28 && |argument| == Width(info)
    ensures DecodeHead([major * 32 + info] + argument + rest) == Some((major, FromBigEndian(argument), rest))
  {
    var data := [major * 32 + info] + argument + rest;
    InitialByte(major, info);
    assert data[1..1 + |argument|] == argument && data[1 + |argument|..] == rest;
    hide FromBigEndian;
  }

  lemma FromFour(a: Byte, b: Byte, c: Byte, d: Byte)
    ensures FromBigEndian([a]) == a && FromBigEndian([a, b]) == a * 0x100 + b
    ensures FromBigEndian([a, b, c, d]) == a * 0x100_0000 + b * 0x1_0000 + c * 0x100 + d
  {
    assert [a][..0] == [] && [a, b][..1] == [a] && [a, b, c][..2] == [a, b] && [a, b, c, d][..3] == [a, b, c];
    assert FromBigEndian([a, b, c]) == FromBigEndian([a, b]) * 0x100 + c;
  }

  /** The initial bytes of the item types, and the simple values. */
  lemma ShortForms(n: nat, b: Bytes)
    requires n < 24 && |b| < 24
    ensures Encode(UInt(n)) == [n] && Encode(NInt(n)) == [0x20 + n]
    ensures Encode(BStr(b)) == [0x40 + |b|] + b && Encode(TStr(b)) == [0x60 + |b|] + b
    ensures Encode(Arr([])) == [0x80] && Encode(Map([])) == [0xA0]
    ensures Encode(False) == [0xF4] && Encode(True) == [0xF5] && Encode(Null) == [0xF6]
  {
    HeadBytes(0, n);
    HeadBytes(1, n);
    HeadBytes(2, |b|);
    HeadBytes(3, |b|);
    HeadBytes(4, 0);
    HeadBytes(5, 0);
    hide Head;
  }

  /** Arrays are their length and then their items, one after the other. */
  lemma {:induction false} ArrayBytes(items: seq<Item>)
    requires Encodable(Arr(items)) && |items| < 24
    ensures Encode(Arr(items)) == [0x80 + |items|] + EncodeAll(items)
    ensures items != [] ==> EncodeAll(items) == Encode(items[0]) + EncodeAll(items[1..])
    ensures EncodeAll([]) == []
  {
    hide Head, Encode, Encodable, EncodeAll;
    ArrayUnfolds(items);
    EncodableParts(items);
    EncodeAllUnfolds(items);
    EncodeAllUnfolds([]);
    HeadBytes(4, |items|);
  }

  lemma EncodableParts(items: seq<Item>)
    requires Encodable(Arr(items))
    ensures |items| <= MAX_ARGUMENT && forall i :: 0 <= i < |items| ==> Encodable(items[i])
  {
  }

  lemma EncodableFields(fields: seq<Field>)
    requires Encodable(Map(fields))
    ensures |fields| <= MAX_ARGUMENT
    ensures forall i :: 0 <= i < |fields| ==> fields[i].key <= MAX_ARGUMENT && Encodable(fields[i].value)
  {
  }

  /** Maps are their length and then their fields, each key before its value. */
  lemma {:induction false} MapBytes(fields: seq<Field>)
    requires Encodable(Map(fields)) && |fields| < 24
    ensures Encode(Map(fields)) == [0xA0 + |fields|] + EncodeFields(fields)
    ensures fields != [] && fields[0].key < 24 ==>
      EncodeFields(fields) == [fields[0].key] + Encode(fields[0].value) + EncodeFields(fields[1..])
    ensures EncodeFields([]) == []
  {
    hide Head, Encode, Encodable, EncodeFields;
    MapUnfolds(fields);
    EncodableFields(fields);
    EncodeFieldsUnfolds(fields);
    EncodeFieldsUnfolds([]);
    HeadBytes(5, |fields|);
    if fields != [] && fields[0].key < 24 { HeadBytes(0, fields[0].key); }
  }

  /** Exactly one item, and nothing after it. */
  lemma {:induction false} ParseTakesAll(item: Item, rest: Bytes)
    requires Encodable(item)
    ensures Parse(Encode(item) + rest) == if Textual(item) && rest == [] then Some(item) else None
  {
    DecodeUndoesEncode(item, rest);
    hide Encode, Decode, Encodable, Textual;
  }

  // ---- component identifiers ----

  /** A SUIT component identifier as the program holds it: a slice, or no slice at all,
      of byte strings any of which may also be missing. */
  type ComponentId = id: Option<seq<Option<Bytes>>> | FitsComponent(id) witness None

  predicate FitsComponent(id: Option<seq<Option<Bytes>>>)
  {
    match id
    case None => true
    case Some(parts) =>
      && |parts| <= MAX_ARGUMENT
      && forall i :: 0 <= i < |parts| && parts[i].Some? ==> |parts[i].value| <= MAX_ARGUMENT
  }

  function ComponentPart(part: Option<Bytes>): Item
  {
    match part case None => Null case Some(b) => BStr(b)
  }

  function ComponentItem(id: ComponentId): Item
  {
    match id
    case None => Null
    case Some(parts) => Arr(seq(|parts|, i requires 0 <= i < |parts| => ComponentPart(parts[i])))
  }

  /** The store key of a component. */
  function ComponentKey(id: ComponentId): Bytes
  {
    Encode(ComponentItem(id))
  }

  function ComponentOf(item: Item): Option<Option<seq<Option<Bytes>>>>
  {
    match item
    case Null => Some(None)
    case Arr(items) =>
      if forall i :: 0 <= i < |items| ==> items[i].Null? || items[i].BStr? then
        Some(Some(seq(|items|, i requires 0 <= i < |items| => if items[i].BStr? then Some(items[i].b) else None)))
      else None
    case _ => None
  }

  /** A component's store key decodes back to the component, so different components never
      share a key: not a missing part and an empty one, nor a missing and an empty list. */
  lemma ComponentKeyDecodes(id: ComponentId)
    ensures Encodable(ComponentItem(id))
    ensures Parse(ComponentKey(id)).Some? && ComponentOf(Parse(ComponentKey(id)).value) == Some(id)
  {
    var item := ComponentItem(id);
    assert id.Some? ==> forall i :: 0 <= i < |item.items| ==> Encodable(item.items[i]) && Textual(item.items[i]);
    assert Encodable(item) && Textual(item);
    ParseUndoesEncode(item);
    hide Encode, Parse, Encodable, Textual;
    ComponentReads(id);
  }

  lemma ComponentReads(id: ComponentId)
    ensures ComponentOf(ComponentItem(id)) == Some(id)
  {
    var item := ComponentItem(id);
    if id.Some? {
      var parts := id.value;
      var read := ComponentOf(item);
      assert |read.value.value| == |parts|;
      assert forall i :: 0 <= i < |parts| ==> read.value.value[i] == parts[i];
      assert read.value.value == parts;
    }
  }

  /** A missing component is null; a missing part is null, a present one its bytes. */
  lemma ComponentBytes(b: Bytes)
    requires |b| < 24
    ensures ComponentKey(None) == [0xF6] && ComponentKey(Some([])) == [0x80]
    ensures ComponentKey(Some([Some(b), None])) == [0x82, 0x40 + |b|] + b + [0xF6]
  {
    ShortForms(0, b);
    assert ComponentItem(Some([])) == Arr([]);
    assert ComponentItem(Some([Some(b), None])) == Arr([BStr(b), Null]);
    hide Encode, EncodeAll, Encodable, ComponentItem;
    ShortEncodable(b);
    PairBytes(BStr(b), Null);
  }

  lemma {:induction false} ShortEncodable(b: Bytes)
    requires |b| < 24
    ensures Encodable(BStr(b)) && Encodable(Null)
  {
  }

  lemma {:induction false} PairBytes(a: Item, b: Item)
    requires Encodable(a) && Encodable(b)
    ensures Encodable(Arr([a, b])) && Encode(Arr([a, b])) == [0x82] + Encode(a) + Encode(b)
  {
    assert Encodable(Arr([a, b])) && Encodable(Arr([b]));
    hide Encode, EncodeAll, Encodable;
    ArrayBytes([a, b]);
    ArrayBytes([b]);
    assert [a, b][1..] == [b] && [b][1..] == [];
    assert EncodeAll([a, b]) == Encode(a) + (Encode(b) + []);
  }

  /** A digest or a handle travels behind two bytes. */
  lemma {:induction false} LongBytes(b: Bytes)
    requires |b| == 32
    ensures Encodable(BStr(b)) && Encode(BStr(b)) == [0x58, 0x20] + b
  {
    hide Head;
    assert Encodable(BStr(b));
    assert Encode(BStr(b)) == Head(2, 32) + b;
    hide Encode, Encodable;
    HeadBytes(2, 32);
  }

  lemma ComponentKeysAreDistinct(a: ComponentId, b: ComponentId)
    requires ComponentKey(a) == ComponentKey(b)
    ensures a == b
  {
    ComponentKeyDecodes(a);
    ComponentKeyDecodes(b);
  }
}
