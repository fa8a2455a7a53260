/**
 What counts as text: the sequences of Unicode scalar values, each in its one UTF-8 form
 (section 3 of RFC 3629).
 */
module Utf8 {
  import opened Tables
  import opened Cbor

  type Scalar = c: int | 0 <= c < 0xD800 || 0xE000 <= c < 0x11_0000

  function Form(c: Scalar): (r: Bytes)
    ensures 1 <= |r| <= 4
  {
    if c < 0x80 then [c]
    else if c < 0x800 then [0xC0 + c / 64, 0x80 + c % 64]
    else if c < 0x1_0000 then [0xE0 + c / 4096, 0x80 + c / 64 % 64, 0x80 + c % 64]
    else [0xF0 + c / 262_144, 0x80 + c / 4096 % 64, 0x80 + c / 64 % 64, 0x80 + c % 64]
  }

  function Text(scalars: seq<Scalar>): Bytes
  {
    if scalars == [] then [] else Form(scalars[0]) + Text(scalars[1..])
  }

  /** A text string is accepted exactly if it is some sequence of scalar values in this form. */
  lemma TextExactly(data: Bytes)
    ensures ValidUtf8(data) <==> exists scalars: seq<Scalar> :: Text(scalars) == data
  {
    if ValidUtf8(data) { var _ := Read(data); }
    forall scalars: seq<Scalar> | Text(scalars) == data ensures ValidUtf8(data) { TextIsValid(scalars); }
  }

  lemma {:induction false} TextIsValid(scalars: seq<Scalar>)
    ensures ValidUtf8(Text(scalars))
  {
    if scalars != [] {
      TextIsValid(scalars[1..]);
      FormIsValid(scalars[0], Text(scalars[1..]));
    }
  }

  lemma FormIsValid(c: Scalar, rest: Bytes)
    requires ValidUtf8(rest)
    ensures ValidUtf8(Form(c) + rest)
  {
    hide ValidUtf8;
    var data := Form(c);
    if c < 0x80 {
      OneThenText(data[0], rest);
    } else if c < 0x800 {
      TwoThenText(data[0], data[1], rest);
      hide Form;
      assert data == [data[0], data[1]];
    } else if c < 0x1_0000 {
      ThreeThenText(data[0], data[1], data[2], rest);
      hide Form;
      assert data == [data[0], data[1], data[2]];
    } else {
      FourThenText(data[0], data[1], data[2], data[3], rest);
      hide Form;
      assert data == [data[0], data[1], data[2], data[3]];
    }
  }

  lemma OneThenText(b: Byte, rest: Bytes)
    requires b < 0x80 && ValidUtf8(rest)
    ensures ValidUtf8([b] + rest)
  {
    assert ([b] + rest)[1..] == rest;
  }

  lemma TwoThenText(b: Byte, x: Byte, rest: Bytes)
    requires 0xC2 <= b < 0xE0 && 0x80 <= x < 0xC0 && ValidUtf8(rest)
    ensures ValidUtf8([b, x] + rest)
  {
    assert ([b, x] + rest)[2..] == rest;
  }

  lemma ThreeThenText(b: Byte, x: Byte, y: Byte, rest: Bytes)
    requires 0xE0 <= b < 0xF0 && 0x80 <= x < 0xC0 && 0x80 <= y < 0xC0 && ValidUtf8(rest)
    requires (b == 0xE0 ==> x >= 0xA0) && (b == 0xED ==> x < 0xA0)
    ensures ValidUtf8([b, x, y] + rest)
  {
    assert ([b, x, y] + rest)[3..] == rest;
  }

  lemma FourThenText(b: Byte, x: Byte, y: Byte, z: Byte, rest: Bytes)
    requires 0xF0 <= b < 0xF5 && 0x80 <= x < 0xC0 && 0x80 <= y < 0xC0 && 0x80 <= z < 0xC0 && ValidUtf8(rest)
    requires (b == 0xF0 ==> x >= 0x90) && (b == 0xF4 ==> x < 0x90)
    ensures ValidUtf8([b, x, y, z] + rest)
  {
    assert ([b, x, y, z] + rest)[4..] == rest;
  }

  lemma TwoBytes(b: Byte, x: Byte)
    requires 0xC2 <= b < 0xE0 && 0x80 <= x < 0xC0
    ensures Form((b as int - 0xC0) * 64 + (x as int - 0x80)) == [b, x]
  {
  }

  lemma ThreeBytes(b: Byte, x: Byte, y: Byte)
    requires 0xE0 <= b < 0xF0 && 0x80 <= x < 0xC0 && 0x80 <= y < 0xC0
    requires (b == 0xE0 ==> x >= 0xA0) && (b == 0xED ==> x < 0xA0)
    ensures var c := (b as int - 0xE0) * 4096 + (x as int - 0x80) * 64 + (y as int - 0x80);
      && (0x800 <= c < 0xD800 || 0xE000 <= c < 0x1_0000)
      && Form(c) == [b, x, y]
  {
    var high, low := b as int - 0xE0, (x as int - 0x80) * 64 + (y as int - 0x80);
    assert (high * 4096 + low) / 64 == high * 64 + (x as int - 0x80);
  }

  lemma FourBytes(b: Byte, x: Byte, y: Byte, z: Byte)
    requires 0xF0 <= b < 0xF5 && 0x80 <= x < 0xC0 && 0x80 <= y < 0xC0 && 0x80 <= z < 0xC0
    requires (b == 0xF0 ==> x >= 0x90) && (b == 0xF4 ==> x < 0x90)
    ensures
      var c :=
        (b as int - 0xF0) * 262_144 + (x as int - 0x80) * 4096 + (y as int - 0x80) * 64 + (z as int - 0x80);
      0x1_0000 <= c < 0x11_0000 && Form(c) == [b, x, y, z]
  {
    var high, low := b as int - 0xF0, x as int - 0x80;
    var c := high * 262_144 + low * 4096 + (y as int - 0x80) * 64 + (z as int - 0x80);
    assert c / 64 == high * 4096 + low * 64 + (y as int - 0x80);
    assert c / 4096 == high * 64 + low;
  }

  /** The scalar value valid text begins with. */
  lemma First(data: Bytes) returns (c: Scalar)
    requires data != [] && ValidUtf8(data)
    ensures Form(c) <= data && ValidUtf8(data[|Form(c)|..])
  {
    hide Form;
    var b: int := data[0];
    if b < 0x80 {
      c := b;
      OneByte(data[0]);
    } else if b < 0xE0 {
      c := (b - 0xC0) * 64 + (data[1] as int - 0x80);
      TwoBytes(data[0], data[1]);
    } else if b < 0xF0 {
      ThreeBytes(data[0], data[1], data[2]);
      c := (b - 0xE0) * 4096 + (data[1] as int - 0x80) * 64 + (data[2] as int - 0x80);
    } else {
      FourBytes(data[0], data[1], data[2], data[3]);
      c := (b - 0xF0) * 262_144 + (data[1] as int - 0x80) * 4096 + (data[2] as int - 0x80) * 64
           + (data[3] as int - 0x80);
    }
  }

  lemma OneByte(b: Byte)
    requires b < 0x80
    ensures Form(b) == [b]
  {
  }

  lemma {:induction false} Read(data: Bytes) returns (scalars: seq<Scalar>)
    requires ValidUtf8(data)
    ensures Text(scalars) == data
    decreases |data|
  {
    if data == [] {
      return [];
    }
    var c := First(data);
    var rest := Read(data[|Form(c)|..]);
    scalars := [c] + rest;
    hide ValidUtf8, Form;
    assert scalars[1..] == rest && data == data[..|Form(c)|] + data[|Form(c)|..];
  }
}
