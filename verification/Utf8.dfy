/**
 UTF-8 as section 3 of RFC 3629 defines it, with strict decoding, and the character
 boundaries on which a string slice may be cut.
 */
module Utf8 {
  import opened Basics

  /** A Unicode scalar value: a code point that is not a surrogate. */
  type Scalar = c: int | 0 <= c < 0xD800 || 0xE000 <= c < 0x110000

  /** One decoded scalar and the number of bytes it took. */
  datatype First = First(scalar: Scalar, width: nat)

  predicate Continuation(b: Byte) {
    0x80 <= b < 0xC0
  }

  /** The six payload bits of a continuation byte. */
  function Payload(b: Byte): (r: int)
    ensures Continuation(b) ==> 0 <= r < 64
  {
    b - 0x80
  }

  function EncodeScalar(c: Scalar): (r: seq<Byte>)
    ensures 1 <= |r| <= 4
    ensures !Continuation(r[0])
    ensures forall i :: 1 <= i < |r| ==> Continuation(r[i])
  {
    var u: int, v: int, w: int := c / 64, c / 64 / 64, c / 64 / 64 / 64;
    if c < 0x80 then [c]
    else if c < 0x800 then [0xC0 + u, 0x80 + c % 64]
    else if c < 0x10000 then [0xE0 + v, 0x80 + u % 64, 0x80 + c % 64]
    else [0xF0 + w, 0x80 + v % 64, 0x80 + u % 64, 0x80 + c % 64]
  }

  /** Strict decoding of the first scalar: overlong forms, surrogates and truncation are refused. */
  function DecodeFirst(b: seq<Byte>): (r: Option<First>)
    ensures r.Some? ==> 1 <= r.value.width <= 4 && r.value.width <= |b|
  {
    if |b| == 0 then None
    else
      var lead: int := b[0];
      if lead < 0x80 then Some(First(lead, 1))
      else if 0xC2 <= lead < 0xE0 && |b| >= 2 && Continuation(b[1]) then
        Some(First((lead - 0xC0) * 64 + Payload(b[1]), 2))
      else if 0xE0 <= lead < 0xF0 && |b| >= 3 && Continuation(b[1]) && Continuation(b[2]) then
        var c := ((lead - 0xE0) * 64 + Payload(b[1])) * 64 + Payload(b[2]);
        if 0x800 <= c < 0xD800 || 0xE000 <= c then Some(First(c, 3)) else None
      else if 0xF0 <= lead < 0xF5 && |b| >= 4 && Continuation(b[1]) && Continuation(b[2]) && Continuation(b[3]) then
        var c := (((lead - 0xF0) * 64 + Payload(b[1])) * 64 + Payload(b[2])) * 64 + Payload(b[3]);
        if 0x10000 <= c < 0x110000 then Some(First(c, 4)) else None
      else None
  }

  function Encode(text: seq<Scalar>): (r: seq<Byte>) {
    if text == [] then [] else EncodeScalar(text[0]) + Encode(text[1..])
  }

  function Decode(b: seq<Byte>): (r: Option<seq<Scalar>>) {
    if b == [] then Some([]) else
      match DecodeFirst(b)
      case None => None
      case Some(f) =>
        match Decode(b[f.width..])
        case None => None
        case Some(rest) => Some([f.scalar] + rest)
  }

  predicate Valid(b: seq<Byte>) {
    Decode(b).Some?
  }

  /** A scalar's bytes decode back to it, whatever follows them. */
  lemma FirstOfEncoded(c: Scalar, rest: seq<Byte>)
    ensures DecodeFirst(EncodeScalar(c) + rest) == Some(First(c, |EncodeScalar(c)|))
  {
    var e := EncodeScalar(c);
    var b := e + rest;
    assert b[0] == e[0];
    if |e| >= 2 { assert b[1] == e[1]; }
    if |e| >= 3 { assert b[2] == e[2]; }
    if |e| >= 4 { assert b[3] == e[3]; }
  }

  /** Decoding is strict: the bytes consumed are the only encoding of the scalar produced. */
  lemma EncodedFirst(b: seq<Byte>)
    requires DecodeFirst(b).Some?
    ensures var f := DecodeFirst(b).value; b[..f.width] == EncodeScalar(f.scalar)
    ensures var f := DecodeFirst(b).value; b == EncodeScalar(f.scalar) + b[f.width..]
  {
    var f := DecodeFirst(b).value;
    if f.width == 2 {
      assert f.scalar / 64 == b[0] - 0xC0;
    } else if f.width == 3 {
      assert f.scalar / 64 == (b[0] - 0xE0) * 64 + Payload(b[1]);
      assert f.scalar / 64 / 64 == b[0] - 0xE0;
    } else if f.width == 4 {
      var u: int := ((b[0] - 0xF0) * 64 + Payload(b[1])) * 64 + Payload(b[2]);
      assert f.scalar / 64 == u;
      assert u / 64 == (b[0] - 0xF0) * 64 + Payload(b[1]);
      assert u / 64 / 64 == b[0] - 0xF0;
    }
  }

  lemma {:induction false} DecodeEncode(text: seq<Scalar>)
    ensures Decode(Encode(text)) == Some(text)
  {
    hide EncodeScalar, DecodeFirst;
    if text != [] {
      var head, tail := EncodeScalar(text[0]), Encode(text[1..]);
      FirstOfEncoded(text[0], tail);
      assert (head + tail)[|head|..] == tail;
      DecodeEncode(text[1..]);
      assert text == [text[0]] + text[1..];
    }
  }

  lemma EncodeCons(c: Scalar, rest: seq<Scalar>)
    ensures Encode([c] + rest) == EncodeScalar(c) + Encode(rest)
  {
    assert ([c] + rest)[1..] == rest;
  }

  lemma {:induction false} EncodeDecode(b: seq<Byte>)
    requires Valid(b)
    ensures Encode(Decode(b).value) == b
  {
    if b != [] {
      var f := DecodeFirst(b).value;
      var tail := b[f.width..];
      EncodedFirst(b);
      EncodeDecode(tail);
      EncodeCons(f.scalar, Decode(tail).value);
    }
  }

  /** Where a string slice may start or end: at either end, or before a byte that leads a scalar. */
  predicate Boundary(b: seq<Byte>, i: nat)
    requires i <= |b|
  {
    i == 0 || i == |b| || !Continuation(b[i])
  }

  /** A valid string that extends a valid prefix extends it by a valid string. */
  lemma {:induction false} SuffixValid(b: seq<Byte>, p: seq<Byte>)
    requires Valid(b) && Valid(p) && p <= b
    ensures Valid(b[|p|..])
    decreases |b|
  {
    if p == [] {
      assert b[0..] == b;
    } else {
      var f := DecodeFirst(p).value;
      EncodedFirst(p);
      assert b == EncodeScalar(f.scalar) + b[f.width..];
      FirstOfEncoded(f.scalar, b[f.width..]);
      SuffixValid(b[f.width..], p[f.width..]);
      hide DecodeFirst, EncodeScalar;
      assert b[f.width..][|p| - f.width..] == b[|p|..];
    }
  }

  lemma {:induction false} ConcatValid(a: seq<Byte>, b: seq<Byte>)
    requires Valid(a) && Valid(b)
    ensures Valid(a + b)
    decreases |a|
  {
    if a == [] {
      assert a + b == b;
    } else {
      var f := DecodeFirst(a).value;
      EncodedFirst(a);
      assert a == EncodeScalar(f.scalar) + a[f.width..];
      assert a + b == EncodeScalar(f.scalar) + (a[f.width..] + b);
      FirstOfEncoded(f.scalar, a[f.width..] + b);
      assert (a + b)[f.width..] == a[f.width..] + b;
      ConcatValid(a[f.width..], b);
    }
  }

  /** The first scalar's bytes are one leading byte and continuation bytes. */
  lemma FirstBytes(b: seq<Byte>)
    requires DecodeFirst(b).Some?
    ensures !Continuation(b[0])
    ensures forall j :: 1 <= j < DecodeFirst(b).value.width ==> Continuation(b[j])
  {
  }

  lemma BoundaryAfterFirst(b: seq<Byte>, i: nat)
    requires DecodeFirst(b).Some? && 0 < i <= |b| && Boundary(b, i)
    ensures i >= DecodeFirst(b).value.width
  {
    FirstBytes(b);
  }

  lemma FirstValid(b: seq<Byte>)
    requires DecodeFirst(b).Some?
    ensures Valid(b[..DecodeFirst(b).value.width])
  {
    var f := DecodeFirst(b).value;
    EncodedFirst(b);
    FirstOfEncoded(f.scalar, []);
    assert EncodeScalar(f.scalar) + [] == EncodeScalar(f.scalar);
  }

  lemma JoinSlices(b: seq<Byte>, w: nat, i: nat)
    requires w <= i <= |b|
    requires Valid(b[..w]) && Valid(b[w..][..i - w]) && Valid(b[w..][i - w..])
    ensures Valid(b[..i]) && Valid(b[i..])
  {
    ConcatValid(b[..w], b[w..][..i - w]);
    assert b[w..][i - w..] == b[i..] && b[..w] + b[w..][..i - w] == b[..i];
  }

  /** Cutting a valid string at a boundary gives two valid strings. */
  lemma {:induction false} CutAtBoundary(b: seq<Byte>, i: nat)
    requires Valid(b) && i <= |b| && Boundary(b, i)
    ensures Valid(b[..i]) && Valid(b[i..])
    decreases |b|
  {
    if i == 0 {
      assert b[0..] == b && b[..0] == [];
    } else {
      var w := DecodeFirst(b).value.width;
      var tail := b[w..];
      BoundaryAfterFirst(b, i);
      CutAtBoundary(tail, i - w);
      FirstValid(b);
      JoinSlices(b, w, i);
    }
  }

  /** No scalar is wider than four bytes, so one of any four consecutive positions is a boundary. */
  lemma {:induction false} BoundaryNear(b: seq<Byte>, i: nat)
    requires Valid(b) && i <= |b|
    ensures exists j :: i - 3 <= j <= i && 0 <= j && Boundary(b, j)
    decreases |b|
  {
    if i <= 3 {
      assert Boundary(b, 0);
    } else {
      var f := DecodeFirst(b).value;
      BoundaryNear(b[f.width..], i - f.width);
      var j :| i - f.width - 3 <= j <= i - f.width && 0 <= j && Boundary(b[f.width..], j);
      if j == 0 && f.width < |b| {
        FirstBytes(b[f.width..]);
      }
      assert Boundary(b, j + f.width);
    }
  }
}
