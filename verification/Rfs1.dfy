/**
 The RFS1 canonical wire format: a schema-driven encoder of typed value trees, and the
 bounded cursor scanner that judges received bytes without re-encoding them.
 */
module Rfs1 {
  import opened Basics
  import opened Utf8

  type Bytes = seq<Byte>

  /** A field kind. Every kind the schema does not name is `Plain`, a text without further rules. */
  datatype Kind =
    | Opt(inner: Kind)
    | Nested(name: string)
    | ListOf(cap: nat, child: string)
    | U64
    | U32
    | Fixed(width: nat)
    | RawBytes
    | CustodyText
    | Code
    | Profile
    | Plain

  datatype Field = Field(name: string, id: nat, kind: Kind, maxBytes: nat)
  datatype Layout = Layout(code: nat, ceiling: nat, fields: seq<Field>)
  type Schema = map<string, Layout>

  /** The value trees callers pass to the encoder; `Nil` is the absent optional. */
  datatype Value =
    | Nil
    | Num(n: int)
    | Raw(bytes: Bytes)
    | Str(text: seq<Scalar>)
    | Record(fields: map<string, Value>)
    | Items(items: seq<Value>)

  const MAGIC: Bytes := [0x52, 0x46, 0x53, 0x31]

  function Codes(s: string): (r: seq<Scalar>)
    ensures |r| == |s|
  {
    seq(|s|, i requires 0 <= i < |s| => s[i] as int)
  }

  const PROFILE: seq<Scalar> := Codes("ramflux.dm.bootstrap.fs.v1")

  /** Unicode category Cc. */
  predicate Control(c: Scalar) {
    c < 0x20 || 0x7F <= c < 0xA0
  }

  predicate TextAllowed(k: Kind, text: seq<Scalar>) {
    match k
    case CustodyText => 0 < |Utf8.Encode(text)| <= 256 && forall c | c in text :: !Control(c)
    case Code => forall c | c in text :: !Control(c)
    case Profile => text == PROFILE
    case _ => true
  }

  // Big-endian integers

  function Power256(width: nat): (r: nat)
    ensures r > 0
  {
    if width == 0 then 1 else 256 * Power256(width - 1)
  }

  function BigEndian(n: nat, width: nat): (r: Bytes)
    ensures |r| == width
  {
    if width == 0 then [] else BigEndian(n / 256, width - 1) + [n % 256]
  }

  function FromBigEndian(b: Bytes): (n: nat) {
    if b == [] then 0 else FromBigEndian(b[..|b| - 1]) * 256 + b[|b| - 1]
  }

  lemma {:induction false} BigEndianRoundTrip(n: nat, width: nat)
    requires n < Power256(width)
    ensures FromBigEndian(BigEndian(n, width)) == n
  {
    if width > 0 {
      var high := BigEndian(n / 256, width - 1);
      BigEndianRoundTrip(n / 256, width - 1);
      assert (high + [n % 256])[..width - 1] == high;
    }
  }

  lemma {:induction false} BigEndianUnique(b: Bytes)
    ensures FromBigEndian(b) < Power256(|b|)
    ensures BigEndian(FromBigEndian(b), |b|) == b
  {
    if b != [] {
      BigEndianUnique(b[..|b| - 1]);
      assert b == b[..|b| - 1] + [b[|b| - 1]];
    }
  }

  // Encoder

  function Fields(layout: Layout, unsigned: bool): (r: seq<Field>) {
    if unsigned then WithoutSignature(layout.fields) else layout.fields
  }

  function WithoutSignature(fields: seq<Field>): (r: seq<Field>) {
    if fields == [] then []
    else (if fields[0].name == "signature" then [] else [fields[0]]) + WithoutSignature(fields[1..])
  }

  function Names(fields: seq<Field>): (r: set<string>) {
    if fields == [] then {} else {fields[0].name} + Names(fields[1..])
  }

  function Header(layout: Layout, count: nat): (r: Bytes)
    requires layout.code < 256
    ensures |r| == 8
  {
    MAGIC + [layout.code, 1] + BigEndian(count, 2)
  }

  function EncodeValue(s: Schema, k: Kind, v: Value): (r: Option<Bytes>)
    decreases v, 3, k
  {
    match k
    case Opt(inner) =>
      if v.Nil? then Some([0]) else
        (match EncodeValue(s, inner, v) case None => None case Some(b) => Some([1] + b))
    case Nested(name) => EncodeRecord(s, name, v, false)
    case ListOf(cap, child) =>
      if v.Items? && |v.items| <= cap && |v.items| < 0x1_0000 then
        (match EncodeItems(s, child, v.items) case None => None case Some(b) => Some(BigEndian(|v.items|, 2) + b))
      else None
    case U64 => if v.Num? && 0 <= v.n < Power256(8) then Some(BigEndian(v.n, 8)) else None
    case U32 => if v.Num? && 0 <= v.n < Power256(4) then Some(BigEndian(v.n, 4)) else None
    case Fixed(width) => if v.Raw? && |v.bytes| == width then Some(v.bytes) else None
    case RawBytes => if v.Raw? then Some(v.bytes) else None
    case _ => if v.Str? && TextAllowed(k, v.text) then Some(Utf8.Encode(v.text)) else None
  }

  function EncodeItems(s: Schema, child: string, items: seq<Value>): (r: Option<Bytes>)
    decreases items, 0
  {
    if items == [] then Some([]) else
      match EncodeRecord(s, child, items[0], false)
      case None => None
      case Some(b) =>
        if |b| >= 0x1_0000_0000 then None else
          match EncodeItems(s, child, items[1..])
          case None => None
          case Some(rest) => Some(BigEndian(|b|, 4) + b + rest)
  }

  function EncodeRecord(s: Schema, name: string, v: Value, unsigned: bool): (r: Option<Bytes>)
    ensures r.Some? ==> |r.value| >= 8
    decreases v, 2
  {
    if name !in s || !v.Record? then None else
      var fields := Fields(s[name], unsigned);
      if v.fields.Keys != Names(fields) || s[name].code >= 256 || |fields| >= 0x1_0000 then None else
        match EncodeFields(s, fields, v)
        case None => None
        case Some(b) => if 8 + |b| <= s[name].ceiling then Some(Header(s[name], |fields|) + b) else None
  }

  function EncodeFields(s: Schema, fields: seq<Field>, v: Value): (r: Option<Bytes>)
    requires v.Record? && Names(fields) <= v.fields.Keys
    decreases v, 1, |fields|
  {
    if fields == [] then Some([]) else
      match EncodeField(s, fields[0], v)
      case None => None
      case Some(b) => match EncodeFields(s, fields[1..], v) case None => None case Some(rest) => Some(b + rest)
  }

  function EncodeField(s: Schema, field: Field, v: Value): (r: Option<Bytes>)
    requires v.Record? && field.name in v.fields
    decreases v, 0
  {
    match EncodeValue(s, field.kind, v.fields[field.name])
    case None => None
    case Some(b) =>
      if |b| <= field.maxBytes && field.id < 0x1_0000 && |b| < 0x1_0000_0000
      then Some(BigEndian(field.id, 2) + BigEndian(|b|, 4) + b) else None
  }

  // Reference reading of the wire grammar: the tree a byte string stands for, if it is one.

  function DecodeValue(s: Schema, k: Kind, b: Bytes): (r: Option<Value>)
    decreases |b|, 3, k
  {
    match k
    case Opt(inner) =>
      if b == [] then None
      else if b[0] == 0 then (if |b| == 1 then Some(Nil) else None)
      else if b[0] == 1 then DecodeValue(s, inner, b[1..])
      else None
    case Nested(name) => DecodeRecord(s, name, b, false)
    case ListOf(cap, child) =>
      if |b| < 2 || FromBigEndian(b[..2]) > cap then None else
        (match DecodeItems(s, child, FromBigEndian(b[..2]), b[2..]) case None => None
          case Some(items) => Some(Items(items)))
    case U64 => if |b| == 8 then Some(Num(FromBigEndian(b))) else None
    case U32 => if |b| == 4 then Some(Num(FromBigEndian(b))) else None
    case Fixed(width) => if |b| == width then Some(Raw(b)) else None
    case RawBytes => Some(Raw(b))
    case _ =>
      (match Utf8.Decode(b) case None => None case Some(text) => if TextAllowed(k, text) then Some(Str(text)) else None)
  }

  /** The end of the list element at the head of `b`. */
  function ElementEnd(b: Bytes): (r: nat)
    requires |b| >= 4
    ensures r >= 4
  {
    4 + FromBigEndian(b[..4])
  }

  function DecodeItem(s: Schema, child: string, b: Bytes): (r: Option<Value>)
    ensures r.Some? ==> |b| >= 4 && ElementEnd(b) <= |b|
    decreases |b|, 1
  {
    if |b| < 4 || ElementEnd(b) > |b| then None else DecodeRecord(s, child, b[4..ElementEnd(b)], false)
  }

  function DecodeItems(s: Schema, child: string, count: nat, b: Bytes): (r: Option<seq<Value>>)
    decreases |b|, 2
  {
    if count == 0 then (if b == [] then Some([]) else None)
    else
      match DecodeItem(s, child, b)
      case None => None
      case Some(v) =>
        match DecodeItems(s, child, count - 1, b[ElementEnd(b)..])
        case None => None
        case Some(rest) => Some([v] + rest)
  }

  function DecodeRecord(s: Schema, name: string, b: Bytes, unsigned: bool): (r: Option<Value>)
    decreases |b|, 0
  {
    if name !in s || |b| > s[name].ceiling || |b| < 8 || s[name].code >= 256 then None else
      var fields := Fields(s[name], unsigned);
      if b[..6] != MAGIC + [s[name].code, 1] || FromBigEndian(b[6..8]) != |fields| then None else
        match DecodeFields(s, fields, b[8..]) case None => None case Some(m) => Some(Record(m))
  }

  /** The end of the field frame at the head of `b`. */
  function FrameEnd(b: Bytes): (r: nat)
    requires |b| >= 6
    ensures r >= 6
  {
    6 + FromBigEndian(b[2..6])
  }

  function DecodeField(s: Schema, field: Field, b: Bytes): (r: Option<Value>)
    ensures r.Some? ==> |b| >= 6 && FrameEnd(b) <= |b|
    decreases |b|, 0
  {
    if |b| < 6 || FromBigEndian(b[..2]) != field.id || FrameEnd(b) - 6 > field.maxBytes || FrameEnd(b) > |b|
    then None else DecodeValue(s, field.kind, b[6..FrameEnd(b)])
  }

  function DecodeFields(s: Schema, fields: seq<Field>, b: Bytes): (r: Option<map<string, Value>>)
    decreases |b|, 1
  {
    if fields == [] then (if b == [] then Some(map[]) else None)
    else
      match DecodeField(s, fields[0], b)
      case None => None
      case Some(v) =>
        match DecodeFields(s, fields[1..], b[FrameEnd(b)..])
        case None => None
        case Some(m) => Some(map[fields[0].name := v] + m)
  }

  /** A field's frame splits into its id, its length and its value, whatever follows. */
  lemma FrameReadsBack(id: nat, value: Bytes, rest: Bytes)
    requires id < 0x1_0000 && |value| < 0x1_0000_0000
    ensures var b := BigEndian(id, 2) + BigEndian(|value|, 4) + value + rest;
            && |b| >= 6 + |value|
            && FromBigEndian(b[..2]) == id && FromBigEndian(b[2..6]) == |value|
            && b[6..6 + |value|] == value && b[6 + |value|..] == rest
  {
    BigEndianRoundTrip(id, 2);
    BigEndianRoundTrip(|value|, 4);
    var b := BigEndian(id, 2) + BigEndian(|value|, 4) + value + rest;
    assert b[..2] == BigEndian(id, 2) && b[2..6] == BigEndian(|value|, 4);
  }

  // Every encoding reads back as the tree it came from, for every schema.

  lemma {:induction false} ReadsBackValue(s: Schema, k: Kind, v: Value)
    requires EncodeValue(s, k, v).Some?
    ensures DecodeValue(s, k, EncodeValue(s, k, v).value) == Some(v)
    decreases v, 3, k
  {
    var b := EncodeValue(s, k, v).value;
    match k
    case Opt(inner) =>
      if !v.Nil? {
        ReadsBackValue(s, inner, v);
        assert b[1..] == EncodeValue(s, inner, v).value;
      }
    case Nested(name) => ReadsBackRecord(s, name, v, false);
    case ListOf(cap, child) =>
      ReadsBackItems(s, child, v.items);
      BigEndianRoundTrip(|v.items|, 2);
      assert b[..2] == BigEndian(|v.items|, 2) && b[2..] == EncodeItems(s, child, v.items).value;
    case U64 => BigEndianRoundTrip(v.n, 8);
    case U32 => BigEndianRoundTrip(v.n, 4);
    case Fixed(_) =>
    case RawBytes =>
    case _ => Utf8.DecodeEncode(v.text);
  }

  lemma {:induction false} ReadsBackItems(s: Schema, child: string, items: seq<Value>)
    requires EncodeItems(s, child, items).Some?
    ensures DecodeItems(s, child, |items|, EncodeItems(s, child, items).value) == Some(items)
    decreases items, 0
  {
    if items != [] {
      var head, rest := EncodeRecord(s, child, items[0], false).value, EncodeItems(s, child, items[1..]).value;
      var b := EncodeItems(s, child, items).value;
      BigEndianRoundTrip(|head|, 4);
      assert b[..4] == BigEndian(|head|, 4) && b[4..4 + |head|] == head && b[4 + |head|..] == rest;
      ReadsBackRecord(s, child, items[0], false);
      ReadsBackItems(s, child, items[1..]);
      assert items == [items[0]] + items[1..];
    }
  }

  lemma {:induction false} ReadsBackRecord(s: Schema, name: string, v: Value, unsigned: bool)
    requires EncodeRecord(s, name, v, unsigned).Some?
    ensures DecodeRecord(s, name, EncodeRecord(s, name, v, unsigned).value, unsigned) == Some(v)
    decreases v, 2
  {
    var b := EncodeRecord(s, name, v, unsigned).value;
    var fields := Fields(s[name], unsigned);
    var header := Header(s[name], |fields|);
    assert b[..8] == header && b[8..] == EncodeFields(s, fields, v).value;
    assert b[..6] == b[..8][..6] == MAGIC + [s[name].code, 1];
    assert b[6..8] == b[..8][6..] == BigEndian(|fields|, 2);
    BigEndianRoundTrip(|fields|, 2);
    ReadsBackFields(s, fields, v);
    assert (map n | n in Names(fields) :: v.fields[n]) == v.fields;
  }

  lemma ReadsBackField(s: Schema, f: Field, v: Value, rest: Bytes)
    requires v.Record? && f.name in v.fields && EncodeField(s, f, v).Some?
    requires var value := v.fields[f.name]; DecodeValue(s, f.kind, EncodeValue(s, f.kind, value).value) == Some(value)
    ensures var b := EncodeField(s, f, v).value + rest;
            && |b| >= 6 && FrameEnd(b) <= |b|
            && DecodeField(s, f, b) == Some(v.fields[f.name]) && b[FrameEnd(b)..] == rest
  {
    hide EncodeValue, DecodeValue, FromBigEndian, BigEndian;
    FrameReadsBack(f.id, EncodeValue(s, f.kind, v.fields[f.name]).value, rest);
  }

  lemma {:induction false} ReadsBackFields(s: Schema, fields: seq<Field>, v: Value)
    requires v.Record? && Names(fields) <= v.fields.Keys
    requires EncodeFields(s, fields, v).Some?
    ensures DecodeFields(s, fields, EncodeFields(s, fields, v).value) == Some(map n | n in Names(fields) :: v.fields[n])
    decreases v, 1, |fields|
  {
    if fields != [] {
      var f, rest := fields[0], EncodeFields(s, fields[1..], v).value;
      var b := EncodeField(s, f, v).value + rest;
      ReadsBackValue(s, f.kind, v.fields[f.name]);
      ReadsBackField(s, f, v, rest);
      ReadsBackFields(s, fields[1..], v);
      hide EncodeField, DecodeField, EncodeValue, FromBigEndian;
      var tail := map n | n in Names(fields[1..]) :: v.fields[n];
      assert map[f.name := v.fields[f.name]] + tail == map n | n in Names(fields) :: v.fields[n];
      assert DecodeFields(s, fields, b) == Some(map[f.name := v.fields[f.name]] + tail);
    }
  }

  ghost predicate Accepts(s: Schema, k: Kind, b: Bytes) {
    DecodeValue(s, k, b).Some?
  }

  /** No byte string encodes two trees, whatever the schema. */
  lemma UniqueTree(s: Schema, name: string, v: Value, w: Value, unsigned: bool)
    requires EncodeRecord(s, name, v, unsigned).Some?
    requires EncodeRecord(s, name, v, unsigned) == EncodeRecord(s, name, w, unsigned)
    ensures v == w
  {
    ReadsBackRecord(s, name, v, unsigned);
    ReadsBackRecord(s, name, w, unsigned);
  }

  // The imperative forms: an accumulating encoder and a cursor scanner.

  method Encode(s: Schema, name: string, v: Value, unsigned: bool) returns (r: Option<Bytes>)
    ensures r == EncodeRecord(s, name, v, unsigned)
    ensures r.Some? ==> DecodeRecord(s, name, r.value, unsigned) == Some(v)
  {
    if name !in s || !v.Record? {
      return None;
    }
    var layout := s[name];
    var fields := Fields(layout, unsigned);
    if v.fields.Keys != Names(fields) || layout.code >= 256 || |fields| >= 0x1_0000 {
      return None;
    }
    var body := EncodeAll(s, fields, v);
    if body.None? || 8 + |body.value| > layout.ceiling {
      return None;
    }
    r := Some(Header(layout, |fields|) + body.value);
    ReadsBackRecord(s, name, v, unsigned);
  }

  method EncodeAll(s: Schema, fields: seq<Field>, v: Value) returns (r: Option<Bytes>)
    requires v.Record? && Names(fields) <= v.fields.Keys
    ensures r == EncodeFields(s, fields, v)
  {
    var result: Bytes := [];
    assert fields[0..] == fields;
    assert EncodeFields(s, fields, v).Some? ==>
      [] + EncodeFields(s, fields, v).value == EncodeFields(s, fields, v).value;
    for i := 0 to |fields|
      invariant Names(fields[i..]) <= v.fields.Keys
      invariant EncodeFields(s, fields, v) == Prepend(result, EncodeFields(s, fields[i..], v))
    {
      assert fields[i..][0] == fields[i] && fields[i..][1..] == fields[i + 1..];
      var field := EncodeField(s, fields[i], v);
      if field.None? {
        return None;
      }
      PrependTwice(result, field.value, EncodeFields(s, fields[i + 1..], v));
      result := result + field.value;
    }
    assert fields[|fields|..] == [] && result + [] == result;
    r := Some(result);
  }

  /** `a` before `b`, when there is a `b`. */
  function Prepend(a: Bytes, b: Option<Bytes>): (r: Option<Bytes>) {
    match b case None => None case Some(b) => Some(a + b)
  }

  lemma PrependTwice(a: Bytes, b: Bytes, c: Option<Bytes>)
    ensures Prepend(a, Prepend(b, c)) == Prepend(a + b, c)
  {
    if c.Some? {
      assert a + (b + c.value) == a + b + c.value;
    }
  }

  /** A slice of what follows a cursor is a slice of the data. */
  lemma SliceAfter(data: Bytes, pos: nat, from: nat, to: nat)
    requires pos <= |data| && from <= to <= |data| - pos
    ensures data[pos..][from..to] == data[pos + from..pos + to]
    ensures data[pos..][to..] == data[pos + to..]
  {
  }

  method Scan(s: Schema, name: string, data: Bytes, unsigned: bool) returns (ok: bool)
    ensures ok <==> DecodeRecord(s, name, data, unsigned).Some?
    decreases |data|, 0
  {
    if name !in s || |data| > s[name].ceiling || |data| < 8 || s[name].code >= 256 {
      return false;
    }
    var fields := Fields(s[name], unsigned);
    if data[..6] != MAGIC + [s[name].code, 1] || FromBigEndian(data[6..8]) != |fields| {
      return false;
    }
    ok := ScanFields(s, fields, data);
  }

  method ScanFields(s: Schema, fields: seq<Field>, data: Bytes) returns (ok: bool)
    requires |data| >= 8
    ensures ok <==> DecodeFields(s, fields, data[8..]).Some?
    decreases |data| - 1, 2
  {
    var pos := 8;
    for i := 0 to |fields|
      invariant 8 <= pos <= |data|
      invariant DecodeFields(s, fields, data[8..]).Some? <==> DecodeFields(s, fields[i..], data[pos..]).Some?
    {
      assert fields[i..][0] == fields[i] && fields[i..][1..] == fields[i + 1..];
      var good, next := ScanField(s, fields[i], data, pos);
      if !good {
        return false;
      }
      SliceAfter(data, pos, next - pos, next - pos);
      pos := next;
    }
    ok := pos == |data|;
    assert fields[|fields|..] == [];
  }

  /** One turn of the scan: the field at the cursor, and the cursor after it. */
  method ScanField(s: Schema, field: Field, data: Bytes, pos: nat) returns (ok: bool, next: nat)
    requires 8 <= pos <= |data|
    ensures ok <==> DecodeField(s, field, data[pos..]).Some?
    ensures ok ==> next == pos + FrameEnd(data[pos..]) && next <= |data|
    decreases |data| - 1, 1
  {
    next := pos;
    if |data| - pos < 6 {
      return false, pos;
    }
    var id, size := FromBigEndian(data[pos..pos + 2]), FromBigEndian(data[pos + 2..pos + 6]);
    SliceAfter(data, pos, 0, 2);
    SliceAfter(data, pos, 2, 6);
    next := pos + 6;
    if id != field.id || size > field.maxBytes || size > |data| - next {
      return false, next;
    }
    SliceAfter(data, pos, 6, 6 + size);
    ok := CheckValue(s, field.kind, data[next..next + size]);
    next := next + size;
  }

  method CheckValue(s: Schema, k: Kind, value: Bytes) returns (ok: bool)
    ensures ok <==> Accepts(s, k, value)
    decreases |value|, 1, k
  {
    match k
    case Opt(inner) =>
      if value == [] || value[0] !in {0, 1} {
        return false;
      } else if value[0] == 0 {
        return |value| == 1;
      }
      ok := CheckValue(s, inner, value[1..]);
    case Nested(name) => ok := Scan(s, name, value, false);
    case ListOf(cap, child) => ok := CheckList(s, cap, child, value);
    case U64 => ok := |value| == 8;
    case U32 => ok := |value| == 4;
    case Fixed(width) => ok := |value| == width;
    case RawBytes => ok := true;
    case _ =>
      var text := Utf8.Decode(value);
      ok := text.Some? && TextAllowed(k, text.value);
  }

  method CheckList(s: Schema, cap: nat, child: string, value: Bytes) returns (ok: bool)
    ensures ok <==> Accepts(s, ListOf(cap, child), value)
    decreases |value|, 0
  {
    if |value| < 2 {
      return false;
    }
    var count := FromBigEndian(value[..2]);
    if count > cap {
      return false;
    }
    var pos := 2;
    for i := 0 to count
      invariant 2 <= pos <= |value|
      invariant DecodeItems(s, child, count, value[2..]).Some? <==> DecodeItems(s, child, count - i, value[pos..]).Some?
    {
      var good, next := CheckElement(s, child, value, pos);
      if !good {
        return false;
      }
      SliceAfter(value, pos, next - pos, next - pos);
      pos := next;
    }
    ok := pos == |value|;
  }

  /** One turn of the list check: the element at the cursor, and the cursor after it. */
  method CheckElement(s: Schema, child: string, value: Bytes, pos: nat) returns (ok: bool, next: nat)
    requires 2 <= pos <= |value|
    ensures ok <==> DecodeItem(s, child, value[pos..]).Some?
    ensures ok ==> next == pos + ElementEnd(value[pos..]) && next <= |value|
    decreases |value| - 1, 1
  {
    next := pos;
    if |value| - pos < 4 {
      return false, pos;
    }
    var size := FromBigEndian(value[pos..pos + 4]);
    SliceAfter(value, pos, 0, 4);
    next := pos + 4;
    if size > |value| - next {
      return false, next;
    }
    SliceAfter(value, pos, 4, 4 + size);
    ok := Scan(s, child, value[next..next + size], false);
    next := next + size;
  }
}
