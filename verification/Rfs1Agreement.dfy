/**
 Where the RFS1 scanner and encoder agree: for every schema and every byte string, exactly on the
 bytes in which no optional holds, as present, an absent optional.
 */
module Rfs1Agreement {
  import opened Basics
  import opened Utf8
  import opened Rfs1

  // Which accepted byte strings are encodings

  /** Absence is not encodable inside an optional that is itself optional. */
  predicate NestedOptional(k: Kind) {
    k.Opt? && k.inner.Opt?
  }

  /** Nowhere in these bytes does an optional hold, as present, an absent optional. */
  predicate CleanValue(s: Schema, k: Kind, b: Bytes)
    decreases |b|, 3, k
  {
    match k
    case Opt(inner) => b != [] && b[0] == 1 ==> !(inner.Opt? && b[1..] == [0]) && CleanValue(s, inner, b[1..])
    case Nested(name) => CleanRecord(s, name, b, false)
    case ListOf(_, child) => |b| >= 2 ==> CleanItems(s, child, FromBigEndian(b[..2]), b[2..])
    case _ => true
  }

  predicate CleanItems(s: Schema, child: string, count: nat, b: Bytes)
    decreases |b|, 2
  {
    count > 0 && |b| >= 4 && ElementEnd(b) <= |b| ==>
      CleanRecord(s, child, b[4..ElementEnd(b)], false) && CleanItems(s, child, count - 1, b[ElementEnd(b)..])
  }

  predicate CleanRecord(s: Schema, name: string, b: Bytes, unsigned: bool)
    decreases |b|, 0
  {
    name in s && |b| >= 8 ==> CleanFields(s, Fields(s[name], unsigned), b[8..])
  }

  predicate CleanFields(s: Schema, fields: seq<Field>, b: Bytes)
    decreases |b|, 1
  {
    fields != [] && |b| >= 6 && FrameEnd(b) <= |b| ==>
      CleanValue(s, fields[0].kind, b[6..FrameEnd(b)]) && CleanFields(s, fields[1..], b[FrameEnd(b)..])
  }

  predicate DistinctNames(fields: seq<Field>) {
    forall i, j :: 0 <= i < j < |fields| ==> fields[i].name != fields[j].name
  }

  /** The types a kind refers to are among `types`. */
  predicate RefersInto(k: Kind, types: set<string>) {
    match k
    case Opt(inner) => RefersInto(inner, types)
    case Nested(name) => name in types
    case ListOf(_, child) => child in types
    case _ => true
  }

  predicate FieldsOk(fields: seq<Field>, types: set<string>) {
    DistinctNames(fields) && forall f | f in fields :: RefersInto(f.kind, types)
  }

  /** A set of types that refer to no others, each with distinct field names. */
  predicate Closed(s: Schema, types: set<string>) {
    forall name | name in types && name in s :: FieldsOk(s[name].fields, types)
  }

  /** None of these types has an optional directly inside an optional. */
  predicate NoNested(s: Schema, types: set<string>) {
    forall name, f | name in types && name in s && f in s[name].fields :: !NestedOptional(f.kind)
  }

  lemma {:induction false} NamesContain(fields: seq<Field>)
    ensures forall i :: 0 <= i < |fields| ==> fields[i].name in Names(fields)
    ensures forall n :: n in Names(fields) ==> exists i :: 0 <= i < |fields| && fields[i].name == n
  {
    if fields != [] {
      NamesContain(fields[1..]);
      forall n | n in Names(fields) ensures exists i :: 0 <= i < |fields| && fields[i].name == n {
        if n != fields[0].name {
          var i :| 0 <= i < |fields[1..]| && fields[1..][i].name == n;
          assert fields[i + 1].name == n;
        } else {
          assert fields[0].name == n;
        }
      }
    }
  }

  lemma {:induction false} WithoutSignatureOk(fields: seq<Field>, types: set<string>)
    requires FieldsOk(fields, types)
    ensures FieldsOk(WithoutSignature(fields), types)
    ensures forall f | f in WithoutSignature(fields) :: f in fields
  {
    if fields != [] {
      WithoutSignatureOk(fields[1..], types);
      var rest := WithoutSignature(fields[1..]);
      assert forall f | f in rest :: f.name != fields[0].name;
      assert WithoutSignature(fields) == rest || WithoutSignature(fields) == [fields[0]] + rest;
    }
  }

  lemma Power256Values()
    ensures Power256(2) == 0x1_0000 && Power256(4) == 0x1_0000_0000
  {
    assert Power256(1) == 256;
    assert Power256(3) == 256 * Power256(2);
  }

  /** A framed field is the frame of its own id, length and value. */
  lemma FrameWritesBack(b: Bytes)
    requires |b| >= 6 && FromBigEndian(b[2..6]) <= |b| - 6
    ensures var id, size := FromBigEndian(b[..2]), FromBigEndian(b[2..6]);
            && id < 0x1_0000 && size < 0x1_0000_0000
            && b == BigEndian(id, 2) + BigEndian(size, 4) + b[6..6 + size] + b[6 + size..]
  {
    var size := FromBigEndian(b[2..6]);
    Power256Values();
    BigEndianUnique(b[..2]);
    BigEndianUnique(b[2..6]);
    assert b == b[..2] + b[2..6] + b[6..6 + size] + b[6 + size..];
  }

  lemma {:induction false} WritesBackList(s: Schema, types: set<string>, cap: nat, child: string, b: Bytes)
    requires Closed(s, types) && child in types && CleanValue(s, ListOf(cap, child), b)
    requires DecodeValue(s, ListOf(cap, child), b).Some?
    ensures EncodeValue(s, ListOf(cap, child), DecodeValue(s, ListOf(cap, child), b).value) == Some(b)
    decreases |b|, 0
  {
    Power256Values();
    BigEndianUnique(b[..2]);
    WritesBackItems(s, types, child, FromBigEndian(b[..2]), b[2..]);
    assert b == b[..2] + b[2..];
  }

  lemma WritesBackScalar(s: Schema, k: Kind, b: Bytes)
    requires !k.Opt? && !k.Nested? && !k.ListOf?
    requires DecodeValue(s, k, b).Some?
    ensures EncodeValue(s, k, DecodeValue(s, k, b).value) == Some(b)
  {
    if k.U64? || k.U32? {
      BigEndianUnique(b);
    } else if !k.Fixed? && !k.RawBytes? {
      Utf8.EncodeDecode(b);
    }
  }

  lemma {:induction false} WritesBackValue(s: Schema, types: set<string>, k: Kind, b: Bytes)
    requires Closed(s, types) && RefersInto(k, types) && CleanValue(s, k, b)
    requires DecodeValue(s, k, b).Some?
    ensures EncodeValue(s, k, DecodeValue(s, k, b).value) == Some(b)
    ensures DecodeValue(s, k, b).value.Nil? ==> k.Opt? && b == [0]
    decreases |b|, 1, k
  {
    match k
    case Opt(inner) =>
      if b[0] == 1 {
        WritesBackValue(s, types, inner, b[1..]);
        assert b == [1] + b[1..];
      } else {
        assert b == [0];
      }
    case Nested(name) => WritesBackRecord(s, types, name, b, false);
    case ListOf(cap, child) => WritesBackList(s, types, cap, child, b);
    case _ => WritesBackScalar(s, k, b);
  }

  lemma ElementWritesBack(b: Bytes)
    requires |b| >= 4 && FromBigEndian(b[..4]) <= |b| - 4
    ensures var size := FromBigEndian(b[..4]);
            size < 0x1_0000_0000 && b == BigEndian(size, 4) + b[4..4 + size] + b[4 + size..]
  {
    Power256Values();
    BigEndianUnique(b[..4]);
  }

  lemma HeaderWritesBack(layout: Layout, count: nat, b: Bytes)
    requires layout.code < 256 && |b| >= 8
    requires b[..6] == MAGIC + [layout.code, 1] && FromBigEndian(b[6..8]) == count
    ensures count < 0x1_0000 && b == Header(layout, count) + b[8..]
  {
    Power256Values();
    BigEndianUnique(b[6..8]);
    assert b == b[..6] + b[6..8] + b[8..];
  }

  lemma {:induction false} WritesBackItems(s: Schema, types: set<string>, child: string, count: nat, b: Bytes)
    requires Closed(s, types) && child in types && CleanItems(s, child, count, b)
    requires DecodeItems(s, child, count, b).Some?
    ensures |DecodeItems(s, child, count, b).value| == count
    ensures EncodeItems(s, child, DecodeItems(s, child, count, b).value) == Some(b)
    decreases |b|
  {
    if count > 0 {
      var head, tail := b[4..ElementEnd(b)], b[ElementEnd(b)..];
      ElementWritesBack(b);
      WritesBackRecord(s, types, child, head, false);
      WritesBackItems(s, types, child, count - 1, tail);
      var items := DecodeItems(s, child, count, b).value;
      assert items[1..] == DecodeItems(s, child, count - 1, tail).value;
    }
  }

  /** Whatever decodes cleanly is the encoding of the result. */
  lemma {:induction false} WritesBackRecord(s: Schema, types: set<string>, name: string, b: Bytes, unsigned: bool)
    requires Closed(s, types) && name in types && CleanRecord(s, name, b, unsigned)
    requires DecodeRecord(s, name, b, unsigned).Some?
    ensures EncodeRecord(s, name, DecodeRecord(s, name, b, unsigned).value, unsigned) == Some(b)
    decreases |b|, 0
  {
    var fields := Fields(s[name], unsigned);
    WithoutSignatureOk(s[name].fields, types);
    HeaderWritesBack(s[name], |fields|, b);
    var rest := b[8..];
    DecodedNames(s, fields, rest);
    WritesBackFields(s, types, fields, rest, DecodeRecord(s, name, b, unsigned).value);
  }

  lemma {:induction false} DecodedNames(s: Schema, fields: seq<Field>, b: Bytes)
    requires DecodeFields(s, fields, b).Some?
    ensures DecodeFields(s, fields, b).value.Keys == Names(fields)
    decreases |b|
  {
    if fields != [] {
      DecodedNames(s, fields[1..], b[FrameEnd(b)..]);
    }
  }

  lemma FirstApart(fields: seq<Field>, types: set<string>)
    requires FieldsOk(fields, types) && fields != []
    ensures fields[0].name !in Names(fields[1..])
    ensures FieldsOk(fields[1..], types) && RefersInto(fields[0].kind, types)
  {
    NamesContain(fields[1..]);
  }

  lemma {:induction false} WritesBackFields(s: Schema, types: set<string>, fields: seq<Field>, b: Bytes, v: Value)
    requires Closed(s, types) && FieldsOk(fields, types) && CleanFields(s, fields, b)
    requires DecodeFields(s, fields, b).Some?
    requires v.Record? && Agrees(DecodeFields(s, fields, b).value, v.fields)
    ensures Names(fields) <= v.fields.Keys
    ensures EncodeFields(s, fields, v) == Some(b)
    decreases |b|, 1
  {
    DecodedNames(s, fields, b);
    if fields != [] {
      var cut := FrameEnd(b);
      FirstApart(fields, types);
      var tail := b[cut..];
      DecodedNames(s, fields[1..], tail);
      WritesBackField(s, types, fields[0], b, v);
      WritesBackFields(s, types, fields[1..], tail, v);
      JoinFields(s, fields, b, cut, v);
    }
  }

  lemma JoinFields(s: Schema, fields: seq<Field>, b: Bytes, cut: nat, v: Value)
    requires fields != [] && cut <= |b| && v.Record? && Names(fields) <= v.fields.Keys
    requires EncodeField(s, fields[0], v) == Some(b[..cut])
    requires EncodeFields(s, fields[1..], v) == Some(b[cut..])
    ensures EncodeFields(s, fields, v) == Some(b)
  {
    assert b == b[..cut] + b[cut..];
  }

  lemma {:induction false} WritesBackField(s: Schema, types: set<string>, f: Field, b: Bytes, v: Value)
    requires Closed(s, types) && RefersInto(f.kind, types)
    requires v.Record? && f.name in v.fields
    requires DecodeField(s, f, b) == Some(v.fields[f.name]) && CleanValue(s, f.kind, b[6..FrameEnd(b)])
    ensures EncodeField(s, f, v) == Some(b[..FrameEnd(b)])
    decreases |b|, 0
  {
    WritesBackValue(s, types, f.kind, b[6..FrameEnd(b)]);
    FrameWritesBack(b);
  }

  predicate Agrees(part: map<string, Value>, whole: map<string, Value>) {
    forall n | n in part :: n in whole && whole[n] == part[n]
  }

  ghost predicate EncodableRecord(s: Schema, name: string, b: Bytes, unsigned: bool) {
    exists v :: EncodeRecord(s, name, v, unsigned) == Some(b)
  }

  // Every encoding is clean.

  lemma {:induction false} EncodedCleanValue(s: Schema, k: Kind, v: Value)
    requires EncodeValue(s, k, v).Some?
    ensures CleanValue(s, k, EncodeValue(s, k, v).value)
    decreases v, 3, k
  {
    var b := EncodeValue(s, k, v).value;
    match k
    case Opt(inner) =>
      if !v.Nil? {
        EncodedCleanValue(s, inner, v);
        assert b[1..] == EncodeValue(s, inner, v).value;
      }
    case Nested(name) => EncodedCleanRecord(s, name, v, false);
    case ListOf(cap, child) =>
      EncodedCleanItems(s, child, v.items);
      BigEndianRoundTrip(|v.items|, 2);
      assert b[..2] == BigEndian(|v.items|, 2) && b[2..] == EncodeItems(s, child, v.items).value;
    case _ =>
  }

  lemma {:induction false} EncodedCleanItems(s: Schema, child: string, items: seq<Value>)
    requires EncodeItems(s, child, items).Some?
    ensures CleanItems(s, child, |items|, EncodeItems(s, child, items).value)
    decreases items, 0
  {
    if items != [] {
      var head, rest := EncodeRecord(s, child, items[0], false).value, EncodeItems(s, child, items[1..]).value;
      var b := EncodeItems(s, child, items).value;
      BigEndianRoundTrip(|head|, 4);
      assert b[..4] == BigEndian(|head|, 4) && b[4..4 + |head|] == head && b[4 + |head|..] == rest;
      EncodedCleanRecord(s, child, items[0], false);
      EncodedCleanItems(s, child, items[1..]);
    }
  }

  lemma {:induction false} EncodedCleanRecord(s: Schema, name: string, v: Value, unsigned: bool)
    requires EncodeRecord(s, name, v, unsigned).Some?
    ensures CleanRecord(s, name, EncodeRecord(s, name, v, unsigned).value, unsigned)
    decreases v, 2
  {
    var b := EncodeRecord(s, name, v, unsigned).value;
    var fields := Fields(s[name], unsigned);
    EncodedCleanFields(s, fields, v);
    assert b[8..] == EncodeFields(s, fields, v).value;
  }

  lemma {:induction false} EncodedCleanFields(s: Schema, fields: seq<Field>, v: Value)
    requires v.Record? && Names(fields) <= v.fields.Keys && EncodeFields(s, fields, v).Some?
    ensures CleanFields(s, fields, EncodeFields(s, fields, v).value)
    decreases v, 1, |fields|
  {
    if fields != [] {
      var f := fields[0];
      var head, rest := EncodeValue(s, f.kind, v.fields[f.name]).value, EncodeFields(s, fields[1..], v).value;
      FrameReadsBack(f.id, head, rest);
      EncodedCleanValue(s, f.kind, v.fields[f.name]);
      EncodedCleanFields(s, fields[1..], v);
    }
  }

  /**
   For every schema and every byte string: it is an encoding exactly when the scanner's grammar
   accepts it and it is clean. `types` is any set with the type and all it refers to.
   */
  lemma EncodableIff(s: Schema, types: set<string>, name: string, b: Bytes, unsigned: bool)
    requires Closed(s, types) && name in types
    ensures EncodableRecord(s, name, b, unsigned) <==>
            DecodeRecord(s, name, b, unsigned).Some? && CleanRecord(s, name, b, unsigned)
  {
    if DecodeRecord(s, name, b, unsigned).Some? && CleanRecord(s, name, b, unsigned) {
      WritesBackRecord(s, types, name, b, unsigned);
    }
    if EncodableRecord(s, name, b, unsigned) {
      var v :| EncodeRecord(s, name, v, unsigned) == Some(b);
      ReadsBackRecord(s, name, v, unsigned);
      EncodedCleanRecord(s, name, v, unsigned);
    }
  }

  // Without nested optionals all bytes are clean.

  lemma {:induction false} FlatCleanValue(s: Schema, types: set<string>, k: Kind, b: Bytes)
    requires Closed(s, types) && NoNested(s, types) && RefersInto(k, types) && !NestedOptional(k)
    ensures CleanValue(s, k, b)
    decreases |b|, 3, k
  {
    match k
    case Opt(inner) =>
      if b != [] && b[0] == 1 {
        FlatCleanValue(s, types, inner, b[1..]);
      }
    case Nested(name) => FlatCleanRecord(s, types, name, b, false);
    case ListOf(_, child) =>
      if |b| >= 2 {
        FlatCleanItems(s, types, child, FromBigEndian(b[..2]), b[2..]);
      }
    case _ =>
  }

  lemma {:induction false} FlatCleanItems(s: Schema, types: set<string>, child: string, count: nat, b: Bytes)
    requires Closed(s, types) && NoNested(s, types) && child in types
    ensures CleanItems(s, child, count, b)
    decreases |b|, 2
  {
    if count > 0 && |b| >= 4 && ElementEnd(b) <= |b| {
      FlatCleanRecord(s, types, child, b[4..ElementEnd(b)], false);
      FlatCleanItems(s, types, child, count - 1, b[ElementEnd(b)..]);
    }
  }

  lemma {:induction false} FlatCleanRecord(s: Schema, types: set<string>, name: string, b: Bytes, unsigned: bool)
    requires Closed(s, types) && NoNested(s, types) && name in types
    ensures CleanRecord(s, name, b, unsigned)
    decreases |b|, 0
  {
    if name in s && |b| >= 8 {
      WithoutSignatureOk(s[name].fields, types);
      FlatCleanFields(s, types, Fields(s[name], unsigned), b[8..]);
    }
  }

  lemma {:induction false} FlatCleanFields(s: Schema, types: set<string>, fields: seq<Field>, b: Bytes)
    requires Closed(s, types) && NoNested(s, types)
    requires forall f | f in fields :: RefersInto(f.kind, types) && !NestedOptional(f.kind)
    ensures CleanFields(s, fields, b)
    decreases |b|, 1
  {
    if fields != [] && |b| >= 6 && FrameEnd(b) <= |b| {
      FlatCleanValue(s, types, fields[0].kind, b[6..FrameEnd(b)]);
      FlatCleanFields(s, types, fields[1..], b[FrameEnd(b)..]);
    }
  }

  /** Where no type within reach has an optional optional, the grammar accepts exactly the encodings. */
  lemma RecordAgreement(s: Schema, types: set<string>, name: string, b: Bytes, unsigned: bool)
    requires Closed(s, types) && NoNested(s, types) && name in types
    ensures DecodeRecord(s, name, b, unsigned).Some? <==> EncodableRecord(s, name, b, unsigned)
  {
    EncodableIff(s, types, name, b, unsigned);
    FlatCleanRecord(s, types, name, b, unsigned);
  }

  // With a nested optional that can be present there are accepted bytes that are no encoding.

  /** Somewhere in the tree an optional optional is present. */
  predicate DeepValue(s: Schema, k: Kind, v: Value)
    decreases v, 3, k
  {
    match k
    case Opt(inner) => !v.Nil? && (inner.Opt? || DeepValue(s, inner, v))
    case Nested(name) => DeepRecord(s, name, v, false)
    case ListOf(_, child) => v.Items? && DeepItems(s, child, v.items)
    case _ => false
  }

  predicate DeepItems(s: Schema, child: string, items: seq<Value>)
    decreases items, 0
  {
    items != [] && (DeepRecord(s, child, items[0], false) || DeepItems(s, child, items[1..]))
  }

  predicate DeepRecord(s: Schema, name: string, v: Value, unsigned: bool)
    decreases v, 2
  {
    name in s && v.Record? && DeepFields(s, Fields(s[name], unsigned), v)
  }

  predicate DeepFields(s: Schema, fields: seq<Field>, v: Value)
    requires v.Record?
    decreases v, 1, |fields|
  {
    fields != [] &&
    ((fields[0].name in v.fields && DeepValue(s, fields[0].kind, v.fields[fields[0].name]))
      || DeepFields(s, fields[1..], v))
  }

  /** Bytes that pass and are not clean, no longer than the encoding they come from. */
  lemma {:induction false} SpoilValue(s: Schema, k: Kind, v: Value) returns (b: Bytes)
    requires EncodeValue(s, k, v).Some? && DeepValue(s, k, v)
    ensures Accepts(s, k, b) && !CleanValue(s, k, b) && |b| <= |EncodeValue(s, k, v).value|
    decreases v, 3, k
  {
    match k
    case Opt(inner) =>
      if inner.Opt? {
        b := [1, 0];
        assert b[1..] == [0];
      } else {
        var c := SpoilValue(s, inner, v);
        b := [1] + c;
        assert b[1..] == c;
      }
    case Nested(name) => b := SpoilRecord(s, name, v, false);
    case ListOf(cap, child) =>
      var c := SpoilItems(s, child, v.items);
      b := BigEndian(|v.items|, 2) + c;
      BigEndianRoundTrip(|v.items|, 2);
      assert b[..2] == BigEndian(|v.items|, 2) && b[2..] == c;
  }

  lemma SpoiledItem(s: Schema, child: string, count: nat, head: Bytes, rest: Bytes)
    requires count > 0 && |head| < 0x1_0000_0000
    requires DecodeRecord(s, child, head, false).Some? && DecodeItems(s, child, count - 1, rest).Some?
    requires !CleanRecord(s, child, head, false) || !CleanItems(s, child, count - 1, rest)
    ensures var b := BigEndian(|head|, 4) + head + rest;
            DecodeItems(s, child, count, b).Some? && !CleanItems(s, child, count, b)
  {
    hide DecodeRecord, CleanRecord, BigEndian, FromBigEndian;
    BigEndianRoundTrip(|head|, 4);
    var b := BigEndian(|head|, 4) + head + rest;
    assert b[..4] == BigEndian(|head|, 4) && b[4..4 + |head|] == head && b[4 + |head|..] == rest;
  }

  lemma {:induction false} SpoilItems(s: Schema, child: string, items: seq<Value>) returns (b: Bytes)
    requires EncodeItems(s, child, items).Some? && DeepItems(s, child, items)
    ensures DecodeItems(s, child, |items|, b).Some? && !CleanItems(s, child, |items|, b)
    ensures |b| <= |EncodeItems(s, child, items).value|
    decreases items, 0
  {
    var head, rest := EncodeRecord(s, child, items[0], false).value, EncodeItems(s, child, items[1..]).value;
    ReadsBackRecord(s, child, items[0], false);
    ReadsBackItems(s, child, items[1..]);
    if DeepRecord(s, child, items[0], false) {
      head := SpoilRecord(s, child, items[0], false);
    } else {
      rest := SpoilItems(s, child, items[1..]);
    }
    b := BigEndian(|head|, 4) + head + rest;
    SpoiledItem(s, child, |items|, head, rest);
  }

  lemma SpoiledRecord(s: Schema, name: string, unsigned: bool, body: Bytes)
    requires name in s && s[name].code < 256
    requires var n := |Fields(s[name], unsigned)|; n < 0x1_0000 && 8 + |body| <= s[name].ceiling
    requires var fields := Fields(s[name], unsigned);
             DecodeFields(s, fields, body).Some? && !CleanFields(s, fields, body)
    ensures var b := Header(s[name], |Fields(s[name], unsigned)|) + body;
            DecodeRecord(s, name, b, unsigned).Some? && !CleanRecord(s, name, b, unsigned)
  {
    hide DecodeFields, CleanFields, Fields, BigEndian, FromBigEndian;
    var n := |Fields(s[name], unsigned)|;
    var header := Header(s[name], n);
    var b := header + body;
    assert b[..8] == header && b[8..] == body;
    assert b[..6] == b[..8][..6] == MAGIC + [s[name].code, 1];
    assert b[6..8] == b[..8][6..] == BigEndian(n, 2);
    BigEndianRoundTrip(n, 2);
  }

  lemma {:induction false} SpoilRecord(s: Schema, name: string, v: Value, unsigned: bool) returns (b: Bytes)
    requires EncodeRecord(s, name, v, unsigned).Some? && DeepRecord(s, name, v, unsigned)
    ensures DecodeRecord(s, name, b, unsigned).Some? && !CleanRecord(s, name, b, unsigned)
    ensures |b| <= |EncodeRecord(s, name, v, unsigned).value|
    decreases v, 2
  {
    var fields := Fields(s[name], unsigned);
    var body := SpoilFields(s, fields, v);
    hide BigEndian, FromBigEndian;
    b := Header(s[name], |fields|) + body;
    SpoiledRecord(s, name, unsigned, body);
  }

  lemma SpoiledFrame(s: Schema, fields: seq<Field>, head: Bytes, rest: Bytes)
    requires fields != [] && fields[0].id < 0x1_0000 && |head| <= fields[0].maxBytes && |head| < 0x1_0000_0000
    requires DecodeValue(s, fields[0].kind, head).Some? && DecodeFields(s, fields[1..], rest).Some?
    requires !CleanValue(s, fields[0].kind, head) || !CleanFields(s, fields[1..], rest)
    ensures var b := BigEndian(fields[0].id, 2) + BigEndian(|head|, 4) + head + rest;
            DecodeFields(s, fields, b).Some? && !CleanFields(s, fields, b)
  {
    hide DecodeValue, CleanValue, BigEndian, FromBigEndian;
    FrameReadsBack(fields[0].id, head, rest);
  }

  lemma {:induction false} SpoilFields(s: Schema, fields: seq<Field>, v: Value) returns (b: Bytes)
    requires v.Record? && Names(fields) <= v.fields.Keys
    requires EncodeFields(s, fields, v).Some? && DeepFields(s, fields, v)
    ensures DecodeFields(s, fields, b).Some? && !CleanFields(s, fields, b)
    ensures |b| <= |EncodeFields(s, fields, v).value|
    decreases v, 1, |fields|
  {
    var f := fields[0];
    var w := v.fields[f.name];
    var head, rest := EncodeValue(s, f.kind, w).value, EncodeFields(s, fields[1..], v).value;
    ReadsBackValue(s, f.kind, w);
    ReadsBackFields(s, fields[1..], v);
    if DeepValue(s, f.kind, w) {
      head := SpoilValue(s, f.kind, w);
    } else {
      rest := SpoilFields(s, fields[1..], v);
    }
    b := BigEndian(f.id, 2) + BigEndian(|head|, 4) + head + rest;
    SpoiledFrame(s, fields, head, rest);
  }

  /** A type with an encodable tree in which an optional optional is present, at whatever depth, has
      accepted bytes that are no encoding. */
  lemma PresentDisagrees(s: Schema, types: set<string>, name: string, v: Value, unsigned: bool) returns (b: Bytes)
    requires Closed(s, types) && name in types
    requires EncodeRecord(s, name, v, unsigned).Some? && DeepRecord(s, name, v, unsigned)
    ensures DecodeRecord(s, name, b, unsigned).Some? && !EncodableRecord(s, name, b, unsigned)
  {
    b := SpoilRecord(s, name, v, unsigned);
    EncodableIff(s, types, name, b, unsigned);
  }

  const NESTED: Schema := map["r" := Layout(1, 64, [Field("x", 1, Opt(Opt(U32)), 8)])]
  const SPOILED: Bytes := [0x52, 0x46, 0x53, 0x31, 1, 1, 0, 1, 0, 1, 0, 0, 0, 2, 1, 0]

  const SPOILED_BODY: Bytes := [0, 1, 0, 0, 0, 2, 1, 0]

  lemma SpoiledBody()
    ensures |SPOILED_BODY| >= 6 && FrameEnd(SPOILED_BODY) == 8 && FromBigEndian(SPOILED_BODY[..2]) == 1
    ensures SPOILED_BODY[6..8] == [1, 0] && SPOILED_BODY[8..] == []
  {
    BigEndianRoundTrip(1, 2);
    BigEndianRoundTrip(2, 4);
    assert BigEndian(1, 2) == [0, 1] by { assert BigEndian(0, 1) == [0]; }
    ShortNumber();
    FrameReadsBack(1, [1, 0], []);
    assert BigEndian(1, 2) + BigEndian(2, 4) + [1, 0] + [] == SPOILED_BODY;
  }

  lemma SpoiledFields()
    ensures DecodeFields(NESTED, NESTED["r"].fields, SPOILED_BODY).Some?
    ensures !CleanFields(NESTED, NESTED["r"].fields, SPOILED_BODY)
  {
    hide FromBigEndian;
    SpoiledBody();
    var fields := NESTED["r"].fields;
    var f := fields[0];
    assert [1, 0][1..] == [0];
    assert DecodeValue(NESTED, f.kind, [1, 0]) == Some(Nil) && !CleanValue(NESTED, f.kind, [1, 0]);
    assert DecodeField(NESTED, f, SPOILED_BODY) == Some(Nil);
    assert DecodeFields(NESTED, fields[1..], []) == Some(map[]);
  }

  /** Sixteen bytes that the scanner accepts for a type with such a field, and that encode nothing. */
  lemma NestedOptionalDisagrees()
    ensures DecodeRecord(NESTED, "r", SPOILED, false).Some? && !EncodableRecord(NESTED, "r", SPOILED, false)
  {
    hide DecodeFields, CleanFields;
    SpoiledFields();
    assert SPOILED[8..] == SPOILED_BODY && SPOILED[6..8] == [0, 1] && SPOILED[..6] == MAGIC + [1, 1];
    assert FromBigEndian([0, 1]) == 1 by { SpoiledBody(); assert SPOILED_BODY[..2] == [0, 1]; }
    assert Closed(NESTED, {"r"});
    EncodableIff(NESTED, {"r"}, "r", SPOILED, false);
  }

  lemma ShortNumber()
    ensures BigEndian(2, 4) == [0, 0, 0, 2]
  {
    assert BigEndian(0, 1) == [0] && BigEndian(0, 2) == [0, 0] && BigEndian(0, 3) == [0, 0, 0];
  }
}
