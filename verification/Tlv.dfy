/** The TLV body: a list of typed fields, printed one after another and parsed into an index. */
module Tlv {
  import opened Base
  import opened ByteOrder

  type TlvType = Uint16

  const TLV_UNKNOWN: TlvType := 0
  const CONVERSATION_TYPE: TlvType := 40
  const CONVERSATION_ID: TlvType := 41
  const MESSAGE_ID: TlvType := 42
  const MESSAGE_TEXT: TlvType := 43
  const SENDER_ID: TlvType := 44
  const RECEIVER_ID: TlvType := 45
  const TIMESTAMP_MS: TlvType := 46
  const LIMIT: TlvType := 48
  const CLIENT_MESSAGE_ID: TlvType := 51
  const ERROR_CODE: TlvType := 90
  const ERROR_MESSAGE: TlvType := 91

  const TLV_HEADER_SIZE: nat := 6
  const MAX_TLV_VALUE_LENGTH: Uint32 := 1024 * 1024

  datatype Field = Field(kind: TlvType, value: Bytes)

  predicate Fits(f: Field) {
    |f.value| <= MAX_TLV_VALUE_LENGTH
  }

  predicate AllFit(fs: seq<Field>) {
    forall i :: 0 <= i < |fs| ==> Fits(fs[i])
  }

  function FieldBytes(f: Field): (b: Bytes)
    requires Fits(f)
    ensures |b| == TLV_HEADER_SIZE + |f.value|
  {
    BE(f.kind, 2) + BE(|f.value|, 4) + f.value
  }

  function BodyBytes(fs: seq<Field>): (b: Bytes)
    requires AllFit(fs)
  {
    if |fs| == 0 then [] else FieldBytes(fs[0]) + BodyBytes(fs[1..])
  }

  // ---- What a body means -----------------------------------------------------------------

  function KindAt(b: Bytes): (k: TlvType)
    requires |b| >= TLV_HEADER_SIZE
  {
    Pow256Values();
    FromBE(b[..2])
  }

  function LengthAt(b: Bytes): (n: Uint32)
    requires |b| >= TLV_HEADER_SIZE
  {
    Pow256Values();
    FromBE(b[2..6])
  }

  predicate StartsWithField(b: Bytes) {
    && |b| >= TLV_HEADER_SIZE
    && LengthAt(b) <= MAX_TLV_VALUE_LENGTH
    && LengthAt(b) <= |b| - TLV_HEADER_SIZE
  }

  function FirstField(b: Bytes): (f: Field)
    requires StartsWithField(b)
    ensures Fits(f)
  {
    Field(KindAt(b), b[TLV_HEADER_SIZE..TLV_HEADER_SIZE + LengthAt(b)])
  }

  function ParseFields(b: Bytes): (r: Option<seq<Field>>)
    decreases |b|
  {
    if |b| == 0 then Some([])
    else if !StartsWithField(b) then None
    else
      match ParseFields(b[TLV_HEADER_SIZE + LengthAt(b)..])
      case None => None
      case Some(fs) => Some([FirstField(b)] + fs)
  }

  lemma ParseField(f: Field, tail: Bytes)
    requires Fits(f)
    ensures var b := FieldBytes(f) + tail;
            StartsWithField(b) && FirstField(b) == f && b[TLV_HEADER_SIZE + LengthAt(b)..] == tail
  {
    var b := FieldBytes(f) + tail;
    Pow256Values();
    assert b[..2] == BE(f.kind, 2);
    assert b[2..6] == BE(|f.value|, 4);
    FromBEOfBE(f.kind, 2);
    FromBEOfBE(|f.value|, 4);
    assert b[TLV_HEADER_SIZE..TLV_HEADER_SIZE + |f.value|] == f.value;
  }

  lemma FirstFieldBytes(b: Bytes)
    requires StartsWithField(b)
    ensures FieldBytes(FirstField(b)) == b[..TLV_HEADER_SIZE + LengthAt(b)]
  {
    Pow256Values();
    BEOfFromBE(b[..2]);
    BEOfFromBE(b[2..6]);
    var n := TLV_HEADER_SIZE + LengthAt(b);
    assert b[..n] == b[..2] + b[2..6] + b[6..n];
  }

  /** Every byte of a field: its type, the length of its value, the value. */
  lemma FieldOnTheWire(f: Field)
    requires Fits(f)
    ensures var b := FieldBytes(f);
            && |b| == 6 + |f.value| && b[6..] == f.value
            && HalfWord(b, 0) == f.kind
            && Word(b, 2) == |f.value|
  {
    var b := FieldBytes(f);
    ParseField(f, []);
    assert b + [] == b;
    TwoBytes(b[..2]);
    FourBytes(b[2..6]);
    hide FromBE;
  }

  lemma {:induction false} ParseOfPrint(fs: seq<Field>)
    requires AllFit(fs)
    ensures ParseFields(BodyBytes(fs)) == Some(fs)
    decreases |fs|
  {
    hide FieldBytes, KindAt, LengthAt;
    if |fs| > 0 {
      ParseOfPrint(fs[1..]);
      ParseField(fs[0], BodyBytes(fs[1..]));
      assert [fs[0]] + fs[1..] == fs;
    }
  }

  lemma {:induction false} PrintOfParse(b: Bytes)
    requires ParseFields(b).Some?
    ensures AllFit(ParseFields(b).value)
    ensures BodyBytes(ParseFields(b).value) == b
    decreases |b|
  {
    hide FieldBytes, KindAt, LengthAt, FirstField;
    if |b| > 0 {
      var n := TLV_HEADER_SIZE + LengthAt(b);
      PrintOfParse(b[n..]);
      FirstFieldBytes(b);
      var fs := ParseFields(b).value;
      assert fs[1..] == ParseFields(b[n..]).value;
      assert b == b[..n] + b[n..];
    }
  }

  /** Parsing succeeds exactly on concatenations of fields whose values fit, and the
      fields it finds are the only ones that print to this body. */
  lemma ParsesExactlyPrintedBodies(b: Bytes)
    ensures ParseFields(b).Some? <==> exists fs :: AllFit(fs) && BodyBytes(fs) == b
    ensures forall fs :: AllFit(fs) && BodyBytes(fs) == b ==> ParseFields(b) == Some(fs)
  {
    if ParseFields(b).Some? {
      PrintOfParse(b);
    }
    forall fs | AllFit(fs) && BodyBytes(fs) == b ensures ParseFields(b) == Some(fs) {
      ParseOfPrint(fs);
    }
  }

  // ---- The index by type ----------------------------------------------------------------

  type TlvMap = map<TlvType, seq<Bytes>>

  /** The values of one type, in the order of the body. */
  function Column(fs: seq<Field>, kind: TlvType): (vs: seq<Bytes>) {
    if |fs| == 0 then []
    else (if fs[0].kind == kind then [fs[0].value] else []) + Column(fs[1..], kind)
  }

  /** `m` lists, for each type that occurs, exactly its column. */
  ghost predicate Indexes(m: TlvMap, fs: seq<Field>) {
    && (forall kind :: kind in m <==> Column(fs, kind) != [])
    && (forall kind :: kind in m ==> m[kind] == Column(fs, kind))
  }

  lemma {:induction false} ColumnAppend(a: seq<Field>, b: seq<Field>, kind: TlvType)
    ensures Column(a + b, kind) == Column(a, kind) + Column(b, kind)
    decreases |a|
  {
    if |a| == 0 {
      assert a + b == b;
    } else {
      ColumnAppend(a[1..], b, kind);
      var rest := a[1..];
      assert (a + b)[1..] == rest + b && (a + b)[0] == a[0];
      var own := if a[0].kind == kind then [a[0].value] else [];
      assert own + (Column(rest, kind) + Column(b, kind)) == (own + Column(rest, kind)) + Column(b, kind);
    }
  }

  lemma IndexAppend(m: TlvMap, fs: seq<Field>, f: Field)
    requires Indexes(m, fs)
    ensures Indexes(m[f.kind := (if f.kind in m then m[f.kind] else []) + [f.value]], fs + [f])
  {
    forall kind ensures Column(fs + [f], kind) == Column(fs, kind) + if f.kind == kind then [f.value] else [] {
      ColumnAppend(fs, [f], kind);
      assert [f][1..] == [];
    }
  }

  lemma {:induction false} ParseAppendRest(b: Bytes, offset: nat, parsed: seq<Field>)
    requires offset <= |b|
    requires ParseFields(b) ==
               match ParseFields(b[offset..]) case None => None case Some(fs) => Some(parsed + fs)
    requires StartsWithField(b[offset..])
    ensures var f := FirstField(b[offset..]);
            var next := offset + TLV_HEADER_SIZE + |f.value|;
            && next <= |b|
            && ParseFields(b) ==
                 match ParseFields(b[next..]) case None => None case Some(fs) => Some(parsed + [f] + fs)
  {
    var c := b[offset..];
    var n := TLV_HEADER_SIZE + LengthAt(c);
    assert c[n..] == b[offset + n..];
    if ParseFields(c[n..]).Some? {
      var fs := ParseFields(c[n..]).value;
      assert parsed + ([FirstField(c)] + fs) == parsed + [FirstField(c)] + fs;
    }
  }

  method ParseTlvMap(data: RawBytes) returns (r: Result<TlvMap>)
    ensures data.NullPointer? ==>
              r == if data.len != 0 then Failure(InvalidArgument) else Success(map[])
    ensures data.View? ==> (r.Success? <==> ParseFields(data.bytes).Some?)
    ensures data.View? && r.Success? ==> Indexes(r.value, ParseFields(data.bytes).value)
    ensures data.View? && r.Failure? ==> r.error == ParseError
  {
    hide KindAt, LengthAt;
    if data.NullPointer? {
      return if data.len != 0 then Failure(InvalidArgument) else Success(map[]);
    }
    var b := data.bytes;
    var output: TlvMap := map[];
    ghost var parsed: seq<Field> := [];
    var offset := 0;
    assert b[0..] == b;
    assert ParseFields(b).Some? ==> [] + ParseFields(b).value == ParseFields(b).value;
    while offset < |b|
      invariant offset <= |b|
      invariant Indexes(output, parsed)
      invariant ParseFields(b) ==
                  match ParseFields(b[offset..]) case None => None case Some(fs) => Some(parsed + fs)
    {
      if |b| - offset < TLV_HEADER_SIZE {
        return Failure(ParseError);
      }
      var kind, valueLen := ReadFieldHeader(b[offset..]);
      if valueLen > MAX_TLV_VALUE_LENGTH {
        return Failure(ParseError);
      }
      if valueLen > |b| - offset - TLV_HEADER_SIZE {
        return Failure(ParseError);
      }
      ghost var f := FirstField(b[offset..]);
      ParseAppendRest(b, offset, parsed);
      IndexAppend(output, parsed, f);
      offset := offset + TLV_HEADER_SIZE;
      var values := if kind in output then output[kind] else [];
      assert b[offset..offset + valueLen] == f.value;
      output := output[kind := values + [b[offset..offset + valueLen]]];
      parsed := parsed + [f];
      offset := offset + valueLen;
    }
    assert parsed + [] == parsed;
    return Success(output);
  }

  method ReadFieldHeader(b: Bytes) returns (kind: TlvType, length: Uint32)
    requires |b| >= TLV_HEADER_SIZE
    ensures kind == KindAt(b) && length == LengthAt(b)
  {
    kind := ReadUint16BE(b);
    length := ReadUint32BE(b[2..]);
    assert b[2..][..4] == b[2..6];
  }

  // ---- Appending fields ---------------------------------------------------------------------

  method AppendValue(kind: TlvType, data: RawBytes, output: Bytes) returns (status: Result<()>, r: Bytes)
    ensures status.Success? <==>
              && kind != TLV_UNKNOWN
              && (data.NullPointer? ==> data.len == 0)
              && (data.View? ==> |data.bytes| <= MAX_TLV_VALUE_LENGTH)
    ensures status.Success? ==>
              r == output + FieldBytes(Field(kind, if data.View? then data.bytes else []))
    ensures status.Failure? ==> r == output && status.error == InvalidArgument
  {
    r := output;
    if kind == TLV_UNKNOWN {
      return Failure(InvalidArgument), r;
    }
    if data.NullPointer? && data.len != 0 {
      return Failure(InvalidArgument), r;
    }
    var value := if data.View? then data.bytes else [];
    if |value| > MAX_TLV_VALUE_LENGTH {
      return Failure(InvalidArgument), r;
    }
    r := AppendUint16BE(r, kind);
    r := AppendUint32BE(r, |value|);
    r := r + value;
    return Success(()), r;
  }

  method AppendString(kind: TlvType, value: Bytes, output: Bytes) returns (status: Result<()>, r: Bytes)
    ensures status.Success? <==> kind != TLV_UNKNOWN && |value| <= MAX_TLV_VALUE_LENGTH
    ensures status.Success? ==> r == output + FieldBytes(Field(kind, value))
    ensures status.Failure? ==> r == output && status.error == InvalidArgument
  {
    status, r := AppendValue(kind, View(value), output);
  }

  method AppendUint64(kind: TlvType, value: Uint64, output: Bytes) returns (status: Result<()>, r: Bytes)
    ensures status.Success? <==> kind != TLV_UNKNOWN
    ensures status.Success? ==> r == output + FieldBytes(Field(kind, BE(value, 8)))
    ensures status.Failure? ==> r == output && status.error == InvalidArgument
  {
    var bytes := AppendUint64BE([], value);
    assert bytes == BE(value, 8);
    status, r := AppendValue(kind, View(bytes), output);
  }

  // ---- Getters ---------------------------------------------------------------------------

  /** One numeric column of a body. */
  function NumberColumn(fs: seq<Field>, kind: TlvType): (r: Result<seq<Uint64>>) {
    var vs := Column(fs, kind);
    if vs == [] then Failure(NotFound)
    else if AllNumbers(vs) then Success(DecodeNumbers(vs)) else Failure(ParseError)
  }

  function FindValues(m: TlvMap, kind: TlvType): (vs: Option<seq<Bytes>>) {
    if kind !in m || m[kind] == [] then None else Some(m[kind])
  }

  function DecodeNumber(v: Bytes): (n: Uint64)
    requires |v| == 8
  {
    Pow256Values();
    FromBE(v)
  }

  predicate AllNumbers(vs: seq<Bytes>) {
    forall i :: 0 <= i < |vs| ==> |vs[i]| == 8
  }

  function DecodeNumbers(vs: seq<Bytes>): (ns: seq<Uint64>)
    requires AllNumbers(vs)
    ensures |ns| == |vs|
    ensures forall i :: 0 <= i < |vs| ==> ns[i] == DecodeNumber(vs[i])
  {
    seq(|vs|, i requires 0 <= i < |vs| => DecodeNumber(vs[i]))
  }

  /** In the map of a parsed body, the values of a type are its column. */
  lemma ValuesAreColumns(m: TlvMap, kind: TlvType)
    ensures forall fs :: Indexes(m, fs) ==>
              FindValues(m, kind) == if Column(fs, kind) == [] then None else Some(Column(fs, kind))
  {
  }

  /** The first value of the type in the body; NotFound exactly when it has none. */
  method GetString(m: TlvMap, kind: TlvType) returns (r: Result<Bytes>)
    ensures r.Success? <==> kind in m && m[kind] != []
    ensures r.Success? ==> r.value == m[kind][0]
    ensures r.Failure? ==> r.error == NotFound
    ensures forall fs :: Indexes(m, fs) ==>
              && (r.Failure? <==> Column(fs, kind) == [])
              && (r.Success? ==> r.value == Column(fs, kind)[0])
  {
    ValuesAreColumns(m, kind);
    match FindValues(m, kind) {
      case None => return Failure(NotFound);
      case Some(vs) => return Success(vs[0]);
    }
  }

  /** The first value as a big-endian number of eight bytes; any other width is a ParseError. */
  method GetUint64(m: TlvMap, kind: TlvType) returns (r: Result<Uint64>)
    ensures r == Failure(NotFound) <==> kind !in m || m[kind] == []
    ensures r.Success? <==> kind in m && m[kind] != [] && |m[kind][0]| == 8
    ensures r.Success? ==> BE(r.value, 8) == m[kind][0]
    ensures r.Failure? ==> r.error == NotFound || r.error == ParseError
    ensures forall fs :: Indexes(m, fs) ==>
              && (r == Failure(NotFound) <==> Column(fs, kind) == [])
              && (r.Success? ==> Column(fs, kind) != [] && BE(r.value, 8) == Column(fs, kind)[0])
  {
    ValuesAreColumns(m, kind);
    match FindValues(m, kind) {
      case None => return Failure(NotFound);
      case Some(vs) =>
        if |vs[0]| != 8 {
          return Failure(ParseError);
        }
        var n := ReadUint64BE(vs[0]);
        assert vs[0][..8] == vs[0];
        BEOfFromBE(vs[0]);
        return Success(n);
    }
  }

  /** The whole column, in body order. */
  method GetRepeatedString(m: TlvMap, kind: TlvType) returns (r: Result<seq<Bytes>>)
    ensures r.Success? <==> kind in m && m[kind] != []
    ensures r.Success? ==> r.value == m[kind]
    ensures r.Failure? ==> r.error == NotFound
    ensures forall fs :: Indexes(m, fs) ==> r == if Column(fs, kind) == [] then Failure(NotFound) else Success(Column(fs, kind))
  {
    ValuesAreColumns(m, kind);
    var values := FindValues(m, kind);
    if values.None? {
      return Failure(NotFound);
    }
    var output: seq<Bytes> := [];
    for i := 0 to |values.value|
      invariant output == values.value[..i]
    {
      output := output + [values.value[i]];
    }
    assert output == values.value;
    return Success(output);
  }

  /** The whole column as numbers, in body order; any other width is a ParseError. */
  method GetRepeatedUint64(m: TlvMap, kind: TlvType) returns (r: Result<seq<Uint64>>)
    ensures r == Failure(NotFound) <==> kind !in m || m[kind] == []
    ensures r.Success? <==> kind in m && m[kind] != [] && AllNumbers(m[kind])
    ensures r.Success? ==> r.value == DecodeNumbers(m[kind])
    ensures r.Failure? ==> r.error == NotFound || r.error == ParseError
    ensures forall fs :: Indexes(m, fs) ==> r == NumberColumn(fs, kind)
  {
    ValuesAreColumns(m, kind);
    var values := FindValues(m, kind);
    if values.None? {
      return Failure(NotFound);
    }
    var vs := values.value;
    var output: seq<Uint64> := [];
    for i := 0 to |vs|
      invariant |output| == i
      invariant forall k :: 0 <= k < i ==> |vs[k]| == 8 && output[k] == DecodeNumber(vs[k])
    {
      if |vs[i]| != 8 {
        return Failure(ParseError);
      }
      var n := ReadUint64BE(vs[i]);
      assert vs[i][..8] == vs[i];
      output := output + [n];
    }
    assert output == DecodeNumbers(vs);
    return Success(output);
  }
}
