/**
 * Every record of the format is a fixed sequence of typed fields. The writer
 * emits each field with the helper for its type; the reader calls the
 * matching read helper for each field, in the same order. A field carries
 * its value together with that type, and a `Kind` names the type alone:
 * the writer works from a record's field list, the reader from its kind
 * list.
 */
module Fields {
  import opened Wrappers
  import opened Bytes
  import opened Primitives
  import Enums

  /** One field value, tagged with the helper that writes it. */
  datatype Field =
    | TextField(text: Text)                                // writeFString / readStr
    | DateTimeField(date: DateMs)                          // writeDateTime / readDate
    | TimespanField(span: Millis)                          // writeTimespan / readTime
    | UInt32Field(word: U32)                               // writeUInt32LE / readUInt32LE
    | Int32Field(signed: int)                              // writeInt32LE / readInt32LE
    | BoolField(flag: bool)                                // writeBool / readUInt32LE() > 0
    | FloatField(float: Float32)                           // writeFloatLE / readFloatLE
    | Vector2DField(vector2D: Vector2D)
    | VectorField(vector: Vector)
    | Vector4Field(vector4: Vector4)
    | RotatorField(rotator: Rotator)
    | LinearColorField(color: LinearColor)
    | EnumField(table: Enums.Table, name: Option<string>)  // writeUInt8(T[name]) / T[readUInt8()]

  /** The type of a field, which is all the reader knows before it reads. */
  datatype Kind =
    | TextKind | DateTimeKind | TimespanKind | UInt32Kind | Int32Kind | BoolKind | FloatKind
    | Vector2DKind | VectorKind | Vector4Kind | RotatorKind | LinearColorKind
    | EnumKind(table: Enums.Table)

  /** The field is one the helper for the kind writes and reads. */
  predicate OfKind(f: Field, k: Kind) {
    match k
    case TextKind => f.TextField?
    case DateTimeKind => f.DateTimeField?
    case TimespanKind => f.TimespanField?
    case UInt32Kind => f.UInt32Field?
    case Int32Kind => f.Int32Field?
    case BoolKind => f.BoolField?
    case FloatKind => f.FloatField?
    case Vector2DKind => f.Vector2DField?
    case VectorKind => f.VectorField?
    case Vector4Kind => f.Vector4Field?
    case RotatorKind => f.RotatorField?
    case LinearColorKind => f.LinearColorField?
    case EnumKind(t) => f.EnumField? && f.table == t
  }

  /** The fields have the kinds, position by position. */
  predicate Shaped(fs: seq<Field>, ks: seq<Kind>) {
    |fs| == |ks| && forall i :: 0 <= i < |fs| ==> OfKind(fs[i], ks[i])
  }

  /** What the writer accepts without a RangeError: a text whose length word fits, a table a byte can index. */
  predicate Writable(f: Field) {
    match f
    case TextField(s) => TextFits(s)
    case EnumField(t, _) => |t| <= 256
    case Int32Field(v) => -TWO31 <= v < TWO31
    case _ => true
  }

  /** What the reader gives back unchanged: ASCII text, an enum name listed in its table. */
  predicate Canonical(f: Field) {
    match f
    case TextField(s) => PlainText(s)
    case EnumField(t, v) => |t| <= 256 && Named(t, v)
    case Int32Field(v) => -TWO31 <= v < TWO31
    case _ => true
  }

  predicate AllWritable(fs: seq<Field>) {
    forall i :: 0 <= i < |fs| ==> Writable(fs[i])
  }

  predicate AllCanonical(fs: seq<Field>) {
    forall i :: 0 <= i < |fs| ==> Canonical(fs[i])
  }

  /** The bytes one write helper appends for the field. */
  function EncField(f: Field): seq<byte>
    requires Writable(f)
  {
    match f
    case TextField(s) => EncFString(s)
    case DateTimeField(d) => EncDateTime(d)
    case TimespanField(t) => EncTimespan(t)
    case UInt32Field(w) => EncU32(w)
    case Int32Field(w) => EncI32(w)
    case BoolField(b) => EncBool(b)
    case FloatField(x) => EncFloat(x)
    case Vector2DField(v) => EncVector2D(v)
    case VectorField(v) => EncVector(v)
    case Vector4Field(v) => EncVector4(v)
    case RotatorField(r) => EncRotator(r)
    case LinearColorField(c) => EncLinearColor(c)
    case EnumField(t, v) => EncEnum(t, v)
  }

  /** The bytes a read of the kind needs at least; a text needs its length word and then its body. */
  function Width(k: Kind): nat {
    match k
    case TextKind => 4
    case DateTimeKind => 8
    case TimespanKind => 8
    case UInt32Kind => 4
    case Int32Kind => 4
    case BoolKind => 4
    case FloatKind => 4
    case Vector2DKind => 8
    case VectorKind => 12
    case Vector4Kind => 16
    case RotatorKind => 12
    case LinearColorKind => 16
    case EnumKind(_) => 1
  }

  /** Reads one field of the kind with the matching read helper; None when the buffer ends first. */
  function DecField(k: Kind, s: seq<byte>): Option<Parsed<Field>> {
    match k
    case TextKind => (match DecStr(s) case None => None case Some(p) => Some(Parsed(TextField(p.value), p.rest)))
    case DateTimeKind => (match DecDate(s) case None => None case Some(p) => Some(Parsed(DateTimeField(p.value), p.rest)))
    case TimespanKind => (match DecTime(s) case None => None case Some(p) => Some(Parsed(TimespanField(p.value), p.rest)))
    case UInt32Kind => (match DecU32(s) case None => None case Some(p) => Some(Parsed(UInt32Field(p.value), p.rest)))
    case Int32Kind => (match DecI32(s) case None => None case Some(p) => Some(Parsed(Int32Field(p.value), p.rest)))
    case BoolKind => (match DecBool(s) case None => None case Some(p) => Some(Parsed(BoolField(p.value), p.rest)))
    case FloatKind => (match DecFloat(s) case None => None case Some(p) => Some(Parsed(FloatField(p.value), p.rest)))
    case Vector2DKind => (match DecVector2D(s) case None => None case Some(p) => Some(Parsed(Vector2DField(p.value), p.rest)))
    case VectorKind => (match DecVector(s) case None => None case Some(p) => Some(Parsed(VectorField(p.value), p.rest)))
    case Vector4Kind => (match DecVector4(s) case None => None case Some(p) => Some(Parsed(Vector4Field(p.value), p.rest)))
    case RotatorKind => (match DecRotator(s) case None => None case Some(p) => Some(Parsed(RotatorField(p.value), p.rest)))
    case LinearColorKind => (match DecLinearColor(s) case None => None case Some(p) => Some(Parsed(LinearColorField(p.value), p.rest)))
    case EnumKind(t) => (match DecEnum(t, s) case None => None case Some(p) => Some(Parsed(EnumField(t, p.value), p.rest)))
  }

  /** A read succeeds exactly when the buffer holds the kind's width, and yields a field of that kind. */
  lemma DecFieldKind(k: Kind, s: seq<byte>)
    ensures DecField(k, s).Some? <==> |s| >= Width(k)
    ensures DecField(k, s).Some? ==> OfKind(DecField(k, s).value.value, k)
  {
  }

  /** Reading a field back with its own kind gives the field and leaves what follows. */
  lemma FieldRoundTrip(f: Field, k: Kind, t: seq<byte>)
    requires OfKind(f, k) && Canonical(f)
    ensures DecField(k, EncField(f) + t) == Some(Parsed(f, t))
  {
    match f
    case TextField(s) => TextFieldRoundTrip(s, t);
    case DateTimeField(d) => DateTimeFieldRoundTrip(d, t);
    case TimespanField(x) => TimespanFieldRoundTrip(x, t);
    case UInt32Field(w) => UInt32FieldRoundTrip(w, t);
    case Int32Field(w) => Int32FieldRoundTrip(w, t);
    case BoolField(b) => BoolFieldRoundTrip(b, t);
    case FloatField(x) => FloatFieldRoundTrip(x, t);
    case Vector2DField(v) => Vector2DFieldRoundTrip(v, t);
    case VectorField(v) => VectorFieldRoundTrip(v, t);
    case Vector4Field(v) => Vector4FieldRoundTrip(v, t);
    case RotatorField(v) => RotatorFieldRoundTrip(v, t);
    case LinearColorField(c) => LinearColorFieldRoundTrip(c, t);
    case EnumField(tab, v) => EnumFieldRoundTrip(tab, v, t);
  }

  lemma TextFieldRoundTrip(s: Text, t: seq<byte>)
    requires PlainText(s)
    ensures DecField(TextKind, EncField(TextField(s)) + t) == Some(Parsed(TextField(s), t))
  {
    StrRoundTrip(s, t);
  }

  lemma DateTimeFieldRoundTrip(d: DateMs, t: seq<byte>)
    ensures DecField(DateTimeKind, EncField(DateTimeField(d)) + t) == Some(Parsed(DateTimeField(d), t))
  {
    DateRoundTrip(d, t);
  }

  lemma TimespanFieldRoundTrip(x: Millis, t: seq<byte>)
    ensures DecField(TimespanKind, EncField(TimespanField(x)) + t) == Some(Parsed(TimespanField(x), t))
  {
    TimeRoundTrip(x, t);
  }

  lemma UInt32FieldRoundTrip(w: U32, t: seq<byte>)
    ensures DecField(UInt32Kind, EncField(UInt32Field(w)) + t) == Some(Parsed(UInt32Field(w), t))
  {
    U32RoundTrip(w, t);
  }

  lemma Int32FieldRoundTrip(w: I32, t: seq<byte>)
    ensures DecField(Int32Kind, EncField(Int32Field(w)) + t) == Some(Parsed(Int32Field(w), t))
  {
    I32RoundTrip(w, t);
  }

  lemma BoolFieldRoundTrip(b: bool, t: seq<byte>)
    ensures DecField(BoolKind, EncField(BoolField(b)) + t) == Some(Parsed(BoolField(b), t))
  {
    BoolRoundTrip(b, t);
  }

  lemma FloatFieldRoundTrip(x: Float32, t: seq<byte>)
    ensures DecField(FloatKind, EncField(FloatField(x)) + t) == Some(Parsed(FloatField(x), t))
  {
    FloatRoundTrip(x, t);
  }

  lemma Vector2DFieldRoundTrip(v: Vector2D, t: seq<byte>)
    ensures DecField(Vector2DKind, EncField(Vector2DField(v)) + t) == Some(Parsed(Vector2DField(v), t))
  {
    Vector2DRoundTrip(v, t);
  }

  lemma VectorFieldRoundTrip(v: Vector, t: seq<byte>)
    ensures DecField(VectorKind, EncField(VectorField(v)) + t) == Some(Parsed(VectorField(v), t))
  {
    VectorRoundTrip(v, t);
  }

  lemma Vector4FieldRoundTrip(v: Vector4, t: seq<byte>)
    ensures DecField(Vector4Kind, EncField(Vector4Field(v)) + t) == Some(Parsed(Vector4Field(v), t))
  {
    Vector4RoundTrip(v, t);
  }

  lemma RotatorFieldRoundTrip(v: Rotator, t: seq<byte>)
    ensures DecField(RotatorKind, EncField(RotatorField(v)) + t) == Some(Parsed(RotatorField(v), t))
  {
    RotatorRoundTrip(v, t);
  }

  lemma LinearColorFieldRoundTrip(c: LinearColor, t: seq<byte>)
    ensures DecField(LinearColorKind, EncField(LinearColorField(c)) + t) == Some(Parsed(LinearColorField(c), t))
  {
    LinearColorRoundTrip(c, t);
  }

  lemma EnumFieldRoundTrip(tab: Enums.Table, v: Option<string>, t: seq<byte>)
    requires |tab| <= 256 && Named(tab, v)
    ensures DecField(EnumKind(tab), EncField(EnumField(tab, v)) + t) == Some(Parsed(EnumField(tab, v), t))
  {
    assert EncField(EnumField(tab, v)) == EncEnum(tab, v);
    EnumRoundTrip(tab, v, t);
  }

  /** A record's bytes: its fields' encodings in field order. */
  function EncFields(fs: seq<Field>): seq<byte>
    requires AllWritable(fs)
  {
    if |fs| == 0 then [] else EncFields(fs[..|fs| - 1]) + EncField(fs[|fs| - 1])
  }

  /** The record reader: one read per kind, each starting where the previous one stopped. */
  function DecFields(ks: seq<Kind>, s: seq<byte>): (r: Option<Parsed<seq<Field>>>)
    ensures r.Some? ==> Shaped(r.value.value, ks)
  {
    if ks == [] then Some(Parsed([], s))
    else
      DecFieldKind(ks[0], s);
      match DecField(ks[0], s)
      case None => None
      case Some(p) =>
        match DecFields(ks[1..], p.rest)
        case None => None
        case Some(q) => Some(Parsed([p.value] + q.value, q.rest))
  }

  /** Reading the kinds of a field list back gives the list and leaves what follows. */
  lemma {:induction false} FieldsRoundTrip(fs: seq<Field>, ks: seq<Kind>, t: seq<byte>)
    requires Shaped(fs, ks) && AllCanonical(fs)
    ensures DecFields(ks, EncFields(fs) + t) == Some(Parsed(fs, t))
  {
    if fs != [] {
      var f, e := fs[0], EncFields(fs[1..]);
      assert OfKind(f, ks[0]) && Canonical(f);
      assert Shaped(fs[1..], ks[1..]) by {
        forall i | 0 <= i < |fs| - 1 ensures OfKind(fs[1..][i], ks[1..][i]) {
          assert OfKind(fs[i + 1], ks[i + 1]);
        }
      }
      assert AllCanonical(fs[1..]) by {
        forall i | 0 <= i < |fs| - 1 ensures Canonical(fs[1..][i]) {
          assert Canonical(fs[i + 1]);
        }
      }
      FieldsRoundTrip(fs[1..], ks[1..], t);
      FieldRoundTrip(f, ks[0], e + t);
      assert fs == [f] + fs[1..];
      EncFieldsCons(f, fs[1..]);
      AppendAssoc(EncField(f), e, t);
    } else {
      assert EncFields(fs) + t == t;
    }
  }

  /** Appending a field the writer accepts keeps a record one it accepts. */
  lemma WritableSnoc(fs: seq<Field>, f: Field)
    requires AllWritable(fs) && Writable(f)
    ensures AllWritable(fs + [f])
  {
  }

  /** Appending a field the reader gives back unchanged keeps a record one it gives back unchanged. */
  lemma CanonicalSnoc(fs: seq<Field>, f: Field)
    requires AllCanonical(fs) && Canonical(f)
    ensures AllCanonical(fs + [f])
  {
  }

  /** Writing a field list one field at a time appends exactly the record's bytes. */
  lemma EncFieldsSnoc(fs: seq<Field>, f: Field)
    requires AllWritable(fs) && Writable(f)
    ensures AllWritable(fs + [f])
    ensures EncFields(fs + [f]) == EncFields(fs) + EncField(f)
  {
    assert (fs + [f])[..|fs|] == fs;
  }

  /** A one-field record is that field's bytes. */
  lemma EncFieldsOne(f: Field)
    requires Writable(f)
    ensures AllWritable([f]) && EncFields([f]) == EncField(f)
  {
    assert [f][..0] == [];
  }

  /** A record's bytes start with its first field's bytes. */
  lemma {:induction false} EncFieldsCons(f: Field, fs: seq<Field>)
    requires Writable(f) && AllWritable(fs)
    ensures AllWritable([f] + fs)
    ensures EncFields([f] + fs) == EncField(f) + EncFields(fs)
  {
    if |fs| > 0 {
      var init, last := fs[..|fs| - 1], fs[|fs| - 1];
      EncFieldsCons(f, init);
      assert ([f] + fs)[..|fs|] == [f] + init;
      AppendAssoc(EncField(f), EncFields(init), EncField(last));
    } else {
      assert [f] + fs == [f];
      assert [f][..0] == [];
    }
  }

  // ---- count-prefixed arrays of records ----

  /** An array the writer accepts: its count fits the UInt32 word and it accepts every record. */
  predicate ArrayWritable(rs: seq<seq<Field>>) {
    |rs| < TWO32 && AllRecordsWritable(rs)
  }

  /** An array the writer accepts and the reader returns unchanged. */
  predicate ArrayReady(rs: seq<seq<Field>>, ks: seq<Kind>) {
    |rs| < TWO32 && AllShaped(rs, ks) && AllRecordsCanonical(rs)
  }

  /** Every record of an array has the record's kinds. */
  predicate AllShaped(rs: seq<seq<Field>>, ks: seq<Kind>) {
    forall i :: 0 <= i < |rs| ==> Shaped(rs[i], ks)
  }

  predicate AllRecordsWritable(rs: seq<seq<Field>>) {
    forall i :: 0 <= i < |rs| ==> AllWritable(rs[i])
  }

  predicate AllRecordsCanonical(rs: seq<seq<Field>>) {
    forall i :: 0 <= i < |rs| ==> AllCanonical(rs[i])
  }

  /** The records' encodings, in array order. */
  function EncElems(rs: seq<seq<Field>>): seq<byte>
    requires AllRecordsWritable(rs)
  {
    if rs == [] then [] else EncElems(rs[..|rs| - 1]) + EncFields(rs[|rs| - 1])
  }

  /** writeArray: the element count as UInt32, then every element in array order. */
  function EncArray(rs: seq<seq<Field>>): seq<byte>
    requires ArrayWritable(rs)
  {
    EncU32(|rs|) + EncElems(rs)
  }

  /** readArray's loop after n rounds: n records, each pushed after the ones before it. */
  function DecElems(s: seq<byte>, n: nat, ks: seq<Kind>): (r: Option<Parsed<seq<seq<Field>>>>)
    ensures r.Some? ==> |r.value.value| == n && AllShaped(r.value.value, ks)
  {
    if n == 0 then Some(Parsed([], s))
    else
      var p :- DecElems(s, n - 1, ks);
      var q :- DecFields(ks, p.rest);
      Some(Parsed(p.value + [q.value], q.rest))
  }

  /** readArray: a UInt32 count, then exactly that many records in stream order. */
  function DecArray(s: seq<byte>, ks: seq<Kind>): (r: Option<Parsed<seq<seq<Field>>>>)
    ensures r.Some? ==> AllShaped(r.value.value, ks)
  {
    var p :- DecU32(s);
    DecElems(p.rest, p.value, ks)
  }

  lemma {:induction false} ElemsRoundTrip(rs: seq<seq<Field>>, ks: seq<Kind>, t: seq<byte>)
    requires AllShaped(rs, ks) && AllRecordsCanonical(rs)
    ensures AllRecordsWritable(rs)
    ensures DecElems(EncElems(rs) + t, |rs|, ks) == Some(Parsed(rs, t))
  {
    CanonicalRecordsWritable(rs);
    if rs != [] {
      var n := |rs| - 1;
      SplitLast(rs, ks);
      var init, last := rs[..n], rs[n];
      var e := EncFields(last);
      ElemsRoundTrip(init, ks, e + t);
      FieldsRoundTrip(last, ks, t);
      assert EncElems(rs) == EncElems(init) + e;
      AppendAssoc(EncElems(init), e, t);
      var p := DecElems(EncElems(init) + (e + t), n, ks);
      assert p == Some(Parsed(init, e + t));
      var q := DecFields(ks, e + t);
      assert q == Some(Parsed(last, t));
      assert DecElems(EncElems(rs) + t, |rs|, ks) == Some(Parsed(init + [last], t));
    } else {
      assert EncElems(rs) + t == t;
    }
  }

  lemma SplitLast(rs: seq<seq<Field>>, ks: seq<Kind>)
    requires rs != [] && AllShaped(rs, ks) && AllRecordsCanonical(rs)
    ensures AllShaped(rs[..|rs| - 1], ks) && AllRecordsCanonical(rs[..|rs| - 1])
    ensures Shaped(rs[|rs| - 1], ks) && AllCanonical(rs[|rs| - 1])
    ensures rs == rs[..|rs| - 1] + [rs[|rs| - 1]]
  {
  }

  /** readArray inverts writeArray: the count, then every record read back with the record's kinds. */
  lemma ArrayRoundTrip(rs: seq<seq<Field>>, ks: seq<Kind>, t: seq<byte>)
    requires ArrayReady(rs, ks)
    ensures AllRecordsWritable(rs)
    ensures DecArray(EncArray(rs) + t, ks) == Some(Parsed(rs, t))
  {
    ElemsRoundTrip(rs, ks, t);
    AppendAssoc(EncU32(|rs|), EncElems(rs), t);
    U32RoundTrip(|rs|, EncElems(rs) + t);
  }

  /** Arrays whose records encode alike encode alike. */
  lemma {:induction false} EncElemsAgree(rs: seq<seq<Field>>, qs: seq<seq<Field>>)
    requires |rs| == |qs| && AllRecordsWritable(rs) && AllRecordsWritable(qs)
    requires forall i :: 0 <= i < |rs| ==> EncFields(rs[i]) == EncFields(qs[i])
    ensures EncElems(rs) == EncElems(qs)
  {
    if rs != [] {
      var n := |rs| - 1;
      EncElemsAgree(rs[..n], qs[..n]);
    }
  }

  /** An empty array is the four zero bytes of its count, and reads back empty. */
  lemma EmptyArray(ks: seq<Kind>, t: seq<byte>)
    ensures EncArray([]) == [0, 0, 0, 0]
    ensures DecArray([0, 0, 0, 0] + t, ks) == Some(Parsed([], t))
  {
    ZeroBytes();
    assert EncArray([]) == EncU32(0) + [];
    U32RoundTrip(0, t);
  }

  lemma CanonicalRecordsWritable(rs: seq<seq<Field>>)
    requires AllRecordsCanonical(rs)
    ensures AllRecordsWritable(rs)
  {
    forall i, j | 0 <= i < |rs| && 0 <= j < |rs[i]| ensures Writable(rs[i][j]) {
      assert Canonical(rs[i][j]);
    }
  }

  // ---- mapping records to and from JSON objects ----

  /** The field lists of the objects, in array order (the callback writeArray calls per element). */
  function Records<T>(xs: seq<T>, fields: T -> seq<Field>): seq<seq<Field>>
  {
    if xs == [] then [] else Records(xs[..|xs| - 1], fields) + [fields(xs[|xs| - 1])]
  }

  /** The i-th record is the field list of the i-th object. */
  lemma {:induction false} RecordsAt<T>(xs: seq<T>, fields: T -> seq<Field>)
    ensures |Records(xs, fields)| == |xs|
    ensures forall i :: 0 <= i < |xs| ==> Records(xs, fields)[i] == fields(xs[i])
  {
    if xs != [] {
      RecordsAt(xs[..|xs| - 1], fields);
    }
  }

  /** writeArray accepts the records of objects whose own records it accepts. */
  lemma ObjectArrayWritable<T>(xs: seq<T>, fields: T -> seq<Field>, ok: T -> bool)
    requires |xs| < TWO32 && forall i :: 0 <= i < |xs| ==> ok(xs[i])
    requires forall x :: ok(x) ==> AllWritable(fields(x))
    ensures ArrayWritable(Records(xs, fields))
  {
    RecordsAt(xs, fields);
  }

  /** The objects readArray's callback builds from the records read, in array order. */
  function Objects<T>(rs: seq<seq<Field>>, build: seq<Field> --> T): seq<T>
    requires forall i :: 0 <= i < |rs| ==> build.requires(rs[i])
  {
    if rs == [] then [] else Objects(rs[..|rs| - 1], build) + [build(rs[|rs| - 1])]
  }

  /** The i-th object is built from the i-th record. */
  lemma {:induction false} ObjectsAt<T>(rs: seq<seq<Field>>, build: seq<Field> --> T)
    requires forall i :: 0 <= i < |rs| ==> build.requires(rs[i])
    ensures |Objects(rs, build)| == |rs|
    ensures forall i :: 0 <= i < |rs| ==> Objects(rs, build)[i] == build(rs[i])
  {
    if rs != [] {
      ObjectsAt(rs[..|rs| - 1], build);
    }
  }

  /** When the builder inverts the field lists, building the written records gives the objects back. */
  lemma {:induction false} ObjectsOfRecords<T>(xs: seq<T>, fields: T -> seq<Field>, build: seq<Field> --> T)
    requires forall i :: 0 <= i < |xs| ==> build.requires(fields(xs[i]))
    requires forall i :: 0 <= i < |xs| ==> build(fields(xs[i])) == xs[i]
    ensures forall i :: 0 <= i < |Records(xs, fields)| ==> build.requires(Records(xs, fields)[i])
    ensures Objects(Records(xs, fields), build) == xs
  {
    RecordsAt(xs, fields);
    if xs != [] {
      var n := |xs| - 1;
      var rs := Records(xs, fields);
      ObjectsOfRecords(xs[..n], fields, build);
      RecordsAt(xs[..n], fields);
      assert rs[..n] == Records(xs[..n], fields);
      assert xs == xs[..n] + [xs[n]];
    }
  }

  /** readArray(type): the count, then one object per record, each built by the callback from the fields it read. */
  function DecObjects<T>(s: seq<byte>, ks: seq<Kind>, build: seq<Field> --> T): (r: Option<Parsed<seq<T>>>)
    requires forall fs :: Shaped(fs, ks) ==> build.requires(fs)
  {
    var a :- DecArray(s, ks);
    Some(Parsed(Objects(a.value, build), a.rest))
  }

  /**
   * An array of objects written record by record reads back as the same
   * objects, when each object's record has the kinds read, reads back alone
   * and the callback rebuilds that object from it.
   */
  lemma ObjectArrayRoundTrip<T>(xs: seq<T>, fields: T -> seq<Field>, build: seq<Field> --> T, ks: seq<Kind>, t: seq<byte>)
    requires |xs| < TWO32
    requires forall fs :: Shaped(fs, ks) ==> build.requires(fs)
    requires forall i :: 0 <= i < |xs| ==> Shaped(fields(xs[i]), ks) && AllCanonical(fields(xs[i])) && build(fields(xs[i])) == xs[i]
    ensures ArrayWritable(Records(xs, fields))
    ensures DecObjects(EncArray(Records(xs, fields)) + t, ks, build) == Some(Parsed(xs, t))
  {
    var rs := Records(xs, fields);
    RecordsAt(xs, fields);
    ArrayRoundTrip(rs, ks, t);
    ObjectsOfRecords(xs, fields, build);
    var a := DecArray(EncArray(rs) + t, ks);
    assert a == Some(Parsed(rs, t));
  }
}
