/**
 * Round trips: whatever the encoders write, the `DeSerializer` readers
 * read back, leaving untouched any bytes that follow. Where the decoder
 * does not rebuild the object exactly (numbers are cast by their dtype's
 * letters, a rank-0 array comes back with one dimension, an empty error
 * list is dropped) the lemmas say what comes back instead.
 */
module RoundTrip {
  import opened Wrappers
  import opened Bytes
  import opened Values
  import opened SocketStrings
  import opened Serializer
  import opened Decoding

  /** A word written by `int_to_bytes` reads back as the same integer. */
  lemma IntRoundTrip(n: nat, rest: Bytes)
    requires n < TWO_32
    ensures ReadInt(U32(n) + rest) == Ok(Decoded(n, rest))
  {
    assert (U32(n) + rest)[..4] == U32(n);
    assert (U32(n) + rest)[4..] == rest;
    U32Inverse(n);
  }

  /** `bytes_serialize` and `string_serialize` output read back by `bytes_deserialization`. */
  lemma BytesRoundTrip(b: Bytes, rest: Bytes)
    requires |b| < TWO_32
    ensures LengthPrefixed(b) == Ok(U32(|b|) + b)
    ensures ReadBytes(U32(|b|) + b + rest) == Ok(Decoded(b, rest))
  {
    assert U32(|b|) + b + rest == U32(|b|) + (b + rest);
    IntRoundTrip(|b|, b + rest);
    assert (b + rest)[..|b|] == b;
    assert (b + rest)[|b|..] == rest;
  }

  /**
   * `scalar_serialize` output read back by `scalar_deserialization`: the
   * same dtype and buffer, the class chosen by the dtype's letters.
   */
  lemma ScalarRoundTrip(n: Number, rest: Bytes)
    requires ScalarWire(n).Ok?
    ensures ReadScalar(ScalarWire(n).value + rest) == Ok(Decoded(Number(CastKind(n.dtype), n.dtype, n.raw), rest))
  {
    var tail := n.raw + rest;
    var mid := U32(|n.raw|) + tail;
    ScalarLayout(n, rest);
    BytesRoundTrip(n.dtype, mid);
    IntRoundTrip(|n.raw|, tail);
    SplitAt(n.raw, rest);
    ReadScalarSteps(ScalarWire(n).value + rest, n.dtype, mid, |n.raw|, tail);
  }

  /** The bytes `scalar_serialize` writes: dtype length and dtype, buffer length and buffer. */
  lemma ScalarLayout(n: Number, rest: Bytes)
    requires ScalarWire(n).Ok?
    ensures |n.dtype| < TWO_32 && |n.raw| < TWO_32
    ensures ScalarWire(n).value + rest == U32(|n.dtype|) + n.dtype + (U32(|n.raw|) + (n.raw + rest))
  {
    assert IntToBytes(|n.raw|) == Ok(U32(|n.raw|));
    assert LengthPrefixed(n.dtype) == Ok(U32(|n.dtype|) + n.dtype);
  }

  /** `scalar_deserialization` step by step: the dtype string, the byte count, then that many bytes. */
  lemma ReadScalarSteps(bs: Bytes, dtype: Bytes, mid: Bytes, size: nat, tail: Bytes)
    requires ReadBytes(bs) == Ok(Decoded(dtype, mid))
    requires ReadInt(mid) == Ok(Decoded(size, tail))
    ensures ReadScalar(bs) == Ok(Decoded(Number(CastKind(dtype), dtype, Split(tail, size).0), Split(tail, size).1))
  {
  }

  /** Reading exactly the bytes of `a` from `a + b` returns `a` and leaves `b`. */
  lemma SplitAt(a: Bytes, b: Bytes)
    ensures Split(a + b, |a|) == (a, b)
  {
    assert (a + b)[..|a|] == a;
    assert (a + b)[|a|..] == b;
  }

  /** A Python bool through `scalar_serialize` and `boolean_deserialization` comes back as itself. */
  lemma BoolRoundTrip(b: bool, rest: Bytes)
    ensures ScalarWire(BoolNumber(b)).Ok?
    ensures ReadBool(ScalarWire(BoolNumber(b)).value + rest) == Ok(Decoded(BoolNumber(b), rest))
  {
    ScalarRoundTrip(BoolNumber(b), rest);
    var x := ReadScalar(ScalarWire(BoolNumber(b)).value + rest);
    ReadBoolOfScalar(ScalarWire(BoolNumber(b)).value + rest, x);
    TruthyOf(b);
  }

  /** `boolean_deserialization` is `bool()` of whatever `scalar_deserialization` returns. */
  lemma ReadBoolOfScalar(bs: Bytes, x: Result<Decoded<Number>, Error>)
    requires ReadScalar(bs) == x
    ensures ReadBool(bs) == if x.Ok? then Ok(Decoded(BoolNumber(Truthy(x.value.value.raw)), x.value.rest)) else Err(x.error)
  {
  }

  /** The one byte numpy stores for a bool is non-zero exactly for True. */
  lemma TruthyOf(b: bool)
    ensures Truthy(BoolNumber(b).raw) == b
  {
    assert BoolNumber(b).raw[1..] == [];
  }

  /** The dimension words read back by the loop of `ndarray_deserialization`, in order. */
  lemma {:induction false} DimsRoundTrip(shape: seq<nat>, rest: Bytes)
    requires DimWords(shape).Ok?
    ensures ReadDims(DimWords(shape).value + rest, |shape|) == Ok(Decoded(shape, rest))
    decreases |shape|
  {
    if shape != [] {
      var k := |shape| - 1;
      var init := shape[..k];
      assert shape == init + [shape[k]];
      DimWordsSnoc(init, shape[k]);
      var w := U32(shape[k]);
      assert DimWords(shape).value + rest == DimWords(init).value + (w + rest);
      DimsRoundTrip(init, w + rest);
      IntRoundTrip(shape[k], rest);
    }
  }

  /**
   * `ndarray_serialize` output read back by `ndarray_deserialization`:
   * dtype and data unchanged, the shape passed through `np.atleast_1d`.
   */
  lemma ArrayRoundTrip(a: NdArray, rest: Bytes)
    requires NdArrayWire(a).Ok?
    ensures ReadArray(NdArrayWire(a).value + rest) == Ok(Decoded(NdArray(a.dtype, AtLeast1d(a.shape), a.data), rest))
  {
    var dims := DimWords(a.shape).value;
    var t3 := dims + (a.data + rest);
    var t2 := U32(|a.shape|) + t3;
    var t1 := U32(|a.data|) + t2;
    assert NdArrayWire(a).value + rest == U32(|a.dtype|) + a.dtype + t1;
    BytesRoundTrip(a.dtype, t1);
    IntRoundTrip(|a.data|, t2);
    IntRoundTrip(|a.shape|, t3);
    DimsRoundTrip(a.shape, a.data + rest);
    assert (a.data + rest)[..|a.data|] == a.data;
    assert (a.data + rest)[|a.data|..] == rest;
  }

  /** A number the scalar reader rebuilds as it was: its class is the one its dtype's letters give. */
  predicate ScalarShaped(n: Number) {
    n.kind == CastKind(n.dtype)
  }

  /**
   * An Axis written field by field reads back as the same Axis, provided
   * its index and spread order keep their class through the scalar
   * reader and its data array has at least one dimension.
   */
  lemma AxisRoundTrip(ax: Axis, rest: Bytes)
    requires AxisWire(ax).Ok?
    requires ScalarShaped(ax.index) && ScalarShaped(ax.spreadOrder) && |ax.data.shape| >= 1
    ensures ReadAxis(AxisWire(ax).value + rest) == Ok(Decoded(ax, rest))
  {
    var c := LengthPrefixed(ClassName(AxisClass));
    var l := LengthPrefixed(ax.axisLabel);
    var u := LengthPrefixed(ax.units);
    var d := NdArrayWire(ax.data);
    var i := ScalarWire(ax.index);
    var s := ScalarWire(ax.spreadOrder);
    ThenOk(c, Then(l, Then(u, Then(d, Then(i, s)))), rest);
    ThenOk(l, Then(u, Then(d, Then(i, s))), rest);
    ThenOk(u, Then(d, Then(i, s)), rest);
    ThenOk(d, Then(i, s), rest);
    ThenOk(i, s, rest);
    var r4 := s.value + rest;
    var r3 := i.value + r4;
    var r2 := d.value + r3;
    var r1 := u.value + r2;
    var r0 := l.value + r1;
    BytesRoundTrip(ClassName(AxisClass), r0);
    BytesRoundTrip(ax.axisLabel, r1);
    BytesRoundTrip(ax.units, r2);
    ArrayRoundTrip(ax.data, r3);
    ScalarRoundTrip(ax.index, r4);
    ScalarRoundTrip(ax.spreadOrder, rest);
  }

  /** The leading fields of a DataWithAxes read back as written, when its class name is a known flavour. */
  lemma DwaHeaderRoundTrip(d: DataWithAxes, rest: Bytes, dn: set<Bytes>)
    requires DwaHeaderWire(d).Ok? && d.className in dn && ScalarShaped(d.timestamp)
    ensures ReadDwaHeader(DwaHeaderWire(d).value + rest, dn)
         == Ok(Decoded(DwaHeader(d.className, d.timestamp, d.name, d.source, d.dim, d.distribution), rest))
  {
    var c := LengthPrefixed(d.className);
    var t := ScalarWire(d.timestamp);
    var n := LengthPrefixed(d.name);
    var s := LengthPrefixed(d.source);
    var m := LengthPrefixed(d.dim);
    var b := LengthPrefixed(d.distribution);
    ThenOk(c, Then(t, Then(n, Then(s, Then(m, b)))), rest);
    ThenOk(t, Then(n, Then(s, Then(m, b))), rest);
    ThenOk(n, Then(s, Then(m, b)), rest);
    ThenOk(s, Then(m, b), rest);
    ThenOk(m, b, rest);
    var r4 := b.value + rest;
    var r3 := m.value + r4;
    var r2 := s.value + r3;
    var r1 := n.value + r2;
    var r0 := t.value + r1;
    BytesRoundTrip(d.className, r0);
    ScalarRoundTrip(d.timestamp, r1);
    BytesRoundTrip(d.name, r2);
    BytesRoundTrip(d.source, r3);
    BytesRoundTrip(d.dim, r4);
    BytesRoundTrip(d.distribution, rest);
  }

  /**
   * The objects the generic decoder rebuilds exactly: numbers keep their
   * class through the dtype letters (a bool is 0 or 1), arrays have at
   * least one dimension, a DataWithAxes has a known class name, a
   * non-empty error list if any, string attribute names and one value
   * per name, and everything they contain is well formed too.
   */
  ghost predicate WellFormed(v: Value, dn: set<Bytes>)
    decreases v, 1
  {
    match v
    case Num(n) => if n.kind == BoolKind then n == BoolNumber(n.raw == [1]) else ScalarShaped(n)
    case Array(a) => |a.shape| >= 1
    case List(items) => AllWellFormed(items, dn)
    case AxisVal(ax) => ScalarShaped(ax.index) && ScalarShaped(ax.spreadOrder) && |ax.data.shape| >= 1
    case DwaVal(d) =>
      d.className in dn && ScalarShaped(d.timestamp)
      && AllWellFormed(d.data, dn) && AllWellFormed(d.labels, dn)
      && AllWellFormed(d.navIndexes, dn) && AllWellFormed(d.axes, dn)
      && (d.errors.Attached? ==> d.errors.arrays != [] && AllWellFormed(d.errors.arrays, dn))
      && (forall i :: 0 <= i < |d.extraAttributes| ==> d.extraAttributes[i].Str?)
      && |d.extraValues| == |d.extraAttributes| && AllWellFormed(d.extraValues, dn)
    case DteVal(t) => ScalarShaped(t.timestamp) && AllWellFormed(t.data, dn)
    case Parameter(path, _) => AllWellFormed(path, dn)
    case _ => true
  }

  /** Every element is well formed. */
  ghost predicate AllWellFormed(items: seq<Value>, dn: set<Bytes>)
    decreases items, 0
  {
    forall i :: 0 <= i < |items| ==> WellFormed(items[i], dn)
  }

  /*
   * The lemmas below connect a tag to the reader it selects while the
   * reader's result is still unknown, so that a proof which knows that
   * result never has to unfold the dispatch over every reader at once.
   */

  /** A "scalar" tag hands the rest to `scalar_deserialization`. */
  lemma TaggedScalar(bs: Bytes, p: Bytes, dn: set<Bytes>, x: Result<Decoded<Number>, Error>)
    requires ReadBytes(bs) == Ok(Decoded(TypeName(ScalarType), p)) && ReadScalar(p) == x
    ensures ReadTagged(bs, dn) == if x.Ok? then Ok(Decoded(Num(x.value.value), x.value.rest)) else Err(x.error)
  {
    TypeOfNameInverse(ScalarType);
  }

  /** A "bool" tag hands the rest to `boolean_deserialization`. */
  lemma TaggedBool(bs: Bytes, p: Bytes, dn: set<Bytes>, x: Result<Decoded<Number>, Error>)
    requires ReadBytes(bs) == Ok(Decoded(TypeName(BoolType), p)) && ReadBool(p) == x
    ensures ReadTagged(bs, dn) == if x.Ok? then Ok(Decoded(Num(x.value.value), x.value.rest)) else Err(x.error)
  {
    TypeOfNameInverse(BoolType);
  }

  /** A "string" or "bytes" tag hands the rest to `bytes_deserialization`. */
  lemma TaggedText(bs: Bytes, p: Bytes, dn: set<Bytes>, t: SerializableType, x: Result<Decoded<Bytes>, Error>)
    requires t == StringType || t == BytesType
    requires ReadBytes(bs) == Ok(Decoded(TypeName(t), p)) && ReadBytes(p) == x
    ensures ReadTagged(bs, dn) ==
      if x.Err? then Err(x.error)
      else if t == StringType then Ok(Decoded(Str(x.value.value), x.value.rest))
      else Ok(Decoded(BytesVal(x.value.value), x.value.rest))
  {
    TypeOfNameInverse(t);
  }

  /** An "array" tag hands the rest to `ndarray_deserialization`. */
  lemma TaggedArray(bs: Bytes, p: Bytes, dn: set<Bytes>, x: Result<Decoded<NdArray>, Error>)
    requires ReadBytes(bs) == Ok(Decoded(TypeName(ArrayType), p)) && ReadArray(p) == x
    ensures ReadTagged(bs, dn) == if x.Ok? then Ok(Decoded(Array(x.value.value), x.value.rest)) else Err(x.error)
  {
    TypeOfNameInverse(ArrayType);
  }

  /** An "axis" tag hands the rest to `axis_deserialization`. */
  lemma TaggedAxis(bs: Bytes, p: Bytes, dn: set<Bytes>, x: Result<Decoded<Axis>, Error>)
    requires ReadBytes(bs) == Ok(Decoded(TypeName(AxisType), p)) && ReadAxis(p) == x
    ensures ReadTagged(bs, dn) == if x.Ok? then Ok(Decoded(AxisVal(x.value.value), x.value.rest)) else Err(x.error)
  {
    TypeOfNameInverse(AxisType);
  }

  /** A DataWithAxes tag hands the rest to `dwa_deserialization`. */
  lemma TaggedDwa(bs: Bytes, p: Bytes, dn: set<Bytes>, x: Result<Decoded<DataWithAxes>, Error>)
    requires ReadBytes(bs) == Ok(Decoded(TypeName(DataWithAxesType), p)) && ReadDwa(p, dn) == x
    ensures ReadTagged(bs, dn) == if x.Ok? then Ok(Decoded(DwaVal(x.value.value), x.value.rest)) else Err(x.error)
  {
    TypeOfNameInverse(DataWithAxesType);
  }

  /** A DataToExport tag hands the rest to `dte_deserialization`. */
  lemma TaggedDte(bs: Bytes, p: Bytes, dn: set<Bytes>, x: Result<Decoded<DataToExport>, Error>)
    requires ReadBytes(bs) == Ok(Decoded(TypeName(DataToExportType), p)) && ReadDte(p, dn) == x
    ensures ReadTagged(bs, dn) == if x.Ok? then Ok(Decoded(DteVal(x.value.value), x.value.rest)) else Err(x.error)
  {
    TypeOfNameInverse(DataToExportType);
  }

  /**
   * A tag that names no `SerializableTypes` member reads as None, and the
   * payload written after it stays unread, whatever the tag.
   */
  lemma UnknownTagReadsNone(t: Bytes, rest: Bytes, dn: set<Bytes>)
    requires |t| < TWO_32 && TypeOfName(t) == None
    ensures ReadTagged(U32(|t|) + t + rest, dn) == Ok(Decoded(NoneVal, rest))
  {
    BytesRoundTrip(t, rest);
  }

  /** The tagged encoding starts with the type's name as a length-prefixed string. */
  lemma TagLayout(reg: Registry, v: Value, t: SerializableType, rest: Bytes)
    requires TaggedWire(reg, v).Ok? && TypeOfClass(ClassOf(v)) == Some(t)
    ensures ApplySerializer(reg, v).Ok?
    ensures ReadBytes(TaggedWire(reg, v).value + rest) == Ok(Decoded(TypeName(t), ApplySerializer(reg, v).value + rest))
  {
    ThenOk(LengthPrefixed(TypeTag(ClassOf(v))), ApplySerializer(reg, v), rest);
    BytesRoundTrip(TypeTag(ClassOf(v)), ApplySerializer(reg, v).value + rest);
  }

  /**
   * `type_and_object_deserialization` reads back what the tagged encoding
   * of a well-formed object wrote, when every registered encoder is the
   * standard one for its class.
   */
  lemma {:induction false} TaggedRoundTrip(reg: Registry, v: Value, rest: Bytes, dn: set<Bytes>)
    requires Compatible(reg) && WellFormed(v, dn) && TaggedWire(reg, v).Ok?
    ensures ReadTagged(TaggedWire(reg, v).value + rest, dn) == Ok(Decoded(v, rest))
    decreases v, 3
  {
    ThenOk(LengthPrefixed(TypeTag(ClassOf(v))), ApplySerializer(reg, v), rest);
    StandardDispatch(reg, v);
    match v
    case BytesVal(b) => TextTagged(reg, v, rest, dn);
    case Str(s) => TextTagged(reg, v, rest, dn);
    case Num(n) => NumTagged(reg, n, rest, dn);
    case Array(a) => ArrayTagged(reg, a, rest, dn);
    case AxisVal(ax) => AxisTagged(reg, ax, rest, dn);
    case DwaVal(d) => DwaTagged(reg, d, rest, dn);
    case DteVal(t) => DteTagged(reg, t, rest, dn);
  }

  /** A tagged string or bytes object reads back as itself. */
  lemma TextTagged(reg: Registry, v: Value, rest: Bytes, dn: set<Bytes>)
    requires Compatible(reg) && TaggedWire(reg, v).Ok? && (v.Str? || v.BytesVal?)
    ensures ReadTagged(TaggedWire(reg, v).value + rest, dn) == Ok(Decoded(v, rest))
  {
    var t := if v.Str? then StringType else BytesType;
    var b := if v.Str? then v.s else v.b;
    TagLayout(reg, v, t, rest);
    StandardDispatch(reg, v);
    var p := ApplySerializer(reg, v).value + rest;
    BytesRoundTrip(b, rest);
    TaggedText(TaggedWire(reg, v).value + rest, p, dn, t, ReadBytes(p));
  }

  /** A tagged number reads back as itself: a bool through `boolean_deserialization`, others as scalars. */
  lemma NumTagged(reg: Registry, n: Number, rest: Bytes, dn: set<Bytes>)
    requires Compatible(reg) && TaggedWire(reg, Num(n)).Ok?
    requires n.kind == BoolKind ==> n == BoolNumber(n.raw == [1])
    requires n.kind != BoolKind ==> ScalarShaped(n)
    ensures ReadTagged(TaggedWire(reg, Num(n)).value + rest, dn) == Ok(Decoded(Num(n), rest))
  {
    var v := Num(n);
    StandardDispatch(reg, v);
    var bs := TaggedWire(reg, v).value + rest;
    var p := ApplySerializer(reg, v).value + rest;
    if n.kind == BoolKind {
      TagLayout(reg, v, BoolType, rest);
      BoolRoundTrip(n.raw == [1], rest);
      TaggedBool(bs, p, dn, ReadBool(p));
    } else {
      TagLayout(reg, v, ScalarType, rest);
      ScalarRoundTrip(n, rest);
      TaggedScalar(bs, p, dn, ReadScalar(p));
    }
  }

  /** A tagged array of rank at least one reads back as itself. */
  lemma ArrayTagged(reg: Registry, a: NdArray, rest: Bytes, dn: set<Bytes>)
    requires Compatible(reg) && TaggedWire(reg, Array(a)).Ok? && |a.shape| >= 1
    ensures ReadTagged(TaggedWire(reg, Array(a)).value + rest, dn) == Ok(Decoded(Array(a), rest))
  {
    var v := Array(a);
    TagLayout(reg, v, ArrayType, rest);
    StandardDispatch(reg, v);
    var p := ApplySerializer(reg, v).value + rest;
    ArrayRoundTrip(a, rest);
    TaggedArray(TaggedWire(reg, v).value + rest, p, dn, ReadArray(p));
  }

  /** A tagged well-formed axis reads back as itself. */
  lemma AxisTagged(reg: Registry, ax: Axis, rest: Bytes, dn: set<Bytes>)
    requires Compatible(reg) && TaggedWire(reg, AxisVal(ax)).Ok?
    requires ScalarShaped(ax.index) && ScalarShaped(ax.spreadOrder) && |ax.data.shape| >= 1
    ensures ReadTagged(TaggedWire(reg, AxisVal(ax)).value + rest, dn) == Ok(Decoded(AxisVal(ax), rest))
  {
    var v := AxisVal(ax);
    TagLayout(reg, v, AxisType, rest);
    StandardDispatch(reg, v);
    var p := ApplySerializer(reg, v).value + rest;
    AxisRoundTrip(ax, rest);
    TaggedAxis(TaggedWire(reg, v).value + rest, p, dn, ReadAxis(p));
  }

  /** A tagged well-formed DataWithAxes reads back as itself. */
  lemma {:induction false} DwaTagged(reg: Registry, d: DataWithAxes, rest: Bytes, dn: set<Bytes>)
    requires Compatible(reg) && TaggedWire(reg, DwaVal(d)).Ok? && WellFormed(DwaVal(d), dn)
    ensures ReadTagged(TaggedWire(reg, DwaVal(d)).value + rest, dn) == Ok(Decoded(DwaVal(d), rest))
    decreases d, 2
  {
    var v := DwaVal(d);
    TagLayout(reg, v, DataWithAxesType, rest);
    StandardDispatch(reg, v);
    var p := ApplySerializer(reg, v).value + rest;
    DwaRoundTrip(reg, d, rest, dn);
    TaggedDwa(TaggedWire(reg, v).value + rest, p, dn, ReadDwa(p, dn));
  }

  /** A tagged well-formed DataToExport reads back as itself. */
  lemma {:induction false} DteTagged(reg: Registry, t: DataToExport, rest: Bytes, dn: set<Bytes>)
    requires Compatible(reg) && TaggedWire(reg, DteVal(t)).Ok? && WellFormed(DteVal(t), dn)
    ensures ReadTagged(TaggedWire(reg, DteVal(t)).value + rest, dn) == Ok(Decoded(DteVal(t), rest))
    decreases t, 2
  {
    var v := DteVal(t);
    TagLayout(reg, v, DataToExportType, rest);
    StandardDispatch(reg, v);
    var p := ApplySerializer(reg, v).value + rest;
    DteRoundTrip(reg, t, rest, dn);
    TaggedDte(TaggedWire(reg, v).value + rest, p, dn, ReadDte(p, dn));
  }

  /** One more pass of the element loop appends the next tagged object. */
  lemma ReadItemsStep(bs: Bytes, k: nat, init: seq<Value>, mid: Bytes, x: Value, rest: Bytes, dn: set<Bytes>)
    requires ReadItems(bs, k, dn) == Ok(Decoded(init, mid)) && ReadTagged(mid, dn) == Ok(Decoded(x, rest))
    ensures ReadItems(bs, k + 1, dn) == Ok(Decoded(init + [x], rest))
  {
  }

  /** Byte strings laid end to end. */
  function Concat(ws: seq<Bytes>): Bytes
    decreases |ws|
  {
    if ws == [] then [] else Concat(ws[..|ws| - 1]) + ws[|ws| - 1]
  }

  /** The concatenation of a non-empty sequence, then more bytes: all but the last encoding, then the last one and the bytes. */
  lemma ConcatSnoc(ws: seq<Bytes>, rest: Bytes)
    requires ws != []
    ensures Concat(ws) + rest == Concat(ws[..|ws| - 1]) + (ws[|ws| - 1] + rest)
  {
  }

  /** Each encoding in `ws`, followed by any bytes, reads back as the object at the same position. */
  ghost predicate EachReadsBack(ws: seq<Bytes>, items: seq<Value>, dn: set<Bytes>) {
    |ws| == |items| && forall i, r :: 0 <= i < |ws| ==> ReadTagged(ws[i] + r, dn) == Ok(Decoded(items[i], r))
  }

  /** Appending one encoding to the sequence appends its bytes to the concatenation. */
  lemma ConcatAppend(init: seq<Bytes>, w: Bytes)
    ensures Concat(init + [w]) == Concat(init) + w
  {
    assert (init + [w])[..|init|] == init;
  }

  /** The tagged encodings of a sequence, one per object, whose concatenation the list carries. */
  lemma {:induction false} ItemsParts(reg: Registry, items: seq<Value>) returns (ws: seq<Bytes>)
    requires ItemsWire(reg, items).Ok?
    ensures |ws| == |items| && Concat(ws) == ItemsWire(reg, items).value
    ensures forall i :: 0 <= i < |items| ==> TaggedWire(reg, items[i]) == Ok(ws[i])
    decreases |items|
  {
    if items == [] {
      ws := [];
    } else {
      var k := |items| - 1;
      var init := items[..k];
      DropLast(items);
      ItemsWireSnoc(reg, init, items[k]);
      var last := TaggedWire(reg, items[k]);
      ThenOk(ItemsWire(reg, init), last, []);
      var front := ItemsParts(reg, init);
      ws := front + [last.value];
      ConcatAppend(front, last.value);
      forall i | 0 <= i < |items| ensures TaggedWire(reg, items[i]) == Ok(ws[i]) {
        if i < k {
          assert items[i] == init[i];
        }
      }
    }
  }

  /**
   * Read from the end, with `rest` after the last encoding: the last one
   * reads back as the last object, and so on towards the front, each
   * followed by everything after it.
   */
  ghost predicate ReadsBackBefore(ws: seq<Bytes>, items: seq<Value>, rest: Bytes, dn: set<Bytes>)
    decreases |ws|
  {
    |ws| == |items|
    && (ws != [] ==>
          ReadTagged(ws[|ws| - 1] + rest, dn) == Ok(Decoded(items[|ws| - 1], rest))
          && ReadsBackBefore(ws[..|ws| - 1], items[..|ws| - 1], ws[|ws| - 1] + rest, dn))
  }

  /** Encodings that each read back, whatever follows, read back in sequence. */
  lemma {:induction false} ReadsBackInSequence(ws: seq<Bytes>, items: seq<Value>, rest: Bytes, dn: set<Bytes>)
    requires EachReadsBack(ws, items, dn)
    ensures ReadsBackBefore(ws, items, rest, dn)
    decreases |ws|
  {
    if ws != [] {
      var k := |ws| - 1;
      assert EachReadsBack(ws[..k], items[..k], dn) by {
        forall i, r | 0 <= i < k ensures ReadTagged(ws[..k][i] + r, dn) == Ok(Decoded(items[..k][i], r)) {
          assert ws[..k][i] == ws[i] && items[..k][i] == items[i];
        }
      }
      ReadsBackInSequence(ws[..k], items[..k], ws[k] + rest, dn);
    }
  }

  /** The element loop over encodings laid end to end reads back the objects in order. */
  lemma {:induction false} ReadItemsConcat(ws: seq<Bytes>, items: seq<Value>, rest: Bytes, dn: set<Bytes>)
    requires ReadsBackBefore(ws, items, rest, dn)
    ensures ReadItems(Concat(ws) + rest, |ws|, dn) == Ok(Decoded(items, rest))
    decreases |ws|
  {
    if ws != [] {
      var k := |ws| - 1;
      ReadItemsConcat(ws[..k], items[..k], ws[k] + rest, dn);
      ConcatSnoc(ws, rest);
      ReadItemsStep(Concat(ws) + rest, k, items[..k], ws[k] + rest, items[k], rest, dn);
      DropLast(items);
    } else {
      assert Concat(ws) + rest == rest && items == [];
    }
  }

  /** The element loop of `list_deserialization` reads back each tagged element, in order. */
  lemma {:induction false} ItemsRoundTrip(reg: Registry, items: seq<Value>, rest: Bytes, dn: set<Bytes>)
    requires Compatible(reg) && AllWellFormed(items, dn) && ItemsWire(reg, items).Ok?
    ensures ReadItems(ItemsWire(reg, items).value + rest, |items|, dn) == Ok(Decoded(items, rest))
    decreases items, 0
  {
    var ws := ItemsParts(reg, items);
    forall i, r | 0 <= i < |ws| ensures ReadTagged(ws[i] + r, dn) == Ok(Decoded(items[i], r)) {
      TaggedRoundTrip(reg, items[i], r, dn);
    }
    ReadsBackInSequence(ws, items, rest, dn);
    ReadItemsConcat(ws, items, rest, dn);
  }

  /** `list_deserialization` reads back what `list_serialize` wrote: the count, then the elements. */
  lemma {:induction false} ListRoundTrip(reg: Registry, items: seq<Value>, rest: Bytes, dn: set<Bytes>)
    requires Compatible(reg) && AllWellFormed(items, dn) && ListWire(reg, items).Ok?
    ensures ReadList(ListWire(reg, items).value + rest, dn) == Ok(Decoded(items, rest))
    decreases items, 1
  {
    var body := ItemsWire(reg, items);
    ThenOk(IntToBytes(|items|), body, rest);
    IntRoundTrip(|items|, body.value + rest);
    ItemsRoundTrip(reg, items, rest, dn);
  }

  /** One more pass of the extra-attribute loop reads the next value and keeps it under a string name. */
  lemma ReadExtrasStep(bs: Bytes, names: seq<Value>, init: seq<Value>, mid: Bytes, x: Value, rest: Bytes, dn: set<Bytes>)
    requires names != [] && names[|names| - 1].Str?
    requires ReadExtras(bs, names[..|names| - 1], dn) == Ok(Decoded(init, mid))
    requires ReadTagged(mid, dn) == Ok(Decoded(x, rest))
    ensures ReadExtras(bs, names, dn) == Ok(Decoded(init + [x], rest))
  {
  }

  /** The extra-attribute loop over encodings laid end to end reads back one value per string name. */
  lemma {:induction false} ReadExtrasConcat(ws: seq<Bytes>, names: seq<Value>, values: seq<Value>, rest: Bytes, dn: set<Bytes>)
    requires ReadsBackBefore(ws, values, rest, dn)
    requires |names| == |values| && forall i :: 0 <= i < |names| ==> names[i].Str?
    ensures ReadExtras(Concat(ws) + rest, names, dn) == Ok(Decoded(values, rest))
    decreases |ws|
  {
    if ws != [] {
      var k := |ws| - 1;
      ReadExtrasConcat(ws[..k], names[..k], values[..k], ws[k] + rest, dn);
      ConcatSnoc(ws, rest);
      ReadExtrasStep(Concat(ws) + rest, names, values[..k], ws[k] + rest, values[k], rest, dn);
      DropLast(values);
    } else {
      assert Concat(ws) + rest == rest && values == [] && names == [];
    }
  }

  /** The extra-attribute loop reads back one value per name, in order. */
  lemma {:induction false} ExtrasRoundTrip(reg: Registry, names: seq<Value>, values: seq<Value>, rest: Bytes, dn: set<Bytes>)
    requires Compatible(reg) && AllWellFormed(values, dn) && ItemsWire(reg, values).Ok?
    requires |names| == |values| && forall i :: 0 <= i < |names| ==> names[i].Str?
    ensures ReadExtras(ItemsWire(reg, values).value + rest, names, dn) == Ok(Decoded(values, rest))
    decreases values, 0
  {
    var ws := ItemsParts(reg, values);
    forall i, r | 0 <= i < |ws| ensures ReadTagged(ws[i] + r, dn) == Ok(Decoded(values[i], r)) {
      TaggedRoundTrip(reg, values[i], r, dn);
    }
    ReadsBackInSequence(ws, values, rest, dn);
    ReadExtrasConcat(ws, names, values, rest, dn);
  }

  /** The error arrays as the decoder reads them: the attached list, or an empty one. */
  function ErrorList(e: ErrorArrays): seq<Value> {
    match e
    case Attached(arrays) => arrays
    case NoErrors => []
  }

  /** The error list reads back as written; no error arrays read back as an empty list. */
  lemma {:induction false} ErrorsRoundTrip(reg: Registry, d: DataWithAxes, rest: Bytes, dn: set<Bytes>)
    requires Compatible(reg) && ErrorsWire(reg, d).Ok?
    requires d.errors.Attached? ==> AllWellFormed(d.errors.arrays, dn)
    ensures ReadList(ErrorsWire(reg, d).value + rest, dn) == Ok(Decoded(ErrorList(d.errors), rest))
    decreases d, 0
  {
    match d.errors
    case Attached(errs) =>
      ListRoundTrip(reg, errs, rest, dn);
    case NoErrors =>
      IntRoundTrip(0, rest);
  }

  /** Where each of the reads of `dwa_deserialization` starts, and what is left at the end. */
  datatype DwaMarks = DwaMarks(
    start: Bytes, data: Bytes, units: Bytes, labels: Bytes, origin: Bytes, nav: Bytes,
    axes: Bytes, errors: Bytes, names: Bytes, extras: Bytes, rest: Bytes)

  /** `dwa_deserialization` assembles the object from its ten successful reads. */
  lemma DwaReads(d: DataWithAxes, dn: set<Bytes>, m: DwaMarks)
    requires d.errors.Attached? ==> d.errors.arrays != []
    requires ReadDwaHeader(m.start, dn) == Ok(Decoded(DwaHeader(d.className, d.timestamp, d.name, d.source, d.dim, d.distribution), m.data))
    requires ReadList(m.data, dn) == Ok(Decoded(d.data, m.units))
    requires ReadBytes(m.units) == Ok(Decoded(d.units, m.labels))
    requires ReadList(m.labels, dn) == Ok(Decoded(d.labels, m.origin))
    requires ReadBytes(m.origin) == Ok(Decoded(d.origin, m.nav))
    requires ReadList(m.nav, dn) == Ok(Decoded(d.navIndexes, m.axes))
    requires ReadList(m.axes, dn) == Ok(Decoded(d.axes, m.errors))
    requires ReadList(m.errors, dn) == Ok(Decoded(ErrorList(d.errors), m.names))
    requires ReadList(m.names, dn) == Ok(Decoded(d.extraAttributes, m.extras))
    requires ReadExtras(m.extras, d.extraAttributes, dn) == Ok(Decoded(d.extraValues, m.rest))
    ensures ReadDwa(m.start, dn) == Ok(Decoded(d, m.rest))
  {
    ErrorsBack(d.errors);
  }

  /** The decoder's rule for the error list rebuilds any error arrays but an empty attached list. */
  lemma ErrorsBack(e: ErrorArrays)
    requires e.Attached? ==> e.arrays != []
    ensures (if ErrorList(e) == [] then NoErrors else Attached(ErrorList(e))) == e
  {
  }

  /** The DataWithAxes encoding is its ten parts laid end to end. */
  lemma DwaLayout(reg: Registry, d: DataWithAxes, rest: Bytes)
    requires DwaWire(reg, d).Ok?
    ensures DwaHeaderWire(d).Ok? && ListWire(reg, d.data).Ok? && LengthPrefixed(d.units).Ok?
    ensures ListWire(reg, d.labels).Ok? && LengthPrefixed(d.origin).Ok? && ListWire(reg, d.navIndexes).Ok?
    ensures ListWire(reg, d.axes).Ok? && ErrorsWire(reg, d).Ok? && ListWire(reg, d.extraAttributes).Ok?
    ensures ItemsWire(reg, d.extraValues).Ok?
    ensures DwaWire(reg, d).value + rest ==
      DwaHeaderWire(d).value + (ListWire(reg, d.data).value + (LengthPrefixed(d.units).value +
      (ListWire(reg, d.labels).value + (LengthPrefixed(d.origin).value + (ListWire(reg, d.navIndexes).value +
      (ListWire(reg, d.axes).value + (ErrorsWire(reg, d).value + (ListWire(reg, d.extraAttributes).value +
      (ItemsWire(reg, d.extraValues).value + rest)))))))))
  {
    var h := DwaHeaderWire(d);
    var a := ListWire(reg, d.data);
    var u := LengthPrefixed(d.units);
    var l := ListWire(reg, d.labels);
    var o := LengthPrefixed(d.origin);
    var n := ListWire(reg, d.navIndexes);
    var x := ListWire(reg, d.axes);
    var e := ErrorsWire(reg, d);
    var m := ListWire(reg, d.extraAttributes);
    var vs := ItemsWire(reg, d.extraValues);
    ThenOk(h, Then(a, Then(u, Then(l, Then(o, Then(n, Then(x, Then(e, Then(m, vs)))))))), rest);
    ThenOk(a, Then(u, Then(l, Then(o, Then(n, Then(x, Then(e, Then(m, vs))))))), rest);
    ThenOk(u, Then(l, Then(o, Then(n, Then(x, Then(e, Then(m, vs)))))), rest);
    ThenOk(l, Then(o, Then(n, Then(x, Then(e, Then(m, vs))))), rest);
    ThenOk(o, Then(n, Then(x, Then(e, Then(m, vs)))), rest);
    ThenOk(n, Then(x, Then(e, Then(m, vs))), rest);
    ThenOk(x, Then(e, Then(m, vs)), rest);
    ThenOk(e, Then(m, vs), rest);
    ThenOk(m, vs, rest);
  }

  /** `dwa_deserialization` reads back a well-formed DataWithAxes exactly. */
  lemma {:induction false} DwaRoundTrip(reg: Registry, d: DataWithAxes, rest: Bytes, dn: set<Bytes>)
    requires Compatible(reg) && WellFormed(DwaVal(d), dn) && DwaWire(reg, d).Ok?
    ensures ReadDwa(DwaWire(reg, d).value + rest, dn) == Ok(Decoded(d, rest))
    decreases d, 1
  {
    DwaLayout(reg, d, rest);
    var r8 := ItemsWire(reg, d.extraValues).value + rest;
    var r7 := ListWire(reg, d.extraAttributes).value + r8;
    var r6 := ErrorsWire(reg, d).value + r7;
    var r5 := ListWire(reg, d.axes).value + r6;
    var r4 := ListWire(reg, d.navIndexes).value + r5;
    var r3 := LengthPrefixed(d.origin).value + r4;
    var r2 := ListWire(reg, d.labels).value + r3;
    var r1 := LengthPrefixed(d.units).value + r2;
    var r0 := ListWire(reg, d.data).value + r1;
    DwaHeaderRoundTrip(d, r0, dn);
    ListRoundTrip(reg, d.data, r1, dn);
    BytesRoundTrip(d.units, r2);
    ListRoundTrip(reg, d.labels, r3, dn);
    BytesRoundTrip(d.origin, r4);
    ListRoundTrip(reg, d.navIndexes, r5, dn);
    ListRoundTrip(reg, d.axes, r6, dn);
    ErrorsRoundTrip(reg, d, r7, dn);
    ListRoundTrip(reg, d.extraAttributes, r8, dn);
    ExtrasRoundTrip(reg, d.extraAttributes, d.extraValues, rest, dn);
    DwaReads(d, dn, DwaMarks(DwaWire(reg, d).value + rest, r0, r1, r2, r3, r4, r5, r6, r7, r8, rest));
  }

  /**
   * An empty list of error arrays is written as a zero count, so it reads
   * back as no error arrays at all: the object comes back with its other
   * fields unchanged.
   */
  lemma DwaEmptyErrorsRoundTrip(reg: Registry, d: DataWithAxes, rest: Bytes, dn: set<Bytes>)
    requires d.errors == Attached([])
    requires Compatible(reg) && WellFormed(DwaVal(d.(errors := NoErrors)), dn) && DwaWire(reg, d).Ok?
    ensures ReadDwa(DwaWire(reg, d).value + rest, dn) == Ok(Decoded(d.(errors := NoErrors), rest))
  {
    var e := d.(errors := NoErrors);
    ThenLaws(IntToBytes(0), Ok([]), Ok([]));
    assert ErrorsWire(reg, d) == ErrorsWire(reg, e);
    assert DwaWire(reg, d) == DwaWire(reg, e);
    DwaRoundTrip(reg, e, rest, dn);
  }

  /** `dte_deserialization` reads back a well-formed DataToExport exactly. */
  lemma {:induction false} DteRoundTrip(reg: Registry, t: DataToExport, rest: Bytes, dn: set<Bytes>)
    requires Compatible(reg) && WellFormed(DteVal(t), dn) && DteWire(reg, t).Ok?
    ensures ReadDte(DteWire(reg, t).value + rest, dn) == Ok(Decoded(t, rest))
    decreases t, 1
  {
    var c := LengthPrefixed(ClassName(DteClass));
    var s := ScalarWire(t.timestamp);
    var n := LengthPrefixed(t.name);
    var l := ListWire(reg, t.data);
    ThenOk(c, Then(s, Then(n, l)), rest);
    ThenOk(s, Then(n, l), rest);
    ThenOk(n, l, rest);
    var r2 := l.value + rest;
    var r1 := n.value + r2;
    var r0 := s.value + r1;
    BytesRoundTrip(ClassName(DteClass), r0);
    ScalarRoundTrip(t.timestamp, r1);
    BytesRoundTrip(t.name, r2);
    ListRoundTrip(reg, t.data, rest, dn);
  }
}
