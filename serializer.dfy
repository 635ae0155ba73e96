/**
 * The encoders: fixed-width words, length-prefixed byte strings, scalars,
 * arrays, lists, and the factory's dispatch of an object to the encoder
 * registered for its class. Axis, DataWithAxes and DataToExport encoders
 * lie outside the serializer module; the ones here write the fields in
 * the order the decoders read them.
 */
module Serializer {
  import opened Wrappers
  import opened Bytes
  import opened Values

  /** The class-level registry: exact class to encoder. */
  type Registry = map<PyClass, Encoder>

  /**
   * `int_to_bytes`: an unsigned integer as four big-endian bytes.
   * Negative integers raise ValueError and integers of 2^32 or more
   * raise OverflowError; every other integer is recovered by `FromU32`.
   */
  function IntToBytes(n: int): (r: Result<Bytes, Error>)
    ensures n < 0 <==> r == Err(ValueError)
    ensures n >= TWO_32 <==> r == Err(OverflowError)
    ensures r.Ok? ==> |r.value| == 4 && FromU32(r.value) == n
  {
    if n < 0 then Err(ValueError)
    else if n >= TWO_32 then Err(OverflowError)
    else U32Inverse(n); Ok(U32(n))
  }

  /**
   * `bytes_serialize` and `string_serialize` (a string is its UTF-8
   * bytes): the payload's byte count as a word, then the payload.
   */
  function LengthPrefixed(payload: Bytes): (r: Result<Bytes, Error>)
    ensures r.Ok? <==> |payload| < TWO_32
    ensures r.Err? ==> r.error == OverflowError
    ensures r.Ok? ==> |r.value| == 4 + |payload| && FromU32(r.value[..4]) == |payload| && r.value[4..] == payload
  {
    var size :- IntToBytes(|payload|);
    Ok(size + payload)
  }

  /** `scalar_serialize` of a number: its dtype as a string, the byte count of its buffer, the buffer. */
  function ScalarWire(n: Number): Result<Bytes, Error> {
    var dtype :- LengthPrefixed(n.dtype);
    var size :- IntToBytes(|n.raw|);
    Ok(dtype + size + n.raw)
  }

  /** `scalar_serialize`: anything that is not a number raises TypeError. */
  function ScalarEncoding(v: Value): (r: Result<Bytes, Error>)
    ensures !v.Num? ==> r == Err(TypeError)
    ensures v.Num? ==> r == ScalarWire(v.n)
  {
    if v.Num? then ScalarWire(v.n) else Err(TypeError)
  }

  /** Sequences one encoding after another: the first error wins, otherwise the bytes are concatenated. */
  function Then(a: Result<Bytes, Error>, b: Result<Bytes, Error>): Result<Bytes, Error> {
    if a.Err? then a else if b.Err? then b else Ok(a.value + b.value)
  }

  /** Sequencing is associative, and the empty encoding is its unit on both sides. */
  lemma ThenLaws(a: Result<Bytes, Error>, b: Result<Bytes, Error>, c: Result<Bytes, Error>)
    ensures Then(Then(a, b), c) == Then(a, Then(b, c))
    ensures Then(a, Ok([])) == a && Then(Ok([]), a) == a
  {
    if a.Ok? {
      assert a.value + [] == a.value && [] + a.value == a.value;
      if b.Ok? && c.Ok? {
        assert (a.value + b.value) + c.value == a.value + (b.value + c.value);
      }
    }
  }

  /** The dimension words of a shape, one word per dimension in order. */
  function DimWords(shape: seq<nat>): (r: Result<Bytes, Error>)
    ensures r.Ok? <==> forall i :: 0 <= i < |shape| ==> shape[i] < TWO_32
    ensures r.Err? ==> r.error == OverflowError
    ensures r.Ok? ==> |r.value| == 4 * |shape|
  {
    if shape == [] then Ok([]) else Then(IntToBytes(shape[0]), DimWords(shape[1..]))
  }

  /** The words of two shapes laid end to end are the words of the joined shape. */
  lemma {:induction false} DimWordsAppend(s: seq<nat>, t: seq<nat>)
    ensures DimWords(s + t) == Then(DimWords(s), DimWords(t))
  {
    if s != [] {
      assert (s + t)[0] == s[0];
      assert (s + t)[1..] == s[1..] + t;
      DimWordsAppend(s[1..], t);
      ThenLaws(IntToBytes(s[0]), DimWords(s[1..]), DimWords(t));
    } else {
      assert s + t == t;
      ThenLaws(DimWords(t), Ok([]), Ok([]));
    }
  }

  /** One more dimension appends one more word. */
  lemma DimWordsSnoc(s: seq<nat>, d: nat)
    ensures DimWords(s + [d]) == Then(DimWords(s), IntToBytes(d))
  {
    DimWordsAppend(s, [d]);
    assert [d][1..] == [];
    ThenLaws(IntToBytes(d), Ok([]), Ok([]));
  }

  /**
   * `ndarray_serialize` of an array: dtype string, data byte count, rank,
   * one word per dimension, then the flattened data.
   */
  function NdArrayWire(a: NdArray): Result<Bytes, Error> {
    var dtype :- LengthPrefixed(a.dtype);
    var size :- IntToBytes(|a.data|);
    var rank :- IntToBytes(|a.shape|);
    var dims :- DimWords(a.shape);
    Ok(dtype + size + rank + dims + a.data)
  }

  /** `ndarray_serialize`: anything that is not an array raises TypeError. */
  function NdArrayEncoding(v: Value): (r: Result<Bytes, Error>)
    ensures !v.Array? ==> r == Err(TypeError)
    ensures v.Array? ==> r == NdArrayWire(v.a)
  {
    if v.Array? then NdArrayWire(v.a) else Err(TypeError)
  }

  /** `ndarray_serialize`, building the bytes word by word as the source does. */
  method NdArraySerialize(v: Value) returns (r: Result<Bytes, Error>)
    ensures r == NdArrayEncoding(v)
  {
    if !v.Array? {
      return Err(TypeError);
    }
    var a := v.a;
    var dtype :- LengthPrefixed(a.dtype);
    var size :- IntToBytes(|a.data|);
    var rank :- IntToBytes(|a.shape|);
    var out := dtype + size + rank;
    ghost var dims: Bytes := [];
    var i := 0;
    while i < |a.shape|
      invariant 0 <= i <= |a.shape|
      invariant DimWords(a.shape[..i]) == Ok(dims)
      invariant out == dtype + size + rank + dims
    {
      DimWordsSnoc(a.shape[..i], a.shape[i]);
      PrefixSnoc(a.shape, i);
      var w :- IntToBytes(a.shape[i]);
      out := out + w;
      dims := dims + w;
      i := i + 1;
    }
    assert a.shape[..i] == a.shape;
    out := out + a.data;
    r := Ok(out);
  }

  /** The `SerializableTypes` member that stands for objects of class `c`, if any. */
  function TypeOfClass(c: PyClass): Option<SerializableType> {
    match c
    case BytesClass => Some(BytesType)
    case StrClass => Some(StringType)
    case IntClass => Some(ScalarType)
    case FloatClass => Some(ScalarType)
    case ComplexClass => Some(ScalarType)
    case NumpyScalarClass => Some(ScalarType)
    case BoolClass => Some(BoolType)
    case NdArrayClass => Some(ArrayType)
    case ListClass => Some(ListType)
    case AxisClass => Some(AxisType)
    case DwaClass(_) => Some(DataWithAxesType)
    case DteClass => Some(DataToExportType)
    case ParameterClass => Some(ParameterType)
    case NoneClass => None
  }

  /**
   * The tag written before a self-describing object: the name of its
   * `SerializableTypes` member, which the generic decoder dispatches on.
   * A class with no such member keeps its class name. These are the
   * corrected tags: `list_serialize` and `type_and_object_serialization`
   * as written use the class name of every object (see `Findings`).
   */
  function TypeTag(c: PyClass): (tag: Bytes)
    ensures TypeOfClass(c).Some? ==> TypeOfName(tag) == TypeOfClass(c)
  {
    match TypeOfClass(c)
    case Some(t) => TypeOfNameInverse(t); TypeName(t)
    case None => ClassName(c)
  }

  /**
   * What the encoder `enc` makes of `v`. An object of a kind the encoder
   * does not take gives TypeError; for `string_serialize`, which would
   * write `str()` of such an object, that is a gap of the model.
   */
  function Apply(reg: Registry, enc: Encoder, v: Value): Result<Bytes, Error>
    decreases v, 0
  {
    match enc
    case EncodeBytes => if v.BytesVal? then LengthPrefixed(v.b) else Err(TypeError)
    case EncodeString =>
      if v.Str? then LengthPrefixed(v.s) else if v.BytesVal? then LengthPrefixed(v.b) else Err(TypeError)
    case EncodeScalar => ScalarEncoding(v)
    case EncodeNdArray => NdArrayEncoding(v)
    case EncodeAxis => if v.AxisVal? then AxisWire(v.axis) else Err(TypeError)
    case EncodeDwa => if v.DwaVal? then DwaWire(reg, v.dwa) else Err(TypeError)
    case EncodeDte => if v.DteVal? then DteWire(reg, v.dte) else Err(TypeError)
  }

  /**
   * `get_apply_serializer`: the output of the encoder registered for the
   * exact class of `v`, with no tag added; NotImplementedError when the
   * class has no entry.
   */
  function ApplySerializer(reg: Registry, v: Value): Result<Bytes, Error>
    decreases v, 1
  {
    if ClassOf(v) in reg then Apply(reg, reg[ClassOf(v)], v) else Err(NotImplementedError)
  }

  /** A self-describing object: its type tag as a string, then its encoding. */
  function TaggedWire(reg: Registry, v: Value): Result<Bytes, Error>
    decreases v, 2
  {
    Then(LengthPrefixed(TypeTag(ClassOf(v))), ApplySerializer(reg, v))
  }

  /** An object whose class has no entry gets no encoder. */
  lemma Unregistered(reg: Registry, v: Value)
    requires ClassOf(v) !in reg
    ensures ApplySerializer(reg, v) == Err(NotImplementedError)
  {
  }

  /** The tagged encodings of a sequence of objects, back to back. */
  function ItemsWire(reg: Registry, items: seq<Value>): Result<Bytes, Error>
    decreases items, 0
  {
    if items == [] then Ok([]) else Then(TaggedWire(reg, items[0]), ItemsWire(reg, items[1..]))
  }

  /** The encodings of two sequences laid end to end are the encoding of the joined sequence. */
  lemma {:induction false} ItemsWireAppend(reg: Registry, s: seq<Value>, t: seq<Value>)
    ensures ItemsWire(reg, s + t) == Then(ItemsWire(reg, s), ItemsWire(reg, t))
  {
    if s != [] {
      assert (s + t)[0] == s[0];
      assert (s + t)[1..] == s[1..] + t;
      ItemsWireAppend(reg, s[1..], t);
      ThenLaws(TaggedWire(reg, s[0]), ItemsWire(reg, s[1..]), ItemsWire(reg, t));
    } else {
      assert s + t == t;
      ThenLaws(ItemsWire(reg, t), Ok([]), Ok([]));
    }
  }

  /** One more element appends its tagged encoding. */
  lemma ItemsWireSnoc(reg: Registry, s: seq<Value>, x: Value)
    ensures ItemsWire(reg, s + [x]) == Then(ItemsWire(reg, s), TaggedWire(reg, x))
  {
    ItemsWireAppend(reg, s, [x]);
    assert [x][1..] == [];
    ThenLaws(TaggedWire(reg, x), Ok([]), Ok([]));
  }

  /** Once a prefix of the elements fails to encode, the whole sequence fails with the same error. */
  lemma ItemsWirePrefixErr(reg: Registry, items: seq<Value>, j: nat)
    requires j <= |items| && ItemsWire(reg, items[..j]).Err?
    ensures ItemsWire(reg, items) == ItemsWire(reg, items[..j])
  {
    PrefixSuffix(items, j);
    ItemsWireAppend(reg, items[..j], items[j..]);
  }

  /**
   * One step of the element loop: the prefix through element `i` encodes
   * as the prefix before it followed by the element's tagged encoding.
   */
  lemma ItemsStep(reg: Registry, items: seq<Value>, i: nat)
    requires i < |items|
    ensures ItemsWire(reg, items[..i + 1]) == Then(ItemsWire(reg, items[..i]), TaggedWire(reg, items[i]))
  {
    PrefixSnoc(items, i);
    ItemsWireSnoc(reg, items[..i], items[i]);
  }

  /** `list_serialize` of a list: the element count, then each element tagged. */
  function ListWire(reg: Registry, items: seq<Value>): Result<Bytes, Error>
    decreases items, 1
  {
    Then(IntToBytes(|items|), ItemsWire(reg, items))
  }

  /** `list_serialize`: anything that is not a list raises TypeError. */
  function ListEncoding(reg: Registry, v: Value): (r: Result<Bytes, Error>)
    ensures !v.List? ==> r == Err(TypeError)
    ensures v.List? ==> r == ListWire(reg, v.items)
  {
    if v.List? then ListWire(reg, v.items) else Err(TypeError)
  }

  /** The element loop of `list_serialize`: each element tagged, appended in order. */
  method ItemsSerialize(reg: Registry, items: seq<Value>) returns (r: Result<Bytes, Error>)
    ensures r == ItemsWire(reg, items)
  {
    var out: Bytes := [];
    var i := 0;
    while i < |items|
      invariant 0 <= i <= |items|
      invariant ItemsWire(reg, items[..i]) == Ok(out)
    {
      var t := TaggedWire(reg, items[i]);
      ItemsStep(reg, items, i);
      if t.Err? {
        assert ItemsWire(reg, items[..i + 1]) == t;
        ItemsWirePrefixErr(reg, items, i + 1);
        return t;
      }
      assert ItemsWire(reg, items[..i + 1]) == Ok(out + t.value);
      out := out + t.value;
      i := i + 1;
    }
    assert items[..i] == items;
    r := Ok(out);
  }

  /** `list_serialize`: the element count, then the elements. */
  method ListSerialize(reg: Registry, v: Value) returns (r: Result<Bytes, Error>)
    ensures r == ListEncoding(reg, v)
  {
    if !v.List? {
      return Err(TypeError);
    }
    var count :- IntToBytes(|v.items|);
    var body :- ItemsSerialize(reg, v.items);
    r := Ok(count + body);
  }

  /**
   * `list_serialize` exactly as written: each element is tagged with its
   * class name (`obj.__class__.__name__`: int, str, ndarray, ...) rather
   * than with the `SerializableTypes` name the generic decoder expects.
   */
  function ItemsWireAsWritten(reg: Registry, items: seq<Value>): Result<Bytes, Error>
    decreases items
  {
    if items == [] then Ok([])
    else Then(Then(LengthPrefixed(ClassName(ClassOf(items[0]))), ApplySerializer(reg, items[0])),
              ItemsWireAsWritten(reg, items[1..]))
  }

  /** `list_serialize` as written: the count, then each element tagged with its class name. */
  function ListWireAsWritten(reg: Registry, items: seq<Value>): Result<Bytes, Error> {
    Then(IntToBytes(|items|), ItemsWireAsWritten(reg, items))
  }

  /**
   * `Serializer.type_and_object_serialization` as written: `own` is the
   * object given to the constructor, used when `obj` is None. The class
   * name goes through the encoder registered for str, then the object
   * through its own encoder.
   */
  function TypeAndObjectSerialization(reg: Registry, own: Value, obj: Value): Result<Bytes, Error> {
    var o := if obj == NoneVal && own != NoneVal then own else obj;
    Then(ApplySerializer(reg, Str(ClassName(ClassOf(o)))), ApplySerializer(reg, o))
  }

  /**
   * The encoder each class is meant to be registered with: the seven
   * registrations of the serializer module plus the composite encoders
   * that the data module registers. Lists, parameters, None and numpy
   * scalars have none.
   */
  function StandardEncoder(c: PyClass): Option<Encoder> {
    match c
    case BytesClass => Some(EncodeBytes)
    case StrClass => Some(EncodeString)
    case IntClass => Some(EncodeScalar)
    case FloatClass => Some(EncodeScalar)
    case ComplexClass => Some(EncodeScalar)
    case BoolClass => Some(EncodeScalar)
    case NdArrayClass => Some(EncodeNdArray)
    case AxisClass => Some(EncodeAxis)
    case DwaClass(_) => Some(EncodeDwa)
    case DteClass => Some(EncodeDte)
    case _ => None
  }

  /** Every entry of the registry maps its class to that class's standard encoder. */
  ghost predicate Compatible(reg: Registry) {
    forall c :: c in reg ==> StandardEncoder(c) == Some(reg[c])
  }

  /** With only standard encoders registered, the entry for an object's class is the encoder of its type. */
  lemma EncoderOf(reg: Registry, v: Value)
    requires Compatible(reg) && ClassOf(v) in reg
    ensures !v.List? && !v.Parameter? && !v.NoneVal?
    ensures v.BytesVal? ==> reg[ClassOf(v)] == EncodeBytes
    ensures v.Str? ==> reg[ClassOf(v)] == EncodeString
    ensures v.Num? ==> reg[ClassOf(v)] == EncodeScalar
    ensures v.Array? ==> reg[ClassOf(v)] == EncodeNdArray
    ensures v.AxisVal? ==> reg[ClassOf(v)] == EncodeAxis
    ensures v.DwaVal? ==> reg[ClassOf(v)] == EncodeDwa
    ensures v.DteVal? ==> reg[ClassOf(v)] == EncodeDte
  {
    assert StandardEncoder(ClassOf(v)) == Some(reg[ClassOf(v)]);
  }

  /**
   * With only standard encoders registered, `get_apply_serializer` runs
   * the encoder of the object's own type, and no list, Parameter or None
   * has an entry.
   */
  lemma StandardDispatch(reg: Registry, v: Value)
    requires Compatible(reg) && ClassOf(v) in reg
    ensures !v.List? && !v.Parameter? && !v.NoneVal?
    ensures v.BytesVal? ==> ApplySerializer(reg, v) == LengthPrefixed(v.b)
    ensures v.Str? ==> ApplySerializer(reg, v) == LengthPrefixed(v.s)
    ensures v.Num? ==> ApplySerializer(reg, v) == ScalarWire(v.n)
    ensures v.Array? ==> ApplySerializer(reg, v) == NdArrayWire(v.a)
    ensures v.AxisVal? ==> ApplySerializer(reg, v) == AxisWire(v.axis)
    ensures v.DwaVal? ==> ApplySerializer(reg, v) == DwaWire(reg, v.dwa)
    ensures v.DteVal? ==> ApplySerializer(reg, v) == DteWire(reg, v.dte)
  {
    EncoderOf(reg, v);
    assert ApplySerializer(reg, v) == Apply(reg, reg[ClassOf(v)], v);
  }

  /** A successful sequence splits into its two successful halves, and trailing bytes associate to the right. */
  lemma ThenOk(a: Result<Bytes, Error>, b: Result<Bytes, Error>, rest: Bytes)
    requires Then(a, b).Ok?
    ensures a.Ok? && b.Ok?
    ensures Then(a, b).value + rest == a.value + (b.value + rest)
  {
  }

  /** The Axis encoder: class name, label, units, sample array, index, spread order. */
  function AxisWire(ax: Axis): Result<Bytes, Error> {
    Then(LengthPrefixed(ClassName(AxisClass)),
    Then(LengthPrefixed(ax.axisLabel),
    Then(LengthPrefixed(ax.units),
    Then(NdArrayWire(ax.data),
    Then(ScalarWire(ax.index), ScalarWire(ax.spreadOrder))))))
  }

  /** The leading fields of a DataWithAxes: class name, timestamp, name, source, dim, distribution. */
  function DwaHeaderWire(d: DataWithAxes): Result<Bytes, Error> {
    Then(LengthPrefixed(d.className),
    Then(ScalarWire(d.timestamp),
    Then(LengthPrefixed(d.name),
    Then(LengthPrefixed(d.source),
    Then(LengthPrefixed(d.dim), LengthPrefixed(d.distribution))))))
  }

  /** The error arrays: their list, or an empty list when none are attached. */
  function ErrorsWire(reg: Registry, d: DataWithAxes): Result<Bytes, Error>
    decreases d, 0
  {
    match d.errors
    case Attached(errs) => ListWire(reg, errs)
    case NoErrors => IntToBytes(0)
  }

  /**
   * The DataWithAxes encoder: the header, the data arrays, units, labels,
   * origin, navigation indexes, axes, error arrays, extra attribute
   * names, then one tagged value per name.
   */
  function DwaWire(reg: Registry, d: DataWithAxes): Result<Bytes, Error>
    decreases d, 1
  {
    Then(DwaHeaderWire(d),
    Then(ListWire(reg, d.data),
    Then(LengthPrefixed(d.units),
    Then(ListWire(reg, d.labels),
    Then(LengthPrefixed(d.origin),
    Then(ListWire(reg, d.navIndexes),
    Then(ListWire(reg, d.axes),
    Then(ErrorsWire(reg, d),
    Then(ListWire(reg, d.extraAttributes), ItemsWire(reg, d.extraValues))))))))))
  }

  /** The DataToExport encoder: class name, timestamp, name, then the list of its data. */
  function DteWire(reg: Registry, d: DataToExport): Result<Bytes, Error>
    decreases d
  {
    Then(LengthPrefixed(ClassName(DteClass)),
    Then(ScalarWire(d.timestamp),
    Then(LengthPrefixed(d.name), ListWire(reg, d.data))))
  }
}
