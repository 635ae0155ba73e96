/**
 * What each `DeSerializer` method reads, as functions of the bytes still
 * to be read: the value built and the bytes left after it. The readers
 * take bytes the way `SocketString` hands them out, so a payload that
 * runs past the end comes back short instead of failing. The four-byte
 * words are checked, by `bytes_to_int`, and so are the class names that
 * open an Axis, a DataWithAxes and a DataToExport. What numpy's
 * `frombuffer` and `reshape` would reject in a number's or an array's
 * buffer (no bytes, a partial item, an unknown dtype, a size that does
 * not fit the shape) is not checked: the buffer is kept as read.
 */
module Decoding {
  import opened Wrappers
  import opened Bytes
  import opened Values
  import opened SocketStrings

  /** A value read from the front of a byte string, and the bytes after it. */
  datatype Decoded<T> = Decoded(value: T, rest: Bytes)

  /** `bytes_to_int`: four bytes as a big-endian unsigned integer; any other length fails its assertion. */
  function BytesToInt(b: Bytes): (r: Result<nat, Error>)
    ensures r.Ok? <==> |b| == 4
    ensures r.Err? ==> r.error == AssertionError
    ensures r.Ok? ==> r.value < TWO_32 && U32(r.value) == b
  {
    if |b| != 4 then Err(AssertionError)
    else FromU32Inverse(b); Ok(FromU32(b))
  }

  /** `_int_deserialization`: take four bytes and convert them; fewer than four left fails. */
  function ReadInt(bs: Bytes): (r: Result<Decoded<nat>, Error>)
    ensures r.Ok? <==> |bs| >= 4
    ensures r.Err? ==> r.error == AssertionError
    ensures r.Ok? ==> r.value.rest == bs[4..] && r.value.value < TWO_32 && U32(r.value.value) == bs[..4]
  {
    var (word, rest) := Split(bs, 4);
    var n :- BytesToInt(word);
    Ok(Decoded(n, rest))
  }

  /**
   * `bytes_deserialization` and `string_deserialization`: a length word,
   * then that many bytes, or all that is left when fewer remain.
   */
  function ReadBytes(bs: Bytes): (r: Result<Decoded<Bytes>, Error>)
    ensures r.Ok? <==> |bs| >= 4
    ensures r.Err? ==> r.error == AssertionError
    ensures r.Ok? ==> |r.value.rest| + 4 <= |bs|
  {
    var n :- ReadInt(bs);
    var (payload, rest) := Split(n.rest, n.value);
    Ok(Decoded(payload, rest))
  }

  /**
   * What a successful `ReadBytes` consumes: the length word and the
   * payload, which is as long as the word says or as what remains,
   * whichever is shorter; nothing else is skipped.
   */
  lemma ReadBytesLayout(bs: Bytes)
    requires |bs| >= 4
    ensures ReadBytes(bs).value.value + ReadBytes(bs).value.rest == bs[4..]
    ensures |ReadBytes(bs).value.value| == Min(FromU32(bs[..4]), |bs| - 4)
  {
    FromU32Inverse(bs[..4]);
  }

  /** Whether a dtype descriptor contains the letter `c`. */
  predicate HasLetter(dtype: Bytes, c: char) {
    dtype != [] && (dtype[0] == c as int || HasLetter(dtype[1..], c))
  }

  /**
   * The Python class `scalar_deserialization` leaves a number in: float
   * if the dtype contains 'f', else int if it contains 'i', else complex
   * if it contains 'c', else the numpy scalar itself.
   */
  function CastKind(dtype: Bytes): (k: NumKind)
    ensures k != BoolKind
  {
    if HasLetter(dtype, 'f') then FloatKind
    else if HasLetter(dtype, 'i') then IntKind
    else if HasLetter(dtype, 'c') then ComplexKind
    else NumpyKind
  }

  /** `scalar_deserialization`: dtype string, byte count, then that many bytes, cast by the dtype's letters. */
  function ReadScalar(bs: Bytes): (r: Result<Decoded<Number>, Error>)
    ensures r.Ok? ==> |r.value.rest| + 8 <= |bs|
    ensures r.Ok? ==> r.value.value.kind == CastKind(r.value.value.dtype)
  {
    var dtype :- ReadBytes(bs);
    var size :- ReadInt(dtype.rest);
    var (raw, rest) := Split(size.rest, size.value);
    Ok(Decoded(Number(CastKind(dtype.value), dtype.value, raw), rest))
  }

  /** Whether a number's buffer holds anything but zero bytes. */
  predicate Truthy(raw: Bytes) {
    raw != [] && (raw[0] != 0 || Truthy(raw[1..]))
  }

  /** The Python bool `b`, as numpy sees it: dtype `|b1`, one byte. */
  function BoolNumber(b: bool): Number {
    Number(BoolKind, [124, 98, 49] /* "|b1" */, [if b then 1 else 0])
  }

  /** `boolean_deserialization`: a scalar, then `bool()` of it. */
  function ReadBool(bs: Bytes): (r: Result<Decoded<Number>, Error>)
    ensures r.Ok? ==> |r.value.rest| + 8 <= |bs|
    ensures r.Ok? ==> r.value.value == BoolNumber(r.value.value.raw == [1])
  {
    var n :- ReadScalar(bs);
    Ok(Decoded(BoolNumber(Truthy(n.value.raw)), n.rest))
  }

  /** The `k` dimension words read by the loop of `ndarray_deserialization`. */
  function ReadDims(bs: Bytes, k: nat): (r: Result<Decoded<seq<nat>>, Error>)
    ensures r.Ok? <==> |bs| >= 4 * k
    ensures r.Err? ==> r.error == AssertionError
    ensures r.Ok? ==> |r.value.value| == k && r.value.rest == bs[4 * k..]
  {
    if k == 0 then Ok(Decoded([], bs))
    else
      var prev :- ReadDims(bs, k - 1);
      var d :- ReadInt(prev.rest);
      Ok(Decoded(prev.value + [d.value], d.rest))
  }

  /** `np.atleast_1d` on a shape: a rank-0 array comes back with one dimension of length 1. */
  function AtLeast1d(shape: seq<nat>): (r: seq<nat>)
    ensures |r| >= 1
    ensures |shape| >= 1 ==> r == shape
  {
    if shape == [] then [1] else shape
  }

  /** `ndarray_deserialization`: dtype, byte count, rank, the dimensions, then the data bytes. */
  function ReadArray(bs: Bytes): (r: Result<Decoded<NdArray>, Error>)
    ensures r.Ok? ==> |r.value.rest| + 12 <= |bs|
    ensures r.Ok? ==> |r.value.value.shape| >= 1
  {
    var dtype :- ReadBytes(bs);
    var size :- ReadInt(dtype.rest);
    var rank :- ReadInt(size.rest);
    var dims :- ReadDims(rank.rest, rank.value);
    var (data, rest) := Split(dims.rest, size.value);
    Ok(Decoded(NdArray(dtype.value, AtLeast1d(dims.value), data), rest))
  }

  /** `axis_deserialization`: the tag must read `Axis`, then label, units, data, index, spread order. */
  function ReadAxis(bs: Bytes): (r: Result<Decoded<Axis>, Error>)
    ensures r.Ok? ==> |r.value.rest| < |bs|
    ensures ReadBytes(bs).Ok? && ReadBytes(bs).value.value != ClassName(AxisClass) ==> r == Err(TypeError)
  {
    var tag :- ReadBytes(bs);
    if tag.value != ClassName(AxisClass) then Err(TypeError)
    else
      var axisLabel :- ReadBytes(tag.rest);
      var units :- ReadBytes(axisLabel.rest);
      var data :- ReadArray(units.rest);
      var index :- ReadScalar(data.rest);
      var spread :- ReadScalar(index.rest);
      Ok(Decoded(Axis(axisLabel.value, units.value, data.value, index.value, spread.value), spread.rest))
  }

  /** The fields a DataWithAxes reads before its first list. */
  datatype DwaHeader = DwaHeader(
    className: Bytes, timestamp: Number, name: Bytes, source: Bytes, dim: Bytes, distribution: Bytes)

  /**
   * The start of `dwa_deserialization`: the class name, which must be one
   * of the DataWithAxes flavours `dn`, the timestamp, then name, source,
   * dim and distribution.
   */
  function ReadDwaHeader(bs: Bytes, dn: set<Bytes>): (r: Result<Decoded<DwaHeader>, Error>)
    ensures r.Ok? ==> |r.value.rest| < |bs| && r.value.value.className in dn
    ensures ReadBytes(bs).Ok? && ReadBytes(bs).value.value !in dn ==> r == Err(TypeError)
  {
    var tag :- ReadBytes(bs);
    if tag.value !in dn then Err(TypeError)
    else
      var timestamp :- ReadScalar(tag.rest);
      var name :- ReadBytes(timestamp.rest);
      var source :- ReadBytes(name.rest);
      var dim :- ReadBytes(source.rest);
      var distribution :- ReadBytes(dim.rest);
      Ok(Decoded(DwaHeader(tag.value, timestamp.value, name.value, source.value, dim.value, distribution.value),
                 distribution.rest))
  }

  /**
   * `type_and_object_deserialization`: a tag string, then the reader the
   * tag names. A tag that names no `SerializableTypes` member gives None
   * and nothing more is read.
   */
  function ReadTagged(bs: Bytes, dn: set<Bytes>): (r: Result<Decoded<Value>, Error>)
    ensures r.Ok? ==> |r.value.rest| < |bs|
    decreases |bs|, 3
  {
    var tag :- ReadBytes(bs);
    match TypeOfName(tag.value)
    case None => Ok(Decoded(NoneVal, tag.rest))
    case Some(t) => ReadPayload(t, tag.rest, dn)
  }

  /** The branch of `type_and_object_deserialization` for a tag naming `t`: the reader for that type. */
  function ReadPayload(t: SerializableType, bs: Bytes, dn: set<Bytes>): (r: Result<Decoded<Value>, Error>)
    ensures r.Ok? ==> |r.value.rest| < |bs|
    decreases |bs|, 2
  {
    match t
    case ScalarType =>
      var x :- ReadScalar(bs); Ok(Decoded(Num(x.value), x.rest))
    case StringType =>
      var x :- ReadBytes(bs); Ok(Decoded(Str(x.value), x.rest))
    case BytesType =>
      var x :- ReadBytes(bs); Ok(Decoded(BytesVal(x.value), x.rest))
    case ArrayType =>
      var x :- ReadArray(bs); Ok(Decoded(Array(x.value), x.rest))
    case DataWithAxesType =>
      var x :- ReadDwa(bs, dn); Ok(Decoded(DwaVal(x.value), x.rest))
    case DataToExportType =>
      var x :- ReadDte(bs, dn); Ok(Decoded(DteVal(x.value), x.rest))
    case AxisType =>
      var x :- ReadAxis(bs); Ok(Decoded(AxisVal(x.value), x.rest))
    case BoolType =>
      var x :- ReadBool(bs); Ok(Decoded(Num(x.value), x.rest))
    case ListType =>
      var x :- ReadList(bs, dn); Ok(Decoded(List(x.value), x.rest))
    case ParameterType =>
      ReadParameter(bs, dn)
  }

  /** The loop of `list_deserialization`: `n` tagged objects, one after another, kept in order. */
  function ReadItems(bs: Bytes, n: nat, dn: set<Bytes>): (r: Result<Decoded<seq<Value>>, Error>)
    ensures r.Ok? ==> |r.value.rest| <= |bs| && |r.value.value| == n
    decreases |bs|, 4, n
  {
    if n == 0 then Ok(Decoded([], bs))
    else
      var prev :- ReadItems(bs, n - 1, dn);
      var x :- ReadTagged(prev.rest, dn);
      Ok(Decoded(prev.value + [x.value], x.rest))
  }

  /** `list_deserialization`: the element count, then that many tagged objects. */
  function ReadList(bs: Bytes, dn: set<Bytes>): (r: Result<Decoded<seq<Value>>, Error>)
    ensures r.Ok? ==> |bs| >= 4 && |r.value.rest| < |bs| && |r.value.value| == FromU32(bs[..4])
    decreases |bs|, 0
  {
    var n :- ReadInt(bs);
    ReadItems(n.rest, n.value, dn)
  }

  /** `parameter_deserialization`: the path list, then the parameter as XML text. */
  function ReadParameter(bs: Bytes, dn: set<Bytes>): (r: Result<Decoded<Value>, Error>)
    ensures r.Ok? ==> |r.value.rest| < |bs| && r.value.value.Parameter?
    decreases |bs|, 1
  {
    var path :- ReadList(bs, dn);
    var xml :- ReadBytes(path.rest);
    Ok(Decoded(Parameter(path.value, xml.value), xml.rest))
  }

  /**
   * The extra-attribute loop of `dwa_deserialization`: for each name, a
   * tagged object is read and then set as that attribute, which raises
   * TypeError when the name is not a string.
   */
  function ReadExtras(bs: Bytes, names: seq<Value>, dn: set<Bytes>): (r: Result<Decoded<seq<Value>>, Error>)
    ensures r.Ok? ==> |r.value.rest| <= |bs| && |r.value.value| == |names|
    decreases |bs|, 4, |names|
  {
    if names == [] then Ok(Decoded([], bs))
    else
      var prev :- ReadExtras(bs, names[..|names| - 1], dn);
      var x :- ReadTagged(prev.rest, dn);
      if !names[|names| - 1].Str? then Err(TypeError)
      else Ok(Decoded(prev.value + [x.value], x.rest))
  }

  /**
   * `dwa_deserialization`: the header, then data, units, labels, origin,
   * navigation indexes, axes, error arrays (attached only when there are
   * some), extra attribute names, and one value per name. The timestamp
   * read with the header is the one the object keeps.
   */
  function ReadDwa(bs: Bytes, dn: set<Bytes>): (r: Result<Decoded<DataWithAxes>, Error>)
    ensures r.Ok? ==> |r.value.rest| < |bs| && r.value.value.className in dn
    decreases |bs|, 0
  {
    var h :- ReadDwaHeader(bs, dn);
    var data :- ReadList(h.rest, dn);
    var units :- ReadBytes(data.rest);
    var labels :- ReadList(units.rest, dn);
    var origin :- ReadBytes(labels.rest);
    var nav :- ReadList(origin.rest, dn);
    var axes :- ReadList(nav.rest, dn);
    var errors :- ReadList(axes.rest, dn);
    var names :- ReadList(errors.rest, dn);
    var extras :- ReadExtras(names.rest, names.value, dn);
    var hd := h.value;
    Ok(Decoded(DataWithAxes(hd.className, hd.timestamp, hd.name, hd.source, hd.dim, hd.distribution,
                            data.value, units.value, labels.value, origin.value, nav.value, axes.value,
                            if errors.value == [] then NoErrors else Attached(errors.value),
                            names.value, extras.value),
               extras.rest))
  }

  /** `dte_deserialization`: the tag must read `DataToExport`, then timestamp, name, and the data list. */
  function ReadDte(bs: Bytes, dn: set<Bytes>): (r: Result<Decoded<DataToExport>, Error>)
    ensures r.Ok? ==> |r.value.rest| < |bs|
    ensures ReadBytes(bs).Ok? && ReadBytes(bs).value.value != ClassName(DteClass) ==> r == Err(TypeError)
    decreases |bs|, 0
  {
    var tag :- ReadBytes(bs);
    if tag.value != ClassName(DteClass) then Err(TypeError)
    else
      var timestamp :- ReadScalar(tag.rest);
      var name :- ReadBytes(timestamp.rest);
      var data :- ReadList(name.rest, dn);
      Ok(Decoded(DataToExport(name.value, timestamp.value, data.value), data.rest))
  }
}
