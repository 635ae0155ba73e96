/**
 * The Python objects the serializer handles, their runtime classes, the
 * exceptions it raises, and the type names the deserializer dispatches on.
 *
 * Text is kept as its UTF-8 encoding. Numbers and arrays keep what numpy
 * makes of them (a dtype descriptor and raw bytes); the numeric values
 * behind those bytes are not interpreted.
 */
module Values {
  import opened Wrappers
  import opened Bytes

  /** The exceptions raised by the codecs. */
  datatype Error =
    | TypeError            // an isinstance check, a composite's class tag, a non-string attribute name
    | ValueError           // a negative integer given to int_to_bytes
    | OverflowError        // int.to_bytes(4, 'big') of a value that needs more than four bytes
    | AssertionError       // bytes_to_int given fewer than four bytes
    | NotImplementedError  // get_apply_serializer on a class that has no registered encoder

  /** The Python class of a number; `NumpyKind` is a numpy scalar left uncast. */
  datatype NumKind = IntKind | FloatKind | ComplexKind | BoolKind | NumpyKind

  /**
   * A number as `np.array([x])` sees it: the dtype descriptor
   * (`dtype.descr[0][1]`, e.g. `<i4`, `<f8`, `|b1`) and the raw bytes of
   * the one-element buffer.
   */
  datatype Number = Number(kind: NumKind, dtype: Bytes, raw: Bytes)

  /** A numpy array: dtype descriptor, shape, and the flattened row-major bytes. */
  datatype NdArray = NdArray(dtype: Bytes, shape: seq<nat>, data: Bytes)

  /** The five fields of an Axis that travel on the wire (`label` is a Dafny keyword, hence `axisLabel`). */
  datatype Axis = Axis(axisLabel: Bytes, units: Bytes, data: NdArray, index: Number, spreadOrder: Number)

  /**
   * A DataWithAxes flavour (`className` is e.g. DataRaw), as the decoder
   * builds it: constructor fields, the error arrays (absent when none),
   * the list of extra attribute names and, in the same order, the value
   * read for each name.
   */
  datatype DataWithAxes = DataWithAxes(
    className: Bytes, timestamp: Number, name: Bytes, source: Bytes, dim: Bytes,
    distribution: Bytes, data: seq<Value>, units: Bytes, labels: seq<Value>, origin: Bytes,
    navIndexes: seq<Value>, axes: seq<Value>, errors: ErrorArrays,
    extraAttributes: seq<Value>, extraValues: seq<Value>)

  /** The `errors` attribute of a DataWithAxes: left unset, or a list of error arrays. */
  datatype ErrorArrays = NoErrors | Attached(arrays: seq<Value>)

  /** A DataToExport: name, timestamp and the ordered DataWithAxes it holds. */
  datatype DataToExport = DataToExport(name: Bytes, timestamp: Number, data: seq<Value>)

  /** A Python object the serializer may meet. */
  datatype Value =
    | BytesVal(b: Bytes)
    | Str(s: Bytes)
    | Num(n: Number)
    | Array(a: NdArray)
    | List(items: seq<Value>)
    | AxisVal(axis: Axis)
    | DwaVal(dwa: DataWithAxes)
    | DteVal(dte: DataToExport)
    | Parameter(path: seq<Value>, xml: Bytes)   // a ParameterWithPath, its parameter kept as XML text
    | NoneVal

  /** Runtime classes: the keys of the registry, compared by identity only. */
  datatype PyClass =
    | BytesClass | StrClass | IntClass | FloatClass | ComplexClass | BoolClass
    | NumpyScalarClass | NdArrayClass | ListClass | AxisClass | DwaClass(name: Bytes)
    | DteClass | ParameterClass | NoneClass

  /** The class of a number of the given kind. */
  function NumberClass(k: NumKind): PyClass {
    match k
    case IntKind => IntClass
    case FloatKind => FloatClass
    case ComplexKind => ComplexClass
    case BoolKind => BoolClass
    case NumpyKind => NumpyScalarClass
  }

  /** `obj.__class__`: the exact class, never a base class (bool is not int). */
  function ClassOf(v: Value): PyClass {
    match v
    case BytesVal(_) => BytesClass
    case Str(_) => StrClass
    case Num(n) => NumberClass(n.kind)
    case Array(_) => NdArrayClass
    case List(_) => ListClass
    case AxisVal(_) => AxisClass
    case DwaVal(d) => DwaClass(d.className)
    case DteVal(_) => DteClass
    case Parameter(_, _) => ParameterClass
    case NoneVal => NoneClass
  }

  /**
   * `cls.__name__`. numpy names its scalar classes after the dtype
   * (float64, bool_, ...); the model does not track which and uses the
   * name of their common base class, `generic`.
   */
  function ClassName(c: PyClass): Bytes {
    match c
    case BytesClass => [98, 121, 116, 101, 115] /* "bytes" */
    case StrClass => [115, 116, 114] /* "str" */
    case IntClass => [105, 110, 116] /* "int" */
    case FloatClass => [102, 108, 111, 97, 116] /* "float" */
    case ComplexClass => [99, 111, 109, 112, 108, 101, 120] /* "complex" */
    case BoolClass => [98, 111, 111, 108] /* "bool" */
    case NumpyScalarClass => [103, 101, 110, 101, 114, 105, 99] /* "generic" */
    case NdArrayClass => [110, 100, 97, 114, 114, 97, 121] /* "ndarray" */
    case ListClass => [108, 105, 115, 116] /* "list" */
    case AxisClass => [65, 120, 105, 115] /* "Axis" */
    case DwaClass(name) => name
    case DteClass => [68, 97, 116, 97, 84, 111, 69, 120, 112, 111, 114, 116] /* "DataToExport" */
    case ParameterClass => [80, 97, 114, 97, 109, 101, 116, 101, 114, 87, 105, 116, 104, 80, 97, 116, 104] /* "ParameterWithPath" */
    case NoneClass => [78, 111, 110, 101, 84, 121, 112, 101] /* "NoneType" */
  }

  /** The encoders a registry entry can hold. */
  datatype Encoder =
    | EncodeBytes     // bytes_serialize
    | EncodeString    // string_serialize
    | EncodeScalar    // scalar_serialize
    | EncodeNdArray   // ndarray_serialize
    | EncodeAxis      // the Axis serializer of the data module
    | EncodeDwa       // the DataWithAxes serializer of the data module
    | EncodeDte       // the DataToExport serializer of the data module

  /** The `SerializableTypes` enumeration. */
  datatype SerializableType =
    | BoolType | BytesType | StringType | ScalarType | ListType | ArrayType
    | AxisType | DataWithAxesType | DataToExportType | ParameterType

  /** The string value of each `SerializableTypes` member. */
  function TypeName(t: SerializableType): Bytes {
    match t
    case BoolType => [98, 111, 111, 108] /* "bool" */
    case BytesType => [98, 121, 116, 101, 115] /* "bytes" */
    case StringType => [115, 116, 114, 105, 110, 103] /* "string" */
    case ScalarType => [115, 99, 97, 108, 97, 114] /* "scalar" */
    case ListType => [108, 105, 115, 116] /* "list" */
    case ArrayType => [97, 114, 114, 97, 121] /* "array" */
    case AxisType => [97, 120, 105, 115] /* "axis" */
    case DataWithAxesType => [100, 119, 97] /* "dwa" */
    case DataToExportType => [100, 116, 101] /* "dte" */
    case ParameterType => [112, 97, 114, 97, 109, 101, 116, 101, 114] /* "parameter" */
  }

  /**
   * The `if obj_type == SerializableTypes.X.value` chain of the generic
   * decoder: which member, if any, a type tag names.
   */
  function TypeOfName(tag: Bytes): (r: Option<SerializableType>)
    ensures r.Some? ==> TypeName(r.value) == tag
  {
    if tag == TypeName(ScalarType) then Some(ScalarType)
    else if tag == TypeName(StringType) then Some(StringType)
    else if tag == TypeName(BytesType) then Some(BytesType)
    else if tag == TypeName(ArrayType) then Some(ArrayType)
    else if tag == TypeName(DataWithAxesType) then Some(DataWithAxesType)
    else if tag == TypeName(DataToExportType) then Some(DataToExportType)
    else if tag == TypeName(AxisType) then Some(AxisType)
    else if tag == TypeName(BoolType) then Some(BoolType)
    else if tag == TypeName(ListType) then Some(ListType)
    else if tag == TypeName(ParameterType) then Some(ParameterType)
    else None
  }

  /** A member's own name always resolves to that member: the ten names are distinct. */
  lemma TypeOfNameInverse(t: SerializableType)
    ensures TypeOfName(TypeName(t)) == Some(t)
  {
    match t
    case BoolType =>
    case BytesType =>
    case StringType =>
      assert TypeName(StringType)[1] != TypeName(ScalarType)[1];
    case ScalarType =>
    case ListType =>
    case ArrayType =>
    case AxisType =>
    case DataWithAxesType =>
    case DataToExportType =>
    case ParameterType =>
  }
}
