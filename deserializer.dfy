/**
 * The `DeSerializer` class: every method consumes from the one
 * `SocketString` it was built on, and each is proved to return what the
 * matching reader of the Decoding module reads from the bytes that were
 * left when it was called, and to leave exactly the bytes that reader
 * leaves.
 */
module Deserializer {
  import opened Wrappers
  import opened Bytes
  import opened Values
  import opened SocketStrings
  import opened Decoding

  /**
   * A method's outcome `r`, with `left` the bytes it left unread, is what
   * the reader's result `spec` says: the same value and the same rest, or
   * the same exception.
   */
  predicate Agrees<T(==)>(r: Result<T, Error>, left: Bytes, spec: Result<Decoded<T>, Error>) {
    match spec
    case Ok(d) => r == Ok(d.value) && left == d.rest
    case Err(e) => r == Err(e)
  }

  /** One more pass of the dimension loop appends the next word read, or stops at its exception. */
  lemma ReadDimsStep(bs: Bytes, k: nat, shape: seq<nat>, mid: Bytes, x: Result<Decoded<nat>, Error>)
    requires ReadDims(bs, k) == Ok(Decoded(shape, mid)) && ReadInt(mid) == x
    ensures ReadDims(bs, k + 1) == if x.Ok? then Ok(Decoded(shape + [x.value.value], x.value.rest)) else Err(x.error)
  {
  }

  /** When too few bytes remain for `k` words, they remain too few for any more. */
  lemma ReadDimsShort(bs: Bytes, k: nat, n: nat)
    requires k <= n && ReadDims(bs, k).Err?
    ensures ReadDims(bs, n) == Err(AssertionError)
  {
  }

  /** One more pass of the element loop: the next tagged object is appended, or its exception ends the loop. */
  lemma ReadItemsStepAt(bs: Bytes, k: nat, items: seq<Value>, mid: Bytes, x: Result<Decoded<Value>, Error>, dn: set<Bytes>)
    requires ReadItems(bs, k, dn) == Ok(Decoded(items, mid)) && ReadTagged(mid, dn) == x
    ensures ReadItems(bs, k + 1, dn) == if x.Ok? then Ok(Decoded(items + [x.value.value], x.value.rest)) else Err(x.error)
  {
  }

  /** A failed element loop stays failed for one more element. */
  lemma ReadItemsErrStep(bs: Bytes, k: nat, dn: set<Bytes>)
    requires ReadItems(bs, k, dn).Err?
    ensures ReadItems(bs, k + 1, dn) == ReadItems(bs, k, dn)
  {
  }

  /** Once a prefix of the elements fails to read, the whole list fails with the same exception. */
  lemma {:induction false} ReadItemsErrPersists(bs: Bytes, m: nat, k: nat, dn: set<Bytes>)
    requires m <= k && ReadItems(bs, m, dn).Err?
    ensures ReadItems(bs, k, dn) == ReadItems(bs, m, dn)
    decreases k - m
  {
    if m < k {
      ReadItemsErrStep(bs, m, dn);
      ReadItemsErrPersists(bs, m + 1, k, dn);
    }
  }

  /** One more name in the extra-attribute loop: its value is appended, or reading or setting it raises. */
  lemma ReadExtrasStepAt(bs: Bytes, names: seq<Value>, i: nat, values: seq<Value>, mid: Bytes,
                         x: Result<Decoded<Value>, Error>, dn: set<Bytes>)
    requires i < |names| && ReadExtras(bs, names[..i], dn) == Ok(Decoded(values, mid)) && ReadTagged(mid, dn) == x
    ensures ReadExtras(bs, names[..i + 1], dn)
         == if x.Err? then Err(x.error)
            else if !names[i].Str? then Err(TypeError)
            else Ok(Decoded(values + [x.value.value], x.value.rest))
  {
    assert names[..i + 1][..i] == names[..i];
  }

  /** Once the values for a prefix of the names fail to read or to be set, the whole loop fails the same way. */
  lemma {:induction false} ReadExtrasErrPersists(bs: Bytes, names: seq<Value>, m: nat, dn: set<Bytes>)
    requires m <= |names| && ReadExtras(bs, names[..m], dn).Err?
    ensures ReadExtras(bs, names, dn) == ReadExtras(bs, names[..m], dn)
    decreases |names|
  {
    if m < |names| {
      assert names[..|names| - 1][..m] == names[..m];
      ReadExtrasErrPersists(bs, names[..|names| - 1], m, dn);
      assert names[..|names|] == names;
    } else {
      assert names[..m] == names;
    }
  }

  class DeSerializer {
    /** The byte source every read consumes from. */
    const socket: SocketString
    /** `DwaType.names()`: the class names a DataWithAxes may carry. */
    const dwaNames: set<Bytes>

    /** A deserializer over a byte string wraps it in a fresh `SocketString`. */
    constructor (bytesString: Bytes, dwaNames: set<Bytes>)
      ensures fresh(socket) && socket.bytesString == bytesString && this.dwaNames == dwaNames
    {
      socket := new SocketString(bytesString);
      this.dwaNames := dwaNames;
    }

    /** `_int_deserialization`. */
    method IntDeserialization() returns (r: Result<nat, Error>)
      modifies socket
      ensures Agrees(r, socket.bytesString, ReadInt(old(socket.bytesString)))
    {
      var word := socket.GetFirstNBytes(4);
      r := BytesToInt(word);
    }

    /** `bytes_deserialization`. */
    method BytesDeserialization() returns (r: Result<Bytes, Error>)
      modifies socket
      ensures Agrees(r, socket.bytesString, ReadBytes(old(socket.bytesString)))
    {
      var size :- IntDeserialization();
      var b := socket.GetFirstNBytes(size);
      r := Ok(b);
    }

    /** `string_deserialization`: the same read, the text kept as its UTF-8 bytes. */
    method StringDeserialization() returns (r: Result<Bytes, Error>)
      modifies socket
      ensures Agrees(r, socket.bytesString, ReadBytes(old(socket.bytesString)))
    {
      r := BytesDeserialization();
    }

    /** `scalar_deserialization`. */
    method ScalarDeserialization() returns (r: Result<Number, Error>)
      modifies socket
      ensures Agrees(r, socket.bytesString, ReadScalar(old(socket.bytesString)))
    {
      var dtype :- StringDeserialization();
      var size :- IntDeserialization();
      var raw := socket.GetFirstNBytes(size);
      r := Ok(Number(CastKind(dtype), dtype, raw));
    }

    /** `boolean_deserialization`. */
    method BooleanDeserialization() returns (r: Result<Number, Error>)
      modifies socket
      ensures Agrees(r, socket.bytesString, ReadBool(old(socket.bytesString)))
    {
      var n :- ScalarDeserialization();
      r := Ok(BoolNumber(Truthy(n.raw)));
    }

    /** The dimension loop of `ndarray_deserialization`: `rank` words, appended in order. */
    method DimsDeserialization(rank: nat) returns (r: Result<seq<nat>, Error>)
      modifies socket
      ensures Agrees(r, socket.bytesString, ReadDims(old(socket.bytesString), rank))
    {
      ghost var start := socket.bytesString;
      var shape: seq<nat> := [];
      var i := 0;
      while i < rank
        invariant 0 <= i <= rank
        invariant ReadDims(start, i) == Ok(Decoded(shape, socket.bytesString))
      {
        ghost var before := socket.bytesString;
        var d := IntDeserialization();
        ReadDimsStep(start, i, shape, before, ReadInt(before));
        if d.Err? {
          ReadDimsShort(start, i + 1, rank);
          return Err(d.error);
        }
        shape := shape + [d.value];
        i := i + 1;
      }
      r := Ok(shape);
    }

    /** `ndarray_deserialization`. */
    method NdarrayDeserialization() returns (r: Result<NdArray, Error>)
      modifies socket
      ensures Agrees(r, socket.bytesString, ReadArray(old(socket.bytesString)))
    {
      var dtype :- StringDeserialization();
      var size :- IntDeserialization();
      var rank :- IntDeserialization();
      var shape :- DimsDeserialization(rank);
      var data := socket.GetFirstNBytes(size);
      r := Ok(NdArray(dtype, AtLeast1d(shape), data));
    }

    /** `axis_deserialization`. */
    method AxisDeserialization() returns (r: Result<Axis, Error>)
      modifies socket
      ensures Agrees(r, socket.bytesString, ReadAxis(old(socket.bytesString)))
    {
      var className :- StringDeserialization();
      if className != ClassName(AxisClass) {
        return Err(TypeError);
      }
      var axisLabel :- StringDeserialization();
      var units :- StringDeserialization();
      var data :- NdarrayDeserialization();
      var index :- ScalarDeserialization();
      var spreadOrder :- ScalarDeserialization();
      r := Ok(Axis(axisLabel, units, data, index, spreadOrder));
    }

    /** `type_and_object_deserialization`. */
    method TypeAndObjectDeserialization() returns (r: Result<Value, Error>)
      modifies socket
      ensures Agrees(r, socket.bytesString, ReadTagged(old(socket.bytesString), dwaNames))
      decreases |socket.bytesString|, 3
    {
      var objType :- StringDeserialization();
      match TypeOfName(objType)
      case None =>
        r := Ok(NoneVal);
      case Some(ScalarType) =>
        var x :- ScalarDeserialization();
        r := Ok(Num(x));
      case Some(StringType) =>
        var x :- StringDeserialization();
        r := Ok(Str(x));
      case Some(BytesType) =>
        var x :- BytesDeserialization();
        r := Ok(BytesVal(x));
      case Some(ArrayType) =>
        var x :- NdarrayDeserialization();
        r := Ok(Array(x));
      case Some(DataWithAxesType) =>
        var x :- DwaDeserialization();
        r := Ok(DwaVal(x));
      case Some(DataToExportType) =>
        var x :- DteDeserialization();
        r := Ok(DteVal(x));
      case Some(AxisType) =>
        var x :- AxisDeserialization();
        r := Ok(AxisVal(x));
      case Some(BoolType) =>
        var x :- BooleanDeserialization();
        r := Ok(Num(x));
      case Some(ListType) =>
        var x :- ListDeserialization();
        r := Ok(List(x));
      case Some(ParameterType) =>
        r := ParameterDeserialization();
    }

    /** The loop of `list_deserialization`: `n` tagged objects appended in order. */
    method ItemsDeserialization(n: nat) returns (r: Result<seq<Value>, Error>)
      modifies socket
      ensures Agrees(r, socket.bytesString, ReadItems(old(socket.bytesString), n, dwaNames))
      decreases |socket.bytesString|, 4
    {
      ghost var start := socket.bytesString;
      var items: seq<Value> := [];
      var i := 0;
      while i < n
        invariant 0 <= i <= n
        invariant ReadItems(start, i, dwaNames) == Ok(Decoded(items, socket.bytesString))
        invariant |socket.bytesString| <= |start|
      {
        ghost var before := socket.bytesString;
        var x := TypeAndObjectDeserialization();
        ReadItemsStepAt(start, i, items, before, ReadTagged(before, dwaNames), dwaNames);
        if x.Err? {
          ReadItemsErrPersists(start, i + 1, n, dwaNames);
          return Err(x.error);
        }
        items := items + [x.value];
        i := i + 1;
      }
      r := Ok(items);
    }

    /** `list_deserialization`: the count, then that many tagged objects. */
    method ListDeserialization() returns (r: Result<seq<Value>, Error>)
      modifies socket
      ensures Agrees(r, socket.bytesString, ReadList(old(socket.bytesString), dwaNames))
      decreases |socket.bytesString|, 0
    {
      var n :- IntDeserialization();
      r := ItemsDeserialization(n);
    }

    /** `parameter_deserialization`, up to the XML parsing: the path, then the XML text. */
    method ParameterDeserialization() returns (r: Result<Value, Error>)
      modifies socket
      ensures Agrees(r, socket.bytesString, ReadParameter(old(socket.bytesString), dwaNames))
      decreases |socket.bytesString|, 1
    {
      var path :- ListDeserialization();
      var xml :- StringDeserialization();
      r := Ok(Parameter(path, xml));
    }

    /** The fields `dwa_deserialization` reads before its first list. */
    method DwaHeaderDeserialization() returns (r: Result<DwaHeader, Error>)
      modifies socket
      ensures Agrees(r, socket.bytesString, ReadDwaHeader(old(socket.bytesString), dwaNames))
    {
      var className :- StringDeserialization();
      if className !in dwaNames {
        return Err(TypeError);
      }
      var timestamp :- ScalarDeserialization();
      var name :- StringDeserialization();
      var source :- StringDeserialization();
      var dim :- StringDeserialization();
      var distribution :- StringDeserialization();
      r := Ok(DwaHeader(className, timestamp, name, source, dim, distribution));
    }

    /** The extra-attribute loop of `dwa_deserialization`: read a value, then set it under its name. */
    method ExtrasDeserialization(names: seq<Value>) returns (r: Result<seq<Value>, Error>)
      modifies socket
      ensures Agrees(r, socket.bytesString, ReadExtras(old(socket.bytesString), names, dwaNames))
      decreases |socket.bytesString|, 4
    {
      ghost var start := socket.bytesString;
      var values: seq<Value> := [];
      var i := 0;
      while i < |names|
        invariant 0 <= i <= |names|
        invariant ReadExtras(start, names[..i], dwaNames) == Ok(Decoded(values, socket.bytesString))
        invariant |socket.bytesString| <= |start|
      {
        ghost var before := socket.bytesString;
        var x := TypeAndObjectDeserialization();
        ReadExtrasStepAt(start, names, i, values, before, ReadTagged(before, dwaNames), dwaNames);
        if x.Err? {
          ReadExtrasErrPersists(start, names, i + 1, dwaNames);
          return Err(x.error);
        }
        if !names[i].Str? {
          ReadExtrasErrPersists(start, names, i + 1, dwaNames);
          return Err(TypeError);
        }
        values := values + [x.value];
        i := i + 1;
      }
      assert names[..i] == names;
      r := Ok(values);
    }

    /** `dwa_deserialization`. */
    method DwaDeserialization() returns (r: Result<DataWithAxes, Error>)
      modifies socket
      ensures Agrees(r, socket.bytesString, ReadDwa(old(socket.bytesString), dwaNames))
      decreases |socket.bytesString|, 0
    {
      var h :- DwaHeaderDeserialization();
      var data :- ListDeserialization();
      var units :- StringDeserialization();
      var labels :- ListDeserialization();
      var origin :- StringDeserialization();
      var navIndexes :- ListDeserialization();
      var axes :- ListDeserialization();
      var errors :- ListDeserialization();
      var names :- ListDeserialization();
      var extras :- ExtrasDeserialization(names);
      r := Ok(DataWithAxes(h.className, h.timestamp, h.name, h.source, h.dim, h.distribution,
                           data, units, labels, origin, navIndexes, axes,
                           if errors == [] then NoErrors else Attached(errors),
                           names, extras));
    }

    /** `dte_deserialization`. */
    method DteDeserialization() returns (r: Result<DataToExport, Error>)
      modifies socket
      ensures Agrees(r, socket.bytesString, ReadDte(old(socket.bytesString), dwaNames))
      decreases |socket.bytesString|, 0
    {
      var className :- StringDeserialization();
      if className != ClassName(DteClass) {
        return Err(TypeError);
      }
      var timestamp :- ScalarDeserialization();
      var name :- StringDeserialization();
      var data :- ListDeserialization();
      r := Ok(DataToExport(name, timestamp, data));
    }
  }
}
