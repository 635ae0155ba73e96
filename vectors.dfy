/**
 * The exact byte strings the serializer's tests expect, stated for the
 * model: the bytes, int and bool encodings through the registry that the
 * serializer module builds when it is imported.
 */
module Vectors {
  import opened Wrappers
  import opened Bytes
  import opened Values
  import opened Serializer
  import opened Decoding
  import opened Factory
  import opened RoundTrip

  /** The registry right after import holds the standard encoders for bytes, int and bool. */
  lemma Imported()
    ensures Compatible(Builtins(map[]))
    ensures BytesClass in Builtins(map[]) && IntClass in Builtins(map[]) && BoolClass in Builtins(map[])
  {
    BuiltinsCompatible(map[]);
    BuiltinsRegistered(map[]);
  }

  /** `bytes_serialize(b'kjlksjdf')` is the length word 8 followed by the eight bytes. */
  lemma BytesVector()
    ensures ApplySerializer(Builtins(map[]), BytesVal([107, 106, 108, 107, 115, 106, 100, 102] /* "kjlksjdf" */))
         == Ok([0, 0, 0, 8, 107, 106, 108, 107, 115, 106, 100, 102])
  {
    var b: Bytes := [107, 106, 108, 107, 115, 106, 100, 102];
    assert ApplySerializer(Builtins(map[]), BytesVal(b)) == LengthPrefixed(b) by {
      Imported();
      StandardDispatch(Builtins(map[]), BytesVal(b));
    }
    assert LengthPrefixed(b) == Ok(U32(8) + b);
    assert U32(8) + b == [0, 0, 0, 8, 107, 106, 108, 107, 115, 106, 100, 102] by {
      assert U32(8) == [0, 0, 0, 8];
    }
  }

  /** The number 23 as numpy holds it with a 32-bit default int: dtype "<i4", four little-endian bytes. */
  function TwentyThree(): (n: Number)
    ensures NumberClass(n.kind) == IntClass
  {
    Number(IntKind, [60, 105, 52] /* "<i4" */, [23, 0, 0, 0])
  }

  /** `scalar_serialize(23)`: the dtype string "<i4", the length word 4, then 23 little-endian. */
  lemma IntWire()
    ensures ScalarWire(TwentyThree()) == Ok([0, 0, 0, 3, 60, 105, 52, 0, 0, 0, 4, 23, 0, 0, 0])
  {
    var n := TwentyThree();
    assert U32(3) == [0, 0, 0, 3] && U32(4) == [0, 0, 0, 4];
    assert LengthPrefixed(n.dtype) == Ok(U32(3) + n.dtype);
    assert IntToBytes(4) == Ok(U32(4));
    assert ScalarWire(n) == Ok(U32(3) + n.dtype + U32(4) + n.raw);
    assert U32(3) + n.dtype + U32(4) + n.raw == [0, 0, 0, 3, 60, 105, 52, 0, 0, 0, 4, 23, 0, 0, 0];
  }

  /** Through the imported registry, 23 is encoded by `scalar_serialize` with no tag added. */
  lemma IntVector()
    ensures ApplySerializer(Builtins(map[]), Num(TwentyThree()))
         == Ok([0, 0, 0, 3, 60, 105, 52, 0, 0, 0, 4, 23, 0, 0, 0])
  {
    Imported();
    StandardDispatch(Builtins(map[]), Num(TwentyThree()));
    IntWire();
  }

  /**
   * True has its own registry entry (the lookup is by exact class), and it
   * encodes with dtype "|b1" and the single byte 1, not as an int.
   */
  lemma BoolVector()
    ensures BoolClass in Builtins(map[]) && ClassOf(Num(BoolNumber(true))) == BoolClass
    ensures ApplySerializer(Builtins(map[]), Num(BoolNumber(true)))
         == Ok([0, 0, 0, 3, 124, 98, 49, 0, 0, 0, 1, 1])
  {
    var n := BoolNumber(true);
    Imported();
    StandardDispatch(Builtins(map[]), Num(n));
    assert U32(3) == [0, 0, 0, 3] && U32(1) == [0, 0, 0, 1];
    assert LengthPrefixed(n.dtype) == Ok(U32(3) + n.dtype);
    assert IntToBytes(1) == Ok(U32(1));
    assert ScalarWire(n) == Ok(U32(3) + n.dtype + U32(1) + n.raw);
    assert U32(3) + n.dtype + U32(1) + n.raw == [0, 0, 0, 3, 124, 98, 49, 0, 0, 0, 1, 1];
  }

  /** The dtype "<i4" has an 'i' and no 'f': `scalar_deserialization` casts it to int. */
  lemma I4IsInt()
    ensures CastKind([60, 105, 52]) == IntKind
  {
    assert HasLetter([105, 52], 'i');
    assert !HasLetter([52], 'f') && !HasLetter([105, 52], 'f');
  }

  /** The bytes of `IntVector` read back through `scalar_deserialization` as the int 23, with nothing left. */
  lemma IntVectorReadsBack()
    ensures ReadScalar(ScalarWire(TwentyThree()).value) == Ok(Decoded(TwentyThree(), []))
    ensures ScalarWire(TwentyThree()).value == [0, 0, 0, 3, 60, 105, 52, 0, 0, 0, 4, 23, 0, 0, 0]
  {
    var n := TwentyThree();
    IntWire();
    ScalarRoundTrip(n, []);
    assert ScalarWire(n).value + [] == ScalarWire(n).value;
    I4IsInt();
  }
}
