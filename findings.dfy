/**
 * The two writers that tag objects with their Python class name, and what
 * the generic decoder makes of their output: it knows only the
 * `SerializableTypes` names, so a class name such as "int" reads as None
 * and the object's own bytes are left unread.
 */
module Findings {
  import opened Wrappers
  import opened Bytes
  import opened Values
  import opened Serializer
  import opened Decoding
  import opened RoundTrip
  import opened Vectors

  /** The class name "int" is not a `SerializableTypes` value. */
  lemma IntIsNoTypeName()
    ensures ClassName(IntClass) == [105, 110, 116]
    ensures TypeOfName(ClassName(IntClass)) == None
  {
  }

  /** The bytes `list_serialize` writes for [23]: the count 1, the string "int", the scalar. */
  lemma ListAsWrittenLayout(reg: Registry)
    requires Compatible(reg) && IntClass in reg
    ensures ScalarWire(TwentyThree()).Ok?
    ensures ListWireAsWritten(reg, [Num(TwentyThree())])
         == Ok(U32(1) + (LengthPrefixed(ClassName(IntClass)).value + ScalarWire(TwentyThree()).value))
  {
    var v := Num(TwentyThree());
    var items := [v];
    StandardDispatch(reg, v);
    var name := ClassName(IntClass);
    var payload := ScalarWire(TwentyThree());
    assert LengthPrefixed(name).Ok? && payload.Ok?;
    assert items[1..] == [];
    assert ItemsWireAsWritten(reg, items) == Then(Then(LengthPrefixed(name), payload), Ok([]));
    assert Then(LengthPrefixed(name), payload).value + [] == Then(LengthPrefixed(name), payload).value;
  }

  /**
   * `list_serialize` as written, read back by `list_deserialization`:
   * the one-element list [23] comes back as [None], and the scalar's
   * bytes are what is left over.
   */
  lemma ListAsWrittenReadsNone(reg: Registry, dn: set<Bytes>)
    requires Compatible(reg) && IntClass in reg
    ensures ListWireAsWritten(reg, [Num(TwentyThree())]).Ok?
    ensures ReadList(ListWireAsWritten(reg, [Num(TwentyThree())]).value, dn)
         == Ok(Decoded([NoneVal], ScalarWire(TwentyThree()).value))
  {
    ListAsWrittenLayout(reg);
    var name := ClassName(IntClass);
    var payload := ScalarWire(TwentyThree()).value;
    var body := LengthPrefixed(name).value + payload;
    IntIsNoTypeName();
    IntRoundTrip(1, body);
    BytesRoundTrip(name, payload);
    assert ReadTagged(body, dn) == Ok(Decoded(NoneVal, payload));
    ReadItemsStep(body, 0, [], body, NoneVal, payload, dn);
    assert [] + [NoneVal] == [NoneVal];
  }

  /**
   * `type_and_object_serialization` as written, read back by
   * `type_and_object_deserialization`: the int 23 comes back as None and
   * its bytes are left over.
   */
  lemma TypeAndObjectReadsNone(reg: Registry, dn: set<Bytes>)
    requires Compatible(reg) && IntClass in reg && StrClass in reg
    ensures TypeAndObjectSerialization(reg, NoneVal, Num(TwentyThree())).Ok?
    ensures ReadTagged(TypeAndObjectSerialization(reg, NoneVal, Num(TwentyThree())).value, dn)
         == Ok(Decoded(NoneVal, ScalarWire(TwentyThree()).value))
  {
    var v := Num(TwentyThree());
    var name := ClassName(IntClass);
    StandardDispatch(reg, v);
    StandardDispatch(reg, Str(name));
    IntIsNoTypeName();
    var payload := ScalarWire(TwentyThree());
    assert TypeAndObjectSerialization(reg, NoneVal, v) == Then(LengthPrefixed(name), payload);
    BytesRoundTrip(name, payload.value);
  }

  /** The corrected tagging: the same list reads back as itself under the type-name tags. */
  lemma ListCorrectedReadsBack(reg: Registry, dn: set<Bytes>)
    requires Compatible(reg) && IntClass in reg
    ensures ListWire(reg, [Num(TwentyThree())]).Ok?
    ensures ReadList(ListWire(reg, [Num(TwentyThree())]).value, dn) == Ok(Decoded([Num(TwentyThree())], []))
  {
    var v := Num(TwentyThree());
    var items := [v];
    StandardDispatch(reg, v);
    assert TypeTag(IntClass) == TypeName(ScalarType);
    assert items[1..] == [];
    assert ItemsWire(reg, items) == Then(TaggedWire(reg, v), Ok([]));
    assert WellFormed(v, dn);
    assert AllWellFormed(items, dn);
    ListRoundTrip(reg, items, [], dn);
    assert ListWire(reg, items).value + [] == ListWire(reg, items).value;
  }
}
