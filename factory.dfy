/**
 * `SerializableFactory`: the registry from a runtime class to the encoder
 * used for its objects. The first registration of a class wins; later
 * ones are ignored. The keys are listed in the order they were first
 * registered, as a Python dict keeps them.
 */
module Factory {
  import opened Wrappers
  import opened Bytes
  import opened Values
  import opened Serializer

  /** The table after registering `enc` for `c`. */
  function Register(reg: Registry, c: PyClass, enc: Encoder): Registry {
    if c in reg then reg else reg[c := enc]
  }

  /**
   * Registration adds exactly the class; a class already present keeps
   * the encoder it has, a new one gets `enc`.
   */
  lemma RegisterSpec(reg: Registry, c: PyClass, enc: Encoder)
    ensures Register(reg, c, enc).Keys == reg.Keys + {c}
    ensures c !in reg ==> Register(reg, c, enc)[c] == enc
    ensures forall k :: k in reg ==> Register(reg, c, enc)[k] == reg[k]
  {
  }

  /** Registering a class a second time changes nothing, whatever the second encoder. */
  lemma RegisterFirstWins(reg: Registry, c: PyClass, first: Encoder, second: Encoder)
    ensures Register(Register(reg, c, first), c, second) == Register(reg, c, first)
  {
  }

  /** Registrations of two different classes do not interfere: the table does not depend on their order. */
  lemma RegisterCommutes(reg: Registry, a: PyClass, x: Encoder, b: PyClass, y: Encoder)
    requires a != b
    ensures Register(Register(reg, a, x), b, y) == Register(Register(reg, b, y), a, x)
  {
  }

  /** Registering a class with its standard encoder keeps every entry standard. */
  lemma RegisterCompatible(reg: Registry, c: PyClass)
    requires Compatible(reg) && StandardEncoder(c).Some?
    ensures Compatible(Register(reg, c, StandardEncoder(c).value))
  {
  }

  /** The number `1 + 1j`: a complex128 whose real and imaginary parts are the double 1.0. */
  function OnePlusOneJ(): (n: Number)
    ensures NumberClass(n.kind) == ComplexClass
  {
    var one := [0, 0, 0, 0, 0, 0, 240, 63]; // 1.0 as a little-endian IEEE 754 double
    Number(ComplexKind, [60, 99, 49, 54] /* "<c16" */, one + one)
  }

  /**
   * The registry after the seven registrations the serializer module
   * makes when it is imported: bytes, str, int, float, complex (by an
   * object, `1 + 1j`), bool and ndarray.
   */
  function Builtins(reg: Registry): Registry {
    var r1 := Register(reg, BytesClass, EncodeBytes);
    var r2 := Register(r1, StrClass, EncodeString);
    var r3 := Register(r2, IntClass, EncodeScalar);
    var r4 := Register(r3, FloatClass, EncodeScalar);
    var r5 := Register(r4, ClassOf(Num(OnePlusOneJ())), EncodeScalar);
    var r6 := Register(r5, BoolClass, EncodeScalar);
    Register(r6, NdArrayClass, EncodeNdArray)
  }

  /** The key order of a dict after registering `c`: appended when new, unchanged otherwise. */
  function Track(order: seq<PyClass>, reg: Registry, c: PyClass): seq<PyClass> {
    if c in reg then order else order + [c]
  }

  /** The key order after the seven registrations of `Builtins`. */
  function BuiltinOrder(order: seq<PyClass>, reg: Registry): seq<PyClass> {
    var o1 := Track(order, reg, BytesClass);
    var r1 := Register(reg, BytesClass, EncodeBytes);
    var o2 := Track(o1, r1, StrClass);
    var r2 := Register(r1, StrClass, EncodeString);
    var o3 := Track(o2, r2, IntClass);
    var r3 := Register(r2, IntClass, EncodeScalar);
    var o4 := Track(o3, r3, FloatClass);
    var r4 := Register(r3, FloatClass, EncodeScalar);
    var o5 := Track(o4, r4, ClassOf(Num(OnePlusOneJ())));
    var r5 := Register(r4, ClassOf(Num(OnePlusOneJ())), EncodeScalar);
    var o6 := Track(o5, r5, BoolClass);
    var r6 := Register(r5, BoolClass, EncodeScalar);
    Track(o6, r6, NdArrayClass)
  }

  /** The classes registered at import, in registration order. */
  const BUILTIN_CLASSES: seq<PyClass> :=
    [BytesClass, StrClass, IntClass, FloatClass, ComplexClass, BoolClass, NdArrayClass]

  /** The entries the import adds to an empty registry. */
  const BUILTIN_TABLE: Registry :=
    map[BytesClass := EncodeBytes, StrClass := EncodeString, IntClass := EncodeScalar,
        FloatClass := EncodeScalar, ComplexClass := EncodeScalar, BoolClass := EncodeScalar,
        NdArrayClass := EncodeNdArray]

  /** Registering into `t + reg` (entries of `reg` taking precedence) registers into `t` first. */
  lemma RegisterUnder(t: Registry, reg: Registry, c: PyClass, enc: Encoder)
    requires c !in t
    ensures Register(t + reg, c, enc) == t[c := enc] + reg
  {
    if c in reg {
      assert t[c := enc] + reg == t + reg;
    }
  }

  /**
   * The import adds the built-in entries under those already present: a
   * class registered before keeps its encoder, every other built-in class
   * gets the encoder the serializer module gives it.
   */
  lemma BuiltinsRegistered(reg: Registry)
    ensures Builtins(reg) == BUILTIN_TABLE + reg
    ensures BUILTIN_TABLE.Keys == set c | c in BUILTIN_CLASSES
  {
    assert ClassOf(Num(OnePlusOneJ())) == ComplexClass;
    var e: Registry := map[];
    assert reg == e + reg;
    RegisterUnder(e, reg, BytesClass, EncodeBytes);
    var t1 := e[BytesClass := EncodeBytes];
    RegisterUnder(t1, reg, StrClass, EncodeString);
    var t2 := t1[StrClass := EncodeString];
    RegisterUnder(t2, reg, IntClass, EncodeScalar);
    var t3 := t2[IntClass := EncodeScalar];
    RegisterUnder(t3, reg, FloatClass, EncodeScalar);
    var t4 := t3[FloatClass := EncodeScalar];
    RegisterUnder(t4, reg, ComplexClass, EncodeScalar);
    var t5 := t4[ComplexClass := EncodeScalar];
    RegisterUnder(t5, reg, BoolClass, EncodeScalar);
    var t6 := t5[BoolClass := EncodeScalar];
    RegisterUnder(t6, reg, NdArrayClass, EncodeNdArray);
    assert t6[NdArrayClass := EncodeNdArray] == BUILTIN_TABLE;
  }

  /** Every built-in entry is its class's standard encoder; bool has its own entry rather than sharing int's. */
  lemma BuiltinTableStandard()
    ensures Compatible(BUILTIN_TABLE)
    ensures BoolClass in BUILTIN_TABLE && ListClass !in BUILTIN_TABLE
  {
  }

  /** Into an empty registry, the import lists the seven built-in classes in the order of the calls. */
  lemma BuiltinOrderFresh()
    ensures BuiltinOrder([], map[]) == BUILTIN_CLASSES
  {
    assert ClassOf(Num(OnePlusOneJ())) == ComplexClass;
  }

  /** Importing the serializer module keeps a registry of standard encoders standard. */
  lemma BuiltinsCompatible(reg: Registry)
    requires Compatible(reg)
    ensures Compatible(Builtins(reg))
  {
    BuiltinsRegistered(reg);
    BuiltinTableStandard();
  }

  /**
   * `to_bytes` on a list, with only the built-in encoders registered:
   * `list_serialize` is never registered, so the factory finds no encoder
   * for the list class.
   */
  lemma ListsUnregistered(items: seq<Value>)
    ensures ApplySerializer(Builtins(map[]), List(items)) == Err(NotImplementedError)
  {
    BuiltinsRegistered(map[]);
    assert ListClass !in Builtins(map[]);
    Unregistered(Builtins(map[]), List(items));
  }

  /** Whether no class occurs twice. */
  ghost predicate Distinct(cs: seq<PyClass>) {
    forall i, j :: 0 <= i < j < |cs| ==> cs[i] != cs[j]
  }

  class SerializableFactory {
    /** `serializable_registry`. */
    var registry: Registry
    /** The keys of `registry` in insertion order. */
    var order: seq<PyClass>

    /** `order` lists each registered class exactly once. */
    ghost predicate Valid()
      reads this
    {
      (forall c :: c in registry <==> c in order) && Distinct(order)
    }

    /** An empty registry. */
    constructor ()
      ensures registry == map[] && order == [] && Valid()
    {
      registry := map[];
      order := [];
    }

    /** `register_from_type`: the class gets `enc` unless it already has an encoder. */
    method RegisterFromType(objType: PyClass, enc: Encoder)
      requires Valid()
      modifies this
      ensures Valid()
      ensures registry == Register(old(registry), objType, enc)
      ensures order == Track(old(order), old(registry), objType)
    {
      if objType !in registry {
        registry := registry[objType := enc];
        order := order + [objType];
      }
    }

    /** `register_from_obj`: registration under the exact class of an example object. */
    method RegisterFromObj(obj: Value, enc: Encoder)
      requires Valid()
      modifies this
      ensures Valid()
      ensures registry == Register(old(registry), ClassOf(obj), enc)
      ensures order == Track(old(order), old(registry), ClassOf(obj))
    {
      RegisterFromType(ClassOf(obj), enc);
    }

    /** `get_serialazables`: the registered classes, each once, in registration order. */
    method GetSerialazables() returns (cs: seq<PyClass>)
      requires Valid()
      ensures forall c :: c in cs <==> c in registry
      ensures Distinct(cs) && cs == order
    {
      cs := order;
    }

    /** `get_serializer`: the encoder registered for the exact class of `obj`, or None. */
    function GetSerializer(obj: Value): (r: Option<Encoder>)
      reads this
      ensures r.Some? <==> ClassOf(obj) in registry
      ensures r.Some? ==> r.value == registry[ClassOf(obj)]
    {
      if ClassOf(obj) in registry then Some(registry[ClassOf(obj)]) else None
    }

    /**
     * `get_apply_serializer`: the registered encoder applied to `obj`, with
     * no type tag; NotImplementedError when its class has no entry.
     */
    method GetApplySerializer(obj: Value) returns (r: Result<Bytes, Error>)
      ensures GetSerializer(obj).None? ==> r == Err(NotImplementedError)
      ensures GetSerializer(obj).Some? ==> r == Apply(registry, GetSerializer(obj).value, obj)
    {
      var serializer := GetSerializer(obj);
      if serializer.Some? {
        r := Apply(registry, serializer.value, obj);
      } else {
        r := Err(NotImplementedError);
      }
    }

    /** The seven registration calls the serializer module makes at import, in their order. */
    method RegisterBuiltins()
      requires Valid()
      modifies this
      ensures Valid()
      ensures registry == Builtins(old(registry))
      ensures order == BuiltinOrder(old(order), old(registry))
    {
      RegisterFromType(BytesClass, EncodeBytes);
      RegisterFromType(StrClass, EncodeString);
      RegisterFromType(IntClass, EncodeScalar);
      RegisterFromType(FloatClass, EncodeScalar);
      RegisterFromObj(Num(OnePlusOneJ()), EncodeScalar);
      RegisterFromType(BoolClass, EncodeScalar);
      RegisterFromType(NdArrayClass, EncodeNdArray);
    }
  }

  /** A fresh factory after import lists the seven built-in classes in the order they were registered. */
  method ImportedFactory() returns (f: SerializableFactory)
    ensures fresh(f) && f.Valid()
    ensures f.order == BUILTIN_CLASSES
    ensures f.registry == Builtins(map[]) && Compatible(f.registry)
  {
    f := new SerializableFactory();
    f.RegisterBuiltins();
    BuiltinOrderFresh();
    BuiltinsCompatible(map[]);
  }

  /**
   * With the built-in encoders, `get_apply_serializer` on a string is
   * `string_serialize`: the UTF-8 byte count, then the bytes.
   */
  lemma StringThroughFactory(s: Bytes)
    requires |s| < TWO_32
    ensures ApplySerializer(Builtins(map[]), Str(s)) == LengthPrefixed(s)
    ensures LengthPrefixed(s).value == U32(|s|) + s
  {
    BuiltinsRegistered(map[]);
  }
}
