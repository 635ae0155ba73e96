# pymodaq_data serialization, modelled in Dafny

This project models the byte-level serialization layer of `pymodaq_data`.
PyMoDAQ uses that layer to send Python and numpy objects between
processes. The model covers four parts:

- **The encoders.** `int_to_bytes` writes a four-byte big-endian word. `str_len_to_bytes`, `bytes_serialize` and `string_serialize` write length-prefixed byte strings. `scalar_serialize` writes a dtype string, a byte count and the raw numpy buffer. `ndarray_serialize` adds the rank and the dimensions. `list_serialize` writes a count, then each element tagged.
- **The registry.** `SerializableFactory` maps the exact class of an object to its encoder. `register_from_type` and `register_from_obj` keep the first encoder registered for a class. `get_apply_serializer` raises NotImplementedError for a class with no entry. The seven registrations of the serializer module are modelled too.
- **The byte cursor.** `SocketString` stands in for a socket. It hands out the first `length` bytes of its buffer and keeps the rest, with Python's slice semantics for any integer `length`.
- **The decoders.** `DeSerializer` has one method per `*_deserialization` reader. Each method consumes bytes from its `SocketString` in the order the source reads them. `type_and_object_deserialization` is the generic reader. It dispatches on the `SerializableTypes` name written before an object.

The representation follows the source:

- Bytes are `seq<Byte>`. Text is its UTF-8 encoding.
- A number is its numpy dtype descriptor plus its raw bytes (`Values.Number`).
- An array is its dtype, shape and flattened buffer.
- Axis, DataWithAxes and DataToExport keep the fields that travel on the wire.
- Python exceptions are the `Err` values of a `Result`.

The readers are pure functions in `Decoding`. The `DeSerializer` methods are imperative and update the cursor. Each method's postcondition ties its result and the new cursor to its reader. For example, `ReadScalar(old(bytes))` gives the value returned and the bytes left.

The main proved property is the round trip, stated for any bytes that follow:

- With the corrected tags of `Serializer.TypeTag`, whatever the encoders write for a well-formed object, the matching reader reads back. It leaves the following bytes untouched (`RoundTrip.TaggedRoundTrip`, `RoundTrip.ListRoundTrip`, `RoundTrip.DwaRoundTrip`, `RoundTrip.DteRoundTrip`). The encoders as written tag objects with their class names and do not round-trip; see "## Findings".
- Where the decoder does not rebuild the object exactly, the lemmas say what comes back. A number is cast by the letters of its dtype. A rank-0 array comes back with one dimension (`RoundTrip.ArrayRoundTrip`). A DataWithAxes with an empty list of error arrays comes back with none attached (`RoundTrip.DwaEmptyErrorsRoundTrip`).
- A tag that names no `SerializableTypes` member reads as None, and the payload after it stays in the stream (`RoundTrip.UnknownTagReadsNone`).

Modules:

- `Wrappers`: Option and Result.
- `Bytes`: bytes and four-byte words.
- `Values`: objects, classes, exceptions and type names.
- `SocketStrings`: the byte cursor.
- `Serializer`: the encoders and the registry dispatch.
- `Decoding`: the readers as functions.
- `Deserializer`: the `DeSerializer` class.
- `Factory`: `SerializableFactory` and the registrations.
- `RoundTrip`: the round-trip lemmas.
- `Findings`: two discrepancies, described below.
- `Vectors`: the byte strings the unit tests assert.

## Model

| member | source | states |
|---|---|---|
| Bytes.U32Inverse | src/pymodaq_data/serialize/serializer.py:400-406 | `bytes_to_int` of the four big-endian bytes of any n < 2^32 is n |
| Bytes.FromU32Inverse | src/pymodaq_data/serialize/serializer.py:32-47 | re-encoding the integer read from any four bytes gives those bytes back, so the word codec is a bijection |
| Values.TypeOfName | src/pymodaq_data/serialize/serializer.py:522-555 | the `obj_type == SerializableTypes.X.value` chain selects member X only when the tag is X's name |
| Values.TypeOfNameInverse | src/pymodaq_data/serialize/serializer.py:232-243 | each of the ten `SerializableTypes` names resolves to its own member, so the names are pairwise distinct |
| Serializer.IntToBytes | src/pymodaq_data/serialize/serializer.py:32-47 | negative integers raise ValueError; integers of 2^32 or more raise OverflowError (from `to_bytes(4, 'big')`); every other integer gives four bytes that decode to it |
| Serializer.LengthPrefixed | src/pymodaq_data/serialize/serializer.py:55-73 | `str_len_to_bytes` plus the concatenation in `bytes_serialize`/`string_serialize`: a four-byte length equal to the payload size, then the payload; OverflowError exactly when the payload has 2^32 bytes or more |
| Serializer.ScalarEncoding | src/pymodaq_data/serialize/serializer.py:101-123 | a non-number raises TypeError; a number gives the dtype string, the byte count and the buffer |
| Serializer.ThenLaws | src/pymodaq_data/serialize/serializer.py:118-123 | appending fields with `+=` is associative, and the empty string is neutral, also when a step raises |
| Serializer.DimWords | src/pymodaq_data/serialize/serializer.py:162-163 | the dimension loop writes four bytes per dimension and overflows exactly when some dimension is 2^32 or more |
| Serializer.DimWordsAppend | src/pymodaq_data/serialize/serializer.py:162-163 | writing the dimensions of s + t is writing those of s, then those of t |
| Serializer.NdArrayEncoding | src/pymodaq_data/serialize/serializer.py:126-165 | a non-array raises TypeError; an array gives its dtype, byte count, rank, dimensions and data |
| Serializer.NdArraySerialize | src/pymodaq_data/serialize/serializer.py:126-165 | the imperative encoder, with its dimension loop, produces exactly `NdArrayEncoding` |
| Serializer.TypeTag | src/pymodaq_data/serialize/serializer.py:232-243 | the tag written for a class (corrected tags, see Findings) names the `SerializableTypes` member that the generic decoder maps back to that class's type |
| Serializer.ItemsWireAppend | src/pymodaq_data/serialize/serializer.py:196-200 | the tagged encoding (corrected tags, see Findings) of s + t is that of s followed by that of t, and an error in s stops the encoding |
| Serializer.ItemsWirePrefixErr | src/pymodaq_data/serialize/serializer.py:196-200 | once an element raises, the list's encoding is that error, whatever follows |
| Serializer.ListEncoding | src/pymodaq_data/serialize/serializer.py:168-202 | a non-list raises TypeError; a list gives its count, then its tagged elements |
| Serializer.ItemsSerialize | src/pymodaq_data/serialize/serializer.py:196-200 | the element loop produces the tagged encodings (corrected tags, see Findings) in order, stopping at the first error |
| Serializer.ListSerialize | src/pymodaq_data/serialize/serializer.py:168-202 | the imperative `list_serialize` (corrected tags) produces exactly `ListEncoding` |
| Serializer.StandardDispatch | src/pymodaq_data/serialize/factory.py:62-68 | when every registry entry is its class's standard encoder, `get_apply_serializer` runs the encoder of the object's own type, and no list, Parameter or None has an entry |
| Serializer.ThenOk | src/pymodaq_data/serialize/serializer.py:118-123 | a successful concatenation has successful parts, and its bytes followed by more bytes re-associate |
| Serializer.EncoderOf | src/pymodaq_data/serialize/serializer.py:205-211 | in a registry of standard entries, the entry for an object's class is the encoder of its own type (bytes, str, scalar, ndarray, …), and lists, Parameters and None have none |
| SocketStrings.Split | src/pymodaq_data/serialize/mysocket.py:42-43 | the two slices `[0:length]` and `[length:]` concatenate to the buffer; for length >= 0 the first has min(length, size) bytes; for length < 0 the second has min(-length, size) bytes |
| SocketStrings.SocketString.CheckReceivedLength | src/pymodaq_data/serialize/serializer.py:262-279 | returns the leading slice, keeps the rest, and loses no byte: data + new buffer == old buffer |
| SocketStrings.SocketString.GetFirstNBytes | src/pymodaq_data/serialize/serializer.py:281-294 | the same split as `check_received_length` |
| SocketStrings.ShortReadDrains | src/pymodaq_data/serialize/mysocket.py:42-43 | asking for at least as many bytes as remain returns them all and empties the buffer |
| SocketStrings.ZeroRead | src/pymodaq_data/serialize/mysocket.py:42-43 | a zero-length read returns nothing and leaves the buffer as it was |
| SocketStrings.ReadsCompose | src/pymodaq_data/serialize/mysocket.py:27-44 | reading m bytes then n bytes returns and leaves the same bytes as reading m + n at once |
| Decoding.BytesToInt | src/pymodaq_data/serialize/serializer.py:400-406 | succeeds exactly on four bytes (else AssertionError), and the result re-encodes to those bytes |
| Decoding.ReadInt | src/pymodaq_data/serialize/serializer.py:442-446 | `_int_deserialization`: AssertionError exactly when fewer than four bytes remain; otherwise the first four bytes as an integer, the rest left |
| Decoding.ReadBytes | src/pymodaq_data/serialize/serializer.py:448-451 | `bytes_deserialization` fails only when the length word is short; it always consumes the length word |
| Decoding.ReadBytesLayout | src/pymodaq_data/serialize/serializer.py:448-451 | the bytes read plus the bytes left are the input after the length word; the payload has min(announced length, available) bytes, as Python slicing gives |
| Decoding.CastKind | src/pymodaq_data/serialize/serializer.py:479-484 | the cast chosen from the dtype letters ('f', then 'i', then 'c') never yields a bool |
| Decoding.ReadScalar | src/pymodaq_data/serialize/serializer.py:466-485 | `scalar_deserialization` consumes at least the two length words; the number's class is the one its dtype letters choose |
| Decoding.ReadBool | src/pymodaq_data/serialize/serializer.py:487-498 | `boolean_deserialization` always yields a Python bool, True or False, whatever the buffer held |
| Decoding.ReadDims | src/pymodaq_data/serialize/serializer.py:513-515 | the dimension loop succeeds exactly when 4k bytes remain, and reads k dimensions |
| Decoding.AtLeast1d | src/pymodaq_data/serialize/serializer.py:519 | `np.atleast_1d` keeps a shape of rank >= 1 and gives a rank-0 shape one dimension |
| Decoding.ReadArray | src/pymodaq_data/serialize/serializer.py:500-520 | `ndarray_deserialization` returns an array of rank at least one and consumes at least three words |
| Decoding.ReadAxis | src/pymodaq_data/serialize/serializer.py:580-601 | `axis_deserialization` raises TypeError when the class name read first is not `Axis`, and consumes input whenever it succeeds |
| Decoding.ReadDwaHeader | src/pymodaq_data/serialize/serializer.py:612-623 | TypeError when the class name read is not one of the DataWithAxes flavours; on success the name is one of them and input is consumed |
| Decoding.ReadTagged | src/pymodaq_data/serialize/serializer.py:522-555 | `type_and_object_deserialization` consumes input whenever it succeeds |
| Decoding.ReadItems | src/pymodaq_data/serialize/serializer.py:566-570 | the element loop returns exactly n objects |
| Decoding.ReadList | src/pymodaq_data/serialize/serializer.py:557-571 | `list_deserialization` returns as many objects as its count word announces |
| Decoding.ReadParameter | src/pymodaq_data/serialize/serializer.py:573-578 | `parameter_deserialization` returns a parameter and consumes input |
| Decoding.ReadExtras | src/pymodaq_data/serialize/serializer.py:634-636 | the extra-attribute loop returns one value per attribute name |
| Decoding.ReadDwa | src/pymodaq_data/serialize/serializer.py:603-639 | `dwa_deserialization` returns an object of a known flavour and consumes input |
| Decoding.ReadDte | src/pymodaq_data/serialize/serializer.py:641-658 | `dte_deserialization` raises TypeError when the class name read first is not `DataToExport`, and consumes input whenever it succeeds |
| Deserializer.ReadItemsErrPersists | src/pymodaq_data/serialize/serializer.py:566-570 | once reading the m-th element fails, reading any later count fails with the same error |
| Deserializer.ReadExtrasErrPersists | src/pymodaq_data/serialize/serializer.py:634-636 | once reading an extra attribute fails, reading more attributes fails with the same error |
| Deserializer.ReadDimsShort | src/pymodaq_data/serialize/serializer.py:513-515 | once the words for the first k dimensions run out, reading more dimensions raises AssertionError |
| Deserializer.ReadItemsStepAt | src/pymodaq_data/serialize/serializer.py:569-570 | one more pass of the element loop appends the next object read, or its exception ends the loop |
| Deserializer.ReadExtrasStepAt | src/pymodaq_data/serialize/serializer.py:635-636 | one more extra attribute appends the value read for it, or raises the reader's exception, or TypeError when the name is not a string |
| Deserializer.DeSerializer.constructor | src/pymodaq_data/serialize/serializer.py:387-390 | wraps the bytes in a fresh `SocketString` |
| Deserializer.DeSerializer.IntDeserialization | src/pymodaq_data/serialize/serializer.py:442-446 | returns what `ReadInt` reads, and the cursor keeps what it leaves |
| Deserializer.DeSerializer.BytesDeserialization | src/pymodaq_data/serialize/serializer.py:448-451 | returns and leaves what `ReadBytes` does |
| Deserializer.DeSerializer.StringDeserialization | src/pymodaq_data/serialize/serializer.py:453-464 | returns and leaves what `ReadBytes` does (UTF-8 text kept encoded) |
| Deserializer.DeSerializer.ScalarDeserialization | src/pymodaq_data/serialize/serializer.py:466-485 | returns and leaves what `ReadScalar` does |
| Deserializer.DeSerializer.BooleanDeserialization | src/pymodaq_data/serialize/serializer.py:487-498 | returns and leaves what `ReadBool` does |
| Deserializer.DeSerializer.DimsDeserialization | src/pymodaq_data/serialize/serializer.py:513-515 | the imperative dimension loop returns and leaves what `ReadDims` does |
| Deserializer.DeSerializer.NdarrayDeserialization | src/pymodaq_data/serialize/serializer.py:500-520 | returns and leaves what `ReadArray` does |
| Deserializer.DeSerializer.AxisDeserialization | src/pymodaq_data/serialize/serializer.py:580-601 | returns and leaves what `ReadAxis` does |
| Deserializer.DeSerializer.TypeAndObjectDeserialization | src/pymodaq_data/serialize/serializer.py:522-555 | returns and leaves what `ReadTagged` does, including None for an unknown tag |
| Deserializer.DeSerializer.ItemsDeserialization | src/pymodaq_data/serialize/serializer.py:566-570 | the imperative element loop returns and leaves what `ReadItems` does |
| Deserializer.DeSerializer.ListDeserialization | src/pymodaq_data/serialize/serializer.py:557-571 | returns and leaves what `ReadList` does |
| Deserializer.DeSerializer.ParameterDeserialization | src/pymodaq_data/serialize/serializer.py:573-578 | returns and leaves what `ReadParameter` does |
| Deserializer.DeSerializer.DwaHeaderDeserialization | src/pymodaq_data/serialize/serializer.py:612-623 | returns and leaves what `ReadDwaHeader` does |
| Deserializer.DeSerializer.ExtrasDeserialization | src/pymodaq_data/serialize/serializer.py:634-636 | the imperative extra-attribute loop returns and leaves what `ReadExtras` does |
| Deserializer.DeSerializer.DwaDeserialization | src/pymodaq_data/serialize/serializer.py:603-639 | returns and leaves what `ReadDwa` does |
| Deserializer.DeSerializer.DteDeserialization | src/pymodaq_data/serialize/serializer.py:641-658 | returns and leaves what `ReadDte` does |
| Factory.RegisterSpec | src/pymodaq_data/serialize/factory.py:47-52 | registering adds the class; a new class gets the given encoder; every class already present keeps its encoder |
| Factory.RegisterFirstWins | src/pymodaq_data/serialize/factory.py:51-52 | registering the same class twice keeps the first encoder |
| Factory.RegisterCommutes | src/pymodaq_data/serialize/factory.py:47-52 | registrations of distinct classes commute |
| Factory.RegisterCompatible | src/pymodaq_data/serialize/factory.py:47-52 | registering a class's standard encoder keeps every entry standard |
| Factory.OnePlusOneJ | src/pymodaq_data/serialize/serializer.py:209 | `1 + 1j` is an instance of complex, so `register_from_obj` registers complex |
| Factory.RegisterUnder | src/pymodaq_data/serialize/factory.py:51-52 | registering a class absent from the earlier entries t adds it to t, before older entries |
| Factory.BuiltinsRegistered | src/pymodaq_data/serialize/serializer.py:205-211 | the seven registrations add bytes, str, int, float, complex, bool and ndarray, and leave earlier entries as they were |
| Factory.BuiltinTableStandard | src/pymodaq_data/serialize/serializer.py:205-211 | every registration uses its class's standard encoder; bool has an entry of its own; list has none |
| Factory.BuiltinOrderFresh | src/pymodaq_data/serialize/serializer.py:205-211 | on an empty registry the classes are listed in registration order |
| Factory.BuiltinsCompatible | src/pymodaq_data/serialize/serializer.py:205-211 | the registrations keep a registry of standard entries standard |
| Factory.ListsUnregistered | src/pymodaq_data/serialize/factory.py:62-68 | after the module's registrations, `get_apply_serializer` of a list raises NotImplementedError |
| Factory.SerializableFactory.constructor | src/pymodaq_data/serialize/factory.py:28 | the registry starts empty |
| Factory.SerializableFactory.RegisterFromType | src/pymodaq_data/serialize/factory.py:47-52 | the registry becomes `Register(old, type, enc)`; the key order records a new class at the end |
| Factory.SerializableFactory.RegisterFromObj | src/pymodaq_data/serialize/factory.py:37-44 | registers `obj.__class__` as `register_from_type` does |
| Factory.SerializableFactory.GetSerialazables | src/pymodaq_data/serialize/factory.py:54-56 | lists each registered class exactly once, in insertion order |
| Factory.SerializableFactory.GetSerializer | src/pymodaq_data/serialize/factory.py:58-60 | None exactly when the object's class has no entry, else that entry |
| Factory.SerializableFactory.GetApplySerializer | src/pymodaq_data/serialize/factory.py:62-68 | NotImplementedError exactly when there is no serializer; otherwise the serializer applied to the object |
| Factory.SerializableFactory.RegisterBuiltins | src/pymodaq_data/serialize/serializer.py:205-211 | the seven registration calls, in order, on the factory's state |
| Factory.ImportedFactory | src/pymodaq_data/serialize/serializer.py:205-211 | the factory after the module is imported: the seven classes, in order, all standard |
| Factory.StringThroughFactory | tests/serialize/serializer_test.py:12-17 | the factory's str encoder gives the length word followed by the text |
| RoundTrip.IntRoundTrip | src/pymodaq_data/serialize/serializer.py:442-446 | `_int_deserialization` reads back what `int_to_bytes` wrote, leaving what follows |
| RoundTrip.BytesRoundTrip | src/pymodaq_data/serialize/serializer.py:448-451 | `bytes_deserialization` reads back what `bytes_serialize`/`string_serialize` wrote |
| RoundTrip.ScalarRoundTrip | src/pymodaq_data/serialize/serializer.py:466-485 | `scalar_deserialization` reads back the dtype and buffer `scalar_serialize` wrote, in the class its dtype letters choose |
| RoundTrip.BoolRoundTrip | src/pymodaq_data/serialize/serializer.py:487-498 | a Python bool through `scalar_serialize` and `boolean_deserialization` comes back as itself |
| RoundTrip.TruthyOf | src/pymodaq_data/serialize/serializer.py:498 | `bool()` of the one byte numpy stores for a bool is that bool |
| RoundTrip.DimsRoundTrip | src/pymodaq_data/serialize/serializer.py:513-515 | the dimension loop reads back the dimensions written at lines 162-163 |
| RoundTrip.ArrayRoundTrip | src/pymodaq_data/serialize/serializer.py:500-520 | an array reads back with the same dtype and data, and its shape made at least one-dimensional |
| RoundTrip.AxisRoundTrip | src/pymodaq_data/serialize/serializer.py:580-601 | an Axis reads back as written |
| RoundTrip.DwaHeaderRoundTrip | src/pymodaq_data/serialize/serializer.py:612-623 | the leading DataWithAxes fields read back as written when the class name is a known flavour |
| RoundTrip.TagLayout | src/pymodaq_data/serialize/serializer.py:530 | the tag string read first is the `SerializableTypes` name of the object's type, followed by its encoding |
| RoundTrip.TaggedRoundTrip | src/pymodaq_data/serialize/serializer.py:522-555 | every well-formed object, tagged and encoded through a standard registry, is read back whole by `type_and_object_deserialization`, leaving what follows |
| RoundTrip.UnknownTagReadsNone | src/pymodaq_data/serialize/serializer.py:530-555 | for every tag naming no `SerializableTypes` member, `type_and_object_deserialization` returns None after reading only the tag, so everything after it stays unread |
| RoundTrip.ReadItemsStep | src/pymodaq_data/serialize/serializer.py:566-570 | one more iteration of the element loop appends the next object read |
| RoundTrip.ItemsRoundTrip | src/pymodaq_data/serialize/serializer.py:566-570 | the element loop reads back every tagged element, in order |
| RoundTrip.ListRoundTrip | src/pymodaq_data/serialize/serializer.py:557-571 | `list_deserialization` reads back the list that `list_serialize` (corrected tags) wrote |
| RoundTrip.ReadExtrasStep | src/pymodaq_data/serialize/serializer.py:634-636 | one more extra attribute appends the value read for its name |
| RoundTrip.ExtrasRoundTrip | src/pymodaq_data/serialize/serializer.py:634-636 | the extra attributes read back with their values, in order |
| RoundTrip.ErrorsRoundTrip | src/pymodaq_data/serialize/serializer.py:631-633 | the error arrays read back as written; an empty list stands for none attached |
| RoundTrip.DwaLayout | src/pymodaq_data/serialize/serializer.py:612-636 | the DataWithAxes encoding is its fields' encodings back to back, in the order the decoder reads them |
| RoundTrip.DwaReads | src/pymodaq_data/serialize/serializer.py:603-639 | given each field's round trip at its position, `dwa_deserialization` rebuilds the object |
| RoundTrip.DwaRoundTrip | src/pymodaq_data/serialize/serializer.py:603-639 | a well-formed DataWithAxes reads back whole, leaving what follows |
| RoundTrip.DwaEmptyErrorsRoundTrip | src/pymodaq_data/serialize/serializer.py:631-633 | a DataWithAxes written with an empty list of error arrays reads back with no error arrays and every other field as written |
| RoundTrip.DteRoundTrip | src/pymodaq_data/serialize/serializer.py:641-658 | a well-formed DataToExport reads back whole, leaving what follows |
| Findings.IntIsNoTypeName | src/pymodaq_data/serialize/serializer.py:199 | the class name `int` written by `list_serialize` is not a `SerializableTypes` name |
| Findings.ListAsWrittenLayout | src/pymodaq_data/serialize/serializer.py:196-200 | `list_serialize([23])` as written gives a count of one, the string `int`, then the scalar |
| Findings.ListAsWrittenReadsNone | src/pymodaq_data/serialize/serializer.py:196-200 | `list_deserialization` of that output returns `[None]` and leaves the scalar's bytes unread |
| Findings.TypeAndObjectReadsNone | src/pymodaq_data/serialize/serializer.py:326-337 | `type_and_object_deserialization` of `type_and_object_serialization(23)` returns None and leaves the scalar's bytes unread |
| Findings.ListCorrectedReadsBack | src/pymodaq_data/serialize/serializer.py:557-571 | with type-name tags, `[23]` reads back as `[23]` and consumes everything |
| Vectors.Imported | src/pymodaq_data/serialize/serializer.py:205-211 | after import, bytes, int and bool are registered and every entry is standard |
| Vectors.BytesVector | tests/serialize/serializer_test.py:6-10 | `b'kjlksjdf'` serializes to `\x00\x00\x00\x08` followed by itself |
| Vectors.IntWire | tests/serialize/serializer_test.py:19-21 | `23` (dtype `<i4`) serializes to the bytes the test asserts |
| Vectors.IntVector | tests/serialize/serializer_test.py:19-23 | the factory's encoder for int gives the same bytes |
| Vectors.BoolVector | tests/serialize/serializer_test.py:35-38 | `True` goes through bool's own entry and serializes to `\x00\x00\x00\x03\|b1\x00\x00\x00\x01\x01` |
| Vectors.I4IsInt | src/pymodaq_data/serialize/serializer.py:479-484 | dtype `<i4` is cast back to int |
| Vectors.IntVectorReadsBack | tests/serialize/serializer_test.py:19-21 | `scalar_deserialization` of the asserted bytes gives the int 23 back |

## Left out

- Serializer.IntToBytes: the TypeError for a non-`int` argument is not modelled, because the Dafny argument is an integer by type.
- String encoding: `string_serialize` applies `str()` to an object that is neither text nor bytes. The model has no `str()` of arbitrary objects and gives TypeError for such an object instead. Text is stored as UTF-8 and kept as its UTF-8 bytes; encoding and decoding of characters are not modelled. So `string_deserialization`'s UnicodeDecodeError for bytes that are not valid UTF-8 is not modelled either: such a tag reads as a tag naming no type (`RoundTrip.UnknownTagReadsNone`), and such a string reads as its bytes.
- Numeric values: numpy's `np.array([x])`, `frombuffer`, `reshape` and the float and complex values behind a buffer are not interpreted. A number is its dtype descriptor and raw bytes.
- Decoding.ReadBool: the model calls a buffer truthy when any of its bytes is non-zero. `bool()` of a decoded float treats -0.0 as false, and the source looks only at the first item of a buffer of several items (an `<i4` buffer `00 00 00 00 01 00 00 00` is False there). The model reads both as True.
- Decoding.ReadScalar: accepts buffers that numpy's `frombuffer(...)[0]` rejects. An empty buffer raises IndexError in the source, a buffer that is not a whole number of items raises ValueError, and a dtype string numpy does not know raises TypeError; the model reads all of them. For a buffer of several items the source keeps only the first, while the model keeps every byte. The item size a dtype string implies is not modelled.
- Decoding.ReadArray: accepts buffers that numpy rejects. `frombuffer` raises ValueError for a buffer that is not a whole number of items and TypeError for an unknown dtype string, and `reshape` raises when the size does not match the shape. The model keeps the bytes as read.
- Decoding.ReadParameter: the XML text of a parameter is kept as bytes. Parsing it into a `Parameter` tree (`ioxml`) is not part of this model.
- Axis, DataWithAxes and DataToExport: their encoders are defined in the data module, which is not part of this model. `Serializer.AxisWire`, `Serializer.DwaWire` and `Serializer.DteWire` write the fields in the order the decoders read them.
- Serializer.dte_serialization (lines 339-368) calls methods the class does not define, so it is not modelled.
- `Serializer.to_bytes`, `to_b64_string` and `DeSerializer.from_b64_string` are not modelled. They are dispatch and base64 wrappers around the modelled readers and writers.
- The network `Socket` subclass of mysocket.py (lines 62-73) is I/O and is not modelled. Its decoders are modelled over `SocketString` only.
- Serializer.ListSerialize: the stray `self` parameter and the `self._bytes_string += …` side effect of `list_serialize` are not modelled. The function is not called and not registered anywhere in the serializer module (line 168 defines it), so that side effect has no reader.
- Decoding.ReadTagged: the message `type_and_object_deserialization` prints for an unknown tag is I/O and is not modelled; only the None it returns is.
- Exceptions: no object state after an exception is modelled. A method returns the error, and the cursor keeps whatever was consumed.
- Decoding.ReadExtras: a name that clashes with an existing attribute of the DataWithAxes is not modelled. The values are kept in a sequence beside their names.
- Decoding.ReadDwaHeader: the flavours are a set `dn` of class names passed in, because `DwaType.names()` belongs to the data module.
- The registry is a class attribute shared by every `SerializableFactory`. The model keeps it as the state of one factory object.
- RoundTrip.TaggedRoundTrip: stated for objects satisfying `WellFormed`. Those are the objects the decoder can rebuild exactly. Outside that set, `RoundTrip.ScalarRoundTrip` states what comes back for a number whose dtype letters pick another class, `RoundTrip.ArrayRoundTrip` for a rank-0 array, and `RoundTrip.DwaEmptyErrorsRoundTrip` for a DataWithAxes with an empty list of error arrays.

## Findings

| source | as written | input that shows it | evidently intended | confidence | as-written member | corrected member |
|---|---|---|---|---|---|---|
| src/pymodaq_data/serialize/serializer.py:196-200 | `list_serialize` tags each element with `obj.__class__.__name__` (`int`, `float`, `ndarray`, …) | the list `[23]`: the element is tagged `int`, so `list_deserialization` returns `[None]` and leaves the scalar's 15 bytes unread | tag each element with its `SerializableTypes` name (`scalar`, `array`, …), which `type_and_object_deserialization` dispatches on; or, the other way round, have the decoder resolve class names to readers (the model takes the encoder-side fix) | not executed | Findings.ListAsWrittenReadsNone | RoundTrip.ListRoundTrip |
| src/pymodaq_data/serialize/serializer.py:326-337 | `type_and_object_serialization` writes the class name of the object as its tag | the object `23`: its tag is `int`, so the generic decoder returns None and the payload stays in the stream | write the `SerializableTypes` name of the object's type; or have the decoder resolve class names to readers (the model takes the encoder-side fix) | not executed | Findings.TypeAndObjectReadsNone | RoundTrip.TaggedRoundTrip |
