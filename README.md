# hsp project-file codec, modelled in Dafny

A model of the version-7 `.hsp` project file codec. The file holds a 360°/VR video player's per-video metadata and its thirteen time-varying keyframe tracks. The model covers three parts:

- **The writer** (`src/json2hsp.js`). SmartBuffer's write helpers, the thirteen keyframe writers and `writeData`. `writeData` serialises a JSON project object and then back-patches the content-length word at offset 0. Also `writeHeader` and the version gate of `json2hsp`.
- **The reader** (`src/hsp2json.js`). SmartBuffer's read helpers, `readArray`, the record lambdas of `parse`, the version gate of `parse`, and the 48-byte header skip of `hsp2json`.
- **The enum tables** (`src/enums.js`). The seven byte-to-name tables, and the loop that adds the reverse (name-to-code) entries to the same objects.

The model is organised in three layers.

1. **Layout functions.** `Bytes`, `Primitives`, `Fields`, `Schema` and `Container` define each encoding as a pure function on byte sequences. A decoder returns the value and the bytes that follow, or `None` when the buffer ends first; in the source that is SmartBuffer's RangeError.
   - Every record is a list of typed fields: `*Fields` is what the writer emits, `*Kinds` is what the reader's object literal reads, and `*Of` rebuilds the JSON object.
2. **Imperative classes.** `Writer.Writer` is SmartBuffer's write side: a byte sequence with a write cursor. `Reader.Reader` is its read side: a fixed buffer with a read offset.
   - Each method has the source's steps and loops, and is proved against the layout function for the same bytes.
   - `Writer.WriteData` is proved equal to `Schema.EncData`, including the back-patch.
   - `Reader.Parse` is proved equal to `Schema.Decode`.
3. **Round trips.** `RoundTrip` and `Container.FileRoundTrip` prove the whole-file results:
   - `parse` inverts `writeData` for every keyframe type, for tags and for the whole document. This holds in the model, where tick counts are exact integers. In the program the writer computes tick counts in doubles, so a DateTime field can come back 1 ms early (see "## Left out").
   - `hsp2json` inverts `json2hsp` when the decompressor inverts the compressor.

Values are modelled as follows:

- **Numbers.** Integers are exact. The 8-, 32- and 64-bit fields are subset types. Signed words are stored as their two's-complement bytes.
- **Floats.** A float is its 32-bit pattern, copied unchanged.
- **Times.** Times are whole milliseconds, and the writer's tick count (milliseconds times 10000) is computed exactly. The program computes it in doubles; "## Left out" says what that loses. `readTime` divides the tick count by 10000 with truncation toward zero, as BigInt division does.
- **Text.** Text is a sequence of UTF-16 code units, as JavaScript strings are. The writer emits the UTF-8 bytes of the text, but its length word counts code units.
  - The reader's UTF-8 branch is modelled as one unit per byte, which is exact for ASCII. Its UTF-16 branch reads one unit per byte pair.
  - The text round trip is therefore stated for ASCII text. Any other text is written with more bytes than its length word counts (`Primitives.Utf8Longer`), so the reader stops inside its body and the text does not round-trip (`Primitives.NonAsciiStrFails`).
- **Enum fields.** An enum field is an optional name.
  - The writer stores the name's code, or 0 for a missing or unknown name (`writeUInt8` of `undefined`).
  - The reader yields no name for a byte outside the table.

A tag's `track` is written with `writeInt32LE` (src/json2hsp.js:94) and read with `readUInt32LE` (src/hsp2json.js:120). The model keeps both.

- `RoundTrip.TagsRoundTrip` states what comes back: every tag, with its track replaced by the unsigned reading of its bytes.
- `RoundTrip.NegativeTrackChanges` states that a negative track comes back 2^32 larger.
- The exact document round trip, `RoundTrip.DecodeRoundTrip`, therefore requires tracks in 0..2^31-1.

Three behaviours of the code worth knowing:

- **Unmapped enum bytes.** `enums.X[sb.readUInt8()]` yields `undefined` for a byte outside the table (src/hsp2json.js:127), and parsing goes on. `Enums.Name` returns `None` for such a byte.
- **The header is not read.** `hsp2json` slices the 48 header bytes off without reading them (src/hsp2json.js:248). A file shorter than 48 bytes gives an empty payload (`Container.Compressed`).
- **Short text bodies.** SmartBuffer's `readString` reads at most the bytes that remain. A text body cut short by the end of the buffer is returned as far as it goes, less its last unit, and the whole rest of the buffer is consumed (`Primitives.DecShortLatinStr`, `Primitives.DecShortUtf16Str`, `Reader.Reader.ReadString`).

## Model

| member | source | states |
|---|---|---|
| Bytes.LE | src/json2hsp.js:217 | the little-endian bytes of a number are exactly as many as the word's width |
| Bytes.FromLE | src/hsp2json.js:87 | reading little-endian bytes gives a number below 256 to the power of their count |
| Bytes.EncU8 | src/json2hsp.js:99 | writeUInt8 writes one byte |
| Bytes.EncU32 | src/json2hsp.js:217 | writeUInt32LE writes four bytes |
| Bytes.EncI32 | src/json2hsp.js:9 | writeInt32LE writes four bytes |
| Bytes.EncI64 | src/json2hsp.js:25 | writeBigInt64LE writes eight bytes |
| Bytes.DecU8 | src/hsp2json.js:127 | readUInt8 succeeds exactly when a byte remains, and consumes one byte |
| Bytes.DecU32 | src/hsp2json.js:87-88 | readUInt32LE succeeds exactly when four bytes remain; its value is the little-endian reading of those four bytes, which re-encode to themselves, and it consumes four bytes |
| Bytes.DecI32 | src/hsp2json.js:9 | readInt32LE succeeds exactly when four bytes remain; its value re-encodes to those four bytes |
| Bytes.DecI64 | src/hsp2json.js:23 | readBigInt64LE succeeds exactly when eight bytes remain; its value re-encodes to those eight bytes |
| Bytes.FromLEOfLE | src/json2hsp.js:217-218 | reading back the little-endian bytes of a number that fits the width gives the number |
| Bytes.LEOfFromLE | src/hsp2json.js:87-88 | re-encoding the reading of any byte string gives the same bytes |
| Bytes.U8RoundTrip | src/hsp2json.js:127 | readUInt8 reads back what writeUInt8 wrote, leaving what follows |
| Bytes.U32RoundTrip | src/hsp2json.js:33 | readUInt32LE reads back what writeUInt32LE wrote, leaving what follows |
| Bytes.I32RoundTrip | src/hsp2json.js:9 | readInt32LE reads back what writeInt32LE wrote, negative values included |
| Bytes.I64RoundTrip | src/hsp2json.js:23 | readBigInt64LE reads back what writeBigInt64LE wrote, negative values included |
| Bytes.I32ReadAsU32 | src/hsp2json.js:120 | a word written by writeInt32LE and read by readUInt32LE comes back unchanged when non-negative and 2^32 larger when negative |
| Bytes.ZeroBytes | src/json2hsp.js:13 | the word 0 is four zero bytes |
| Primitives.Utf8Unit | src/json2hsp.js:10 | Buffer.write's UTF-8 of one code unit is 1 to 3 bytes, and exactly one byte for ASCII |
| Primitives.Utf8OfAscii | src/json2hsp.js:10 | the UTF-8 of ASCII text, read one unit per byte, is the text |
| Primitives.Utf8Longer | src/json2hsp.js:9-10 | text with a non-ASCII unit has more UTF-8 bytes than units, so the length word (units + 1) does not cover its body |
| Primitives.Utf8AtLeast | src/json2hsp.js:9-10 | UTF-8 never has fewer bytes than the text has units |
| Primitives.Utf8 | src/json2hsp.js:10 | writeString's default utf8 encoding, one code unit after another; Utf8OfAscii, Utf8AtLeast and Utf8Longer state its length and its reading |
| Primitives.EncFString | src/json2hsp.js:6-18 | writeFString's bytes; FStringLayout states the layout and StrRoundTrip the inverse |
| Primitives.FStringLayout | src/json2hsp.js:6-18 | writeFString of non-empty ASCII text of n units is Int32(n + 1), the n bytes of the text and one zero byte (n + 5 bytes); of "" it is four zero bytes |
| Primitives.Latin | src/hsp2json.js:14-16 | a body read one unit per byte yields exactly as many units as it has bytes |
| Primitives.Utf16 | src/hsp2json.js:14-16 | a UTF-16LE body of b bytes yields b/2 units, unit i being bytes 2i and 2i+1 little-endian |
| Primitives.DropLast | src/hsp2json.js:17 | slice(0, -1) drops exactly the last unit, and leaves "" as "" |
| Primitives.DecStr | src/hsp2json.js:8-19 | readStr succeeds exactly when the length word is there; what it returns is stated by DecLatinStr, DecUtf16Str and the two short-body lemmas |
| Primitives.DecShortLatinStr | src/hsp2json.js:14-17 | a length L >= 0 with fewer than L bytes after it: readString reads the bytes that remain, readStr returns them less the last unit and consumes the rest of the buffer |
| Primitives.DecShortUtf16Str | src/hsp2json.js:10-17 | a length L < 0 with fewer than 2\|L\| bytes after it: the remaining bytes are read as UTF-16LE pairs, less the last unit, and the rest of the buffer is consumed |
| Primitives.DecLatinStr | src/hsp2json.js:9-17 | with a length L >= 0, readStr consumes 4 + L bytes and returns the first L - 1 of them as units; L = 0 returns "" |
| Primitives.DecUtf16Str | src/hsp2json.js:10-17 | with a length L < 0, readStr consumes 4 + 2\|L\| bytes as UTF-16LE and returns \|L\| - 1 units, the last dropped |
| Primitives.NonAsciiStrFails | src/hsp2json.js:8-19 | for every text with a non-ASCII unit, readStr of writeFString's bytes stops inside the body: it succeeds, but leaves more than what followed, so the text does not come back |
| Primitives.StrRoundTrip | src/hsp2json.js:8-19 | readStr inverts writeFString for every ASCII text that fits, "" included, leaving what follows |
| Primitives.TicksToMs | src/hsp2json.js:23 | BigInt division by 10000 truncates toward zero: the quotient times 10000 lies between 0 and the tick count and less than 10000 from it, for negative counts as well as positive |
| Primitives.EncTimespan | src/json2hsp.js:31-39 | writeTimespan writes 8 bytes |
| Primitives.EncDateTime | src/json2hsp.js:20-29 | writeDateTime writes 8 bytes |
| Primitives.DecTime | src/hsp2json.js:21-25 | readTime succeeds exactly when eight bytes remain |
| Primitives.DecDate | src/hsp2json.js:27-30 | readDate succeeds exactly when eight bytes remain |
| Primitives.TimeRoundTrip | src/hsp2json.js:21-25 | with exact tick counts, readTime inverts writeTimespan (ms times 10000, then divided by 10000) for every millisecond count the 64-bit word holds; the program's double arithmetic is exact only up to 2^53 ticks (about 9.0e11 ms) |
| Primitives.DateRoundTrip | src/hsp2json.js:27-30 | with exact tick counts, readDate removes the 62135596800000 ms offset writeDateTime adds, so it inverts writeDateTime; in the program a date after about year 29 can come back 1 ms early |
| Primitives.EncBool | src/json2hsp.js:41-47 | writeBool always writes 4 bytes |
| Primitives.DecBool | src/hsp2json.js:111 | a boolean read succeeds exactly when four bytes remain |
| Primitives.BoolReadsNonzero | src/hsp2json.js:111 | a boolean reads as true exactly when its word is not four zero bytes, so any nonzero word is true |
| Primitives.ZeroWord | src/json2hsp.js:43 | a word is four zero bytes exactly when it is 0, so false is 0 and true is not |
| Primitives.BoolRoundTrip | src/hsp2json.js:129-133 | readUInt32LE() > 0 inverts writeBool |
| Primitives.EnumCode | src/json2hsp.js:99 | the byte writeUInt8(enums.X[name]) stores; EnumCodeMeaning states it is the name's code, or 0 for a missing or unlisted name |
| Primitives.EnumCodeMeaning | src/json2hsp.js:99 | the byte written for an enum field is the code of its name when the table lists the name, and 0 otherwise |
| Primitives.EncEnum | src/json2hsp.js:99 | an enum field is one byte |
| Primitives.DecEnum | src/hsp2json.js:127 | an enum read succeeds exactly when a byte remains |
| Primitives.EnumRoundTrip | src/hsp2json.js:127 | a listed name written by code and read through the table comes back |
| Primitives.EncFloat | src/json2hsp.js:50 | writeFloatLE writes 4 bytes |
| Primitives.DecFloat | src/hsp2json.js:43 | readFloatLE succeeds exactly when four bytes remain |
| Primitives.FloatRoundTrip | src/hsp2json.js:43 | readFloatLE reads back the bit pattern writeFloatLE wrote |
| Primitives.EncVector2D | src/json2hsp.js:49-52 | writeVector2D writes 8 bytes |
| Primitives.EncVector | src/json2hsp.js:54-58 | writeVector writes 12 bytes |
| Primitives.EncVector4 | src/json2hsp.js:60-65 | writeVector4 writes 16 bytes |
| Primitives.EncRotator | src/json2hsp.js:67-71 | writeRotator writes 12 bytes |
| Primitives.EncLinearColor | src/json2hsp.js:73-78 | writeLinearColor writes 16 bytes |
| Primitives.DecVector2D | src/hsp2json.js:41-46 | readFVector2D succeeds exactly when 8 bytes remain |
| Primitives.DecVector | src/hsp2json.js:47-53 | readFVector succeeds exactly when 12 bytes remain |
| Primitives.DecVector4 | src/hsp2json.js:54-61 | readFVector4 succeeds exactly when 16 bytes remain |
| Primitives.DecRotator | src/hsp2json.js:62-68 | readFRotator succeeds exactly when 12 bytes remain |
| Primitives.DecLinearColor | src/hsp2json.js:69-76 | readFLinearColor succeeds exactly when 16 bytes remain |
| Primitives.Vector2DRoundTrip | src/hsp2json.js:41-46 | readFVector2D inverts writeVector2D: x, then y |
| Primitives.VectorRoundTrip | src/hsp2json.js:47-53 | readFVector inverts writeVector: x, y, then z |
| Primitives.Vector4RoundTrip | src/hsp2json.js:54-61 | readFVector4 inverts writeVector4: x, y, z, then w |
| Primitives.RotatorRoundTrip | src/hsp2json.js:62-68 | readFRotator inverts writeRotator: pitch, yaw, then roll |
| Primitives.LinearColorRoundTrip | src/hsp2json.js:69-76 | readFLinearColor inverts writeLinearColor: red, green, blue, then alpha |
| Enums.Name | src/enums.js:2-42 | a table lookup yields a name exactly for the codes 0..n-1, and that name is the table's entry; any other byte yields none (undefined) |
| Enums.Code | src/enums.js:47-51 | the reverse lookup finds a code exactly for the names in the table, the code names that name, and no later code has the same name |
| Enums.CodeOfName | src/enums.js:47-51 | in a table of distinct names, code(name(c)) = c for every code c |
| Enums.NameOfCode | src/enums.js:47-51 | name(code(n)) = n for every name n of the table |
| Enums.Digit | src/enums.js:3 | a digit is one of '0'..'9' |
| Enums.Numeral | src/enums.js:3 | the property key of a code is a decimal numeral, a single digit exactly below 10 |
| Enums.NumeralInjective | src/enums.js:2-42 | distinct codes have distinct property keys |
| Enums.Forward | src/enums.js:1-43 | the literal table as an object has the key of code c exactly for c in 0..n-1, mapped to the c-th name |
| Enums.ReverseIsCode | src/enums.js:47-51 | the reverse entries hold exactly the table's names, each mapped to the key of its code |
| Enums.AddReverseEntries | src/enums.js:47-51 | the forEach loop, run over one table, leaves the object holding the forward entries with the reverse entries assigned over them (proved by a loop invariant) |
| Enums.ReverseStep | src/enums.js:49 | one pass of the loop assigns one reverse entry over the object |
| Enums.Combined | src/enums.js:45-51 | each enumeration object after the forEach: the forward entries with the reverse entries assigned over them (AddReverseEntries computes it by the loop, CombinedObject states both lookups on it) |
| Enums.CombinedObject | src/enums.js:45-51 | when no name is a numeral, the reverse entries overwrite no forward entry: every code still finds its name, an out-of-range code finds nothing, and every name finds its code |
| Enums.CapitalisedNames | src/enums.js:2-42 | names that begin with a capital letter are not numerals |
| Enums.TablesWellFormed | src/enums.js:2-42 | all seven tables have pairwise distinct names, none a numeral, so the reverse map is well defined and overwrites nothing |
| Enums.ProjectionModeWellFormed | src/enums.js:2-9 | ProjectionMode's names are distinct and none is a numeral |
| Enums.StereoModeWellFormed | src/enums.js:10-14 | StereoMode's names are distinct and none is a numeral |
| Enums.KeyFrameTransitionTypeWellFormed | src/enums.js:15-19 | KeyFrameTransitionType's names are distinct and none is a numeral |
| Enums.AspectRatioTypeWellFormed | src/enums.js:20-26 | AspectRatioType's names are distinct and none is a numeral |
| Enums.OrientationTypeWellFormed | src/enums.js:27-32 | OrientationType's names are distinct and none is a numeral |
| Enums.BackgroundTypeWellFormed | src/enums.js:33-37 | BackgroundType's names are distinct and none is a numeral |
| Enums.MaskTypeWellFormed | src/enums.js:38-42 | MaskType's names are distinct and none is a numeral |
| Enums.TableSizes | src/enums.js:2-42 | the tables have 6, 3, 3, 5, 4, 3 and 3 entries, so their codes are 0..n-1 |
| Enums.FixedCodes | src/enums.js:2-31 | "Fisheye" has code 2, "TopBottom" code 2 and "Down" code 3 |
| Fields.EncField | src/json2hsp.js:6-78 | the bytes the write helper for a field's type appends (writeFString, writeDateTime, writeTimespan, writeUInt32LE, writeInt32LE, writeBool, writeFloatLE, the vector writers, writeUInt8 of the enum code); FieldRoundTrip states its inverse |
| Fields.DecField | src/hsp2json.js:8-76 | the read helper for a kind (readStr, readDate, readTime, readUInt32LE, readInt32LE, readUInt32LE() > 0, readFloatLE, the vector readers, the enum table lookup of readUInt8); DecFieldKind and FieldRoundTrip state it |
| Fields.EncFields | src/json2hsp.js:89-95 | a record's write helper calls one after another, each appending its field's bytes (EncFieldsSnoc, EncFieldsCons); FieldsRoundTrip states its inverse |
| Fields.DecFieldKind | src/hsp2json.js:97-113 | one read succeeds exactly when the buffer holds the read's width, and yields a field of the type read |
| Fields.FieldRoundTrip | src/hsp2json.js:97-113 | each read helper inverts the matching write helper on every value the reader gives back unchanged |
| Fields.TextFieldRoundTrip | src/hsp2json.js:97 | readStr inverts writeFString on ASCII text |
| Fields.DateTimeFieldRoundTrip | src/hsp2json.js:100 | readDate inverts writeDateTime |
| Fields.TimespanFieldRoundTrip | src/hsp2json.js:104 | readTime inverts writeTimespan |
| Fields.UInt32FieldRoundTrip | src/hsp2json.js:108 | readUInt32LE inverts writeUInt32LE |
| Fields.Int32FieldRoundTrip | src/hsp2json.js:9 | readInt32LE inverts writeInt32LE |
| Fields.BoolFieldRoundTrip | src/hsp2json.js:111 | readUInt32LE() > 0 inverts writeBool |
| Fields.FloatFieldRoundTrip | src/hsp2json.js:112 | readFloatLE inverts writeFloatLE |
| Fields.Vector2DFieldRoundTrip | src/hsp2json.js:136 | readFVector2D inverts writeVector2D |
| Fields.VectorFieldRoundTrip | src/hsp2json.js:162 | readFVector inverts writeVector |
| Fields.Vector4FieldRoundTrip | src/hsp2json.js:153 | readFVector4 inverts writeVector4 |
| Fields.RotatorFieldRoundTrip | src/hsp2json.js:163 | readFRotator inverts writeRotator |
| Fields.LinearColorFieldRoundTrip | src/hsp2json.js:145 | readFLinearColor inverts writeLinearColor |
| Fields.EnumFieldRoundTrip | src/hsp2json.js:127 | a listed enum name comes back through writeUInt8 and the table lookup |
| Fields.DecFields | src/hsp2json.js:115-121 | an object literal's reads, when they succeed, yield one field of each type read, in order |
| Fields.FieldsRoundTrip | src/hsp2json.js:97-113 | reading a record's types back from its written fields gives the same fields and leaves what follows (by induction over the record) |
| Fields.WritableSnoc | src/json2hsp.js:89-95 | appending a field the writer accepts keeps the record one it accepts |
| Fields.CanonicalSnoc | src/hsp2json.js:115-121 | appending a field the reader returns unchanged keeps the record one it returns unchanged |
| Fields.EncFieldsSnoc | src/json2hsp.js:89-95 | writing one more field appends exactly that field's bytes to the record's |
| Fields.EncFieldsOne | src/json2hsp.js:90 | a one-field record is that field's bytes |
| Fields.EncFieldsCons | src/json2hsp.js:89-95 | a record's bytes are its first field's bytes followed by the rest's |
| Fields.EncElems | src/json2hsp.js:82-84 | writeArray's loop: every record's bytes, in array order (RecordsAt, ElemStep) |
| Fields.EncArray | src/json2hsp.js:80-85 | writeArray: the count word, then the records; ArrayRoundTrip and EmptyArray state its inverse |
| Fields.DecObjects | src/hsp2json.js:32-39 | readArray with a callback: the records read, each turned into an object by the callback; ObjectArrayRoundTrip proves it inverts writeArray |
| Fields.DecElems | src/hsp2json.js:35-37 | readArray's loop, after n successful rounds, has pushed exactly n records, each of the record's types |
| Fields.DecArray | src/hsp2json.js:32-39 | readArray's records, when it succeeds, all have the record's types |
| Fields.ElemsRoundTrip | src/hsp2json.js:35-37 | n rounds of the loop read back n written records in order (by induction) |
| Fields.SplitLast | src/hsp2json.js:36 | an array is its first n-1 records with the last pushed after them |
| Fields.ArrayRoundTrip | src/hsp2json.js:32-39 | readArray inverts writeArray: the count, then every record, in order |
| Fields.EncElemsAgree | src/json2hsp.js:82-84 | arrays whose records encode alike encode alike |
| Fields.EmptyArray | src/json2hsp.js:80-85 | writeArray of an empty array is exactly four zero bytes, and readArray reads them back as an empty array |
| Fields.CanonicalRecordsWritable | src/json2hsp.js:80-85 | records the reader returns unchanged are records the writer accepts |
| Fields.RecordsAt | src/json2hsp.js:82-84 | the i-th record writeArray writes is the field list of the i-th element |
| Fields.ObjectArrayWritable | src/json2hsp.js:80-85 | writeArray accepts an array of fewer than 2^32 objects that each write without a RangeError |
| Fields.ObjectsAt | src/hsp2json.js:35-37 | the i-th object readArray pushes is the callback's object for the i-th record |
| Fields.ObjectsOfRecords | src/hsp2json.js:32-39 | when the callback rebuilds each object from its fields, the objects built from the written records are the array written |
| Fields.ObjectArrayRoundTrip | src/hsp2json.js:32-39 | readArray with a callback that inverts the element writer inverts writeArray over objects |
| Schema.TagFields | src/json2hsp.js:89-95 | writeHSTag's first four fields have the types the tag lambda reads (the kinds TagKinds lists), but the track is written as Int32 where UInt32 is read |
| Schema.TagFieldsWritable | src/json2hsp.js:89-95 | writeHSTag accepts a tag whose name fits and whose track fits an Int32 |
| Schema.TagOf | src/hsp2json.js:115-121 | the tag lambda's track is always in 0..2^32-1 |
| Schema.TagArrayWritable | src/json2hsp.js:236 | writeArray over the tags accepts fewer than 2^32 tags that each write |
| Schema.FormatFieldsShaped | src/hsp2json.js:125-139 | every field writeFormatKeyFrame emits has the type of the read at the same position of parse's format lambda |
| Schema.FormatFieldsInverse | src/hsp2json.js:125-139 | the format lambda's object literal, given the fields written for a FormatKeyFrame, rebuilds that keyframe property for property |
| Schema.FormatFieldsWritable | src/json2hsp.js:97-111 | writeFormatKeyFrame accepts every FormatKeyFrame: every field is within its write helper's range |
| Schema.FormatArrayWritable | src/json2hsp.js:80-85 | writeArray accepts a formatKFs array shorter than 2^32 elements |
| Writer.FormatBytes | src/json2hsp.js:97-111 | writeFormatKeyFrame's writes, one after the other, append exactly the encoding of the keyframe's field list |
| RoundTrip.FormatFieldsCanonical | src/hsp2json.js:125-139 | a FormatKeyFrame whose four enum names are listed in their tables has only fields the reader gives back unchanged |
| RoundTrip.FormatRoundTrip | src/hsp2json.js:125-139 | for a FormatKeyFrame whose four enum names are listed in their tables, the format lambda reads writeFormatKeyFrame's bytes back as the same fields, leaves whatever follows, and rebuilds the keyframe |
| RoundTrip.FormatArrayRoundTrip | src/hsp2json.js:125-139 | readArray with the format callback reads writeArray's bytes of a formatKFs array back as the same keyframes, in order |
| RoundTrip.FormatTrackRoundTrip | src/json2hsp.js:239 | the formatKFs track of a document that reads back is read back by parse's readArray call |
| Writer.Writer.WriteFormatKeyFrame | src/json2hsp.js:97-111 | from the end of the buffer, the writes append exactly the bytes of the keyframe's field list, in writeFormatKeyFrame's order |
| Writer.Writer.WriteFormatKeyFrames | src/json2hsp.js:239 | writeArray over the formatKFs track: from the end of the buffer, appends the count word and then each keyframe's bytes, in array order (proved by a loop invariant) |
| Schema.LensFieldsShaped | src/hsp2json.js:141-149 | every field writeLensKeyFrame emits has the type of the read at the same position of parse's lens lambda |
| Schema.LensFieldsInverse | src/hsp2json.js:141-149 | the lens lambda's object literal, given the fields written for a LensKeyFrame, rebuilds that keyframe property for property |
| Schema.LensFieldsWritable | src/json2hsp.js:113-121 | writeLensKeyFrame accepts every LensKeyFrame whose two lens names fit the Int32 length word: every field is within its write helper's range |
| Schema.LensArrayWritable | src/json2hsp.js:80-85 | writeArray accepts a lensKFs array shorter than 2^32 elements of keyframes whose two lens names fit the Int32 length word |
| Writer.LensBytes | src/json2hsp.js:113-121 | writeLensKeyFrame's writes, one after the other, append exactly the encoding of the keyframe's field list |
| RoundTrip.LensFieldsCanonical | src/hsp2json.js:141-149 | a LensKeyFrame whose two lens names are ASCII has only fields the reader gives back unchanged |
| RoundTrip.LensRoundTrip | src/hsp2json.js:141-149 | for a LensKeyFrame whose two lens names are ASCII, the lens lambda reads writeLensKeyFrame's bytes back as the same fields, leaves whatever follows, and rebuilds the keyframe |
| RoundTrip.LensArrayRoundTrip | src/hsp2json.js:141-149 | readArray with the lens callback reads writeArray's bytes of a lensKFs array back as the same keyframes, in order |
| RoundTrip.LensTrackRoundTrip | src/json2hsp.js:240 | the lensKFs track of a document that reads back is read back by parse's readArray call |
| Writer.Writer.WriteLensKeyFrame | src/json2hsp.js:113-121 | from the end of the buffer, the writes append exactly the bytes of the keyframe's field list, in writeLensKeyFrame's order |
| Writer.Writer.WriteLensKeyFrames | src/json2hsp.js:240 | writeArray over the lensKFs track: from the end of the buffer, appends the count word and then each keyframe's bytes, in array order (proved by a loop invariant) |
| Schema.StitchFieldsShaped | src/hsp2json.js:151-158 | every field writeStitchKeyFrame emits has the type of the read at the same position of parse's stitch lambda |
| Schema.StitchFieldsInverse | src/hsp2json.js:151-158 | the stitch lambda's object literal, given the fields written for a StitchKeyFrame, rebuilds that keyframe property for property |
| Schema.StitchFieldsWritable | src/json2hsp.js:123-130 | writeStitchKeyFrame accepts every StitchKeyFrame: every field is within its write helper's range |
| Schema.StitchArrayWritable | src/json2hsp.js:80-85 | writeArray accepts a stitchKFs array shorter than 2^32 elements |
| Writer.StitchBytes | src/json2hsp.js:123-130 | writeStitchKeyFrame's writes, one after the other, append exactly the encoding of the keyframe's field list |
| RoundTrip.StitchFieldsCanonical | src/hsp2json.js:151-158 | every field of a StitchKeyFrame is one the reader gives back unchanged |
| RoundTrip.StitchRoundTrip | src/hsp2json.js:151-158 | for every StitchKeyFrame, the stitch lambda reads writeStitchKeyFrame's bytes back as the same fields, leaves whatever follows, and rebuilds the keyframe |
| RoundTrip.StitchArrayRoundTrip | src/hsp2json.js:151-158 | readArray with the stitch callback reads writeArray's bytes of a stitchKFs array back as the same keyframes, in order |
| RoundTrip.StitchTrackRoundTrip | src/json2hsp.js:241-243 | the stitchKFs track of a document that reads back is read back by parse's readArray call |
| Writer.Writer.WriteStitchKeyFrame | src/json2hsp.js:123-130 | from the end of the buffer, the writes append exactly the bytes of the keyframe's field list, in writeStitchKeyFrame's order |
| Writer.Writer.WriteStitchKeyFrames | src/json2hsp.js:241-243 | writeArray over the stitchKFs track: from the end of the buffer, appends the count word and then each keyframe's bytes, in array order (proved by a loop invariant) |
| Schema.AlignmentFieldsShaped | src/hsp2json.js:160-164 | every field writeAlignmentKeyFrame emits has the type of the read at the same position of parse's alignment lambda |
| Schema.AlignmentFieldsInverse | src/hsp2json.js:160-164 | the alignment lambda's object literal, given the fields written for a AlignmentKeyFrame, rebuilds that keyframe property for property |
| Schema.AlignmentFieldsWritable | src/json2hsp.js:132-136 | writeAlignmentKeyFrame accepts every AlignmentKeyFrame: every field is within its write helper's range |
| Schema.AlignmentArrayWritable | src/json2hsp.js:80-85 | writeArray accepts a alignmentKFs array shorter than 2^32 elements |
| Writer.AlignmentBytes | src/json2hsp.js:132-136 | writeAlignmentKeyFrame's writes, one after the other, append exactly the encoding of the keyframe's field list |
| RoundTrip.AlignmentFieldsCanonical | src/hsp2json.js:160-164 | every field of a AlignmentKeyFrame is one the reader gives back unchanged |
| RoundTrip.AlignmentRoundTrip | src/hsp2json.js:160-164 | for every AlignmentKeyFrame, the alignment lambda reads writeAlignmentKeyFrame's bytes back as the same fields, leaves whatever follows, and rebuilds the keyframe |
| RoundTrip.AlignmentArrayRoundTrip | src/hsp2json.js:160-164 | readArray with the alignment callback reads writeArray's bytes of a alignmentKFs array back as the same keyframes, in order |
| RoundTrip.AlignmentTrackRoundTrip | src/json2hsp.js:244 | the alignmentKFs track of a document that reads back is read back by parse's readArray call |
| Writer.Writer.WriteAlignmentKeyFrame | src/json2hsp.js:132-136 | from the end of the buffer, the writes append exactly the bytes of the keyframe's field list, in writeAlignmentKeyFrame's order |
| Writer.Writer.WriteAlignmentKeyFrames | src/json2hsp.js:244 | writeArray over the alignmentKFs track: from the end of the buffer, appends the count word and then each keyframe's bytes, in array order (proved by a loop invariant) |
| Schema.OrientationFieldsShaped | src/hsp2json.js:166-169 | every field writeOrientationKeyFrame emits has the type of the read at the same position of parse's orientation lambda |
| Schema.OrientationFieldsInverse | src/hsp2json.js:166-169 | the orientation lambda's object literal, given the fields written for a OrientationKeyFrame, rebuilds that keyframe property for property |
| Schema.OrientationFieldsWritable | src/json2hsp.js:138-141 | writeOrientationKeyFrame accepts every OrientationKeyFrame: every field is within its write helper's range |
| Schema.OrientationArrayWritable | src/json2hsp.js:80-85 | writeArray accepts a orientationKFs array shorter than 2^32 elements |
| Writer.OrientationBytes | src/json2hsp.js:138-141 | writeOrientationKeyFrame's writes, one after the other, append exactly the encoding of the keyframe's field list |
| RoundTrip.OrientationFieldsCanonical | src/hsp2json.js:166-169 | every field of a OrientationKeyFrame is one the reader gives back unchanged |
| RoundTrip.OrientationRoundTrip | src/hsp2json.js:166-169 | for every OrientationKeyFrame, the orientation lambda reads writeOrientationKeyFrame's bytes back as the same fields, leaves whatever follows, and rebuilds the keyframe |
| RoundTrip.OrientationArrayRoundTrip | src/hsp2json.js:166-169 | readArray with the orientation callback reads writeArray's bytes of a orientationKFs array back as the same keyframes, in order |
| RoundTrip.OrientationTrackRoundTrip | src/json2hsp.js:245 | the orientationKFs track of a document that reads back is read back by parse's readArray call |
| Writer.Writer.WriteOrientationKeyFrame | src/json2hsp.js:138-141 | from the end of the buffer, the writes append exactly the bytes of the keyframe's field list, in writeOrientationKeyFrame's order |
| Writer.Writer.WriteOrientationKeyFrames | src/json2hsp.js:245 | writeArray over the orientationKFs track: from the end of the buffer, appends the count word and then each keyframe's bytes, in array order (proved by a loop invariant) |
| Schema.OriginFieldsShaped | src/hsp2json.js:171-174 | every field writeOriginKeyFrame emits has the type of the read at the same position of parse's origin lambda |
| Schema.OriginFieldsInverse | src/hsp2json.js:171-174 | the origin lambda's object literal, given the fields written for a OriginKeyFrame, rebuilds that keyframe property for property |
| Schema.OriginFieldsWritable | src/json2hsp.js:143-146 | writeOriginKeyFrame accepts every OriginKeyFrame: every field is within its write helper's range |
| Schema.OriginArrayWritable | src/json2hsp.js:80-85 | writeArray accepts a originKFs array shorter than 2^32 elements |
| Writer.OriginBytes | src/json2hsp.js:143-146 | writeOriginKeyFrame's writes, one after the other, append exactly the encoding of the keyframe's field list |
| RoundTrip.OriginFieldsCanonical | src/hsp2json.js:171-174 | every field of a OriginKeyFrame is one the reader gives back unchanged |
| RoundTrip.OriginRoundTrip | src/hsp2json.js:171-174 | for every OriginKeyFrame, the origin lambda reads writeOriginKeyFrame's bytes back as the same fields, leaves whatever follows, and rebuilds the keyframe |
| RoundTrip.OriginArrayRoundTrip | src/hsp2json.js:171-174 | readArray with the origin callback reads writeArray's bytes of a originKFs array back as the same keyframes, in order |
| RoundTrip.OriginTrackRoundTrip | src/json2hsp.js:246 | the originKFs track of a document that reads back is read back by parse's readArray call |
| Writer.Writer.WriteOriginKeyFrame | src/json2hsp.js:143-146 | from the end of the buffer, the writes append exactly the bytes of the keyframe's field list, in writeOriginKeyFrame's order |
| Writer.Writer.WriteOriginKeyFrames | src/json2hsp.js:246 | writeArray over the originKFs track: from the end of the buffer, appends the count word and then each keyframe's bytes, in array order (proved by a loop invariant) |
| Schema.MotionFieldsShaped | src/hsp2json.js:176-179 | every field writeMotionKeyFrame emits has the type of the read at the same position of parse's motion lambda |
| Schema.MotionFieldsInverse | src/hsp2json.js:176-179 | the motion lambda's object literal, given the fields written for a MotionKeyFrame, rebuilds that keyframe property for property |
| Schema.MotionFieldsWritable | src/json2hsp.js:148-151 | writeMotionKeyFrame accepts every MotionKeyFrame: every field is within its write helper's range |
| Schema.MotionArrayWritable | src/json2hsp.js:80-85 | writeArray accepts a motionKFs array shorter than 2^32 elements |
| Writer.MotionBytes | src/json2hsp.js:148-151 | writeMotionKeyFrame's writes, one after the other, append exactly the encoding of the keyframe's field list |
| RoundTrip.MotionFieldsCanonical | src/hsp2json.js:176-179 | every field of a MotionKeyFrame is one the reader gives back unchanged |
| RoundTrip.MotionRoundTrip | src/hsp2json.js:176-179 | for every MotionKeyFrame, the motion lambda reads writeMotionKeyFrame's bytes back as the same fields, leaves whatever follows, and rebuilds the keyframe |
| RoundTrip.MotionArrayRoundTrip | src/hsp2json.js:176-179 | readArray with the motion callback reads writeArray's bytes of a motionKFs array back as the same keyframes, in order |
| RoundTrip.MotionTrackRoundTrip | src/json2hsp.js:247 | the motionKFs track of a document that reads back is read back by parse's readArray call |
| Writer.Writer.WriteMotionKeyFrame | src/json2hsp.js:148-151 | from the end of the buffer, the writes append exactly the bytes of the keyframe's field list, in writeMotionKeyFrame's order |
| Writer.Writer.WriteMotionKeyFrames | src/json2hsp.js:247 | writeArray over the motionKFs track: from the end of the buffer, appends the count word and then each keyframe's bytes, in array order (proved by a loop invariant) |
| Schema.AutoFocusFieldsShaped | src/hsp2json.js:181-188 | every field writeAutoFocusKeyFrame emits has the type of the read at the same position of parse's autoFocus lambda |
| Schema.AutoFocusFieldsInverse | src/hsp2json.js:181-188 | the autoFocus lambda's object literal, given the fields written for a AutoFocusKeyFrame, rebuilds that keyframe property for property |
| Schema.AutoFocusFieldsWritable | src/json2hsp.js:153-160 | writeAutoFocusKeyFrame accepts every AutoFocusKeyFrame: every field is within its write helper's range |
| Schema.AutoFocusArrayWritable | src/json2hsp.js:80-85 | writeArray accepts a autoFocusKFs array shorter than 2^32 elements |
| Writer.AutoFocusBytes | src/json2hsp.js:153-160 | writeAutoFocusKeyFrame's writes, one after the other, append exactly the encoding of the keyframe's field list |
| RoundTrip.AutoFocusFieldsCanonical | src/hsp2json.js:181-188 | every field of a AutoFocusKeyFrame is one the reader gives back unchanged |
| RoundTrip.AutoFocusRoundTrip | src/hsp2json.js:181-188 | for every AutoFocusKeyFrame, the autoFocus lambda reads writeAutoFocusKeyFrame's bytes back as the same fields, leaves whatever follows, and rebuilds the keyframe |
| RoundTrip.AutoFocusArrayRoundTrip | src/hsp2json.js:181-188 | readArray with the autoFocus callback reads writeArray's bytes of a autoFocusKFs array back as the same keyframes, in order |
| RoundTrip.AutoFocusTrackRoundTrip | src/json2hsp.js:248 | the autoFocusKFs track of a document that reads back is read back by parse's readArray call |
| Writer.Writer.WriteAutoFocusKeyFrame | src/json2hsp.js:153-160 | from the end of the buffer, the writes append exactly the bytes of the keyframe's field list, in writeAutoFocusKeyFrame's order |
| Writer.Writer.WriteAutoFocusKeyFrames | src/json2hsp.js:248 | writeArray over the autoFocusKFs track: from the end of the buffer, appends the count word and then each keyframe's bytes, in array order (proved by a loop invariant) |
| Schema.SyncFieldsShaped | src/hsp2json.js:190-194 | every field writeSyncKeyFrame emits has the type of the read at the same position of parse's sync lambda |
| Schema.SyncFieldsInverse | src/hsp2json.js:190-194 | the sync lambda's object literal, given the fields written for a SyncKeyFrame, rebuilds that keyframe property for property |
| Schema.SyncFieldsWritable | src/json2hsp.js:162-166 | writeSyncKeyFrame accepts every SyncKeyFrame: every field is within its write helper's range |
| Schema.SyncArrayWritable | src/json2hsp.js:80-85 | writeArray accepts a syncKFs array shorter than 2^32 elements |
| Writer.SyncBytes | src/json2hsp.js:162-166 | writeSyncKeyFrame's writes, one after the other, append exactly the encoding of the keyframe's field list |
| RoundTrip.SyncFieldsCanonical | src/hsp2json.js:190-194 | every field of a SyncKeyFrame is one the reader gives back unchanged |
| RoundTrip.SyncRoundTrip | src/hsp2json.js:190-194 | for every SyncKeyFrame, the sync lambda reads writeSyncKeyFrame's bytes back as the same fields, leaves whatever follows, and rebuilds the keyframe |
| RoundTrip.SyncArrayRoundTrip | src/hsp2json.js:190-194 | readArray with the sync callback reads writeArray's bytes of a syncKFs array back as the same keyframes, in order |
| RoundTrip.SyncTrackRoundTrip | src/json2hsp.js:249 | the syncKFs track of a document that reads back is read back by parse's readArray call |
| Writer.Writer.WriteSyncKeyFrame | src/json2hsp.js:162-166 | from the end of the buffer, the writes append exactly the bytes of the keyframe's field list, in writeSyncKeyFrame's order |
| Writer.Writer.WriteSyncKeyFrames | src/json2hsp.js:249 | writeArray over the syncKFs track: from the end of the buffer, appends the count word and then each keyframe's bytes, in array order (proved by a loop invariant) |
| Schema.TransitionFieldsShaped | src/hsp2json.js:196-200 | every field writeTransitionKeyFrame emits has the type of the read at the same position of parse's transition lambda |
| Schema.TransitionFieldsInverse | src/hsp2json.js:196-200 | the transition lambda's object literal, given the fields written for a TransitionKeyFrame, rebuilds that keyframe property for property |
| Schema.TransitionFieldsWritable | src/json2hsp.js:168-172 | writeTransitionKeyFrame accepts every TransitionKeyFrame: every field is within its write helper's range |
| Schema.TransitionArrayWritable | src/json2hsp.js:80-85 | writeArray accepts a transitionKFs array shorter than 2^32 elements |
| Writer.TransitionBytes | src/json2hsp.js:168-172 | writeTransitionKeyFrame's writes, one after the other, append exactly the encoding of the keyframe's field list |
| RoundTrip.TransitionFieldsCanonical | src/hsp2json.js:196-200 | a TransitionKeyFrame whose transition type is listed has only fields the reader gives back unchanged |
| RoundTrip.TransitionRoundTrip | src/hsp2json.js:196-200 | for a TransitionKeyFrame whose transition type is listed, the transition lambda reads writeTransitionKeyFrame's bytes back as the same fields, leaves whatever follows, and rebuilds the keyframe |
| RoundTrip.TransitionArrayRoundTrip | src/hsp2json.js:196-200 | readArray with the transition callback reads writeArray's bytes of a transitionKFs array back as the same keyframes, in order |
| RoundTrip.TransitionTrackRoundTrip | src/json2hsp.js:250 | the transitionKFs track of a document that reads back is read back by parse's readArray call |
| Writer.Writer.WriteTransitionKeyFrame | src/json2hsp.js:168-172 | from the end of the buffer, the writes append exactly the bytes of the keyframe's field list, in writeTransitionKeyFrame's order |
| Writer.Writer.WriteTransitionKeyFrames | src/json2hsp.js:250 | writeArray over the transitionKFs track: from the end of the buffer, appends the count word and then each keyframe's bytes, in array order (proved by a loop invariant) |
| Schema.ImageFieldsShaped | src/hsp2json.js:202-216 | every field writeImageKeyFrame emits has the type of the read at the same position of parse's image lambda |
| Schema.ImageFieldsInverse | src/hsp2json.js:202-216 | the image lambda's object literal, given the fields written for a ImageKeyFrame, rebuilds that keyframe property for property |
| Schema.ImageFieldsWritable | src/json2hsp.js:174-188 | writeImageKeyFrame accepts every ImageKeyFrame: every field is within its write helper's range |
| Schema.ImageArrayWritable | src/json2hsp.js:80-85 | writeArray accepts a imageKFs array shorter than 2^32 elements |
| Writer.ImageBytes | src/json2hsp.js:174-188 | writeImageKeyFrame's writes, one after the other, append exactly the encoding of the keyframe's field list |
| RoundTrip.ImageFieldsCanonical | src/hsp2json.js:202-216 | every field of a ImageKeyFrame is one the reader gives back unchanged |
| RoundTrip.ImageRoundTrip | src/hsp2json.js:202-216 | for every ImageKeyFrame, the image lambda reads writeImageKeyFrame's bytes back as the same fields, leaves whatever follows, and rebuilds the keyframe |
| RoundTrip.ImageArrayRoundTrip | src/hsp2json.js:202-216 | readArray with the image callback reads writeArray's bytes of a imageKFs array back as the same keyframes, in order |
| RoundTrip.ImageTrackRoundTrip | src/json2hsp.js:251 | the imageKFs track of a document that reads back is read back by parse's readArray call |
| Writer.Writer.WriteImageKeyFrame | src/json2hsp.js:174-188 | from the end of the buffer, the writes append exactly the bytes of the keyframe's field list, in writeImageKeyFrame's order |
| Writer.Writer.WriteImageKeyFrames | src/json2hsp.js:251 | writeArray over the imageKFs track: from the end of the buffer, appends the count word and then each keyframe's bytes, in array order (proved by a loop invariant) |
| Schema.AudioFieldsShaped | src/hsp2json.js:218-222 | every field writeAudioKeyFrame emits has the type of the read at the same position of parse's audio lambda |
| Schema.AudioFieldsInverse | src/hsp2json.js:218-222 | the audio lambda's object literal, given the fields written for a AudioKeyFrame, rebuilds that keyframe property for property |
| Schema.AudioFieldsWritable | src/json2hsp.js:190-194 | writeAudioKeyFrame accepts every AudioKeyFrame: every field is within its write helper's range |
| Schema.AudioArrayWritable | src/json2hsp.js:80-85 | writeArray accepts a audioKFs array shorter than 2^32 elements |
| Writer.AudioBytes | src/json2hsp.js:190-194 | writeAudioKeyFrame's writes, one after the other, append exactly the encoding of the keyframe's field list |
| RoundTrip.AudioFieldsCanonical | src/hsp2json.js:218-222 | every field of a AudioKeyFrame is one the reader gives back unchanged |
| RoundTrip.AudioRoundTrip | src/hsp2json.js:218-222 | for every AudioKeyFrame, the audio lambda reads writeAudioKeyFrame's bytes back as the same fields, leaves whatever follows, and rebuilds the keyframe |
| RoundTrip.AudioArrayRoundTrip | src/hsp2json.js:218-222 | readArray with the audio callback reads writeArray's bytes of a audioKFs array back as the same keyframes, in order |
| RoundTrip.AudioTrackRoundTrip | src/json2hsp.js:252 | the audioKFs track of a document that reads back is read back by parse's readArray call |
| Writer.Writer.WriteAudioKeyFrame | src/json2hsp.js:190-194 | from the end of the buffer, the writes append exactly the bytes of the keyframe's field list, in writeAudioKeyFrame's order |
| Writer.Writer.WriteAudioKeyFrames | src/json2hsp.js:252 | writeArray over the audioKFs track: from the end of the buffer, appends the count word and then each keyframe's bytes, in array order (proved by a loop invariant) |
| Schema.EnvironmentFieldsShaped | src/hsp2json.js:224-241 | every field writeEnvironmentKeyFrame emits has the type of the read at the same position of parse's environment lambda |
| Schema.EnvironmentFieldsInverse | src/hsp2json.js:224-241 | the environment lambda's object literal, given the fields written for a EnvironmentKeyFrame, rebuilds that keyframe property for property |
| Schema.EnvironmentFieldsWritable | src/json2hsp.js:196-213 | writeEnvironmentKeyFrame accepts every EnvironmentKeyFrame whose background name fits the Int32 length word: every field is within its write helper's range |
| Schema.EnvironmentArrayWritable | src/json2hsp.js:80-85 | writeArray accepts a environmentKFs array shorter than 2^32 elements of keyframes whose background name fits the Int32 length word |
| Writer.EnvironmentBytes | src/json2hsp.js:196-213 | writeEnvironmentKeyFrame's writes, one after the other, append exactly the encoding of the keyframe's field list |
| RoundTrip.EnvironmentFieldsCanonical | src/hsp2json.js:224-241 | a EnvironmentKeyFrame whose background and mask types are listed and its background name is ASCII has only fields the reader gives back unchanged |
| RoundTrip.EnvironmentRoundTrip | src/hsp2json.js:224-241 | for a EnvironmentKeyFrame whose background and mask types are listed and its background name is ASCII, the environment lambda reads writeEnvironmentKeyFrame's bytes back as the same fields, leaves whatever follows, and rebuilds the keyframe |
| RoundTrip.EnvironmentArrayRoundTrip | src/hsp2json.js:224-241 | readArray with the environment callback reads writeArray's bytes of a environmentKFs array back as the same keyframes, in order |
| RoundTrip.EnvironmentTrackRoundTrip | src/json2hsp.js:253 | the environmentKFs track of a document that reads back is read back by parse's readArray call |
| Writer.Writer.WriteEnvironmentKeyFrame | src/json2hsp.js:196-213 | from the end of the buffer, the writes append exactly the bytes of the keyframe's field list, in writeEnvironmentKeyFrame's order |
| Writer.Writer.WriteEnvironmentKeyFrames | src/json2hsp.js:253 | writeArray over the environmentKFs track: from the end of the buffer, appends the count word and then each keyframe's bytes, in array order (proved by a loop invariant) |
| Schema.FormatFields | src/json2hsp.js:97-111 | the fields writeFormatKeyFrame writes, one per write helper call, in its order; FormatFieldsShaped proves they have the kinds of FormatKinds, the read helpers parse's format lambda calls at src/hsp2json.js:125-139 |
| Schema.FormatOf | src/hsp2json.js:125-139 | the object literal of parse's format lambda, built from fields of the kinds FormatKinds lists; FormatFieldsInverse proves it rebuilds the keyframe from FormatFields |
| Schema.LensFields | src/json2hsp.js:113-121 | the fields writeLensKeyFrame writes, one per write helper call, in its order; LensFieldsShaped proves they have the kinds of LensKinds, the read helpers parse's lens lambda calls at src/hsp2json.js:141-149 |
| Schema.LensOf | src/hsp2json.js:141-149 | the object literal of parse's lens lambda, built from fields of the kinds LensKinds lists; LensFieldsInverse proves it rebuilds the keyframe from LensFields |
| Schema.StitchFields | src/json2hsp.js:123-130 | the fields writeStitchKeyFrame writes, one per write helper call, in its order; StitchFieldsShaped proves they have the kinds of StitchKinds, the read helpers parse's stitch lambda calls at src/hsp2json.js:151-158 |
| Schema.StitchOf | src/hsp2json.js:151-158 | the object literal of parse's stitch lambda, built from fields of the kinds StitchKinds lists; StitchFieldsInverse proves it rebuilds the keyframe from StitchFields |
| Schema.AlignmentFields | src/json2hsp.js:132-136 | the fields writeAlignmentKeyFrame writes, one per write helper call, in its order; AlignmentFieldsShaped proves they have the kinds of AlignmentKinds, the read helpers parse's alignment lambda calls at src/hsp2json.js:160-164 |
| Schema.AlignmentOf | src/hsp2json.js:160-164 | the object literal of parse's alignment lambda, built from fields of the kinds AlignmentKinds lists; AlignmentFieldsInverse proves it rebuilds the keyframe from AlignmentFields |
| Schema.OrientationFields | src/json2hsp.js:138-141 | the fields writeOrientationKeyFrame writes, one per write helper call, in its order; OrientationFieldsShaped proves they have the kinds of OrientationKinds, the read helpers parse's orientation lambda calls at src/hsp2json.js:166-169 |
| Schema.OrientationOf | src/hsp2json.js:166-169 | the object literal of parse's orientation lambda, built from fields of the kinds OrientationKinds lists; OrientationFieldsInverse proves it rebuilds the keyframe from OrientationFields |
| Schema.OriginFields | src/json2hsp.js:143-146 | the fields writeOriginKeyFrame writes, one per write helper call, in its order; OriginFieldsShaped proves they have the kinds of OriginKinds, the read helpers parse's origin lambda calls at src/hsp2json.js:171-174 |
| Schema.OriginOf | src/hsp2json.js:171-174 | the object literal of parse's origin lambda, built from fields of the kinds OriginKinds lists; OriginFieldsInverse proves it rebuilds the keyframe from OriginFields |
| Schema.MotionFields | src/json2hsp.js:148-151 | the fields writeMotionKeyFrame writes, one per write helper call, in its order; MotionFieldsShaped proves they have the kinds of MotionKinds, the read helpers parse's motion lambda calls at src/hsp2json.js:176-179 |
| Schema.MotionOf | src/hsp2json.js:176-179 | the object literal of parse's motion lambda, built from fields of the kinds MotionKinds lists; MotionFieldsInverse proves it rebuilds the keyframe from MotionFields |
| Schema.AutoFocusFields | src/json2hsp.js:153-160 | the fields writeAutoFocusKeyFrame writes, one per write helper call, in its order; AutoFocusFieldsShaped proves they have the kinds of AutoFocusKinds, the read helpers parse's autoFocus lambda calls at src/hsp2json.js:181-188 |
| Schema.AutoFocusOf | src/hsp2json.js:181-188 | the object literal of parse's autoFocus lambda, built from fields of the kinds AutoFocusKinds lists; AutoFocusFieldsInverse proves it rebuilds the keyframe from AutoFocusFields |
| Schema.SyncFields | src/json2hsp.js:162-166 | the fields writeSyncKeyFrame writes, one per write helper call, in its order; SyncFieldsShaped proves they have the kinds of SyncKinds, the read helpers parse's sync lambda calls at src/hsp2json.js:190-194 |
| Schema.SyncOf | src/hsp2json.js:190-194 | the object literal of parse's sync lambda, built from fields of the kinds SyncKinds lists; SyncFieldsInverse proves it rebuilds the keyframe from SyncFields |
| Schema.TransitionFields | src/json2hsp.js:168-172 | the fields writeTransitionKeyFrame writes, one per write helper call, in its order; TransitionFieldsShaped proves they have the kinds of TransitionKinds, the read helpers parse's transition lambda calls at src/hsp2json.js:196-200 |
| Schema.TransitionOf | src/hsp2json.js:196-200 | the object literal of parse's transition lambda, built from fields of the kinds TransitionKinds lists; TransitionFieldsInverse proves it rebuilds the keyframe from TransitionFields |
| Schema.ImageFields | src/json2hsp.js:174-188 | the fields writeImageKeyFrame writes, one per write helper call, in its order; ImageFieldsShaped proves they have the kinds of ImageKinds, the read helpers parse's image lambda calls at src/hsp2json.js:202-216 |
| Schema.ImageOf | src/hsp2json.js:202-216 | the object literal of parse's image lambda, built from fields of the kinds ImageKinds lists; ImageFieldsInverse proves it rebuilds the keyframe from ImageFields |
| Schema.AudioFields | src/json2hsp.js:190-194 | the fields writeAudioKeyFrame writes, one per write helper call, in its order; AudioFieldsShaped proves they have the kinds of AudioKinds, the read helpers parse's audio lambda calls at src/hsp2json.js:218-222 |
| Schema.AudioOf | src/hsp2json.js:218-222 | the object literal of parse's audio lambda, built from fields of the kinds AudioKinds lists; AudioFieldsInverse proves it rebuilds the keyframe from AudioFields |
| Schema.EnvironmentFields | src/json2hsp.js:196-213 | the fields writeEnvironmentKeyFrame writes, one per write helper call, in its order; EnvironmentFieldsShaped proves they have the kinds of EnvironmentKinds, the read helpers parse's environment lambda calls at src/hsp2json.js:224-241 |
| Schema.EnvironmentOf | src/hsp2json.js:224-241 | the object literal of parse's environment lambda, built from fields of the kinds EnvironmentKinds lists; EnvironmentFieldsInverse proves it rebuilds the keyframe from EnvironmentFields |
| Schema.MetadataFields | src/json2hsp.js:219-235 | the seventeen metadata fields writeData writes after the version word, in its order; MetadataFieldsShaped proves they have the kinds of MetadataKinds, parse's reads at src/hsp2json.js:97-113 |
| Schema.DocumentOf | src/hsp2json.js:95-123 | the object parse builds: the version, the seventeen metadata properties, the tags and the tracks; MetadataFieldsInverse proves it rebuilds the document from MetadataFields |
| Schema.EncProjectionKeyFrames | src/json2hsp.js:238-253 | the thirteen writeArray calls over the tracks, in writeData's order; TracksUnfold states the layout and TracksRoundTrip the inverse |
| Schema.DecProjectionKeyFrames | src/hsp2json.js:123-241 | parse's thirteen readArray calls, each starting where the last stopped; TracksRoundTrip proves it inverts EncProjectionKeyFrames |
| Schema.EncFieldsOf | src/json2hsp.js:219-253 | writeData's bytes after the version word: the metadata, the tag array and the tracks (EncFieldsOfSplit) |
| Schema.EncBody | src/json2hsp.js:218-253 | the bytes writeData writes after its placeholder word: the version word, then EncFieldsOf (BodyLayout) |
| Schema.TracksUnfold | src/json2hsp.js:238-253 | the tracks' bytes are the thirteen count-prefixed arrays in writeData's fixed order, each accepted by writeArray |
| Schema.MetadataFieldsShaped | src/hsp2json.js:97-113 | the metadata fields writeData emits have the types parse reads, position by position |
| Schema.MetadataFieldsInverse | src/hsp2json.js:97-113 | parse's metadata properties, given the fields written, rebuild the document's metadata |
| Schema.MetadataFieldsWritable | src/json2hsp.js:219-235 | writeData's metadata writes accept a document whose three texts fit |
| Schema.EncData | src/json2hsp.js:215-260 | writeData's result starts with a word whose little-endian reading is the number of bytes after it, and the body follows |
| Schema.DecDocument | src/hsp2json.js:97-242 | the document parse builds carries the version it read |
| Schema.Decode | src/hsp2json.js:84-96 | parse fails with an underrun on fewer than 8 bytes; it refuses a version word other than 7 before reading any field; whatever it returns has version 7 |
| Container.EncHeader | src/json2hsp.js:262-275 | writeHeader's output is always 48 bytes |
| Container.I64Then | src/json2hsp.js:265 | a 64-bit word reads back and leaves what follows it |
| Container.SkipWord | src/json2hsp.js:265-272 | the header's words sit 8 bytes apart |
| Container.SixWords | src/json2hsp.js:265-272 | six 64-bit words in a row read back in order, and nothing follows |
| Container.HeaderWords | src/json2hsp.js:262-275 | the header reads back as 2653586369, 131072, compressedSize, dataSize, compressedSize, dataSize, in that order, with nothing after them |
| Container.EncFile | src/json2hsp.js:287-290 | json2hsp's file is the 48-byte header of the payload's two sizes, then the deflated payload |
| Container.Compressed | src/hsp2json.js:248 | file.slice(0x30) drops exactly the 48 header bytes, or leaves nothing of a shorter file |
| Container.DecFile | src/hsp2json.js:245-258 | hsp2json fails when inflating fails; whatever it returns has version 7 |
| Container.FileRoundTrip | src/hsp2json.js:245-258 | in the model (exact tick counts), hsp2json reads back exactly the document json2hsp wrote, when inflate inverts deflate on the payload |
| RoundTrip.TracksReadBack | src/hsp2json.js:125-241 | when each readArray call returns its track and leaves the next array first, parse's thirteen calls return all the tracks |
| RoundTrip.TracksRoundTrip | src/hsp2json.js:125-241 | parse's thirteen readArray calls read back the thirteen tracks writeData wrote, whatever follows them |
| RoundTrip.TrackAsRead | src/hsp2json.js:120 | the unsigned reading of a track lies in 0..2^32-1, agrees with it modulo 2^32, is the track itself when in range and the track plus 2^32 when negative |
| RoundTrip.TagReadFields | src/hsp2json.js:115-121 | the fields the tag lambda reads from writeHSTag's bytes have the lambda's types |
| RoundTrip.TagBytesAgree | src/json2hsp.js:94 | the written tag fields and the fields read back are the same bytes: an Int32 track's bytes are its UInt32 reading's bytes |
| RoundTrip.TagReadCanonical | src/hsp2json.js:115-121 | the fields read back for a tag with an ASCII name read back unchanged again |
| RoundTrip.TagRoundTrip | src/hsp2json.js:115-121 | the tag lambda reads writeHSTag's bytes back as the tag with its track replaced by its unsigned reading |
| RoundTrip.CanonicalTagRoundTrip | src/hsp2json.js:115-121 | a tag with an ASCII name and a track in 0..2^31-1 comes back exactly |
| RoundTrip.NegativeTrackChanges | src/hsp2json.js:120 | a tag with a negative track does not come back: its track returns 2^32 larger |
| RoundTrip.TagRecordsAgree | src/json2hsp.js:236 | the tag array's written records and the records read back are the same bytes |
| RoundTrip.TagsAsRead | src/hsp2json.js:115-121 | the tags as parse returns them: as many as written, each with its track as read |
| RoundTrip.ReadFieldsAsRead | src/hsp2json.js:120 | reading a track a second time changes nothing |
| RoundTrip.TagAsReadBack | src/hsp2json.js:115-121 | a tag as parse returns it is rebuilt by the tag lambda from its own read fields |
| RoundTrip.TagsRoundTrip | src/hsp2json.js:115-121 | readArray with the tag lambda reads writeArray's tag bytes back as every tag, in order, each with its track as read |
| RoundTrip.CanonicalTagsRoundTrip | src/hsp2json.js:115-121 | tags with ASCII names and tracks in 0..2^31-1 come back exactly |
| RoundTrip.NonNegativeTracksRead | src/hsp2json.js:120 | tracks in 0..2^31-1 read back unchanged |
| RoundTrip.MetadataFieldsCanonical | src/hsp2json.js:97-113 | a document with ASCII uniqueID, title and description has only metadata fields the reader returns unchanged |
| RoundTrip.MetadataRoundTrip | src/hsp2json.js:97-113 | parse's metadata reads return writeData's metadata fields, and they rebuild the document's metadata |
| RoundTrip.DecDocumentSteps | src/hsp2json.js:97-242 | parse after the version word: the metadata, the tag array, then the tracks, each starting where the last stopped |
| RoundTrip.EncFieldsOfSplit | src/json2hsp.js:219-253 | writeData's bytes after the version word are the metadata, the tag array and the tracks, one after the other |
| RoundTrip.DocumentRoundTrip | src/hsp2json.js:97-242 | the fields after the version word read back as the document, whatever follows them |
| RoundTrip.DecodeRoundTrip | src/hsp2json.js:84-243 | in the model (exact tick counts), parse inverts writeData: a version-7 document with ASCII texts, listed enum names and tag tracks in 0..2^31-1 is read back exactly, and trailing bytes are ignored |
| RoundTrip.WrongVersionRejected | src/hsp2json.js:88-93 | a document of any version but 7, once written by writeData, is refused by parse with that version |
| RoundTrip.RejectSteps | src/hsp2json.js:87-93 | parse reads the length word, then refuses a version word other than 7 |
| RoundTrip.EncDataSplit | src/json2hsp.js:215-218 | writeData's bytes are the content-length word, the version word, then the fields |
| RoundTrip.DecodeSteps | src/hsp2json.js:87-96 | parse reads the length word, accepts version 7 and returns the document read after it |
| Writer.Overwrite | src/json2hsp.js:255-257 | a write at an offset leaves the buffer as long as before, or as long as offset plus bytes when it runs past the end |
| Writer.OverwriteKeeps | src/json2hsp.js:255-257 | a write at an offset keeps every byte before the offset and after the bytes written, and puts the bytes written in between |
| Writer.OverwriteAtEnd | src/json2hsp.js:217 | a write at the end of the buffer appends |
| Writer.OverwriteTwice | src/json2hsp.js:9-11 | two writes in a row, the second where the first stopped, are one write of both; this is how writeFString and the vector writers' several writes make one |
| Writer.FStringWrites | src/json2hsp.js:9-11 | writeFString's three writes at any offset, the length word, the UTF-8 bytes and the terminator, leave the buffer exactly as one write of the FString encoding would |
| Writer.SnocStep | src/json2hsp.js:89-95 | one more field written after the ones before it appends its bytes |
| Writer.ElemStep | src/json2hsp.js:82-84 | one more element written by writeArray's loop appends its record |
| Writer.TagBytes | src/json2hsp.js:89-95 | writeHSTag's five writes, one after the other, append exactly the tag's field list encoded |
| Writer.MetadataBytes | src/json2hsp.js:219-235 | writeData's seventeen metadata writes append exactly the metadata field list encoded |
| Writer.Writer.constructor | src/json2hsp.js:216 | new SmartBuffer(): no bytes, the cursor at 0 |
| Writer.Writer.Put | src/json2hsp.js:255-257 | a write replaces the bytes at the cursor, grows the buffer past its end if needed and moves the cursor past the bytes; at the end of the buffer it appends |
| Writer.Writer.WriteUInt8 | src/json2hsp.js:11 | writeUInt8 puts one byte at the cursor |
| Writer.Writer.WriteUInt32LE | src/json2hsp.js:255-257 | writeUInt32LE puts the four little-endian bytes at the cursor, which is how the back-patch overwrites the length word |
| Writer.Writer.WriteInt32LE | src/json2hsp.js:9 | writeInt32LE puts the four two's-complement bytes at the cursor |
| Writer.Writer.WriteBigInt64LE | src/json2hsp.js:25 | writeBigInt64LE puts the eight two's-complement bytes at the cursor |
| Writer.Writer.WriteFloatLE | src/json2hsp.js:50 | writeFloatLE puts the float's four bytes at the cursor |
| Writer.Writer.WriteString | src/json2hsp.js:10 | writeString puts the text's UTF-8 bytes at the cursor |
| Writer.Writer.WriteFString | src/json2hsp.js:6-18 | writeFString puts the FString encoding (the length word and then, for non-empty text, the UTF-8 bytes and a zero byte) at the cursor, overwriting what is there and growing the buffer past its end, and moves the cursor past them; at the end of the buffer this appends |
| Writer.Writer.WriteDateTime | src/json2hsp.js:20-29 | puts the eight bytes of the datetime's tick count, offset by 62135596800000 ms, at the cursor, overwriting what is there and growing the buffer past its end, and moves the cursor past them; at the end of the buffer this appends |
| Writer.Writer.WriteTimespan | src/json2hsp.js:31-39 | puts the eight bytes of the duration's tick count at the cursor, overwriting what is there and growing the buffer past its end, and moves the cursor past them; at the end of the buffer this appends |
| Writer.Writer.WriteBool | src/json2hsp.js:41-47 | puts the four bytes of the word 1 for true or 0 for false at the cursor, overwriting what is there and growing the buffer past its end, and moves the cursor past them; at the end of the buffer this appends |
| Writer.Writer.WriteVector2D | src/json2hsp.js:49-52 | puts x, then y, at the cursor, overwriting what is there and growing the buffer past its end, and moves the cursor past them; at the end of the buffer this appends |
| Writer.Writer.WriteVector | src/json2hsp.js:54-58 | puts x, y, then z, at the cursor, overwriting what is there and growing the buffer past its end, and moves the cursor past them; at the end of the buffer this appends |
| Writer.Writer.WriteVector4 | src/json2hsp.js:60-65 | puts x, y, z, then w, at the cursor, overwriting what is there and growing the buffer past its end, and moves the cursor past them; at the end of the buffer this appends |
| Writer.Writer.WriteRotator | src/json2hsp.js:67-71 | puts pitch, yaw, then roll, at the cursor, overwriting what is there and growing the buffer past its end, and moves the cursor past them; at the end of the buffer this appends |
| Writer.Writer.WriteLinearColor | src/json2hsp.js:73-78 | puts red, green, blue, then alpha, at the cursor, overwriting what is there and growing the buffer past its end, and moves the cursor past them; at the end of the buffer this appends |
| Writer.Writer.WriteHSTag | src/json2hsp.js:89-95 | appends exactly the tag's field list encoded, with the track as Int32 |
| Writer.Writer.WriteTags | src/json2hsp.js:236 | writeArray over the tags: appends the count word and then each tag's bytes, in array order (proved by a loop invariant) |
| Writer.Writer.WriteMetadata | src/json2hsp.js:219-235 | appends exactly the metadata field list encoded, in writeData's order |
| Writer.Writer.WriteProjectionKeyFrames | src/json2hsp.js:238-253 | appends the thirteen track arrays in writeData's order |
| Writer.Writer.WriteBody | src/json2hsp.js:218-253 | appends the version word, the metadata, the tag array and the tracks |
| Writer.TracksRegroup | src/json2hsp.js:238-253 | the thirteen arrays appended one by one are their concatenation appended at once |
| Writer.TracksAppended | src/json2hsp.js:238-253 | the thirteen writeArray calls append exactly the tracks' bytes |
| Writer.WriteData | src/json2hsp.js:215-260 | writeData, placeholder word and back-patch included, returns exactly the content-length word followed by the body |
| Writer.BodyAppended | src/json2hsp.js:218-253 | the four stretches after the length word, appended one after the other, are the body |
| Writer.BodyRegroup | src/json2hsp.js:218-253 | four pieces appended one by one are the body appended at once |
| Writer.Patched | src/json2hsp.js:255-257 | overwriting the zero word at offset 0 with the length after it changes only those four bytes and gives writeData's result |
| Writer.BodyLayout | src/json2hsp.js:218-253 | the body is the version word, the metadata, the tag array and the tracks |
| Writer.PatchLength | src/json2hsp.js:255-257 | overwriting a leading zero word with the body's length gives the length word followed by the unchanged body |
| Writer.WriteHeader | src/json2hsp.js:262-275 | writeHeader returns the six-word header, 48 bytes |
| Writer.Json2Hsp | src/json2hsp.js:277-297 | a document whose version is not 7 is refused before anything is written; otherwise the file is the header and the deflated writeData payload |
| Reader.FieldsFrom | src/hsp2json.js:97-113 | the object literal's reads from position i on are the read at i, then the reads after it |
| Reader.ElemsFailFrom | src/hsp2json.js:35-37 | once a round of readArray's loop fails, the whole array fails |
| Reader.ElemsFailStep | src/hsp2json.js:35-37 | a failed round fails the next one too |
| Reader.Reader.FromBuffer | src/hsp2json.js:85 | SmartBuffer.fromBuffer(file): the offset at 0, the whole file unread |
| Reader.Reader.Remaining | src/hsp2json.js:85 | the bytes not read yet are as many as the buffer has after the offset |
| Reader.Reader.Take | src/hsp2json.js:87 | a read of n bytes succeeds exactly when n bytes remain, returns them and moves the offset past them |
| Reader.Reader.ReadUInt8 | src/hsp2json.js:127 | agrees with DecU8: fails on an empty remainder, else returns its value and leaves its rest |
| Reader.Reader.ReadUInt32LE | src/hsp2json.js:33 | agrees with DecU32 |
| Reader.Reader.ReadInt32LE | src/hsp2json.js:9 | agrees with DecI32 |
| Reader.Reader.ReadBigInt64LE | src/hsp2json.js:23 | agrees with DecI64 |
| Reader.Reader.ReadFloatLE | src/hsp2json.js:43 | agrees with DecFloat |
| Reader.Reader.ReadString | src/hsp2json.js:14-16 | reads min(length, remaining) bytes, as UTF-16LE or one unit per byte |
| Reader.Reader.ReadStr | src/hsp2json.js:8-19 | agrees with DecStr: the length word, a doubled negative length for UTF-16, the terminator dropped |
| Reader.Reader.ReadTime | src/hsp2json.js:21-25 | agrees with DecTime |
| Reader.Reader.ReadDate | src/hsp2json.js:27-30 | agrees with DecDate |
| Reader.Reader.ReadFVector2D | src/hsp2json.js:41-46 | agrees with DecVector2D |
| Reader.Reader.ReadFVector | src/hsp2json.js:47-53 | agrees with DecVector |
| Reader.Reader.ReadFVector4 | src/hsp2json.js:54-61 | agrees with DecVector4 |
| Reader.Reader.ReadFRotator | src/hsp2json.js:62-68 | agrees with DecRotator |
| Reader.Reader.ReadFLinearColor | src/hsp2json.js:69-76 | agrees with DecLinearColor |
| Reader.Reader.ReadField | src/hsp2json.js:97-113 | one property read agrees with DecField for its type: a boolean as readUInt32LE() > 0, an enum as the table entry of readUInt8() |
| Reader.Reader.ReadFields | src/hsp2json.js:115-121 | an object literal's reads, in property order, agree with DecFields (proved by a loop invariant) |
| Reader.Reader.ReadArray | src/hsp2json.js:32-39 | readArray agrees with DecObjects: the count, then that many callback objects, each pushed after the ones before it (proved by loop invariants) |
| Reader.Reader.ReadProjectionKeyFrames | src/hsp2json.js:123-241 | parse's thirteen readArray calls agree with DecProjectionKeyFrames |
| Reader.Reader.ReadDocument | src/hsp2json.js:97-242 | parse's reads after the version word agree with DecDocument |
| Reader.Parse | src/hsp2json.js:84-243 | parse returns exactly Decode's result: an underrun, an unsupported version, or the document |
| Reader.Hsp2Json | src/hsp2json.js:245-258 | hsp2json skips the 48 header bytes, inflates and parses, with exactly DecFile's result |

## Left out

- **zlib.** `zlib.deflateSync` and `zlib.inflateSync` (src/json2hsp.js:288, src/hsp2json.js:248) are foreign code. They are function parameters, and the file round trip assumes that inflate inverts deflate.
- **I/O.** Reading and writing files, `JSON.parse` and `JSON.stringify`, console logging, the try/catch that turns every error into a log line, and the fire-and-forget `fs.writeFile` are I/O. The drivers take and return byte sequences and documents instead.
- **The command line.** `convert.js` only dispatches on its arguments.
- **Float semantics.** `writeFloatLE` and `readFloatLE` copy a 32-bit pattern unchanged. Rounding a JavaScript number to single precision, and NaN, are not modelled.
- **Tick arithmetic in doubles.** The writer computes `(date + 62135596800000) * 10000` (src/json2hsp.js:24) and `time * 10000` (src/json2hsp.js:34) as doubles before `BigInt`, and `BigInt` of a fraction throws. The model uses exact integer milliseconds and exact tick counts.
- Primitives.DateRoundTrip: holds in the model only. For any date after about year 29 the tick count is above 2^53 and is rounded to the nearest double, ties to even. About 7 of every 16 millisecond values round below the exact count, and readDate's truncating division then returns them 1 ms early. For example, date 1760000000001 is written as 638955968000009984 ticks instead of 638955968000010000 and read back as 1760000000000.
- Primitives.TimeRoundTrip: holds in the model only. In the program a timespan is exact only up to 2^53 ticks, about 9.0e11 ms (some 28.5 years); above that it can come back 1 ms early.
- RoundTrip.DecodeRoundTrip: holds in the model only. In the program every DateTime field of a modern document, and any timespan above about 9.0e11 ms, can come back 1 ms early, so the document does not always round-trip even with non-negative tracks.
- Container.FileRoundTrip: holds in the model only, for the same reason as RoundTrip.DecodeRoundTrip.
- **Text encodings.** Strings are UTF-16 code units.
  - The writer's UTF-8 is modelled for each unit on its own. A surrogate pair is written as two 3-byte sequences, where Node writes one 4-byte sequence (and U+FFFD for a lone surrogate).
  - The reader's `utf8` branch is modelled as one unit per byte, with no UTF-8 decoding. It agrees with Node exactly on ASCII bytes.
- **Missing or mistyped JSON properties.** Only missing enum names are modelled. A missing number written by `writeFloatLE` or `writeUInt32LE`, and the `typeof` checks of src/json2hsp.js:7-47 that only log, are left out: every other field of a document is typed.
- **RangeErrors on the writer side.** SmartBuffer throws a RangeError for a value that does not fit its word. The model turns these into preconditions (`Fields.Writable`, `Project.DocumentWritable`, `Schema.PayloadFits`, `Container.FileFits`) and does not model the throw.
- Reader.Reader.ReadString: the `utf8` branch is stated as one unit per byte, not as UTF-8 decoding; the two agree on ASCII bytes.
- Writer.Writer.WriteHSTag: the new buffer is stated only when the cursor is at the end of the buffer, which is the only way writeData calls it. An overwrite in the middle of the buffer is stated for SmartBuffer's writes and the field writers (Put, WriteUInt8, WriteUInt32LE, WriteInt32LE, WriteBigInt64LE, WriteFloatLE, WriteString, WriteFString, WriteDateTime, WriteTimespan, WriteBool and the vector writers), not for the record writers built on them.
- Writer.Writer.WriteTags: the new buffer is stated only with the cursor at the end, as for WriteHSTag.
- Writer.Writer.WriteMetadata: the new buffer is stated only with the cursor at the end, as for WriteHSTag.
- Writer.Writer.WriteFormatKeyFrame: the new buffer is stated only with the cursor at the end, as for WriteHSTag.
- Writer.Writer.WriteFormatKeyFrames: the new buffer is stated only with the cursor at the end, as for WriteHSTag.
- Writer.Writer.WriteLensKeyFrame: the new buffer is stated only with the cursor at the end, as for WriteHSTag.
- Writer.Writer.WriteLensKeyFrames: the new buffer is stated only with the cursor at the end, as for WriteHSTag.
- Writer.Writer.WriteStitchKeyFrame: the new buffer is stated only with the cursor at the end, as for WriteHSTag.
- Writer.Writer.WriteStitchKeyFrames: the new buffer is stated only with the cursor at the end, as for WriteHSTag.
- Writer.Writer.WriteAlignmentKeyFrame: the new buffer is stated only with the cursor at the end, as for WriteHSTag.
- Writer.Writer.WriteAlignmentKeyFrames: the new buffer is stated only with the cursor at the end, as for WriteHSTag.
- Writer.Writer.WriteOrientationKeyFrame: the new buffer is stated only with the cursor at the end, as for WriteHSTag.
- Writer.Writer.WriteOrientationKeyFrames: the new buffer is stated only with the cursor at the end, as for WriteHSTag.
- Writer.Writer.WriteOriginKeyFrame: the new buffer is stated only with the cursor at the end, as for WriteHSTag.
- Writer.Writer.WriteOriginKeyFrames: the new buffer is stated only with the cursor at the end, as for WriteHSTag.
- Writer.Writer.WriteMotionKeyFrame: the new buffer is stated only with the cursor at the end, as for WriteHSTag.
- Writer.Writer.WriteMotionKeyFrames: the new buffer is stated only with the cursor at the end, as for WriteHSTag.
- Writer.Writer.WriteAutoFocusKeyFrame: the new buffer is stated only with the cursor at the end, as for WriteHSTag.
- Writer.Writer.WriteAutoFocusKeyFrames: the new buffer is stated only with the cursor at the end, as for WriteHSTag.
- Writer.Writer.WriteSyncKeyFrame: the new buffer is stated only with the cursor at the end, as for WriteHSTag.
- Writer.Writer.WriteSyncKeyFrames: the new buffer is stated only with the cursor at the end, as for WriteHSTag.
- Writer.Writer.WriteTransitionKeyFrame: the new buffer is stated only with the cursor at the end, as for WriteHSTag.
- Writer.Writer.WriteTransitionKeyFrames: the new buffer is stated only with the cursor at the end, as for WriteHSTag.
- Writer.Writer.WriteImageKeyFrame: the new buffer is stated only with the cursor at the end, as for WriteHSTag.
- Writer.Writer.WriteImageKeyFrames: the new buffer is stated only with the cursor at the end, as for WriteHSTag.
- Writer.Writer.WriteAudioKeyFrame: the new buffer is stated only with the cursor at the end, as for WriteHSTag.
- Writer.Writer.WriteAudioKeyFrames: the new buffer is stated only with the cursor at the end, as for WriteHSTag.
- Writer.Writer.WriteEnvironmentKeyFrame: the new buffer is stated only with the cursor at the end, as for WriteHSTag.
- Writer.Writer.WriteEnvironmentKeyFrames: the new buffer is stated only with the cursor at the end, as for WriteHSTag.
- Writer.Writer.WriteProjectionKeyFrames: the new buffer is stated only with the cursor at the end, as for WriteHSTag.
- Writer.Writer.WriteBody: the new buffer is stated only with the cursor at the end, as for WriteHSTag.
- **Dead code.** The unused `time` formatter (src/hsp2json.js:77-83) and the unused `require("typescript")` (src/hsp2json.js:6) have no behaviour to model.
