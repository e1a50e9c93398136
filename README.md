# Iggy topic and command codecs in Dafny

This project models three codecs of the Iggy message-streaming system and proves
properties of them.

- **The topic JSON converter** of the C# SDK (`TopicResponseConverter`). `Read` turns a
  topic object returned by the server's HTTP API into a `TopicResponse` with its
  `PartitionContract`s. `Write` drives a `Utf8JsonWriter` to emit a topic.
  - Modules: `TopicResponseConverter` and `TopicResponseProperties`.
  - Supporting modules: `KeyMapper` (the wire keys), `Json` (the value tree, `JsonElement`'s
    lookups and getters, and the writer) and `DotNet` (the exceptions, unchecked `ulong`
    arithmetic, `String.Split`, `UInt64.Parse` and ordinal ignore-case comparison).
- **The binary command framing** of the Rust SDK (`sdk/src/command.rs`), in module `Commands`.
  It covers:
  - the table of 42 command codes and names;
  - `as_bytes`, which writes a 4-byte little-endian code followed by the payload;
  - `from_bytes`, which dispatches on that code;
  - `get_name_from_code`;
  - the `Display` form of a command.

  The per-command payload codecs are not part of this model. They are parameters: an
  encoder, a decoder and a printer.
- **The topic-list response parser** of the Rust SDK (`handle_response` in
  `sdk/src/topics/get_topics.rs`), in module `GetTopics`. A cursor loop reads
  length-prefixed records, and the topics are then sorted by id.
  - Supporting modules: `Bytes` (fixed-width integers and little-endian words) and `Utf8`
    (what `std::str::from_utf8` accepts).

Each operation has two forms:

- A specification function (`Read`, `DecodePartitions`, `EncodeTopic`, `FromBytes`,
  `ParseRecords`, `Decode`, `SortById`).
- Where the source works step by step, a method that does so (`DeserializePartitions`, `Write`,
  `FrameBytes` with its `BytesMut` buffer, `HandleResponse`, and `SortInPlace` on an array). The
  method is proved equal to its specification function.

The lemmas then prove what the source promises about these functions.

The model follows the code, also where a reader of the JSON format might expect otherwise:
- A missing `size` key makes `GetProperty` throw `KeyNotFoundException`. It is not read as 0; only
  JSON null gives 0.
- Faults are the .NET exceptions that the lookups, getters, `Split`, `ulong.Parse`, `Enum.Parse`
  and the converter's own `throw`s raise, in the code's evaluation order. There are no
  "missing field" or "type mismatch" faults. A fault from the `created_at` time conversion is
  not modelled (see "## Left out").
- There is no round trip. `Write` never emits `created_at`, `compression_algorithm`,
  `replication_factor` or `max_topic_size`, so `Read` rejects what `Write` produces
  (`WriteIsNotReadable`). `ReadThenWrite` states what does survive.

## Model

| member | source | states |
|---|---|---|
| `TopicResponseConverter.Read` | foreign/csharp/Iggy_SDK/JsonConfiguration/TopicResponseConverter.cs:29-88 | a topic is read only from an object; anything else fails at the first lookup, of id, with InvalidOperationException (what a topic holds: `ReadStages`, `ReadFromStages` and the `ReadSaw` lemmas) |
| `TopicResponseConverter.ParseSize` | foreign/csharp/Iggy_SDK/JsonConfiguration/TopicResponseConverter.cs:37-52 | null gives 0; a size comes only from text whose first space-separated part `ulong.Parse` accepts and whose second part names a unit; every fault is reported at the caller's key (the partition size block at lines 102-117 uses the same parser) |
| `TopicResponseConverter.ReadSize` | foreign/csharp/Iggy_SDK/JsonConfiguration/TopicResponseConverter.cs:37-52 | a size is read only from an object that holds the size key; JSON null there gives 0; faults are reported at the size key |
| `TopicResponseConverter.ParseCompressionAlgorithm` | foreign/csharp/Iggy_SDK/JsonConfiguration/TopicResponseConverter.cs:36 | an algorithm comes only from text equal to its name up to ASCII case; null is ArgumentNullException, any other text ArgumentException |
| `TopicResponseConverter.DecodePartition` | foreign/csharp/Iggy_SDK/JsonConfiguration/TopicResponseConverter.cs:95-129 | a partition is decoded only from an object: its id, created_at, segments_count, current_offset and messages_count are the integers under their keys and its size is the size block's value; a non-object fails at id with InvalidOperationException |
| `TopicResponseConverter.UnitOfName` | foreign/csharp/Iggy_SDK/JsonConfiguration/TopicResponseConverter.cs:43-51 | the unit switch matches exactly: it chooses a unit only for that unit's own name |
| `TopicResponseConverter.UnitRoundTrip` | foreign/csharp/Iggy_SDK/JsonConfiguration/TopicResponseConverter.cs:45-49 | each of B, KB, MB, GB and TB selects its own arm |
| `TopicResponseConverter.UncheckedIsWrappedProduct` | foreign/csharp/Iggy_SDK/JsonConfiguration/TopicResponseConverter.cs:45-49 | each arm is the value times 1, 10^3, 10^6, 10^9 or 10^12 modulo 2^64, and is exactly that product when it fits in 64 bits |
| `TopicResponseConverter.DecodeMessageExpiry` | foreign/csharp/Iggy_SDK/JsonConfiguration/TopicResponseConverter.cs:57-63 | succeeds exactly for null and for in-range integers; null gives 0, a number gives itself, and any other kind throws InvalidEnumArgumentException |
| `TopicResponseConverter.NarrowToByte` | foreign/csharp/Iggy_SDK/JsonConfiguration/TopicResponseConverter.cs:84 | the `(byte)` cast keeps values up to 255 unchanged |
| `TopicResponseConverter.DecodePartitions` | foreign/csharp/Iggy_SDK/JsonConfiguration/TopicResponseConverter.cs:89-132 | succeeds exactly when every element decodes, giving one partition per element in array order; otherwise the error is that of the first element that fails |
| `TopicResponseConverter.DecodePartitionsProperty` | foreign/csharp/Iggy_SDK/JsonConfiguration/TopicResponseConverter.cs:66-73 | "no partitions" exactly when the key is absent or null; an array gives a list of the same length, decoded element by element; any other kind throws |
| `TopicResponseConverter.DeserializePartitions` | foreign/csharp/Iggy_SDK/JsonConfiguration/TopicResponseConverter.cs:89-132 | the `foreach`/`Add` loop returns exactly `DecodePartitions` of the array's elements |
| `TopicResponseConverter.EncodeTopic` | foreign/csharp/Iggy_SDK/JsonConfiguration/TopicResponseConverter.cs:136-157 | six scalar members, id, name, size, message_expiry, messages_count and partitions_count with the topic's values, then a seventh, the array of serialised partitions, exactly when the topic has partitions |
| `TopicResponseConverter.EncodePartitions` | foreign/csharp/Iggy_SDK/JsonConfiguration/TopicResponseConverter.cs:149-153 | one serialised value per partition, in the topic's order |
| `TopicResponseConverter.EncodeTopicTokens` | foreign/csharp/Iggy_SDK/JsonConfiguration/TopicResponseConverter.cs:136-157 | the writer calls for the members of `EncodeTopic` are start-object, the six scalar calls, the partitions calls, end-object |
| `TopicResponseConverter.WriteScalars` | foreign/csharp/Iggy_SDK/JsonConfiguration/TopicResponseConverter.cs:138-143 | appends the six property calls for id, name, size, message_expiry, messages_count and partitions_count, in that order |
| `TopicResponseConverter.WritePartitions` | foreign/csharp/Iggy_SDK/JsonConfiguration/TopicResponseConverter.cs:145-156 | appends nothing for null partitions; otherwise start-array, one raw value per partition in order, then end-array |
| `TopicResponseConverter.Write` | foreign/csharp/Iggy_SDK/JsonConfiguration/TopicResponseConverter.cs:134-158 | the writer's calls grow by exactly the object that `EncodeTopic` describes |
| `TopicResponseProperties.SizeOfQuantity` | foreign/csharp/Iggy_SDK/JsonConfiguration/TopicResponseConverter.cs:37-51 | "n U" decodes to n times U's decimal multiplier, taken modulo 2^64; the partition size block uses the same parser |
| `TopicResponseProperties.SizeUnknownUnit` | foreign/csharp/Iggy_SDK/JsonConfiguration/TopicResponseConverter.cs:43-51 | a unit outside B/KB/MB/GB/TB (case-sensitive) is InvalidEnumArgumentException |
| `TopicResponseProperties.SizeWithoutSeparator` | foreign/csharp/Iggy_SDK/JsonConfiguration/TopicResponseConverter.cs:41-42 | text without a space always fails: with `ulong.Parse`'s exception, or an IndexOutOfRangeException at `[1]` |
| `TopicResponseProperties.SizeBadNumber` | foreign/csharp/Iggy_SDK/JsonConfiguration/TopicResponseConverter.cs:42 | a number that `ulong.Parse` rejects fails with that exception, whatever the unit |
| `TopicResponseProperties.SizeNotNumeric` | foreign/csharp/Iggy_SDK/JsonConfiguration/TopicResponseConverter.cs:42 | text with no digit before the space is a FormatException |
| `TopicResponseProperties.TenMegabytes` | foreign/csharp/Iggy_SDK/JsonConfiguration/TopicResponseConverter.cs:47 | "10 MB" is 10 000 000 |
| `TopicResponseProperties.CompressionIgnoresCase` | foreign/csharp/Iggy_SDK/JsonConfiguration/TopicResponseConverter.cs:36 | text parses to an algorithm exactly when it equals that member's name ignoring case; otherwise ArgumentException, and null is ArgumentNullException |
| `TopicResponseProperties.ReadStages` | foreign/csharp/Iggy_SDK/JsonConfiguration/TopicResponseConverter.cs:29-88 | all or nothing: a topic is produced only when every lookup and conversion succeeded, and it is built from their results |
| `TopicResponseProperties.ReadFromStages` | foreign/csharp/Iggy_SDK/JsonConfiguration/TopicResponseConverter.cs:29-88 | conversely, when every lookup and conversion succeeds, `Read` returns the topic built from their results |
| `TopicResponseProperties.ReadOrdersTopic` | foreign/csharp/Iggy_SDK/JsonConfiguration/TopicResponseConverter.cs:29-88 | a complete topic object (id 1, "orders", "10 MB", null message_expiry, "none", no partitions) reads as the topic with size 10 000 000, expiry 0, the `None` algorithm and no partitions |
| `TopicResponseProperties.ReadSawScalars` | foreign/csharp/Iggy_SDK/JsonConfiguration/TopicResponseConverter.cs:33-65 | a decoded topic came from an object whose id, created_at, name, max_topic_size, messages_count and partitions_count are the topic's own values |
| `TopicResponseProperties.ReadSawSize` | foreign/csharp/Iggy_SDK/JsonConfiguration/TopicResponseConverter.cs:37-52 | the wire size was null and the topic's size is 0, or it was a string that parses to the topic's size |
| `TopicResponseProperties.ReadSawCompression` | foreign/csharp/Iggy_SDK/JsonConfiguration/TopicResponseConverter.cs:36 | the wire held the algorithm's name, up to case |
| `TopicResponseProperties.ReadSawReplicationFactor` | foreign/csharp/Iggy_SDK/JsonConfiguration/TopicResponseConverter.cs:54 | the wire held a 16-bit number; the topic keeps its low byte, which is all of it when it is 255 or less |
| `TopicResponseProperties.ReadSawMessageExpiry` | foreign/csharp/Iggy_SDK/JsonConfiguration/TopicResponseConverter.cs:57-63 | the wire held null and the topic has 0, or it held the topic's number |
| `TopicResponseProperties.ReadSawPartitions` | foreign/csharp/Iggy_SDK/JsonConfiguration/TopicResponseConverter.cs:66-73 | no partitions exactly when the key was absent or null; otherwise an array of as many elements, each decoding to the partition at its position |
| `TopicResponseProperties.ReadNeedsObject` | foreign/csharp/Iggy_SDK/JsonConfiguration/TopicResponseConverter.cs:33 | anything but an object fails at the first lookup, with InvalidOperationException |
| `TopicResponseProperties.ReadNeedsKey` | foreign/csharp/Iggy_SDK/JsonConfiguration/TopicResponseConverter.cs:33-65 | every key except partitions is required |
| `TopicResponseProperties.StagesLookOnlyAtTheirKeys` | foreign/csharp/Iggy_SDK/JsonConfiguration/TopicResponseConverter.cs:33-73 | each step of `Read` depends only on the value under its own key |
| `TopicResponseProperties.ReadLooksOnlyAtItsKeys` | foreign/csharp/Iggy_SDK/JsonConfiguration/TopicResponseConverter.cs:29-88 | two objects that agree on the eleven keys `Read` looks up read alike |
| `TopicResponseProperties.ReadIgnoresUnknownKey` | foreign/csharp/Iggy_SDK/JsonConfiguration/TopicResponseConverter.cs:29-88 | adding a member under a key that `Read` does not look up does not change the result |
| `TopicResponseProperties.ReadIgnoresPartitionKeys` | foreign/csharp/Iggy_SDK/JsonConfiguration/TopicResponseConverter.cs:95-101 | segments_count and current_offset are among the keys a topic's `Read` ignores |
| `TopicResponseProperties.WriteBuildsEncodedObject` | foreign/csharp/Iggy_SDK/JsonConfiguration/TopicResponseConverter.cs:136-157 | the calls `Write` makes spell out exactly the object `EncodeTopic` describes |
| `TopicResponseProperties.WriteKeyOrder` | foreign/csharp/Iggy_SDK/JsonConfiguration/TopicResponseConverter.cs:138-147 | keys in the order id, name, size, message_expiry, messages_count, partitions_count, then partitions only when present |
| `TopicResponseProperties.WriteScalarValues` | foreign/csharp/Iggy_SDK/JsonConfiguration/TopicResponseConverter.cs:138-143 | every scalar except name is written as a raw number; name is written as a string, or null |
| `TopicResponseProperties.WritePartitionsValue` | foreign/csharp/Iggy_SDK/JsonConfiguration/TopicResponseConverter.cs:145-156 | partitions is absent exactly when the topic has none; otherwise it is an array of each partition's serialisation, in order |
| `TopicResponseProperties.WriteOmits` | foreign/csharp/Iggy_SDK/JsonConfiguration/TopicResponseConverter.cs:134-158 | never emits compression_algorithm, created_at, replication_factor or max_topic_size |
| `TopicResponseProperties.WriteIsNotReadable` | foreign/csharp/Iggy_SDK/JsonConfiguration/TopicResponseConverter.cs:34 | `Read` of `Write`'s object fails with KeyNotFoundException on created_at |
| `TopicResponseProperties.ReadThenWrite` | foreign/csharp/Iggy_SDK/JsonConfiguration/TopicResponseConverter.cs:29-158 | writing a decoded topic gives back the wire's id, name, messages_count and partitions_count; message_expiry comes back as the wire's number, or as 0 for null; a null size comes back as 0 |
| `KeyMapper.FieldOfKey` | foreign/csharp/Iggy_SDK/JsonConfiguration/TopicResponseConverter.cs:33-66 | a key maps to a property only when that property's snake-case key is that key |
| `KeyMapper.KeyRoundTrip` | foreign/csharp/Iggy_SDK/JsonConfiguration/TopicResponseConverter.cs:33-66 | every property's key leads back to the property |
| `KeyMapper.KeyInjective` | foreign/csharp/Iggy_SDK/JsonConfiguration/TopicResponseConverter.cs:33-66 | two properties share a key only if they are the same property |
| `Json.Lookup` | foreign/csharp/Iggy_SDK/JsonConfiguration/TopicResponseConverter.cs:33 | object property lookup; it has no contract of its own, and `Json.LookupIsLast` states that the last member with the key wins |
| `Json.LookupIsLast` | foreign/csharp/Iggy_SDK/JsonConfiguration/TopicResponseConverter.cs:33 | a lookup fails exactly when the key is absent; otherwise it finds the key's last occurrence |
| `Json.GetProperty` | foreign/csharp/Iggy_SDK/JsonConfiguration/TopicResponseConverter.cs:33 | succeeds exactly on an object holding the key |
| `Json.TryGetProperty` | foreign/csharp/Iggy_SDK/JsonConfiguration/TopicResponseConverter.cs:66 | succeeds exactly on an object, and then gives the key's last value, or the Undefined element (None) when the key is missing |
| `Json.GetInteger` | foreign/csharp/Iggy_SDK/JsonConfiguration/TopicResponseConverter.cs:33 | `GetInt32`/`GetUInt16`/`GetUInt64`: an integer literal in range is returned; any other number is FormatException; a non-number is InvalidOperationException |
| `Json.GetString` | foreign/csharp/Iggy_SDK/JsonConfiguration/TopicResponseConverter.cs:35 | a string gives its text and null gives null; any other kind throws |
| `Json.Assemble` | foreign/csharp/Iggy_SDK/JsonConfiguration/TopicResponseConverter.cs:136-157 | a sequence of writer calls denotes nothing but an object, and only when it begins with start-object |
| `Json.AssembleObjectTokens` | foreign/csharp/Iggy_SDK/JsonConfiguration/TopicResponseConverter.cs:136-157 | the writer calls for an object's members denote exactly that object, with no member lost or reordered |
| `Json.Utf8JsonWriter.WriteStartObject` | foreign/csharp/Iggy_SDK/JsonConfiguration/TopicResponseConverter.cs:136 | records one start-object call |
| `Json.Utf8JsonWriter.WriteNumber` | foreign/csharp/Iggy_SDK/JsonConfiguration/TopicResponseConverter.cs:138 | records one number property |
| `Json.Utf8JsonWriter.WriteString` | foreign/csharp/Iggy_SDK/JsonConfiguration/TopicResponseConverter.cs:139 | records one string property, or a null property for a null value |
| `Json.Utf8JsonWriter.WriteStartArray` | foreign/csharp/Iggy_SDK/JsonConfiguration/TopicResponseConverter.cs:147 | records one start-array property |
| `Json.Utf8JsonWriter.WriteRawValue` | foreign/csharp/Iggy_SDK/JsonConfiguration/TopicResponseConverter.cs:152 | records one raw value |
| `Json.Utf8JsonWriter.WriteEndArray` | foreign/csharp/Iggy_SDK/JsonConfiguration/TopicResponseConverter.cs:155 | records one end-array call |
| `Json.Utf8JsonWriter.WriteEndObject` | foreign/csharp/Iggy_SDK/JsonConfiguration/TopicResponseConverter.cs:157 | records one end-object call |
| `DotNet.Split` | foreign/csharp/Iggy_SDK/JsonConfiguration/TopicResponseConverter.cs:41 | `Split(' ')` always yields at least one part (what the parts are: the `Split` lemmas below) |
| `DotNet.ParseUInt64` | foreign/csharp/Iggy_SDK/JsonConfiguration/TopicResponseConverter.cs:42 | `ulong.Parse` fails only with FormatException or OverflowException, at the caller's key (what it accepts: `ParseDecimal`, `ParseTrailingNul`, `ParseWithoutDigits`) |
| `DotNet.WrapU64` | foreign/csharp/Iggy_SDK/JsonConfiguration/TopicResponseConverter.cs:46-49 | unchecked `ulong` arithmetic leaves values below 2^64 unchanged |
| `DotNet.SplitJoin` | foreign/csharp/Iggy_SDK/JsonConfiguration/TopicResponseConverter.cs:41 | `Split(' ')` loses nothing: joining the parts gives back the text, and no part contains a space |
| `DotNet.SplitPair` | foreign/csharp/Iggy_SDK/JsonConfiguration/TopicResponseConverter.cs:41 | "a b", where neither a nor b contains a space, splits into exactly [a, b] |
| `DotNet.SplitWithoutSeparator` | foreign/csharp/Iggy_SDK/JsonConfiguration/TopicResponseConverter.cs:41 | text without a space is its own single part |
| `DotNet.SplitAtFirst` | foreign/csharp/Iggy_SDK/JsonConfiguration/TopicResponseConverter.cs:41 | the first part ends at the first space |
| `DotNet.ParseDecimal` | foreign/csharp/Iggy_SDK/JsonConfiguration/TopicResponseConverter.cs:42 | `ulong.Parse` reads back every decimal below 2^64 |
| `DotNet.ParseTrailingNul` | foreign/csharp/Iggy_SDK/JsonConfiguration/TopicResponseConverter.cs:42 | NUL characters after the digits are accepted and do not change the value |
| `DotNet.ParseWithoutDigits` | foreign/csharp/Iggy_SDK/JsonConfiguration/TopicResponseConverter.cs:42 | text without a digit is a FormatException |
| `Commands.Code` | sdk/src/command.rs:49-132 | every code lies between 1 (ping) and 605; that the codes are distinct and agree with the dispatch is `CodesDistinct` and `RowsAgree` |
| `Commands.Name` | sdk/src/command.rs:49-132 | every name is non-empty; that the names are distinct is `NamesDistinct` |
| `Commands.CodeToKind` | sdk/src/command.rs:261-341 | only codes between 1 and 605 select a variant; `DispatchIsInverse` shows the selected variant carries that code |
| `Commands.NameFromCode` | sdk/src/command.rs:432-478 | the only error is InvalidCommand, and only codes between 1 and 605 have a name |
| `Commands.RowsAgree` | sdk/src/command.rs:49-132 | for every variant, the dispatch on its code selects it, its name leads back to it, and `get_name_from_code` names its code by its name |
| `Commands.DispatchIsInverse` | sdk/src/command.rs:261-341 | every code that `from_bytes` dispatches on is the code of the variant it selects |
| `Commands.CodesDistinct` | sdk/src/command.rs:49-132 | the 42 codes are pairwise distinct |
| `Commands.NamesDistinct` | sdk/src/command.rs:49-132 | the 42 names are pairwise distinct |
| `Commands.NameFromCodeAgrees` | sdk/src/command.rs:432-478 | `get_name_from_code` knows exactly the codes `from_bytes` knows, and names each by its variant's name; every other code is InvalidCommand |
| `Commands.NameFromCodeInjective` | sdk/src/command.rs:432-478 | two known codes have the same name only if they are the same code |
| `Commands.Frame` | sdk/src/command.rs:344-349 | a frame is four bytes longer than its payload; its first four bytes read back as the code and the rest is the payload |
| `Commands.BytesMut.WithCapacity` | sdk/src/command.rs:345 | a new buffer is empty |
| `Commands.BytesMut.PutU32Le` | sdk/src/command.rs:346 | appends the four little-endian bytes of the code |
| `Commands.BytesMut.PutSlice` | sdk/src/command.rs:347 | appends the payload bytes |
| `Commands.FrameBytes` | sdk/src/command.rs:344-349 | the helper `as_bytes` returns the code's four little-endian bytes followed by the payload |
| `Commands.UnframeFrame` | sdk/src/command.rs:344-349 | a frame is 4 + payload length bytes long; its first four bytes read back as the code, and the rest is the payload |
| `Commands.FrameUnframe` | sdk/src/command.rs:261-263 | any input of four bytes or more is the frame of its first four bytes' code and the rest |
| `Commands.AsBytes` | sdk/src/command.rs:184-259 | the output is four bytes longer than the encoded payload; its first four bytes read back as the variant's code and the rest is the encoded payload |
| `Commands.FromBytes` | sdk/src/command.rs:261-341 | a decoded command's variant carries the code in the first four bytes, and its payload is what that variant's decoder made of the rest; a code of no variant is InvalidCommand |
| `Commands.AsBytesLayout` | sdk/src/command.rs:184-259 | `as_bytes` is the variant's code in four little-endian bytes followed by the encoded payload |
| `Commands.FromBytesAsBytes` | sdk/src/command.rs:719-730 | `from_bytes(as_bytes(c)) == c` whenever the payload round-trips through its codec |
| `Commands.AsBytesFromBytes` | sdk/src/command.rs:261-341 | re-encoding a command that decoded successfully gives back the input bytes whenever the payload codec re-encodes what it decoded |
| `Commands.UnknownCode` | sdk/src/command.rs:339 | a code that belongs to no variant is InvalidCommand, both from `from_bytes` and from `get_name_from_code` |
| `Commands.KnownCode` | sdk/src/command.rs:264-338 | a known code hands the rest of the bytes to that variant's payload decoder and passes its error on unchanged |
| `Commands.Display` | sdk/src/command.rs:351-429 | the text starts with the variant's name; it is the bare name exactly for the eight payload-less variants, otherwise the name, `|` and the payload's own text |
| `Commands.DisplayStartsWithName` | sdk/src/command.rs:351-429 | every command prints as `get_name_from_code` of its code: the bare name for the eight payload-less variants, `name|payload` for all others |
| `Bytes.U32LeRoundTrip` | sdk/src/topics/get_topics.rs:31-34 | `u32::from_le_bytes` and `to_le_bytes` are inverse to each other |
| `Utf8.IsValid` | sdk/src/topics/get_topics.rs:35 | what `from_utf8` accepts; it has no contract of its own, and the two lemmas below state what it implies and admits |
| `Utf8.ValidStartsWithLead` | sdk/src/topics/get_topics.rs:35 | well-formed UTF-8 never starts with a continuation byte, 0xC0, 0xC1 or a byte above 0xF4 |
| `Utf8.AsciiIsValid` | sdk/src/topics/get_topics.rs:35 | every ASCII name is well-formed |
| `GetTopics.ParseRecords` | sdk/src/topics/get_topics.rs:30-46 | every topic parsed has a well-formed UTF-8 name whose length fits in 32 bits |
| `GetTopics.RecordFields` | sdk/src/topics/get_topics.rs:31-35 | a record holds id, partitions and name length at offsets 0, 4 and 8, the name at offset 12, and the next record at 12 + L |
| `GetTopics.ParseAt` | sdk/src/topics/get_topics.rs:31-41 | from a cursor position inside the response, parsing fails as truncated, fails as invalid UTF-8, or yields the record there followed by the records from position + 12 + L |
| `GetTopics.FirstRecord` | sdk/src/topics/get_topics.rs:31-41 | the first 12 + L bytes of a response are the record of the topic parsed from them |
| `GetTopics.ParseEncoded` | sdk/src/topics/get_topics.rs:30-46 | parsing the records of a list of topics gives back that list in order, one topic per record |
| `GetTopics.EncodeParsed` | sdk/src/topics/get_topics.rs:30-46 | every response that parses is exactly the encoding of the topics it parses to |
| `GetTopics.Decode` | sdk/src/topics/get_topics.rs:22-50 | an empty response is an empty list; a record that panics makes the whole response panic the same way; otherwise the topics are ascending by id and are exactly the parsed records |
| `GetTopics.EmptyResponse` | sdk/src/topics/get_topics.rs:23-25 | an empty response yields an empty list |
| `GetTopics.DecodeEncoded` | sdk/src/topics/get_topics.rs:22-50 | decoding the encoding of a list of topics gives that list sorted by id |
| `GetTopics.SortById` | sdk/src/topics/get_topics.rs:48 | the sort keeps the length of its input (ordering, permutation and stability: the lemmas below) |
| `GetTopics.InsertById` | sdk/src/topics/get_topics.rs:48 | one insertion step adds exactly one element |
| `GetTopics.SortByIdSorted` | sdk/src/topics/get_topics.rs:48 | the sort is ascending by id |
| `GetTopics.SortByIdPermutes` | sdk/src/topics/get_topics.rs:48 | the sort keeps exactly the topics it is given, none dropped or duplicated |
| `GetTopics.SortByIdStable` | sdk/src/topics/get_topics.rs:48 | the sort is stable: topics with equal ids keep their order |
| `GetTopics.DecodeSortsRecords` | sdk/src/topics/get_topics.rs:36-48 | a decoded response is ascending by id and holds exactly the response's records, with equal ids in wire order |
| `GetTopics.InsertSplit` | sdk/src/topics/get_topics.rs:48 | an insertion step puts the topic after the last element whose id is not greater than its own |
| `GetTopics.InsertInPlace` | sdk/src/topics/get_topics.rs:48 | shifting the greater elements of the sorted run one place right and dropping the topic into the gap is that insertion step; the elements after the run stay where they are |
| `GetTopics.SortInPlace` | sdk/src/topics/get_topics.rs:48 | the in-place sort leaves the array holding `SortById` of its old contents |
| `GetTopics.HandleResponse` | sdk/src/topics/get_topics.rs:22-50 | the cursor loop followed by the in-place sort returns exactly `Decode` of the response: the empty response as an empty list, a panic as its `Panic`, otherwise the records sorted by id |

## Left out

- Local-time conversion of `created_at` (TopicResponseConverter.cs lines 81 and 124). It
  depends on the machine's time zone, so topics and partitions keep the raw microsecond
  epoch. `DateTimeOffsetUtils.FromUnixTimeMicroSeconds` is not part of this model. Its
  failure on an instant it cannot represent is not modelled either: for every `u64` value of
  `created_at` the model reads successfully, while the source may throw there.
- `ToSnakeCase` is not part of this model. `KeyMapper.Key` is an explicit table of the
  snake-case keys.
- `JsonSerializer.Serialize(partition, options)` in `Write` and parsing JSON text into a
  `JsonDocument` are foreign calls. Partition serialisation is a function parameter. The
  model starts from a parsed value tree, and numbers keep only an integer-or-not distinction.
- Json.GetInteger: an integer literal is kept by its value only, so the literal `-0` given to
  an unsigned getter (`GetUInt16`, `GetUInt64`) is read as 0, where .NET throws
  FormatException.
- `Enum.Parse`'s other inputs are not modelled: numeric strings, surrounding white space and
  comma-separated flag lists. The members of `CompressionAlgorithm` are not part of this model
  and are taken to be `None` and `Gzip`. Case is folded for ASCII letters only.
- `UInt64.Parse` is modelled for the invariant culture with `NumberStyles.Integer`: white
  space, an optional sign, digits, white space, then trailing NUL characters. Other cultures
  are not modelled.
- `DotNet.Split`: its contract alone states only that there is at least one part. What it
  splits into is stated by the Split lemmas listed above.
- The per-command payload types and their `from_bytes`, `as_bytes` and `Display`
  implementations are not part of this model. A single payload type parameter and
  caller-supplied codec functions stand for them. The payload round trip is a hypothesis of
  `FromBytesAsBytes` and `AsBytesFromBytes`.
- `Commands.FromBytes` requires at least four bytes, because the source's slice `bytes[..4]`
  panics on shorter input.
- The `BytesMut` capacity hint and `freeze` have no observable effect and are not modelled.
- The `#[derive(EnumString)]` parsing of command names is not modelled.
- The async `get_topics` wrapper (get_topics.rs lines 10-19) is not modelled, because it
  sends over the network. Only `handle_response` is modelled.
- A panic in `handle_response` (a slice past the end of the response, or the `unwrap` of an
  invalid UTF-8 name) is modelled as an `Err` result of type `Panic`. Names are kept as their
  UTF-8 bytes, not converted to strings.
- `sort_by` is modelled by its result (a stable ascending sort by id, specified by
  `SortById`), and the in-place array method carries that out as insertion sort. It is not Rust's
  merge-sort algorithm.
- The remaining files of the repository are not part of this model: the server's message,
  system, log writer and persistence code, the network client and handler plumbing, the CLI,
  the examples and test runner, `get_user` and the transport and VSR stubs.
