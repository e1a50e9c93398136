/** The C# SDK's `TopicResponseConverter`: it reads a topic object of the server's HTTP
    API JSON into a `TopicResponse` (with its `PartitionContract`s) and writes a `TopicResponse`
    back out through a `Utf8JsonWriter`. */
module TopicResponseConverter {
  import opened Wrappers
  import opened Bytes
  import opened DotNet
  import opened Json
  import K = KeyMapper

  /** The compression algorithms a topic can name. */
  datatype CompressionAlgorithm = CompressionNone | Gzip

  /** The C# member name of an algorithm, the text `Enum.Parse` matches against. */
  function AlgorithmName(c: CompressionAlgorithm): string {
    match c
    case CompressionNone => "None"
    case Gzip => "Gzip"
  }

  /** One partition of a topic. `createdAt` is the wire's microsecond Unix time. */
  datatype PartitionContract = PartitionContract(
    id: i32,
    createdAt: u64,
    segmentsCount: i32,
    currentOffset: u64,
    messagesCount: u64,
    size: u64)

  /** A topic. `name` is None when the wire carries JSON null (C# then stores a null string);
      `partitions` is None when the wire has no partitions array. */
  datatype TopicResponse = TopicResponse(
    id: i32,
    name: Option<string>,
    size: u64,
    messageExpiry: u64,
    compressionAlgorithm: CompressionAlgorithm,
    createdAt: u64,
    messagesCount: u64,
    partitionsCount: i32,
    replicationFactor: u8,
    maxTopicSize: u64,
    partitions: Option<seq<PartitionContract>>)

  // ---------------------------------------------------------------- size quantities

  /** The units a size string can end in. They scale by powers of 1000, not 1024. */
  datatype SizeUnit = B | KB | MB | GB | TB

  function UnitName(u: SizeUnit): string {
    match u
    case B => "B"
    case KB => "KB"
    case MB => "MB"
    case GB => "GB"
    case TB => "TB"
  }

  function Scale(u: SizeUnit): nat {
    match u
    case B => 1
    case KB => 1_000
    case MB => 1_000_000
    case GB => 1_000_000_000
    case TB => 1_000_000_000_000
  }

  /** The arms of the unit switch: an exact, case-sensitive match. */
  function UnitOfName(s: string): (r: Option<SizeUnit>)
    ensures r.Some? ==> UnitName(r.value) == s
  {
    if s == "B" then Some(B)
    else if s == "KB" then Some(KB)
    else if s == "MB" then Some(MB)
    else if s == "GB" then Some(GB)
    else if s == "TB" then Some(TB)
    else None
  }

  /** Every unit is recognised by its own name. */
  lemma UnitRoundTrip(u: SizeUnit)
    ensures UnitOfName(UnitName(u)) == Some(u)
  {
  }

  /** The arms of the unit switch: the value times the unit's multiplier, in the unchecked
      (wrapping) 64-bit multiplication of C#. */
  function Unchecked(value: u64, u: SizeUnit): u64 {
    match u
    case B => value
    case KB => WrapU64(value * 1_000)
    case MB => WrapU64(value * 1_000_000)
    case GB => WrapU64(value * 1_000_000_000)
    case TB => WrapU64(value * 1_000_000_000_000)
  }

  lemma UncheckedIsWrappedProduct(value: u64, u: SizeUnit)
    ensures Unchecked(value, u) == WrapU64(value * Scale(u))
    ensures value * Scale(u) < U64Modulus ==> Unchecked(value, u) == value * Scale(u)
  {
  }

  /** The size of a topic or partition as the wire gives it: null is 0; otherwise the text is
      split on every space, the first part parsed as `ulong`, the second read as the unit, and
      the product taken in unchecked 64-bit arithmetic. */
  function ParseSize(text: Option<string>, site: string): (r: Result<u64, Exception>)
    ensures text.None? ==> r == Ok(0)
    ensures r.Ok? && text.Some? ==>
              var parts := Split(text.value, ' ');
              |parts| >= 2 && ParseUInt64(parts[0], site).Ok? && UnitOfName(parts[1]).Some?
    ensures r.Err? ==> r.error.site == site
  {
    match text
    case None => Ok(0)
    case Some(s) =>
      var parts := Split(s, ' ');
      var value :- ParseUInt64(parts[0], site);
      if |parts| < 2 then Err(IndexOutOfRange(site))
      else match UnitOfName(parts[1])
        case None => Err(InvalidEnumArgument(site))
        case Some(u) => Ok(Unchecked(value, u))
  }

  // ---------------------------------------------------------------- field readers

  /** `Enum.Parse<CompressionAlgorithm>(text, ignoreCase: true)`. */
  function ParseCompressionAlgorithm(text: Option<string>, site: string): (r: Result<CompressionAlgorithm, Exception>)
    ensures r.Ok? ==> text.Some? && EqualsIgnoreCase(text.value, AlgorithmName(r.value))
    ensures text.None? ==> r == Err(ArgumentNull(site))
    ensures text.Some? && r.Err? ==> r == Err(Argument(site))
  {
    match text
    case None => Err(ArgumentNull(site))
    case Some(s) =>
      if EqualsIgnoreCase(s, AlgorithmName(CompressionNone)) then Ok(CompressionNone)
      else if EqualsIgnoreCase(s, AlgorithmName(Gzip)) then Ok(Gzip)
      else Err(Argument(site))
  }

  /** The message_expiry switch: null is 0, a number is read as `ulong`, any other kind throws. */
  function DecodeMessageExpiry(v: Value, site: string): (r: Result<u64, Exception>)
    ensures r.Ok? <==> v.JNull? || (v.JInteger? && 0 <= v.i < U64Modulus)
    ensures v.JNull? ==> r == Ok(0)
    ensures v.JInteger? && r.Ok? ==> r.value == v.i
    ensures KindOf(v) != Null && KindOf(v) != Number ==> r == Err(InvalidEnumArgument(site))
  {
    match KindOf(v)
    case Null => Ok(0)
    case Number => GetUInt64(v, site)
    case _ => Err(InvalidEnumArgument(site))
  }

  /** The `(byte)` cast of the unchecked context: the low eight bits. */
  function NarrowToByte(x: u16): (r: u8)
    ensures x < 0x100 ==> r == x
  {
    x % 0x100
  }

  function ReadInt32(element: Value, f: K.Field): Result<i32, Exception> {
    var v :- GetProperty(element, K.Key(f));
    GetInt32(v, K.Key(f))
  }

  function ReadUInt16(element: Value, f: K.Field): Result<u16, Exception> {
    var v :- GetProperty(element, K.Key(f));
    GetUInt16(v, K.Key(f))
  }

  function ReadUInt64(element: Value, f: K.Field): Result<u64, Exception> {
    var v :- GetProperty(element, K.Key(f));
    GetUInt64(v, K.Key(f))
  }

  function ReadString(element: Value, f: K.Field): Result<Option<string>, Exception> {
    var v :- GetProperty(element, K.Key(f));
    GetString(v, K.Key(f))
  }

  /** The size block, the same for a topic and for a partition: a string or null, then parsed. */
  function ReadSize(element: Value): (r: Result<u64, Exception>)
    ensures r.Ok? ==> element.JObject? && Lookup(element.members, K.Key(K.Size)).Some?
    ensures element.JObject? && Lookup(element.members, K.Key(K.Size)) == Some(JNull) ==> r == Ok(0)
    ensures r.Err? ==> r.error.site == K.Key(K.Size)
  {
    var text :- ReadString(element, K.Size);
    ParseSize(text, K.Key(K.Size))
  }

  // ---------------------------------------------------------------- decoding

  /** One element of the partitions array, its properties read in source order. */
  function DecodePartition(element: Value): (r: Result<PartitionContract, Exception>)
    ensures !element.JObject? ==> r == Err(InvalidOperation(K.Key(K.Id)))
    ensures r.Ok? ==>
              && GetProperty(element, K.Key(K.Id)) == Ok(JInteger(r.value.id))
              && GetProperty(element, K.Key(K.CreatedAt)) == Ok(JInteger(r.value.createdAt))
              && GetProperty(element, K.Key(K.SegmentsCount)) == Ok(JInteger(r.value.segmentsCount))
              && GetProperty(element, K.Key(K.CurrentOffset)) == Ok(JInteger(r.value.currentOffset))
              && GetProperty(element, K.Key(K.MessagesCount)) == Ok(JInteger(r.value.messagesCount))
              && ReadSize(element) == Ok(r.value.size)
  {
    var id :- ReadInt32(element, K.Id);
    var createdAt :- ReadUInt64(element, K.CreatedAt);
    var segmentsCount :- ReadInt32(element, K.SegmentsCount);
    var currentOffset :- ReadUInt64(element, K.CurrentOffset);
    var size :- ReadSize(element);
    var messagesCount :- ReadUInt64(element, K.MessagesCount);
    Ok(PartitionContract(id, createdAt, segmentsCount, currentOffset, messagesCount, size))
  }

  /** The elements of the partitions array decoded in order; the first that fails ends the decode. */
  function DecodePartitions(items: seq<Value>): (r: Result<seq<PartitionContract>, Exception>)
    ensures r.Ok? <==> forall i :: 0 <= i < |items| ==> DecodePartition(items[i]).Ok?
    ensures r.Ok? ==> |r.value| == |items| &&
                      forall i :: 0 <= i < |items| ==> DecodePartition(items[i]) == Ok(r.value[i])
    ensures r.Err? ==> exists i :: 0 <= i < |items| && DecodePartition(items[i]) == Err(r.error) &&
                                   forall j :: 0 <= j < i ==> DecodePartition(items[j]).Ok?
  {
    if |items| == 0 then Ok([])
    else
      var first :- DecodePartition(items[0]);
      var rest :- DecodePartitions(items[1..]);
      Ok([first] + rest)
  }

  /** The partitions switch: a missing key (Undefined) or null is "no partitions", an array is
      decoded element by element, any other kind throws. */
  function DecodePartitionsProperty(v: Option<Value>, site: string): (r: Result<Option<seq<PartitionContract>>, Exception>)
    ensures (r.Ok? && r.value.None?) <==> (v.None? || v == Some(JNull))
    ensures r.Ok? && r.value.Some? ==>
              v.Some? && v.value.JArray? && |r.value.value| == |v.value.items| &&
              forall i :: 0 <= i < |v.value.items| ==> DecodePartition(v.value.items[i]) == Ok(r.value.value[i])
    ensures v.Some? && v.value.JArray? ==> (r.Ok? <==> DecodePartitions(v.value.items).Ok?)
    ensures v.Some? && !v.value.JNull? && !v.value.JArray? ==> r == Err(InvalidEnumArgument(site))
  {
    match v
    case None => Ok(None)
    case Some(JNull) => Ok(None)
    case Some(JArray(items)) =>
      var partitions :- DecodePartitions(items);
      Ok(Some(partitions))
    case Some(_) => Err(InvalidEnumArgument(site))
  }

  function ReadCompression(root: Value): Result<CompressionAlgorithm, Exception> {
    var text :- ReadString(root, K.CompressionAlgorithm);
    ParseCompressionAlgorithm(text, K.Key(K.CompressionAlgorithm))
  }

  function ReadMessageExpiry(root: Value): Result<u64, Exception> {
    var v :- GetProperty(root, K.Key(K.MessageExpiry));
    DecodeMessageExpiry(v, K.Key(K.MessageExpiry))
  }

  function ReadPartitions(root: Value): Result<Option<seq<PartitionContract>>, Exception> {
    var v :- TryGetProperty(root, K.Key(K.Partitions));
    DecodePartitionsProperty(v, K.Key(K.Partitions))
  }

  /** `Read`: the properties are looked up in the order of the source, and the first exception
      ends the decode without a topic. */
  function Read(root: Value): (r: Result<TopicResponse, Exception>)
    ensures r.Ok? ==> root.JObject?
    ensures !root.JObject? ==> r == Err(InvalidOperation(K.Key(K.Id)))
  {
    var id :- ReadInt32(root, K.Id);
    var createdAt :- ReadUInt64(root, K.CreatedAt);
    var name :- ReadString(root, K.Name);
    var compression :- ReadCompression(root);
    var size :- ReadSize(root);
    var replicationFactor :- ReadUInt16(root, K.ReplicationFactor);
    var maxTopicSize :- ReadUInt64(root, K.MaxTopicSize);
    var messageExpiry :- ReadMessageExpiry(root);
    var messagesCount :- ReadUInt64(root, K.MessagesCount);
    var partitionsCount :- ReadInt32(root, K.PartitionsCount);
    var partitions :- ReadPartitions(root);
    Ok(TopicResponse(id, name, size, messageExpiry, compression, createdAt, messagesCount,
                     partitionsCount, NarrowToByte(replicationFactor), maxTopicSize, partitions))
  }

  /** Decoding from position i: the element there fails, or its partition comes first. */
  lemma DecodePartitionsFrom(items: seq<Value>, i: nat)
    requires i < |items|
    ensures DecodePartition(items[i]).Err? ==> DecodePartitions(items[i..]) == Err(DecodePartition(items[i]).error)
    ensures DecodePartition(items[i]).Ok? ==>
              DecodePartitions(items[i..]) == Prepend([DecodePartition(items[i]).value], DecodePartitions(items[i + 1..]))
  {
    assert items[i..][0] == items[i] && items[i..][1..] == items[i + 1..];
  }

  /** `DeserializePartitions`: builds the list one element at a time. */
  method DeserializePartitions(items: seq<Value>) returns (r: Result<seq<PartitionContract>, Exception>)
    ensures r == DecodePartitions(items)
  {
    var partitions: seq<PartitionContract> := [];
    var i := 0;
    assert items[0..] == items;
    PrependNothing(DecodePartitions(items));
    while i < |items|
      invariant 0 <= i <= |items|
      invariant DecodePartitions(items) == Prepend(partitions, DecodePartitions(items[i..]))
    {
      DecodePartitionsFrom(items, i);
      var partition := DecodePartition(items[i]);
      if partition.Err? {
        return Err(partition.error);
      }
      PrependOneMore(partitions, partition.value, DecodePartitions(items[i + 1..]));
      partitions := partitions + [partition.value];
      i := i + 1;
    }
    assert partitions + [] == partitions;
    return Ok(partitions);
  }

  // ---------------------------------------------------------------- encoding

  /** The partitions in order, each serialised by the caller-supplied partition serialiser. */
  function EncodePartitions(partitions: seq<PartitionContract>, encodePartition: PartitionContract -> Value): (r: seq<Value>)
    ensures |r| == |partitions|
    ensures forall i :: 0 <= i < |partitions| ==> r[i] == encodePartition(partitions[i])
  {
    seq(|partitions|, i requires 0 <= i < |partitions| => encodePartition(partitions[i]))
  }

  function StringOrNull(s: Option<string>): Value {
    if s.Some? then JString(s.value) else JNull
  }

  /** The properties `Write` emits, in order: six scalars, then the partitions only when
      present. */
  function WrittenFields(t: TopicResponse): seq<K.Field> {
    ScalarFields() + OptionalFields(t)
  }

  function ScalarFields(): seq<K.Field> {
    [K.Id, K.Name, K.Size, K.MessageExpiry, K.MessagesCount, K.PartitionsCount]
  }

  function OptionalFields(t: TopicResponse): seq<K.Field> {
    if t.partitions.Some? then [K.Partitions] else []
  }

  /** The value `Write` gives a property: raw numbers, the name as a string or null, and the
      partitions as an array; properties it does not write have none (JNull here). */
  function WrittenValue(t: TopicResponse, f: K.Field, encodePartition: PartitionContract -> Value): Value {
    match f
    case Id => JInteger(t.id)
    case Name => StringOrNull(t.name)
    case Size => JInteger(t.size)
    case MessageExpiry => JInteger(t.messageExpiry)
    case MessagesCount => JInteger(t.messagesCount)
    case PartitionsCount => JInteger(t.partitionsCount)
    case Partitions => if t.partitions.Some? then JArray(EncodePartitions(t.partitions.value, encodePartition)) else JNull
    case _ => JNull
  }

  /** The members for a list of properties, each under its key. */
  function FieldMembers(fields: seq<K.Field>, t: TopicResponse, encodePartition: PartitionContract -> Value): (r: seq<(string, Value)>)
    ensures |r| == |fields|
  {
    seq(|fields|, i requires 0 <= i < |fields| => (K.Key(fields[i]), WrittenValue(t, fields[i], encodePartition)))
  }

  /** The members `Write` produces. */
  function EncodeTopic(t: TopicResponse, encodePartition: PartitionContract -> Value): (r: seq<(string, Value)>)
    ensures |r| == if t.partitions.Some? then 7 else 6
    ensures r[..6] == ScalarMembers(t)
    ensures t.partitions.Some? ==> r[6] == (K.Key(K.Partitions), JArray(EncodePartitions(t.partitions.value, encodePartition)))
  {
    FieldMembersConcat(ScalarFields(), OptionalFields(t), t, encodePartition);
    ScalarFieldMembers(t, encodePartition);
    FieldMembers(WrittenFields(t), t, encodePartition)
  }

  /** The writer calls for the six scalar members. */
  function ScalarTokens(t: TopicResponse): seq<Token> {
    [ NumberProperty(K.Key(K.Id), t.id),
      if t.name.Some? then StringProperty(K.Key(K.Name), t.name.value) else NullProperty(K.Key(K.Name)),
      NumberProperty(K.Key(K.Size), t.size),
      NumberProperty(K.Key(K.MessageExpiry), t.messageExpiry),
      NumberProperty(K.Key(K.MessagesCount), t.messagesCount),
      NumberProperty(K.Key(K.PartitionsCount), t.partitionsCount) ]
  }

  /** The writer calls for the partitions member, when there is one. */
  function PartitionsTokens(t: TopicResponse, encodePartition: PartitionContract -> Value): seq<Token> {
    if t.partitions.Some?
    then [StartArray(K.Key(K.Partitions))] + RawValues(EncodePartitions(t.partitions.value, encodePartition)) + [EndArray]
    else []
  }

  lemma FieldMembersConcat(a: seq<K.Field>, b: seq<K.Field>, t: TopicResponse, encodePartition: PartitionContract -> Value)
    ensures FieldMembers(a + b, t, encodePartition) == FieldMembers(a, t, encodePartition) + FieldMembers(b, t, encodePartition)
  {
  }

  /** The six scalar members, one by one. */
  function ScalarMembers(t: TopicResponse): seq<(string, Value)> {
    [(K.Key(K.Id), JInteger(t.id))] + [(K.Key(K.Name), StringOrNull(t.name))] + [(K.Key(K.Size), JInteger(t.size))] +
    [(K.Key(K.MessageExpiry), JInteger(t.messageExpiry))] + [(K.Key(K.MessagesCount), JInteger(t.messagesCount))] +
    [(K.Key(K.PartitionsCount), JInteger(t.partitionsCount))]
  }

  lemma ScalarFieldMembers(t: TopicResponse, encodePartition: PartitionContract -> Value)
    ensures FieldMembers(ScalarFields(), t, encodePartition) == ScalarMembers(t)
  {
  }

  lemma ScalarMembersTokens(t: TopicResponse)
    ensures MembersTokens(ScalarMembers(t)) == ScalarTokens(t)
  {
    var s0 := [(K.Key(K.Id), JInteger(t.id))];
    var s1 := [(K.Key(K.Name), StringOrNull(t.name))];
    var s2 := [(K.Key(K.Size), JInteger(t.size))];
    var s3 := [(K.Key(K.MessageExpiry), JInteger(t.messageExpiry))];
    var s4 := [(K.Key(K.MessagesCount), JInteger(t.messagesCount))];
    var s5 := [(K.Key(K.PartitionsCount), JInteger(t.partitionsCount))];
    MembersTokensConcat(s0 + s1 + s2 + s3 + s4, s5);
    MembersTokensConcat(s0 + s1 + s2 + s3, s4);
    MembersTokensConcat(s0 + s1 + s2, s3);
    MembersTokensConcat(s0 + s1, s2);
    MembersTokensConcat(s0, s1);
    MembersTokensOne(s0[0]);
    MembersTokensOne(s1[0]);
    MembersTokensOne(s2[0]);
    MembersTokensOne(s3[0]);
    MembersTokensOne(s4[0]);
    MembersTokensOne(s5[0]);
  }

  lemma OptionalMembersTokens(t: TopicResponse, encodePartition: PartitionContract -> Value)
    ensures MembersTokens(FieldMembers(OptionalFields(t), t, encodePartition)) == PartitionsTokens(t, encodePartition)
  {
    var m := FieldMembers(OptionalFields(t), t, encodePartition);
    if t.partitions.Some? {
      assert m == [m[0]];
      MembersTokensOne(m[0]);
    }
  }

  lemma EncodeTopicTokens(t: TopicResponse, encodePartition: PartitionContract -> Value)
    ensures ObjectTokens(EncodeTopic(t, encodePartition)) ==
            [StartObject] + ScalarTokens(t) + PartitionsTokens(t, encodePartition) + [EndObject]
  {
    FieldMembersConcat(ScalarFields(), OptionalFields(t), t, encodePartition);
    MembersTokensConcat(FieldMembers(ScalarFields(), t, encodePartition), FieldMembers(OptionalFields(t), t, encodePartition));
    ScalarFieldMembers(t, encodePartition);
    ScalarMembersTokens(t);
    OptionalMembersTokens(t, encodePartition);
  }

  /** Lines 138-143 of `Write`: the six scalar properties. */
  method WriteScalars(writer: Utf8JsonWriter, value: TopicResponse)
    modifies writer
    ensures writer.tokens == old(writer.tokens) + ScalarTokens(value)
  {
    writer.WriteNumber(K.Key(K.Id), value.id);
    writer.WriteString(K.Key(K.Name), value.name);
    writer.WriteNumber(K.Key(K.Size), value.size);
    writer.WriteNumber(K.Key(K.MessageExpiry), value.messageExpiry);
    writer.WriteNumber(K.Key(K.MessagesCount), value.messagesCount);
    writer.WriteNumber(K.Key(K.PartitionsCount), value.partitionsCount);
  }

  /** Lines 145-156 of `Write`: the partitions array, one raw value per partition, in order. */
  method WritePartitions(writer: Utf8JsonWriter, value: TopicResponse, encodePartition: PartitionContract -> Value)
    modifies writer
    ensures writer.tokens == old(writer.tokens) + PartitionsTokens(value, encodePartition)
  {
    if value.partitions.Some? {
      var partitions := value.partitions.value;
      ghost var encoded := EncodePartitions(partitions, encodePartition);
      writer.WriteStartArray(K.Key(K.Partitions));
      ghost var start := writer.tokens;
      var i := 0;
      while i < |partitions|
        invariant 0 <= i <= |partitions|
        invariant writer.tokens == start + RawValues(encoded[..i])
      {
        writer.WriteRawValue(encodePartition(partitions[i]));
        assert encoded[..i + 1] == encoded[..i] + [encoded[i]];
        RawValuesSnoc(encoded[..i], encoded[i]);
        i := i + 1;
      }
      writer.WriteEndArray();
      assert encoded[..i] == encoded;
    }
  }

  /** `Write`: drives the writer call by call; what it writes is the object `EncodeTopic` describes. */
  method Write(writer: Utf8JsonWriter, value: TopicResponse, encodePartition: PartitionContract -> Value)
    modifies writer
    ensures writer.tokens == old(writer.tokens) + ObjectTokens(EncodeTopic(value, encodePartition))
  {
    writer.WriteStartObject();
    WriteScalars(writer, value);
    WritePartitions(writer, value, encodePartition);
    writer.WriteEndObject();
    EncodeTopicTokens(value, encodePartition);
  }
}
