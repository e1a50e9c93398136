/** What the topic converter promises: how size strings, the tri-state fields and the
    compression name decode, what a successful `Read` says about the object it read, and
    what `Write` leaves out. */
module TopicResponseProperties {
  import opened Wrappers
  import opened Bytes
  import opened DotNet
  import opened Json
  import K = KeyMapper
  import opened TopicResponseConverter

  // ---------------------------------------------------------------- size strings

  /** "<n> <unit>" is n times the unit's decimal multiplier, in wrapping 64-bit arithmetic;
      exactly n times the multiplier whenever that fits. The same parser serves the topic
      and every partition. */
  lemma SizeOfQuantity(n: nat, u: SizeUnit, site: string)
    requires n < U64Modulus
    ensures ParseSize(Some(Decimal(n) + " " + UnitName(u)), site) == Ok(Unchecked(n, u))
  {
    assert ParseSize(Some(Decimal(n) + " " + UnitName(u)), site) == Ok(Unchecked(n, u)) by {
      var digits := Decimal(n);
      DecimalWithout(n, ' ');
      assert ' ' !in UnitName(u);
      SplitPair(digits, UnitName(u), ' ');
      assert digits + " " + UnitName(u) == digits + [' '] + UnitName(u);
      ParseDecimal(n, site);
      UnitRoundTrip(u);
    }
  }

  /** A unit outside B, KB, MB, GB and TB is an InvalidEnumArgumentException. The unit is
      matched exactly, so "kb" is rejected. */
  lemma SizeUnknownUnit(n: nat, unit: string, site: string)
    requires n < U64Modulus
    requires ' ' !in unit
    requires unit !in {"B", "KB", "MB", "GB", "TB"}
    ensures ParseSize(Some(Decimal(n) + " " + unit), site) == Err(InvalidEnumArgument(site))
  {
    var digits := Decimal(n);
    DecimalWithout(n, ' ');
    SplitPair(digits, unit, ' ');
    assert digits + " " + unit == digits + [' '] + unit;
    ParseDecimal(n, site);
  }

  /** Text without a space has no second part: it fails in `ulong.Parse` when that fails,
      and otherwise when the unit is read, with an IndexOutOfRangeException. */
  lemma SizeWithoutSeparator(text: string, site: string)
    requires ' ' !in text
    ensures ParseSize(Some(text), site).Err?
    ensures ParseUInt64(text, site).Err? ==> ParseSize(Some(text), site) == ParseUInt64(text, site).PropagateFailure()
    ensures ParseUInt64(text, site).Ok? ==> ParseSize(Some(text), site) == Err(IndexOutOfRange(site))
  {
    SplitWithoutSeparator(text, ' ');
  }

  /** A number that `ulong.Parse` rejects is rejected with its exception, whatever the unit. */
  lemma SizeBadNumber(number: string, unit: string, site: string)
    requires ' ' !in number
    requires ParseUInt64(number, site).Err?
    ensures ParseSize(Some(number + " " + unit), site) == Err(ParseUInt64(number, site).error)
  {
    SplitAtFirst(number, unit, ' ');
    assert number + " " + unit == number + [' '] + unit;
  }

  /** In particular a size with no digit in front of the space is a FormatException. */
  lemma SizeNotNumeric(number: string, unit: string, site: string)
    requires forall i :: 0 <= i < |number| ==> !IsDigit(number[i]) && number[i] != ' '
    ensures ParseSize(Some(number + " " + unit), site) == Err(Format(site))
  {
    ParseWithoutDigits(number, site);
    SizeBadNumber(number, unit, site);
  }

  /** "10 MB" is ten million bytes. */
  lemma TenMegabytes(site: string)
    ensures ParseSize(Some("10 MB"), site) == Ok(10_000_000)
  {
    assert Decimal(1) == "1";
    assert Decimal(10) == Decimal(1) + "0";
    assert Decimal(10) + " " + UnitName(MB) == "10 MB";
    SizeOfQuantity(10, MB, site);
  }

  // ---------------------------------------------------------------- compression algorithm

  /** `Enum.Parse(text, ignoreCase: true)` yields an algorithm exactly when the text is its
      name up to case; anything else is an ArgumentException and null an
      ArgumentNullException. */
  lemma CompressionIgnoresCase(text: string, c: CompressionAlgorithm, site: string)
    ensures ParseCompressionAlgorithm(Some(text), site) == Ok(c) <==> EqualsIgnoreCase(text, AlgorithmName(c))
    ensures ParseCompressionAlgorithm(Some(text), site).Err? <==>
              forall a: CompressionAlgorithm :: !EqualsIgnoreCase(text, AlgorithmName(a))
    ensures ParseCompressionAlgorithm(Some(text), site).Err? ==> ParseCompressionAlgorithm(Some(text), site) == Err(Argument(site))
    ensures ParseCompressionAlgorithm(None, site) == Err(ArgumentNull(site))
  {
    assert UpperAsciiString("None") == "NONE";
    assert UpperAsciiString("Gzip") == "GZIP";
  }

  // ---------------------------------------------------------------- what a successful Read saw

  /** The value an object holds under the key of `f`, as `GetProperty` finds it. */
  function WireValue(root: Value, f: K.Field): Option<Value> {
    if root.JObject? then Lookup(root.members, K.Key(f)) else None
  }

  /** A successful `Read` passed every one of its steps, and the topic is built from them. */
  lemma ReadStages(root: Value)
    requires Read(root).Ok?
    ensures ReadInt32(root, K.Id).Ok? && ReadUInt64(root, K.CreatedAt).Ok? && ReadString(root, K.Name).Ok?
    ensures ReadCompression(root).Ok? && ReadSize(root).Ok?
    ensures ReadUInt16(root, K.ReplicationFactor).Ok? && ReadUInt64(root, K.MaxTopicSize).Ok?
    ensures ReadMessageExpiry(root).Ok? && ReadUInt64(root, K.MessagesCount).Ok?
    ensures ReadInt32(root, K.PartitionsCount).Ok? && ReadPartitions(root).Ok?
    ensures Read(root).value ==
      TopicResponse(ReadInt32(root, K.Id).value, ReadString(root, K.Name).value, ReadSize(root).value,
                    ReadMessageExpiry(root).value, ReadCompression(root).value, ReadUInt64(root, K.CreatedAt).value,
                    ReadUInt64(root, K.MessagesCount).value, ReadInt32(root, K.PartitionsCount).value,
                    NarrowToByte(ReadUInt16(root, K.ReplicationFactor).value), ReadUInt64(root, K.MaxTopicSize).value,
                    ReadPartitions(root).value)
  {
  }

  /** Conversely, when every step succeeds `Read` produces the topic built from their results:
      no fault arises anywhere else. */
  lemma ReadFromStages(root: Value)
    requires ReadInt32(root, K.Id).Ok? && ReadUInt64(root, K.CreatedAt).Ok? && ReadString(root, K.Name).Ok?
    requires ReadCompression(root).Ok? && ReadSize(root).Ok?
    requires ReadUInt16(root, K.ReplicationFactor).Ok? && ReadUInt64(root, K.MaxTopicSize).Ok?
    requires ReadMessageExpiry(root).Ok? && ReadUInt64(root, K.MessagesCount).Ok?
    requires ReadInt32(root, K.PartitionsCount).Ok? && ReadPartitions(root).Ok?
    ensures Read(root) ==
      Ok(TopicResponse(ReadInt32(root, K.Id).value, ReadString(root, K.Name).value, ReadSize(root).value,
                       ReadMessageExpiry(root).value, ReadCompression(root).value, ReadUInt64(root, K.CreatedAt).value,
                       ReadUInt64(root, K.MessagesCount).value, ReadInt32(root, K.PartitionsCount).value,
                       NarrowToByte(ReadUInt16(root, K.ReplicationFactor).value), ReadUInt64(root, K.MaxTopicSize).value,
                       ReadPartitions(root).value))
  {
  }

  /** A topic is read only from an object, and its plain numbers and its name are the wire's
      own values. */
  lemma ReadSawScalars(root: Value)
    requires Read(root).Ok?
    ensures root.JObject?
    ensures var t := Read(root).value;
      && WireValue(root, K.Id) == Some(JInteger(t.id))
      && WireValue(root, K.CreatedAt) == Some(JInteger(t.createdAt))
      && WireValue(root, K.Name) == Some(StringOrNull(t.name))
      && WireValue(root, K.MaxTopicSize) == Some(JInteger(t.maxTopicSize))
      && WireValue(root, K.MessagesCount) == Some(JInteger(t.messagesCount))
      && WireValue(root, K.PartitionsCount) == Some(JInteger(t.partitionsCount))
  {
    ReadStages(root);
  }

  /** The size on the wire was null and the topic's size is 0, or it was a string that
      `ParseSize` turns into the topic's size. */
  lemma ReadSawSize(root: Value)
    requires Read(root).Ok?
    ensures var t := Read(root).value; var v := WireValue(root, K.Size);
      v.Some? && ((v.value == JNull && t.size == 0) ||
                  (v.value.JString? && ParseSize(Some(v.value.s), K.Key(K.Size)) == Ok(t.size)))
  {
    ReadStages(root);
  }

  /** The compression name on the wire is the algorithm's name up to case. */
  lemma ReadSawCompression(root: Value)
    requires Read(root).Ok?
    ensures var t := Read(root).value; var v := WireValue(root, K.CompressionAlgorithm);
      v.Some? && v.value.JString? && EqualsIgnoreCase(v.value.s, AlgorithmName(t.compressionAlgorithm))
  {
    ReadStages(root);
    var text := ReadString(root, K.CompressionAlgorithm).value;
    CompressionIgnoresCase(text.value, Read(root).value.compressionAlgorithm, K.Key(K.CompressionAlgorithm));
  }

  /** The replication factor was a 16-bit number, and the topic keeps its low byte: all of it
      when it is at most 255. */
  lemma ReadSawReplicationFactor(root: Value)
    requires Read(root).Ok?
    ensures var t := Read(root).value; var v := WireValue(root, K.ReplicationFactor);
      && v.Some? && v.value.JInteger? && 0 <= v.value.i < 0x1_0000
      && t.replicationFactor as int == v.value.i % 0x100
      && (v.value.i <= 255 ==> t.replicationFactor as int == v.value.i)
  {
    ReadStages(root);
  }

  /** The message expiry was null and is 0, or it was the number the topic holds. */
  lemma ReadSawMessageExpiry(root: Value)
    requires Read(root).Ok?
    ensures var t := Read(root).value; var v := WireValue(root, K.MessageExpiry);
      (v == Some(JNull) && t.messageExpiry == 0) || v == Some(JInteger(t.messageExpiry))
  {
    ReadStages(root);
  }

  /** The topic has no partitions exactly when the key is absent or null; otherwise the wire
      held an array of as many elements, each decoding to the partition at its position. */
  lemma ReadSawPartitions(root: Value)
    requires Read(root).Ok?
    ensures var t := Read(root).value; var v := WireValue(root, K.Partitions);
      && (t.partitions.None? <==> v.None? || v == Some(JNull))
      && (t.partitions.Some? ==>
            v.Some? && v.value.JArray? && |v.value.items| == |t.partitions.value| &&
            forall i :: 0 <= i < |v.value.items| ==> DecodePartition(v.value.items[i]) == Ok(t.partitions.value[i]))
  {
    ReadStages(root);
  }

  // ---------------------------------------------------------------- what Read depends on

  /** Anything but an object fails at the first lookup, that of "id". */
  lemma ReadNeedsObject(root: Value)
    requires !root.JObject?
    ensures Read(root) == Err(InvalidOperation(K.Key(K.Id)))
  {
  }

  /** Every key but partitions is required: without it there is no topic. */
  lemma ReadNeedsKey(root: Value, f: K.Field)
    requires root.JObject?
    requires f in {K.Id, K.CreatedAt, K.Name, K.CompressionAlgorithm, K.Size, K.ReplicationFactor,
                   K.MaxTopicSize, K.MessageExpiry, K.MessagesCount, K.PartitionsCount}
    requires Lookup(root.members, K.Key(f)).None?
    ensures Read(root).Err?
  {
    if Read(root).Ok? {
      ReadSawScalars(root);
      ReadSawSize(root);
      ReadSawCompression(root);
      ReadSawReplicationFactor(root);
      ReadSawMessageExpiry(root);
    }
  }

  /** Each step of `Read` depends only on the lookup of its own key. */
  lemma StagesLookOnlyAtTheirKeys(a: Value, b: Value, f: K.Field)
    requires a.JObject? && b.JObject?
    requires Lookup(a.members, K.Key(f)) == Lookup(b.members, K.Key(f))
    ensures ReadInt32(a, f) == ReadInt32(b, f) && ReadUInt16(a, f) == ReadUInt16(b, f)
    ensures ReadUInt64(a, f) == ReadUInt64(b, f) && ReadString(a, f) == ReadString(b, f)
    ensures f == K.Size ==> ReadSize(a) == ReadSize(b)
    ensures f == K.CompressionAlgorithm ==> ReadCompression(a) == ReadCompression(b)
    ensures f == K.MessageExpiry ==> ReadMessageExpiry(a) == ReadMessageExpiry(b)
    ensures f == K.Partitions ==> ReadPartitions(a) == ReadPartitions(b)
  {
    assert GetProperty(a, K.Key(f)) == GetProperty(b, K.Key(f));
  }

  /** The properties `Read` looks up, in the order it looks them up. */
  function ReadFields(): seq<K.Field> {
    [K.Id, K.CreatedAt, K.Name, K.CompressionAlgorithm, K.Size, K.ReplicationFactor, K.MaxTopicSize,
     K.MessageExpiry, K.MessagesCount, K.PartitionsCount, K.Partitions]
  }

  /** The results of `Read`'s steps, combined as `Read` combines them: the first failure is the
      result, otherwise the topic built from all of them. */
  function CombineStages(id: Result<i32, Exception>, createdAt: Result<u64, Exception>,
                         name: Result<Option<string>, Exception>, compression: Result<CompressionAlgorithm, Exception>,
                         size: Result<u64, Exception>, replicationFactor: Result<u16, Exception>,
                         maxTopicSize: Result<u64, Exception>, messageExpiry: Result<u64, Exception>,
                         messagesCount: Result<u64, Exception>, partitionsCount: Result<i32, Exception>,
                         partitions: Result<Option<seq<PartitionContract>>, Exception>): Result<TopicResponse, Exception>
  {
    var id :- id;
    var createdAt :- createdAt;
    var name :- name;
    var compression :- compression;
    var size :- size;
    var replicationFactor :- replicationFactor;
    var maxTopicSize :- maxTopicSize;
    var messageExpiry :- messageExpiry;
    var messagesCount :- messagesCount;
    var partitionsCount :- partitionsCount;
    var partitions :- partitions;
    Ok(TopicResponse(id, name, size, messageExpiry, compression, createdAt, messagesCount,
                     partitionsCount, NarrowToByte(replicationFactor), maxTopicSize, partitions))
  }

  lemma ReadCombinesStages(root: Value)
    ensures Read(root) ==
      CombineStages(ReadInt32(root, K.Id), ReadUInt64(root, K.CreatedAt), ReadString(root, K.Name),
                    ReadCompression(root), ReadSize(root), ReadUInt16(root, K.ReplicationFactor),
                    ReadUInt64(root, K.MaxTopicSize), ReadMessageExpiry(root), ReadUInt64(root, K.MessagesCount),
                    ReadInt32(root, K.PartitionsCount), ReadPartitions(root))
  {
  }

  /** The steps of `Read`, key by key: objects that agree on each key `Read` looks up read alike. */
  lemma ReadAgreesKeyByKey(a: Value, b: Value)
    requires a.JObject? && b.JObject?
    requires Lookup(a.members, K.Key(K.Id)) == Lookup(b.members, K.Key(K.Id))
    requires Lookup(a.members, K.Key(K.CreatedAt)) == Lookup(b.members, K.Key(K.CreatedAt))
    requires Lookup(a.members, K.Key(K.Name)) == Lookup(b.members, K.Key(K.Name))
    requires Lookup(a.members, K.Key(K.CompressionAlgorithm)) == Lookup(b.members, K.Key(K.CompressionAlgorithm))
    requires Lookup(a.members, K.Key(K.Size)) == Lookup(b.members, K.Key(K.Size))
    requires Lookup(a.members, K.Key(K.ReplicationFactor)) == Lookup(b.members, K.Key(K.ReplicationFactor))
    requires Lookup(a.members, K.Key(K.MaxTopicSize)) == Lookup(b.members, K.Key(K.MaxTopicSize))
    requires Lookup(a.members, K.Key(K.MessageExpiry)) == Lookup(b.members, K.Key(K.MessageExpiry))
    requires Lookup(a.members, K.Key(K.MessagesCount)) == Lookup(b.members, K.Key(K.MessagesCount))
    requires Lookup(a.members, K.Key(K.PartitionsCount)) == Lookup(b.members, K.Key(K.PartitionsCount))
    requires Lookup(a.members, K.Key(K.Partitions)) == Lookup(b.members, K.Key(K.Partitions))
    ensures Read(a) == Read(b)
  {
    StagesLookOnlyAtTheirKeys(a, b, K.Id);
    StagesLookOnlyAtTheirKeys(a, b, K.CreatedAt);
    StagesLookOnlyAtTheirKeys(a, b, K.Name);
    StagesLookOnlyAtTheirKeys(a, b, K.CompressionAlgorithm);
    StagesLookOnlyAtTheirKeys(a, b, K.Size);
    StagesLookOnlyAtTheirKeys(a, b, K.ReplicationFactor);
    StagesLookOnlyAtTheirKeys(a, b, K.MaxTopicSize);
    StagesLookOnlyAtTheirKeys(a, b, K.MessageExpiry);
    StagesLookOnlyAtTheirKeys(a, b, K.MessagesCount);
    StagesLookOnlyAtTheirKeys(a, b, K.PartitionsCount);
    StagesLookOnlyAtTheirKeys(a, b, K.Partitions);
    ReadCombinesStages(a);
    ReadCombinesStages(b);
  }

  /** `Read` looks only at the keys it looks up: two objects that agree on them read alike. */
  lemma ReadLooksOnlyAtItsKeys(a: Value, b: Value)
    requires a.JObject? && b.JObject?
    requires forall f :: f in ReadFields() ==> Lookup(a.members, K.Key(f)) == Lookup(b.members, K.Key(f))
    ensures Read(a) == Read(b)
  {
    assert K.Id in ReadFields() && K.CreatedAt in ReadFields() && K.Name in ReadFields();
    assert K.CompressionAlgorithm in ReadFields() && K.Size in ReadFields() && K.ReplicationFactor in ReadFields();
    assert K.MaxTopicSize in ReadFields() && K.MessageExpiry in ReadFields() && K.MessagesCount in ReadFields();
    assert K.PartitionsCount in ReadFields() && K.Partitions in ReadFields();
    ReadAgreesKeyByKey(a, b);
  }

  /** Adding a member under a key that `Read` does not look up changes nothing. */
  lemma ReadIgnoresUnknownKey(members: seq<(string, Value)>, key: string, v: Value)
    requires forall f :: f in ReadFields() ==> K.Key(f) != key
    ensures Read(JObject(members + [(key, v)])) == Read(JObject(members))
  {
    var extended := members + [(key, v)];
    assert extended[..|extended| - 1] == members;
    ReadLooksOnlyAtItsKeys(JObject(extended), JObject(members));
  }

  /** The partition properties are among the keys a topic's `Read` ignores. */
  lemma ReadIgnoresPartitionKeys()
    ensures forall f :: f in ReadFields() ==> K.Key(f) != K.Key(K.SegmentsCount) && K.Key(f) != K.Key(K.CurrentOffset)
  {
    forall f | f in ReadFields()
      ensures K.Key(f) != K.Key(K.SegmentsCount) && K.Key(f) != K.Key(K.CurrentOffset)
    {
      K.KeyInjective(f, K.SegmentsCount);
      K.KeyInjective(f, K.CurrentOffset);
    }
  }

  // ---------------------------------------------------------------- a worked example

  /** A complete topic object with no partitions array and a null message expiry. */
  function OrdersMembers(): seq<(string, Value)> {
    [("id", JInteger(1))] +
    [("created_at", JInteger(1_700_000_000_000_000))] +
    [("name", JString("orders"))] +
    [("compression_algorithm", JString("none"))] +
    [("size", JString("10 MB"))] +
    [("replication_factor", JInteger(1))] +
    [("max_topic_size", JInteger(0))] +
    [("message_expiry", JNull)] +
    [("messages_count", JInteger(0))] +
    [("partitions_count", JInteger(0))]
  }

  function OrdersTopic(): Value {
    JObject(OrdersMembers())
  }

  /** What the example holds under a key: the value of its last member with that key. */
  lemma OrdersLookup(key: string)
    ensures Lookup(OrdersMembers(), key) ==
      if key == "partitions_count" then Some(JInteger(0))
      else if key == "messages_count" then Some(JInteger(0))
      else if key == "message_expiry" then Some(JNull)
      else if key == "max_topic_size" then Some(JInteger(0))
      else if key == "replication_factor" then Some(JInteger(1))
      else if key == "size" then Some(JString("10 MB"))
      else if key == "compression_algorithm" then Some(JString("none"))
      else if key == "name" then Some(JString("orders"))
      else if key == "created_at" then Some(JInteger(1_700_000_000_000_000))
      else if key == "id" then Some(JInteger(1))
      else None
  {
    var m0 := [("id", JInteger(1))];
    LookupSnoc([], m0[0], key);
    assert [] + [m0[0]] == m0;
    var m1 := m0 + [("created_at", JInteger(1_700_000_000_000_000))];
    LookupSnoc(m0, ("created_at", JInteger(1_700_000_000_000_000)), key);
    var m2 := m1 + [("name", JString("orders"))];
    LookupSnoc(m1, ("name", JString("orders")), key);
    var m3 := m2 + [("compression_algorithm", JString("none"))];
    LookupSnoc(m2, ("compression_algorithm", JString("none")), key);
    var m4 := m3 + [("size", JString("10 MB"))];
    LookupSnoc(m3, ("size", JString("10 MB")), key);
    var m5 := m4 + [("replication_factor", JInteger(1))];
    LookupSnoc(m4, ("replication_factor", JInteger(1)), key);
    var m6 := m5 + [("max_topic_size", JInteger(0))];
    LookupSnoc(m5, ("max_topic_size", JInteger(0)), key);
    var m7 := m6 + [("message_expiry", JNull)];
    LookupSnoc(m6, ("message_expiry", JNull), key);
    var m8 := m7 + [("messages_count", JInteger(0))];
    LookupSnoc(m7, ("messages_count", JInteger(0)), key);
    var m9 := m8 + [("partitions_count", JInteger(0))];
    LookupSnoc(m8, ("partitions_count", JInteger(0)), key);
    assert m9 == OrdersMembers();
  }

  lemma OrdersId()
    ensures ReadInt32(OrdersTopic(), K.Id) == Ok(1)
  {
    OrdersLookup(K.Key(K.Id));
  }

  lemma OrdersCreatedAt()
    ensures ReadUInt64(OrdersTopic(), K.CreatedAt) == Ok(1_700_000_000_000_000)
  {
    OrdersLookup(K.Key(K.CreatedAt));
  }

  lemma OrdersName()
    ensures ReadString(OrdersTopic(), K.Name) == Ok(Some("orders"))
  {
    OrdersLookup(K.Key(K.Name));
  }

  lemma OrdersCompressionText()
    ensures ReadString(OrdersTopic(), K.CompressionAlgorithm) == Ok(Some("none"))
  {
    OrdersLookup(K.Key(K.CompressionAlgorithm));
  }

  lemma OrdersCompression()
    ensures ReadCompression(OrdersTopic()) == Ok(CompressionNone)
  {
    OrdersCompressionText();
    CompressionIgnoresCase("none", CompressionNone, K.Key(K.CompressionAlgorithm));
    assert UpperAsciiString("none") == "NONE";
    assert UpperAsciiString("None") == "NONE";
  }

  lemma OrdersSizeText()
    ensures ReadString(OrdersTopic(), K.Size) == Ok(Some("10 MB"))
  {
    OrdersLookup(K.Key(K.Size));
  }

  lemma OrdersSize()
    ensures ReadSize(OrdersTopic()) == Ok(10_000_000)
  {
    OrdersSizeText();
    TenMegabytes(K.Key(K.Size));
  }

  lemma OrdersReplicationFactor()
    ensures ReadUInt16(OrdersTopic(), K.ReplicationFactor) == Ok(1)
  {
    OrdersLookup(K.Key(K.ReplicationFactor));
  }

  lemma OrdersMaxTopicSize()
    ensures ReadUInt64(OrdersTopic(), K.MaxTopicSize) == Ok(0)
  {
    OrdersLookup(K.Key(K.MaxTopicSize));
  }

  lemma OrdersMessageExpiry()
    ensures ReadMessageExpiry(OrdersTopic()) == Ok(0)
  {
    OrdersLookup(K.Key(K.MessageExpiry));
  }

  lemma OrdersMessagesCount()
    ensures ReadUInt64(OrdersTopic(), K.MessagesCount) == Ok(0)
  {
    OrdersLookup(K.Key(K.MessagesCount));
  }

  lemma OrdersPartitionsCount()
    ensures ReadInt32(OrdersTopic(), K.PartitionsCount) == Ok(0)
  {
    OrdersLookup(K.Key(K.PartitionsCount));
  }

  lemma OrdersPartitions()
    ensures ReadPartitions(OrdersTopic()) == Ok(None)
  {
    OrdersLookup(K.Key(K.Partitions));
    assert TryGetProperty(OrdersTopic(), K.Key(K.Partitions)) == Ok(None);
  }

  /** The example reads as the topic it describes: null message expiry is 0, "10 MB" is ten
      million bytes, "none" names the `None` algorithm, and there are no partitions. */
  lemma ReadOrdersTopic()
    ensures Read(OrdersTopic()) ==
            Ok(TopicResponse(1, Some("orders"), 10_000_000, 0, CompressionNone, 1_700_000_000_000_000, 0, 0, 1, 0, None))
  {
    OrdersId();
    OrdersCreatedAt();
    OrdersName();
    OrdersCompression();
    OrdersSize();
    OrdersReplicationFactor();
    OrdersMaxTopicSize();
    OrdersMessageExpiry();
    OrdersMessagesCount();
    OrdersPartitionsCount();
    OrdersPartitions();
    ReadFromStages(OrdersTopic());
  }

  // ---------------------------------------------------------------- what Write emits

  /** The calls `Write` makes spell out exactly the object `EncodeTopic` describes. */
  lemma WriteBuildsEncodedObject(t: TopicResponse, encodePartition: PartitionContract -> Value)
    ensures Assemble([StartObject] + ScalarTokens(t) + PartitionsTokens(t, encodePartition) + [EndObject]) ==
            Some(JObject(EncodeTopic(t, encodePartition)))
  {
    EncodeTopicTokens(t, encodePartition);
    AssembleObjectTokens(EncodeTopic(t, encodePartition));
  }

  /** `Write` emits id, name, size, message_expiry, messages_count and partitions_count, in
      that order, then partitions only when the topic has them. */
  lemma WriteKeyOrder(t: TopicResponse, encodePartition: PartitionContract -> Value)
    ensures Keys(EncodeTopic(t, encodePartition)) ==
            [K.Key(K.Id), K.Key(K.Name), K.Key(K.Size), K.Key(K.MessageExpiry), K.Key(K.MessagesCount),
             K.Key(K.PartitionsCount)] + (if t.partitions.Some? then [K.Key(K.Partitions)] else [])
  {
    var keys := Keys(EncodeTopic(t, encodePartition));
    assert keys[0] == K.Key(K.Id) && keys[5] == K.Key(K.PartitionsCount);
  }

  /** Looking a property up among the members for a list of properties finds the value
      `Write` gives it exactly when the property is in the list. */
  lemma {:induction false} LookupFieldMembers(fields: seq<K.Field>, t: TopicResponse,
                                               encodePartition: PartitionContract -> Value, f: K.Field)
    ensures Lookup(FieldMembers(fields, t, encodePartition), K.Key(f)) ==
            if f in fields then Some(WrittenValue(t, f, encodePartition)) else None
  {
    var m := FieldMembers(fields, t, encodePartition);
    if |fields| > 0 {
      var n := |fields|;
      K.KeyInjective(fields[n - 1], f);
      if fields[n - 1] != f {
        assert m[..n - 1] == FieldMembers(fields[..n - 1], t, encodePartition);
        assert fields == fields[..n - 1] + [fields[n - 1]];
        LookupFieldMembers(fields[..n - 1], t, encodePartition, f);
      }
    }
  }

  /** All but the name are raw numbers, and the name is a string or null. */
  lemma WriteScalarValues(t: TopicResponse, encodePartition: PartitionContract -> Value)
    ensures var m := EncodeTopic(t, encodePartition);
      && Lookup(m, K.Key(K.Id)) == Some(JInteger(t.id))
      && Lookup(m, K.Key(K.Name)) == Some(StringOrNull(t.name))
      && Lookup(m, K.Key(K.Size)) == Some(JInteger(t.size))
      && Lookup(m, K.Key(K.MessageExpiry)) == Some(JInteger(t.messageExpiry))
      && Lookup(m, K.Key(K.MessagesCount)) == Some(JInteger(t.messagesCount))
      && Lookup(m, K.Key(K.PartitionsCount)) == Some(JInteger(t.partitionsCount))
  {
    var fields := WrittenFields(t);
    WrittenFieldsMembership(t);
    LookupFieldMembers(fields, t, encodePartition, K.Id);
    LookupFieldMembers(fields, t, encodePartition, K.Name);
    LookupFieldMembers(fields, t, encodePartition, K.Size);
    LookupFieldMembers(fields, t, encodePartition, K.MessageExpiry);
    LookupFieldMembers(fields, t, encodePartition, K.MessagesCount);
    LookupFieldMembers(fields, t, encodePartition, K.PartitionsCount);
  }

  /** The partitions are written only when present, as the caller's serialisation of each
      partition in the topic's order. */
  lemma WritePartitionsValue(t: TopicResponse, encodePartition: PartitionContract -> Value)
    ensures var v := Lookup(EncodeTopic(t, encodePartition), K.Key(K.Partitions));
      && (v.None? <==> t.partitions.None?)
      && (t.partitions.Some? ==>
            v.value.JArray? && |v.value.items| == |t.partitions.value| &&
            forall i :: 0 <= i < |t.partitions.value| ==> v.value.items[i] == encodePartition(t.partitions.value[i]))
  {
    WrittenFieldsMembership(t);
    LookupFieldMembers(WrittenFields(t), t, encodePartition, K.Partitions);
  }

  /** Which properties `Write` emits. */
  lemma WrittenFieldsMembership(t: TopicResponse)
    ensures forall f :: f in ScalarFields() ==> f in WrittenFields(t)
    ensures K.Id in ScalarFields() && K.Name in ScalarFields() && K.Size in ScalarFields()
    ensures K.MessageExpiry in ScalarFields() && K.MessagesCount in ScalarFields() && K.PartitionsCount in ScalarFields()
    ensures K.Partitions in WrittenFields(t) <==> t.partitions.Some?
  {
    var fields := ScalarFields();
    assert fields[0] == K.Id && fields[1] == K.Name && fields[2] == K.Size;
    assert fields[3] == K.MessageExpiry && fields[4] == K.MessagesCount && fields[5] == K.PartitionsCount;
    if t.partitions.Some? {
      assert WrittenFields(t)[6] == K.Partitions;
    }
  }

  /** `Write` never emits compression_algorithm, created_at, replication_factor or
      max_topic_size. */
  lemma WriteOmits(t: TopicResponse, encodePartition: PartitionContract -> Value)
    ensures var m := EncodeTopic(t, encodePartition);
      && Lookup(m, K.Key(K.CompressionAlgorithm)).None?
      && Lookup(m, K.Key(K.CreatedAt)).None?
      && Lookup(m, K.Key(K.ReplicationFactor)).None?
      && Lookup(m, K.Key(K.MaxTopicSize)).None?
  {
    var fields := WrittenFields(t);
    LookupFieldMembers(fields, t, encodePartition, K.CompressionAlgorithm);
    LookupFieldMembers(fields, t, encodePartition, K.CreatedAt);
    LookupFieldMembers(fields, t, encodePartition, K.ReplicationFactor);
    LookupFieldMembers(fields, t, encodePartition, K.MaxTopicSize);
  }

  /** So what `Write` produces is not something `Read` accepts: it fails on created_at. */
  lemma WriteIsNotReadable(t: TopicResponse, encodePartition: PartitionContract -> Value)
    ensures Read(JObject(EncodeTopic(t, encodePartition))) == Err(KeyNotFound(K.Key(K.CreatedAt)))
  {
    WriteScalarValues(t, encodePartition);
    WritePartitionsValue(t, encodePartition);
    WriteOmits(t, encodePartition);
  }

  /** Writing a topic that was read gives back the wire's id, name, messages_count and
      partitions_count; message_expiry comes back as the wire's number, or as 0 where the wire
      had null, and likewise size where the wire had null. */
  lemma ReadThenWrite(root: Value, encodePartition: PartitionContract -> Value)
    requires Read(root).Ok?
    ensures var m := EncodeTopic(Read(root).value, encodePartition);
      && Lookup(m, K.Key(K.Id)) == WireValue(root, K.Id)
      && Lookup(m, K.Key(K.Name)) == WireValue(root, K.Name)
      && Lookup(m, K.Key(K.MessagesCount)) == WireValue(root, K.MessagesCount)
      && Lookup(m, K.Key(K.PartitionsCount)) == WireValue(root, K.PartitionsCount)
      && Lookup(m, K.Key(K.MessageExpiry)) ==
           (if WireValue(root, K.MessageExpiry) == Some(JNull) then Some(JInteger(0)) else WireValue(root, K.MessageExpiry))
      && (WireValue(root, K.Size) == Some(JNull) ==> Lookup(m, K.Key(K.Size)) == Some(JInteger(0)))
  {
    ReadSawScalars(root);
    ReadSawMessageExpiry(root);
    ReadSawSize(root);
    WriteScalarValues(Read(root).value, encodePartition);
    WritePartitionsValue(Read(root).value, encodePartition);
  }
}
