/** The wire keys of the topic and partition properties. In the C# source each key is
    `nameof(Property).ToSnakeCase()`; here the association is a static table. */
module KeyMapper {
  import opened Wrappers

  /** The properties of `TopicResponse` and `PartitionContract` that appear on the wire. */
  datatype Field =
    | Id | CreatedAt | Name | CompressionAlgorithm | Size | ReplicationFactor | MaxTopicSize
    | MessageExpiry | MessagesCount | PartitionsCount | Partitions | SegmentsCount | CurrentOffset

  /** The wire key of a property: its C# name in snake case. */
  function Key(f: Field): string {
    match f
    case Id => "id"
    case CreatedAt => "created_at"
    case Name => "name"
    case CompressionAlgorithm => "compression_algorithm"
    case Size => "size"
    case ReplicationFactor => "replication_factor"
    case MaxTopicSize => "max_topic_size"
    case MessageExpiry => "message_expiry"
    case MessagesCount => "messages_count"
    case PartitionsCount => "partitions_count"
    case Partitions => "partitions"
    case SegmentsCount => "segments_count"
    case CurrentOffset => "current_offset"
  }

  /** The property a wire key belongs to, if any. */
  function FieldOfKey(key: string): (r: Option<Field>)
    ensures r.Some? ==> Key(r.value) == key
  {
    if key == "id" then Some(Id)
    else if key == "created_at" then Some(CreatedAt)
    else if key == "name" then Some(Name)
    else if key == "compression_algorithm" then Some(CompressionAlgorithm)
    else if key == "size" then Some(Size)
    else if key == "replication_factor" then Some(ReplicationFactor)
    else if key == "max_topic_size" then Some(MaxTopicSize)
    else if key == "message_expiry" then Some(MessageExpiry)
    else if key == "messages_count" then Some(MessagesCount)
    else if key == "partitions_count" then Some(PartitionsCount)
    else if key == "partitions" then Some(Partitions)
    else if key == "segments_count" then Some(SegmentsCount)
    else if key == "current_offset" then Some(CurrentOffset)
    else None
  }

  /** Every key leads back to its property, so encoding and decoding agree on the mapping. */
  lemma KeyRoundTrip(f: Field)
    ensures FieldOfKey(Key(f)) == Some(f)
  {
    match f
    case Id => assert FieldOfKey("id") == Some(Id);
    case CreatedAt => assert FieldOfKey("created_at") == Some(CreatedAt);
    case Name => assert FieldOfKey("name") == Some(Name);
    case CompressionAlgorithm => assert FieldOfKey("compression_algorithm") == Some(CompressionAlgorithm);
    case Size => assert FieldOfKey("size") == Some(Size);
    case ReplicationFactor => assert FieldOfKey("replication_factor") == Some(ReplicationFactor);
    case MaxTopicSize => assert FieldOfKey("max_topic_size") == Some(MaxTopicSize);
    case MessageExpiry => assert FieldOfKey("message_expiry") == Some(MessageExpiry);
    case MessagesCount => assert FieldOfKey("messages_count") == Some(MessagesCount);
    case PartitionsCount => assert FieldOfKey("partitions_count") == Some(PartitionsCount);
    case Partitions => assert FieldOfKey("partitions") == Some(Partitions);
    case SegmentsCount => assert FieldOfKey("segments_count") == Some(SegmentsCount);
    case CurrentOffset => assert FieldOfKey("current_offset") == Some(CurrentOffset);
  }

  /** No two properties share a wire key. */
  lemma KeyInjective(f: Field, g: Field)
    ensures Key(f) == Key(g) <==> f == g
  {
    KeyRoundTrip(f);
    KeyRoundTrip(g);
  }
}
