/** The binary framing of client commands: the table of command codes and names, the
    4-byte little-endian code in front of each payload, decoding by dispatch on that code,
    the code-to-name lookup and the textual form of a command. The payloads themselves are
    encoded, decoded and printed by codecs the caller supplies. */
module Commands {
  import opened Wrappers
  import opened Bytes

  /** The 42 command variants. */
  datatype Kind =
    Ping | GetStats | GetMe | GetClient | GetClients | GetUser | GetUsers | CreateUser |
    DeleteUser | UpdateUser | UpdatePermissions | ChangePassword | LoginUser | LogoutUser |
    GetPersonalAccessTokens | CreatePersonalAccessToken | DeletePersonalAccessToken |
    LoginWithPersonalAccessToken | PollMessages | SendMessages | GetConsumerOffset |
    StoreConsumerOffset | GetStream | GetStreams | CreateStream | DeleteStream | UpdateStream |
    PurgeStream | GetTopic | GetTopics | CreateTopic | DeleteTopic | UpdateTopic | PurgeTopic |
    CreatePartitions | DeletePartitions | GetConsumerGroup | GetConsumerGroups |
    CreateConsumerGroup | DeleteConsumerGroup | JoinConsumerGroup | LeaveConsumerGroup

  /** A command: its variant together with its payload. */
  datatype Command<P> = Command(kind: Kind, payload: P)

  /** The errors this layer raises; payload decoders may raise others. */
  datatype IggyError = InvalidCommand | PayloadError(reason: string)

  /** The wire code of each variant (the `*_CODE` constants). */
  function Code(k: Kind): (r: u32)
    ensures 1 <= r <= 605
  {
    match k
    case Ping => 1
    case GetStats => 10
    case GetMe => 20
    case GetClient => 21
    case GetClients => 22
    case GetUser => 31
    case GetUsers => 32
    case CreateUser => 33
    case DeleteUser => 34
    case UpdateUser => 35
    case UpdatePermissions => 36
    case ChangePassword => 37
    case LoginUser => 38
    case LogoutUser => 39
    case GetPersonalAccessTokens => 41
    case CreatePersonalAccessToken => 42
    case DeletePersonalAccessToken => 43
    case LoginWithPersonalAccessToken => 44
    case PollMessages => 100
    case SendMessages => 101
    case GetConsumerOffset => 120
    case StoreConsumerOffset => 121
    case GetStream => 200
    case GetStreams => 201
    case CreateStream => 202
    case DeleteStream => 203
    case UpdateStream => 204
    case PurgeStream => 205
    case GetTopic => 300
    case GetTopics => 301
    case CreateTopic => 302
    case DeleteTopic => 303
    case UpdateTopic => 304
    case PurgeTopic => 305
    case CreatePartitions => 402
    case DeletePartitions => 403
    case GetConsumerGroup => 600
    case GetConsumerGroups => 601
    case CreateConsumerGroup => 602
    case DeleteConsumerGroup => 603
    case JoinConsumerGroup => 604
    case LeaveConsumerGroup => 605
  }

  /** The name of each variant (the name constants). */
  function Name(k: Kind): (r: string)
    ensures |r| > 0
  {
    match k
    case Ping => "ping"
    case GetStats => "stats"
    case GetMe => "me"
    case GetClient => "client.get"
    case GetClients => "client.list"
    case GetUser => "user.get"
    case GetUsers => "user.list"
    case CreateUser => "user.create"
    case DeleteUser => "user.delete"
    case UpdateUser => "user.update"
    case UpdatePermissions => "user.permissions"
    case ChangePassword => "user.password"
    case LoginUser => "user.login"
    case LogoutUser => "user.logout"
    case GetPersonalAccessTokens => "personal_access_token.list"
    case CreatePersonalAccessToken => "personal_access_token.create"
    case DeletePersonalAccessToken => "personal_access_token.delete"
    case LoginWithPersonalAccessToken => "personal_access_token.login"
    case PollMessages => "message.poll"
    case SendMessages => "message.send"
    case GetConsumerOffset => "consumer_offset.get"
    case StoreConsumerOffset => "consumer_offset.store"
    case GetStream => "stream.get"
    case GetStreams => "stream.list"
    case CreateStream => "stream.create"
    case DeleteStream => "stream.delete"
    case UpdateStream => "stream.update"
    case PurgeStream => "stream.purge"
    case GetTopic => "topic.get"
    case GetTopics => "topic.list"
    case CreateTopic => "topic.create"
    case DeleteTopic => "topic.delete"
    case UpdateTopic => "topic.update"
    case PurgeTopic => "topic.purge"
    case CreatePartitions => "partition.create"
    case DeletePartitions => "partition.delete"
    case GetConsumerGroup => "consumer_group.get"
    case GetConsumerGroups => "consumer_group.list"
    case CreateConsumerGroup => "consumer_group.create"
    case DeleteConsumerGroup => "consumer_group.delete"
    case JoinConsumerGroup => "consumer_group.join"
    case LeaveConsumerGroup => "consumer_group.leave"
  }

  /** The variant a wire code selects in `from_bytes`; codes outside the table select none. */
  function CodeToKind(code: u32): (r: Option<Kind>)
    ensures r.Some? ==> 1 <= code <= 605
  {
    match code
    case 1 => Some(Ping)
    case 10 => Some(GetStats)
    case 20 => Some(GetMe)
    case 21 => Some(GetClient)
    case 22 => Some(GetClients)
    case 31 => Some(GetUser)
    case 32 => Some(GetUsers)
    case 33 => Some(CreateUser)
    case 34 => Some(DeleteUser)
    case 35 => Some(UpdateUser)
    case 36 => Some(UpdatePermissions)
    case 37 => Some(ChangePassword)
    case 38 => Some(LoginUser)
    case 39 => Some(LogoutUser)
    case 41 => Some(GetPersonalAccessTokens)
    case 42 => Some(CreatePersonalAccessToken)
    case 43 => Some(DeletePersonalAccessToken)
    case 44 => Some(LoginWithPersonalAccessToken)
    case 100 => Some(PollMessages)
    case 101 => Some(SendMessages)
    case 120 => Some(GetConsumerOffset)
    case 121 => Some(StoreConsumerOffset)
    case 200 => Some(GetStream)
    case 201 => Some(GetStreams)
    case 202 => Some(CreateStream)
    case 203 => Some(DeleteStream)
    case 204 => Some(UpdateStream)
    case 205 => Some(PurgeStream)
    case 300 => Some(GetTopic)
    case 301 => Some(GetTopics)
    case 302 => Some(CreateTopic)
    case 303 => Some(DeleteTopic)
    case 304 => Some(UpdateTopic)
    case 305 => Some(PurgeTopic)
    case 402 => Some(CreatePartitions)
    case 403 => Some(DeletePartitions)
    case 600 => Some(GetConsumerGroup)
    case 601 => Some(GetConsumerGroups)
    case 602 => Some(CreateConsumerGroup)
    case 603 => Some(DeleteConsumerGroup)
    case 604 => Some(JoinConsumerGroup)
    case 605 => Some(LeaveConsumerGroup)
    case _ => None
  }

  /** `get_name_from_code`: the name for a wire code, or InvalidCommand. */
  function NameFromCode(code: u32): (r: Result<string, IggyError>)
    ensures r.Err? ==> r == Err(InvalidCommand)
    ensures r.Ok? ==> 1 <= code <= 605
  {
    match code
    case 1 => Ok("ping")
    case 10 => Ok("stats")
    case 20 => Ok("me")
    case 21 => Ok("client.get")
    case 22 => Ok("client.list")
    case 31 => Ok("user.get")
    case 32 => Ok("user.list")
    case 33 => Ok("user.create")
    case 34 => Ok("user.delete")
    case 35 => Ok("user.update")
    case 36 => Ok("user.permissions")
    case 37 => Ok("user.password")
    case 38 => Ok("user.login")
    case 39 => Ok("user.logout")
    case 41 => Ok("personal_access_token.list")
    case 42 => Ok("personal_access_token.create")
    case 43 => Ok("personal_access_token.delete")
    case 44 => Ok("personal_access_token.login")
    case 100 => Ok("message.poll")
    case 101 => Ok("message.send")
    case 120 => Ok("consumer_offset.get")
    case 121 => Ok("consumer_offset.store")
    case 200 => Ok("stream.get")
    case 201 => Ok("stream.list")
    case 202 => Ok("stream.create")
    case 203 => Ok("stream.delete")
    case 204 => Ok("stream.update")
    case 205 => Ok("stream.purge")
    case 300 => Ok("topic.get")
    case 301 => Ok("topic.list")
    case 302 => Ok("topic.create")
    case 303 => Ok("topic.delete")
    case 304 => Ok("topic.update")
    case 305 => Ok("topic.purge")
    case 402 => Ok("partition.create")
    case 403 => Ok("partition.delete")
    case 600 => Ok("consumer_group.get")
    case 601 => Ok("consumer_group.list")
    case 602 => Ok("consumer_group.create")
    case 603 => Ok("consumer_group.delete")
    case 604 => Ok("consumer_group.join")
    case 605 => Ok("consumer_group.leave")
    case _ => Err(InvalidCommand)
  }

  /** The variants whose textual form is the bare name; every other variant prints
      `name|payload`. */
  predicate PrintsBare(k: Kind) {
    k.Ping? || k.GetStats? || k.GetMe? || k.GetClients? || k.GetUsers? || k.LogoutUser? ||
    k.GetPersonalAccessTokens? || k.GetStreams?
  }

  /** `Display for Command`, with the payload's own textual form supplied by `show`. */
  function Display<P>(c: Command<P>, show: (Kind, P) -> string): (r: string)
    ensures Name(c.kind) <= r
    ensures r == Name(c.kind) <==> PrintsBare(c.kind)
    ensures !PrintsBare(c.kind) ==> r[|Name(c.kind)|] == '|' && r[|Name(c.kind)| + 1..] == show(c.kind, c.payload)
  {
    if PrintsBare(c.kind) then Name(c.kind) else Name(c.kind) + "|" + show(c.kind, c.payload)
  }

  // ---------------------------------------------------------------- framing

  /** The buffer `as_bytes` fills: bytes appended at the end. */
  class BytesMut {
    var bytes: seq<u8>

    /** `BytesMut::with_capacity`: an empty buffer (the capacity is only a hint). */
    constructor WithCapacity(capacity: nat)
      ensures bytes == []
    {
      bytes := [];
    }

    /** `put_u32_le`. */
    method PutU32Le(x: u32)
      modifies this
      ensures bytes == old(bytes) + U32ToLe(x)
    {
      bytes := bytes + U32ToLe(x);
    }

    /** `put_slice`. */
    method PutSlice(s: seq<u8>)
      modifies this
      ensures bytes == old(bytes) + s
    {
      bytes := bytes + s;
    }
  }

  /** A frame: the code in four little-endian bytes, then the payload. */
  function Frame(code: u32, payload: seq<u8>): (r: seq<u8>)
    ensures |r| == 4 + |payload|
    ensures U32FromLe(r[..4]) == code && r[4..] == payload
  {
    U32LeRoundTrip(code, U32ToLe(code));
    assert (U32ToLe(code) + payload)[..4] == U32ToLe(code);
    U32ToLe(code) + payload
  }

  /** The helper `as_bytes(command, payload)`. */
  method FrameBytes(code: u32, payload: seq<u8>) returns (r: seq<u8>)
    ensures r == Frame(code, payload)
  {
    var buffer := new BytesMut.WithCapacity(4 + |payload|);
    buffer.PutU32Le(code);
    buffer.PutSlice(payload);
    r := buffer.bytes;
  }

  /** A frame is four bytes longer than its payload, and splitting it after the fourth byte
      gives back the code and the payload. */
  lemma UnframeFrame(code: u32, payload: seq<u8>)
    ensures |Frame(code, payload)| == 4 + |payload|
    ensures U32FromLe(Frame(code, payload)[..4]) == code
    ensures Frame(code, payload)[4..] == payload
  {
    var f := Frame(code, payload);
    assert f[..4] == U32ToLe(code);
    U32LeRoundTrip(code, f[..4]);
  }

  /** Every sequence of at least four bytes is the frame of its first four bytes' code and the
      rest. */
  lemma FrameUnframe(bytes: seq<u8>)
    requires |bytes| >= 4
    ensures Frame(U32FromLe(bytes[..4]), bytes[4..]) == bytes
  {
    U32LeRoundTrip(0, bytes[..4]);
    assert bytes == bytes[..4] + bytes[4..];
  }

  /** `Command::as_bytes`: the frame of the variant's code around the encoded payload. */
  function AsBytes<P>(c: Command<P>, encode: (Kind, P) -> seq<u8>): (r: seq<u8>)
    ensures |r| == 4 + |encode(c.kind, c.payload)|
    ensures U32FromLe(r[..4]) == Code(c.kind) && r[4..] == encode(c.kind, c.payload)
  {
    Frame(Code(c.kind), encode(c.kind, c.payload))
  }

  /** `Command::from_bytes`: the first four bytes select the variant, the rest goes to that
      variant's payload decoder. Fewer than four bytes make the source panic, hence the
      precondition. */
  function FromBytes<P>(bytes: seq<u8>, decode: (Kind, seq<u8>) -> Result<P, IggyError>): (r: Result<Command<P>, IggyError>)
    requires |bytes| >= 4
    ensures r.Ok? ==> Code(r.value.kind) == U32FromLe(bytes[..4]) && decode(r.value.kind, bytes[4..]) == Ok(r.value.payload)
    ensures CodeToKind(U32FromLe(bytes[..4])).None? ==> r == Err(InvalidCommand)
  {
    var code := U32FromLe(bytes[..4]);
    DispatchIsInverse(code);
    var payload := bytes[4..];
    match CodeToKind(code)
    case None => Err(InvalidCommand)
    case Some(kind) =>
      var p :- decode(kind, payload);
      Ok(Command(kind, p))
  }

  // ---------------------------------------------------------------- the rows of the tables

  // One lemma per variant: its code, its name, and what the dispatch on the code,
  // `get_name_from_code` and the name lookup answer for them.

  lemma PingRow()
    ensures Code(Ping) == 1 && Name(Ping) == "ping" && CodeToKind(1) == Some(Ping) &&
            NameFromCode(1) == Ok("ping") && KindOfName("ping") == Some(Ping)
  {
  }

  lemma GetStatsRow()
    ensures Code(GetStats) == 10 && Name(GetStats) == "stats" && CodeToKind(10) == Some(GetStats) &&
            NameFromCode(10) == Ok("stats") && KindOfName("stats") == Some(GetStats)
  {
  }

  lemma GetMeRow()
    ensures Code(GetMe) == 20 && Name(GetMe) == "me" && CodeToKind(20) == Some(GetMe) &&
            NameFromCode(20) == Ok("me") && KindOfName("me") == Some(GetMe)
  {
  }

  lemma GetClientRow()
    ensures Code(GetClient) == 21 && Name(GetClient) == "client.get" && CodeToKind(21) == Some(GetClient) &&
            NameFromCode(21) == Ok("client.get") && KindOfName("client.get") == Some(GetClient)
  {
  }

  lemma GetClientsRow()
    ensures Code(GetClients) == 22 && Name(GetClients) == "client.list" && CodeToKind(22) == Some(GetClients) &&
            NameFromCode(22) == Ok("client.list") && KindOfName("client.list") == Some(GetClients)
  {
  }

  lemma GetUserRow()
    ensures Code(GetUser) == 31 && Name(GetUser) == "user.get" && CodeToKind(31) == Some(GetUser) &&
            NameFromCode(31) == Ok("user.get") && KindOfName("user.get") == Some(GetUser)
  {
  }

  lemma GetUsersRow()
    ensures Code(GetUsers) == 32 && Name(GetUsers) == "user.list" && CodeToKind(32) == Some(GetUsers) &&
            NameFromCode(32) == Ok("user.list") && KindOfName("user.list") == Some(GetUsers)
  {
  }

  lemma CreateUserRow()
    ensures Code(CreateUser) == 33 && Name(CreateUser) == "user.create" && CodeToKind(33) == Some(CreateUser) &&
            NameFromCode(33) == Ok("user.create") && KindOfName("user.create") == Some(CreateUser)
  {
  }

  lemma DeleteUserRow()
    ensures Code(DeleteUser) == 34 && Name(DeleteUser) == "user.delete" && CodeToKind(34) == Some(DeleteUser) &&
            NameFromCode(34) == Ok("user.delete") && KindOfName("user.delete") == Some(DeleteUser)
  {
  }

  lemma UpdateUserRow()
    ensures Code(UpdateUser) == 35 && Name(UpdateUser) == "user.update" && CodeToKind(35) == Some(UpdateUser) &&
            NameFromCode(35) == Ok("user.update") && KindOfName("user.update") == Some(UpdateUser)
  {
  }

  lemma UpdatePermissionsRow()
    ensures Code(UpdatePermissions) == 36 && Name(UpdatePermissions) == "user.permissions" && CodeToKind(36) == Some(UpdatePermissions) &&
            NameFromCode(36) == Ok("user.permissions") && KindOfName("user.permissions") == Some(UpdatePermissions)
  {
  }

  lemma ChangePasswordRow()
    ensures Code(ChangePassword) == 37 && Name(ChangePassword) == "user.password" && CodeToKind(37) == Some(ChangePassword) &&
            NameFromCode(37) == Ok("user.password") && KindOfName("user.password") == Some(ChangePassword)
  {
  }

  lemma LoginUserRow()
    ensures Code(LoginUser) == 38 && Name(LoginUser) == "user.login" && CodeToKind(38) == Some(LoginUser) &&
            NameFromCode(38) == Ok("user.login") && KindOfName("user.login") == Some(LoginUser)
  {
  }

  lemma LogoutUserRow()
    ensures Code(LogoutUser) == 39 && Name(LogoutUser) == "user.logout" && CodeToKind(39) == Some(LogoutUser) &&
            NameFromCode(39) == Ok("user.logout") && KindOfName("user.logout") == Some(LogoutUser)
  {
  }

  lemma GetPersonalAccessTokensRow()
    ensures Code(GetPersonalAccessTokens) == 41 && Name(GetPersonalAccessTokens) == "personal_access_token.list" && CodeToKind(41) == Some(GetPersonalAccessTokens) &&
            NameFromCode(41) == Ok("personal_access_token.list") && KindOfName("personal_access_token.list") == Some(GetPersonalAccessTokens)
  {
  }

  lemma CreatePersonalAccessTokenRow()
    ensures Code(CreatePersonalAccessToken) == 42 && Name(CreatePersonalAccessToken) == "personal_access_token.create" && CodeToKind(42) == Some(CreatePersonalAccessToken) &&
            NameFromCode(42) == Ok("personal_access_token.create") && KindOfName("personal_access_token.create") == Some(CreatePersonalAccessToken)
  {
  }

  lemma DeletePersonalAccessTokenRow()
    ensures Code(DeletePersonalAccessToken) == 43 && Name(DeletePersonalAccessToken) == "personal_access_token.delete" && CodeToKind(43) == Some(DeletePersonalAccessToken) &&
            NameFromCode(43) == Ok("personal_access_token.delete") && KindOfName("personal_access_token.delete") == Some(DeletePersonalAccessToken)
  {
  }

  lemma LoginWithPersonalAccessTokenRow()
    ensures Code(LoginWithPersonalAccessToken) == 44 && Name(LoginWithPersonalAccessToken) == "personal_access_token.login" && CodeToKind(44) == Some(LoginWithPersonalAccessToken) &&
            NameFromCode(44) == Ok("personal_access_token.login") && KindOfName("personal_access_token.login") == Some(LoginWithPersonalAccessToken)
  {
  }

  lemma PollMessagesRow()
    ensures Code(PollMessages) == 100 && Name(PollMessages) == "message.poll" && CodeToKind(100) == Some(PollMessages) &&
            NameFromCode(100) == Ok("message.poll") && KindOfName("message.poll") == Some(PollMessages)
  {
  }

  lemma SendMessagesRow()
    ensures Code(SendMessages) == 101 && Name(SendMessages) == "message.send" && CodeToKind(101) == Some(SendMessages) &&
            NameFromCode(101) == Ok("message.send") && KindOfName("message.send") == Some(SendMessages)
  {
  }

  lemma GetConsumerOffsetRow()
    ensures Code(GetConsumerOffset) == 120 && Name(GetConsumerOffset) == "consumer_offset.get" && CodeToKind(120) == Some(GetConsumerOffset) &&
            NameFromCode(120) == Ok("consumer_offset.get") && KindOfName("consumer_offset.get") == Some(GetConsumerOffset)
  {
  }

  lemma StoreConsumerOffsetRow()
    ensures Code(StoreConsumerOffset) == 121 && Name(StoreConsumerOffset) == "consumer_offset.store" && CodeToKind(121) == Some(StoreConsumerOffset) &&
            NameFromCode(121) == Ok("consumer_offset.store") && KindOfName("consumer_offset.store") == Some(StoreConsumerOffset)
  {
  }

  lemma GetStreamRow()
    ensures Code(GetStream) == 200 && Name(GetStream) == "stream.get" && CodeToKind(200) == Some(GetStream) &&
            NameFromCode(200) == Ok("stream.get") && KindOfName("stream.get") == Some(GetStream)
  {
  }

  lemma GetStreamsRow()
    ensures Code(GetStreams) == 201 && Name(GetStreams) == "stream.list" && CodeToKind(201) == Some(GetStreams) &&
            NameFromCode(201) == Ok("stream.list") && KindOfName("stream.list") == Some(GetStreams)
  {
  }

  lemma CreateStreamRow()
    ensures Code(CreateStream) == 202 && Name(CreateStream) == "stream.create" && CodeToKind(202) == Some(CreateStream) &&
            NameFromCode(202) == Ok("stream.create") && KindOfName("stream.create") == Some(CreateStream)
  {
  }

  lemma DeleteStreamRow()
    ensures Code(DeleteStream) == 203 && Name(DeleteStream) == "stream.delete" && CodeToKind(203) == Some(DeleteStream) &&
            NameFromCode(203) == Ok("stream.delete") && KindOfName("stream.delete") == Some(DeleteStream)
  {
  }

  lemma UpdateStreamRow()
    ensures Code(UpdateStream) == 204 && Name(UpdateStream) == "stream.update" && CodeToKind(204) == Some(UpdateStream) &&
            NameFromCode(204) == Ok("stream.update") && KindOfName("stream.update") == Some(UpdateStream)
  {
  }

  lemma PurgeStreamRow()
    ensures Code(PurgeStream) == 205 && Name(PurgeStream) == "stream.purge" && CodeToKind(205) == Some(PurgeStream) &&
            NameFromCode(205) == Ok("stream.purge") && KindOfName("stream.purge") == Some(PurgeStream)
  {
  }

  lemma GetTopicRow()
    ensures Code(GetTopic) == 300 && Name(GetTopic) == "topic.get" && CodeToKind(300) == Some(GetTopic) &&
            NameFromCode(300) == Ok("topic.get") && KindOfName("topic.get") == Some(GetTopic)
  {
  }

  lemma GetTopicsRow()
    ensures Code(GetTopics) == 301 && Name(GetTopics) == "topic.list" && CodeToKind(301) == Some(GetTopics) &&
            NameFromCode(301) == Ok("topic.list") && KindOfName("topic.list") == Some(GetTopics)
  {
  }

  lemma CreateTopicRow()
    ensures Code(CreateTopic) == 302 && Name(CreateTopic) == "topic.create" && CodeToKind(302) == Some(CreateTopic) &&
            NameFromCode(302) == Ok("topic.create") && KindOfName("topic.create") == Some(CreateTopic)
  {
  }

  lemma DeleteTopicRow()
    ensures Code(DeleteTopic) == 303 && Name(DeleteTopic) == "topic.delete" && CodeToKind(303) == Some(DeleteTopic) &&
            NameFromCode(303) == Ok("topic.delete") && KindOfName("topic.delete") == Some(DeleteTopic)
  {
  }

  lemma UpdateTopicRow()
    ensures Code(UpdateTopic) == 304 && Name(UpdateTopic) == "topic.update" && CodeToKind(304) == Some(UpdateTopic) &&
            NameFromCode(304) == Ok("topic.update") && KindOfName("topic.update") == Some(UpdateTopic)
  {
  }

  lemma PurgeTopicRow()
    ensures Code(PurgeTopic) == 305 && Name(PurgeTopic) == "topic.purge" && CodeToKind(305) == Some(PurgeTopic) &&
            NameFromCode(305) == Ok("topic.purge") && KindOfName("topic.purge") == Some(PurgeTopic)
  {
  }

  lemma CreatePartitionsRow()
    ensures Code(CreatePartitions) == 402 && Name(CreatePartitions) == "partition.create" && CodeToKind(402) == Some(CreatePartitions) &&
            NameFromCode(402) == Ok("partition.create") && KindOfName("partition.create") == Some(CreatePartitions)
  {
  }

  lemma DeletePartitionsRow()
    ensures Code(DeletePartitions) == 403 && Name(DeletePartitions) == "partition.delete" && CodeToKind(403) == Some(DeletePartitions) &&
            NameFromCode(403) == Ok("partition.delete") && KindOfName("partition.delete") == Some(DeletePartitions)
  {
  }

  lemma GetConsumerGroupRow()
    ensures Code(GetConsumerGroup) == 600 && Name(GetConsumerGroup) == "consumer_group.get" && CodeToKind(600) == Some(GetConsumerGroup) &&
            NameFromCode(600) == Ok("consumer_group.get") && KindOfName("consumer_group.get") == Some(GetConsumerGroup)
  {
  }

  lemma GetConsumerGroupsRow()
    ensures Code(GetConsumerGroups) == 601 && Name(GetConsumerGroups) == "consumer_group.list" && CodeToKind(601) == Some(GetConsumerGroups) &&
            NameFromCode(601) == Ok("consumer_group.list") && KindOfName("consumer_group.list") == Some(GetConsumerGroups)
  {
  }

  lemma CreateConsumerGroupRow()
    ensures Code(CreateConsumerGroup) == 602 && Name(CreateConsumerGroup) == "consumer_group.create" && CodeToKind(602) == Some(CreateConsumerGroup) &&
            NameFromCode(602) == Ok("consumer_group.create") && KindOfName("consumer_group.create") == Some(CreateConsumerGroup)
  {
  }

  lemma DeleteConsumerGroupRow()
    ensures Code(DeleteConsumerGroup) == 603 && Name(DeleteConsumerGroup) == "consumer_group.delete" && CodeToKind(603) == Some(DeleteConsumerGroup) &&
            NameFromCode(603) == Ok("consumer_group.delete") && KindOfName("consumer_group.delete") == Some(DeleteConsumerGroup)
  {
  }

  lemma JoinConsumerGroupRow()
    ensures Code(JoinConsumerGroup) == 604 && Name(JoinConsumerGroup) == "consumer_group.join" && CodeToKind(604) == Some(JoinConsumerGroup) &&
            NameFromCode(604) == Ok("consumer_group.join") && KindOfName("consumer_group.join") == Some(JoinConsumerGroup)
  {
  }

  lemma LeaveConsumerGroupRow()
    ensures Code(LeaveConsumerGroup) == 605 && Name(LeaveConsumerGroup) == "consumer_group.leave" && CodeToKind(605) == Some(LeaveConsumerGroup) &&
            NameFromCode(605) == Ok("consumer_group.leave") && KindOfName("consumer_group.leave") == Some(LeaveConsumerGroup)
  {
  }

  /** For every variant, dispatching on its code selects it, its name leads back to it, and
      `get_name_from_code` names its code by its name. */
  lemma RowsAgree(k: Kind)
    ensures CodeToKind(Code(k)) == Some(k)
    ensures KindOfName(Name(k)) == Some(k)
    ensures NameFromCode(Code(k)) == Ok(Name(k))
  {
    match k
    case Ping => PingRow();
    case GetStats => GetStatsRow();
    case GetMe => GetMeRow();
    case GetClient => GetClientRow();
    case GetClients => GetClientsRow();
    case GetUser => GetUserRow();
    case GetUsers => GetUsersRow();
    case CreateUser => CreateUserRow();
    case DeleteUser => DeleteUserRow();
    case UpdateUser => UpdateUserRow();
    case UpdatePermissions => UpdatePermissionsRow();
    case ChangePassword => ChangePasswordRow();
    case LoginUser => LoginUserRow();
    case LogoutUser => LogoutUserRow();
    case GetPersonalAccessTokens => GetPersonalAccessTokensRow();
    case CreatePersonalAccessToken => CreatePersonalAccessTokenRow();
    case DeletePersonalAccessToken => DeletePersonalAccessTokenRow();
    case LoginWithPersonalAccessToken => LoginWithPersonalAccessTokenRow();
    case PollMessages => PollMessagesRow();
    case SendMessages => SendMessagesRow();
    case GetConsumerOffset => GetConsumerOffsetRow();
    case StoreConsumerOffset => StoreConsumerOffsetRow();
    case GetStream => GetStreamRow();
    case GetStreams => GetStreamsRow();
    case CreateStream => CreateStreamRow();
    case DeleteStream => DeleteStreamRow();
    case UpdateStream => UpdateStreamRow();
    case PurgeStream => PurgeStreamRow();
    case GetTopic => GetTopicRow();
    case GetTopics => GetTopicsRow();
    case CreateTopic => CreateTopicRow();
    case DeleteTopic => DeleteTopicRow();
    case UpdateTopic => UpdateTopicRow();
    case PurgeTopic => PurgeTopicRow();
    case CreatePartitions => CreatePartitionsRow();
    case DeletePartitions => DeletePartitionsRow();
    case GetConsumerGroup => GetConsumerGroupRow();
    case GetConsumerGroups => GetConsumerGroupsRow();
    case CreateConsumerGroup => CreateConsumerGroupRow();
    case DeleteConsumerGroup => DeleteConsumerGroupRow();
    case JoinConsumerGroup => JoinConsumerGroupRow();
    case LeaveConsumerGroup => LeaveConsumerGroupRow();
  }

  // The dispatch and the name lookup checked range by range, so that each proof only
  // looks at the rows whose codes fall in its range.

  lemma DispatchBelow100(code: u32)
    ensures 0 <= code < 100 && CodeToKind(code).Some? ==> Code(CodeToKind(code).value) == code
  {
  }

  lemma NamesBelow100(code: u32)
    ensures 0 <= code < 100 ==> (NameFromCode(code).Ok? <==> CodeToKind(code).Some?)
    ensures 0 <= code < 100 && NameFromCode(code).Err? ==> NameFromCode(code).error == InvalidCommand
  {
  }

  lemma DispatchBelow200(code: u32)
    ensures 100 <= code < 200 && CodeToKind(code).Some? ==> Code(CodeToKind(code).value) == code
  {
  }

  lemma NamesBelow200(code: u32)
    ensures 100 <= code < 200 ==> (NameFromCode(code).Ok? <==> CodeToKind(code).Some?)
    ensures 100 <= code < 200 && NameFromCode(code).Err? ==> NameFromCode(code).error == InvalidCommand
  {
  }

  lemma DispatchBelow400(code: u32)
    ensures 200 <= code < 400 && CodeToKind(code).Some? ==> Code(CodeToKind(code).value) == code
  {
  }

  lemma NamesBelow400(code: u32)
    ensures 200 <= code < 400 ==> (NameFromCode(code).Ok? <==> CodeToKind(code).Some?)
    ensures 200 <= code < 400 && NameFromCode(code).Err? ==> NameFromCode(code).error == InvalidCommand
  {
  }

  lemma DispatchFrom400(code: u32)
    ensures 400 <= code < 4294967296 && CodeToKind(code).Some? ==> Code(CodeToKind(code).value) == code
  {
  }

  lemma NamesFrom400(code: u32)
    ensures 400 <= code < 4294967296 ==> (NameFromCode(code).Ok? <==> CodeToKind(code).Some?)
    ensures 400 <= code < 4294967296 && NameFromCode(code).Err? ==> NameFromCode(code).error == InvalidCommand
  {
  }

  /** Every variant the dispatch selects carries the code it was selected by. */
  lemma DispatchIsInverse(code: u32)
    ensures CodeToKind(code).Some? ==> Code(CodeToKind(code).value) == code
  {
    DispatchBelow100(code);
    DispatchBelow200(code);
    DispatchBelow400(code);
    DispatchFrom400(code);
  }

  /** The 42 codes are pairwise distinct. */
  lemma CodesDistinct(a: Kind, b: Kind)
    ensures Code(a) == Code(b) <==> a == b
  {
    if Code(a) == Code(b) {
      RowsAgree(a);
      RowsAgree(b);
      assert Some(a) == CodeToKind(Code(b)) == Some(b);
    }
  }

  /** Which variant has a given name: the names grouped by length, then compared. Only the
      proof that the names are distinct uses it. */
  function KindOfName(s: string): Option<Kind> {
    match |s|
    case 2 => if s == "me" then Some(GetMe) else None
    case 4 => if s == "ping" then Some(Ping) else None
    case 5 => if s == "stats" then Some(GetStats) else None
    case 8 => if s == "user.get" then Some(GetUser) else None
    case 9 => if s == "user.list" then Some(GetUsers) else if s == "topic.get" then Some(GetTopic) else None
    case 10 => if s == "client.get" then Some(GetClient) else if s == "user.login" then Some(LoginUser) else if s == "stream.get" then Some(GetStream) else if s == "topic.list" then Some(GetTopics) else None
    case 11 => if s == "client.list" then Some(GetClients) else if s == "user.create" then Some(CreateUser) else if s == "user.delete" then Some(DeleteUser) else if s == "user.update" then Some(UpdateUser) else if s == "user.logout" then Some(LogoutUser) else if s == "stream.list" then Some(GetStreams) else if s == "topic.purge" then Some(PurgeTopic) else None
    case 12 => if s == "message.poll" then Some(PollMessages) else if s == "message.send" then Some(SendMessages) else if s == "stream.purge" then Some(PurgeStream) else if s == "topic.create" then Some(CreateTopic) else if s == "topic.delete" then Some(DeleteTopic) else if s == "topic.update" then Some(UpdateTopic) else None
    case 13 => if s == "user.password" then Some(ChangePassword) else if s == "stream.create" then Some(CreateStream) else if s == "stream.delete" then Some(DeleteStream) else if s == "stream.update" then Some(UpdateStream) else None
    case 16 => if s == "user.permissions" then Some(UpdatePermissions) else if s == "partition.create" then Some(CreatePartitions) else if s == "partition.delete" then Some(DeletePartitions) else None
    case 18 => if s == "consumer_group.get" then Some(GetConsumerGroup) else None
    case 19 => if s == "consumer_offset.get" then Some(GetConsumerOffset) else if s == "consumer_group.list" then Some(GetConsumerGroups) else if s == "consumer_group.join" then Some(JoinConsumerGroup) else None
    case 20 => if s == "consumer_group.leave" then Some(LeaveConsumerGroup) else None
    case 21 => if s == "consumer_offset.store" then Some(StoreConsumerOffset) else if s == "consumer_group.create" then Some(CreateConsumerGroup) else if s == "consumer_group.delete" then Some(DeleteConsumerGroup) else None
    case 26 => if s == "personal_access_token.list" then Some(GetPersonalAccessTokens) else None
    case 27 => if s == "personal_access_token.login" then Some(LoginWithPersonalAccessToken) else None
    case 28 => if s == "personal_access_token.create" then Some(CreatePersonalAccessToken) else if s == "personal_access_token.delete" then Some(DeletePersonalAccessToken) else None
    case _ => None
  }

  /** The 42 names are pairwise distinct too. */
  lemma NamesDistinct(a: Kind, b: Kind)
    ensures Name(a) == Name(b) <==> a == b
  {
    RowsAgree(a);
    RowsAgree(b);
  }

  /** `get_name_from_code` knows exactly the codes `from_bytes` dispatches on, names each by
      its variant's name and answers InvalidCommand for every other code. */
  lemma NameFromCodeAgrees(code: u32)
    ensures NameFromCode(code) ==
            if CodeToKind(code).Some? then Ok(Name(CodeToKind(code).value)) else Err(InvalidCommand)
  {
    NamesBelow100(code);
    NamesBelow200(code);
    NamesBelow400(code);
    NamesFrom400(code);
    DispatchIsInverse(code);
    if CodeToKind(code).Some? {
      RowsAgree(CodeToKind(code).value);
    }
  }

  /** The code-to-name table is injective: different known codes have different names. */
  lemma NameFromCodeInjective(x: u32, y: u32)
    requires NameFromCode(x).Ok? && NameFromCode(y).Ok?
    ensures NameFromCode(x) == NameFromCode(y) <==> x == y
  {
    NameFromCodeAgrees(x);
    NameFromCodeAgrees(y);
    DispatchIsInverse(x);
    DispatchIsInverse(y);
    NamesDistinct(CodeToKind(x).value, CodeToKind(y).value);
  }

  // ---------------------------------------------------------------- framing properties

  /** `as_bytes` is the four little-endian bytes of the variant's code followed by the
      payload bytes. */
  lemma AsBytesLayout<P>(c: Command<P>, encode: (Kind, P) -> seq<u8>)
    ensures |AsBytes(c, encode)| == 4 + |encode(c.kind, c.payload)|
    ensures AsBytes(c, encode)[..4] == U32ToLe(Code(c.kind))
    ensures AsBytes(c, encode)[4..] == encode(c.kind, c.payload)
  {
  }

  /** Decoding what `as_bytes` produced gives back the command whenever its payload
      round-trips through the payload codec. */
  lemma FromBytesAsBytes<P>(c: Command<P>, encode: (Kind, P) -> seq<u8>, decode: (Kind, seq<u8>) -> Result<P, IggyError>)
    requires decode(c.kind, encode(c.kind, c.payload)) == Ok(c.payload)
    ensures |AsBytes(c, encode)| >= 4
    ensures FromBytes(AsBytes(c, encode), decode) == Ok(c)
  {
    UnframeFrame(Code(c.kind), encode(c.kind, c.payload));
    RowsAgree(c.kind);
  }

  /** Conversely, re-encoding a decoded command gives back its bytes whenever the payload
      codec re-encodes the payload it decoded to the same bytes. */
  lemma AsBytesFromBytes<P>(bytes: seq<u8>, encode: (Kind, P) -> seq<u8>, decode: (Kind, seq<u8>) -> Result<P, IggyError>)
    requires |bytes| >= 4
    requires forall k: Kind :: decode(k, bytes[4..]).Ok? ==> encode(k, decode(k, bytes[4..]).value) == bytes[4..]
    ensures FromBytes(bytes, decode).Ok? ==> AsBytes(FromBytes(bytes, decode).value, encode) == bytes
  {
    var r := FromBytes(bytes, decode);
    if r.Ok? {
      var code := U32FromLe(bytes[..4]);
      var kind := r.value.kind;
      DispatchIsInverse(code);
      assert CodeToKind(code) == Some(kind) && decode(kind, bytes[4..]) == Ok(r.value.payload);
      assert encode(kind, r.value.payload) == bytes[4..];
      FrameUnframe(bytes);
    }
  }

  /** A code that belongs to no variant is rejected with InvalidCommand, both by `from_bytes`
      and by `get_name_from_code`. */
  lemma UnknownCode<P>(bytes: seq<u8>, decode: (Kind, seq<u8>) -> Result<P, IggyError>)
    requires |bytes| >= 4
    requires forall k: Kind :: Code(k) != U32FromLe(bytes[..4])
    ensures FromBytes(bytes, decode) == Err(InvalidCommand)
    ensures NameFromCode(U32FromLe(bytes[..4])) == Err(InvalidCommand)
  {
    var code := U32FromLe(bytes[..4]);
    DispatchIsInverse(code);
    NameFromCodeAgrees(code);
  }

  /** A known code hands the rest of the bytes to that variant's payload decoder and passes
      its error on unchanged. */
  lemma KnownCode<P>(k: Kind, payload: seq<u8>, decode: (Kind, seq<u8>) -> Result<P, IggyError>)
    ensures |Frame(Code(k), payload)| >= 4
    ensures FromBytes(Frame(Code(k), payload), decode) ==
            if decode(k, payload).Ok? then Ok(Command(k, decode(k, payload).value)) else Err(decode(k, payload).error)
  {
    UnframeFrame(Code(k), payload);
    RowsAgree(k);
  }

  /** The textual form of every command starts with `get_name_from_code` of its code: the bare
      name for the eight payload-less variants, `name|payload` for all others. */
  lemma DisplayStartsWithName<P>(c: Command<P>, show: (Kind, P) -> string)
    ensures NameFromCode(Code(c.kind)).Ok?
    ensures var name := NameFromCode(Code(c.kind)).value;
      Display(c, show) == (if PrintsBare(c.kind) then name else name + "|" + show(c.kind, c.payload))
    ensures NameFromCode(Code(c.kind)).value <= Display(c, show)
  {
    RowsAgree(c.kind);
  }
}
