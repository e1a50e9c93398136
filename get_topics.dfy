/** The client side of the topic-list response: a run of length-prefixed binary records,
    decoded one by one and then sorted by topic id. */
module GetTopics {
  import opened Wrappers
  import opened Bytes
  import Utf8

  /** A topic as the client sees it; the name is kept as the UTF-8 bytes of the string. */
  datatype Topic = Topic(id: u32, partitions: u32, name: seq<u8>)

  /** The ways `handle_response` panics: a record cut short (a slice past the end of the
      response) or a name that is not well-formed UTF-8 (the `unwrap`). */
  datatype Panic = Truncated | InvalidUtf8

  /** The size of a record's fixed part: id, partitions count and name length. */
  const HeaderSize := 12

  // ---------------------------------------------------------------- decoding, as a specification

  /** The records that fill `bytes` completely, in wire order. */
  function ParseRecords(bytes: seq<u8>): (r: Result<seq<Topic>, Panic>)
    ensures r.Ok? ==> forall t :: t in r.value ==> |t.name| < 0x1_0000_0000 && Utf8.IsValid(t.name)
    decreases |bytes|
  {
    if |bytes| == 0 then Ok([])
    else if |bytes| < HeaderSize then Err(Truncated)
    else
      var nameLength := U32FromLe(bytes[8..12]);
      if |bytes| < HeaderSize + nameLength then Err(Truncated)
      else
        var name := bytes[HeaderSize..HeaderSize + nameLength];
        if !Utf8.IsValid(name) then Err(InvalidUtf8)
        else
          var rest :- ParseRecords(bytes[HeaderSize + nameLength..]);
          Ok([Topic(U32FromLe(bytes[0..4]), U32FromLe(bytes[4..8]), name)] + rest)
  }

  /** `handle_response`: an empty response is an empty list, otherwise the records sorted by id. */
  function Decode(response: seq<u8>): (r: Result<seq<Topic>, Panic>)
    ensures |response| == 0 ==> r == Ok([])
    ensures |response| > 0 && ParseRecords(response).Err? ==> r == Err(ParseRecords(response).error)
    ensures r.Ok? ==> SortedById(r.value)
    ensures r.Ok? && |response| > 0 ==> multiset(r.value) == multiset(ParseRecords(response).value)
  {
    if |response| == 0 then Ok([])
    else
      var topics :- ParseRecords(response);
      SortByIdSorted(topics);
      SortByIdPermutes(topics);
      Ok(SortById(topics))
  }

  // ---------------------------------------------------------------- stable sort by id

  /** Inserts t after every element whose id is not greater than its own. */
  function InsertById(sorted: seq<Topic>, t: Topic): (r: seq<Topic>)
    ensures |r| == |sorted| + 1
    decreases |sorted|
  {
    if |sorted| == 0 || sorted[|sorted| - 1].id <= t.id then sorted + [t]
    else InsertById(sorted[..|sorted| - 1], t) + [sorted[|sorted| - 1]]
  }

  /** `sort_by(|x, y| x.id.cmp(&y.id))`, as insertion sort: stable, ascending by id. */
  function SortById(s: seq<Topic>): (r: seq<Topic>)
    ensures |r| == |s|
    decreases |s|
  {
    if |s| == 0 then [] else InsertById(SortById(s[..|s| - 1]), s[|s| - 1])
  }

  predicate SortedById(s: seq<Topic>) {
    forall i, j :: 0 <= i < j < |s| ==> s[i].id <= s[j].id
  }

  /** The topics with a given id, in the order they occur. */
  function WithId(s: seq<Topic>, id: u32): seq<Topic>
    decreases |s|
  {
    if |s| == 0 then []
    else WithId(s[..|s| - 1], id) + (if s[|s| - 1].id == id then [s[|s| - 1]] else [])
  }

  lemma {:induction false} InsertByIdElements(sorted: seq<Topic>, t: Topic)
    ensures multiset(InsertById(sorted, t)) == multiset(sorted) + multiset{t}
    decreases |sorted|
  {
    if |sorted| > 0 && sorted[|sorted| - 1].id > t.id {
      var init, last := sorted[..|sorted| - 1], sorted[|sorted| - 1];
      InsertByIdElements(init, t);
      assert sorted == init + [last];
    }
  }

  lemma {:induction false} InsertByIdSorted(sorted: seq<Topic>, t: Topic)
    requires SortedById(sorted)
    ensures SortedById(InsertById(sorted, t))
    decreases |sorted|
  {
    if |sorted| > 0 && sorted[|sorted| - 1].id > t.id {
      var init, last := sorted[..|sorted| - 1], sorted[|sorted| - 1];
      InsertByIdSorted(init, t);
      InsertByIdElements(init, t);
      var r := InsertById(init, t);
      forall i | 0 <= i < |r|
        ensures r[i].id <= last.id
      {
        assert r[i] in multiset(r);
        assert r[i] == t || r[i] in multiset(init);
      }
    }
  }

  lemma {:induction false} InsertByIdWithId(sorted: seq<Topic>, t: Topic, id: u32)
    ensures WithId(InsertById(sorted, t), id) == WithId(sorted, id) + (if t.id == id then [t] else [])
    decreases |sorted|
  {
    var r := InsertById(sorted, t);
    if |sorted| == 0 || sorted[|sorted| - 1].id <= t.id {
      assert r[..|r| - 1] == sorted;
    } else {
      var init, last := sorted[..|sorted| - 1], sorted[|sorted| - 1];
      InsertByIdWithId(init, t, id);
      assert r[..|r| - 1] == InsertById(init, t);
    }
  }

  /** The sorted list is ascending by id. */
  lemma {:induction false} SortByIdSorted(s: seq<Topic>)
    ensures SortedById(SortById(s))
    decreases |s|
  {
    if |s| > 0 {
      SortByIdSorted(s[..|s| - 1]);
      InsertByIdSorted(SortById(s[..|s| - 1]), s[|s| - 1]);
    }
  }

  /** The sorted list holds exactly the topics it was given, none dropped or duplicated. */
  lemma {:induction false} SortByIdPermutes(s: seq<Topic>)
    ensures multiset(SortById(s)) == multiset(s)
    decreases |s|
  {
    if |s| > 0 {
      SortByIdPermutes(s[..|s| - 1]);
      InsertByIdElements(SortById(s[..|s| - 1]), s[|s| - 1]);
      assert s == s[..|s| - 1] + [s[|s| - 1]];
    }
  }

  /** The sort is stable: topics with the same id keep their order. */
  lemma {:induction false} SortByIdStable(s: seq<Topic>, id: u32)
    ensures WithId(SortById(s), id) == WithId(s, id)
    decreases |s|
  {
    if |s| > 0 {
      SortByIdStable(s[..|s| - 1], id);
      InsertByIdWithId(SortById(s[..|s| - 1]), s[|s| - 1], id);
    }
  }

  // ---------------------------------------------------------------- the record layout

  /** One record: id, partitions count and name length as 32-bit little-endian words, then the
      name. */
  function RecordBytes(t: Topic): seq<u8>
    requires |t.name| < 0x1_0000_0000
  {
    U32ToLe(t.id) + U32ToLe(t.partitions) + U32ToLe(|t.name|) + t.name
  }

  /** The records of a list of topics, one after the other. */
  function EncodeTopics(ts: seq<Topic>): seq<u8>
    requires forall t :: t in ts ==> |t.name| < 0x1_0000_0000
  {
    if |ts| == 0 then [] else RecordBytes(ts[0]) + EncodeTopics(ts[1..])
  }

  /** The parts of a record sit at offsets 0, 4, 8 and 12 of it. */
  lemma RecordFields(t: Topic, rest: seq<u8>)
    requires |t.name| < 0x1_0000_0000
    ensures var b := RecordBytes(t) + rest;
      && |b| == HeaderSize + |t.name| + |rest|
      && U32FromLe(b[0..4]) == t.id && U32FromLe(b[4..8]) == t.partitions
      && U32FromLe(b[8..12]) == |t.name|
      && b[HeaderSize..HeaderSize + |t.name|] == t.name && b[HeaderSize + |t.name|..] == rest
  {
    var b := RecordBytes(t) + rest;
    assert b[0..4] == U32ToLe(t.id);
    assert b[4..8] == U32ToLe(t.partitions);
    assert b[8..12] == U32ToLe(|t.name|);
    U32LeRoundTrip(t.id, b[0..4]);
    U32LeRoundTrip(t.partitions, b[4..8]);
    U32LeRoundTrip(|t.name|, b[8..12]);
  }

  /** Parsing the records of a list of topics gives back that list, in order: one topic per
      record. */
  lemma {:induction false} ParseEncoded(ts: seq<Topic>)
    requires forall t :: t in ts ==> |t.name| < 0x1_0000_0000 && Utf8.IsValid(t.name)
    ensures ParseRecords(EncodeTopics(ts)) == Ok(ts)
  {
    if |ts| > 0 {
      RecordFields(ts[0], EncodeTopics(ts[1..]));
      ParseEncoded(ts[1..]);
      assert [ts[0]] + ts[1..] == ts;
    }
  }

  /** The first record of a response is the record of the topic parsed from it. */
  lemma FirstRecord(bytes: seq<u8>)
    requires HeaderSize <= |bytes| && HeaderSize + U32FromLe(bytes[8..12]) <= |bytes|
    ensures var next := HeaderSize + U32FromLe(bytes[8..12]);
      RecordBytes(Topic(U32FromLe(bytes[0..4]), U32FromLe(bytes[4..8]), bytes[HeaderSize..next])) == bytes[..next]
  {
    var next := HeaderSize + U32FromLe(bytes[8..12]);
    U32LeRoundTrip(0, bytes[0..4]);
    U32LeRoundTrip(0, bytes[4..8]);
    U32LeRoundTrip(0, bytes[8..12]);
    assert bytes[..next] == bytes[0..4] + bytes[4..8] + bytes[8..12] + bytes[HeaderSize..next];
  }

  /** Conversely, every response that parses is the encoding of the topics it parses to. */
  lemma {:induction false} EncodeParsed(bytes: seq<u8>)
    requires ParseRecords(bytes).Ok?
    ensures EncodeTopics(ParseRecords(bytes).value) == bytes
    decreases |bytes|
  {
    if |bytes| > 0 {
      var next := HeaderSize + U32FromLe(bytes[8..12]);
      var rest := bytes[next..];
      var ts := ParseRecords(bytes).value;
      assert ts[1..] == ParseRecords(rest).value;
      EncodeParsed(rest);
      FirstRecord(bytes);
      assert bytes == bytes[..next] + rest;
    }
  }

  /** An empty response is an empty list. */
  lemma EmptyResponse()
    ensures Decode([]) == Ok([])
  {
  }

  /** Encoding topics in this layout and decoding the response gives them sorted by id. */
  lemma DecodeEncoded(ts: seq<Topic>)
    requires forall t :: t in ts ==> |t.name| < 0x1_0000_0000 && Utf8.IsValid(t.name)
    ensures Decode(EncodeTopics(ts)) == Ok(SortById(ts))
  {
    ParseEncoded(ts);
    if |ts| > 0 {
      assert |EncodeTopics(ts)| >= HeaderSize + |ts[0].name|;
    }
  }

  /** Whatever `handle_response` returns is ascending by id and holds exactly the records of
      the response, each in wire order among those with the same id. */
  lemma DecodeSortsRecords(response: seq<u8>, id: u32)
    requires Decode(response).Ok?
    ensures var ts := Decode(response).value;
      && SortedById(ts)
      && multiset(ts) == multiset(ParseRecords(response).value)
      && WithId(ts, id) == WithId(ParseRecords(response).value, id)
  {
    if |response| > 0 {
      var records := ParseRecords(response).value;
      SortByIdSorted(records);
      SortByIdPermutes(records);
      SortByIdStable(records, id);
    }
  }

  // ---------------------------------------------------------------- the imperative code

  /** The in-place `sort_by` on the vector of topics, as insertion sort. */
  method SortInPlace(a: array<Topic>)
    modifies a
    ensures a[..] == SortById(old(a[..]))
  {
    ghost var original := a[..];
    var i := 0;
    while i < a.Length
      invariant 0 <= i <= a.Length
      invariant a[..i] == SortById(original[..i])
      invariant a[i..] == original[i..]
    {
      assert original[..i + 1] == original[..i] + [original[i]];
      InsertInPlace(a, i);
      i := i + 1;
    }
    assert a[..] == a[..a.Length] && original == original[..a.Length];
  }

  /** One step of insertion sort: moves a[i] into the run a[..i] in front of it. */
  method InsertInPlace(a: array<Topic>, i: nat)
    requires i < a.Length
    modifies a
    ensures a[..i + 1] == InsertById(old(a[..i]), old(a[i]))
    ensures a[i + 1..] == old(a[i + 1..])
  {
    var t := a[i];
    ghost var sorted := a[..i];
    var j := i;
    while j > 0 && a[j - 1].id > t.id
      invariant 0 <= j <= i
      invariant forall k :: 0 <= k < j ==> a[k] == sorted[k]
      invariant forall k :: j < k <= i ==> a[k] == sorted[k - 1]
      invariant forall k :: i < k < a.Length ==> a[k] == old(a[k])
      invariant forall k :: j <= k < i ==> sorted[k].id > t.id
    {
      a[j] := a[j - 1];
      j := j - 1;
    }
    a[j] := t;
    InsertSplit(sorted, t, j);
    InsertFinish(old(a[..]), a[..], t, i, j);
  }

  /** After the shifts, the run reads: the elements not greater than t, t, then the greater
      ones; nothing behind the run has moved. */
  lemma InsertFinish(before: seq<Topic>, after: seq<Topic>, t: Topic, i: nat, j: nat)
    requires j <= i < |before| == |after|
    requires forall k :: 0 <= k < j ==> after[k] == before[..i][k]
    requires after[j] == t
    requires forall k :: j < k <= i ==> after[k] == before[..i][k - 1]
    requires forall k :: i < k < |after| ==> after[k] == before[k]
    ensures after[..i + 1] == before[..i][..j] + [t] + before[..i][j..]
    ensures after[i + 1..] == before[i + 1..]
  {
  }

  /** Where InsertById puts t: after the elements up to the last one not greater than t. */
  lemma {:induction false} InsertSplit(sorted: seq<Topic>, t: Topic, j: nat)
    requires j <= |sorted|
    requires forall k :: j <= k < |sorted| ==> sorted[k].id > t.id
    requires j == 0 || sorted[j - 1].id <= t.id
    ensures InsertById(sorted, t) == sorted[..j] + [t] + sorted[j..]
    decreases |sorted| - j
  {
    if j < |sorted| {
      var init := sorted[..|sorted| - 1];
      InsertSplit(init, t, j);
      assert init[..j] == sorted[..j] && init[j..] + [sorted[|sorted| - 1]] == sorted[j..];
    }
  }

  /** Parsing from a position inside the response: a record cut short, or the record at that
      position followed by the records after it. */
  lemma ParseAt(response: seq<u8>, position: nat)
    requires position < |response|
    ensures |response| < position + HeaderSize ==> ParseRecords(response[position..]) == Err(Truncated)
    ensures position + HeaderSize <= |response| ==>
      var nameLength := U32FromLe(response[position + 8..position + 12]);
      var next := position + HeaderSize + nameLength;
      ParseRecords(response[position..]) ==
        if |response| < next then Err(Truncated)
        else if !Utf8.IsValid(response[position + 12..next]) then Err(InvalidUtf8)
        else
          Prepend([Topic(U32FromLe(response[position..position + 4]), U32FromLe(response[position + 4..position + 8]),
                         response[position + 12..next])],
                  ParseRecords(response[next..]))
  {
    var rest := response[position..];
    if position + HeaderSize <= |response| {
      var nameLength := U32FromLe(response[position + 8..position + 12]);
      var next := position + HeaderSize + nameLength;
      assert rest[0..4] == response[position..position + 4] && rest[4..8] == response[position + 4..position + 8];
      assert rest[8..12] == response[position + 8..position + 12];
      if next <= |response| {
        assert rest[HeaderSize..HeaderSize + nameLength] == response[position + 12..next];
        assert rest[HeaderSize + nameLength..] == response[next..];
      }
    }
  }

  /** `handle_response`: the cursor loop over the records, then the sort by id. */
  method HandleResponse(response: seq<u8>) returns (r: Result<seq<Topic>, Panic>)
    ensures r == Decode(response)
  {
    if |response| == 0 {
      return Ok([]);
    }
    var topics: seq<Topic> := [];
    var length := |response|;
    var position := 0;
    assert response[0..] == response;
    PrependNothing(ParseRecords(response));
    while position < length
      invariant position <= length
      invariant ParseRecords(response) == Prepend(topics, ParseRecords(response[position..]))
      decreases length - position
    {
      ParseAt(response, position);
      if length < position + 4 {
        return Err(Truncated);
      }
      var id := U32FromLe(response[position..position + 4]);
      if length < position + 8 {
        return Err(Truncated);
      }
      var partitions := U32FromLe(response[position + 4..position + 8]);
      if length < position + 12 {
        return Err(Truncated);
      }
      var nameLength := U32FromLe(response[position + 8..position + 12]);
      if length < position + 12 + nameLength {
        return Err(Truncated);
      }
      var name := response[position + 12..position + 12 + nameLength];
      if !Utf8.IsValid(name) {
        return Err(InvalidUtf8);
      }
      PrependOneMore(topics, Topic(id, partitions, name), ParseRecords(response[position + 12 + nameLength..]));
      topics := topics + [Topic(id, partitions, name)];
      position := position + 4 + 4 + 4 + nameLength;
      if position >= length {
        break;
      }
    }
    assert response[position..] == [];
    assert topics + [] == topics;
    var a := new Topic[|topics|](i requires 0 <= i < |topics| => topics[i]);
    assert a[..] == topics;
    SortInPlace(a);
    return Ok(a[..]);
  }
}
