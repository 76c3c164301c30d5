/** The TSON loop of BatchPublisher.cs. */
module Batching {
  import opened Common

  /** What is written for one item: a marker for null, or the object. */
  datatype Entry<T> = Empty | Object(item: T)

  /** One list on the wire: the length in its header, then the entries. */
  datatype Chunk<T> = Chunk(len: nat, entries: seq<Entry<T>>)

  const MOST := 255

  function Written<T>(item: Option<T>): Entry<T> {
    if item.None? then Empty else Object(item.value)
  }

  function AllWritten<T>(list: seq<Option<T>>): seq<Entry<T>> {
    seq(|list|, i requires 0 <= i < |list| => Written(list[i]))
  }

  lemma WrittenAppend<T>(a: seq<Option<T>>, b: seq<Option<T>>)
    ensures AllWritten(a + b) == AllWritten(a) + AllWritten(b)
  {
  }

  lemma WrittenNone<T>(list: seq<Option<T>>)
    requires list == []
    ensures AllWritten(list) == []
  {
  }

  lemma WrittenNext<T>(list: seq<Option<T>>, start: nat, idx: nat)
    requires start <= idx < |list|
    ensures AllWritten(list[start..idx + 1]) == AllWritten(list[start..idx]) + [Written(list[idx])]
  {
  }

  function ChunkSize(left: nat): nat {
    if left > MOST then MOST else left
  }

  function Chunks<T>(list: seq<Option<T>>): seq<Chunk<T>>
    decreases |list|
  {
    if list == [] then []
    else
      var n := ChunkSize(|list|);
      [Chunk(n, AllWritten(list[..n]))] + Chunks(list[n..])
  }

  /** One serializer: a header, then `len` entries from `start` on. */
  method WriteArray<T>(list: seq<Option<T>>, start: nat, len: nat) returns (chunk: Chunk<T>, idx: nat)
    requires start + len <= |list|
    ensures chunk == Chunk(len, AllWritten(list[start..start + len])) && idx == start + len
  {
    hide AllWritten;
    WrittenNone(list[start..start]);
    idx := start;
    var size := len;
    var entries: seq<Entry<T>> := [];
    while size > 0 && idx < |list|
      invariant start <= idx <= |list| && size == start + len - idx
      invariant entries == AllWritten(list[start..idx])
    {
      WrittenNext(list, start, idx);
      if list[idx].None? {
        entries := entries + [Empty];
      } else {
        entries := entries + [Object(list[idx].value)];
      }
      idx, size := idx + 1, size - 1;
    }
    chunk := Chunk(len, entries);
  }

  method PublishAll<T>(list: seq<Option<T>>) returns (sent: seq<Chunk<T>>)
    ensures sent == Chunks(list)
  {
    sent := [];
    var idx := 0;
    assert list[0..] == list;
    while idx < |list|
      invariant 0 <= idx <= |list|
      invariant sent + Chunks(list[idx..]) == Chunks(list)
    {
      var size := |list| - idx;
      if size > MOST {
        size := MOST;
      }
      ghost var rest := list[idx..];
      assert rest[..size] == list[idx..idx + size] && rest[size..] == list[idx + size..];
      var chunk, next := WriteArray(list, idx, size);
      sent := sent + [chunk];
      idx := next;
    }
  }

  /** The reader: as many entries as the header says, list after list. */
  function Read<T>(sent: seq<Chunk<T>>): seq<Entry<T>>
    decreases |sent|
  {
    if sent == [] then []
    else (if sent[0].len <= |sent[0].entries| then sent[0].entries[..sent[0].len] else sent[0].entries) + Read(sent[1..])
  }

  lemma ReadFirst<T>(first: Chunk<T>, rest: seq<Chunk<T>>)
    requires |first.entries| == first.len
    ensures Read([first] + rest) == first.entries + Read(rest)
  {
    assert ([first] + rest)[1..] == rest;
  }

  /** The chunks concatenate to the list, each holds 1 to 255 entries and says so, and only the last may be short. */
  lemma {:induction false} ChunksPartition<T>(list: seq<Option<T>>)
    ensures Read(Chunks(list)) == AllWritten(list)
    ensures forall i | 0 <= i < |Chunks(list)| :: 1 <= Chunks(list)[i].len <= 255 && |Chunks(list)[i].entries| == Chunks(list)[i].len
    ensures forall i | 0 <= i < |Chunks(list)| - 1 :: Chunks(list)[i].len == 255
    decreases |list|
  {
    if list == [] {
    } else {
      var n := ChunkSize(|list|);
      var first, rest := Chunk(n, AllWritten(list[..n])), list[n..];
      ChunksUnfold(list);
      ReadFirst(first, Chunks(rest));
      assert list[..n] + rest == list;
      WrittenAppend(list[..n], rest);
      ChunksPartition(rest);
      hide *;
    }
  }

  lemma ChunksUnfold<T>(list: seq<Option<T>>)
    requires list != []
    ensures var n := ChunkSize(|list|);
            var first := Chunk(n, AllWritten(list[..n]));
            && Chunks(list) == [first] + Chunks(list[n..])
            && 1 <= n <= |list| && n <= 255 && |first.entries| == n
            && (n < 255 ==> Chunks(list[n..]) == [])
  {
    var n := ChunkSize(|list|);
    assert |AllWritten(list[..n])| == n;
    assert n < 255 ==> list[n..] == [];
  }

  /** What the reader makes of an entry: a marker is null, an object is itself. */
  function Understood<T>(entries: seq<Entry<T>>): seq<Option<T>>
    decreases |entries|
  {
    if entries == [] then []
    else [match entries[0] case Empty => None case Object(item) => Some(item)] + Understood(entries[1..])
  }

  lemma {:induction false} WrittenIsUnderstood<T>(list: seq<Option<T>>)
    ensures Understood(AllWritten(list)) == list
    decreases |list|
  {
    if list != [] {
      assert AllWritten(list)[1..] == AllWritten(list[1..]) && AllWritten(list)[0] == Written(list[0]);
      WrittenIsUnderstood(list[1..]);
    }
  }

  /** What arrives is the list that was published, nulls included, in order. */
  lemma PublishedIsRead<T>(list: seq<Option<T>>)
    ensures Understood(Read(Chunks(list))) == list
  {
    hide Understood, Read, Chunks, AllWritten;
    ChunksPartition(list);
    WrittenIsUnderstood(list);
  }
}
