/** The publishing station and its subscribers: broadcasting_station.cpp relays, SubStation.cs unpacks. */
module Publish {
  import opened Common
  import opened Wire

  // ---------- The relay ----------

  /** The last index up to `hi` with this type, or 0. */
  function Last(descr: Frame, t: Byte, hi: nat): (r: nat)
    ensures r == 0 || (2 <= r <= hi && At(descr, r) == t)
    ensures forall i | r < i <= hi && 2 <= i :: At(descr, i) != t
  {
    if hi < 2 then 0 else if At(descr, hi) == t then hi else Last(descr, t, hi - 1)
  }

  datatype Relay = Refused | OutOfRange | Relayed(frames: seq<Frame>)

  /** The indices that `job_start` finds, and whether they all lie inside the list it then reads. */
  predicate InRange(list: seq<Frame>, n: nat)
    requires 2 <= |list|
  {
    var d := list[1];
    && Last(d, REQUEST_ID, n + 2) < |list| && Last(d, REQUESTER, n + 2) < |list|
    && Last(d, GLOBAL_ID, n + 2) < |list| && Last(d, TITLE, n + 2) < |list|
  }

  /** `job_start` of the publishing station, on the list without the inner address. */
  function JobStart(list: seq<Frame>): Relay
    requires 2 <= |list|
  {
    var n := FrameSize(list[1]);
    var tid := Last(list[1], TITLE, n + 2);
    if !InRange(list, n) then OutOfRange
    else if tid == 0 then Refused
    else Relayed([list[tid]] + list[1..])
  }

  /** The loop of `job_start`; it also looks at the byte behind the last type. */
  method Scan(descr: Frame) returns (rid: nat, cid: nat, gid: nat, tid: nat)
    ensures var hi := FrameSize(descr) + 2;
      && rid == Last(descr, REQUEST_ID, hi) && cid == Last(descr, REQUESTER, hi)
      && gid == Last(descr, GLOBAL_ID, hi) && tid == Last(descr, TITLE, hi)
  {
    rid, cid, gid, tid := 0, 0, 0, 0;
    var idx := 2;
    var hi := FrameSize(descr) + 2;
    while idx <= hi
      invariant 2 <= idx <= hi + 1
      invariant rid == Last(descr, REQUEST_ID, idx - 1) && cid == Last(descr, REQUESTER, idx - 1)
      invariant gid == Last(descr, GLOBAL_ID, idx - 1) && tid == Last(descr, TITLE, idx - 1)
    {
      var t := At(descr, idx);
      if t == REQUEST_ID {
        rid := idx;
      } else if t == REQUESTER {
        cid := idx;
      } else if t == GLOBAL_ID {
        gid := idx;
      } else if t == TITLE {
        tid := idx;
      }
      idx := idx + 1;
    }
  }

  method RelayMessage(list: seq<Frame>) returns (r: Relay)
    requires 2 <= |list|
    ensures r == JobStart(list)
  {
    var rid, cid, gid, tid := Scan(list[1]);
    if rid >= |list| || cid >= |list| || gid >= |list| || tid >= |list| {
      return OutOfRange;
    }
    if tid == 0 {
      return Refused;
    }
    var out := list;
    out := out[0 := list[tid]];
    assert out == [list[tid]] + list[1..];
    r := Relayed(out);
  }

  predicate Scanned(t: Byte) {
    t == REQUEST_ID || t == REQUESTER || t == GLOBAL_ID || t == TITLE
  }

  /** An accepted message is read outside its list exactly when the byte behind its last type is one that is looked for. */
  lemma OutOfRangeIff(list: seq<Frame>)
    requires WellCounted(list)
    ensures JobStart(list).OutOfRange? <==> Scanned(At(list[1], list[1][0] + 2))
  {
  }

  /**
    What becomes of an accepted message: read outside, refused exactly without a title, and otherwise relayed with its last
    title in front and nothing else changed.
   */
  lemma RelayIs(list: seq<Frame>)
    requires WellCounted(list) && !Scanned(At(list[1], list[1][0] + 2))
    ensures JobStart(list).Refused? <==> forall i | 2 <= i < |list| :: At(list[1], i) != TITLE
    ensures !JobStart(list).Refused? ==>
              exists t :: 2 <= t < |list| && At(list[1], t) == TITLE && (forall i | t < i < |list| :: At(list[1], i) != TITLE)
                          && JobStart(list) == Relayed([list[t]] + list[1..])
  {
    OutOfRangeIff(list);
    var t := Last(list[1], TITLE, |list|);
    hide InRange;
    assert t != |list|;
    assert t != 0 ==> At(list[1], t) == TITLE;
  }

  /** A message that is counted right and accepted, with one title byte too many. */
  lemma ExtraByteIsRead(identity: Frame, title: Frame)
    requires |identity| < WORD / 2 && |title| < WORD / 2
    ensures var list := [identity, [1, STATE_NONE, TITLE, TITLE], title];
      Request(list, false, PUBLISH, false).Started? && JobStart(list).OutOfRange?
  {
    var list := [identity, [1, STATE_NONE, TITLE, TITLE], title];
    AcceptedIff(list, false, PUBLISH);
    OutOfRangeIff(list);
    hide Last, InRange;
  }

  // ---------- The subscriber ----------

  /** What `Unpack` fills; strings stay the bytes they are decoded from. */
  datatype Item = Item(
    title: Frame, state: Byte, subTitle: Option<Frame>, station: Option<Frame>, publisher: Option<Frame>,
    content: Option<Frame>, buffer: Option<Frame>, tson: Option<Frame>, values: seq<Frame>)

  function Put(item: Item, t: Byte, bytes: Frame): Item {
    if t == SUB_TITLE then item.(subTitle := Some(bytes))
    else if t == STATION_ID then item.(station := Some(bytes))
    else if t == REQUESTER then item.(publisher := Some(bytes))
    else if t == CONTENT then
      if item.content.None? then item.(content := Some(bytes)) else item.(values := item.values + [bytes])
    else if t == BINARY then item.(buffer := Some(bytes))
    else if t == TSON then item.(tson := Some(bytes))
    else item.(values := item.values + [bytes])
  }

  /** The frames up to `end`; reading a type behind the descriptor throws, but an empty frame asks for no type. */
  function PutUpTo(item: Item, frames: seq<Frame>, end: nat): Option<Item>
    requires end <= |frames| && 2 <= |frames|
    decreases end
  {
    if end <= 2 then Some(item)
    else
      var before := PutUpTo(item, frames, end - 1);
      var descr, bytes := frames[1], frames[end - 1];
      if before.None? || bytes == [] then before
      else if end - 1 >= |descr| then None
      else Some(Put(before.value, descr[end - 1], bytes))
  }

  function Blank(frames: seq<Frame>): Item
    requires 2 <= |frames| && 2 <= |frames[1]|
  {
    Item(frames[0], frames[1][1], None, None, None, None, None, None, [])
  }

  function Unpack(frames: seq<Frame>): Option<Item> {
    if |frames| < 3 || |frames[1]| < 2 || frames[1][0] as int + 2 != |frames| then None
    else PutUpTo(Blank(frames), frames, |frames|)
  }

  method UnpackMessage(frames: seq<Frame>) returns (r: Option<Item>)
    ensures r == Unpack(frames)
  {
    if |frames| < 3 {
      return None;
    }
    var descr := frames[1];
    if |descr| < 2 {
      return None;
    }
    var end := descr[0] as int + 2;
    if end != |frames| {
      return None;
    }
    var item := Blank(frames);
    var idx := 2;
    while idx < end
      invariant 2 <= idx <= end
      invariant PutUpTo(Blank(frames), frames, idx) == Some(item)
    {
      var bytes := frames[idx];
      if |bytes| != 0 {
        if idx >= |descr| {
          NoneStays(Blank(frames), frames, idx + 1, end);
          return None;
        }
        item := Put(item, descr[idx], bytes);
      }
      idx := idx + 1;
    }
    r := Some(item);
  }

  lemma {:induction false} NoneStays(item: Item, frames: seq<Frame>, at: nat, end: nat)
    requires 2 <= |frames| && at <= end <= |frames| && PutUpTo(item, frames, at).None?
    ensures PutUpTo(item, frames, end).None?
    decreases end
  {
    if at < end {
      NoneStays(item, frames, at, end - 1);
    }
  }

  // ---------- What an item holds, read off the message ----------

  predicate IsFrame(frames: seq<Frame>, t: Byte, i: nat)
    requires 2 <= |frames| && i < |frames|
  {
    frames[i] != [] && At(frames[1], i) == t
  }

  /** The last frame of this type before `end` that is not empty. */
  function LastFrame(frames: seq<Frame>, t: Byte, end: nat): Option<Frame>
    requires 2 <= |frames| && end <= |frames|
    decreases end
  {
    if end <= 2 then None
    else if IsFrame(frames, t, end - 1) then Some(frames[end - 1])
    else LastFrame(frames, t, end - 1)
  }

  function FirstFrame(frames: seq<Frame>, t: Byte, end: nat): Option<Frame>
    requires 2 <= |frames| && end <= |frames|
    decreases end
  {
    if end <= 2 then None
    else if FirstFrame(frames, t, end - 1).Some? then FirstFrame(frames, t, end - 1)
    else if IsFrame(frames, t, end - 1) then Some(frames[end - 1])
    else None
  }

  predicate Named(t: Byte) {
    t == SUB_TITLE || t == STATION_ID || t == REQUESTER || t == CONTENT || t == BINARY || t == TSON
  }

  /** Every other frame, and every content but the first, in order. */
  function Others(frames: seq<Frame>, end: nat): seq<Frame>
    requires 2 <= |frames| && end <= |frames|
    decreases end
  {
    if end <= 2 then []
    else
      var bytes, t := frames[end - 1], At(frames[1], end - 1);
      Others(frames, end - 1) +
      if bytes != [] && (!Named(t) || (t == CONTENT && FirstFrame(frames, CONTENT, end - 1).Some?)) then [bytes] else []
  }

  /** The item, field by field, as a function of the message alone. */
  function Expected(frames: seq<Frame>, end: nat): Item
    requires 2 <= |frames| && 2 <= |frames[1]| && end <= |frames|
  {
    Item(frames[0], frames[1][1],
         LastFrame(frames, SUB_TITLE, end), LastFrame(frames, STATION_ID, end), LastFrame(frames, REQUESTER, end),
         FirstFrame(frames, CONTENT, end), LastFrame(frames, BINARY, end), LastFrame(frames, TSON, end), Others(frames, end))
  }

  lemma {:induction false} PutUpToExpected(frames: seq<Frame>, end: nat)
    requires 2 <= |frames| && 2 <= |frames[1]| && end <= |frames|
    ensures PutUpTo(Blank(frames), frames, end).Some? <==> forall i | 2 <= i < end :: frames[i] == [] || i < |frames[1]|
    ensures PutUpTo(Blank(frames), frames, end).Some? ==> PutUpTo(Blank(frames), frames, end).value == Expected(frames, end)
    decreases end
  {
    if end > 2 {
      PutUpToExpected(frames, end - 1);
    }
  }

  /** Exactly what can be unpacked: three frames or more, as many as are counted, and a type for each that is not empty. */
  lemma UnpackIff(frames: seq<Frame>)
    ensures Unpack(frames).Some? <==>
            && |frames| >= 3 && |frames[1]| >= 2 && frames[1][0] as int + 2 == |frames|
            && forall i | 2 <= i < |frames| :: frames[i] == [] || i < |frames[1]|
    ensures Unpack(frames).Some? ==> Unpack(frames).value == Expected(frames, |frames|)
  {
    if |frames| >= 3 && |frames[1]| >= 2 {
      PutUpToExpected(frames, |frames|);
    }
    hide PutUpTo, Expected;
  }

  /** The field a type is stored in. */
  function Field(item: Item, t: Byte): Option<Frame> {
    if t == SUB_TITLE then item.subTitle
    else if t == STATION_ID then item.station
    else if t == REQUESTER then item.publisher
    else if t == BINARY then item.buffer
    else if t == TSON then item.tson
    else if t == CONTENT then item.content
    else None
  }

  /** The field that each byte names. */
  lemma FieldBytes(item: Item)
    ensures Field(item, 0x40) == item.subTitle && Field(item, 0x02) == item.station && Field(item, 0x3E) == item.publisher
    ensures Field(item, 0x54) == item.content && Field(item, 0x42) == item.buffer && Field(item, 0x56) == item.tson
  {
  }

  /** A frame that no later one of its type replaces is the last of its type. */
  lemma {:induction false} LastFrameIs(frames: seq<Frame>, t: Byte, i: nat, end: nat)
    requires 2 <= |frames| && 2 <= i < end <= |frames| && IsFrame(frames, t, i)
    requires forall j | i < j < end :: !IsFrame(frames, t, j)
    ensures LastFrame(frames, t, end) == Some(frames[i])
    decreases end
  {
    if i < end - 1 {
      assert !IsFrame(frames, t, end - 1);
      LastFrameIs(frames, t, i, end - 1);
    }
  }

  lemma {:induction false} FirstFrameIs(frames: seq<Frame>, t: Byte, i: nat, end: nat)
    requires 2 <= |frames| && 2 <= i < end <= |frames| && IsFrame(frames, t, i)
    requires forall j | 2 <= j < i :: !IsFrame(frames, t, j)
    ensures FirstFrame(frames, t, end) == Some(frames[i])
    decreases end
  {
    if i < end - 1 {
      FirstFrameIs(frames, t, i, end - 1);
    } else {
      NoFirstFrame(frames, t, i);
    }
  }

  lemma {:induction false} NoFirstFrame(frames: seq<Frame>, t: Byte, end: nat)
    requires 2 <= |frames| && end <= |frames| && forall j | 2 <= j < end :: !IsFrame(frames, t, j)
    ensures FirstFrame(frames, t, end).None?
    decreases end
  {
    if end > 2 {
      NoFirstFrame(frames, t, end - 1);
    }
  }

  // ---------- End to end ----------

  /** Exactly one frame is typed as the title. */
  predicate OneTitle(list: seq<Frame>, t: nat)
    requires 2 <= |list|
  {
    2 <= t < |list| && At(list[1], t) == TITLE && forall i | 2 <= i < |list| && i != t :: At(list[1], i) != TITLE
  }

  lemma TitleFound(list: seq<Frame>, t: nat)
    requires WellCounted(list) && OneTitle(list, t) && !Scanned(At(list[1], |list|))
    ensures Last(list[1], TITLE, |list|) == t
  {
  }

  /**
    End to end: a publish message that `request` accepts, with one title frame, is relayed; the relayed message passes the
    subscriber's count check, and is unpacked exactly when the descriptor types its last frame or that frame is empty.
    Then the title is the title, and each field holds the last non-empty frame of its type (the first, for content).
   */
  lemma SubscriberGetsPublication(list: seq<Frame>, inner: bool, kind: int, t: nat)
    requires list != [] && (forall i | 0 <= i < |list| :: |list[i]| < WORD / 2) && Request(list, inner, kind, false).Started?
    requires OneTitle(Outer(list, inner), t) && !Scanned(At(Outer(list, inner)[1], |Outer(list, inner)|))
    ensures var sent := Outer(list, inner); WellCounted(sent) && JobStart(sent) == Relayed([sent[t]] + sent[1..])
    ensures var sent := Outer(list, inner); var out := [sent[t]] + sent[1..];
      && |out| == out[1][0] + 2
      && (Unpack(out).Some? <==> |out[1]| >= |out| || out[|out| - 1] == [])
      && (Unpack(out).Some? ==> Unpack(out).value == Expected(out, |out|) && Unpack(out).value.title == sent[t])
  {
    AcceptedIff(list, inner, kind);
    var sent := Outer(list, inner);
    OutOfRangeIff(sent);
    TitleFound(sent, t);
    var out := [sent[t]] + sent[1..];
    PutUpToExpected(out, |out|);
    hide PutUpTo, Expected, Last, Request;
  }

  /** Every frame that is not empty and has no field of its own is among the values. */
  lemma {:induction false} OthersHas(frames: seq<Frame>, i: nat, end: nat)
    requires 2 <= |frames| && 2 <= i < end <= |frames| && frames[i] != [] && !Named(At(frames[1], i))
    ensures frames[i] in Others(frames, end)
    decreases end
  {
    if i < end - 1 {
      OthersHas(frames, i, end - 1);
    }
  }

  /** The subscriber gets the title twice: as the title, and among the values unless it is empty. */
  lemma TitleComesTwice(list: seq<Frame>, inner: bool, kind: int, t: nat)
    requires list != [] && (forall i | 0 <= i < |list| :: |list[i]| < WORD / 2) && Request(list, inner, kind, false).Started?
    requires OneTitle(Outer(list, inner), t) && !Scanned(At(Outer(list, inner)[1], |Outer(list, inner)|))
    ensures var sent := Outer(list, inner); var r := Unpack([sent[t]] + sent[1..]);
      r.Some? ==> r.value.title == sent[t] && (sent[t] != [] ==> sent[t] in r.value.values)
  {
    SubscriberGetsPublication(list, inner, kind, t);
    var sent := Outer(list, inner);
    var out := [sent[t]] + sent[1..];
    assert out[t] == sent[t] && out[1] == sent[1];
    if sent[t] != [] {
      OthersHas(out, t, |out|);
    }
    hide Unpack, Others, LastFrame, FirstFrame, Request;
  }

  /** Every non-empty publisher, subtitle, station, content, binary or TSON frame that is the only one of its type arrives under it. */
  lemma FieldsArrive(frames: seq<Frame>, i: nat)
    requires Unpack(frames).Some? && 2 <= i < |frames| && frames[i] != [] && Named(At(frames[1], i))
    requires forall j | 2 <= j < |frames| && j != i :: !IsFrame(frames, At(frames[1], i), j)
    ensures Field(Unpack(frames).value, At(frames[1], i)) == Some(frames[i])
  {
    PutUpToExpected(frames, |frames|);
    var t := At(frames[1], i);
    LastFrameIs(frames, t, i, |frames|);
    FirstFrameIs(frames, t, i, |frames|);
    hide PutUpTo, LastFrame, FirstFrame, Others;
  }

  // ---------- The centre's own publications ----------

  /** `publish(publisher, title, sub, arg)`: nothing is sent without a publisher. */
  function PublishEvent(publisher: Frame, title: Frame, sub: Frame, arg: Frame, globalId: Frame): Option<seq<Frame>> {
    if publisher == [] then None
    else Some([title, [4, STATE_NONE, REQUESTER, SUB_TITLE, CONTENT, GLOBAL_ID], publisher, sub, arg, globalId])
  }

  function NonEmpty(bytes: Frame): Option<Frame> {
    if bytes == [] then None else Some(bytes)
  }

  /** An event of the centre comes back whole at every subscriber; its global id is among the untyped values. */
  lemma EventRoundTrip(publisher: Frame, title: Frame, sub: Frame, arg: Frame, globalId: Frame)
    requires globalId != []
    ensures var sent := PublishEvent(publisher, title, sub, arg, globalId);
      && (sent.None? <==> publisher == [])
      && (sent.Some? ==> |sent.value| == 6 && sent.value[1] == [4, 1, 0x3E, 0x40, 0x54, 1])
      && (sent.Some? ==>
            Unpack(sent.value)
            == Some(Item(title, STATE_NONE, NonEmpty(sub), None, Some(publisher), NonEmpty(arg), None, None, [globalId])))
  {
    if publisher != [] {
      var frames := PublishEvent(publisher, title, sub, arg, globalId).value;
      var i0 := Blank(frames);
      assert PutUpTo(i0, frames, 2) == Some(i0);
      var i1 := i0.(publisher := Some(publisher));
      assert PutUpTo(i0, frames, 3) == Some(i1);
      var i2 := i1.(subTitle := NonEmpty(sub));
      assert PutUpTo(i0, frames, 4) == Some(i2);
      var i3 := i2.(content := NonEmpty(arg));
      assert PutUpTo(i0, frames, 5) == Some(i3);
      assert i3.values + [globalId] == [globalId];
      assert PutUpTo(i0, frames, 6) == Some(i3.(values := [globalId]));
    }
  }
}
