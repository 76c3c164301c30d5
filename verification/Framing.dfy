/** Multi-part messages on a ZeroMQ socket: zmq_extend.h on the centre's side, ZSocket.cs and ZeroCommandExtend.cs on the client's. */
module Framing {
  import opened Common
  import opened Wire

  /** One frame on a socket, and whether more of its message follows. */
  datatype Part = Part(frame: Frame, more: bool)

  /** A frame list as one message: all parts but the last say that more follows; an empty list becomes one empty frame. */
  function Message(ls: seq<Frame>): (r: seq<Part>)
    ensures |r| == if ls == [] then 1 else |ls|
  {
    if ls == [] then [Part([], false)] else seq(|ls|, i requires 0 <= i < |ls| => Part(ls[i], i < |ls| - 1))
  }

  datatype Received = Pending | Received(frames: seq<Frame>, rest: seq<Part>)

  /** The first message of what lies on a socket. */
  function Cut(wire: seq<Part>): Received
    decreases |wire|
  {
    if wire == [] then Pending
    else if !wire[0].more then Received([wire[0].frame], wire[1..])
    else
      match Cut(wire[1..])
      case Pending => Pending
      case Received(frames, rest) => Received([wire[0].frame] + frames, rest)
  }

  // ---------- Sending and receiving on the centre's side ----------

  class Socket {
    var wire: seq<Part>

    constructor ()
      ensures wire == []
    {
      wire := [];
    }

    method SendPart(frame: Frame, more: bool)
      modifies this
      ensures wire == old(wire) + [Part(frame, more)]
    {
      wire := wire + [Part(frame, more)];
    }

    /** `send` from an index on. */
    method Send(ls: seq<Frame>, first: nat)
      modifies this
      ensures wire == old(wire) + Message(if first >= |ls| then [] else ls[first..])
    {
      if first >= |ls| {
        SendPart([], false);
        return;
      }
      ghost var sent := Message(ls[first..]);
      var idx := first;
      while idx < |ls| - 1
        invariant first <= idx <= |ls| - 1
        invariant wire == old(wire) + sent[..idx - first]
      {
        SendPart(ls[idx], true);
        assert sent[..idx - first] + [sent[idx - first]] == sent[..idx + 1 - first];
        idx := idx + 1;
      }
      SendPart(ls[idx], false);
      assert sent[..idx - first] + [sent[idx - first]] == sent;
    }

    /** `recv`: frame by frame while the socket says that more follows. */
    method Recv() returns (ls: Option<seq<Frame>>)
      modifies this
      ensures match Cut(old(wire))
              case Pending => ls.None?
              case Received(frames, rest) => ls == Some(frames) && wire == rest
    {
      var got: seq<Frame> := [];
      var more := true;
      while more
        invariant more ==> Cut(old(wire)) == Prefixed(got, Cut(wire))
        invariant !more ==> Cut(old(wire)) == Received(got, wire)
        decreases |wire|, more
      {
        if wire == [] {
          return None;
        }
        var part := wire[0];
        wire := wire[1..];
        PrefixedTwice(got, [part.frame], Cut(wire));
        got := got + [part.frame];
        more := part.more;
      }
      ls := Some(got);
    }

    method SendOptional(f: Option<Frame>, more: bool)
      modifies this
      ensures wire == old(wire) + OptionalPart(f, more)
    {
      if f.Some? {
        SendPart(f.value, more);
      }
    }

    /** `send_status`: which frames follow the descriptor, and which of them is sent without the more flag. */
    method SendStatus(addr: Frame, state: Byte, globalId: Option<Frame>, reqId: Option<Frame>, reqer: Option<Frame>, msg: Option<Frame>)
      modifies this
      ensures wire == old(wire) + Message([addr] + StatusFrames(state, globalId, reqId, reqer, msg))
    {
      hide Message, OptionalPart, StatusDescriptor, Present;
      var descr := BuildStatusDescriptor(state, globalId, reqId, reqer, msg);
      var reqerMore, reqIdMore, descrMore, msgMore := true, true, true, true;
      if globalId.None? {
        if reqId.Some? {
          reqIdMore := false;
        } else if msg.Some? {
          msgMore := false;
        } else if reqer.Some? {
          reqerMore := false;
        } else {
          descrMore := false;
        }
      }
      ghost var before := wire;
      SendPart(addr, true);
      SendPart(descr, descrMore);
      SendOptional(reqer, reqerMore);
      SendOptional(msg, msgMore);
      SendOptional(reqId, reqIdMore);
      SendOptional(globalId, false);
      Regroup(before, [Part(addr, true)], [Part(descr, descrMore)], OptionalPart(reqer, reqerMore), OptionalPart(msg, msgMore),
              OptionalPart(reqId, reqIdMore), OptionalPart(globalId, false));
      FlagsMakeMessage(addr, descr, globalId, reqId, reqer, msg, descrMore, reqerMore, msgMore, reqIdMore);
      StatusBehindAddress(addr, state, globalId, reqId, reqer, msg);
    }

    static method AddType(descr: array<Byte>, idx: nat, t: Byte, f: Option<Frame>) returns (next: nat)
      requires idx < descr.Length
      modifies descr
      ensures next == idx + |Typed(t, f)| && descr[..next] == old(descr[..idx]) + Typed(t, f)
    {
      next := idx;
      if f.Some? {
        descr[next] := t;
        next := next + 1;
      }
    }

    static method AddTypes(descr: array<Byte>, globalId: Option<Frame>, reqId: Option<Frame>, reqer: Option<Frame>, msg: Option<Frame>)
      returns (idx: nat)
      requires descr.Length == 8
      modifies descr
      ensures idx == 2 + |StatusTypes(globalId, reqId, reqer, msg)|
      ensures descr[..idx] == old(descr[..2]) + StatusTypes(globalId, reqId, reqer, msg)
    {
      hide Typed;
      TypedAreShort(globalId, reqId, reqer, msg);
      idx := AddType(descr, 2, REQUESTER, reqer);
      idx := AddType(descr, idx, STATUS, msg);
      idx := AddType(descr, idx, REQUEST_ID, reqId);
      idx := AddType(descr, idx, GLOBAL_ID, globalId);
    }

    static method BuildStatusDescriptor(
        state: Byte, globalId: Option<Frame>, reqId: Option<Frame>, reqer: Option<Frame>, msg: Option<Frame>)
      returns (r: Frame)
      ensures r == StatusDescriptor(state, globalId, reqId, reqer, msg)
    {
      hide StatusTypes;
      var descr := new Byte[8](_ => 0);
      descr[1] := state;
      var idx := AddTypes(descr, globalId, reqId, reqer, msg);
      descr[0] := idx - 2;
      descr[idx] := FRAME_END;
      r := descr[..idx + 1];
      assert r == [|StatusTypes(globalId, reqId, reqer, msg)|, state] + StatusTypes(globalId, reqId, reqer, msg) + [FRAME_END];
    }
  }

  lemma TypedAreShort(globalId: Option<Frame>, reqId: Option<Frame>, reqer: Option<Frame>, msg: Option<Frame>)
    ensures |Typed(REQUESTER, reqer)| <= 1 && |Typed(STATUS, msg)| <= 1 && |Typed(REQUEST_ID, reqId)| <= 1 && |Typed(GLOBAL_ID, globalId)| <= 1
  {
  }

  lemma StatusBehindAddress(addr: Frame, state: Byte, globalId: Option<Frame>, reqId: Option<Frame>, reqer: Option<Frame>, msg: Option<Frame>)
    ensures [addr] + StatusFrames(state, globalId, reqId, reqer, msg)
         == [addr, StatusDescriptor(state, globalId, reqId, reqer, msg)] + Present(reqer) + Present(msg) + Present(reqId) + Present(globalId)
  {
    hide StatusDescriptor, Present;
    var descr := StatusDescriptor(state, globalId, reqId, reqer, msg);
    var tail := StatusTail(globalId, reqId, reqer, msg);
    assert [addr] + ([descr] + tail) == [addr, descr] + tail by {
      hide StatusTail;
    }
    RegroupFrames([addr, descr], Present(reqer), Present(msg), Present(reqId), Present(globalId));
  }

  lemma RegroupFrames(a: seq<Frame>, b: seq<Frame>, c: seq<Frame>, d: seq<Frame>, e: seq<Frame>)
    ensures a + (b + c + d + e) == a + b + c + d + e
  {
  }

  function OptionalPart(f: Option<Frame>, more: bool): seq<Part> {
    if f.Some? then [Part(f.value, more)] else []
  }

  lemma Regroup(w: seq<Part>, a: seq<Part>, b: seq<Part>, c: seq<Part>, d: seq<Part>, e: seq<Part>, f: seq<Part>)
    ensures w + a + b + c + d + e + f == w + (a + b + c + d + e + f)
  {
  }

  /** The flags that `send_status` computes mark exactly the last part it sends. */
  lemma FlagsMakeMessage(
      addr: Frame, descr: Frame, globalId: Option<Frame>, reqId: Option<Frame>, reqer: Option<Frame>, msg: Option<Frame>,
      descrMore: bool, reqerMore: bool, msgMore: bool, reqIdMore: bool)
    requires reqIdMore <==> !(globalId.None? && reqId.Some?)
    requires msgMore <==> !(globalId.None? && reqId.None? && msg.Some?)
    requires reqerMore <==> !(globalId.None? && reqId.None? && msg.None? && reqer.Some?)
    requires descrMore <==> !(globalId.None? && reqId.None? && msg.None? && reqer.None?)
    ensures [Part(addr, true)] + [Part(descr, descrMore)] + OptionalPart(reqer, reqerMore) + OptionalPart(msg, msgMore)
              + OptionalPart(reqId, reqIdMore) + OptionalPart(globalId, false)
            == Message([addr, descr] + Present(reqer) + Present(msg) + Present(reqId) + Present(globalId))
  {
    LastPart([addr, descr] + Present(reqer) + Present(msg) + Present(reqId), globalId);
    LastPart([addr, descr] + Present(reqer) + Present(msg), reqId);
    LastPart([addr, descr] + Present(reqer), msg);
    LastPart([addr, descr], reqer);
    TwoParts(addr, descr);
    hide Message, Unfinished, Present;
  }

  lemma TwoParts(a: Frame, b: Frame)
    ensures Message([a, b]) == [Part(a, true)] + [Part(b, false)] && Unfinished([a, b]) == [Part(a, true)] + [Part(b, true)]
  {
  }

  /** All parts of a list, none of them the last. */
  function Unfinished(ls: seq<Frame>): seq<Part> {
    seq(|ls|, i requires 0 <= i < |ls| => Part(ls[i], true))
  }

  lemma LastPart(ls: seq<Frame>, f: Option<Frame>)
    ensures f.None? ==> ls + Present(f) == ls
    ensures Unfinished(ls + Present(f)) == Unfinished(ls) + OptionalPart(f, true)
    ensures f.Some? ==> Message(ls + Present(f)) == Unfinished(ls) + OptionalPart(f, false)
    ensures f.None? ==> OptionalPart(f, false) == [] && OptionalPart(f, true) == []
  {
  }

  function Prefixed(got: seq<Frame>, r: Received): Received {
    match r
    case Pending => Pending
    case Received(frames, rest) => Received(got + frames, rest)
  }

  lemma PrefixedTwice(a: seq<Frame>, b: seq<Frame>, r: Received)
    ensures Prefixed(a, Prefixed(b, r)) == Prefixed(a + b, r)
  {
    if r.Received? {
      assert a + (b + r.frames) == a + b + r.frames;
    }
  }

  // ---------- Framing round trip ----------

  /** What the receiver gets for a list: an empty list arrives as one empty frame. */
  function Arrives(ls: seq<Frame>): seq<Frame> {
    if ls == [] then [[]] else ls
  }

  lemma MessageCons(f: Frame, ls: seq<Frame>)
    ensures Message([f]) == [Part(f, false)]
    ensures ls != [] ==> Message([f] + ls) == [Part(f, true)] + Message(ls)
  {
  }

  lemma CutCons(part: Part, wire: seq<Part>)
    ensures Cut([part] + wire) ==
      if !part.more then Received([part.frame], wire) else Prefixed([part.frame], Cut(wire))
  {
    assert ([part] + wire)[1..] == wire;
  }

  lemma {:induction false} MessageCutsBack(ls: seq<Frame>, rest: seq<Part>)
    ensures Cut(Message(ls) + rest) == Received(Arrives(ls), rest)
    decreases |ls|
  {
    if |ls| == 0 {
      CutCons(Part([], false), rest);
    } else {
      MessageCons(ls[0], ls[1..]);
      hide Message, Cut;
      assert [ls[0]] + ls[1..] == ls;
      if |ls| == 1 {
        assert ls == [ls[0]];
        CutCons(Part(ls[0], false), rest);
      } else {
        MessageCutsBack(ls[1..], rest);
        CutCons(Part(ls[0], true), Message(ls[1..]) + rest);
        assert [Part(ls[0], true)] + Message(ls[1..]) + rest == [Part(ls[0], true)] + (Message(ls[1..]) + rest);
      }
    }
  }

  function Stream(lists: seq<seq<Frame>>): seq<Part>
    decreases |lists|
  {
    if lists == [] then [] else Message(lists[0]) + Stream(lists[1..])
  }

  function CutAll(wire: seq<Part>): seq<seq<Frame>>
    decreases |wire|
  {
    CutShortens(wire);
    match Cut(wire)
    case Pending => []
    case Received(frames, rest) => [frames] + CutAll(rest)
  }

  lemma {:induction false} CutShortens(wire: seq<Part>)
    ensures Cut(wire).Received? ==> |Cut(wire).rest| < |wire|
    decreases |wire|
  {
    if wire != [] && wire[0].more {
      CutShortens(wire[1..]);
    }
  }

  function Arrivals(lists: seq<seq<Frame>>): seq<seq<Frame>> {
    seq(|lists|, i requires 0 <= i < |lists| => Arrives(lists[i]))
  }

  lemma ArrivalsCons(lists: seq<seq<Frame>>)
    requires lists != []
    ensures Arrivals(lists) == [Arrives(lists[0])] + Arrivals(lists[1..])
  {
  }

  /** Any sequence of frame lists that is sent is cut back into the same sequence. */
  lemma {:induction false} StreamCutsBack(lists: seq<seq<Frame>>)
    ensures CutAll(Stream(lists)) == Arrivals(lists)
    decreases |lists|
  {
    if lists == [] {
    } else {
      MessageCutsBack(lists[0], Stream(lists[1..]));
      StreamCutsBack(lists[1..]);
      ArrivalsCons(lists);
    }
  }

  // ---------- Status replies ----------

  function Present(f: Option<Frame>): seq<Frame> {
    if f.Some? then [f.value] else []
  }

  function Typed(t: Byte, f: Option<Frame>): Frame {
    if f.Some? then [t] else []
  }

  function StatusTypes(globalId: Option<Frame>, reqId: Option<Frame>, reqer: Option<Frame>, msg: Option<Frame>): (r: Frame)
    ensures |r| <= 4
  {
    Typed(REQUESTER, reqer) + Typed(STATUS, msg) + Typed(REQUEST_ID, reqId) + Typed(GLOBAL_ID, globalId)
  }

  function StatusDescriptor(state: Byte, globalId: Option<Frame>, reqId: Option<Frame>, reqer: Option<Frame>, msg: Option<Frame>): Frame {
    var types := StatusTypes(globalId, reqId, reqer, msg);
    [|types|, state] + types + [FRAME_END]
  }

  /** The status as the client sees it: the router takes the address off. */
  function StatusFrames(state: Byte, globalId: Option<Frame>, reqId: Option<Frame>, reqer: Option<Frame>, msg: Option<Frame>): seq<Frame> {
    [StatusDescriptor(state, globalId, reqId, reqer, msg)] + StatusTail(globalId, reqId, reqer, msg)
  }

  function StatusTail(globalId: Option<Frame>, reqId: Option<Frame>, reqer: Option<Frame>, msg: Option<Frame>): seq<Frame> {
    Present(reqer) + Present(msg) + Present(reqId) + Present(globalId)
  }

  datatype Reply = FrameInvalid | LocalRecvError | Reply(state: Byte, results: seq<(Byte, Frame)>)

  /** `Unpack` of a reply; a read outside the message or the descriptor throws and becomes a local error. */
  function UnpackReply(frames: seq<Frame>): Reply {
    if frames == [] then LocalRecvError
    else
      var descr := frames[0];
      if descr == [] || descr[0] as int + 1 != |frames| then FrameInvalid
      else if |descr| <= |frames| then LocalRecvError
      else Reply(descr[1], seq(|frames| - 1, i requires 0 <= i < |frames| - 1 => (descr[i + 2], frames[i + 1])))
  }

  method UnpackReplyMessage(frames: seq<Frame>) returns (r: Reply)
    ensures r == UnpackReply(frames)
  {
    if |frames| == 0 {
      return LocalRecvError;
    }
    var descr := frames[0];
    if |descr| == 0 {
      return FrameInvalid;
    }
    var end := descr[0] as int + 1;
    if end != |frames| {
      return FrameInvalid;
    }
    if |descr| < 2 {
      return LocalRecvError;
    }
    var results: seq<(Byte, Frame)> := [];
    var idx := 1;
    while idx < end
      invariant 1 <= idx <= end && |results| == idx - 1 && (idx > 1 ==> idx < |descr|)
      invariant forall i | 0 <= i < idx - 1 :: i + 2 < |descr| && results[i] == (descr[i + 2], frames[i + 1])
    {
      if idx + 1 >= |descr| {
        return LocalRecvError;
      }
      results := results + [(descr[idx + 1], frames[idx])];
      idx := idx + 1;
    }
    r := Reply(descr[1], results);
  }

  function Result(t: Byte, f: Option<Frame>): seq<(Byte, Frame)> {
    if f.Some? then [(t, f.value)] else []
  }

  function Zip(types: Frame, frames: seq<Frame>): seq<(Byte, Frame)>
    requires |types| == |frames|
  {
    seq(|types|, i requires 0 <= i < |types| => (types[i], frames[i]))
  }

  /** A reply whose descriptor types every frame is unpacked into pairs. */
  lemma ReplyPairs(types: Frame, state: Byte, frames: seq<Frame>)
    requires |types| == |frames| < 256
    ensures UnpackReply([[|types|, state] + types + [FRAME_END]] + frames) == Reply(state, Zip(types, frames))
  {
    var all := [[|types|, state] + types + [FRAME_END]] + frames;
    assert UnpackReply(all).Reply?;
    assert UnpackReply(all).results == Zip(types, frames);
  }

  lemma ZipOne(types: Frame, frames: seq<Frame>, t: Byte, f: Option<Frame>)
    requires |types| == |frames|
    ensures |types + Typed(t, f)| == |frames + Present(f)|
    ensures Zip(types + Typed(t, f), frames + Present(f)) == Zip(types, frames) + Result(t, f)
  {
  }

  /** For every combination of optional frames, unpacking a status gives back its state and its typed frames. */
  lemma StatusRoundTrip(state: Byte, globalId: Option<Frame>, reqId: Option<Frame>, reqer: Option<Frame>, msg: Option<Frame>)
    ensures UnpackReply(StatusFrames(state, globalId, reqId, reqer, msg))
            == Reply(state, Result(0x3E, reqer) + Result(3, msg) + Result(4, reqId) + Result(1, globalId))
  {
    hide Zip, Typed, Present, Result, UnpackReply;
    assert StatusDescriptor(state, globalId, reqId, reqer, msg)
        == [|StatusTypes(globalId, reqId, reqer, msg)|, state] + StatusTypes(globalId, reqId, reqer, msg) + [FRAME_END];
    hide StatusDescriptor;
    var t1, f1 := Typed(REQUESTER, reqer), Present(reqer);
    ZipOne([], [], REQUESTER, reqer);
    assert [] + t1 == t1 && [] + f1 == f1 && Zip([], []) + Result(REQUESTER, reqer) == Result(REQUESTER, reqer) by {
      ZipNone();
    }
    var t2, f2 := t1 + Typed(STATUS, msg), f1 + Present(msg);
    ZipOne(t1, f1, STATUS, msg);
    var t3, f3 := t2 + Typed(REQUEST_ID, reqId), f2 + Present(reqId);
    ZipOne(t2, f2, REQUEST_ID, reqId);
    var t4, f4 := t3 + Typed(GLOBAL_ID, globalId), f3 + Present(globalId);
    ZipOne(t3, f3, GLOBAL_ID, globalId);
    var descr := StatusDescriptor(state, globalId, reqId, reqer, msg);
    ReplyPairs(t4, state, f4);
  }

  lemma ZipNone()
    ensures Zip([], []) == []
  {
  }

  // ---------- Receiving with a retry budget on the client's side ----------

  /** What a call into the library returned: a part, EAGAIN, or another error. */
  datatype Event = Got(part: Part) | Again | Fault

  /** When the script has run out, nothing ever arrives. */
  function Next(script: seq<Event>): Event {
    if script == [] then Again else script[0]
  }

  function After(script: seq<Event>): seq<Event> {
    if script == [] then [] else script[1..]
  }

  datatype Reading = Reading(ok: bool, frames: seq<Frame>, rest: seq<Event>)

  /** `Recv` in the middle of a message; the budget is for the whole message, and the first frame has none. */
  function ReadFrom(script: seq<Event>, first: bool, retry: nat): Reading
    decreases |script|, retry
  {
    match Next(script)
    case Got(part) =>
      if !part.more then Reading(true, [part.frame], After(script))
      else
        var r := ReadFrom(After(script), false, retry);
        Reading(r.ok, [part.frame] + r.frames, r.rest)
    case Again =>
      if !first && retry > 0 then ReadFrom(After(script), false, retry - 1) else Reading(false, [], After(script))
    case Fault => Reading(false, [], After(script))
  }

  const BUDGET := 5

  class ClientSocket {
    var script: seq<Event>

    constructor (events: seq<Event>)
      ensures script == events
    {
      script := events;
    }

    method MsgRecv() returns (e: Event)
      modifies this
      ensures e == Next(old(script)) && script == After(old(script))
    {
      e := Next(script);
      script := After(script);
    }

    method Recv() returns (ok: bool, message: seq<Frame>)
      modifies this
      ensures Reading(ok, message, script) == ReadFrom(old(script), true, BUDGET)
    {
      message := [];
      var first := true;
      var retry := BUDGET;
      var more := true;
      ghost var all := ReadFrom(script, true, BUDGET);
      while more
        invariant 0 <= retry
        invariant more ==> var r := ReadFrom(script, first, retry); all == Reading(r.ok, message + r.frames, r.rest)
        invariant !more ==> all == Reading(true, message, script)
        decreases |script|, retry, more
      {
        ghost var r0 := ReadFrom(script, first, retry);
        ghost var size, budget := |script|, retry;
        var e := MsgRecv();
        while !e.Got?
          invariant 0 <= retry <= budget && |script| <= size && (e.Got? ==> |script| < size)
          invariant r0 == (match e
                           case Got(part) =>
                             if !part.more then Reading(true, [part.frame], script)
                             else var r := ReadFrom(script, false, retry); Reading(r.ok, [part.frame] + r.frames, r.rest)
                           case Again => if !first && retry > 0 then ReadFrom(script, false, retry - 1) else Reading(false, [], script)
                           case Fault => Reading(false, [], script))
          decreases |script|, retry
        {
          if !first && e.Again? && retry > 0 {
            retry := retry - 1;
            e := MsgRecv();
          } else {
            assert message + [] == message;
            return false, message;
          }
        }
        assert forall s: seq<Frame> :: message + ([e.part.frame] + s) == message + [e.part.frame] + s;
        message := message + [e.part.frame];
        first := false;
        more := e.part.more;
      }
      ok := true;
    }
  }

  function Agains(script: seq<Event>): nat
    decreases |script|
  {
    if script == [] then 0 else (if script[0].Again? then 1 else 0) + Agains(script[1..])
  }

  /** The parts that arrived, in order. */
  function Parts(script: seq<Event>): seq<Part>
    decreases |script|
  {
    if script == [] then [] else (if script[0].Got? then [script[0].part] else []) + Parts(script[1..])
  }

  /** One whole message lies in the script up to and including place `k`, with at most `retry` refusals, none before the first frame. */
  predicate WholeAt(script: seq<Event>, k: nat, first: bool, retry: int) {
    && k < |script| && script[k].Got? && !script[k].part.more
    && (first ==> script[0].Got?)
    && (forall i | 0 <= i < k :: !script[i].Fault? && (script[i].Got? ==> script[i].part.more))
    && Agains(script[..k]) <= retry
  }

  lemma WholeTail(script: seq<Event>, k: nat, first: bool, retry: nat)
    requires script != [] && k > 0
    ensures WholeAt(script, k, first, retry) <==>
              !script[0].Fault? && (script[0].Got? ==> script[0].part.more) && (script[0].Again? ==> !first)
              && WholeAt(script[1..], k - 1, false, if script[0].Again? then retry - 1 else retry)
  {
    if k < |script| {
      assert script[..k][1..] == script[1..][..k - 1];
      assert forall i | 1 <= i < k :: script[i] == script[1..][i - 1];
    }
  }

  /** For every pattern of refusals and errors: `Recv` succeeds exactly on one whole message within its budget, and returns that message. */
  lemma {:induction false} ReadsWholeMessages(script: seq<Event>, first: bool, retry: nat)
    ensures ReadFrom(script, first, retry).ok <==> exists k :: WholeAt(script, k, first, retry)
    ensures forall k | WholeAt(script, k, first, retry) ::
              ReadFrom(script, first, retry).rest == script[k + 1..]
              && Message(ReadFrom(script, first, retry).frames) == Parts(script[..k + 1])
    decreases |script|, retry
  {
    if script == [] {
      ReadsNothing(first, retry);
    } else {
      var e := script[0];
      var retry' := if e.Again? && retry > 0 then retry - 1 else retry;
      var goes := (e.Got? && e.part.more) || (e.Again? && !first && retry > 0);
      if goes {
        ReadsWholeMessages(script[1..], false, retry');
      }
      if ReadFrom(script, first, retry).ok {
        if goes {
          var j: nat :| WholeAt(script[1..], j, false, retry');
          WholeTail(script, j + 1, first, retry);
          assert WholeAt(script, j + 1, first, retry);
        } else {
          assert script[..0] == [];
          assert WholeAt(script, 0, first, retry);
        }
      }
      forall k | WholeAt(script, k, first, retry)
        ensures ReadFrom(script, first, retry).ok && ReadFrom(script, first, retry).rest == script[k + 1..]
        ensures Message(ReadFrom(script, first, retry).frames) == Parts(script[..k + 1])
      {
        ReadsThis(script, k, first, retry);
      }
    }
  }

  /** `Recv` succeeds exactly when one whole message lies ahead with at most five refusals in it, none before its first frame. */
  lemma RecvSucceedsIff(script: seq<Event>)
    ensures ReadFrom(script, true, BUDGET).ok <==> exists k :: WholeAt(script, k, true, 5)
    ensures ReadFrom(script, true, BUDGET).ok ==>
              exists k :: WholeAt(script, k, true, 5) && Message(ReadFrom(script, true, BUDGET).frames) == Parts(script[..k + 1])
  {
    assert BUDGET == 5;
    hide WholeAt, ReadFrom, Message;
    ReadsWholeMessages(script, true, 5);
  }

  lemma {:induction false} ReadsNothing(first: bool, retry: nat)
    ensures !ReadFrom([], first, retry).ok
    decreases retry
  {
    if !first && retry > 0 {
      ReadsNothing(false, retry - 1);
    }
  }

  lemma {:induction false} ReadsThis(script: seq<Event>, k: nat, first: bool, retry: nat)
    requires WholeAt(script, k, first, retry)
    ensures var r := ReadFrom(script, first, retry);
      r.ok && r.rest == script[k + 1..] && r.frames != [] && Message(r.frames) == Parts(script[..k + 1])
    decreases k
  {
    hide Message;
    assert script[..k + 1][1..] == script[1..][..k];
    if k == 0 {
      MessageCons(script[0].part.frame, []);
      assert Parts(script[..1]) == [script[0].part] + Parts([]);
    } else {
      WholeTail(script, k, first, retry);
      hide WholeAt;
      if script[0].Again? {
        ReadsThis(script[1..], k - 1, false, retry - 1);
      } else {
        ReadsThis(script[1..], k - 1, false, retry);
        MessageCons(script[0].part.frame, ReadFrom(script[1..], false, retry).frames);
      }
    }
  }

  // ---------- Sending with a retry budget ----------

  /** What a call to send a part returned. */
  datatype Outcome = Sent | Busy | Broken

  function NextOutcome(script: seq<Outcome>): Outcome {
    if script == [] then Busy else script[0]
  }

  function Later(script: seq<Outcome>): seq<Outcome> {
    if script == [] then [] else script[1..]
  }

  datatype Try = Try(ok: bool, retry: nat, rest: seq<Outcome>)

  /** The private `Send`: EAGAIN is retried within the budget, but never for the first frame. */
  function TrySend(script: seq<Outcome>, first: bool, retry: nat): Try
    decreases retry
  {
    match NextOutcome(script)
    case Sent => Try(true, retry, Later(script))
    case Broken => Try(false, retry, Later(script))
    case Busy => if first || retry == 0 then Try(false, retry, Later(script)) else TrySend(Later(script), first, retry - 1)
  }

  /** The library takes the frame at call `k`, after refusals only. */
  predicate TakenAt(script: seq<Outcome>, k: nat) {
    k < |script| && script[k].Sent? && forall i | 0 <= i < k :: script[i].Busy?
  }

  lemma {:induction false} TakenIsSent(script: seq<Outcome>, first: bool, retry: nat, k: nat)
    requires TakenAt(script, k) && k <= (if first then 0 else retry)
    ensures TrySend(script, first, retry) == Try(true, retry - k, script[k + 1..])
    decreases k
  {
    if k > 0 {
      TakenIsSent(script[1..], first, retry - 1, k - 1);
    }
  }

  lemma {:induction false} SentWasTaken(script: seq<Outcome>, first: bool, retry: nat) returns (k: nat)
    requires TrySend(script, first, retry).ok
    ensures TakenAt(script, k) && k <= (if first then 0 else retry)
    decreases retry
  {
    k := 0;
    if NextOutcome(script).Busy? {
      var j := SentWasTaken(Later(script), first, retry - 1);
      k := j + 1;
    }
  }

  /** A frame goes out exactly when the library takes it after at most as many refusals as the budget allows. */
  lemma SentIff(script: seq<Outcome>, first: bool, retry: nat)
    ensures TrySend(script, first, retry).ok <==> exists k: nat :: TakenAt(script, k) && k <= (if first then 0 else retry)
  {
    if TrySend(script, first, retry).ok {
      var k := SentWasTaken(script, first, retry);
    } else if k: nat :| TakenAt(script, k) && k <= (if first then 0 else retry) {
      TakenIsSent(script, first, retry, k);
    }
  }

  /** How many of `n` frames go out, one after the other, on one budget. */
  function FramesSent(script: seq<Outcome>, n: nat, first: bool, retry: nat): (r: nat)
    ensures r <= n
    decreases n
  {
    if n == 0 then 0
    else
      var t := TrySend(script, first, retry);
      if t.ok then 1 + FramesSent(t.rest, n - 1, false, t.retry) else 0
  }

  lemma FrameSentStep(script: seq<Outcome>, n: nat, first: bool, retry: nat)
    requires n > 0
    ensures var t := TrySend(script, first, retry);
      FramesSent(script, n, first, retry) == if t.ok then 1 + FramesSent(t.rest, n - 1, false, t.retry) else 0
    ensures n == 1 ==> FramesSent(script, n, first, retry) == if TrySend(script, first, retry).ok then 1 else 0
  {
  }

  /** How often an outcome occurs among the first `k`. */
  function Times(script: seq<Outcome>, k: nat, o: Outcome): nat
    requires k <= |script|
  {
    multiset(script[..k])[o]
  }

  /** The library takes `n` frames within the first `k` calls, with at most `retry` refusals and no error, none before the very first frame. */
  predicate TakesAll(script: seq<Outcome>, n: nat, first: bool, retry: nat, k: nat) {
    && k <= |script| && Times(script, k, Sent) == n && Times(script, k, Busy) <= retry && Times(script, k, Broken) == 0
    && (first && n > 0 ==> script[0].Sent?)
  }

  lemma TimesTail(script: seq<Outcome>, k: nat, o: Outcome)
    requires 0 < k <= |script|
    ensures Times(script, k, o) == (if script[0] == o then 1 else 0) + Times(script[1..], k - 1, o)
  {
    assert script[..k] == [script[0]] + script[1..][..k - 1];
  }

  lemma TakesTail(script: seq<Outcome>, n: nat, first: bool, retry: nat, k: nat)
    requires 0 < k <= |script| && n > 0
    ensures script[0].Sent? ==> (TakesAll(script, n, first, retry, k) <==> TakesAll(script[1..], n - 1, false, retry, k - 1))
    ensures script[0].Broken? ==> !TakesAll(script, n, first, retry, k)
    ensures script[0].Busy? ==>
              (TakesAll(script, n, first, retry, k) <==> !first && retry > 0 && TakesAll(script[1..], n, false, retry - 1, k - 1))
  {
    TimesTail(script, k, Sent);
    TimesTail(script, k, Busy);
    TimesTail(script, k, Broken);
    hide Times;
  }

  lemma {:induction false} NothingTaken(n: nat, first: bool, retry: nat)
    requires n > 0
    ensures FramesSent([], n, first, retry) == 0
    decreases retry
  {
    if !first && retry > 0 {
      NothingTaken(n, false, retry - 1);
    }
  }

  /** A refusal behind the first frame costs one retry and nothing else. */
  lemma SentAfterRefusal(script: seq<Outcome>, n: nat, retry: nat)
    requires script != [] && n > 0
    ensures script[0].Busy? && retry > 0 ==> FramesSent(script, n, false, retry) == FramesSent(script[1..], n, false, retry - 1)
    ensures script[0].Sent? ==> forall first :: FramesSent(script, n, first, retry) == 1 + FramesSent(script[1..], n - 1, false, retry)
    ensures script[0].Broken? || (script[0].Busy? && retry == 0) ==> forall first :: FramesSent(script, n, first, retry) == 0
    ensures script[0].Busy? ==> FramesSent(script, n, true, retry) == 0
  {
  }

  lemma {:induction false} TakenAreSent(script: seq<Outcome>, n: nat, first: bool, retry: nat, k: nat)
    requires TakesAll(script, n, first, retry, k)
    ensures FramesSent(script, n, first, retry) == n
    decreases k
  {
    if n > 0 {
      TakesTail(script, n, first, retry, k);
      SentAfterRefusal(script, n, retry);
      hide FramesSent, TakesAll, Times;
      if script[0].Sent? {
        TakenAreSent(script[1..], n - 1, false, retry, k - 1);
      } else if script[0].Busy? {
        TakenAreSent(script[1..], n, false, retry - 1, k - 1);
      }
    }
  }

  lemma {:induction false} SentWereTaken(script: seq<Outcome>, n: nat, first: bool, retry: nat) returns (k: nat)
    requires FramesSent(script, n, first, retry) == n
    ensures TakesAll(script, n, first, retry, k)
    decreases |script|
  {
    k := 0;
    if n > 0 {
      if script == [] {
        NothingTaken(n, first, retry);
      } else {
        SentAfterRefusal(script, n, retry);
        if script[0].Sent? {
          k := SentWereTaken(script[1..], n - 1, false, retry);
        } else {
          k := SentWereTaken(script[1..], n, false, retry - 1);
        }
        k := k + 1;
        hide FramesSent, Times;
        TakesTail(script, n, first, retry, k);
      }
    }
  }

  /** A message goes out exactly when the library takes its frames one after the other with at most five refusals, none before the first. */
  lemma AllSentIff(script: seq<Outcome>, n: nat)
    requires n > 0
    ensures FramesSent(script, n, true, BUDGET) == n <==> exists k :: TakesAll(script, n, true, 5, k)
  {
    assert BUDGET == 5;
    hide FramesSent, TakesAll;
    if FramesSent(script, n, true, BUDGET) == n {
      var k := SentWereTaken(script, n, true, 5);
    } else if k: nat :| TakesAll(script, n, true, 5, k) {
      TakenAreSent(script, n, true, 5, k);
    }
  }

  lemma OneMorePart(sent: seq<Part>, frames: seq<Frame>, i: nat)
    requires i < |frames|
    ensures (sent + Message(frames)[..i]) + [Part(frames[i], i < |frames| - 1)] == sent + Message(frames)[..i + 1]
    ensures i == |frames| - 1 ==> (sent + Message(frames)[..i]) + [Part(frames[i], false)] == sent + Message(frames)
  {
    var all := Message(frames);
    assert all[i] == Part(frames[i], i < |frames| - 1);
    hide Message;
    assert all[..i] + [all[i]] == all[..i + 1];
    assert all[..|frames|] == all;
  }

  /** Nothing at all is sent exactly when the library does not take the first frame at once. */
  lemma NothingSentIff(script: seq<Outcome>, n: nat)
    requires n > 0
    ensures FramesSent(script, n, true, BUDGET) == 0 <==> !NextOutcome(script).Sent?
  {
  }

  /** The client's end of a connection: what it put on the wire, and how the library will answer. */
  class SendSocket {
    var wire: seq<Part>
    var script: seq<Outcome>

    constructor (outcomes: seq<Outcome>)
      ensures script == outcomes && wire == []
    {
      script, wire := outcomes, [];
    }

    method SendFrame(frame: Frame, first: bool, more: bool, budget: nat) returns (ok: bool, retry: nat)
      modifies this
      ensures Try(ok, retry, script) == TrySend(old(script), first, budget)
      ensures wire == if ok then old(wire) + [Part(frame, more)] else old(wire)
    {
      retry := budget;
      var e := NextOutcome(script);
      script := Later(script);
      while !e.Sent?
        invariant wire == old(wire)
        invariant match e
                  case Sent => Try(true, retry, script) == TrySend(old(script), first, budget)
                  case Broken => Try(false, retry, script) == TrySend(old(script), first, budget)
                  case Busy => TrySend(old(script), first, budget)
                               == if first || retry == 0 then Try(false, retry, script) else TrySend(script, first, retry - 1)
        decreases retry, |script|
      {
        if first || !e.Busy? || retry == 0 {
          return false, retry;
        }
        retry := retry - 1;
        e := NextOutcome(script);
        script := Later(script);
      }
      wire := wire + [Part(frame, more)];
      ok := true;
    }

    /**
      `SendTo`: on success exactly the message is on the wire; on failure as many frames of it as went out, which what is
      sent next on the same connection completes. An empty list is refused.
     */
    method SendTo(frames: seq<Frame>) returns (ok: bool)
      modifies this
      ensures var sent := FramesSent(old(script), |frames|, true, BUDGET);
        && (ok <==> frames != [] && sent == |frames|)
        && (ok ==> wire == old(wire) + Message(frames))
        && (!ok ==> sent < |Message(frames)| && wire == old(wire) + Message(frames)[..sent])
    {
      if |frames| == 0 {
        assert wire == old(wire) + Message(frames)[..0];
        return false;
      }
      ghost var before, n := wire, |frames|;
      var i := 0;
      var first := true;
      var retry: nat := BUDGET;
      hide Message, FramesSent, TrySend;
      assert wire == before + Message(frames)[..0];
      while i < |frames| - 1
        invariant 0 <= i <= n - 1 && wire == before + Message(frames)[..i] && (first <==> i == 0)
        invariant FramesSent(old(script), n, true, BUDGET) == i + FramesSent(script, n - i, first, retry)
      {
        FrameSentStep(script, n - i, first, retry);
        OneMorePart(before, frames, i);
        ok, retry := SendFrame(frames[i], first, true, retry);
        if !ok {
          return false;
        }
        first := false;
        i := i + 1;
      }
      FrameSentStep(script, n - i, first, retry);
      OneMorePart(before, frames, i);
      ok, retry := SendFrame(frames[i], first, false, retry);
    }
  }

  // ---------- After a failure, on the same connection ----------

  /** Parts that all say more follows are put in front of whatever message comes next. */
  lemma {:induction false} CutUnfinished(ls: seq<Frame>, wire: seq<Part>)
    ensures Cut(Unfinished(ls) + wire) == Prefixed(ls, Cut(wire))
    decreases |ls|
  {
    if ls == [] {
      assert Unfinished(ls) + wire == wire;
      assert Prefixed([], Cut(wire)) == Cut(wire) by {
        if Cut(wire).Received? { assert [] + Cut(wire).frames == Cut(wire).frames; }
      }
    } else {
      UnfinishedCons(ls[0], ls[1..]);
      assert [ls[0]] + ls[1..] == ls;
      hide Unfinished, Cut;
      CutUnfinished(ls[1..], wire);
      CutCons(Part(ls[0], true), Unfinished(ls[1..]) + wire);
      assert [Part(ls[0], true)] + Unfinished(ls[1..]) + wire == [Part(ls[0], true)] + (Unfinished(ls[1..]) + wire);
      PrefixedTwice([ls[0]], ls[1..], Cut(wire));
    }
  }

  lemma UnfinishedCons(f: Frame, ls: seq<Frame>)
    ensures Unfinished([f] + ls) == [Part(f, true)] + Unfinished(ls)
  {
  }

  lemma PrefixIsUnfinished(frames: seq<Frame>, k: nat)
    requires k < |Message(frames)|
    ensures k <= |frames| && Message(frames)[..k] == Unfinished(frames[..k])
  {
  }

  /** While nothing follows, a proper prefix of a message is not taken for a message. */
  lemma PrefixIsPending(frames: seq<Frame>, k: nat)
    requires k < |Message(frames)|
    ensures Cut(Message(frames)[..k]).Pending?
  {
    PrefixIsUnfinished(frames, k);
    CutUnfinished(frames[..k], []);
    assert Unfinished(frames[..k]) + [] == Unfinished(frames[..k]);
  }

  /** The next message on the connection is glued to the prefix that a failed send left behind. */
  lemma NextIsGlued(frames: seq<Frame>, k: nat, next: seq<Frame>, rest: seq<Part>)
    requires k < |Message(frames)|
    ensures k <= |frames| && Cut(Message(frames)[..k] + (Message(next) + rest)) == Received(frames[..k] + Arrives(next), rest)
  {
    PrefixIsUnfinished(frames, k);
    CutUnfinished(frames[..k], Message(next) + rest);
    MessageCutsBack(next, rest);
  }

  lemma CutAllFirst(wire: seq<Part>, frames: seq<Frame>, rest: seq<Part>)
    requires Cut(wire) == Received(frames, rest)
    ensures CutAll(wire) == [frames] + CutAll(rest)
  {
  }

  lemma AllAfterGlue(frames: seq<Frame>, k: nat, later: seq<seq<Frame>>)
    requires k < |Message(frames)| && later != []
    ensures k <= |frames|
    ensures CutAll(Message(frames)[..k] + Stream(later)) == [frames[..k] + Arrives(later[0])] + Arrivals(later[1..])
  {
    PrefixIsUnfinished(frames, k);
    var rest := Stream(later[1..]);
    assert Stream(later) == Message(later[0]) + rest;
    hide Message, Cut, CutAll, Stream;
    NextIsGlued(frames, k, later[0], rest);
    CutAllFirst(Message(frames)[..k] + Stream(later), frames[..k] + Arrives(later[0]), rest);
    StreamCutsBack(later[1..]);
  }

  /**
    A failed send is harmless exactly when it had put nothing on the wire, or nothing more is sent on the connection.
    Otherwise the peer takes its frames and those of the next message for one message.
   */
  lemma FailedSendHarmlessIff(frames: seq<Frame>, k: nat, later: seq<seq<Frame>>)
    requires k < |Message(frames)|
    ensures CutAll(Message(frames)[..k] + Stream(later)) == Arrivals(later) <==> k == 0 || later == []
  {
    var prefix := Message(frames)[..k];
    if later == [] {
      PrefixIsPending(frames, k);
      assert prefix + Stream(later) == prefix;
    } else {
      hide Message, CutAll, Stream, Arrivals, Arrives;
      AllAfterGlue(frames, k, later);
      ArrivalsCons(later);
      var got, want := frames[..k] + Arrives(later[0]), Arrives(later[0]);
      assert ([got] + Arrivals(later[1..]))[0] == got && ([want] + Arrivals(later[1..]))[0] == want;
      if k == 0 {
        assert got == want;
      } else {
        assert |got| > |want|;
      }
    }
  }

  /** What a caller can tell: a failed send is harmless when the library did not take the first frame, or nothing follows. */
  lemma SendHarmlessIff(script: seq<Outcome>, frames: seq<Frame>, later: seq<seq<Frame>>)
    requires frames != [] && FramesSent(script, |frames|, true, BUDGET) < |frames|
    ensures |Message(frames)| == |frames|
    ensures CutAll(Message(frames)[..FramesSent(script, |frames|, true, BUDGET)] + Stream(later)) == Arrivals(later)
       <==> !NextOutcome(script).Sent? || later == []
  {
    NothingSentIff(script, |frames|);
    assert |Message(frames)| == |frames|;
    hide FramesSent, NextOutcome, Message, CutAll, Stream, Arrivals;
    FailedSendHarmlessIff(frames, FramesSent(script, |frames|, true, BUDGET), later);
  }

  /** What a `Recv` has taken off the socket: one whole message, or frames that all had more behind them. */
  function Taken(r: Reading): seq<Part> {
    if r.ok then Message(r.frames) else Unfinished(r.frames)
  }

  lemma TakenCons(f: Frame, r: Reading)
    requires r.ok ==> r.frames != []
    ensures Taken(Reading(r.ok, [f] + r.frames, r.rest)) == [Part(f, true)] + Taken(r)
    ensures forall parts :: [Part(f, true)] + (Taken(r) + parts) == Taken(Reading(r.ok, [f] + r.frames, r.rest)) + parts
  {
    if r.ok { MessageCons(f, r.frames); }
    UnfinishedCons(f, r.frames);
    hide Message, Unfinished;
    forall parts
      ensures [Part(f, true)] + (Taken(r) + parts) == Taken(Reading(r.ok, [f] + r.frames, r.rest)) + parts
    {
      assert [Part(f, true)] + (Taken(r) + parts) == [Part(f, true)] + Taken(r) + parts;
    }
  }

  lemma TakenEnds(f: Frame, parts: seq<Part>, rest: seq<Event>)
    ensures Taken(Reading(true, [f], rest)) + parts == [Part(f, false)] + parts
    ensures Taken(Reading(false, [], rest)) + parts == parts
  {
    MessageCons(f, []);
    assert Unfinished([]) + parts == parts;
  }

  lemma {:induction false} ReadTakes(script: seq<Event>, first: bool, retry: nat)
    ensures var r := ReadFrom(script, first, retry); Parts(script) == Taken(r) + Parts(r.rest) && (r.ok ==> r.frames != [])
    decreases |script|, retry
  {
    var r := ReadFrom(script, first, retry);
    hide Taken;
    TakenEnds([], Parts(r.rest), r.rest);
    match Next(script)
    case Got(part) =>
      if part.more {
        ReadTakes(script[1..], false, retry);
        TakenCons(part.frame, ReadFrom(script[1..], false, retry));
      } else {
        TakenEnds(part.frame, Parts(r.rest), r.rest);
      }
    case Again =>
      if !first && retry > 0 {
        ReadTakes(After(script), false, retry - 1);
      }
    case Fault =>
  }

  /**
    A `Recv` that fails in the middle of a message has thrown away the frames it took: the next one that succeeds on the
    same socket returns the tail of the message as a whole message, the message itself exactly when none had been taken.
   */
  lemma SecondRecvTakesTail(script: seq<Event>, message: seq<Frame>, tail: seq<Part>)
    requires message != [] && Parts(script) == Message(message) + tail
    requires var r := ReadFrom(script, true, BUDGET); !r.ok && ReadFrom(r.rest, true, BUDGET).ok
    ensures var lost := ReadFrom(script, true, BUDGET); var got := ReadFrom(lost.rest, true, BUDGET);
      && message == lost.frames + got.frames && Parts(got.rest) == tail
      && (got.frames == message <==> lost.frames == [])
  {
    var lost := ReadFrom(script, true, BUDGET);
    var got := ReadFrom(lost.rest, true, BUDGET);
    ReadTakes(script, true, BUDGET);
    ReadTakes(lost.rest, true, BUDGET);
    hide ReadFrom, Message, Unfinished, Cut, Parts;

    MessageCutsBack(message, tail);
    MessageCutsBack(got.frames, Parts(got.rest));
    CutUnfinished(lost.frames, Message(got.frames) + Parts(got.rest));
    if lost.frames != [] {
      assert |message| > |got.frames|;
    }
  }

  /** An error between two frames is all it takes. */
  lemma TailTakenForMessage(a: Frame, b: Frame)
    ensures var r := ReadFrom([Got(Part(a, true)), Fault, Got(Part(b, false))], true, BUDGET);
      !r.ok && r.frames == [a] && ReadFrom(r.rest, true, BUDGET) == Reading(true, [b], [])
  {
    var script := [Got(Part(a, true)), Fault, Got(Part(b, false))];
    assert script[1..] == [Fault, Got(Part(b, false))] && script[1..][1..] == [Got(Part(b, false))];
  }
}
