/** Management commands: ZeroManageCommand.cs builds them, station_dispatcher.cpp takes them apart. */
module Command {
  import opened Common
  import opened Wire

  const PING: Byte := '*' as int
  const HEART_JOIN: Byte := 'J' as int
  const HEART_READY: Byte := 'R' as int
  const HEART_PITPAT: Byte := 'P' as int
  const HEART_LEFT: Byte := 'L' as int

  // ---------- The client ----------

  function Repeat(t: Byte, n: nat): (r: Frame)
    ensures |r| == n && forall i | 0 <= i < n :: r[i] == t
  {
    seq<Byte>(n, _ => t)
  }

  function LowByte(n: nat): Byte {
    n % 256
  }

  /** The descriptor of `CallCommand`: a command, arguments, an end mark. Without a command the array is too short. */
  function CallDescriptor(n: nat): Option<Frame> {
    if n == 0 then None else Some([LowByte(n), STATE_NONE, COMMAND] + Repeat(ARGUMENT, n - 1) + [FRAME_END])
  }

  /** The descriptor of `ByteCommand`; the command is the state byte, and one byte more than needed is sent. */
  function ByteDescriptor(command: Byte, n: nat): Frame {
    [LowByte(n), command] + Repeat(ARGUMENT, n) + [FRAME_END, FRAME_END]
  }

  method BuildCall(args: seq<Frame>) returns (r: Option<Frame>)
    ensures r == CallDescriptor(|args|)
  {
    var descr := new Byte[3 + |args|](_ => 0);
    descr[0] := LowByte(|args|);
    descr[1] := STATE_NONE;
    descr[2] := COMMAND;
    var idx := 3;
    var index := 1;
    while index < |args|
      invariant idx == 3 + index - 1 && 1 <= index && (|args| > 0 ==> index <= |args|) && (|args| == 0 ==> index == 1)
      invariant descr[0] == LowByte(|args|) && descr[1] == STATE_NONE && descr[2] == COMMAND
      invariant forall i | 3 <= i < idx && i < descr.Length :: descr[i] == ARGUMENT
      invariant forall i | idx <= i < descr.Length :: descr[i] == 0
    {
      descr[idx] := ARGUMENT;
      idx := idx + 1;
      index := index + 1;
    }
    if idx >= descr.Length {
      return None;
    }
    descr[idx] := FRAME_END;
    assert descr[..] == [LowByte(|args|), STATE_NONE, COMMAND] + Repeat(ARGUMENT, |args| - 1) + [FRAME_END];
    r := Some(descr[..]);
  }

  method BuildByte(command: Byte, args: seq<Frame>) returns (r: Frame)
    ensures r == ByteDescriptor(command, |args|)
  {
    var descr := new Byte[4 + |args|](_ => 0);
    descr[0] := LowByte(|args|);
    descr[1] := command;
    var idx := 2;
    var index := 0;
    while index < |args|
      invariant idx == 2 + index && 0 <= index <= |args|
      invariant descr[0] == LowByte(|args|) && descr[1] == command
      invariant forall i | 2 <= i < idx :: descr[i] == ARGUMENT
      invariant forall i | idx <= i < descr.Length :: descr[i] == 0
    {
      descr[idx] := ARGUMENT;
      idx := idx + 1;
      index := index + 1;
    }
    descr[idx] := FRAME_END;
    assert descr[..] == [LowByte(|args|), command] + Repeat(ARGUMENT, |args|) + [FRAME_END, FRAME_END];
    r := descr[..];
  }

  /** What the centre's router socket receives: the identity of the caller, the descriptor, the arguments. */
  function OnWire(identity: Frame, descr: Frame, args: seq<Frame>): seq<Frame> {
    [identity, descr] + args
  }

  // ---------- The dispatcher ----------

  /** A frame read as a C string. */
  function CString(bytes: Frame): Frame
    decreases |bytes|
  {
    if bytes == [] || bytes[0] == 0 then [] else [bytes[0]] + CString(bytes[1..])
  }

  predicate NulFree(bytes: Frame) {
    forall i | 0 <= i < |bytes| :: bytes[i] != 0
  }

  lemma {:induction false} NulFreeIsWhole(bytes: Frame)
    requires NulFree(bytes)
    ensures CString(bytes) == bytes
    decreases |bytes|
  {
    if bytes != [] {
      NulFreeIsWhole(bytes[1..]);
    }
  }

  /** The locals of `job_start`. */
  datatype Parsed = Parsed(cmd: Option<Frame>, args: seq<Frame>, requestId: nat, requester: nat, globalId: nat)

  const NOTHING := Parsed(None, [], 0, 0, 0)

  /** One byte of the descriptor; `None` is a read outside the list. */
  function Take(p: Parsed, t: Byte, list: seq<Frame>, idx: nat): Option<Parsed> {
    if t == COMMAND then if idx < |list| then Some(p.(cmd := Some(CString(list[idx])))) else None
    else if t == ARGUMENT then if idx < |list| then Some(p.(args := p.args + [list[idx]])) else None
    else if t == REQUEST_ID then Some(p.(requestId := idx))
    else if t == REQUESTER then Some(p.(requester := idx))
    else if t == GLOBAL_ID then Some(p.(globalId := idx))
    else Some(p)
  }

  /** The scan up to `end`, over every byte of the descriptor and the zero behind it, whatever byte 0 counts. */
  function ParseUpTo(list: seq<Frame>, end: nat): Option<Parsed>
    requires 2 <= |list|
    decreases end
  {
    if end <= 2 then Some(NOTHING)
    else
      var before := ParseUpTo(list, end - 1);
      if before.None? then None else Take(before.value, At(list[1], end - 1), list, end - 1)
  }

  /** `Heart` is a heartbeat that a loaded station receives, and `NoHeart` one that fails. */
  datatype Job =
    | Pong
    | Heart(state: Byte, station: Frame, arguments: seq<Frame>)
    | NoHeart
    | OutOfRange
    | NoCommand
    | Execute(cmd: Frame, args: seq<Frame>, requestId: nat, requester: nat, globalId: nat)

  predicate IsHeart(state: Byte) {
    state == HEART_JOIN || state == HEART_READY || state == HEART_PITPAT || state == HEART_LEFT
  }

  /** The strings that a heartbeat reads behind the station's name: a worker, and its address when it joins. */
  function Needed(state: Byte): nat {
    if state == HEART_JOIN then 2 else 1
  }

  function Strings(frames: seq<Frame>): seq<Frame> {
    seq(|frames|, i requires 0 <= i < |frames| => CString(frames[i]))
  }

  /** `heartbeat`; `known` are the names of the loaded stations. */
  function Heartbeat(state: Byte, list: seq<Frame>, known: set<Frame>): Job
    requires 2 < |list|
  {
    var station := CString(list[2]);
    if station !in known then NoHeart
    else if |list| < 3 + Needed(state) then OutOfRange
    else Heart(state, station, Strings(list[3..3 + Needed(state)]))
  }

  function JobStart(list: seq<Frame>, known: set<Frame>): Job
    requires 2 <= |list|
  {
    var state := StateOf(list[1]);
    if state == PING then Pong
    else if IsHeart(state) then if |list| > 2 then Heartbeat(state, list, known) else NoHeart
    else
      var p := ParseUpTo(list, |list[1]| + 1);
      if p.None? then OutOfRange
      else if p.value.requestId >= |list| || p.value.requester >= |list| || p.value.globalId >= |list| then OutOfRange
      else if p.value.cmd.None? then NoCommand
      else Execute(p.value.cmd.value, p.value.args, p.value.requestId, p.value.requester, p.value.globalId)
  }

  method StartJob(list: seq<Frame>, known: set<Frame>) returns (r: Job)
    requires 2 <= |list|
    ensures r == JobStart(list, known)
  {
    var state := StateOf(list[1]);
    if state == PING {
      return Pong;
    }
    if IsHeart(state) {
      return if |list| > 2 then Heartbeat(state, list, known) else NoHeart;
    }
    var p := NOTHING;
    var size := |list[1]|;
    var idx := 2;
    while idx <= size
      invariant 2 <= idx <= size + 1 || (idx == 2 && size < 2)
      invariant ParseUpTo(list, idx) == Some(p)
    {
      var next := Take(p, At(list[1], idx), list, idx);
      if next.None? {
        NoneStays(list, idx + 1, size + 1);
        return OutOfRange;
      }
      p := next.value;
      idx := idx + 1;
    }
    if p.requestId >= |list| || p.requester >= |list| || p.globalId >= |list| {
      return OutOfRange;
    }
    r := if p.cmd.None? then NoCommand else Execute(p.cmd.value, p.args, p.requestId, p.requester, p.globalId);
  }

  lemma {:induction false} NoneStays(list: seq<Frame>, at: nat, end: nat)
    requires 2 <= |list| && at <= end && ParseUpTo(list, at).None?
    ensures ParseUpTo(list, end).None?
    decreases end
  {
    if at < end {
      NoneStays(list, at, end - 1);
    }
  }

  predicate Scanned(t: Byte) {
    t == COMMAND || t == ARGUMENT || t == REQUEST_ID || t == REQUESTER || t == GLOBAL_ID
  }

  /** While the descriptor is scanned: nothing outside the list so far exactly if no command or argument byte lies behind it. */
  lemma {:induction false} ParseSafeIff(list: seq<Frame>, end: nat)
    requires 2 <= |list|
    ensures ParseUpTo(list, end).Some? <==>
              forall i | 2 <= i < end && |list| <= i :: At(list[1], i) != COMMAND && At(list[1], i) != ARGUMENT
    ensures ParseUpTo(list, end).Some? ==> var p := ParseUpTo(list, end).value;
              && IsLast(list[1], REQUEST_ID, p.requestId, end) && IsLast(list[1], REQUESTER, p.requester, end)
              && IsLast(list[1], GLOBAL_ID, p.globalId, end)
    decreases end
  {
    if end > 2 {
      ParseSafeIff(list, end - 1);
    }
  }

  /** `at` is the last place of this type before `end`, or 0 when there is none. */
  predicate IsLast(descr: Frame, t: Byte, at: nat, end: nat) {
    && (at == 0 || (2 <= at < end && At(descr, at) == t))
    && forall i {:trigger At(descr, i)} | 2 <= i < end && at < i :: At(descr, i) != t
  }

  /** Some byte that the scan looks for lies behind the list. */
  predicate ScannedOutside(list: seq<Frame>)
    requires 2 <= |list|
  {
    exists i :: |list| <= i <= |list[1]| && Scanned(At(list[1], i))
  }

  lemma ScanSafeIff(list: seq<Frame>, known: set<Frame>)
    requires 2 <= |list| && StateOf(list[1]) != PING && !IsHeart(StateOf(list[1]))
    ensures JobStart(list, known).OutOfRange? <==> ScannedOutside(list)
  {
    var end := |list[1]| + 1;
    ParseSafeIff(list, end);
    if ParseUpTo(list, end).Some? {
      var p := ParseUpTo(list, end).value;
      hide ParseUpTo;
      if i :| |list| <= i <= |list[1]| && Scanned(At(list[1], i)) {
        assert p.requestId >= i || p.requester >= i || p.globalId >= i;
      }
    }
  }

  /**
    What the dispatcher reads outside the list, for every list: a ping nothing; a heartbeat exactly when it names a loaded
    station and has too few strings behind it; and any other message exactly when a byte that the scan of the whole
    descriptor looks for lies behind the list.
   */
  lemma JobSafeIff(list: seq<Frame>, known: set<Frame>)
    requires 2 <= |list|
    ensures var state := StateOf(list[1]);
      JobStart(list, known).OutOfRange? <==>
        && state != PING
        && (IsHeart(state) ==> |list| > 2 && CString(list[2]) in known && |list| < if state == 'J' as int then 5 else 4)
        && (!IsHeart(state) ==> ScannedOutside(list))
  {
    hide ScannedOutside, ParseUpTo;
    if StateOf(list[1]) != PING && !IsHeart(StateOf(list[1])) {
      ScanSafeIff(list, known);
    }
  }

  /** The bytes of a call with up to 255 strings: their number, 1, a dollar sign, percent signs and a zero; and those of a byte command. */
  lemma BytesOnWire(command: Byte, n: nat)
    requires n < 256
    ensures n > 0 ==> CallDescriptor(n) == Some([n, 1, 0x24] + Repeat(0x25, n - 1) + [0])
    ensures ByteDescriptor(command, n) == [n, command] + Repeat(0x25, n) + [0, 0]
    ensures IsHeart(command) <==> command in {0x4A, 0x52, 0x50, 0x4C}
  {
  }

  /** A ping is answered whatever else it carries, and nothing else is answered so. */
  lemma PongIff(list: seq<Frame>, known: set<Frame>)
    requires 2 <= |list|
    ensures JobStart(list, known).Pong? <==> |list[1]| >= 2 && list[1][1] == 0x2A
  {
    hide ParseUpTo;
  }

  /** A message that is counted right and accepted, with one argument byte behind the list. */
  lemma ExtraByteIsRead(identity: Frame, x: Frame, known: set<Frame>)
    requires |identity| < WORD / 2 && |x| < WORD / 2
    ensures var list := [identity, [1, STATE_NONE, COMMAND, ARGUMENT], x];
      Request(list, false, DISPATCHER, false).Started? && JobStart(list, known).OutOfRange?
  {
    var list := [identity, [1, STATE_NONE, COMMAND, ARGUMENT], x];
    AcceptedIff(list, false, DISPATCHER);
    assert Scanned(At(list[1], 3));
    JobSafeIff(list, known);
  }

  // ---------- Round trips ----------

  lemma {:induction false} CallParses(identity: Frame, args: seq<Frame>, end: nat)
    requires args != [] && 3 <= end <= |args| + 2
    ensures ParseUpTo(OnWire(identity, CallDescriptor(|args|).value, args), end)
            == Some(Parsed(Some(CString(args[0])), args[1..end - 2], 0, 0, 0))
    decreases end
  {
    var list := OnWire(identity, CallDescriptor(|args|).value, args);
    assert list[2..] == args;
    if end == 3 {
      assert ParseUpTo(list, 2) == Some(NOTHING);
      assert args[1..1] == [];
    } else {
      CallParses(identity, args, end - 1);
      assert list[end - 1] == args[end - 3] && At(list[1], end - 1) == ARGUMENT;
      assert args[1..end - 3] + [args[end - 3]] == args[1..end - 2];
    }
  }

  /** Behind the arguments come an end mark and a zero. */
  lemma CallExecutes(identity: Frame, args: seq<Frame>, known: set<Frame>)
    requires args != []
    ensures JobStart(OnWire(identity, CallDescriptor(|args|).value, args), known) == Execute(CString(args[0]), args[1..], 0, 0, 0)
  {
    var n := |args|;
    var list := OnWire(identity, CallDescriptor(n).value, args);
    CallParses(identity, args, n + 2);
    assert args[1..n] == args[1..];
    var p := Parsed(Some(CString(args[0])), args[1..], 0, 0, 0);
    assert ParseUpTo(list, n + 3) == Some(p);
    assert ParseUpTo(list, n + 4) == Some(p);
  }

  /**
    A management call round-trips: for every non-empty list of strings, the built message is accepted exactly when it has
    at most 127 of them, and the dispatcher executes the first with the rest in order and reads nothing outside the list.
   */
  lemma CallRoundTrip(identity: Frame, args: seq<Frame>, known: set<Frame>)
    requires args != [] && |identity| < WORD / 2 && |args| + 3 < WORD / 2
    requires forall i | 0 <= i < |args| :: NulFree(args[i]) && |args[i]| < WORD / 2
    ensures var list := OnWire(identity, CallDescriptor(|args|).value, args);
      && (Request(list, false, DISPATCHER, false).Started? <==> |args| <= 127)
      && (Request(list, false, DISPATCHER, false).Invalid? <==> |args| > 127)
      && JobStart(list, known) == Execute(args[0], args[1..], 0, 0, 0)
  {
    hide ParseUpTo, CString, JobStart;
    AcceptedIff(OnWire(identity, CallDescriptor(|args|).value, args), false, DISPATCHER);
    NulFreeIsWhole(args[0]);
    CallExecutes(identity, args, known);
  }

  lemma NulFreeStrings(frames: seq<Frame>)
    requires forall i | 0 <= i < |frames| :: NulFree(frames[i])
    ensures Strings(frames) == frames
  {
    forall i | 0 <= i < |frames|
      ensures Strings(frames)[i] == frames[i]
    {
      NulFreeIsWhole(frames[i]);
    }
  }

  /**
    A heartbeat with a station's name and strings behind it is accepted exactly up to 127 of them. It fails without a name
    or with that of a station that is not loaded, reaches the station with the strings it takes, and with fewer than those
    is read past its end.
   */
  lemma HeartRoundTrip(identity: Frame, command: Byte, args: seq<Frame>, known: set<Frame>)
    requires IsHeart(command) && |identity| < WORD / 2 && |args| + 4 < WORD / 2
    requires forall i | 0 <= i < |args| :: NulFree(args[i]) && |args[i]| < WORD / 2
    ensures var list, taken := OnWire(identity, ByteDescriptor(command, |args|), args), if command == 'J' as int then 2 else 1;
      && (Request(list, false, DISPATCHER, false).Started? <==> |args| <= 127)
      && JobStart(list, known) == (if args == [] || args[0] !in known then NoHeart
                                   else if |args| <= taken then OutOfRange
                                   else Heart(command, args[0], args[1..1 + taken]))
  {
    var list, n := OnWire(identity, ByteDescriptor(command, |args|), args), Needed(command);
    AcceptedIff(list, false, DISPATCHER);
    if args != [] {
      NulFreeIsWhole(args[0]);
      if |args| > n {
        assert list[3..3 + n] == args[1..1 + n];
        NulFreeStrings(args[1..1 + n]);
      }
    }
    hide CString, Strings;
  }

  /** Any other byte command carries no command frame: the dispatcher answers that the arguments are invalid. */
  lemma ByteCommandHasNoCommand(identity: Frame, command: Byte, args: seq<Frame>, known: set<Frame>)
    requires command != PING && !IsHeart(command)
    ensures JobStart(OnWire(identity, ByteDescriptor(command, |args|), args), known) == NoCommand
  {
    var list := OnWire(identity, ByteDescriptor(command, |args|), args);
    var end := |list[1]| + 1;
    ParseSafeIff(list, end);
    NoCommandByte(list, end);
    var p := ParseUpTo(list, end).value;
    hide ParseUpTo;
    assert p.requestId == 0 && p.requester == 0 && p.globalId == 0;
  }

  lemma {:induction false} NoCommandByte(list: seq<Frame>, end: nat)
    requires 2 <= |list| && ParseUpTo(list, end).Some? && forall i | 2 <= i < end :: At(list[1], i) != COMMAND
    ensures ParseUpTo(list, end).value.cmd.None?
    decreases end
  {
    if end > 2 {
      NoCommandByte(list, end - 1);
    }
  }
}
