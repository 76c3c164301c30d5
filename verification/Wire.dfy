/** What both ends of the wire agree on: frames, frame types, and how a descriptor is read. */
module Wire {
  import opened Common

  type Frame = seq<Byte>

  const FRAME_END: Byte := 0
  const GLOBAL_ID: Byte := 1
  const STATION_ID: Byte := 2
  const STATUS: Byte := 3
  const REQUEST_ID: Byte := 4
  const COMMAND: Byte := '$' as int
  const ARGUMENT: Byte := '%' as int
  const TITLE: Byte := '*' as int
  const SUB_TITLE: Byte := '@' as int
  /** Also the type of a publisher. */
  const REQUESTER: Byte := '>' as int
  const CONTENT: Byte := 'T' as int
  const BINARY: Byte := 'B' as int
  const TSON: Byte := 'V' as int

  const STATE_NONE: Byte := 1
  const STATE_PLAN: Byte := 2
  const STATE_GLOBAL_ID: Byte := '>' as int

  const WORD := 0x1_0000_0000_0000_0000

  /** `shared_char::operator[]`: zero past the end; a received frame also has zeros behind its last byte. */
  function At(bytes: Frame, i: nat): Byte {
    if i < |bytes| then bytes[i] else 0
  }

  /** `shared_char::frame_size`: byte 0 is a signed `char` that is widened to an unsigned 64-bit word. */
  function FrameSize(descr: Frame): nat {
    if descr == [] then 0 else if descr[0] < 128 then descr[0] else WORD - 256 + descr[0]
  }

  /** The size is the first byte as a signed number, modulo 2^64; an empty frame has size 0. */
  lemma FrameSizeIsSigned(descr: Frame)
    ensures 0 <= FrameSize(descr) < 0x1_0000_0000_0000_0000
    ensures descr == [] ==> FrameSize(descr) == 0
    ensures descr != [] ==> var signed := if descr[0] < 0x80 then descr[0] as int else descr[0] as int - 0x100;
                            -0x80 <= signed < 0x80 && (FrameSize(descr) - signed) % 0x1_0000_0000_0000_0000 == 0
  {
  }

  function StateOf(descr: Frame): Byte {
    At(descr, 1)
  }

  /** The list without the first address that an inner message carries. */
  function Outer(list: seq<Frame>, inner: bool): seq<Frame>
    requires list != []
  {
    if inner then list[1..] else list
  }

  datatype Verdict = Paused | Invalid | Planned | IdWanted | Started

  /** `zero_station::request` up to `job_start`; the received list has at least one frame. */
  function Request(list: seq<Frame>, inner: bool, kind: int, paused: bool): Verdict
    requires list != []
  {
    var size := |Outer(list, inner)|;
    if paused then Paused
    else if size < 2 then Invalid
    else
      var descr := list[if inner then 2 else 1];
      var n := FrameSize(descr);
      if StateOf(descr) < STATE_NONE || (n + 1) % WORD > |descr| || (n + 2) % WORD != size then Invalid
      else if DISPATCHER < kind < SPECIAL && StateOf(descr) == STATE_PLAN then Planned
      else if DISPATCHER < kind < SPECIAL && StateOf(descr) == STATE_GLOBAL_ID then IdWanted
      else Started
  }

  /** A message whose descriptor counts the frames behind it, read as an unsigned byte. */
  predicate WellCounted(list: seq<Frame>) {
    && 2 <= |list| && 2 <= |list[1]| && 1 <= list[1][1]
    && list[1][0] <= 127 && list[1][0] + 1 <= |list[1]| && |list| == list[1][0] + 2
  }

  /** The widened sign and the wrapping sums let nothing through but up to 127 frames, exactly as many as counted. */
  lemma AcceptedIff(list: seq<Frame>, inner: bool, kind: int)
    requires list != [] && forall i | 0 <= i < |list| :: |list[i]| < WORD / 2
    ensures !Request(list, inner, kind, false).Invalid? <==> WellCounted(Outer(list, inner))
  {
    var size := |Outer(list, inner)|;
    if size >= 2 {
      var descr := list[if inner then 2 else 1];
      assert descr == Outer(list, inner)[1];
      SignedSums(descr);
    }
  }

  /**
    What `request` does with a message, exactly: a paused station only says so; what is not well counted is refused; and
    between the dispatcher's type and the special ones, state 2 asks for a plan and '>' for a global id.
   */
  lemma RequestIs(list: seq<Frame>, inner: bool, kind: int, paused: bool)
    requires list != [] && forall i | 0 <= i < |list| :: |list[i]| < WORD / 2
    ensures var sent := Outer(list, inner);
      var general := 1 < kind < 0xA0;
      Request(list, inner, kind, paused) ==
        if paused then Paused
        else if !WellCounted(sent) then Invalid
        else if general && sent[1][1] == 2 then Planned
        else if general && sent[1][1] == '>' as int then IdWanted
        else Started
  {
    AcceptedIff(list, inner, kind);
    var sent := Outer(list, inner);
    if |sent| >= 2 {
      assert list[if inner then 2 else 1] == sent[1];
    }
    hide WellCounted, FrameSize;
    if WellCounted(sent) {
      WellCountedState(sent);
    }
  }

  lemma WellCountedState(list: seq<Frame>)
    requires WellCounted(list)
    ensures 2 <= |list| && 2 <= |list[1]| && StateOf(list[1]) == list[1][1]
  {
  }

  lemma SignedSums(descr: Frame)
    requires |descr| < WORD / 2
    ensures var n := FrameSize(descr);
      && (n < 128 ==> (n + 1) % WORD == n + 1 && (n + 2) % WORD == n + 2)
      && (n >= 128 ==> (n + 1) % WORD > |descr| || (n + 2) % WORD < 2)
  {
    var n := FrameSize(descr);
    if n >= 128 {
      if n == WORD - 1 {
        assert (n + 2) % WORD == 1;
      } else {
        assert (n + 1) % WORD == n + 1;
      }
    }
  }
}
