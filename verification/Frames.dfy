/**
  The reference-counted frames of shared_char.h. A handle points to a count cell and to a buffer; both are freed
  by the handle that takes the count to zero. A descriptor is a buffer whose byte 0 counts frames, whose byte 1 is
  a command or state, and whose other bytes are frame types; it grows in place.
 */
module Frames {
  import opened Common
  import Wire

  /** An address; 0 is `nullptr`. */
  type Ref = nat

  /** A variable of type `shared_char`. */
  type Name = nat

  datatype Handle = Handle(count: Ref, buffer: Ref, size: nat)

  const EMPTY := Handle(0, 0, 0)

  /** Every live handle, count cell and buffer; `alloc_size_` is the length of a handle's buffer. */
  datatype Heap = Heap(handles: map<Name, Handle>, counts: map<Ref, int>, buffers: map<Ref, seq<Byte>>, next: Ref)

  const START := Heap(map[], map[], map[], 1)

  function Users(s: Heap, c: Ref): set<Name> {
    set n | n in s.handles && s.handles[n].count == c
  }

  /** Not dangling: an empty handle, or one on a live cell and a live buffer. */
  predicate HandleOk(s: Heap, h: Handle) {
    h == EMPTY || (h.count in s.counts && h.buffer in s.buffers && 0 < h.size <= |s.buffers[h.buffer]|)
  }

  ghost predicate NoDangling(s: Heap) {
    forall n | n in s.handles :: HandleOk(s, s.handles[n])
  }

  /** Handles agree on which buffer belongs to which count cell. */
  ghost predicate Paired(s: Heap) {
    forall n, m | n in s.handles && m in s.handles ::
      s.handles[n].count == s.handles[m].count <==> s.handles[n].buffer == s.handles[m].buffer
  }

  /** A live count is the number of handles on its block, and is not zero. */
  ghost predicate Counted(s: Heap) {
    forall c | c in s.counts :: 0 < c < s.next && s.counts[c] == |Users(s, c)| && Users(s, c) != {}
  }

  ghost predicate NoLeaks(s: Heap) {
    forall b | b in s.buffers :: 0 < b < s.next && exists n :: n in s.handles && s.handles[n].buffer == b
  }

  /** No handle refers to a freed block, counts are exact, and a block without a handle is freed. */
  ghost predicate Valid(s: Heap) {
    NoDangling(s) && Paired(s) && Counted(s) && NoLeaks(s)
  }

  // ---------- The operations ----------

  /** `free` */
  function Free(s: Heap, n: Name): (r: Heap)
    requires n in s.handles && HandleOk(s, s.handles[n])
    ensures r.handles.Keys == s.handles.Keys
  {
    var h := s.handles[n];
    if h.count == 0 || h.size == 0 then s
    else
      var cnt := s.counts[h.count] - 1;
      var left := s.(handles := s.handles[n := EMPTY]);
      if cnt == 0 then left.(counts := s.counts - {h.count}, buffers := s.buffers - {h.buffer})
      else left.(counts := s.counts[h.count := cnt])
  }

  /** Take part in the block of `h`. */
  function Share(s: Heap, n: Name, h: Handle): Heap
    requires h.count in s.counts
  {
    s.(handles := s.handles[n := h], counts := s.counts[h.count := s.counts[h.count] + 1])
  }

  /** A new block with a count of one. */
  function NewBlock(s: Heap, n: Name, bytes: seq<Byte>, size: nat): Heap {
    s.(handles := s.handles[n := Handle(s.next, s.next + 1, size)],
       counts := s.counts[s.next := 1],
       buffers := s.buffers[s.next + 1 := bytes],
       next := s.next + 2)
  }

  function CopyConstruct(s: Heap, n: Name, m: Name): Heap
    requires m in s.handles && HandleOk(s, s.handles[m])
  {
    var h := s.handles[m];
    if h.count == 0 then s.(handles := s.handles[n := h]) else Share(s, n, h)
  }

  /** `operator=` for another handle: `free` comes first, so the right-hand side is read after it. */
  function Assign(s: Heap, n: Name, m: Name): Heap
    requires n in s.handles && HandleOk(s, s.handles[n])
    requires m in s.handles && HandleOk(Free(s, n), Free(s, n).handles[m])
  {
    var r := Free(s, n);
    if r.handles[m].buffer != 0 then Share(r, n, r.handles[m]) else r
  }

  /** `copy_`: eight spare bytes, four of them cleared and four left as they were found. */
  function Copied(data: seq<Byte>, junk: seq<Byte>): seq<Byte> {
    data + [0, 0, 0, 0] + junk
  }

  /** `operator=` for a message or a string. */
  function AssignBytes(s: Heap, n: Name, data: seq<Byte>, junk: seq<Byte>): Heap
    requires n in s.handles && HandleOk(s, s.handles[n])
  {
    var r := Free(s, n);
    if data == [] then r else NewBlock(r, n, Copied(data, junk), |data|)
  }

  /** `binding`: take over memory that somebody else allocated. */
  function Bind(s: Heap, n: Name, raw: seq<Byte>): Heap
    requires n in s.handles && HandleOk(s, s.handles[n])
  {
    NewBlock(Free(s, n), n, raw, |raw|)
  }

  function Swap(s: Heap, n: Name, m: Name): Heap
    requires n in s.handles && m in s.handles
  {
    s.(handles := s.handles[n := s.handles[m]][m := s.handles[n]])
  }

  function Destroy(s: Heap, n: Name): Heap
    requires n in s.handles && HandleOk(s, s.handles[n])
  {
    var r := Free(s, n);
    r.(handles := r.handles - {n})
  }

  /** Whether `frame_type(index, type)` has to move the block of a handle to a larger buffer. */
  predicate Grows(s: Heap, n: Name, index: nat)
    requires n in s.handles && s.handles[n].buffer in s.buffers
  {
    |s.buffers[s.handles[n].buffer]| <= index + 2
  }

  function Put(bytes: seq<Byte>, at: nat, b: Byte): seq<Byte>
    requires at < |bytes|
  {
    bytes[at := b]
  }

  function Zeros(n: nat): (r: seq<Byte>)
    ensures |r| == n
  {
    seq<Byte>(n, _ => 0)
  }

  /** The buffer after `frame_type(index, type)`: in place, or in a larger buffer with cleared spare bytes. */
  function WithType(bytes: seq<Byte>, index: nat, t: Byte): (r: seq<Byte>)
    ensures |r| == if |bytes| <= index + 2 then index + 10 else |bytes|
  {
    var at := index + 2;
    Put(if |bytes| <= at then bytes + Zeros(at + 8 - |bytes|) else bytes, at, t)
  }

  /** `frame_type(index, type)`: the growing branch deletes the old buffer and changes this handle only. */
  function SetType(s: Heap, n: Name, index: nat, t: Byte): Heap
    requires n in s.handles && s.handles[n].buffer in s.buffers
  {
    var h := s.handles[n];
    var at := index + 2;
    var bytes := WithType(s.buffers[h.buffer], index, t);
    if !Grows(s, n, index) then
      s.(handles := s.handles[n := h.(size := if at >= h.size then at + 1 else h.size)],
         buffers := s.buffers[h.buffer := bytes])
    else
      s.(handles := s.handles[n := h.(size := at + 4, buffer := s.next)],
         buffers := (s.buffers - {h.buffer})[s.next := bytes],
         next := s.next + 1)
  }

  /** A byte of the buffer is overwritten in place. */
  function SetByte(s: Heap, n: Name, at: nat, b: Byte): Heap
    requires n in s.handles && s.handles[n].buffer in s.buffers && at < |s.buffers[s.handles[n].buffer]|
  {
    var buffer := s.handles[n].buffer;
    s.(buffers := s.buffers[buffer := Put(s.buffers[buffer], at, b)])
  }

  // ---------- Each operation keeps the invariant ----------

  /** What every one-handle operation does to the handles. */
  predicate OnlyChanges(s: Heap, t: Heap, n: Name, h: Handle) {
    t.handles == s.handles[n := h]
  }

  lemma UsersAfterChange(s: Heap, t: Heap, n: Name, h: Handle, c: Ref)
    requires OnlyChanges(s, t, n, h)
    ensures Users(t, c) == (if h.count == c then Users(s, c) + {n} else Users(s, c) - {n})
    ensures n in Users(s, c) <==> n in s.handles && s.handles[n].count == c
  {
  }

  /** A handle may become empty, a copy of another, or the only one on a cell and a buffer nobody used. */
  lemma PairedAfterChange(s: Heap, t: Heap, n: Name, h: Handle)
    requires Paired(s) && OnlyChanges(s, t, n, h)
    requires
      || (forall m | m in s.handles && m != n :: s.handles[m].count != h.count && s.handles[m].buffer != h.buffer)
      || (exists k :: k in s.handles && k != n && s.handles[k].count == h.count && s.handles[k].buffer == h.buffer)
    ensures Paired(t)
  {
  }

  lemma FreeCounts(s: Heap, n: Name)
    requires Valid(s) && n in s.handles && s.handles[n] != EMPTY
    ensures var c := s.handles[n].count; var r := Free(s, n);
      && Users(r, c) == Users(s, c) - {n}
      && (c in r.counts <==> Users(r, c) != {})
      && (s.handles[n].buffer in r.buffers <==> Users(r, c) != {})
    ensures Counted(Free(s, n))
  {
    hide NoLeaks, Paired;
    var h := s.handles[n];
    var r := Free(s, n);
    UsersAfterChange(s, r, n, EMPTY, h.count);
    assert n in Users(s, h.count) && |Users(s, h.count) - {n}| == |Users(s, h.count)| - 1;
    forall c | c in r.counts
      ensures 0 < c < r.next && r.counts[c] == |Users(r, c)| && Users(r, c) != {}
    {
      UsersAfterChange(s, r, n, EMPTY, c);
    }
  }

  lemma FreePaired(s: Heap, n: Name)
    requires Valid(s) && n in s.handles && s.handles[n] != EMPTY
    ensures Paired(Free(s, n))
  {
    hide Users;
    if k :| k in s.handles && k != n && s.handles[k] == EMPTY {
    } else {
      assert forall m | m in s.handles && m != n :: s.handles[m].count != 0 && s.handles[m].buffer != 0;
    }
    PairedAfterChange(s, Free(s, n), n, EMPTY);
  }

  lemma PairedWith(s: Heap, n: Name)
    requires Paired(s) && n in s.handles
    ensures forall m | m in s.handles :: s.handles[m].count == s.handles[n].count <==> s.handles[m].buffer == s.handles[n].buffer
  {
  }

  lemma FreeNoDangling(s: Heap, n: Name)
    requires Valid(s) && n in s.handles && s.handles[n] != EMPTY
    ensures NoDangling(Free(s, n))
  {
    hide NoLeaks, Counted, Paired;
    FreeCounts(s, n);
    PairedWith(s, n);
    var h := s.handles[n];
    var r := Free(s, n);
    forall m | m in r.handles
      ensures HandleOk(r, r.handles[m])
    {
      if m != n && s.handles[m].count == h.count {
        assert m in Users(r, h.count);
      }
    }
  }

  lemma FreeNoLeaks(s: Heap, n: Name)
    requires Valid(s) && n in s.handles && s.handles[n] != EMPTY
    ensures NoLeaks(Free(s, n))
  {
    hide Counted, NoDangling, Paired;
    HandleIsOk(s, n);
    FreeCounts(s, n);
    PairedWith(s, n);
    var h := s.handles[n];
    var r := Free(s, n);
    forall b | b in r.buffers
      ensures 0 < b < r.next && exists m :: m in r.handles && r.handles[m].buffer == b
    {
      if b == h.buffer {
        var k :| k in Users(r, h.count);
        assert r.handles[k].buffer == b;
      } else {
        var m :| m in s.handles && s.handles[m].buffer == b;
        assert r.handles[m].buffer == b;
      }
    }
  }

  lemma FreeKeepsValid(s: Heap, n: Name)
    requires Valid(s) && n in s.handles
    ensures Valid(Free(s, n)) && Free(s, n).handles[n] == EMPTY
  {
    hide NoLeaks, Counted, Paired, Users, NoDangling;
    HandleIsOk(s, n);
    if s.handles[n] != EMPTY {
      FreeCounts(s, n);
      FreePaired(s, n);
      FreeNoDangling(s, n);
      FreeNoLeaks(s, n);
      CountNotZero(s, n);
    }
  }

  lemma CountNotZero(s: Heap, n: Name)
    requires Valid(s) && n in s.handles && s.handles[n] != EMPTY
    ensures s.handles[n].count != 0 && s.handles[n].buffer != 0
  {
  }

  lemma HandleIsOk(s: Heap, n: Name)
    requires NoDangling(s) && n in s.handles
    ensures HandleOk(s, s.handles[n])
  {
  }

  lemma ShareKeepsValid(s: Heap, n: Name, m: Name)
    requires Valid(s) && m in s.handles && s.handles[m] != EMPTY
    requires n in s.handles ==> s.handles[n] == EMPTY
    ensures Valid(Share(s, n, s.handles[m]))
  {
    var h := s.handles[m];
    var r := Share(s, n, h);
    assert Counted(r) by {
      hide NoLeaks, Paired;
      forall c | c in r.counts
        ensures 0 < c < r.next && r.counts[c] == |Users(r, c)| && Users(r, c) != {}
      {
        UsersAfterChange(s, r, n, h, c);
      }
    }
    assert NoLeaks(r) by {
      hide Counted, Paired, Users;
      forall b | b in r.buffers
        ensures 0 < b < r.next && exists k :: k in r.handles && r.handles[k].buffer == b
      {
        var k :| k in s.handles && s.handles[k].buffer == b;
        assert k != n && r.handles[k].buffer == b;
      }
    }
    PairedAfterChange(s, r, n, h);
    assert NoDangling(r) by {
      hide Counted, Paired, Users, NoLeaks;
    }
    hide NoDangling, NoLeaks, Counted, Paired, Users;
  }

  lemma NewBlockCounted(s: Heap, n: Name, bytes: seq<Byte>, size: nat)
    requires Counted(s) && NoDangling(s) && s.next > 0
    requires n in s.handles ==> s.handles[n] == EMPTY
    ensures Counted(NewBlock(s, n, bytes, size))
  {
    var r := NewBlock(s, n, bytes, size);
    var h := r.handles[n];
    assert Users(s, s.next) == {};
    forall c | c in r.counts
      ensures 0 < c < r.next && r.counts[c] == |Users(r, c)| && Users(r, c) != {}
    {
      UsersAfterChange(s, r, n, h, c);
    }
  }

  lemma NewBlockNoLeaks(s: Heap, n: Name, bytes: seq<Byte>, size: nat)
    requires NoLeaks(s)
    requires n in s.handles ==> s.handles[n] == EMPTY
    ensures NoLeaks(NewBlock(s, n, bytes, size))
  {
    var r := NewBlock(s, n, bytes, size);
    forall b | b in r.buffers
      ensures 0 < b < r.next && exists k :: k in r.handles && r.handles[k].buffer == b
    {
      if b == s.next + 1 {
        assert r.handles[n].buffer == b;
      } else {
        var k :| k in s.handles && s.handles[k].buffer == b;
        assert k != n && r.handles[k].buffer == b;
      }
    }
  }

  lemma RefsBelowNext(s: Heap)
    requires NoDangling(s) && Counted(s) && NoLeaks(s) && s.next > 0
    ensures forall m | m in s.handles :: s.handles[m].count < s.next && s.handles[m].buffer < s.next
  {
    forall m | m in s.handles
      ensures s.handles[m].count < s.next && s.handles[m].buffer < s.next
    {
      assert HandleOk(s, s.handles[m]);
    }
  }

  lemma NewBlockPaired(s: Heap, n: Name, bytes: seq<Byte>, size: nat)
    requires Valid(s) && s.next > 0
    ensures Paired(NewBlock(s, n, bytes, size))
  {
    hide Users;
    var r := NewBlock(s, n, bytes, size);
    RefsBelowNext(s);
    hide Counted, NoLeaks, NoDangling;
    PairedAfterChange(s, r, n, r.handles[n]);
  }

  lemma NewBlockKeepsValid(s: Heap, n: Name, bytes: seq<Byte>, size: nat)
    requires Valid(s) && s.next > 0 && size <= |bytes|
    requires n in s.handles ==> s.handles[n] == EMPTY
    ensures Valid(NewBlock(s, n, bytes, size)) <==> size > 0
  {
    hide Counted, NoLeaks, Paired, Users;
    var r := NewBlock(s, n, bytes, size);
    NewBlockCounted(s, n, bytes, size);
    NewBlockNoLeaks(s, n, bytes, size);
    NewBlockPaired(s, n, bytes, size);
    RefsBelowNext(s);
    assert HandleOk(r, r.handles[n]) <==> size > 0;
    forall m | m in s.handles && m != n
      ensures HandleOk(r, r.handles[m])
    {
      assert HandleOk(s, s.handles[m]);
    }
  }

  lemma AssignKeepsValid(s: Heap, n: Name, m: Name)
    requires Valid(s) && n in s.handles && m in s.handles
    ensures HandleOk(s, s.handles[n]) && HandleOk(Free(s, n), Free(s, n).handles[m])
    ensures Valid(Assign(s, n, m))
    ensures n == m ==> Assign(s, n, m).handles[n] == EMPTY
  {
    hide NoLeaks, Counted, Paired, Users, NoDangling;
    HandleIsOk(s, n);
    FreeKeepsValid(s, n);
    var r := Free(s, n);
    HandleIsOk(r, m);
    if r.handles[m].buffer != 0 {
      ShareKeepsValid(r, n, m);
    }
  }

  lemma SwapKeepsValid(s: Heap, n: Name, m: Name)
    requires Valid(s) && n in s.handles && m in s.handles
    ensures Valid(Swap(s, n, m))
  {
    hide NoDangling, Paired, Counted, NoLeaks;
    SwapNoDangling(s, n, m);
    SwapPaired(s, n, m);
    SwapCounted(s, n, m);
    SwapNoLeaks(s, n, m);
  }

  lemma SwapNoDangling(s: Heap, n: Name, m: Name)
    requires NoDangling(s) && n in s.handles && m in s.handles
    ensures NoDangling(Swap(s, n, m))
  {
  }

  lemma SwapPaired(s: Heap, n: Name, m: Name)
    requires Paired(s) && n in s.handles && m in s.handles
    ensures Paired(Swap(s, n, m))
  {
  }

  lemma SwapCounted(s: Heap, n: Name, m: Name)
    requires Counted(s) && n in s.handles && m in s.handles
    ensures Counted(Swap(s, n, m))
  {
    var r := Swap(s, n, m);
    forall c | c in r.counts
      ensures |Users(r, c)| == |Users(s, c)|
    {
      SwapUsers(s, n, m, c);
    }
  }

  lemma SwapNoLeaks(s: Heap, n: Name, m: Name)
    requires NoLeaks(s) && n in s.handles && m in s.handles
    ensures NoLeaks(Swap(s, n, m))
  {
    var r := Swap(s, n, m);
    forall b | b in r.buffers
      ensures exists k :: k in r.handles && r.handles[k].buffer == b
    {
      var k :| k in s.handles && s.handles[k].buffer == b;
      assert r.handles[if k == n then m else if k == m then n else k].buffer == b;
    }
  }

  lemma SwapUsers(s: Heap, n: Name, m: Name, c: Ref)
    requires n in s.handles && m in s.handles
    ensures |Users(Swap(s, n, m), c)| == |Users(s, c)|
  {
    var r := Swap(s, n, m);
    if (s.handles[n].count == c) == (s.handles[m].count == c) {
      assert Users(r, c) == Users(s, c);
    } else if s.handles[n].count == c {
      assert Users(r, c) == Users(s, c) - {n} + {m};
    } else {
      assert Users(r, c) == Users(s, c) - {m} + {n};
    }
  }

  function Forget(s: Heap, n: Name): Heap {
    s.(handles := s.handles - {n})
  }

  lemma DestroyKeepsValid(s: Heap, n: Name)
    requires Valid(s) && n in s.handles
    ensures Valid(Destroy(s, n))
  {
    hide NoDangling, Paired, Counted, NoLeaks;
    HandleIsOk(s, n);
    FreeKeepsValid(s, n);
    ForgetSimple(Free(s, n), n);
    ForgetCounted(Free(s, n), n);
    ForgetNoLeaks(Free(s, n), n);
  }

  lemma ForgetSimple(s: Heap, n: Name)
    requires NoDangling(s) && Paired(s)
    ensures NoDangling(Forget(s, n)) && Paired(Forget(s, n))
  {
  }

  lemma ForgetCounted(s: Heap, n: Name)
    requires Counted(s) && n in s.handles && s.handles[n] == EMPTY
    ensures Counted(Forget(s, n))
  {
    forall c | c in s.counts
      ensures Users(Forget(s, n), c) == Users(s, c)
    {
    }
  }

  lemma ForgetNoLeaks(s: Heap, n: Name)
    requires NoLeaks(s) && n in s.handles && s.handles[n] == EMPTY
    ensures NoLeaks(Forget(s, n))
  {
    var r := Forget(s, n);
    forall b | b in r.buffers
      ensures exists k :: k in r.handles && r.handles[k].buffer == b
    {
      var k :| k in s.handles && s.handles[k].buffer == b;
      assert k != n && r.handles[k].buffer == b;
    }
  }

  /** `frame_type(index, type)` is safe exactly when it does not grow the block or the block has one handle. */
  lemma SetTypeValidIff(s: Heap, n: Name, index: nat, t: Byte)
    requires Valid(s) && n in s.handles && s.handles[n] != EMPTY
    requires s.handles[n].buffer in s.buffers && s.handles[n].count in s.counts
    ensures Valid(SetType(s, n, index, t)) <==> !Grows(s, n, index) || s.counts[s.handles[n].count] == 1
  {
    if Grows(s, n, index) {
      if s.counts[s.handles[n].count] == 1 {
        GrowAloneKeepsValid(s, n, index, t);
      } else {
        GrowSharedDangles(s, n, index, t);
      }
    } else {
      SetInPlaceKeepsValid(s, n, index, t);
    }
  }

  /** A change of sizes and buffer contents that keeps the handles' references. */
  predicate SameShape(s: Heap, r: Heap) {
    && r.handles.Keys == s.handles.Keys && r.counts == s.counts && r.next == s.next && r.buffers.Keys == s.buffers.Keys
    && (forall m | m in s.handles :: r.handles[m].count == s.handles[m].count && r.handles[m].buffer == s.handles[m].buffer)
  }

  lemma SameShapeKeepsValid(s: Heap, r: Heap)
    requires Valid(s) && SameShape(s, r) && NoDangling(r)
    ensures Valid(r)
  {
    hide NoDangling, Paired, Counted, NoLeaks, SameShape;
    SameShapePaired(s, r);
    SameShapeCounted(s, r);
    SameShapeNoLeaks(s, r);
  }

  lemma SameShapePaired(s: Heap, r: Heap)
    requires Paired(s) && SameShape(s, r)
    ensures Paired(r)
  {
  }

  lemma SameShapeCounted(s: Heap, r: Heap)
    requires Counted(s) && SameShape(s, r)
    ensures Counted(r)
  {
    forall c | c in r.counts
      ensures Users(r, c) == Users(s, c)
    {
    }
  }

  lemma SameShapeNoLeaks(s: Heap, r: Heap)
    requires NoLeaks(s) && SameShape(s, r)
    ensures NoLeaks(r)
  {
    forall b | b in r.buffers
      ensures exists k :: k in r.handles && r.handles[k].buffer == b
    {
      var k :| k in s.handles && s.handles[k].buffer == b;
      assert r.handles[k].buffer == b;
    }
  }

  lemma SetInPlaceKeepsValid(s: Heap, n: Name, index: nat, t: Byte)
    requires Valid(s) && n in s.handles && s.handles[n] != EMPTY
    requires s.handles[n].buffer in s.buffers && !Grows(s, n, index)
    ensures Valid(SetType(s, n, index, t))
  {
    hide NoDangling, Paired, Counted, NoLeaks;
    SetInPlaceNoDangling(s, n, index, t);
    SameShapeKeepsValid(s, SetType(s, n, index, t));
  }

  lemma SetInPlaceNoDangling(s: Heap, n: Name, index: nat, t: Byte)
    requires NoDangling(s) && n in s.handles && s.handles[n] != EMPTY
    requires s.handles[n].buffer in s.buffers && !Grows(s, n, index)
    ensures NoDangling(SetType(s, n, index, t))
  {
    var r := SetType(s, n, index, t);
    forall m | m in r.handles
      ensures HandleOk(r, r.handles[m])
    {
      assert HandleOk(s, s.handles[m]);
    }
  }

  lemma SetByteKeepsValid(s: Heap, n: Name, at: nat, b: Byte)
    requires Valid(s) && n in s.handles
    requires s.handles[n].buffer in s.buffers && at < |s.buffers[s.handles[n].buffer]|
    ensures Valid(SetByte(s, n, at, b))
  {
    hide NoDangling, Paired, Counted, NoLeaks;
    SetByteNoDangling(s, n, at, b);
    SameShapeKeepsValid(s, SetByte(s, n, at, b));
  }

  lemma SetByteNoDangling(s: Heap, n: Name, at: nat, b: Byte)
    requires NoDangling(s) && n in s.handles
    requires s.handles[n].buffer in s.buffers && at < |s.buffers[s.handles[n].buffer]|
    ensures NoDangling(SetByte(s, n, at, b))
  {
    forall m | m in s.handles
      ensures HandleOk(SetByte(s, n, at, b), s.handles[m])
    {
      assert HandleOk(s, s.handles[m]);
    }
  }

  lemma GrowSharedDangles(s: Heap, n: Name, index: nat, t: Byte)
    requires Valid(s) && n in s.handles && s.handles[n] != EMPTY
    requires s.handles[n].buffer in s.buffers && s.handles[n].count in s.counts && Grows(s, n, index)
    requires s.counts[s.handles[n].count] != 1
    ensures !NoDangling(SetType(s, n, index, t))
  {
    var h := s.handles[n];
    assert n in Users(s, h.count) && |Users(s, h.count) - {n}| == |Users(s, h.count)| - 1;
    var m :| m in Users(s, h.count) - {n};
    PairedWith(s, n);
    hide Counted, Users, Paired;
    var r := SetType(s, n, index, t);
    assert r.handles[m] == s.handles[m] && r.handles[m].buffer !in r.buffers;
    assert HandleOk(s, s.handles[m]) && !HandleOk(r, r.handles[m]);
  }

  lemma GrowAloneKeepsValid(s: Heap, n: Name, index: nat, t: Byte)
    requires Valid(s) && n in s.handles && s.handles[n] != EMPTY
    requires s.handles[n].buffer in s.buffers && s.handles[n].count in s.counts && Grows(s, n, index)
    requires s.counts[s.handles[n].count] == 1
    ensures Valid(SetType(s, n, index, t))
  {
    hide NoDangling, Paired, Counted, NoLeaks;
    var r := SetType(s, n, index, t);
    OnlyUser(s, n);
    PairedWith(s, n);
    NextPositive(s, n);
    RefsBelowNext(s);
    GrowAloneNoDangling(s, n, index, t);
    PairedAfterChange(s, r, n, r.handles[n]);
    GrowAloneCounted(s, n, index, t);
    GrowAloneNoLeaks(s, n, index, t);
  }

  lemma NextPositive(s: Heap, n: Name)
    requires NoLeaks(s) && n in s.handles && s.handles[n].buffer in s.buffers
    ensures s.next > 0
  {
  }

  lemma GrowAloneNoDangling(s: Heap, n: Name, index: nat, t: Byte)
    requires NoDangling(s) && n in s.handles && s.handles[n] != EMPTY
    requires s.handles[n].buffer in s.buffers && s.handles[n].count in s.counts && Grows(s, n, index)
    requires forall m | m in s.handles && m != n :: s.handles[m].buffer != s.handles[n].buffer
    requires forall m | m in s.handles :: s.handles[m].buffer < s.next
    ensures NoDangling(SetType(s, n, index, t))
  {
    var r := SetType(s, n, index, t);
    forall m | m in s.handles && m != n
      ensures HandleOk(r, r.handles[m])
    {
      assert HandleOk(s, s.handles[m]);
    }
  }

  lemma GrowAloneCounted(s: Heap, n: Name, index: nat, t: Byte)
    requires Counted(s) && n in s.handles && s.handles[n].buffer in s.buffers
    ensures Counted(SetType(s, n, index, t))
  {
    forall c | c in s.counts
      ensures Users(SetType(s, n, index, t), c) == Users(s, c)
    {
    }
  }

  lemma GrowAloneNoLeaks(s: Heap, n: Name, index: nat, t: Byte)
    requires NoLeaks(s) && n in s.handles && s.handles[n].buffer in s.buffers && Grows(s, n, index)
    ensures NoLeaks(SetType(s, n, index, t))
  {
    var r := SetType(s, n, index, t);
    forall b | b in r.buffers
      ensures 0 < b < r.next && exists k :: k in r.handles && r.handles[k].buffer == b
    {
      if b == s.next {
        assert r.handles[n].buffer == b;
      } else {
        var k :| k in s.handles && s.handles[k].buffer == b;
        assert k != n && r.handles[k].buffer == b;
      }
    }
  }

  lemma OnlyUser(s: Heap, n: Name)
    requires Counted(s) && n in s.handles && s.handles[n].count in s.counts && s.counts[s.handles[n].count] == 1
    ensures forall m | m in s.handles && m != n :: s.handles[m].count != s.handles[n].count
  {
    var c := s.handles[n].count;
    forall m | m in s.handles && m != n && s.handles[m].count == c
      ensures false
    {
      assert {m, n} <= Users(s, c) && |{m, n}| == 2;
      SubsetSize({m, n}, Users(s, c));
    }
  }

  lemma SubsetSize(a: set<Name>, b: set<Name>)
    requires a <= b
    ensures |a| <= |b|
  {
    assert b == a + (b - a);
  }

  lemma BindValidIff(s: Heap, n: Name, raw: seq<Byte>)
    requires Valid(s) && s.next > 0 && n in s.handles
    ensures HandleOk(s, s.handles[n]) && (Valid(Bind(s, n, raw)) <==> raw != [])
  {
    hide NoDangling, Paired, Counted, NoLeaks;
    HandleIsOk(s, n);
    FreeKeepsValid(s, n);
    NewBlockKeepsValid(Free(s, n), n, raw, |raw|);
  }

  lemma FreedIff(s: Heap, n: Name)
    requires Valid(s) && n in s.handles && s.handles[n] != EMPTY
    ensures HandleOk(s, s.handles[n])
    ensures s.handles[n].buffer in Free(s, n).buffers <==> Users(s, s.handles[n].count) - {n} != {}
  {
    HandleIsOk(s, n);
    FreeCounts(s, n);
    hide *;
  }

  /** A destroyed handle takes its buffer with it exactly when no other handle is on it. */
  lemma FreedWithLastHandle(s: Heap, n: Name)
    requires Valid(s) && n in s.handles && s.handles[n] != EMPTY
    ensures HandleOk(s, s.handles[n])
    ensures s.handles[n].buffer in Destroy(s, n).buffers <==>
            exists m :: m in s.handles && m != n && s.handles[m].buffer == s.handles[n].buffer
  {
    FreedIff(s, n);
    PairedWith(s, n);
    hide Valid, Free;
    var others := Users(s, s.handles[n].count) - {n};
    if m :| m in s.handles && m != n && s.handles[m].buffer == s.handles[n].buffer {
      assert m in others;
    }
  }

  // ---------- Descriptors ----------

  /** Byte 0 as the signed `char` that `frame_size` and `append_frame` read. */
  function FrameCount(bytes: seq<Byte>): int
    requires |bytes| > 0
  {
    var b: int := bytes[0];
    if b < 128 then b else b - 256
  }

  /** A descriptor whose frame types all lie inside the allocation. */
  predicate IsDescriptor(bytes: seq<Byte>) {
    2 <= |bytes| && 0 <= FrameCount(bytes) && FrameCount(bytes) + 2 <= |bytes|
  }

  function Types(bytes: seq<Byte>): seq<Byte>
    requires IsDescriptor(bytes)
  {
    bytes[2..2 + FrameCount(bytes)]
  }

  function AsByte(n: nat): Byte {
    n % 256
  }

  /** What `alloc_frame` writes; `spare` is the surplus of the `alloc_frame_1` to `alloc_frame_4` forms. */
  function DescriptorBytes(types: seq<Byte>, state: Byte, spare: nat): seq<Byte> {
    [AsByte(|types|), state] + types + Zeros(spare + 8)
  }

  lemma DescriptorBytesIff(types: seq<Byte>, state: Byte, spare: nat)
    requires |types| < 256
    ensures var b := DescriptorBytes(types, state, spare);
      && (IsDescriptor(b) <==> |types| <= 127)
      && (IsDescriptor(b) ==> Types(b) == types && b[1] == state)
  {
  }

  /** The buffer after `append_frame` on a descriptor. */
  function Appended(bytes: seq<Byte>, t: Byte): (r: seq<Byte>)
    requires IsDescriptor(bytes)
    ensures |r| >= |bytes|
  {
    var c := FrameCount(bytes);
    Put(WithType(bytes, c, t), 0, AsByte(c + 1))
  }

  /** With 127 frames already there, the count wraps to -128 as the signed byte it is read as. */
  lemma AppendedTypes(bytes: seq<Byte>, t: Byte)
    requires IsDescriptor(bytes)
    ensures var r := Appended(bytes, t);
      && (IsDescriptor(r) <==> FrameCount(bytes) < 127)
      && (IsDescriptor(r) ==> FrameCount(r) == FrameCount(bytes) + 1 && Types(r) == Types(bytes) + [t] && r[1] == bytes[1])
  {
    var c := FrameCount(bytes);
    var r := Appended(bytes, t);
    if c < 127 {
      assert r[2..2 + c] == bytes[2..2 + c];
      assert r[2..2 + c + 1] == r[2..2 + c] + [r[2 + c]];
    }
  }

  // ---------- Descriptors behind handles ----------

  /** The bytes behind a handle, up to the end of its allocation. */
  function Bytes(s: Heap, n: Name): seq<Byte>
    requires n in s.handles && s.handles[n].buffer in s.buffers
  {
    s.buffers[s.handles[n].buffer]
  }

  predicate HoldsDescriptor(s: Heap, n: Name) {
    && n in s.handles && s.handles[n].size > 0 && s.handles[n].count in s.counts && s.handles[n].buffer in s.buffers
    && IsDescriptor(Bytes(s, n))
  }

  function AllocFrame(s: Heap, n: Name, types: seq<Byte>, state: Byte, spare: nat): Heap
    requires n in s.handles && HandleOk(s, s.handles[n])
  {
    NewBlock(Free(s, n), n, DescriptorBytes(types, state, spare), |types| + 2 + spare)
  }

  /** `append_frame` on a descriptor. */
  function AppendFrame(s: Heap, n: Name, t: Byte): Heap
    requires HoldsDescriptor(s, n)
  {
    var c := FrameCount(Bytes(s, n));
    SetByte(SetType(s, n, c, t), n, 0, AsByte(c + 1))
  }

  /** `append_frame` on an empty handle, which first becomes a descriptor of ten blank frames. */
  function AppendToEmpty(s: Heap, n: Name, t: Byte): Heap
    requires n in s.handles && s.handles[n] == EMPTY
  {
    EmptyGetsDescriptor(s, n);
    AppendFrame(AllocFrame(s, n, Zeros(10), Wire.STATE_NONE, 0), n, t)
  }

  lemma EmptyGetsDescriptor(s: Heap, n: Name)
    requires n in s.handles && s.handles[n] == EMPTY
    ensures var r := AllocFrame(s, n, Zeros(10), Wire.STATE_NONE, 0);
      HoldsDescriptor(r, n) && Types(Bytes(r, n)) == Zeros(10) && r.counts[r.handles[n].count] == 1
  {
    DescriptorBytesIff(Zeros(10), Wire.STATE_NONE, 0);
    hide DescriptorBytes, IsDescriptor;
  }

  /** Room for `k` more types, or nobody else on the block. */
  predicate AppendSafe(s: Heap, n: Name, k: nat)
    requires HoldsDescriptor(s, n)
  {
    Fits(Bytes(s, n), k) || s.counts[s.handles[n].count] == 1
  }

  predicate Fits(bytes: seq<Byte>, k: nat)
    requires IsDescriptor(bytes)
  {
    FrameCount(bytes) + k + 2 <= |bytes|
  }

  /** Whether `m` is on the buffer of `n`. */
  predicate Shares(s: Heap, n: Name, m: Name) {
    n in s.handles && m in s.handles && s.handles[n].buffer == s.handles[m].buffer
  }

  lemma SetTypeBytes(s: Heap, n: Name, index: nat, t: Byte)
    requires n in s.handles && s.handles[n].buffer in s.buffers
    ensures var r := SetType(s, n, index, t);
      && n in r.handles && r.handles[n].buffer in r.buffers && Bytes(r, n) == WithType(Bytes(s, n), index, t)
      && r.counts == s.counts && r.handles[n].count == s.handles[n].count && r.handles[n].size > 0
      && (!Grows(s, n, index) ==> forall m | Shares(s, n, m) :: Shares(r, n, m))
  {
    hide WithType;
  }

  lemma SetByteBytes(s: Heap, n: Name, at: nat, b: Byte)
    requires n in s.handles && s.handles[n].buffer in s.buffers && at < |Bytes(s, n)|
    ensures var r := SetByte(s, n, at, b);
      && r.handles == s.handles && r.counts == s.counts
      && r.handles[n].buffer in r.buffers && Bytes(r, n) == Put(Bytes(s, n), at, b)
  {
    hide Put;
  }

  /** `append_frame` changes the buffer of its handle as `Appended` says, and every sharer sees it unless it grew. */
  lemma AppendFrameBytes(s: Heap, n: Name, t: Byte)
    requires HoldsDescriptor(s, n)
    ensures var r := AppendFrame(s, n, t);
      && n in r.handles && r.handles[n].buffer in r.buffers && Bytes(r, n) == Appended(Bytes(s, n), t)
      && r.counts == s.counts && r.handles[n].count == s.handles[n].count && r.handles[n] != EMPTY
      && (Fits(Bytes(s, n), 1) ==> forall m | Shares(s, n, m) :: Shares(r, n, m))
  {
    var c := FrameCount(Bytes(s, n));
    SetTypeBytes(s, n, c, t);
    var s1 := SetType(s, n, c, t);
    SetByteBytes(s1, n, 0, AsByte(c + 1));
    hide SetType, SetByte, WithType, Put;
  }

  lemma AppendKeepsValid(s: Heap, n: Name, t: Byte)
    requires Valid(s) && HoldsDescriptor(s, n)
    ensures AppendSafe(s, n, 1) ==> Valid(AppendFrame(s, n, t))
  {
    hide Valid, SetType, SetByte, WithType, Put;
    var c := FrameCount(Bytes(s, n));
    SetTypeBytes(s, n, c, t);
    if AppendSafe(s, n, 1) {
      SetTypeValidIff(s, n, c, t);
      SetByteKeepsValid(SetType(s, n, c, t), n, 0, AsByte(c + 1));
    }
  }

  /** Unsafe appends on a shared handle leave the other handles on a deleted buffer. */
  lemma UnsafeAppendDangles(s: Heap, n: Name, t: Byte)
    requires Valid(s) && HoldsDescriptor(s, n) && !AppendSafe(s, n, 1)
    ensures !NoDangling(AppendFrame(s, n, t))
  {
    var c := FrameCount(Bytes(s, n));
    SetTypeBytes(s, n, c, t);
    GrowSharedDangles(s, n, c, t);
    var s1 := SetType(s, n, c, t);
    hide Paired, Counted, NoLeaks, SetType, WithType, Put;
    if m :| m in s1.handles && !HandleOk(s1, s1.handles[m]) {
      assert !HandleOk(SetByte(s1, n, 0, AsByte(c + 1)), s1.handles[m]);
    }
  }

  lemma AppendStep(s: Heap, n: Name, t: Byte, k: nat)
    requires Valid(s) && HoldsDescriptor(s, n) && FrameCount(Bytes(s, n)) < 127 && 0 < k && AppendSafe(s, n, k)
    ensures var r := AppendFrame(s, n, t);
      && Valid(r) && HoldsDescriptor(r, n) && AppendSafe(r, n, k - 1)
      && FrameCount(Bytes(r, n)) == FrameCount(Bytes(s, n)) + 1
      && Types(Bytes(r, n)) == Types(Bytes(s, n)) + [t] && Bytes(r, n)[1] == Bytes(s, n)[1]
      && (Fits(Bytes(s, n), k) ==> Fits(Bytes(r, n), k - 1))
  {
    AppendFrameBytes(s, n, t);
    AppendedTypes(Bytes(s, n), t);
    AppendKeepsValid(s, n, t);
    hide Valid, AppendFrame, Appended, Types;
  }

  function AppendAll(s: Heap, n: Name, ts: seq<Byte>): Heap
    requires Valid(s) && HoldsDescriptor(s, n) && FrameCount(Bytes(s, n)) + |ts| <= 127 && AppendSafe(s, n, |ts|)
    decreases |ts|
  {
    if ts == [] then s
    else
      AppendStep(s, n, ts[0], |ts|);
      AppendAll(AppendFrame(s, n, ts[0]), n, ts[1..])
  }

  /**
    Any number of appends up to 127 frames, across any number of reallocations: the count cells stay exact, the types
    are the old ones followed by the new ones, and while the allocation has room every sharer stays on the same buffer.
   */
  lemma {:induction false} AppendAllAddsTypes(s: Heap, n: Name, ts: seq<Byte>)
    requires Valid(s) && HoldsDescriptor(s, n) && FrameCount(Bytes(s, n)) + |ts| <= 127 && AppendSafe(s, n, |ts|)
    ensures var r := AppendAll(s, n, ts);
      && Valid(r) && HoldsDescriptor(r, n)
      && Types(Bytes(r, n)) == Types(Bytes(s, n)) + ts && Bytes(r, n)[1] == Bytes(s, n)[1]
      && (Fits(Bytes(s, n), |ts|) ==> forall m | Shares(s, n, m) :: Shares(r, n, m))
    decreases |ts|
  {
    hide Valid, AppendFrame, Types, IsDescriptor, Shares;
    if ts == [] {
      assert Types(Bytes(s, n)) + ts == Types(Bytes(s, n));
    } else {
      AppendStep(s, n, ts[0], |ts|);
      AppendFrameBytes(s, n, ts[0]);
      AppendAllAddsTypes(AppendFrame(s, n, ts[0]), n, ts[1..]);
      assert Types(Bytes(s, n)) + [ts[0]] + ts[1..] == Types(Bytes(s, n)) + ts;
    }
  }

  // ---------- What sharers read ----------

  /** What `size` and `operator[]` let a handle see of its buffer, and what is sent of it. */
  function View(s: Heap, n: Name): seq<Byte>
    requires n in s.handles && s.handles[n].buffer in s.buffers && s.handles[n].size <= |Bytes(s, n)|
  {
    Bytes(s, n)[..s.handles[n].size]
  }

  /** An append changes no other handle, and the size of its own so that it covers the new type. */
  lemma AppendFrameSizes(s: Heap, n: Name, t: Byte)
    requires HoldsDescriptor(s, n)
    ensures var r, c := AppendFrame(s, n, t), FrameCount(Bytes(s, n));
      && r.handles.Keys == s.handles.Keys && (forall m | m in s.handles && m != n :: r.handles[m] == s.handles[m])
      && r.handles[n].size >= c + 3
  {
    hide WithType, Put, IsDescriptor, FrameCount;
  }

  lemma {:induction false} AppendAllSizes(s: Heap, n: Name, ts: seq<Byte>)
    requires Valid(s) && HoldsDescriptor(s, n) && FrameCount(Bytes(s, n)) + |ts| <= 127 && AppendSafe(s, n, |ts|)
    ensures var r, c := AppendAll(s, n, ts), FrameCount(Bytes(s, n));
      && r.handles.Keys == s.handles.Keys && (forall m | m in s.handles && m != n :: r.handles[m] == s.handles[m])
      && (ts != [] ==> r.handles[n].size >= c + |ts| + 2)
    decreases |ts|
  {
    hide Valid, AppendFrame, Types, IsDescriptor;
    if ts != [] {
      AppendStep(s, n, ts[0], |ts|);
      AppendFrameSizes(s, n, ts[0]);
      AppendAllSizes(AppendFrame(s, n, ts[0]), n, ts[1..]);
    }
  }

  /** A buffer that holds a descriptor, seen through the first `size` bytes. */
  lemma ViewOfDescriptor(bytes: seq<Byte>, size: nat, i: nat)
    requires IsDescriptor(bytes) && 0 < size <= |bytes| && i < FrameCount(bytes)
    ensures |Types(bytes)| == FrameCount(bytes)
    ensures IsDescriptor(bytes[..size]) <==> FrameCount(bytes) + 2 <= size
    ensures IsDescriptor(bytes[..size]) ==> Types(bytes[..size]) == Types(bytes)
    ensures Wire.FrameSize(bytes[..size]) + 1 <= size <==> FrameCount(bytes) + 1 <= size
    ensures Wire.At(bytes[..size], i + 2) == if i + 2 < size then Types(bytes)[i] else 0
  {
  }

  lemma TypesCount(bytes: seq<Byte>)
    requires IsDescriptor(bytes)
    ensures |Types(bytes)| == FrameCount(bytes)
  {
  }

  /** After appends in place both handles are on one buffer with all the types; only the appender's size has moved. */
  lemma SharersAfterAppends(s: Heap, n: Name, ts: seq<Byte>, m: Name)
    requires Valid(s) && HoldsDescriptor(s, n) && FrameCount(Bytes(s, n)) + |ts| <= 127 && ts != []
    requires Fits(Bytes(s, n), |ts|) && Shares(s, n, m) && m != n
    ensures var r, c := AppendAll(s, n, ts), FrameCount(Bytes(s, n));
      && HoldsDescriptor(r, n) && Types(Bytes(r, n)) == Types(Bytes(s, n)) + ts && FrameCount(Bytes(r, n)) == c + |ts|
      && Shares(r, n, m) && c + |ts| + 2 <= r.handles[n].size <= |Bytes(r, n)|
      && r.handles[m].size == s.handles[m].size && 0 < r.handles[m].size <= |Bytes(r, n)|
  {
    var r := AppendAll(s, n, ts);
    AppendAllAddsTypes(s, n, ts);
    AppendAllSizes(s, n, ts);
    TypesCount(Bytes(s, n));
    TypesCount(Bytes(r, n));
    SharedIsLive(s, n, m);
    HandleIsOk(r, n);
    HandleIsOk(r, m);
    hide Valid, AppendAll, Types, IsDescriptor, FrameCount;
  }

  lemma AppendedViews(b: seq<Byte>, types: seq<Byte>, ts: seq<Byte>, own: nat, other: nat, i: nat)
    requires IsDescriptor(b) && Types(b) == types + ts && i < |ts| && ts[i] != 0
    requires |types| + |ts| + 2 <= own <= |b| && 0 < other <= |b|
    ensures FrameCount(b) == |types| + |ts|
    ensures IsDescriptor(b[..own]) && Types(b[..own]) == types + ts
    ensures Wire.At(b[..other], |types| + i + 2) == ts[i] <==> other > |types| + i + 2
    ensures IsDescriptor(b[..other]) <==> other > |types| + |ts| + 1
    ensures Wire.FrameSize(b[..other]) + 1 <= |b[..other]| <==> other > |types| + |ts|
  {
    TypesCount(b);
    assert (types + ts)[|types| + i] == ts[i];
    hide IsDescriptor, Types, FrameCount, Wire.At, Wire.FrameSize;
    ViewOfDescriptor(b, own, |types| + i);
    ViewOfDescriptor(b, other, |types| + i);
  }

  /**
    The handle that appends sees all its types. A handle that shares the buffer keeps its own size: it reads the `i`-th
    appended type exactly when its size exceeds that place; what it sends is a descriptor exactly when its size exceeds the
    place of the last one; and a receiver that only compares the count with the size is content with one type less.
   */
  lemma SharerReadsIff(s: Heap, n: Name, ts: seq<Byte>, m: Name, i: nat)
    requires Valid(s) && HoldsDescriptor(s, n) && FrameCount(Bytes(s, n)) + |ts| <= 127
    requires Fits(Bytes(s, n), |ts|) && Shares(s, n, m) && m != n && i < |ts| && ts[i] != 0
    ensures var r, c := AppendAll(s, n, ts), FrameCount(Bytes(s, n));
      && n in r.handles && r.handles[n].buffer in r.buffers && r.handles[n].size <= |Bytes(r, n)|
      && IsDescriptor(View(r, n)) && Types(View(r, n)) == Types(Bytes(s, n)) + ts
      && m in r.handles && r.handles[m].buffer in r.buffers && r.handles[m].size <= |Bytes(r, m)|
      && (Wire.At(View(r, m), c + i + 2) == ts[i] <==> s.handles[m].size > c + i + 2)
      && (IsDescriptor(View(r, m)) <==> s.handles[m].size > c + |ts| + 1)
      && (Wire.FrameSize(View(r, m)) + 1 <= |View(r, m)| <==> s.handles[m].size > c + |ts|)
  {
    hide Valid, AppendAll, IsDescriptor, Types, FrameCount, Wire.At, Wire.FrameSize;
    var r := AppendAll(s, n, ts);
    SharersAfterAppends(s, n, ts, m);
    TypesCount(Bytes(s, n));
    AppendedViews(Bytes(r, n), Types(Bytes(s, n)), ts, r.handles[n].size, r.handles[m].size, i);
  }

  lemma SharedIsLive(s: Heap, n: Name, m: Name)
    requires HoldsDescriptor(s, n) && Shares(s, n, m) && Valid(s)
    ensures s.handles[m] != EMPTY
  {
    CountNotZero(s, n);
  }

  // ---------- Runs ----------

  datatype Op =
    | Construct(n: Name)
    | ConstructCopy(n: Name, m: Name)
    | SetBytes(n: Name, data: seq<Byte>, junk: seq<Byte>)
    | SetHandle(n: Name, m: Name)
    | Binding(n: Name, raw: seq<Byte>)
    | SwapWith(n: Name, m: Name)
    | Allocate(n: Name, types: seq<Byte>, state: Byte, spare: nat)
    | Append(n: Name, t: Byte)
    | AppendFirst(n: Name, t: Byte)
    | Drop(n: Name)

  /**
    The program constructs before it uses and does not construct twice; it binds no empty buffer; and it appends
    only to empty handles and to descriptors, to a shared one only while there is room.
   */
  predicate Allowed(s: Heap, op: Op) {
    match op
    case Construct(n) => n !in s.handles
    case ConstructCopy(n, m) => n !in s.handles && m in s.handles
    case SetBytes(n, _, _) => n in s.handles
    case SetHandle(n, m) => n in s.handles && m in s.handles
    case Binding(n, raw) => n in s.handles && raw != []
    case SwapWith(n, m) => n in s.handles && m in s.handles
    case Allocate(n, _, _, _) => n in s.handles
    case Append(n, _) => HoldsDescriptor(s, n) && AppendSafe(s, n, 1)
    case AppendFirst(n, _) => n in s.handles && s.handles[n] == EMPTY
    case Drop(n) => n in s.handles
  }

  ghost predicate Sound(s: Heap) {
    Valid(s) && s.next > 0
  }

  lemma AllHandlesOk(s: Heap)
    requires Valid(s)
    ensures forall n | n in s.handles :: HandleOk(s, s.handles[n])
  {
  }

  function Constructed(s: Heap, n: Name): Heap {
    s.(handles := s.handles[n := EMPTY])
  }

  /** The operation reads and writes live memory only. */
  predicate Safe(s: Heap, op: Op)
    requires Allowed(s, op)
  {
    match op
    case Construct(_) => true
    case ConstructCopy(_, m) => HandleOk(s, s.handles[m])
    case SetHandle(n, m) => HandleOk(s, s.handles[n]) && HandleOk(Free(s, n), Free(s, n).handles[m])
    case SwapWith(_, _) => true
    case Append(_, _) => true
    case AppendFirst(_, _) => true
    case SetBytes(n, _, _) => HandleOk(s, s.handles[n])
    case Binding(n, _) => HandleOk(s, s.handles[n])
    case Allocate(n, _, _, _) => HandleOk(s, s.handles[n])
    case Drop(n) => HandleOk(s, s.handles[n])
  }

  function Apply(s: Heap, op: Op): Heap
    requires Allowed(s, op) && Safe(s, op)
  {
    match op
    case Construct(n) => Constructed(s, n)
    case ConstructCopy(n, m) => CopyConstruct(s, n, m)
    case SetBytes(n, data, junk) => AssignBytes(s, n, data, junk)
    case SetHandle(n, m) => Assign(s, n, m)
    case Binding(n, raw) => Bind(s, n, raw)
    case SwapWith(n, m) => Swap(s, n, m)
    case Allocate(n, types, state, spare) => AllocFrame(s, n, types, state, spare)
    case Append(n, t) => AppendFrame(s, n, t)
    case AppendFirst(n, t) => AppendToEmpty(s, n, t)
    case Drop(n) => Destroy(s, n)
  }

  lemma ConstructKeepsValid(s: Heap, n: Name)
    requires Valid(s) && n !in s.handles
    ensures Valid(Constructed(s, n))
  {
    ConstructPaired(s, n);
    ConstructCounted(s, n);
    ConstructNoLeaks(s, n);
    ConstructNoDangling(s, n);
    hide NoDangling, Paired, Counted, NoLeaks;
  }

  lemma ConstructNoDangling(s: Heap, n: Name)
    requires NoDangling(s) && n !in s.handles
    ensures NoDangling(Constructed(s, n))
  {
    forall m | m in s.handles
      ensures HandleOk(Constructed(s, n), s.handles[m])
    {
      assert HandleOk(s, s.handles[m]);
    }
  }

  lemma ConstructPaired(s: Heap, n: Name)
    requires Valid(s) && n !in s.handles
    ensures Paired(Constructed(s, n))
  {
    hide Users;
    if k :| k in s.handles && k != n && s.handles[k] == EMPTY {
    } else {
      assert forall m | m in s.handles && m != n :: s.handles[m].count != 0 && s.handles[m].buffer != 0;
    }
    PairedAfterChange(s, Constructed(s, n), n, EMPTY);
  }

  lemma ConstructCounted(s: Heap, n: Name)
    requires Counted(s) && n !in s.handles
    ensures Counted(Constructed(s, n))
  {
    forall c | c in s.counts
      ensures Users(Constructed(s, n), c) == Users(s, c)
    {
    }
  }

  lemma ConstructNoLeaks(s: Heap, n: Name)
    requires NoLeaks(s) && n !in s.handles
    ensures NoLeaks(Constructed(s, n))
  {
    var r := Constructed(s, n);
    forall b | b in s.buffers
      ensures exists k :: k in r.handles && r.handles[k].buffer == b
    {
      var k :| k in s.handles && s.handles[k].buffer == b;
      assert r.handles[k].buffer == b;
    }
  }

  lemma CopyKeepsSound(s: Heap, n: Name, m: Name)
    requires Sound(s) && n !in s.handles && m in s.handles
    ensures HandleOk(s, s.handles[m]) && Sound(CopyConstruct(s, n, m))
  {
    AllHandlesOk(s);
    hide NoDangling, Paired, Counted, NoLeaks;
    if s.handles[m] == EMPTY {
      ConstructKeepsValid(s, n);
    } else {
      CountNotZero(s, m);
      ShareKeepsValid(s, n, m);
    }
  }

  lemma FreshBlockKeepsSound(s: Heap, n: Name, bytes: seq<Byte>, size: nat)
    requires Sound(s) && n in s.handles && 0 < size <= |bytes|
    ensures HandleOk(s, s.handles[n]) && Sound(NewBlock(Free(s, n), n, bytes, size))
  {
    AllHandlesOk(s);
    hide NoDangling, Paired, Counted, NoLeaks;
    FreeKeepsValid(s, n);
    NewBlockKeepsValid(Free(s, n), n, bytes, size);
  }

  lemma AssignBytesKeepsSound(s: Heap, n: Name, data: seq<Byte>, junk: seq<Byte>)
    requires Sound(s) && n in s.handles
    ensures HandleOk(s, s.handles[n]) && Sound(AssignBytes(s, n, data, junk))
  {
    AllHandlesOk(s);
    FreeKeepsValid(s, n);
    if data != [] {
      FreshBlockKeepsSound(s, n, Copied(data, junk), |data|);
    }
    hide Valid, NewBlock;
  }

  lemma AssignKeepsSound(s: Heap, n: Name, m: Name)
    requires Sound(s) && n in s.handles && m in s.handles
    ensures HandleOk(s, s.handles[n]) && HandleOk(Free(s, n), Free(s, n).handles[m])
    ensures Sound(Assign(s, n, m))
  {
    AllHandlesOk(s);
    AssignKeepsValid(s, n, m);
    hide Valid;
  }

  lemma AppendKeepsSound(s: Heap, n: Name, t: Byte)
    requires Sound(s) && HoldsDescriptor(s, n) && AppendSafe(s, n, 1)
    ensures Sound(AppendFrame(s, n, t))
  {
    AppendKeepsValid(s, n, t);
    hide Valid, WithType;
  }

  lemma AppendFirstKeepsSound(s: Heap, n: Name, t: Byte)
    requires Sound(s) && n in s.handles && s.handles[n] == EMPTY
    ensures Sound(AppendToEmpty(s, n, t))
  {
    EmptyGetsDescriptor(s, n);
    FreshBlockKeepsSound(s, n, DescriptorBytes(Zeros(10), Wire.STATE_NONE, 0), 12);
    AppendKeepsSound(AllocFrame(s, n, Zeros(10), Wire.STATE_NONE, 0), n, t);
    hide Sound, AppendFrame, HoldsDescriptor;
  }

  lemma DestroyKeepsSound(s: Heap, n: Name)
    requires Sound(s) && n in s.handles
    ensures HandleOk(s, s.handles[n]) && Sound(Destroy(s, n))
  {
    AllHandlesOk(s);
    DestroyKeepsValid(s, n);
    hide Valid;
  }

  lemma SwapKeepsSound(s: Heap, n: Name, m: Name)
    requires Sound(s) && n in s.handles && m in s.handles
    ensures Sound(Swap(s, n, m))
  {
    SwapKeepsValid(s, n, m);
    hide Valid;
  }

  lemma ConstructKeepsSound(s: Heap, n: Name)
    requires Sound(s) && n !in s.handles
    ensures Sound(Constructed(s, n))
  {
    ConstructKeepsValid(s, n);
    hide Valid;
  }

  lemma SoundIsSafe(s: Heap, op: Op)
    requires Sound(s) && Allowed(s, op)
    ensures Safe(s, op)
  {
    AllHandlesOk(s);
    hide Sound, HoldsDescriptor, AppendSafe, HandleOk, Free;
    if op.SetHandle? {
      AssignKeepsSound(s, op.n, op.m);
    }
  }

  lemma ApplyKeepsSound(s: Heap, op: Op)
    requires Sound(s) && Allowed(s, op)
    ensures Safe(s, op) && Sound(Apply(s, op))
  {
    hide Sound, Safe, HoldsDescriptor, AppendSafe, HandleOk, CopyConstruct, AssignBytes, Assign, NewBlock, Free, Swap,
      AppendFrame, AppendToEmpty, Destroy, Constructed, DescriptorBytes;
    SoundIsSafe(s, op);
    match op
    case Construct(n) => ConstructKeepsSound(s, n);
    case ConstructCopy(n, m) => CopyKeepsSound(s, n, m);
    case SetBytes(n, data, junk) => AssignBytesKeepsSound(s, n, data, junk);
    case SetHandle(n, m) => AssignKeepsSound(s, n, m);
    case Binding(n, raw) => FreshBlockKeepsSound(s, n, raw, |raw|);
    case SwapWith(n, m) => SwapKeepsSound(s, n, m);
    case Allocate(n, types, state, spare) =>
      DescriptorLength(types, state, spare);
      FreshBlockKeepsSound(s, n, DescriptorBytes(types, state, spare), |types| + 2 + spare);
    case Append(n, t) => AppendKeepsSound(s, n, t);
    case AppendFirst(n, t) => AppendFirstKeepsSound(s, n, t);
    case Drop(n) => DestroyKeepsSound(s, n);
  }

  lemma DescriptorLength(types: seq<Byte>, state: Byte, spare: nat)
    ensures |DescriptorBytes(types, state, spare)| == |types| + 10 + spare
  {
  }

  // ---------- What handles read ----------

  /** Handle `k` is in one heap what `j` is in another, and reads the same bytes. */
  predicate SameViewAs(s: Heap, j: Name, r: Heap, k: Name) {
    && j in s.handles && k in r.handles && r.handles[k] == s.handles[j]
    && (s.handles[j] != EMPTY ==>
          s.handles[j].buffer in s.buffers && s.handles[j].buffer in r.buffers && Bytes(r, k) == Bytes(s, j))
  }

  /** Handle `k` reads the same bytes in both heaps. */
  predicate SameView(s: Heap, r: Heap, k: Name) {
    SameViewAs(s, k, r, k)
  }

  lemma FreeSameView(s: Heap, n: Name, k: Name)
    requires Valid(s) && n in s.handles && k in s.handles && k != n
    ensures HandleOk(s, s.handles[n]) && SameView(s, Free(s, n), k)
  {
    hide NoDangling, Paired, Counted, NoLeaks;
    HandleIsOk(s, n);
    HandleIsOk(s, k);
    FreeKeepsValid(s, n);
    HandleIsOk(Free(s, n), k);
  }

  lemma NewBlockSameView(s: Heap, n: Name, bytes: seq<Byte>, size: nat, k: Name)
    requires Sound(s) && k in s.handles && k != n
    ensures SameView(s, NewBlock(s, n, bytes, size), k)
  {
    hide Paired, Counted, NoLeaks;
    HandleIsOk(s, k);
    RefsBelowNext(s);
    hide NoDangling;
  }

  lemma FreshBlockSameView(s: Heap, n: Name, bytes: seq<Byte>, size: nat, k: Name)
    requires Sound(s) && n in s.handles && k in s.handles && k != n
    ensures HandleOk(s, s.handles[n]) && SameView(s, NewBlock(Free(s, n), n, bytes, size), k)
  {
    FreeSameView(s, n, k);
    FreeKeepsValid(s, n);
    NewBlockSameView(Free(s, n), n, bytes, size, k);
    hide Valid, NewBlock;
  }

  lemma AppendSameView(s: Heap, n: Name, t: Byte, k: Name)
    requires Sound(s) && HoldsDescriptor(s, n) && k in s.handles && k != n && !Shares(s, n, k)
    ensures SameView(s, AppendFrame(s, n, t), k)
  {
    hide Paired, Counted, NoLeaks, WithType, Put, IsDescriptor, FrameCount;
    HandleIsOk(s, k);
    RefsBelowNext(s);
    hide NoDangling;
  }

  lemma AppendFirstSameView(s: Heap, n: Name, t: Byte, k: Name)
    requires Sound(s) && n in s.handles && s.handles[n] == EMPTY && k in s.handles && k != n
    ensures SameView(s, AppendToEmpty(s, n, t), k)
  {
    EmptyGetsDescriptor(s, n);
    var r := AllocFrame(s, n, Zeros(10), Wire.STATE_NONE, 0);
    DescriptorLength(Zeros(10), Wire.STATE_NONE, 0);
    FreshBlockKeepsSound(s, n, DescriptorBytes(Zeros(10), Wire.STATE_NONE, 0), 12);
    FreshBlockSameView(s, n, DescriptorBytes(Zeros(10), Wire.STATE_NONE, 0), 12, k);
    FreshBlockAlone(s, n, DescriptorBytes(Zeros(10), Wire.STATE_NONE, 0), 12, k);
    AppendSameView(r, n, t, k);
    hide Sound, HoldsDescriptor, AppendFrame, HandleOk, NewBlock, Free, DescriptorBytes, Shares;
  }

  lemma FreshBlockAlone(s: Heap, n: Name, bytes: seq<Byte>, size: nat, k: Name)
    requires Sound(s) && n in s.handles && k in s.handles && k != n
    ensures HandleOk(s, s.handles[n]) && !Shares(NewBlock(Free(s, n), n, bytes, size), n, k)
  {
    hide Paired, Counted, NoLeaks;
    HandleIsOk(s, n);
    RefsBelowNext(s);
    hide NoDangling;
  }

  lemma AssignViews(s: Heap, n: Name, m: Name, k: Name)
    requires Sound(s) && n in s.handles && m in s.handles && k in s.handles && k != n
    ensures HandleOk(s, s.handles[n]) && HandleOk(Free(s, n), Free(s, n).handles[m])
    ensures SameView(s, Assign(s, n, m), k)
    ensures n != m ==> Assign(s, n, m).handles[n] == s.handles[m]
  {
    AssignKeepsValid(s, n, m);
    FreeSameView(s, n, k);
    FreeKeepsValid(s, n);
    if m != n {
      FreeSameView(s, n, m);
    }
    hide Valid;
  }

  lemma DestroySameView(s: Heap, n: Name, k: Name)
    requires Sound(s) && n in s.handles && k in s.handles && k != n
    ensures HandleOk(s, s.handles[n]) && SameView(s, Destroy(s, n), k)
  {
    FreeSameView(s, n, k);
    hide Valid;
  }

  lemma CopySameView(s: Heap, n: Name, m: Name, k: Name)
    requires Sound(s) && n !in s.handles && m in s.handles && k in s.handles
    ensures HandleOk(s, s.handles[m]) && SameView(s, CopyConstruct(s, n, m), k)
    ensures CopyConstruct(s, n, m).handles[n] == s.handles[m]
  {
    HandleIsOk(s, m);
    HandleIsOk(s, k);
    hide Valid;
  }

  /** Whose bytes handle `k` reads after an operation that leaves its block alone: its own, or its partner's after a swap. */
  function Before(op: Op, k: Name): Name {
    if op.SwapWith? && k == op.n then op.m else if op.SwapWith? && k == op.m then op.n else k
  }

  /**
    Copies behave as values: no operation changes what a handle reads, unless it gives the handle another block or appends in
    place to its buffer; and swapping exchanges what two handles read.
   */
  lemma OthersUntouched(s: Heap, op: Op, k: Name)
    requires Sound(s) && Allowed(s, op) && k in s.handles && (k == op.n ==> op.SwapWith?)
    requires op.Append? ==> !Shares(s, op.n, k)
    ensures Safe(s, op) && SameViewAs(s, Before(op, k), Apply(s, op), k)
  {
    hide Sound, Safe, HoldsDescriptor, AppendSafe, HandleOk, CopyConstruct, AssignBytes, Assign, NewBlock, Free, Swap,
      AppendFrame, AppendToEmpty, Destroy, Constructed, DescriptorBytes, SameViewAs, Shares;
    SoundIsSafe(s, op);
    match op
    case Construct(n) => ConstructSameView(s, n, k);
    case ConstructCopy(n, m) => CopySameView(s, n, m, k);
    case SetBytes(n, data, junk) => AssignBytesViews(s, n, data, junk, k);
    case SetHandle(n, m) => AssignViews(s, n, m, k);
    case Binding(n, raw) => FreshBlockSameView(s, n, raw, |raw|, k);
    case SwapWith(n, m) => SwapSameView(s, n, m, k);
    case Allocate(n, types, state, spare) =>
      FreshBlockSameView(s, n, DescriptorBytes(types, state, spare), |types| + 2 + spare, k);
    case Append(n, t) => AppendSameView(s, n, t, k);
    case AppendFirst(n, t) => AppendFirstSameView(s, n, t, k);
    case Drop(n) => DestroySameView(s, n, k);
  }

  lemma ConstructSameView(s: Heap, n: Name, k: Name)
    requires Sound(s) && n !in s.handles && k in s.handles
    ensures SameView(s, Constructed(s, n), k)
  {
    HandleIsOk(s, k);
    hide Valid;
  }

  lemma SwapSameView(s: Heap, n: Name, m: Name, k: Name)
    requires Sound(s) && n in s.handles && m in s.handles && k in s.handles
    ensures SameViewAs(s, Before(SwapWith(n, m), k), Swap(s, n, m), k)
  {
    HandleIsOk(s, k);
    HandleIsOk(s, n);
    HandleIsOk(s, m);
    hide Valid;
  }

  /** Swapping again undoes a swap. */
  lemma SwapUndoes(s: Heap, n: Name, m: Name)
    requires n in s.handles && m in s.handles
    ensures Swap(Swap(s, n, m), n, m) == s
  {
    assert Swap(Swap(s, n, m), n, m).handles == s.handles;
  }

  lemma AssignBytesViews(s: Heap, n: Name, data: seq<Byte>, junk: seq<Byte>, k: Name)
    requires Sound(s) && n in s.handles && k in s.handles && k != n
    ensures HandleOk(s, s.handles[n]) && SameView(s, AssignBytes(s, n, data, junk), k)
  {
    FreeSameView(s, n, k);
    FreshBlockSameView(s, n, Copied(data, junk), |data|, k);
    hide Valid, NewBlock, Free, HandleOk, SameView;
  }

  lemma NewBlockTarget(s: Heap, n: Name, bytes: seq<Byte>, size: nat)
    requires Sound(s) && n in s.handles
    ensures HandleOk(s, s.handles[n])
    ensures var r := NewBlock(Free(s, n), n, bytes, size);
      n in r.handles && r.handles[n].buffer in r.buffers && Bytes(r, n) == bytes && r.handles[n].size == size
      && r.handles[n].count in r.counts && r.handles[n] != EMPTY
  {
    HandleIsOk(s, n);
    hide Valid;
  }

  /** An assigned handle reads the assigned bytes, with four zeros behind them and four bytes of unknown value. */
  lemma AssignedBytesRead(s: Heap, n: Name, data: seq<Byte>, junk: seq<Byte>)
    requires Sound(s) && n in s.handles
    ensures HandleOk(s, s.handles[n])
    ensures var r := AssignBytes(s, n, data, junk);
      && (data == [] <==> r.handles[n] == EMPTY)
      && (data != [] ==> r.handles[n].size <= |Bytes(r, n)| && View(r, n) == data && Bytes(r, n) == data + Zeros(4) + junk)
  {
    NewBlockTarget(s, n, Copied(data, junk), |data|);
    FreeKeepsValid(s, n);
    hide Valid, NewBlock, Free, HandleOk;
    assert Zeros(4) == [0, 0, 0, 0];
    assert Copied(data, junk)[..|data|] == data;
  }

  /** A handle that took over memory reads that memory, and no other handle is on it. */
  lemma BoundBytesRead(s: Heap, n: Name, raw: seq<Byte>)
    requires Sound(s) && n in s.handles
    ensures HandleOk(s, s.handles[n])
    ensures var r := Bind(s, n, raw);
      Bytes(r, n) == raw && r.handles[n].size == |raw| && forall m | m in r.handles && m != n :: !Shares(r, n, m)
  {
    NewBlockTarget(s, n, raw, |raw|);
    forall m | m in Bind(s, n, raw).handles && m != n
      ensures !Shares(Bind(s, n, raw), n, m)
    {
      assert m in s.handles;
      FreshBlockAlone(s, n, raw, |raw|, m);
    }
    hide Sound, HandleOk, NewBlock;
  }

  /** A new descriptor of up to 127 frames reads its types and its state, and what is sent of it is whole, with the spare places. */
  lemma AllocatedTypesRead(s: Heap, n: Name, types: seq<Byte>, state: Byte, spare: nat)
    requires Sound(s) && n in s.handles && |types| <= 127
    ensures HandleOk(s, s.handles[n])
    ensures var r := AllocFrame(s, n, types, state, spare);
      && HoldsDescriptor(r, n) && Types(Bytes(r, n)) == types && Bytes(r, n)[1] == state
      && r.handles[n].size <= |Bytes(r, n)| && View(r, n) == [|types|, state] + types + Zeros(spare)
      && IsDescriptor(View(r, n)) && Types(View(r, n)) == types && |Bytes(r, n)| == |View(r, n)| + 8
  {
    NewBlockTarget(s, n, DescriptorBytes(types, state, spare), |types| + 2 + spare);
    DescriptorBytesIff(types, state, spare);
    DescriptorView(types, state, spare);
    hide Valid, NewBlock, Free, HandleOk, DescriptorBytes, IsDescriptor, Types;
  }

  lemma DescriptorView(types: seq<Byte>, state: Byte, spare: nat)
    requires |types| <= 127
    ensures var b := DescriptorBytes(types, state, spare); var v := [|types|, state] + types + Zeros(spare);
      |b| == |v| + 8 && b[..|v|] == v && IsDescriptor(v) && Types(v) == types
  {
  }

  /** The bytes behind the handle that appends, and how many of them it covers. */
  lemma AppendedSize(s: Heap, n: Name, t: Byte)
    requires HoldsDescriptor(s, n)
    ensures var r, c, size := AppendFrame(s, n, t), FrameCount(Bytes(s, n)), s.handles[n].size;
      && n in r.handles && r.handles[n].size == (if !Fits(Bytes(s, n), 1) then c + 6 else if size < c + 3 then c + 3 else size)
      && r.handles[n].buffer in r.buffers && Bytes(r, n) == Appended(Bytes(s, n), t)
      && |Bytes(r, n)| == if Fits(Bytes(s, n), 1) then |Bytes(s, n)| else c + 10
  {
    AppendFrameBytes(s, n, t);
    hide WithType, Put, Appended, AsByte;
    AppendedLength(Bytes(s, n), t);
  }

  lemma AppendedLength(bytes: seq<Byte>, t: Byte)
    requires IsDescriptor(bytes)
    ensures |Appended(bytes, t)| == if Fits(bytes, 1) then |bytes| else FrameCount(bytes) + 10
  {
  }

  lemma CutKeepsTypes(b: seq<Byte>, size: nat)
    requires size <= |b| && IsDescriptor(b) && FrameCount(b) + 2 <= size
    ensures IsDescriptor(b[..size]) && Types(b[..size]) == Types(b) && b[..size][1] == b[1]
  {
    assert b[2..2 + FrameCount(b)] == b[..size][2..2 + FrameCount(b)];
  }

  /** What is sent of a descriptor after an append has the new type behind the old ones, in place or moved. */
  lemma AppendedView(s: Heap, n: Name, t: Byte)
    requires Sound(s) && HoldsDescriptor(s, n) && FrameCount(Bytes(s, n)) < 127
    ensures var r := AppendFrame(s, n, t);
      && n in r.handles && r.handles[n].buffer in r.buffers && r.handles[n].size <= |Bytes(r, n)|
      && IsDescriptor(View(r, n)) && Types(View(r, n)) == Types(Bytes(s, n)) + [t] && View(r, n)[1] == Bytes(s, n)[1]
  {
    HandleIsOk(s, n);
    AppendedSize(s, n, t);
    AppendedTypes(Bytes(s, n), t);
    var r := AppendFrame(s, n, t);
    CutKeepsTypes(Bytes(r, n), r.handles[n].size);
    hide *;
  }

  /** An empty handle that appends first becomes a descriptor of ten blank frames; the new type is the eleventh. */
  lemma AppendedToEmpty(s: Heap, n: Name, t: Byte)
    requires Sound(s) && n in s.handles && s.handles[n] == EMPTY
    ensures var r := AppendToEmpty(s, n, t);
      && n in r.handles && r.handles[n].buffer in r.buffers && r.handles[n].size <= |Bytes(r, n)|
      && View(r, n) == [11, Wire.STATE_NONE] + Zeros(10) + [t]
  {
    EmptyGetsDescriptor(s, n);
    AllocatedTypesRead(s, n, Zeros(10), Wire.STATE_NONE, 0);
    var a := AllocFrame(s, n, Zeros(10), Wire.STATE_NONE, 0);
    AppendedSize(a, n, t);
    hide Sound, AllocFrame, AppendFrame, HandleOk;
    var b := Bytes(a, n);
    assert b[..12] == [10, Wire.STATE_NONE] + Zeros(10) + Zeros(0);
    EleventhType(b, t);
  }

  lemma EleventhType(b: seq<Byte>, t: Byte)
    requires IsDescriptor(b) && |b| == 20 && b[..12] == [10, Wire.STATE_NONE] + Zeros(10) + Zeros(0)
    ensures Appended(b, t)[..13] == [11, Wire.STATE_NONE] + Zeros(10) + [t]
  {
    var v := [10, Wire.STATE_NONE] + Zeros(10) + Zeros(0);
    assert b[0] == v[0] && forall i | 0 <= i < 12 :: b[i] == v[i];
  }

  /** `None` when the program does something that is not allowed. */
  ghost function Run(s: Heap, ops: seq<Op>): Option<Heap>
    requires Sound(s)
    decreases |ops|
  {
    if ops == [] then Some(s)
    else if !Allowed(s, ops[0]) then None
    else ApplyKeepsSound(s, ops[0]); Run(Apply(s, ops[0]), ops[1..])
  }

  /** Over every program, reference counting is exact; when the last handle is gone, nothing is allocated. */
  lemma {:induction false} RunKeepsValid(s: Heap, ops: seq<Op>)
    requires Sound(s) && Run(s, ops).Some?
    ensures Valid(Run(s, ops).value)
    ensures Run(s, ops).value.handles == map[] ==> Run(s, ops).value.counts == map[] && Run(s, ops).value.buffers == map[]
    decreases |ops|
  {
    hide Allowed, Apply, Valid;
    if ops != [] {
      ApplyKeepsSound(s, ops[0]);
      RunKeepsValid(Apply(s, ops[0]), ops[1..]);
    } else {
      NothingLeft(s);
    }
  }

  /**
    What `plan_end` does: it appends through a copy of a received descriptor and then sends the list. The frame in the list
    counts the new type but is too short to hold it; a receiver that compares count and size still takes it.
   */
  lemma CopyLagsBehind(s: Heap, n: Name, m: Name, t: Byte)
    requires Sound(s) && HoldsDescriptor(s, n) && m !in s.handles && t != 0
    requires FrameCount(Bytes(s, n)) < 127 && Fits(Bytes(s, n), 1) && s.handles[n].size == FrameCount(Bytes(s, n)) + 2
    ensures HandleOk(s, s.handles[n])
    ensures var copied := CopyConstruct(s, m, n); HoldsDescriptor(copied, m)
    ensures var r, c := AppendFrame(CopyConstruct(s, m, n), m, t), FrameCount(Bytes(s, n));
      && n in r.handles && r.handles[n].buffer in r.buffers && r.handles[n].size <= |Bytes(r, n)|
      && FrameCount(Bytes(r, n)) == c + 1 && Wire.At(View(r, n), c + 2) == 0
      && !IsDescriptor(View(r, n)) && Wire.FrameSize(View(r, n)) + 1 <= |View(r, n)|
  {
    CopyKeepsSound(s, m, n);
    CountNotZero(s, n);
    var copied := CopyConstruct(s, m, n);
    assert Bytes(copied, m) == Bytes(s, n) && Shares(copied, m, n) && copied.handles[m] == s.handles[n] == copied.handles[n];
    hide Valid, IsDescriptor, Types, FrameCount, Wire.At, Wire.FrameSize, CopyConstruct, AppendFrame;
    SharersAfterAppends(copied, m, [t], n);
    OneAppend(copied, m, t);
    SharerReadsIff(copied, m, [t], n, 0);
    TypesCount(Bytes(s, n));
    BehindTheEnd(View(AppendFrame(copied, m, t), n), FrameCount(Bytes(s, n)) + 2);
  }

  lemma OneAppend(s: Heap, n: Name, t: Byte)
    requires Valid(s) && HoldsDescriptor(s, n) && FrameCount(Bytes(s, n)) < 127 && AppendSafe(s, n, 1)
    ensures AppendAll(s, n, [t]) == AppendFrame(s, n, t)
  {
    hide Valid, AppendFrame, IsDescriptor, FrameCount;
    AppendStep(s, n, t, 1);
    assert [t][1..] == [];
  }

  lemma BehindTheEnd(bytes: seq<Byte>, i: nat)
    requires |bytes| <= i
    ensures Wire.At(bytes, i) == 0
  {
  }

  /** The same from scratch: a received publication of one frame, and a content type appended through a copy. */
  lemma LaggingRun(junk: seq<Byte>)
    requires |junk| == 4
    ensures var r := Run(START, [Construct(1), SetBytes(1, [1, 1, Wire.TITLE], junk), ConstructCopy(2, 1), Append(2, Wire.CONTENT)]);
      && r.Some? && 1 in r.value.handles && 2 in r.value.handles
      && r.value.handles[1].buffer in r.value.buffers && r.value.handles[2].buffer in r.value.buffers
      && r.value.handles[1].size <= |Bytes(r.value, 1)| && r.value.handles[2].size <= |Bytes(r.value, 2)|
      && View(r.value, 1) == [2, 1, Wire.TITLE] && View(r.value, 2) == [2, 1, Wire.TITLE, Wire.CONTENT]
  {
    var ops := [Construct(1), SetBytes(1, [1, 1, Wire.TITLE], junk), ConstructCopy(2, 1), Append(2, Wire.CONTENT)];
    var data := Copied([1, 1, Wire.TITLE], junk);
    var h := Heap(map[1 := Handle(1, 2, 3), 2 := Handle(1, 2, 3)], map[1 := 2], map[2 := data], 3);
    StartOfLaggingRun(ops, data, junk);
    LastOfLaggingRun(h, data, junk);
    hide Sound, Allowed, Apply;
    RunOne(h, [Append(2, Wire.CONTENT)]);
  }

  lemma StartOfLaggingRun(ops: seq<Op>, data: seq<Byte>, junk: seq<Byte>)
    requires data == Copied([1, 1, Wire.TITLE], junk) && |ops| >= 3
    requires ops[0] == Construct(1) && ops[1] == SetBytes(1, [1, 1, Wire.TITLE], junk) && ops[2] == ConstructCopy(2, 1)
    ensures var h := Heap(map[1 := Handle(1, 2, 3), 2 := Handle(1, 2, 3)], map[1 := 2], map[2 := data], 3);
      Sound(h) && Run(START, ops) == Run(h, ops[3..])
  {
    hide Sound, Run;
    var h1 := Heap(map[1 := EMPTY], map[], map[], 1);
    var h2 := Heap(map[1 := Handle(1, 2, 3)], map[1 := 1], map[2 := data], 3);
    var h3 := Heap(map[1 := Handle(1, 2, 3), 2 := Handle(1, 2, 3)], map[1 := 2], map[2 := data], 3);
    StartIsSound();
    RunOne(START, ops);
    assert Apply(START, ops[0]) == h1;
    RunOne(h1, ops[1..]);
    assert Apply(h1, ops[1]) == h2;
    RunOne(h2, ops[2..]);
    assert Apply(h2, ops[2]) == h3;
  }

  lemma RunOne(s: Heap, ops: seq<Op>)
    requires Sound(s) && ops != [] && Allowed(s, ops[0])
    ensures Safe(s, ops[0]) && Sound(Apply(s, ops[0])) && Run(s, ops) == Run(Apply(s, ops[0]), ops[1..])
    ensures Run(s, []) == Some(s)
  {
    hide Sound, Allowed, Apply;
    ApplyKeepsSound(s, ops[0]);
  }

  lemma LastOfLaggingRun(s: Heap, data: seq<Byte>, junk: seq<Byte>)
    requires Sound(s) && data == Copied([1, 1, Wire.TITLE], junk) && |junk| == 4
    requires s == Heap(map[1 := Handle(1, 2, 3), 2 := Handle(1, 2, 3)], map[1 := 2], map[2 := data], 3)
    ensures Allowed(s, Append(2, Wire.CONTENT)) && Safe(s, Append(2, Wire.CONTENT))
    ensures var r := Apply(s, Append(2, Wire.CONTENT));
      && r.handles == map[1 := Handle(1, 2, 3), 2 := Handle(1, 2, 4)] && 2 in r.buffers
      && 4 <= |r.buffers[2]| && r.buffers[2][..4] == [2, 1, Wire.TITLE, Wire.CONTENT]
  {
    hide Sound;
  }

  lemma NothingLeft(s: Heap)
    requires Valid(s)
    ensures s.handles == map[] ==> s.counts == map[] && s.buffers == map[]
  {
    if s.handles == map[] {
      assert forall c :: Users(s, c) == {};
      assert s.counts.Keys == {} && s.buffers.Keys == {};
    }
  }

  lemma StartIsSound()
    ensures Sound(START)
  {
  }

  /** Over every program from its start: counts are exact, nothing dangles, and with the last handle the last memory is gone. */
  lemma ProgramsKeepValid(ops: seq<Op>)
    requires Run(START, ops).Some?
    ensures Valid(Run(START, ops).value)
    ensures Run(START, ops).value.handles == map[] ==> Run(START, ops).value.counts == map[] && Run(START, ops).value.buffers == map[]
  {
    StartIsSound();
    RunKeepsValid(START, ops);
  }

  // ---------- The code ----------

  /** Handles over an explicit heap, so that `delete` is a step and a use of freed memory can be told. */
  class FrameHeap {
    var handles: map<Name, Handle>
    var counts: map<Ref, int>
    var buffers: map<Ref, seq<Byte>>
    var next: Ref

    constructor ()
      ensures Value() == START
    {
      handles, counts, buffers, next := map[], map[], map[], 1;
    }

    function Value(): Heap
      reads this
    {
      Heap(handles, counts, buffers, next)
    }

    method FreeHandle(n: Name)
      requires n in handles && HandleOk(Value(), handles[n])
      modifies this
      ensures Value() == Free(old(Value()), n)
    {
      var h := handles[n];
      if h.count == 0 || h.size == 0 {
        return;
      }
      var cnt := counts[h.count] - 1;
      counts := counts[h.count := cnt];
      if cnt == 0 {
        counts := counts - {h.count};
        buffers := buffers - {h.buffer};
        assert counts == old(counts) - {h.count};
      }
      handles := handles[n := EMPTY];
    }

    method CopyHandle(n: Name, m: Name)
      requires m in handles && HandleOk(Value(), handles[m])
      modifies this
      ensures Value() == CopyConstruct(old(Value()), n, m)
    {
      var h := handles[m];
      handles := handles[n := h];
      if h.count != 0 {
        counts := counts[h.count := counts[h.count] + 1];
      }
    }

    method AssignHandle(n: Name, m: Name)
      requires n in handles && HandleOk(Value(), handles[n])
      requires m in handles && HandleOk(Free(Value(), n), Free(Value(), n).handles[m])
      modifies this
      ensures Value() == Assign(old(Value()), n, m)
    {
      FreeHandle(n);
      if handles[m].buffer != 0 {
        var h := handles[m];
        handles := handles[n := h];
        counts := counts[h.count := counts[h.count] + 1];
      }
    }

    method NewHandle(n: Name, bytes: seq<Byte>, size: nat)
      modifies this
      ensures Value() == NewBlock(old(Value()), n, bytes, size)
    {
      counts := counts[next := 1];
      buffers := buffers[next + 1 := bytes];
      handles := handles[n := Handle(next, next + 1, size)];
      next := next + 2;
    }

    method AssignMessage(n: Name, data: seq<Byte>, junk: seq<Byte>)
      requires n in handles && HandleOk(Value(), handles[n])
      modifies this
      ensures Value() == AssignBytes(old(Value()), n, data, junk)
    {
      FreeHandle(n);
      if |data| == 0 {
        return;
      }
      NewHandle(n, data + [0, 0, 0, 0] + junk, |data|);
    }

    method Binding(n: Name, raw: seq<Byte>)
      requires n in handles && HandleOk(Value(), handles[n])
      modifies this
      ensures Value() == Bind(old(Value()), n, raw)
    {
      FreeHandle(n);
      NewHandle(n, raw, |raw|);
    }

    method SwapHandles(n: Name, m: Name)
      requires n in handles && m in handles
      modifies this
      ensures Value() == Swap(old(Value()), n, m)
    {
      var tmp := handles[n];
      handles := handles[n := handles[m]];
      handles := handles[m := tmp];
    }

    method DestroyHandle(n: Name)
      requires n in handles && HandleOk(Value(), handles[n])
      modifies this
      ensures Value() == Destroy(old(Value()), n)
    {
      FreeHandle(n);
      handles := handles - {n};
    }

    method SetFrameType(n: Name, index: nat, t: Byte)
      requires n in handles && handles[n].buffer in buffers
      modifies this
      ensures Value() == SetType(old(Value()), n, index, t)
    {
      var at := index + 2;
      var h := handles[n];
      var allocSize := |buffers[h.buffer]|;
      if allocSize > at {
        if at >= h.size {
          h := h.(size := at + 1);
        }
      } else {
        var freed := h.buffer;
        h := h.(buffer := next);
        buffers := (buffers - {freed})[next := buffers[freed] + Zeros(at + 8 - allocSize)];
        next := next + 1;
        h := h.(size := at + 4);
      }
      handles := handles[n := h];
      buffers := buffers[h.buffer := Put(buffers[h.buffer], at, t)];
    }

    method AppendFrameTo(n: Name, t: Byte)
      requires n in handles && (handles[n] == EMPTY || HoldsDescriptor(Value(), n))
      modifies this
      ensures old(handles[n]) == EMPTY ==> Value() == AppendToEmpty(old(Value()), n, t)
      ensures old(handles[n]) != EMPTY ==> Value() == AppendFrame(old(Value()), n, t)
    {
      if handles[n].size == 0 {
        EmptyGetsDescriptor(Value(), n);
        AllocFrameFor(n, Zeros(10), Wire.STATE_NONE, 0);
      }
      var c := FrameCount(buffers[handles[n].buffer]);
      SetFrameType(n, c, t);
      var buffer := handles[n].buffer;
      buffers := buffers[buffer := Put(buffers[buffer], 0, AsByte(c + 1))];
    }

    method AllocFrameFor(n: Name, types: seq<Byte>, state: Byte, spare: nat)
      requires n in handles && HandleOk(Value(), handles[n])
      modifies this
      ensures Value() == AllocFrame(old(Value()), n, types, state, spare)
    {
      FreeHandle(n);
      NewHandle(n, [AsByte(|types|), state] + types + Zeros(spare + 8), |types| + 2 + spare);
    }
  }
}
