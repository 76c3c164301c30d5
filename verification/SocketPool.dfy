/** StationSocketPool.cs: sockets to one station are handed out, given back, and closed when the pool is disposed. */
module SocketPool {

  class ZSocket {
    /** `SocketPtr` is not zero. */
    var open: bool
    var isUsing: bool
    /** `IsDisposed`; closing a socket does not set it. */
    var disposed: bool
    /** `LastError` is not null. */
    var failed: bool

    constructor ()
      ensures open && !isUsing && !disposed && !failed
    {
      open, isUsing, disposed, failed := true, false, false, false;
    }

    method TryClose()
      modifies `open
      ensures !open
    {
      open := false;
    }
  }

  const LIMIT := 100

  /** Ghost: `created` is every socket the pool ever made, `held` those that callers have not given back yet. */
  class StationSocketPool {
    var sockets: seq<ZSocket>
    var pools: seq<ZSocket?>
    var isDisposed: bool
    ghost var held: set<ZSocket>
    ghost var created: set<ZSocket>

    /** A queue entry is null, or an idle socket that can be handed out. */
    ghost predicate Idle(s: ZSocket?)
      reads this, s
    {
      s != null ==> s in created && s !in held && s.open && !s.disposed && !s.isUsing
    }

    ghost predicate QueueOk()
      reads this, created, set i | 0 <= i < |pools| :: pools[i]
    {
      && |pools| <= LIMIT
      && (forall i | 0 <= i < |pools| :: Idle(pools[i]))
      && (forall i, j | 0 <= i < j < |pools| && pools[i] != null :: pools[i] != pools[j])
      && (isDisposed ==> forall i | 0 <= i < |pools| :: pools[i] == null)
    }

    /** Nothing the pool made is open and forgotten. */
    ghost predicate NoneLost()
      reads this, created
    {
      forall s | s in created && s.open :: s in held || s in pools
    }

    ghost predicate Valid()
      reads this, created, set i | 0 <= i < |pools| :: pools[i]
    {
      && held <= created
      && (forall s | s in sockets :: s in created)
      && (forall s | s in held :: s.isUsing)
      && QueueOk() && NoneLost()
    }

    constructor ()
      ensures Valid() && held == {} && created == {} && !isDisposed && pools == []
    {
      sockets, pools, isDisposed, held, created := [], [], false, {}, {};
    }

    /** One turn of the loop: the entry taken off the queue is handed out when it is an idle socket. */
    method TryDequeue() returns (s: ZSocket?)
      requires Valid() && pools != []
      modifies this`pools, this`held, created
      ensures Valid() && s == old(pools)[0] && pools == old(pools)[1..]
      ensures held == old(held) + (if s == null then {} else {s})
      ensures s != null ==> s in created && s !in old(held) && s.open && s.isUsing && !s.disposed
      ensures forall t | t in created && t != s :: unchanged(t)
    {
      s := pools[0];
      assert Idle(s);
      pools := pools[1..];
      if s != null && !s.disposed {
        s.isUsing := true;
        held := held + {s};
      }
    }

    /** Take entries off the queue up to the first idle socket. */
    method TakeIdle() returns (r: ZSocket?)
      requires Valid()
      modifies this`pools, this`held, created
      ensures Valid()
      ensures r == null <==> forall i | 0 <= i < |old(pools)| :: old(pools)[i] == null
      ensures r == null ==> held == old(held) && pools == []
      ensures r != null ==> FirstIdle(old(pools), r, pools)
      ensures r != null ==> r in created && r !in old(held) && held == old(held) + {r} && r.open && r.isUsing && !r.disposed
      ensures forall s | s in created && s != r :: unchanged(s)
    {
      hide QueueOk, NoneLost;
      assert pools == old(pools)[0..];
      while pools != []
        invariant unchanged(created) && held == old(held) && Valid()
        invariant Dropped(old(pools), pools)
        decreases |pools|
      {
        DropOne(old(pools), pools);
        ghost var i := |old(pools)| - |pools|;
        r := TryDequeue();
        if r != null {
          assert pools == old(pools)[i + 1..];
          return;
        }
      }
      r := null;
    }

    /**
      An open socket that nobody holds: the first one of the queue, and a new one only when the queue has none; null only
      when disposed or when none can be made.
     */
    method GetSocket(canCreate: bool) returns (r: ZSocket?)
      requires Valid()
      modifies this`pools, this`held, this`sockets, this`created, created
      ensures Valid()
      ensures r == null ==> held == old(held) && created == old(created)
      ensures r == null <==> isDisposed || (!canCreate && forall i | 0 <= i < |old(pools)| :: old(pools)[i] == null)
      ensures r != null ==> r !in old(held) && held == old(held) + {r} && r.open && r.isUsing && !r.disposed
      ensures r != null ==>
                if exists i :: 0 <= i < |old(pools)| && old(pools)[i] != null
                then FirstIdle(old(pools), r, pools) && created == old(created) && sockets == old(sockets)
                else fresh(r) && pools == [] && created == old(created) + {r} && sockets == old(sockets) + [r]
      ensures forall s | s in old(created) && s != r :: unchanged(s)
    {
      if isDisposed {
        return null;
      }
      r := TakeIdle();
      if r != null || !canCreate {
        return;
      }
      var s := new ZSocket();
      s.isUsing := true;
      sockets := sockets + [s];
      created := created + {s};
      held := held + {s};
      r := s;
    }

    /** The closing part of `Close(ref socket)`; the caller's reference becomes null. */
    method CloseSocket(s: ZSocket)
      modifies this`sockets, s`open
      ensures !s.open && sockets == if isDisposed then old(sockets) else WithoutFirst(old(sockets), s)
      ensures forall t | t in sockets :: t in old(sockets)
    {
      if !isDisposed {
        RemoveFirst(s);
      }
      s.TryClose();
    }

    /** `List.Remove` */
    method RemoveFirst(s: ZSocket)
      modifies this`sockets
      ensures forall t | t in sockets :: t in old(sockets)
      ensures sockets == WithoutFirst(old(sockets), s)
    {
      var k := 0;
      while k < |sockets| && sockets[k] != s
        invariant 0 <= k <= |sockets| && s !in sockets[..k]
      {
        k := k + 1;
      }
      WithoutFirstIs(sockets, s, k);
      if k < |sockets| {
        sockets := sockets[..k] + sockets[k + 1..];
      }
    }

    /**
      A holder gives a socket back: it is queued when the pool is alive, the socket is sound and there is room,
      and closed otherwise. A socket that was closed for being unsound still takes up a null entry.
     */
    method Free(socket: ZSocket?)
      requires Valid() && (socket != null ==> socket in held && (socket.open || socket.disposed || socket.failed))
      modifies this, socket
      ensures Valid() && isDisposed == old(isDisposed) && created == old(created)
      ensures held == old(held) - (if socket == null then {} else {socket})
      ensures socket == null ==> pools == old(pools)
      ensures socket != null ==> !socket.isUsing && socket.disposed == old(socket.disposed) && socket.failed == old(socket.failed)
      ensures sockets == (if socket == null || socket.open || isDisposed then old(sockets) else WithoutFirst(old(sockets), socket))
      ensures socket != null && (isDisposed || old(socket.disposed) || old(socket.failed)) ==>
                !socket.open && pools == if |old(pools)| > 99 then old(pools) else old(pools) + [null]
      ensures socket != null && !isDisposed && !old(socket.disposed) && !old(socket.failed) ==>
                if |old(pools)| > 99 then !socket.open && pools == old(pools) else socket.open && pools == old(pools) + [socket]
    {
      if socket == null {
        return;
      }
      socket.isUsing := false;
      held := held - {socket};
      var ref: ZSocket? := socket;
      if isDisposed || socket.disposed || socket.failed {
        CloseSocket(socket);
        ref := null;
      }
      if |pools| > 99 {
        if ref != null {
          CloseSocket(ref);
        }
      } else {
        pools := pools + [ref];
      }
    }

    /** A holder gives a socket up. */
    method Close(socket: ZSocket?)
      requires Valid() && (socket != null ==> socket in held)
      modifies this, socket
      ensures Valid() && isDisposed == old(isDisposed) && created == old(created) && pools == old(pools)
      ensures held == old(held) - (if socket == null then {} else {socket})
      ensures socket != null ==> !socket.open && socket.isUsing
      ensures sockets == (if socket == null || isDisposed then old(sockets) else WithoutFirst(old(sockets), socket))
    {
      if socket == null {
        return;
      }
      held := held - {socket};
      CloseSocket(socket);
    }

    /** Everything queued or idle is closed, and the list is emptied; what callers hold is left alone. */
    method DoDispose()
      requires Valid()
      modifies this`pools, this`sockets, created
      ensures Valid() && pools == [] && sockets == []
      ensures forall s | s in created :: s.open ==> s in held
      ensures forall s | s in held :: unchanged(s)
    {
      while pools != []
        invariant Valid() && unchanged(held)
        decreases |pools|
      {
        var s := pools[0];
        assert Idle(s);
        pools := pools[1..];
        if s != null {
          s.TryClose();
        }
      }
      var all := sockets;
      var i := 0;
      while i < |all|
        invariant 0 <= i <= |all| && pools == [] && sockets == all && Valid() && unchanged(held)
      {
        assert all[i] in created;
        if !all[i].isUsing {
          all[i].TryClose();
        }
        i := i + 1;
      }
      sockets := [];
    }

    /** Afterwards every open socket the pool made is in a caller's hands. */
    method Dispose()
      requires Valid()
      modifies this`pools, this`sockets, this`isDisposed, created
      ensures Valid() && isDisposed
      ensures !old(isDisposed) ==> pools == []
      ensures forall s | s in created :: s.open ==> s in held
      ensures forall s | s in held :: unchanged(s)
    {
      if isDisposed {
        forall s | s in created && s.open
          ensures s in held
        {
        }
        return;
      }
      DoDispose();
      isDisposed := true;
    }

    method Resume()
      requires Valid()
      modifies this`pools, this`sockets, this`isDisposed, created
      ensures Valid() && !isDisposed
      ensures old(isDisposed) ==> pools == []
      ensures forall s | s in held :: unchanged(s)
    {
      if !isDisposed {
        return;
      }
      DoDispose();
      isDisposed := false;
    }
  }

  /** The socket was the first entry that is not null, and what is left lay behind it. */
  ghost predicate FirstIdle(before: seq<ZSocket?>, s: ZSocket?, after: seq<ZSocket?>) {
    exists i :: 0 <= i < |before| && before[i] == s && s != null && after == before[i + 1..] && forall j | 0 <= j < i :: before[j] == null
  }

  datatype Request = Get(canCreate: bool) | GiveBack(i: nat) | GiveUp(i: nat) | Breaks(i: nat) | Resuming | Disposing

  function Without(l: seq<ZSocket>, i: nat): seq<ZSocket>
    requires i < |l|
  {
    l[..i] + l[i + 1..]
  }

  /** The callers hold these sockets, each once, and all of them open. */
  ghost predicate InHand(pool: StationSocketPool, mine: seq<ZSocket>)
    reads pool, mine
  {
    && (forall i, j | 0 <= i < j < |mine| :: mine[i] != mine[j])
    && (forall i | 0 <= i < |mine| :: mine[i] in pool.held && mine[i].open && !mine[i].disposed)
    && (forall s | s in pool.held :: s in mine)
  }

  lemma WithoutOne(l: seq<ZSocket>, i: nat)
    requires i < |l| && forall j, k | 0 <= j < k < |l| :: l[j] != l[k]
    ensures var r := Without(l, i);
      && (forall j, k | 0 <= j < k < |r| :: r[j] != r[k])
      && (forall s :: s in r <==> s in l && s != l[i])
  {
    var r := Without(l, i);
    forall s | s in l && s != l[i]
      ensures s in r
    {
      var j :| 0 <= j < |l| && l[j] == s;
      assert r[if j < i then j else j - 1] == s;
    }
  }

  method Serve(pool: StationSocketPool, request: Request, mine: seq<ZSocket>) returns (r: seq<ZSocket>)
    requires pool.Valid() && InHand(pool, mine) && pool.held <= pool.created
    modifies pool, pool.created
    ensures pool.Valid() && InHand(pool, r) && fresh(pool.created - old(pool.created))
  {
    hide pool.QueueOk, pool.NoneLost;
    r := mine;
    match request {
      case Get(canCreate) =>
        var s := pool.GetSocket(canCreate);
        if s != null {
          r := mine + [s];
        }
      case GiveBack(i) =>
        if i < |mine| {
          WithoutOne(mine, i);
          r := Without(mine, i);
          pool.Free(mine[i]);
        }
      case GiveUp(i) =>
        if i < |mine| {
          WithoutOne(mine, i);
          r := Without(mine, i);
          pool.Close(mine[i]);
        }
      case Breaks(i) =>
        if i < |mine| {
          Fail(pool, mine[i]);
        }
      case Resuming =>
        pool.Resume();
      case Disposing =>
        pool.Dispose();
    }
  }

  /** A socket reports an error while a caller holds it. */
  method Fail(pool: StationSocketPool, s: ZSocket)
    requires pool.Valid() && s in pool.held
    modifies s`failed
    ensures pool.Valid()
  {
    s.failed := true;
  }

  /**
    Callers that return each socket once, in any order, after errors or not, with disposals and resumptions in between:
    no socket is ever in two hands, every socket in a hand is open, the queue keeps its limit, and once the pool is
    disposed everything else it made is closed.
   */
  method Session(pool: StationSocketPool, requests: seq<Request>) returns (mine: seq<ZSocket>)
    requires pool.Valid() && pool.held == {}
    modifies pool, pool.created
    ensures pool.Valid() && InHand(pool, mine) && |pool.pools| <= LIMIT
    ensures pool.isDisposed ==> forall s | s in pool.created && s.open :: s in mine
  {
    mine := [];
    var k := 0;
    while k < |requests|
      invariant 0 <= k <= |requests| && pool.Valid() && InHand(pool, mine) && fresh(pool.created - old(pool.created))
    {
      mine := Serve(pool, requests[k], mine);
      k := k + 1;
    }
  }

  /** What is left after some null entries were taken off the front. */
  ghost predicate Dropped(before: seq<ZSocket?>, after: seq<ZSocket?>) {
    |after| <= |before| && after == before[|before| - |after|..] && forall i | 0 <= i < |before| - |after| :: before[i] == null
  }

  lemma DropOne(before: seq<ZSocket?>, after: seq<ZSocket?>)
    requires Dropped(before, after) && after != []
    ensures after[0] == before[|before| - |after|] && (after[0] == null ==> Dropped(before, after[1..]))
  {
  }

  /** `List.Remove` takes out the first occurrence, if there is one. */
  function WithoutFirst(l: seq<ZSocket>, s: ZSocket): seq<ZSocket>
    decreases |l|
  {
    if l == [] then [] else if l[0] == s then l[1..] else [l[0]] + WithoutFirst(l[1..], s)
  }

  lemma {:induction false} WithoutFirstIs(l: seq<ZSocket>, s: ZSocket, k: nat)
    requires k <= |l| && s !in l[..k] && (k < |l| ==> l[k] == s)
    ensures WithoutFirst(l, s) == (if k < |l| then l[..k] + l[k + 1..] else l)
    decreases |l|
  {
    if l != [] && k > 0 {
      assert l[0] in l[..k] && l[1..][..k - 1] == l[..k][1..];
      WithoutFirstIs(l[1..], s, k - 1);
    }
  }
}
