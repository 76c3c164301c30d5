/** SyncBatchQueue.cs: producers push into one of two bags while the consumer takes the other. */
module BatchQueue {
  import opened Common

  /** `index` is 0 until the first load or switch; the bag in use is line2 for 2 and line1 otherwise. */
  datatype Queue<T> = Queue(line1: multiset<T>, line2: multiset<T>, index: nat)

  /** What was handed out, or nothing, and the queue left behind. */
  datatype Switched<T> = Switched(queue: Queue<T>, out: Option<multiset<T>>)

  function Now<T>(q: Queue<T>): multiset<T> {
    if q.index == 2 then q.line2 else q.line1
  }

  function Pending<T>(q: Queue<T>): multiset<T> {
    q.line1 + q.line2
  }

  function Pushed<T>(q: Queue<T>, t: T): Queue<T> {
    if q.index == 2 then q.(line2 := q.line2 + multiset{t}) else q.(line1 := q.line1 + multiset{t})
  }

  /** `Switch`: the line that is emptied is chosen by the new index, not by the line that was read. */
  function Switch<T>(q: Queue<T>): Switched<T> {
    var taken := Now(q);
    var r := q.(index := if q.index == 1 then 2 else 1);
    if |taken| == 0 then Switched(r, None)
    else Switched(if r.index == 1 then r.(line2 := multiset{}) else r.(line1 := multiset{}), Some(taken))
  }

  function Handed<T>(s: Switched<T>): multiset<T> {
    if s.out.Some? then s.out.value else multiset{}
  }

  datatype File<T> = Missing | Broken | Nothing | Saved(items: seq<T>)

  function Load<T>(q: Queue<T>, file: File<T>): Queue<T> {
    match file
    case Missing => q.(index := 1)
    case Saved(items) => q.(index := 2, line1 := q.line1 + multiset(items))
    case _ => q.(index := 2)
  }

  // ---------- The code ----------

  class Bag<T(==)> {
    var items: seq<T>

    constructor ()
      ensures items == []
    {
      items := [];
    }

    method Add(t: T)
      modifies this
      ensures multiset(items) == old(multiset(items)) + multiset{t}
    {
      items := items + [t];
    }

    method AddAll(l: seq<T>)
      modifies this
      ensures multiset(items) == old(multiset(items)) + multiset(l)
    {
      var i := 0;
      while i < |l|
        invariant 0 <= i <= |l| && multiset(items) == old(multiset(items)) + multiset(l[..i])
      {
        assert l[..i + 1] == l[..i] + [l[i]];
        Add(l[i]);
        i := i + 1;
      }
      assert l[..i] == l;
    }

    /** The order is the bag's own business. */
    method ToList() returns (l: seq<T>)
      ensures multiset(l) == multiset(items)
    {
      l := items;
    }
  }

  class SyncBatchQueue<T(==)> {
    var line1: Bag<T>
    var line2: Bag<T>
    var index: nat
    var now: Bag<T>

    /** `now` always aliases the line named by `index`. */
    ghost predicate Valid()
      reads this
    {
      line1 != line2 && index <= 2 && now == if index == 2 then line2 else line1
    }

    ghost function Value(): Queue<T>
      reads this, line1, line2
    {
      Queue(multiset(line1.items), multiset(line2.items), index)
    }

    constructor ()
      ensures Valid() && fresh(line1) && fresh(line2) && Value() == Queue(multiset{}, multiset{}, 0)
    {
      line1 := new Bag();
      line2 := new Bag();
      index := 0;
      now := line1;
    }

    method Push(t: T)
      requires Valid()
      modifies line1, line2
      ensures Valid() && Value() == Pushed(old(Value()), t)
    {
      now.Add(t);
    }

    method SwitchLines() returns (r: Option<seq<T>>)
      requires Valid()
      modifies this
      ensures Valid() && fresh({line1, line2} - {old(line1), old(line2)})
      ensures Value() == Switch(old(Value())).queue
      ensures r.Some? <==> Switch(old(Value())).out.Some?
      ensures r.Some? ==> multiset(r.value) == Switch(old(Value())).out.value
    {
      var before := now;
      if index == 1 {
        index := 2;
        now := line2;
      } else {
        index := 1;
        now := line1;
      }
      if |before.items| == 0 {
        return None;
      }
      var list := before.ToList();
      if index == 1 {
        line2 := new Bag();
      } else {
        line1 := new Bag();
      }
      r := Some(list);
    }

    /** The list that goes to the file. */
    method Save() returns (data: seq<T>)
      requires Valid()
      ensures multiset(data) == Pending(Value())
    {
      var a := line1.ToList();
      var b := line2.ToList();
      data := a + b;
    }

    method LoadFile(file: File<T>) returns (ok: bool)
      requires Valid()
      modifies this, line1
      ensures Valid() && index != 0 && line1 == old(line1) && line2 == old(line2)
      ensures Value() == Load(old(Value()), file)
    {
      if file.Missing? {
        index := 1;
        now := line1;
        return false;
      }
      index := 2;
      now := line2;
      if file.Broken? {
        return false;
      }
      if file.Saved? {
        line1.AddAll(file.items);
      }
      ok := true;
    }
  }

  // ---------- Conservation ----------

  datatype Op<T> = Push(t: T) | Take

  /** What was handed out over a run, and the queue at its end. */
  datatype Outcome<T> = Outcome(queue: Queue<T>, handed: multiset<T>)

  function Run<T>(q: Queue<T>, ops: seq<Op<T>>): Outcome<T>
    decreases |ops|
  {
    if ops == [] then Outcome(q, multiset{})
    else if ops[0].Push? then Run(Pushed(q, ops[0].t), ops[1..])
    else
      var s := Switch(q);
      var r := Run(s.queue, ops[1..]);
      r.(handed := Handed(s) + r.handed)
  }

  function AllPushed<T>(ops: seq<Op<T>>): multiset<T>
    decreases |ops|
  {
    if ops == [] then multiset{}
    else (if ops[0].Push? then multiset{ops[0].t} else multiset{}) + AllPushed(ops[1..])
  }

  /** One switch loses and doubles nothing exactly when the queue was loaded, or the bag was empty, or both bags were alike. */
  lemma SwitchConservesIff<T>(q: Queue<T>)
    ensures Pending(Switch(q).queue) + Handed(Switch(q)) == Pending(q)
       <==> (q.index == 1 || q.index == 2 || q.line1 == multiset{} || q.line1 == q.line2)
  {
    var s := Switch(q);
    if q.index != 1 && q.index != 2 && |q.line1| != 0 {
      assert Pending(s.queue) + Handed(s) == q.line1 + q.line1;
      Cancel(q.line1, q.line2);
    }
  }

  lemma Cancel<T>(a: multiset<T>, b: multiset<T>)
    ensures a + a == a + b <==> a == b
  {
    if a + a == a + b {
      forall x
        ensures a[x] == b[x]
      {
        assert (a + a)[x] == a[x] + a[x] && (a + b)[x] == a[x] + b[x];
      }
    }
  }

  /** Used before it is loaded, the queue hands the same item out twice. */
  lemma UnloadedSwitchDoubles()
    ensures var q := Pushed(Queue(multiset{}, multiset{}, 0), 7);
      var s := Switch(q);
      Handed(s) == multiset{7} && Handed(Switch(s.queue)) == multiset{7}
  {
    var q := Pushed(Queue(multiset{}, multiset{}, 0), 7);
    assert q == Queue(multiset{7}, multiset{}, 0);
    assert |multiset{7}| == 1;
    var s := Switch(q);
    assert s == Switched(Queue(multiset{7}, multiset{}, 1), Some(multiset{7}));
  }

  /**
    Over every sequence of pushes and switches after a load: what was there plus what was pushed is what was handed out
    plus what is still pending, so that saving then writes exactly the undelivered items.
   */
  lemma {:induction false} RunConserves<T>(q: Queue<T>, ops: seq<Op<T>>)
    requires q.index == 1 || q.index == 2
    ensures var r := Run(q, ops);
      Pending(q) + AllPushed(ops) == r.handed + Pending(r.queue) && (r.queue.index == 1 || r.queue.index == 2)
    decreases |ops|
  {
    if ops == [] {
    } else if ops[0].Push? {
      RunConserves(Pushed(q, ops[0].t), ops[1..]);
      assert Pending(Pushed(q, ops[0].t)) == Pending(q) + multiset{ops[0].t};
    } else {
      SwitchConservesIff(q);
      var s := Switch(q);
      RunConserves(s.queue, ops[1..]);
      Regroup(Pending(s.queue), Handed(s), AllPushed(ops[1..]));
      var r := Run(s.queue, ops[1..]);
      hide Pending, Switch, Handed;
      assert AllPushed(ops) == AllPushed(ops[1..]);
      Regroup(Handed(s), r.handed, Pending(r.queue));
      assert Run(q, ops) == Outcome(r.queue, Handed(s) + r.handed);
    }
  }

  /** What the first switch of a run finds in line1. */
  function FirstTaken<T>(q: Queue<T>, ops: seq<Op<T>>): multiset<T>
    decreases |ops|
  {
    if ops == [] then multiset{}
    else if ops[0].Push? then FirstTaken(Pushed(q, ops[0].t), ops[1..])
    else q.line1
  }

  /** Over a run from a queue that was never loaded, exactly what the first switch finds is handed out once too often. */
  lemma {:induction false} UnloadedRunDoubles<T>(q: Queue<T>, ops: seq<Op<T>>)
    requires q.index == 0 && q.line2 == multiset{}
    ensures var r := Run(q, ops); r.handed + Pending(r.queue) == Pending(q) + AllPushed(ops) + FirstTaken(q, ops)
    decreases |ops|
  {
    if ops == [] {
    } else if ops[0].Push? {
      UnloadedRunDoubles(Pushed(q, ops[0].t), ops[1..]);
      assert Pending(Pushed(q, ops[0].t)) == Pending(q) + multiset{ops[0].t};
    } else {
      var s := Switch(q);
      var r := Run(s.queue, ops[1..]);
      RunConserves(s.queue, ops[1..]);
      assert s.queue.index == 1 && Pending(s.queue) == q.line1 == Pending(q) && Handed(s) == q.line1;
      hide Pending, Switch, Handed;
      assert AllPushed(ops) == AllPushed(ops[1..]) && Run(q, ops) == Outcome(r.queue, q.line1 + r.handed);
    }
  }

  lemma {:induction false} FirstTakenEmptyIff<T>(q: Queue<T>, ops: seq<Op<T>>)
    requires q.index == 0
    ensures FirstTaken(q, ops) == multiset{} <==> (forall op | op in ops :: op.Push?) || (q.line1 == multiset{} && ops[0].Take?)
    decreases |ops|
  {
    if ops != [] && ops[0].Push? {
      FirstTakenEmptyIff(Pushed(q, ops[0].t), ops[1..]);
      assert Pushed(q, ops[0].t).line1[ops[0].t] > 0;
    }
  }

  /**
    A run from a queue that was never loaded loses and doubles nothing exactly when it does not switch at all, or switches
    first of all, with nothing in line1.
   */
  lemma UnloadedConservesIff<T>(q: Queue<T>, ops: seq<Op<T>>)
    requires q.index == 0 && q.line2 == multiset{}
    ensures var r := Run(q, ops);
      r.handed + Pending(r.queue) == Pending(q) + AllPushed(ops)
      <==> (forall op | op in ops :: op.Push?) || (q.line1 == multiset{} && ops[0].Take?)
  {
    UnloadedRunDoubles(q, ops);
    FirstTakenEmptyIff(q, ops);
    hide Run, Pending, AllPushed, FirstTaken;
    NothingAdded(Pending(q) + AllPushed(ops), FirstTaken(q, ops));
  }

  lemma NothingAdded<T>(a: multiset<T>, b: multiset<T>)
    ensures a + b == a <==> b == multiset{}
  {
    if a + b == a {
      forall x
        ensures b[x] == 0
      {
        assert (a + b)[x] == a[x] + b[x];
      }
    }
  }

  lemma Regroup<T>(a: multiset<T>, b: multiset<T>, c: multiset<T>)
    ensures (a + b) + c == b + (a + c) && (a + b) + c == a + (b + c)
  {
  }

  // ---------- What each switch hands out ----------

  /** The bag that is not in use. */
  function Other<T>(q: Queue<T>): multiset<T> {
    if q.index == 2 then q.line1 else q.line2
  }

  /** A switch hands out the bag in use and empties it, and brings the other one into use as it is. */
  lemma SwitchExchanges<T>(q: Queue<T>)
    requires q.index == 1 || q.index == 2
    ensures var s := Switch(q);
      && Handed(s) == (if q.index == 2 then q.line2 else q.line1)
      && Now(s.queue) == (if q.index == 2 then q.line1 else q.line2) && Other(s.queue) == multiset{}
  {
    assert |Now(q)| == 0 ==> Now(q) == multiset{};
  }

  /** The next switch hands out what is pushed before it; what was handed out otherwise, and the other bag, are not touched. */
  lemma PushIsNext<T>(q: Queue<T>, t: T)
    requires q.index == 1 || q.index == 2
    ensures Handed(Switch(Pushed(q, t))) == Handed(Switch(q)) + multiset{t}
    ensures Other(Pushed(q, t)) == Other(q) && Pushed(q, t).index == q.index
  {
    SwitchExchanges(q);
    SwitchExchanges(Pushed(q, t));
  }

  /** What each switch of a run hands out. */
  function Outputs<T>(q: Queue<T>, ops: seq<Op<T>>): seq<multiset<T>>
    decreases |ops|
  {
    if ops == [] then []
    else if ops[0].Push? then Outputs(Pushed(q, ops[0].t), ops[1..])
    else [Handed(Switch(q))] + Outputs(Switch(q).queue, ops[1..])
  }

  /** What is pushed before the first switch, between one switch and the next, and after the last. */
  function Sections<T>(ops: seq<Op<T>>): (r: seq<multiset<T>>)
    ensures |r| > 0
    decreases |ops|
  {
    if ops == [] then [multiset{}]
    else
      var rest := Sections(ops[1..]);
      if ops[0].Push? then [multiset{ops[0].t} + rest[0]] + rest[1..] else [multiset{}] + rest
  }

  /** Each output is its section; the first has `first` besides, and the second `second`. */
  ghost predicate Delivers<T>(out: seq<multiset<T>>, pushed: seq<multiset<T>>, first: multiset<T>, second: multiset<T>) {
    && |out| + 1 == |pushed|
    && forall j | 0 <= j < |out| :: out[j] == pushed[j] + (if j == 0 then first else if j == 1 then second else multiset{})
  }

  lemma DeliversPush<T>(out: seq<multiset<T>>, pushed: seq<multiset<T>>, t: T, first: multiset<T>, second: multiset<T>)
    requires pushed != [] && Delivers(out, pushed, first + multiset{t}, second)
    ensures Delivers(out, [multiset{t} + pushed[0]] + pushed[1..], first, second)
  {
    assert pushed[0] + (first + multiset{t}) == (multiset{t} + pushed[0]) + first;
  }

  lemma DeliversTake<T>(out: seq<multiset<T>>, pushed: seq<multiset<T>>, first: multiset<T>, second: multiset<T>)
    requires Delivers(out, pushed, second, multiset{})
    ensures Delivers([first] + out, [multiset{}] + pushed, first, second)
  {
    assert multiset{} + first == first;
  }

  /**
    Over every run of a loaded queue, each switch hands out exactly what was pushed since the switch before; besides, the
    first one hands out what was in use at the start, and the second what lay in the other bag.
   */
  lemma {:induction false} EachSwitchDelivers<T>(q: Queue<T>, ops: seq<Op<T>>)
    requires q.index == 1 || q.index == 2
    ensures Delivers(Outputs(q, ops), Sections(ops), Now(q), Other(q))
    decreases |ops|
  {
    if ops == [] {
    } else if ops[0].Push? {
      var p := Pushed(q, ops[0].t);
      PushIsNext(q, ops[0].t);
      assert Now(p) == Now(q) + multiset{ops[0].t};
      hide Switch, Handed, Other, Now, Delivers, Pushed;
      EachSwitchDelivers(p, ops[1..]);
      DeliversPush(Outputs(p, ops[1..]), Sections(ops[1..]), ops[0].t, Now(q), Other(q));
    } else {
      SwitchExchanges(q);
      var r := Switch(q).queue;
      assert (r.index == 1 || r.index == 2) && Handed(Switch(q)) == Now(q) && Now(r) == Other(q);
      hide Switch, Handed, Other, Now, Delivers;
      EachSwitchDelivers(r, ops[1..]);
      DeliversTake(Outputs(r, ops[1..]), Sections(ops[1..]), Now(q), Other(q));
    }
  }

  /**
    What a load decides: without a file the first switch hands out line1 besides what is pushed; with one, sound or not,
    line2, and the second what the file held and what lay in line1 before.
   */
  lemma LoadDelivers<T>(q: Queue<T>, file: File<T>, ops: seq<Op<T>>)
    ensures var saved := if file.Saved? then multiset(file.items) else multiset{};
      if file.Missing? then Delivers(Outputs(Load(q, file), ops), Sections(ops), q.line1, q.line2)
      else Delivers(Outputs(Load(q, file), ops), Sections(ops), q.line2, q.line1 + saved)
  {
    var r := Load(q, file);
    assert q.line1 + multiset{} == q.line1;
    assert Now(r) == (if file.Missing? then q.line1 else q.line2);
    EachSwitchDelivers(r, ops);
    hide Outputs, Sections, Delivers;
  }

  /** Two switches in a row deliver everything. */
  lemma TwoSwitchesDeliver<T>(q: Queue<T>)
    requires q.index == 1 || q.index == 2
    ensures var s := Switch(q); var t := Switch(s.queue);
      Handed(s) + Handed(t) == Pending(q) && Pending(t.queue) == multiset{}
  {
  }

  /** What a run leaves behind and saves is what the next process starts with, and a broken or missing file loses nothing that is there. */
  lemma SaveLoadRoundTrip<T>(q: Queue<T>, data: seq<T>, file: File<T>)
    requires multiset(data) == Pending(q)
    ensures var r := Load(Queue(multiset{}, multiset{}, 0), Saved(data)); Pending(r) == Pending(q) && r.index == 2
    ensures !file.Saved? ==> Pending(Load(q, file)) == Pending(q) && Load(q, file).index in {1, 2}
  {
  }
}
