/** The global ids of station_warehouse.h: a reboot number in the low 12 bits, a wrapping counter in the other 52. */
module GlobalId {

  const WORD := 0x1_0000_0000_0000_0000

  const LOW := 0x1000

  const MAX_REBOOT := 0xFFF

  /** 2^52 - 1 */
  const MAX_COUNT := 0xF_FFFF_FFFF_FFFF

  // ---------- Bit patterns as numbers ----------

  /** Bitwise or, bit by bit from the lowest. */
  function Or(a: nat, b: nat): nat
    decreases a
  {
    if a == 0 then b
    else 2 * Or(a / 2, b / 2) + (if a % 2 == 1 || b % 2 == 1 then 1 else 0)
  }

  function Pow2(k: nat): (r: nat)
    ensures r >= 1
  {
    if k == 0 then 1 else 2 * Pow2(k - 1)
  }

  predicate Bit(x: nat, k: nat)
    decreases k
  {
    if k == 0 then x % 2 == 1 else Bit(x / 2, k - 1)
  }

  lemma OrHalves(a: nat, b: nat)
    ensures Or(a, b) / 2 == Or(a / 2, b / 2) && (Or(a, b) % 2 == 1 <==> a % 2 == 1 || b % 2 == 1)
  {
  }

  /** A bit is set in the or of two numbers exactly when it is set in one of them. */
  lemma {:induction false} OrBits(a: nat, b: nat, k: nat)
    ensures Bit(Or(a, b), k) <==> Bit(a, k) || Bit(b, k)
    decreases k
  {
    OrHalves(a, b);
    hide Or;
    if k > 0 {
      OrBits(a / 2, b / 2, k - 1);
    }
  }

  function ShiftLeft12(x: nat): nat {
    (x * LOW) % WORD
  }

  /** Patterns that share no bit are or-ed by adding. */
  lemma {:induction false} OrAdds(k: nat, low: nat, high: nat)
    requires low < Pow2(k)
    ensures Or(low, high * Pow2(k)) == low + high * Pow2(k)
    decreases k
  {
    if low != 0 {
      assert high * Pow2(k) == 2 * (high * Pow2(k - 1));
      OrAdds(k - 1, low / 2, high);
    }
  }

  function Pack(reboot: nat, count: nat): nat {
    Or(reboot, ShiftLeft12(count))
  }

  lemma TwelveBits()
    ensures Pow2(12) == LOW
  {
    assert Pow2(4) == 16;
    assert Pow2(8) == 256;
  }

  lemma SmallShift(count: nat)
    requires count <= MAX_COUNT
    ensures ShiftLeft12(count) == count * LOW <= WORD - LOW
  {
    assert count * LOW <= MAX_COUNT * LOW;
  }

  lemma Halves(id: nat, low: nat, count: nat)
    requires low < LOW && id == low + count * LOW
    ensures id % LOW == low && id / LOW == count
  {
  }

  lemma OrIsSum(low: nat, count: nat)
    requires low < LOW
    ensures Or(low, count * LOW) == low + count * LOW
  {
    TwelveBits();
    hide Or, Pow2;
    OrAdds(12, low, count);
  }

  lemma PackIsSum(reboot: nat, count: nat)
    requires reboot <= MAX_REBOOT && count <= MAX_COUNT
    ensures Pack(reboot, count) == reboot + count * LOW < WORD
  {
    SmallShift(count);
    OrIsSum(reboot, count);
    hide Or, ShiftLeft12;
  }

  /** The two halves of an id come back, and an id is a 64-bit word. */
  lemma PackRoundTrip(reboot: nat, count: nat)
    requires reboot <= MAX_REBOOT && count <= MAX_COUNT
    ensures Pack(reboot, count) < 0x1_0000_0000_0000_0000
    ensures Pack(reboot, count) % 0x1000 == reboot && Pack(reboot, count) / 0x1000 == count
  {
    PackIsSum(reboot, count);
    hide Pack;
    Halves(Pack(reboot, count), reboot, count);
  }

  // ---------- The generator ----------

  /** `reboot_num_`, 0 until the first id; `glogal_id_`; and the counter that redis keeps under "sys:gid". */
  datatype Source = Source(reboot: nat, count: nat, stored: nat)

  predicate Valid(s: Source) {
    s.reboot <= MAX_REBOOT && s.count <= MAX_COUNT
  }

  /** The first id of a process takes the next reboot number; past 0xFFF it starts over at 1. */
  function Booted(s: Source): Source {
    if s.reboot != 0 then s
    else if s.stored + 1 > MAX_REBOOT then s.(reboot := 1, stored := 1)
    else s.(reboot := s.stored + 1, stored := s.stored + 1)
  }

  function Counted(s: Source): Source {
    s.(count := (if s.count >= MAX_COUNT then 0 else s.count) + 1)
  }

  function Next(s: Source): Source {
    Counted(Booted(s))
  }

  class IdSource {
    var reboot: nat
    var count: nat
    var stored: nat

    constructor (counter: nat)
      ensures Value() == Source(0, 0, counter)
    {
      reboot, count, stored := 0, 0, counter;
    }

    function Value(): Source
      reads this
    {
      Source(reboot, count, stored)
    }

    method GetGlobalId() returns (id: nat)
      requires Valid(Value())
      modifies this
      ensures Valid(Value()) && Value() == Next(old(Value())) && id == Pack(reboot, count)
    {
      if reboot == 0 {
        stored := stored + 1;
        reboot := stored;
        if reboot > MAX_REBOOT {
          reboot := 1;
          stored := 1;
        }
      }
      if count >= MAX_COUNT {
        count := 0;
      }
      count := count + 1;
      id := Or(reboot, ShiftLeft12(count));
    }
  }

  // ---------- Runs of ids ----------

  function Id(s: Source): nat {
    Pack(s.reboot, s.count)
  }

  /** The source after `n` ids. */
  function After(s: Source, n: nat): Source
    decreases n
  {
    if n == 0 then s else Next(After(s, n - 1))
  }

  lemma {:induction false} AfterIs(s: Source, n: nat)
    requires Valid(s) && n > 0
    ensures After(s, n) == Source(Booted(s).reboot, (s.count + n - 1) % MAX_COUNT + 1, Booted(s).stored)
    ensures Valid(After(s, n)) && 1 <= After(s, n).reboot
    decreases n
  {
    if n == 1 {
      if s.count < MAX_COUNT {
        assert (s.count + 0) % MAX_COUNT == s.count;
      }
    } else {
      AfterIs(s, n - 1);
      WrapStep(s.count + n - 2);
    }
  }

  lemma WrapStep(x: nat)
    ensures (if x % MAX_COUNT + 1 >= MAX_COUNT then 0 else x % MAX_COUNT + 1) == (x + 1) % MAX_COUNT
  {
    var q, r := x / MAX_COUNT, x % MAX_COUNT;
    assert x == q * MAX_COUNT + r;
    if r + 1 == MAX_COUNT {
      assert x + 1 == (q + 1) * MAX_COUNT;
    } else {
      assert x + 1 == q * MAX_COUNT + (r + 1);
    }
  }

  lemma SameRemainder(a: nat, b: nat)
    requires a < b
    ensures b - a < MAX_COUNT ==> a % MAX_COUNT != b % MAX_COUNT
    ensures b - a == MAX_COUNT ==> a % MAX_COUNT == b % MAX_COUNT
  {
    var qa, qb := a / MAX_COUNT, b / MAX_COUNT;
    assert a == qa * MAX_COUNT + a % MAX_COUNT && b == qb * MAX_COUNT + b % MAX_COUNT;
    if a % MAX_COUNT == b % MAX_COUNT {
      assert b - a == (qb - qa) * MAX_COUNT;
    }
    if b - a == MAX_COUNT {
      assert b == (qa + 1) * MAX_COUNT + a % MAX_COUNT;
    }
  }

  /**
    Any 2^52 - 1 consecutive ids of one process are pairwise distinct, across the wrap of the counter, and the next one
    repeats: the bound is exact.
   */
  lemma IdsDistinctIff(s: Source, i: nat, j: nat)
    requires Valid(s) && 0 < i < j <= i + 0xF_FFFF_FFFF_FFFF
    ensures Id(After(s, i)) != Id(After(s, j)) <==> j < i + 0xF_FFFF_FFFF_FFFF
  {
    hide Pack, After;
    AfterIs(s, i);
    AfterIs(s, j);
    PackRoundTrip(After(s, i).reboot, After(s, i).count);
    PackRoundTrip(After(s, j).reboot, After(s, j).count);
    SameRemainder(s.count + i - 1, s.count + j - 1);
  }

  lemma DivisibleDifference(a: int, b: int)
    ensures a % MAX_COUNT == b % MAX_COUNT <==> (a - b) % MAX_COUNT == 0
  {
    var qa, qb := a / MAX_COUNT, b / MAX_COUNT;
    assert a - b == (qa - qb) * MAX_COUNT + (a % MAX_COUNT - b % MAX_COUNT);
  }

  /** Two ids are equal exactly when their reboot numbers are and their counts differ by a multiple of 2^52 - 1. */
  lemma IdsMeetIff(s: Source, i: nat, t: Source, j: nat)
    requires Valid(s) && Valid(t) && i > 0 && j > 0
    ensures Id(After(s, i)) == Id(After(t, j)) <==>
            Booted(s).reboot == Booted(t).reboot && (s.count + i - (t.count + j)) % 0xF_FFFF_FFFF_FFFF == 0
  {
    hide Pack, After, Booted;
    AfterIs(s, i);
    AfterIs(t, j);
    PackRoundTrip(After(s, i).reboot, After(s, i).count);
    PackRoundTrip(After(t, j).reboot, After(t, j).count);
    DivisibleDifference(s.count + i - 1, t.count + j - 1);
  }

  // ---------- Resets ----------

  /** `restore` sets the counter of a running process back. */
  function Restored(s: Source): Source {
    s.(count := 0)
  }

  /** `clear` does the same, and flushes the store with the reboot counter in it. */
  function Cleared(s: Source): Source {
    s.(count := 0, stored := 0)
  }

  /**
    A process that has given `n` ids and is then reset repeats, with its `i`-th id from there, the `j`-th of the ids it
    gives without the reset, exactly when the counts agree up to a multiple of 2^52 - 1.
   */
  lemma ResetRepeatsIff(s: Source, n: nat, t: Source, j: nat, i: nat)
    requires Valid(s) && n > 0 && (t == Restored(After(s, n)) || t == Cleared(After(s, n))) && j > 0 && i > 0
    ensures Valid(t) && (Id(After(s, j)) == Id(After(t, i)) <==> (s.count + j - i) % 0xF_FFFF_FFFF_FFFF == 0)
  {
    hide Pack, After;
    AfterIs(s, n);
    IdsMeetIff(s, j, t, i);
  }

  /** A reset of a new process is harmless exactly when no id is given before it, or none after it. */
  lemma ResetHarmlessIff(stored: nat, n: nat, t: Source, m: nat)
    requires var s := After(Source(0, 0, stored), n); t == Restored(s) || t == Cleared(s)
    ensures (forall j, i | 0 < j <= n && 0 < i <= m :: Id(After(Source(0, 0, stored), j)) != Id(After(t, i))) <==> n == 0 || m == 0
  {
    if n > 0 && m > 0 {
      FirstRepeats(stored, n, t);
      hide *;
    }
  }

  lemma FirstRepeats(stored: nat, n: nat, t: Source)
    requires n > 0 && var s := After(Source(0, 0, stored), n); t == Restored(s) || t == Cleared(s)
    ensures Id(After(Source(0, 0, stored), 1)) == Id(After(t, 1))
  {
    hide After, Id;
    ResetRepeatsIff(Source(0, 0, stored), n, t, 1, 1);
  }

  /** Ids of processes with different reboot numbers never meet. */
  lemma RebootsNeverMeet(s: Source, i: nat, t: Source, j: nat)
    requires Valid(s) && Valid(t) && i > 0 && j > 0 && Booted(s).reboot != Booted(t).reboot
    ensures Id(After(s, i)) != Id(After(t, j))
  {
    hide Booted, After, Id;
    IdsMeetIff(s, i, t, j);
  }

  /** The redis counter after `n` processes that took at least one id each. */
  function StoredAfter(stored: nat, n: nat): nat
    decreases n
  {
    if n == 0 then stored else Booted(Source(0, 0, StoredAfter(stored, n - 1))).stored
  }

  lemma {:induction false} StoredAfterIs(stored: nat, n: nat)
    requires stored <= MAX_REBOOT && n > 0
    ensures StoredAfter(stored, n) == (stored + n - 1) % MAX_REBOOT + 1
    decreases n
  {
    if n > 1 {
      StoredAfterIs(stored, n - 1);
    }
  }

  /** Reboot numbers are in 1..0xFFF, and those of any 4095 consecutive processes are distinct. */
  lemma RebootsDistinct(stored: nat, i: nat, j: nat)
    requires stored <= 0xFFF && 0 < i < j < i + 0xFFF
    ensures 1 <= StoredAfter(stored, i) <= 0xFFF && StoredAfter(stored, i) != StoredAfter(stored, j)
  {
    StoredAfterIs(stored, i);
    StoredAfterIs(stored, j);
  }

  lemma RebootRemainder(p: int, k: int)
    ensures (p - 1) % MAX_REBOOT + 1 == (k - 1) % MAX_REBOOT + 1 <==> (p - k) % MAX_REBOOT == 0
  {
    var a, b := p - 1, k - 1;
    var qa, qb := a / MAX_REBOOT, b / MAX_REBOOT;
    assert p - k == (qa - qb) * MAX_REBOOT + (a % MAX_REBOOT - b % MAX_REBOOT);
  }

  /** The `p`-th process since the store was new or flushed, before its first id. */
  function Process(p: nat): (s: Source)
    requires p > 0
  {
    Source(0, 0, StoredAfter(0, p - 1))
  }

  lemma ProcessReboot(p: nat)
    requires p > 0
    ensures Valid(Process(p)) && Booted(Process(p)).reboot == (p - 1) % MAX_REBOOT + 1
  {
    StoredAfterIs(0, p);
    assert Booted(Process(p)).reboot == StoredAfter(0, p);
  }

  /**
    A clear starts the reboot numbers over as well: the `k`-th process after it repeats the ids of the `p`-th process
    before it exactly when `k` and `p` agree up to a multiple of 4095, and the places of the ids up to one of 2^52 - 1.
   */
  lemma ClearRepeatsRebootsIff(p: nat, j: nat, t: Source, k: nat, i: nat)
    requires p > 0 && k > 0 && j > 0 && i > 0
    ensures Cleared(t).stored == Process(1).stored
    ensures Id(After(Process(p), j)) == Id(After(Process(k), i)) <==> (p - k) % 0xFFF == 0 && (j - i) % 0xF_FFFF_FFFF_FFFF == 0
  {
    ProcessReboot(p);
    ProcessReboot(k);
    assert Process(p).count == 0 == Process(k).count;
    hide *;
    RebootRemainder(p, k);
    IdsMeetIff(Process(p), j, Process(k), i);
  }
}
