/** The id generator: 42 bits of milliseconds since the epoch, 10 bits of node, 12 bits of step.
    Go's uint64 is a nat below 2^64; shifts wrap, and `|` and `&` work bit by bit. */
module Snowflake {
  import opened Options

  const TWO64 := 0x1_0000_0000_0000_0000
  const NODE_MAX := 1023
  const STEP_MAX := 4095
  const EPOCH := 1735689600000
  const TIME_RANGE := 0x400_0000_0000 // 2^42

  // ------------------------------------------------------------------ words

  function Pow2(k: nat): (p: nat)
    ensures p > 0
  {
    if k == 0 then 1 else 2 * Pow2(k - 1)
  }

  function Or(a: nat, b: nat): nat {
    if a == 0 && b == 0 then 0 else 2 * Or(a / 2, b / 2) + (if a % 2 == 1 || b % 2 == 1 then 1 else 0)
  }

  function And(a: nat, b: nat): nat {
    if a == 0 || b == 0 then 0 else 2 * And(a / 2, b / 2) + (if a % 2 == 1 && b % 2 == 1 then 1 else 0)
  }

  function Shl(x: nat, k: nat): nat { x * Pow2(k) % TWO64 }
  function Shr(x: nat, k: nat): nat { DivNat(x, Pow2(k)); x / Pow2(k) }

  lemma DivNat(x: nat, d: nat)
    requires d > 0
    ensures x / d >= 0
  {
  }

  lemma {:induction false} OrZero(a: nat)
    ensures Or(a, 0) == a
  {
    if a > 0 { OrZero(a / 2); }
  }

  /** Fields that do not overlap are simply added. */
  lemma {:induction false} OrFields(high: nat, low: nat, k: nat)
    requires low < Pow2(k)
    ensures Or(high * Pow2(k), low) == high * Pow2(k) + low
  {
    if k == 0 {
      OrZero(high);
    } else {
      assert high * Pow2(k) == 2 * (high * Pow2(k - 1));
      OrFields(high, low / 2, k - 1);
    }
  }

  /** Masking with 2^k - 1 keeps the remainder. */
  lemma {:induction false} AndMask(x: nat, k: nat)
    ensures And(x, Pow2(k) - 1) == x % Pow2(k)
  {
    if k > 0 {
      var m := Pow2(k - 1);
      AndMask(x / 2, k - 1);
      assert (Pow2(k) - 1) / 2 == m - 1;
      ModStep(x, m);
    }
  }

  lemma ModStep(x: nat, m: nat)
    requires m > 0
    ensures x % (2 * m) == 2 * (x / 2 % m) + x % 2
  {
    var q, r := x / 2 / m, x / 2 % m;
    assert x == 2 * (q * m + r) + x % 2;
    assert x == q * (2 * m) + (2 * r + x % 2);
    ModUnique(x, 2 * m, q, 2 * r + x % 2);
  }

  lemma MulAtLeast(a: int, d: nat)
    requires a >= 1
    ensures a * d >= d
  {
  }

  lemma ModUnique(x: nat, d: nat, q: nat, r: nat)
    requires d > 0 && r < d && x == q * d + r
    ensures x % d == r && x / d == q
  {
    var q1, r1 := x / d, x % d;
    assert x == q1 * d + r1;
    assert (q1 - q) * d == r - r1;
    if q1 > q {
      MulAtLeast(q1 - q, d);
      assert false;
    } else if q1 < q {
      MulAtLeast(q - q1, d);
      assert false;
    }
  }

  /** Shifting left by a factor a out of a word of a * b drops all but the low part. */
  lemma ShiftedOut(x: nat, a: nat, b: nat)
    requires a > 0 && b > 0
    ensures x * a % (a * b) == x % b * a
  {
    var q, r := x / b, x % b;
    assert x == q * b + r;
    assert x * a == q * (a * b) + r * a;
    MulAtLeast(b - r, a);
    assert r * a < a * b;
    ModUnique(x * a, a * b, q, r * a);
  }

  lemma Powers()
    ensures Pow2(12) == 0x1000 && Pow2(22) == 0x40_0000 && Pow2(42) == 0x400_0000_0000
    ensures Pow2(52) == 0x10_0000_0000_0000 && Pow2(54) == 0x40_0000_0000_0000
  {
    assert Pow2(4) == 16;
    assert Pow2(8) == 256;
    assert Pow2(12) == 0x1000;
    assert Pow2(16) == 0x1_0000;
    assert Pow2(20) == 0x10_0000;
    assert Pow2(22) == 0x40_0000;
    assert Pow2(26) == 0x400_0000;
    assert Pow2(30) == 0x4000_0000;
    assert Pow2(34) == 0x4_0000_0000;
    assert Pow2(38) == 0x40_0000_0000;
    assert Pow2(42) == 0x400_0000_0000;
    assert Pow2(46) == 0x4000_0000_0000;
    assert Pow2(50) == 0x4_0000_0000_0000;
    assert Pow2(54) == 0x40_0000_0000_0000;
  }

  // ------------------------------------------------------------------ bit layout

  function Compose(time: nat, node: nat, step: nat): nat { Or(Or(Shl(time, 22), Shl(node, 12)), step) }

  function ParseTime(id: nat): nat { Shr(id, 22) }
  function ParseNode(id: nat): nat { Shr(Shl(id, 42), 54) }
  function ParseStep(id: nat): nat { Shr(Shl(id, 52), 52) }
  function ParseSortVal(id: nat): nat { Or(Shl(Shr(id, 22), 22), Shr(Shl(id, 52), 52)) }

  lemma ShiftsAre(time: nat, node: nat)
    requires node <= NODE_MAX
    ensures Shl(time, 22) == time % TIME_RANGE * 0x40_0000 && Shl(node, 12) == node * 0x1000
  {
    Powers();
  }

  /** The three fields side by side; what exceeds 42 bits of time is shifted out. */
  lemma ComposeIsSum(time: nat, node: nat, step: nat)
    requires node <= NODE_MAX && step <= STEP_MAX
    ensures Compose(time, node, step) == time % TIME_RANGE * 0x40_0000 + node * 0x1000 + step
  {
    Powers();
    var t := time % TIME_RANGE;
    ShiftsAre(time, node);
    OrFields(t, node * 0x1000, 22);
    OrFields(t * 0x400 + node, step, 12);
  }

  lemma Digits(time: nat, node: nat, step: nat)
    requires node <= NODE_MAX && step <= STEP_MAX
    ensures var id := time * 0x40_0000 + node * 0x1000 + step;
            id / 0x40_0000 == time && id % 0x40_0000 / 0x1000 == node && id % 0x1000 == step
  {
  }

  lemma ShiftedFields(id: nat)
    ensures Shl(id, 42) == id % 0x40_0000 * 0x400_0000_0000 && Shl(id, 52) == id % 0x1000 * 0x10_0000_0000_0000
  {
    Powers();
    ShiftedOut(id, 0x400_0000_0000, 0x40_0000);
    ShiftedOut(id, 0x10_0000_0000_0000, 0x1000);
  }

  lemma Fields(id: nat)
    ensures ParseTime(id) == id / 0x40_0000 && ParseNode(id) == id % 0x40_0000 / 0x1000 && ParseStep(id) == id % 0x1000
  {
    Powers();
    ShiftedFields(id);
  }

  lemma SortVal(id: nat)
    requires id < TWO64
    ensures ParseSortVal(id) == id / 0x40_0000 * 0x40_0000 + id % 0x1000
  {
    Fields(id);
    var time, step := id / 0x40_0000, id % 0x1000;
    assert Shl(time, 22) == time * 0x40_0000 by { Powers(); }
    assert Or(time * 0x40_0000, step) == time * 0x40_0000 + step by {
      Powers();
      OrFields(time, step, 22);
    }
  }

  /** The Parse functions recover the parts. Node and step survive any time; the time is recovered
      exactly when it fits its 42 bits. */
  lemma PartsRecovered(time: nat, node: nat, step: nat)
    requires node <= NODE_MAX && step <= STEP_MAX
    ensures ParseNode(Compose(time, node, step)) == node && ParseStep(Compose(time, node, step)) == step
    ensures ParseTime(Compose(time, node, step)) == time <==> time < TIME_RANGE
  {
    ComposeIsSum(time, node, step);
    PartsOfSum(time % TIME_RANGE, node, step);
    assert ParseTime(Compose(time, node, step)) == time % TIME_RANGE;
    TimeFits(time);
  }

  lemma TimeFits(time: nat)
    ensures time % TIME_RANGE == time <==> time < TIME_RANGE
  {
  }

  /** The sort value is the id without its node. */
  lemma SortValDropsNode(time: nat, node: nat, step: nat)
    requires node <= NODE_MAX && step <= STEP_MAX
    ensures ParseSortVal(Compose(time, node, step)) == Compose(time, 0, step)
  {
    ComposeIsSum(time, node, step);
    ComposeIsSum(time, 0, step);
    PartsOfSum(time % TIME_RANGE, node, step);
  }

  lemma PartsOfSum(time: nat, node: nat, step: nat)
    requires time < TIME_RANGE && node <= NODE_MAX && step <= STEP_MAX
    ensures var id := time * 0x40_0000 + node * 0x1000 + step;
            ParseTime(id) == time && ParseNode(id) == node && ParseStep(id) == step && ParseSortVal(id) == time * 0x40_0000 + step
  {
    var id := time * 0x40_0000 + node * 0x1000 + step;
    Digits(time, node, step);
    Fields(id);
    SortVal(id);
  }

  /** One node's ids are ordered by (time in 42 bits, step), and so are the sort values of all nodes. */
  lemma ComposeOrdered(t1: nat, s1: nat, t2: nat, s2: nat, node: nat)
    requires node <= NODE_MAX && s1 <= STEP_MAX && s2 <= STEP_MAX
    ensures var a, b := t1 % TIME_RANGE, t2 % TIME_RANGE;
            Compose(t1, node, s1) < Compose(t2, node, s2) <==> a < b || (a == b && s1 < s2)
  {
    ComposeIsSum(t1, node, s1);
    ComposeIsSum(t2, node, s2);
    SumsOrdered(t1 % TIME_RANGE, s1, t2 % TIME_RANGE, s2, node);
  }

  lemma SumsOrdered(t1: nat, s1: nat, t2: nat, s2: nat, node: nat)
    requires node <= NODE_MAX && s1 <= STEP_MAX && s2 <= STEP_MAX
    ensures t1 * 0x40_0000 + node * 0x1000 + s1 < t2 * 0x40_0000 + node * 0x1000 + s2 <==> t1 < t2 || (t1 == t2 && s1 < s2)
  {
  }

  /** Ids of two nodes differ whatever their clocks say: the time range plays no part. */
  lemma NodesNeverCollide(t1: nat, n1: nat, s1: nat, t2: nat, n2: nat, s2: nat)
    requires n1 <= NODE_MAX && n2 <= NODE_MAX && s1 <= STEP_MAX && s2 <= STEP_MAX && n1 != n2
    ensures Compose(t1, n1, s1) != Compose(t2, n2, s2)
  {
    PartsRecovered(t1, n1, s1);
    PartsRecovered(t2, n2, s2);
  }

  /** The correlation ids that start at node << 54 stay in the node's own range for 2^54 Asks. */
  function AskStart(node: nat): nat { Shl(node, 54) }

  lemma AskRangesDisjoint(n1: nat, k1: nat, n2: nat, k2: nat)
    requires n1 <= NODE_MAX && n2 <= NODE_MAX && k1 < Pow2(54) && k2 < Pow2(54)
    ensures AskStart(n1) + k1 < TWO64 && (AskStart(n1) + k1 == AskStart(n2) + k2 ==> n1 == n2 && k1 == k2)
  {
    Powers();
    assert AskStart(n1) == n1 * 0x40_0000_0000_0000 && AskStart(n2) == n2 * 0x40_0000_0000_0000;
  }

  // ------------------------------------------------------------------ the generator

  /** What the generator remembers of the last id. */
  datatype Stamp = Stamp(time: int, step: nat)

  /** A finished call: the new stamp, and how many clock readings it took. */
  datatype Tick = Tick(stamp: Stamp, used: nat)

  predicate Earlier(a: Stamp, b: Stamp) { a.time < b.time || (a.time == b.time && a.step < b.step) }

  lemma EarlierTransitive(a: Stamp, b: Stamp, c: Stamp)
    requires Earlier(a, b) && Earlier(b, c)
    ensures Earlier(a, c)
  {
  }

  /** Position of the first reading after t, or the number of readings. */
  function FirstAfter(clock: seq<int>, t: int, from: nat): (i: nat)
    requires from <= |clock|
    ensures from <= i <= |clock| && (i < |clock| ==> t < clock[i])
    ensures forall j :: from <= j < i ==> t >= clock[j]
    decreases |clock| - from
  {
    if from == |clock| || t < clock[from] then from else FirstAfter(clock, t, from + 1)
  }

  /** One call on the readings that the clock gives it; None while it still waits for the clock. */
  function Generated(last: Stamp, clock: seq<int>): Option<Tick> {
    if clock == [] then None
    else if last.time < clock[0] then Some(Tick(Stamp(clock[0], 0), 1))
    else if last.step != STEP_MAX then Some(Tick(Stamp(last.time, last.step + 1), 1))
    else
      var i := FirstAfter(clock, last.time, 1);
      if i < |clock| then Some(Tick(Stamp(clock[i], 0), i + 1)) else None
  }

  /** Whatever the clock does, the stamp strictly increases and the step keeps its 12 bits. */
  lemma GeneratedIncreases(last: Stamp, clock: seq<int>)
    requires last.step <= STEP_MAX && Generated(last, clock).Some?
    ensures Earlier(last, Generated(last, clock).value.stamp) && Generated(last, clock).value.stamp.step <= STEP_MAX
  {
  }

  /** A call fails to return exactly when it has no reading, or its millisecond is used up and no
      reading is later. */
  lemma WaitsExactly(last: Stamp, clock: seq<int>)
    ensures Generated(last, clock).None?
            <==> (last.step == STEP_MAX || clock == []) && forall i :: 0 <= i < |clock| ==> last.time >= clock[i]
  {
  }

  predicate NeverBack(clock: seq<int>) { forall i, j :: 0 <= i < j < |clock| ==> clock[j] >= clock[i] }

  /** With a clock that never goes back the stamp is the last reading taken: it does not lead. */
  lemma StampIsLastReading(last: Stamp, clock: seq<int>)
    requires NeverBack(clock) && Generated(last, clock).Some? && clock[0] >= last.time
    ensures var g := Generated(last, clock).value; 0 < g.used <= |clock| && g.stamp.time == clock[g.used - 1]
  {
    if last.time >= clock[0] { assert last.time == clock[0]; }
  }

  function IdOf(node: nat, stamp: Stamp): nat { Compose((stamp.time - EPOCH) % TWO64, node, stamp.step) }

  /** The 42 bits reach 139 years from the epoch. */
  predicate InRange(stamp: Stamp) { EPOCH <= stamp.time < EPOCH + TIME_RANGE }

  /** What an id keeps of a stamp: 42 bits of the time since the epoch, and the step. */
  function Kept(stamp: Stamp): Stamp { Stamp((stamp.time - EPOCH) % TIME_RANGE, stamp.step) }

  lemma ModPlus(k: int, r: nat)
    requires r < TIME_RANGE
    ensures (k * TIME_RANGE + r) % TIME_RANGE == r
  {
  }

  lemma ModTwice(x: int)
    ensures x % TWO64 % TIME_RANGE == x % TIME_RANGE
  {
    var q, r := x / TWO64, x % TWO64;
    var k, low := q * 0x40_0000 + r / TIME_RANGE, r % TIME_RANGE;
    assert x == k * TIME_RANGE + low;
    ModPlus(k, low);
  }

  /** Ids of one node are ordered exactly as what they keep of their stamps. */
  lemma IdOrder(node: nat, a: Stamp, b: Stamp)
    requires node <= NODE_MAX && a.step <= STEP_MAX && b.step <= STEP_MAX
    ensures IdOf(node, a) < IdOf(node, b) <==> Earlier(Kept(a), Kept(b))
  {
    ModTwice(a.time - EPOCH);
    ModTwice(b.time - EPOCH);
    ComposeOrdered((a.time - EPOCH) % TWO64, a.step, (b.time - EPOCH) % TWO64, b.step, node);
  }

  // ------------------------------------------------------------------ whole runs

  /** `stamps` are the generator's states, call i taking `clocks[i]` from stamps[i] to stamps[i+1]. */
  predicate IsRun(stamps: seq<Stamp>, clocks: seq<seq<int>>) {
    && |stamps| == |clocks| + 1 && stamps[0] == Stamp(0, 0)
    && forall i :: 0 <= i < |clocks| ==>
         Generated(stamps[i], clocks[i]).Some? && Generated(stamps[i], clocks[i]).value.stamp == stamps[i + 1]
  }

  lemma {:induction false} RunSteps(stamps: seq<Stamp>, clocks: seq<seq<int>>, i: nat)
    requires IsRun(stamps, clocks) && i < |stamps|
    ensures stamps[i].step <= STEP_MAX
  {
    if i > 0 {
      RunSteps(stamps, clocks, i - 1);
      GeneratedIncreases(stamps[i - 1], clocks[i - 1]);
    }
  }

  lemma {:induction false} RunIncreases(stamps: seq<Stamp>, clocks: seq<seq<int>>, i: nat, j: nat)
    requires IsRun(stamps, clocks) && i < j < |stamps|
    ensures Earlier(stamps[i], stamps[j])
    decreases j
  {
    RunSteps(stamps, clocks, j - 1);
    GeneratedIncreases(stamps[j - 1], clocks[j - 1]);
    if i < j - 1 {
      RunIncreases(stamps, clocks, i, j - 1);
      EarlierTransitive(stamps[i], stamps[j - 1], stamps[j]);
    }
  }

  /** Exactly when: over every run a later id is larger if and only if what the two ids keep of their
      stamps is so ordered. */
  lemma IdsIncreaseExactly(node: nat, stamps: seq<Stamp>, clocks: seq<seq<int>>, i: nat, j: nat)
    requires node <= NODE_MAX && IsRun(stamps, clocks) && 0 < i < j < |stamps|
    ensures IdOf(node, stamps[i]) < IdOf(node, stamps[j]) <==> Earlier(Kept(stamps[i]), Kept(stamps[j]))
  {
    RunSteps(stamps, clocks, i);
    RunSteps(stamps, clocks, j);
    IdOrder(node, stamps[i], stamps[j]);
  }

  /** Successive ids of one generator strictly increase, whatever its clock does, while its stamps are in
      range. */
  lemma IdsStrictlyIncrease(node: nat, stamps: seq<Stamp>, clocks: seq<seq<int>>, i: nat, j: nat)
    requires node <= NODE_MAX && IsRun(stamps, clocks) && 0 < i < j < |stamps| && InRange(stamps[i]) && InRange(stamps[j])
    ensures IdOf(node, stamps[i]) < IdOf(node, stamps[j])
  {
    RunIncreases(stamps, clocks, i, j);
    IdsIncreaseExactly(node, stamps, clocks, i, j);
  }

  /** And the order turns when the 42 bits wrap: the id of the first millisecond after the range is smaller
      than that of the last one in it. */
  lemma IdsWrap(node: nat) returns (stamps: seq<Stamp>, clocks: seq<seq<int>>)
    requires node <= NODE_MAX
    ensures IsRun(stamps, clocks) && |stamps| == 3 && IdOf(node, stamps[2]) < IdOf(node, stamps[1])
  {
    var a, b := Stamp(EPOCH + TIME_RANGE - 1, 0), Stamp(EPOCH + TIME_RANGE, 0);
    stamps, clocks := [Stamp(0, 0), a, b], [[a.time], [b.time]];
    IdOrder(node, b, a);
  }

  /** One clock through all calls: no reading is before an earlier one, and none before time 0. */
  predicate OneClock(clocks: seq<seq<int>>) {
    && (forall i :: 0 <= i < |clocks| ==> NeverBack(clocks[i]))
    && (forall i, j, a, b :: 0 <= i < j < |clocks| && 0 <= a < |clocks[i]| && 0 <= b < |clocks[j]| ==>
          clocks[j][b] >= clocks[i][a])
    && (forall i, a :: 0 <= i < |clocks| && 0 <= a < |clocks[i]| ==> clocks[i][a] >= 0)
  }

  /** Every id carries the reading that its own call took last, so it never leads the clock. */
  lemma {:induction false} NeverLeadsClock(stamps: seq<Stamp>, clocks: seq<seq<int>>, i: nat)
    requires IsRun(stamps, clocks) && OneClock(clocks) && i < |clocks|
    ensures Generated(stamps[i], clocks[i]).Some?
    ensures var used := Generated(stamps[i], clocks[i]).value.used;
            0 < used <= |clocks[i]| && stamps[i + 1].time == clocks[i][used - 1]
  {
    if i > 0 { NeverLeadsClock(stamps, clocks, i - 1); }
    StampIsLastReading(stamps[i], clocks[i]);
  }

  lemma MaskStep(x: nat, mask: nat)
    requires mask == STEP_MAX && x <= STEP_MAX + 1
    ensures And(x, mask) == if x <= STEP_MAX then x else 0
  {
    assert mask == Pow2(12) - 1 by { Powers(); }
    AndMask(x, 12);
  }

  /** The next step, wrapping to 0 after the last one of a millisecond. */
  function StepAfter(step: nat): (r: nat)
    requires step <= STEP_MAX
    ensures r == if step == STEP_MAX then 0 else step + 1
  {
    MaskStep(step + 1, STEP_MAX);
    And(step + 1, STEP_MAX)
  }

  class UUID {
    var timestamp: int
    const node: nat
    var step: nat

    ghost predicate Valid() reads this { node <= NODE_MAX && step <= STEP_MAX }

    function Last(): Stamp reads this { Stamp(timestamp, step) }

    constructor (nodeId: nat)
      requires nodeId <= NODE_MAX
      ensures Valid() && node == nodeId && Last() == Stamp(0, 0)
    {
      timestamp, node, step := 0, nodeId, 0;
    }

    /** The part of Generate that moves the stamp, on the readings that the clock gives it. When they
        run out inside the wait the call has not returned: it still holds the mutex. */
    method Advance(clock: seq<int>) returns (done: bool)
      requires Valid()
      modifies this
      ensures Valid() && done == Generated(old(Last()), clock).Some?
      ensures if done then Last() == Generated(old(Last()), clock).value.stamp else timestamp == old(timestamp)
    {
      if |clock| == 0 { return false; }
      var now := clock[0];
      if now < timestamp { now := timestamp; }
      if timestamp == now {
        step := StepAfter(step);
        if step == 0 {
          var i := 1;
          while now <= timestamp
            invariant 1 <= i <= |clock| && timestamp == old(timestamp) && step == 0
            invariant FirstAfter(clock, timestamp, 1) == if now <= timestamp then FirstAfter(clock, timestamp, i) else i - 1
            invariant now > timestamp ==> now == clock[i - 1]
            decreases |clock| - i
          {
            if i == |clock| { return false; }
            now := clock[i];
            i := i + 1;
          }
        }
      } else {
        step := 0;
      }
      timestamp := now;
      done := true;
    }

    method Generate(clock: seq<int>) returns (id: Option<nat>)
      requires Valid()
      modifies this
      ensures Valid() && id.Some? == Generated(old(Last()), clock).Some?
      ensures id.Some? ==> Last() == Generated(old(Last()), clock).value.stamp && id.value == IdOf(node, Last())
    {
      var done := Advance(clock);
      id := if done then Some(IdOf(node, Last())) else None;
    }
  }

  /** NewUUID refuses a node that does not fit its 10 bits. */
  method NewUUID(nodeId: nat) returns (r: Option<UUID>)
    ensures r.Some? <==> nodeId <= NODE_MAX
    ensures r.Some? ==> r.value.Valid() && r.value.node == nodeId && r.value.Last() == Stamp(0, 0)
  {
    if nodeId > NODE_MAX { return None; }
    var u := new UUID(nodeId);
    r := Some(u);
  }
}
