/** The actor mailbox: a ring that doubles on demand up to a ceiling, and the bounded FIFO queue
    that it refines. Every operation holds the ring's mutex, so each is one atomic step. */
module RingBuffer {
  import opened Options

  datatype PushResult = PushOK | PushOverflow | PushClosed

  // ------------------------------------------------------------------ the bounded queue

  /** The abstract mailbox: what is queued, the ceiling, and whether it is closed. */
  datatype Queue<T> = Queue(items: seq<T>, limit: nat, closed: bool)

  function Pushed<T>(q: Queue<T>, x: T): (Queue<T>, PushResult) {
    if q.closed then (q, PushClosed)
    else if |q.items| >= q.limit then (q, PushOverflow)
    else (q.(items := q.items + [x]), PushOK)
  }

  function Popped<T>(q: Queue<T>): (Queue<T>, Option<T>) {
    if q.items == [] then (q, None) else (q.(items := q.items[1..]), Some(q.items[0]))
  }

  datatype Op<T> = Push(x: T) | Pop | Close

  function Apply<T>(q: Queue<T>, op: Op<T>): Queue<T> {
    match op
    case Push(x) => Pushed(q, x).0
    case Pop => Popped(q).0
    case Close => q.(closed := true)
  }

  function ApplyAll<T>(q: Queue<T>, ops: seq<Op<T>>): Queue<T>
    decreases |ops|
  {
    if ops == [] then q else ApplyAll(Apply(q, ops[0]), ops[1..])
  }

  /** What the pushes of a history got in, and what its pops took out, in order. */
  function TakenIn<T>(q: Queue<T>, ops: seq<Op<T>>): seq<T>
    decreases |ops|
  {
    if ops == [] then []
    else (if ops[0].Push? && Pushed(q, ops[0].x).1 == PushOK then [ops[0].x] else []) + TakenIn(Apply(q, ops[0]), ops[1..])
  }

  function GivenOut<T>(q: Queue<T>, ops: seq<Op<T>>): seq<T>
    decreases |ops|
  {
    if ops == [] then []
    else (if ops[0].Pop? && Popped(q).1.Some? then [Popped(q).1.value] else []) + GivenOut(Apply(q, ops[0]), ops[1..])
  }

  /** Conservation and order over any history: what came out followed by what is still queued is
      what was queued followed by what was accepted. */
  lemma {:induction false} FirstInFirstOut<T>(q: Queue<T>, ops: seq<Op<T>>)
    ensures GivenOut(q, ops) + ApplyAll(q, ops).items == q.items + TakenIn(q, ops)
    decreases |ops|
  {
    if ops != [] {
      var q1 := Apply(q, ops[0]);
      FirstInFirstOut(q1, ops[1..]);
      var out, in_ := GivenOut(q1, ops[1..]), TakenIn(q1, ops[1..]);
      FifoStep(q, ops[0], out, in_, ApplyAll(q1, ops[1..]).items);
    }
  }

  lemma FifoStep<T>(q: Queue<T>, op: Op<T>, out: seq<T>, in_: seq<T>, rest: seq<T>)
    requires out + rest == Apply(q, op).items + in_
    ensures (if op.Pop? && Popped(q).1.Some? then [Popped(q).1.value] else []) + out + rest
            == q.items + ((if op.Push? && Pushed(q, op.x).1 == PushOK then [op.x] else []) + in_)
  {
    if op.Pop? && q.items != [] {
      assert q.items == [q.items[0]] + q.items[1..];
      assert [q.items[0]] + out + rest == [q.items[0]] + (out + rest);
    } else if op.Push? && Pushed(q, op.x).1 == PushOK {
      assert [] + out + rest == out + rest;
      assert (q.items + [op.x]) + in_ == q.items + ([op.x] + in_);
    } else {
      assert [] + out + rest == out + rest && [] + in_ == in_;
    }
  }

  /** Once closed, nothing more gets in; the queue never exceeds its limit. */
  lemma {:induction false} ClosedAndBounded<T>(q: Queue<T>, ops: seq<Op<T>>)
    requires |q.items| <= q.limit
    ensures |ApplyAll(q, ops).items| <= q.limit
    ensures q.closed ==> TakenIn(q, ops) == [] && ApplyAll(q, ops).closed
    decreases |ops|
  {
    if ops != [] { ClosedAndBounded(Apply(q, ops[0]), ops[1..]); }
  }

  // ------------------------------------------------------------------ the ring

  /** Slot of the i-th queued element. */
  function Slot(head: nat, i: nat, cap: nat): nat { if head + i < cap then head + i else head + i - cap }

  /** The queued elements of a ring, oldest first. */
  function Window<T>(s: seq<T>, head: nat, size: nat): seq<T>
    requires head < |s| && size <= |s|
  {
    seq(size, i requires 0 <= i < size => s[Slot(head, i, |s|)])
  }

  /** A vacated slot keeps nothing alive. */
  predicate Vacant<T(==)>(s: seq<T>, head: nat, size: nat, zero: T)
    requires head < |s| && size <= |s|
  {
    forall i :: size <= i < |s| ==> s[Slot(head, i, |s|)] == zero
  }

  lemma WindowPush<T>(s: seq<T>, head: nat, size: nat, x: T, zero: T)
    requires head < |s| && size < |s| && Vacant(s, head, size, zero)
    ensures Window(s[Slot(head, size, |s|) := x], head, size + 1) == Window(s, head, size) + [x]
    ensures Vacant(s[Slot(head, size, |s|) := x], head, size + 1, zero)
  {
    var s' := s[Slot(head, size, |s|) := x];
    forall i | 0 <= i < |s| && i != size ensures s'[Slot(head, i, |s|)] == s[Slot(head, i, |s|)] {}
  }

  lemma WindowPop<T>(s: seq<T>, head: nat, size: nat, zero: T)
    requires head < |s| && 0 < size <= |s| && Vacant(s, head, size, zero)
    ensures Window(s, head, size)[0] == s[head]
    ensures Window(s[head := zero], Slot(head, 1, |s|), size - 1) == Window(s, head, size)[1..]
    ensures Vacant(s[head := zero], Slot(head, 1, |s|), size - 1, zero)
  {
    var s', h := s[head := zero], Slot(head, 1, |s|);
    forall i | 0 <= i < |s| - 1 ensures Slot(h, i, |s|) == Slot(head, i + 1, |s|) != head {}
    assert Slot(h, |s| - 1, |s|) == head;
    forall i | size - 1 <= i < |s| ensures s'[Slot(h, i, |s|)] == zero {
      if i < |s| - 1 { assert s[Slot(head, i + 1, |s|)] == zero; }
    }
  }

  /** The new backing array of a full ring: the part from head on, then the part before it. */
  method Unwrapped<T>(items: array<T>, head: nat, newCap: nat, zero: T) returns (larger: array<T>)
    requires head < items.Length < newCap
    ensures fresh(larger) && larger.Length == newCap
    ensures Window(larger[..], 0, items.Length) == Window(items[..], head, items.Length)
    ensures Vacant(larger[..], 0, items.Length, zero)
  {
    larger := new T[newCap](_ => zero);
    var n := items.Length - head;
    forall i | 0 <= i < n { larger[i] := items[head + i]; }
    forall i | 0 <= i < head { larger[n + i] := items[i]; }
  }

  class RingBuffer<T> {
    const zero: T // the element type's zero value
    var items: array<T>
    var head: nat
    var tail: nat
    var size: nat
    var cap: nat
    const maxCap: nat
    var closed: bool

    ghost var copied: nat   // elements moved by grow so far
    ghost var accepted: nat // pushes that returned PushOK so far

    ghost predicate Valid()
      reads this, items
    {
      && items.Length == cap && 1 <= cap <= maxCap
      && head < cap && size <= cap && tail == Slot(head, size, cap)
      && Vacant(items[..], head, size, zero)
      && size <= accepted && copied <= 2 * accepted && (cap < maxCap ==> copied <= cap)
    }

    ghost function Contents(): seq<T>
      reads this, items
      requires Valid()
    {
      Window(items[..], head, size)
    }

    ghost function Abs(): Queue<T>
      reads this, items
      requires Valid()
    {
      Queue(Contents(), maxCap, closed)
    }

    constructor (initCap: int, maximum: int, zeroValue: T)
      ensures Valid() && fresh(items) && zero == zeroValue
      ensures cap == (if initCap <= 0 then 1 else initCap)
      ensures Abs() == Queue([], if maximum < cap then cap else maximum, false)
      ensures copied == 0 && accepted == 0
    {
      var c := if initCap <= 0 then 1 else initCap;
      zero := zeroValue;
      items := new T[c](_ => zeroValue);
      cap, maxCap := c, if maximum < c then c else maximum;
      head, tail, size, closed := 0, 0, 0, false;
      copied, accepted := 0, 0;
    }

    function Next(i: nat): (r: nat)
      reads this
      requires i < cap
      ensures r == Slot(i, 1, cap)
    {
      if i + 1 == cap then 0 else i + 1
    }

    /** Only called on a full ring: then tail == head and the copy splits at the array's end. */
    method Grow()
      requires Valid() && size == cap < maxCap
      modifies this`items, this`head, this`tail, this`cap, this`copied
      ensures Valid() && fresh(items) && Contents() == old(Contents())
      ensures cap == (if 2 * old(cap) < maxCap then 2 * old(cap) else maxCap)
      ensures copied == old(copied) + old(size)
    {
      var newCap := if cap * 2 < maxCap then cap * 2 else maxCap;
      var larger := Unwrapped(items, head, newCap, zero);
      items, head, tail, cap := larger, 0, size, newCap;
      copied := copied + size;
    }

    method Push(item: T) returns (r: PushResult)
      requires Valid()
      modifies this, items
      ensures Valid() && (items == old(items) || fresh(items))
      ensures (Abs(), r) == Pushed(old(Abs()), item)
      ensures old(cap) <= cap <= maxCap && accepted == old(accepted) + (if r == PushOK then 1 else 0)
      ensures copied <= 2 * accepted
    {
      if closed { return PushClosed; }
      if size == cap {
        if cap >= maxCap { return PushOverflow; }
        Grow();
      }
      Place(item);
      r := PushOK;
    }

    /** The rest of Push, once there is room. */
    method Place(item: T)
      requires Valid() && size < cap
      modifies this`tail, this`size, this`accepted, items
      ensures Valid() && Contents() == old(Contents()) + [item] && accepted == old(accepted) + 1
    {
      WindowPush(items[..], head, size, item, zero);
      ghost var before := items[..];
      items[tail] := item;
      assert items[..] == before[tail := item];
      tail := Next(tail);
      size := size + 1;
      accepted := accepted + 1;
    }

    method Pop() returns (item: T, ok: bool)
      requires Valid()
      modifies this, items
      ensures Valid() && items == old(items)
      ensures (Abs(), if ok then Some(item) else None) == Popped(old(Abs()))
      ensures !ok ==> item == zero
      ensures cap == old(cap) && accepted == old(accepted) && copied == old(copied)
    {
      if size == 0 { return zero, false; }
      WindowPop(items[..], head, size, zero);
      ghost var before := items[..];
      item, ok := items[head], true;
      items[head] := zero;
      assert items[..] == before[head := zero];
      head := Next(head);
      size := size - 1;
    }

    method Close()
      requires Valid()
      modifies this`closed
      ensures Valid() && Abs() == Apply(old(Abs()), Op.Close)
    {
      closed := true;
    }
  }
}
