/**
 * The fixed-slot exchange queue `Fifo::Fifo<T, Size>` (source/Pater_Fifo.h).
 *
 * The queue owns `Size` slots and delegates its read/write indices to an
 * index manager (`juce::AbstractFifo`) that hands out one slot at a time.
 * Here the index manager is represented by the read position and the number
 * of queued elements; the number of slots the manager lets the producer fill
 * is kept as the abstract capacity `cap`, with `1 <= cap <= Size`.
 * Everything is sequential: the single-producer/single-consumer discipline
 * is a concurrency concern outside this model.
 */
module Fifo {

  /** Slot count of a queue declared without an explicit `Size`. */
  const DefaultSize: nat := 30

  /**
   * `buffers` are the slots. The queued elements are the `count` slots that
   * start at `readPos` and wrap around the end of `buffers`.
   */
  datatype Fifo<T> = Fifo(buffers: seq<T>, cap: nat, readPos: nat, count: nat)
  {
    predicate Valid() {
      1 <= cap <= |buffers| && readPos < |buffers| && count <= cap
    }

    /** The slot that holds the `i`-th queued element (0 is the front). */
    function SlotOf(i: nat): (k: nat)
      requires Valid() && i <= |buffers|
      ensures k < |buffers|
    {
      if readPos + i < |buffers| then readPos + i else readPos + i - |buffers|
    }

    /** The queued elements, front first. */
    function Contents(): (s: seq<T>)
      requires Valid()
      ensures |s| == count
    {
      seq(count, i requires 0 <= i < count => buffers[SlotOf(i)])
    }
  }

  datatype PushResult<T> = PushResult(ok: bool, fifo: Fifo<T>)

  /** Outcome of `pull` or `exchange`: the flag, the caller's variable `t` afterwards, the queue. */
  datatype Taken<T> = Taken(ok: bool, value: T, fifo: Fifo<T>)

  /** A queue with no element queued; every slot holds `init`. */
  function Empty<T>(size: nat, cap: nat, init: T): (q: Fifo<T>)
    requires 1 <= cap <= size
    ensures q.Valid() && q.Contents() == []
    ensures |q.buffers| == size && q.cap == cap
  {
    Fifo(seq(size, _ => init), cap, 0, 0)
  }

  /** Two different queue positions never share a slot. */
  lemma SlotsDistinct<T>(q: Fifo<T>, i: nat, j: nat)
    requires q.Valid() && i < |q.buffers| && j < |q.buffers| && i != j
    ensures q.SlotOf(i) != q.SlotOf(j)
  {
  }

  /** `push`: store `t` in the next free slot, or report that none is free. */
  function Push<T>(q: Fifo<T>, t: T): (r: PushResult<T>)
    requires q.Valid()
    ensures r.fifo.Valid() && r.fifo.cap == q.cap && |r.fifo.buffers| == |q.buffers|
    ensures r.ok <==> |q.Contents()| < q.cap
    ensures r.ok ==> r.fifo.Contents() == q.Contents() + [t]
    ensures !r.ok ==> r.fifo == q
  {
    if q.count < q.cap then
      var w := q.SlotOf(q.count);
      var q' := q.(buffers := q.buffers[w := t], count := q.count + 1);
      assert forall i :: 0 <= i < q.count ==> q'.Contents()[i] == q.Contents()[i] by {
        forall i | 0 <= i < q.count
          ensures q'.Contents()[i] == q.Contents()[i]
        {
          SlotsDistinct(q, i, q.count);
        }
      }
      PushResult(true, q')
    else
      PushResult(false, q)
  }

  /** The queue with its front element consumed and `slot` stored in the freed slot. */
  function Advance<T>(q: Fifo<T>, slot: T): (q': Fifo<T>)
    requires q.Valid() && q.count > 0
    ensures q'.Valid() && q'.cap == q.cap && |q'.buffers| == |q.buffers|
    ensures q'.Contents() == q.Contents()[1..]
    ensures q'.buffers == q.buffers[q.readPos := slot]
  {
    var q' := q.(buffers := q.buffers[q.readPos := slot], readPos := q.SlotOf(1), count := q.count - 1);
    forall i | 0 <= i < q'.count
      ensures q'.buffers[q'.SlotOf(i)] == q.buffers[q.SlotOf(i + 1)]
    {
      SlotsDistinct(q, i + 1, 0);
    }
    q'
  }

  /** `pull`: copy the front element into `t` and consume it, or fail on an empty queue. */
  function Pull<T>(q: Fifo<T>, t: T): (r: Taken<T>)
    requires q.Valid()
    ensures r.fifo.Valid() && r.fifo.cap == q.cap && |r.fifo.buffers| == |q.buffers|
    ensures r.ok <==> q.Contents() != []
    ensures r.ok ==> r.value == q.Contents()[0] && r.fifo.Contents() == q.Contents()[1..]
    ensures r.ok ==> r.fifo.buffers == q.buffers
    ensures !r.ok ==> r.value == t && r.fifo == q
  {
    if q.count > 0 then
      var front := q.buffers[q.readPos];
      assert q.buffers[q.readPos := front] == q.buffers;
      Taken(true, front, Advance(q, front))
    else
      Taken(false, t, q)
  }

  /**
   * `exchange` for an element type with no special case: swap `t` with the
   * front slot. The freed slot keeps `t`'s former value.
   */
  function Exchange<T>(q: Fifo<T>, t: T): (r: Taken<T>)
    requires q.Valid()
    ensures r.fifo.Valid() && r.fifo.cap == q.cap && |r.fifo.buffers| == |q.buffers|
    ensures r.ok <==> q.Contents() != []
    ensures r.ok ==> r.value == q.Contents()[0] && r.fifo.Contents() == q.Contents()[1..]
    ensures r.ok ==> r.fifo.buffers == q.buffers[q.readPos := t]
    ensures !r.ok ==> r.value == t && r.fifo == q
  {
    if q.count > 0 then
      Taken(true, q.buffers[q.readPos], Advance(q, t))
    else
      Taken(false, t, q)
  }

  /**
   * `exchange` for `std::vector<float>` elements: a `t` shorter than the
   * front vector receives a copy and the slot keeps its vector; otherwise
   * the two vectors are swapped.
   */
  function ExchangeVector(q: Fifo<seq<real>>, t: seq<real>): (r: Taken<seq<real>>)
    requires q.Valid()
    ensures r.fifo.Valid() && r.fifo.cap == q.cap && |r.fifo.buffers| == |q.buffers|
    ensures r.ok <==> q.Contents() != []
    ensures r.ok ==> r.value == q.Contents()[0] && r.fifo.Contents() == q.Contents()[1..]
    ensures r.ok && |t| < |q.Contents()[0]| ==> r.fifo.buffers == q.buffers
    ensures r.ok && |t| >= |q.Contents()[0]| ==> r.fifo.buffers == q.buffers[q.readPos := t]
    ensures !r.ok ==> r.value == t && r.fifo == q
  {
    if q.count > 0 then
      var front := q.buffers[q.readPos];
      if |t| < |front| then
        Pull(q, t)
      else
        Exchange(q, t)
    else
      Taken(false, t, q)
  }

  /** A vector of `n` zero samples. */
  function Zeros(n: nat): (z: seq<real>)
    ensures |z| == n && forall i :: 0 <= i < n ==> z[i] == 0.0
  {
    seq(n, _ => 0.0)
  }

  /** `prepare(numElements)`: every slot becomes `n` zeros; the indices are untouched. */
  function Prepare(q: Fifo<seq<real>>, n: nat): (r: Fifo<seq<real>>)
    requires q.Valid()
    ensures r.Valid() && r.cap == q.cap && r.readPos == q.readPos && r.count == q.count
    ensures |r.buffers| == |q.buffers|
    ensures forall k :: 0 <= k < |r.buffers| ==> |r.buffers[k]| == n && forall j :: 0 <= j < n ==> r.buffers[k][j] == 0.0
    ensures forall x :: x in r.Contents() ==> x == Zeros(n)
  {
    q.(buffers := seq(|q.buffers|, _ => Zeros(n)))
  }

  /** `getNumAvailableForReading`: the number of queued elements. */
  function NumAvailableForReading<T>(q: Fifo<T>): (n: int)
    requires q.Valid()
    ensures n == |q.Contents()|
    ensures 0 <= n <= q.cap <= |q.buffers|
  {
    q.count
  }

  /** One call made on the queue by the producer or the consumer. */
  datatype Op<T> = PushOp(item: T) | PullOp | ExchangeOp(item: T)

  /**
   * The effect of a run of calls: the final queue, the elements whose push
   * succeeded (in call order) and the elements a successful pull or exchange
   * delivered (in call order).
   */
  datatype Trace<T> = Trace(fifo: Fifo<T>, accepted: seq<T>, delivered: seq<T>)

  /** The effect of one call: the queue after it, what it accepted or delivered, the consumer's `t`. */
  datatype StepResult<T> = StepResult(fifo: Fifo<T>, accepted: seq<T>, delivered: seq<T>, t: T)

  /** Performs one call; a refused push or an empty-queue pull accepts or delivers nothing. */
  function Step<T>(q: Fifo<T>, op: Op<T>, t: T): (s: StepResult<T>)
    requires q.Valid()
    ensures s.fifo.Valid() && s.fifo.cap == q.cap && |s.fifo.buffers| == |q.buffers|
    ensures q.Contents() + s.accepted == s.delivered + s.fifo.Contents()
  {
    match op
    case PushOp(x) =>
      var p := Push(q, x);
      StepResult(p.fifo, if p.ok then [x] else [], [], t)
    case PullOp =>
      var p := Pull(q, t);
      assert p.ok ==> q.Contents() == [p.value] + q.Contents()[1..];
      StepResult(p.fifo, [], if p.ok then [p.value] else [], p.value)
    case ExchangeOp(x) =>
      var p := Exchange(q, x);
      assert p.ok ==> q.Contents() == [p.value] + q.Contents()[1..];
      StepResult(p.fifo, [], if p.ok then [p.value] else [], p.value)
  }

  /** Performs `ops` in order; `t` is the consumer's variable passed to `pull`. */
  function Run<T>(q: Fifo<T>, ops: seq<Op<T>>, t: T): (tr: Trace<T>)
    requires q.Valid()
    ensures tr.fifo.Valid() && tr.fifo.cap == q.cap && |tr.fifo.buffers| == |q.buffers|
    decreases |ops|
  {
    if ops == [] then Trace(q, [], [])
    else
      var s := Step(q, ops[0], t);
      var rest := Run(s.fifo, ops[1..], s.t);
      Trace(rest.fifo, s.accepted + rest.accepted, s.delivered + rest.delivered)
  }

  /** Chains two first-in-first-out balances into one. */
  lemma Splice<T>(queued: seq<T>, acc1: seq<T>, del1: seq<T>, mid: seq<T>, acc2: seq<T>, del2: seq<T>, final: seq<T>)
    requires queued + acc1 == del1 + mid
    requires mid + acc2 == del2 + final
    ensures queued + (acc1 + acc2) == (del1 + del2) + final
  {
    calc {
      queued + (acc1 + acc2);
      (queued + acc1) + acc2;
      (del1 + mid) + acc2;
      del1 + (mid + acc2);
      del1 + (del2 + final);
    }
  }

  /**
   * First in, first out: what was queued followed by what was accepted is
   * exactly what was delivered followed by what is still queued. Nothing is
   * lost, duplicated or reordered.
   */
  lemma {:induction false} RunIsFifo<T>(q: Fifo<T>, ops: seq<Op<T>>, t: T)
    requires q.Valid()
    ensures q.Contents() + Run(q, ops, t).accepted == Run(q, ops, t).delivered + Run(q, ops, t).fifo.Contents()
    decreases |ops|
  {
    if ops != [] {
      var s := Step(q, ops[0], t);
      var rest := Run(s.fifo, ops[1..], s.t);
      RunIsFifo(s.fifo, ops[1..], s.t);
      assert Run(q, ops, t) == Trace(rest.fifo, s.accepted + rest.accepted, s.delivered + rest.delivered);
      Splice(q.Contents(), s.accepted, s.delivered, s.fifo.Contents(), rest.accepted, rest.delivered, rest.fifo.Contents());
    }
  }

  /**
   * The number available for reading is the number queued at the start plus
   * the successful pushes minus the successful pulls and exchanges, and it
   * never exceeds the capacity or the slot count.
   */
  lemma NumAvailableCountsSuccesses<T>(q: Fifo<T>, ops: seq<Op<T>>, t: T)
    requires q.Valid()
    ensures NumAvailableForReading(Run(q, ops, t).fifo)
         == NumAvailableForReading(q) + |Run(q, ops, t).accepted| - |Run(q, ops, t).delivered|
    ensures NumAvailableForReading(Run(q, ops, t).fifo) <= q.cap <= |q.buffers|
  {
    RunIsFifo(q, ops, t);
    var tr := Run(q, ops, t);
    assert |q.Contents() + tr.accepted| == |tr.delivered + tr.fifo.Contents()|;
  }

  /** `n` pushes of the elements of `xs`, in order. */
  function PushAll<T>(xs: seq<T>): (ops: seq<Op<T>>)
    ensures |ops| == |xs| && forall i :: 0 <= i < |xs| ==> ops[i] == PushOp(xs[i])
  {
    seq(|xs|, i requires 0 <= i < |xs| => PushOp(xs[i]))
  }

  function Min(a: nat, b: nat): nat { if a < b then a else b }

  /**
   * Pushing more elements than there is room for keeps the EARLIEST ones:
   * once the queue is full every further push is refused and discarded.
   */
  lemma {:induction false} PushAllKeepsEarliest<T>(q: Fifo<T>, xs: seq<T>, t: T)
    requires q.Valid()
    ensures Run(q, PushAll(xs), t).accepted == xs[..Min(|xs|, q.cap - q.count)]
    ensures Run(q, PushAll(xs), t).delivered == []
    decreases |xs|
  {
    if xs != [] {
      var p := Push(q, xs[0]);
      assert PushAll(xs)[1..] == PushAll(xs[1..]);
      PushAllKeepsEarliest(p.fifo, xs[1..], t);
      if p.ok {
        assert xs[..Min(|xs|, q.cap - q.count)] == [xs[0]] + xs[1..][..Min(|xs[1..]|, p.fifo.cap - p.fifo.count)];
      }
    }
  }

  /**
   * Overfilling an empty queue and then reading it back yields exactly the
   * first `cap` pushed elements, in push order.
   */
  lemma OverfillKeepsEarliest<T>(size: nat, cap: nat, init: T, xs: seq<T>)
    requires 1 <= cap <= size
    ensures Run(Empty(size, cap, init), PushAll(xs), init).fifo.Contents() == xs[..Min(|xs|, cap)]
  {
    var q := Empty(size, cap, init);
    PushAllKeepsEarliest(q, xs, init);
    RunIsFifo(q, PushAll(xs), init);
    assert [] + Run(q, PushAll(xs), init).accepted == Run(q, PushAll(xs), init).accepted;
  }
}
