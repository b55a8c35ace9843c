/**
 * The effect-order handoff of `PluginProcessor` (source/PluginProcessor.cpp).
 *
 * Each audio block the processor clears the output channels that have no
 * input, drains the order queue keeping only the last order, adopts it
 * unless it equals the value-initialised all-`Phaser` order, maps each order
 * slot to a processor holder and runs the non-null holders in slot order.
 * The holders' signal processing is a parameter `process`; what a holder
 * does to a buffer is library DSP outside this model.
 */
module Processor {
  import opened Fifo
  import opened DspOption

  /** An audio buffer: one sequence of samples per channel. */
  type AudioBuffer = seq<seq<real>>

  /**
   * The state this model tracks: the order queue `dspOrderFifo`, the
   * `dspOrder` member of `DSPOption` and the processor's `currentDspOrder`.
   */
  datatype PluginState = PluginState(orderFifo: Fifo<DspOrder>, dspOrder: DspOrder, current: DspOrder)

  /**
   * A freshly constructed processor: nothing queued and `currentDspOrder{}`
   * value-initialised. The queue's slots are never read before a push
   * overwrites them; `dspOrder` is whatever the caller supplies.
   */
  function Created(dspOrder: DspOrder, cap: nat): (st: PluginState)
    requires 1 <= cap <= DefaultSize
    ensures IsOrderFifo(st.orderFifo) && st.orderFifo.Contents() == []
    ensures forall i :: 0 <= i < StageCount ==> st.current[i] == Phaser
  {
    PluginState(Empty(DefaultSize, cap, ValueInitialised()), dspOrder, ValueInitialised())
  }

  /**
   * The order part of `prepareToPlay`: `dspOrder` becomes Phaser, Chorus,
   * Reverb, Delay, and `currentDspOrder` a copy of it.
   */
  function PrepareToPlay(st: PluginState): (st': PluginState)
    ensures st'.current == st'.dspOrder
    ensures forall i :: 0 <= i < StageCount ==> st'.current[i] == FromOrdinal(i)
    ensures st'.orderFifo == st.orderFifo
  {
    var order: DspOrder := [Phaser, Chorus, Reverb, Delay];
    st.(dspOrder := order, current := order)
  }

  /**
   * The loop `while (dspOrderFifo.pull(newDSPOrder)) {}`: pulls until the
   * queue is empty. `t` ends as the last order pulled, or unchanged when
   * nothing was queued.
   */
  function DrainOrders(q: Fifo<DspOrder>, t: DspOrder): (r: (Fifo<DspOrder>, DspOrder))
    requires q.Valid()
    ensures r.0.Valid() && r.0.Contents() == []
    ensures r.0.cap == q.cap && |r.0.buffers| == |q.buffers|
    ensures r.1 == if q.Contents() == [] then t else q.Contents()[|q.Contents()| - 1]
    decreases q.count
  {
    var p := Pull(q, t);
    if p.ok then DrainOrders(p.fifo, p.value) else (q, t)
  }

  /**
   * The adoption test: a drained order replaces the current one unless it
   * equals the value-initialised order, which doubles as "nothing pulled".
   */
  function Adopt(current: DspOrder, drained: DspOrder): (r: DspOrder)
    ensures r == current || r == drained
    ensures r != current <==> drained != ValueInitialised() && drained != current
    ensures drained == ValueInitialised() ==> r == current
  {
    if drained != ValueInitialised() then drained else current
  }

  /**
   * The order step of `processBlock`, a pure step on (queue, current order):
   * afterwards the queue is empty, and the current order is the last queued
   * order when there was one and it is not the all-`Phaser` order; otherwise
   * the current order is kept.
   */
  function OrderStep(st: PluginState): (st': PluginState)
    requires st.orderFifo.Valid()
    ensures st'.orderFifo.Valid() && st'.orderFifo.Contents() == []
    ensures st'.dspOrder == st.dspOrder
    ensures var pending := st.orderFifo.Contents();
            st'.current == if pending != [] && pending[|pending| - 1] != ValueInitialised()
                           then pending[|pending| - 1] else st.current
  {
    var drained := DrainOrders(st.orderFifo, ValueInitialised());
    st.(orderFifo := drained.0, current := Adopt(st.current, drained.1))
  }

  /** The chain of processor slots for an order: slot `i` points at the holder `order[i]` names. */
  function PointersFor(order: seq<DspOption>): (ps: seq<Slot>)
    ensures |ps| == |order|
    ensures forall i :: 0 <= i < |order| ==> ps[i] == HolderFor(order[i])
  {
    seq(|order|, i requires 0 <= i < |order| => HolderFor(order[i]))
  }

  /** The holders a chain runs, one run per non-null slot, in increasing slot index. */
  function Schedule(ps: seq<Slot>): (run: seq<Holder>)
    ensures |run| <= |ps|
    decreases |ps|
  {
    if ps == [] then []
    else
      var last := ps[|ps| - 1];
      Schedule(ps[..|ps| - 1]) + (if last.Points? then [last.holder] else [])
  }

  /** A chain split in two runs its first part before its second part. */
  lemma {:induction false} ScheduleAppend(a: seq<Slot>, b: seq<Slot>)
    ensures Schedule(a + b) == Schedule(a) + Schedule(b)
    decreases |b|
  {
    if b == [] {
      assert a + b == a;
    } else {
      var b' := b[..|b| - 1];
      assert (a + b)[..|a + b| - 1] == a + b';
      ScheduleAppend(a, b');
      var tail := if b[|b| - 1].Points? then [b[|b| - 1].holder] else [];
      assert (a + b)[|a + b| - 1] == b[|b| - 1];
      assert Schedule(a + b) == Schedule(a + b') + tail;
      assert Schedule(b) == Schedule(b') + tail;
      assert (Schedule(a) + Schedule(b')) + tail == Schedule(a) + (Schedule(b') + tail);
    }
  }

  /**
   * A holder runs once per slot of the order that names it: a stage listed
   * twice runs twice, a stage not listed does not run, and count-marker
   * slots run nothing.
   */
  lemma {:induction false} ScheduleMultiplicity(order: seq<DspOption>, p: Holder)
    ensures multiset(Schedule(PointersFor(order)))[p] == multiset(order)[KindOf(p)]
    decreases |order|
  {
    if order != [] {
      var n := |order| - 1;
      assert PointersFor(order)[..n] == PointersFor(order[..n]);
      assert order == order[..n] + [order[n]];
      ScheduleMultiplicity(order[..n], p);
      HolderForSelectsExactlyOne(order[n], p);
    }
  }

  /** A holder's state together with a buffer: what a holder's run starts from and yields. */
  datatype HolderRun = HolderRun(state: HolderState, buffer: AudioBuffer)

  /** The holders' states and the buffer after some holders have run. */
  datatype ChainState = ChainState(holders: Holders, buffer: AudioBuffer)

  /**
   * Runs the holders of `stages` in order, each on the previous one's output
   * buffer and on its own state as its previous run left it. `process` maps
   * a holder, its state and a buffer to the holder's next state and the
   * processed buffer. Holders that do not run keep their state.
   */
  function ApplyAll(stages: seq<Holder>, start: ChainState,
                    process: (Holder, HolderRun) -> HolderRun): (r: ChainState)
    ensures forall p :: p !in stages ==> r.holders.StateOf(p) == start.holders.StateOf(p)
    decreases |stages|
  {
    if stages == [] then start
    else
      var prev := ApplyAll(stages[..|stages| - 1], start, process);
      var p := stages[|stages| - 1];
      var next := process(p, HolderRun(prev.holders.StateOf(p), prev.buffer));
      ChainState(prev.holders.With(p, next.state), next.buffer)
  }

  /**
   * A holder listed twice in a row, anywhere in a chain, runs twice: its
   * second run starts from the state and the buffer its first run produced.
   */
  lemma RepeatedStageSeesItsOwnState(stages: seq<Holder>, p: Holder, start: ChainState,
                                     process: (Holder, HolderRun) -> HolderRun)
    ensures var before := ApplyAll(stages, start, process);
            var first := process(p, HolderRun(before.holders.StateOf(p), before.buffer));
            var second := process(p, first);
            ApplyAll(stages + [p, p], start, process) == ChainState(before.holders.With(p, second.state), second.buffer)
  {
    var once := stages + [p];
    var twice := stages + [p, p];
    assert once[..|once| - 1] == stages;
    assert twice[..|twice| - 1] == once;
    var before := ApplyAll(stages, start, process);
    var first := process(p, HolderRun(before.holders.StateOf(p), before.buffer));
    var h1 := before.holders.With(p, first.state);
    assert ApplyAll(once, start, process) == ChainState(h1, first.buffer);
    var second := process(p, first);
    assert h1.With(p, second.state) == before.holders.With(p, second.state);
  }

  /**
   * The channel-clearing loop: output channels with index in
   * [numInputs, numOutputs) are silenced at their length; every other
   * channel is untouched.
   */
  function ClearSurplus(buffer: AudioBuffer, numInputs: nat, numOutputs: nat): (r: AudioBuffer)
    requires numOutputs <= |buffer|
    ensures |r| == |buffer|
    ensures forall c :: 0 <= c < |buffer| && numInputs <= c < numOutputs ==> r[c] == Zeros(|buffer[c]|)
    ensures forall c :: 0 <= c < |buffer| && !(numInputs <= c < numOutputs) ==> r[c] == buffer[c]
  {
    seq(|buffer|, c requires 0 <= c < |buffer| => if numInputs <= c < numOutputs then Zeros(|buffer[c]|) else buffer[c])
  }

  /** The channel-clearing loop of `processBlock`, in place on a copy of the buffer. */
  method ClearChannels(buffer: AudioBuffer, numInputs: nat, numOutputs: nat) returns (out: AudioBuffer)
    requires numOutputs <= |buffer|
    ensures out == ClearSurplus(buffer, numInputs, numOutputs)
  {
    out := buffer;
    var c := numInputs;
    while c < numOutputs
      invariant numInputs <= c && (c <= numOutputs || c == numInputs)
      invariant |out| == |buffer|
      invariant forall k :: 0 <= k < |buffer| ==>
        out[k] == if numInputs <= k < c then Zeros(|buffer[k]|) else buffer[k]
    {
      out := out[c := Zeros(|out[c]|)];
      c := c + 1;
    }
  }

  /** The switch over the order's slots that fills `DSP_Pointers`. */
  method MapPointers(order: DspOrder) returns (pointers: DspPointers)
    ensures pointers == PointersFor(order)
  {
    pointers := [Null, Null, Null, Null];
    for i := 0 to StageCount
      invariant forall k :: 0 <= k < i ==> pointers[k] == HolderFor(order[k])
    {
      pointers := pointers[i := HolderFor(order[i])];
    }
  }

  /**
   * The run loop of `processBlock`: every non-null slot's holder processes
   * the buffer in slot order, each on its own state.
   */
  method RunChain(pointers: DspPointers, holders: Holders, buffer: AudioBuffer,
                  process: (Holder, HolderRun) -> HolderRun)
    returns (holders': Holders, out: AudioBuffer, ran: seq<Holder>)
    ensures ran == Schedule(pointers)
    ensures ChainState(holders', out) == ApplyAll(ran, ChainState(holders, buffer), process)
  {
    ran := [];
    holders', out := holders, buffer;
    for i := 0 to StageCount
      invariant ran == Schedule(pointers[..i])
      invariant ChainState(holders', out) == ApplyAll(ran, ChainState(holders, buffer), process)
    {
      assert pointers[..i + 1][..i] == pointers[..i];
      if pointers[i].Points? {
        var p := pointers[i].holder;
        var next := process(p, HolderRun(holders'.StateOf(p), out));
        assert (ran + [p])[..|ran|] == ran;
        holders', out := holders'.With(p, next.state), next.buffer;
        ran := ran + [p];
      }
    }
    assert pointers[..StageCount] == pointers;
  }

  /**
   * `processBlock`: clears the surplus output channels, takes the order step,
   * builds the pointer chain from the current order and runs it in slot
   * order on the holders' states. `ran` lists the holders run, in the order
   * they ran.
   */
  method ProcessBlock(st: PluginState, holders: Holders, buffer: AudioBuffer,
                      numInputs: nat, numOutputs: nat,
                      process: (Holder, HolderRun) -> HolderRun)
    returns (st': PluginState, holders': Holders, out: AudioBuffer, ran: seq<Holder>)
    requires st.orderFifo.Valid()
    requires numOutputs <= |buffer|
    ensures st'.orderFifo.Valid() && st'.orderFifo.Contents() == []
    ensures st'.orderFifo.cap == st.orderFifo.cap && |st'.orderFifo.buffers| == |st.orderFifo.buffers|
    ensures st'.dspOrder == st.dspOrder
    ensures var pending := st.orderFifo.Contents();
            st'.current == if pending != [] && pending[|pending| - 1] != ValueInitialised()
                           then pending[|pending| - 1] else st.current
    ensures ran == Schedule(PointersFor(st'.current))
    ensures forall p :: multiset(ran)[p] == multiset(st'.current)[KindOf(p)]
    ensures ChainState(holders', out)
         == ApplyAll(ran, ChainState(holders, ClearSurplus(buffer, numInputs, numOutputs)), process)
    ensures forall p :: KindOf(p) !in st'.current ==> holders'.StateOf(p) == holders.StateOf(p)
  {
    var cleared := ClearChannels(buffer, numInputs, numOutputs);
    st' := OrderStep(st);
    var pointers := MapPointers(st'.current);
    holders', out, ran := RunChain(pointers, holders, cleared, process);
    forall p
      ensures multiset(ran)[p] == multiset(st'.current)[KindOf(p)]
    {
      ScheduleMultiplicity(st'.current, p);
    }
  }

  /** Whichever orders are queued, only the last one can be adopted by a block. */
  lemma LastOrderWins(st: PluginState, a: DspOrder, b: DspOrder)
    requires st.orderFifo.Valid() && st.orderFifo.count + 2 <= st.orderFifo.cap
    requires b != ValueInitialised()
    ensures var q := Push(Push(st.orderFifo, a).fifo, b).fifo;
            OrderStep(st.(orderFifo := q)).current == b
  {
    var q1 := Push(st.orderFifo, a).fifo;
    var q := Push(q1, b).fifo;
    assert q.Contents() == st.orderFifo.Contents() + [a] + [b];
  }

  /**
   * A full queue refuses further orders: both pushes fail and leave the
   * queue as it was, so the next block adopts the last order that fitted
   * (when that is not all-`Phaser`), not the most recent one requested.
   */
  lemma FullQueueKeepsLastFittingOrder(st: PluginState, a: DspOrder, b: DspOrder)
    requires st.orderFifo.Valid() && st.orderFifo.count == st.orderFifo.cap
    requires st.orderFifo.Contents()[st.orderFifo.count - 1] != ValueInitialised()
    ensures !Push(st.orderFifo, a).ok && !Push(Push(st.orderFifo, a).fifo, b).ok
    ensures var q := Push(Push(st.orderFifo, a).fifo, b).fifo;
            OrderStep(st.(orderFifo := q)).current == st.orderFifo.Contents()[st.orderFifo.count - 1]
  {
  }

  /** Pushing the all-`Phaser` order last changes nothing: the block ignores everything queued. */
  lemma AllPhaserOrderIgnored(st: PluginState)
    requires st.orderFifo.Valid() && st.orderFifo.count < st.orderFifo.cap
    ensures var q := Push(st.orderFifo, ValueInitialised()).fifo;
            OrderStep(st.(orderFifo := q)).current == st.current
  {
  }

  /** Once prepared, a block with nothing queued runs each stage once, in enumerator order. */
  lemma PreparedChainRunsEachStageOnce(st: PluginState)
    requires st.orderFifo.Valid() && st.orderFifo.Contents() == []
    ensures Schedule(PointersFor(OrderStep(PrepareToPlay(st)).current))
         == [PhaserHolder, ChorusHolder, ReverbHolder, DelayHolder]
  {
    var order := OrderStep(PrepareToPlay(st)).current;
    assert order == [Phaser, Chorus, Reverb, Delay];
    ScheduleAppend([Points(PhaserHolder), Points(ChorusHolder)], [Points(ReverbHolder), Points(DelayHolder)]);
    assert PointersFor(order) == [Points(PhaserHolder), Points(ChorusHolder)] + [Points(ReverbHolder), Points(DelayHolder)];
  }

  /**
   * Before `prepareToPlay`, a block with nothing queued keeps the
   * value-initialised order and so runs the phaser four times.
   */
  lemma UnpreparedChainRunsPhaserFourTimes(dspOrder: DspOrder, cap: nat)
    requires 1 <= cap <= DefaultSize
    ensures Schedule(PointersFor(OrderStep(Created(dspOrder, cap)).current))
         == [PhaserHolder, PhaserHolder, PhaserHolder, PhaserHolder]
  {
    var order := OrderStep(Created(dspOrder, cap)).current;
    assert order == [Phaser, Phaser, Phaser, Phaser];
    ScheduleAppend([Points(PhaserHolder), Points(PhaserHolder)], [Points(PhaserHolder), Points(PhaserHolder)]);
    assert PointersFor(order) == [Points(PhaserHolder), Points(PhaserHolder)] + [Points(PhaserHolder), Points(PhaserHolder)];
  }

  /** A bus's channel layout, reduced to what the layout check distinguishes. */
  datatype ChannelSet = Disabled | Mono | Stereo | OtherLayout(name: string)

  datatype BusesLayout = BusesLayout(mainInput: ChannelSet, mainOutput: ChannelSet)

  /** The build switches `JucePlugin_IsMidiEffect` and `JucePlugin_IsSynth`. */
  datatype BuildOptions = BuildOptions(isMidiEffect: bool, isSynth: bool)

  /**
   * `isBusesLayoutSupported`: a MIDI effect accepts any layout; otherwise the
   * main output must be mono or stereo and, unless the build is a synth, the
   * main input must equal the main output.
   */
  function IsBusesLayoutSupported(build: BuildOptions, layouts: BusesLayout): (ok: bool)
    ensures build.isMidiEffect ==> ok
    ensures !build.isMidiEffect && ok ==> layouts.mainOutput == Mono || layouts.mainOutput == Stereo
    ensures !build.isMidiEffect && !build.isSynth ==>
      (ok <==> (layouts.mainOutput == Mono || layouts.mainOutput == Stereo) && layouts.mainInput == layouts.mainOutput)
    ensures !build.isMidiEffect && build.isSynth ==>
      (ok <==> layouts.mainOutput == Mono || layouts.mainOutput == Stereo)
  {
    if build.isMidiEffect then true
    else if layouts.mainOutput != Mono && layouts.mainOutput != Stereo then false
    else if !build.isSynth && layouts.mainOutput != layouts.mainInput then false
    else true
  }

  /**
   * The buses the constructor declares: a stereo input unless the build is
   * a MIDI effect or a synth, a stereo output unless it is a MIDI effect.
   */
  function DeclaredLayout(build: BuildOptions): BusesLayout
  {
    BusesLayout(if build.isMidiEffect || build.isSynth then Disabled else Stereo,
                if build.isMidiEffect then Disabled else Stereo)
  }

  /** Every build accepts the layout its own constructor declares. */
  lemma DeclaredLayoutSupported(build: BuildOptions)
    ensures IsBusesLayoutSupported(build, DeclaredLayout(build))
  {
  }
}
