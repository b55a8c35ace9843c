/**
 * The effect stages and the processing-order types of `DSPOption`
 * (source/Pater_DSPOption.h).
 *
 * `DSP_Option` enumerates the four effect stages followed by the count
 * marker `END_OF_LIST`; a processing order has one slot per stage kind, and
 * the chain of processors has one processor slot per order slot. The
 * processors themselves are library DSP blocks and appear here only as the
 * four distinct holders `DSPOption` declares.
 */
module DspOption {
  import opened Fifo

  datatype DspOption = Phaser | Chorus | Reverb | Delay | EndOfList

  /** The enumerator's integer value, in declaration order from 0. */
  function Ordinal(o: DspOption): nat
  {
    match o
    case Phaser => 0
    case Chorus => 1
    case Reverb => 2
    case Delay => 3
    case EndOfList => 4
  }

  /** The enumerator with integer value `n`. */
  function FromOrdinal(n: nat): (o: DspOption)
    requires n <= Ordinal(EndOfList)
    ensures Ordinal(o) == n
  {
    if n == 0 then Phaser
    else if n == 1 then Chorus
    else if n == 2 then Reverb
    else if n == 3 then Delay
    else EndOfList
  }

  /** Number of slots of a processing order: the value of the count marker. */
  const StageCount: nat := Ordinal(EndOfList)

  /** A real effect stage, as opposed to the count marker. */
  predicate IsStage(o: DspOption) {
    o != EndOfList
  }

  /**
   * The enumeration has exactly `StageCount` (= 4) real stages: they are the
   * enumerators below the count marker, and distinct enumerators have
   * distinct values.
   */
  lemma StagesBelowCountMarker(o: DspOption, o': DspOption)
    ensures StageCount == 4
    ensures IsStage(o) <==> Ordinal(o) < StageCount
    ensures Ordinal(o) == Ordinal(o') ==> o == o'
    ensures FromOrdinal(Ordinal(o)) == o
  {
  }

  /** `DSP_Order`: one option per slot, `StageCount` slots. */
  type DspOrder = s: seq<DspOption> | |s| == StageCount witness [Phaser, Phaser, Phaser, Phaser]

  /**
   * A value-initialised `DSP_Order` (`DSP_Order()` or `DSP_Order{}`): every
   * slot holds the enumerator with value 0.
   */
  function ValueInitialised(): (r: DspOrder)
    ensures forall i :: 0 <= i < |r| ==> r[i] == Phaser
  {
    seq(StageCount, _ => FromOrdinal(0))
  }

  /** The four processor holders `phaser`, `chorus`, `reverb` and `delay`. */
  datatype Holder = PhaserHolder | ChorusHolder | ReverbHolder | DelayHolder

  /** The option that names a processor holder. */
  function KindOf(p: Holder): (o: DspOption)
    ensures IsStage(o)
  {
    match p
    case PhaserHolder => Phaser
    case ChorusHolder => Chorus
    case ReverbHolder => Reverb
    case DelayHolder => Delay
  }

  /** A holder's internal state (delay lines, filter memories, LFO phase), as numbers. */
  type HolderState = seq<real>

  /**
   * The state of every holder. Each holder is its own object, so its state
   * persists from one of its runs to the next and is shared by every slot
   * that points at it.
   */
  datatype Holders = Holders(phaser: HolderState, chorus: HolderState, reverb: HolderState, delay: HolderState)
  {
    /** The state of holder `p`. */
    function StateOf(p: Holder): HolderState {
      match p
      case PhaserHolder => phaser
      case ChorusHolder => chorus
      case ReverbHolder => reverb
      case DelayHolder => delay
    }

    /** Replaces the state of holder `p`; the other holders keep theirs. */
    function With(p: Holder, s: HolderState): (h: Holders)
      ensures h.StateOf(p) == s
      ensures forall q :: q != p ==> h.StateOf(q) == StateOf(q)
    {
      match p
      case PhaserHolder => this.(phaser := s)
      case ChorusHolder => this.(chorus := s)
      case ReverbHolder => this.(reverb := s)
      case DelayHolder => this.(delay := s)
    }
  }

  /** A processor slot: null, or a pointer to one of the holders. */
  datatype Slot = Null | Points(holder: Holder)

  /**
   * The slot an option selects: its holder for a real stage, null for
   * the count marker. Distinct stages select distinct holders.
   */
  function HolderFor(o: DspOption): (s: Slot)
    ensures s.Null? <==> o == EndOfList
    ensures s.Points? ==> KindOf(s.holder) == o
  {
    match o
    case Phaser => Points(PhaserHolder)
    case Chorus => Points(ChorusHolder)
    case Reverb => Points(ReverbHolder)
    case Delay => Points(DelayHolder)
    case EndOfList => Null
  }

  /** Every holder is selected by its own option and by no other. */
  lemma HolderForSelectsExactlyOne(o: DspOption, p: Holder)
    ensures HolderFor(o) == Points(p) <==> o == KindOf(p)
  {
  }

  /** `DSP_Pointers`: one processor slot per order slot. */
  type DspPointers = s: seq<Slot> | |s| == StageCount witness [Null, Null, Null, Null]

  /** The queue type of `dspOrderFifo`: orders over `DefaultSize` (30) slots. */
  predicate IsOrderFifo(q: Fifo<DspOrder>) {
    q.Valid() && |q.buffers| == DefaultSize
  }
}
