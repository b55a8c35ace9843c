# Patriarch effect-order handoff, in Dafny

This project models the effect-order part of the Patriarch phaser/chorus/reverb/delay plugin:

- the fixed-slot exchange queue `Fifo::Fifo<T, Size>`: `push`, `pull`, `exchange`, `prepare` and `getNumAvailableForReading`;
- the `DSPOption` option and order types;
- the order handling of `PluginProcessor`. Each `processBlock` clears the surplus output channels. It drains the order queue and keeps the last order. It adopts that order unless it is the value-initialised all-`Phaser` order. It then maps the order slots to processor holders and runs them in slot order. `prepareToPlay` sets the default order, and `isBusesLayoutSupported` checks the bus layout;
- the frequency text converters `hzFromString` / `stringFromHz` and the parameter layout of `Parameters`.

Modules:

- `Fifo` (fifo.dfy) is the queue. It is a ring of slots with a read position, a count and a usable capacity `cap`, where `1 <= cap <= Size`. Its abstraction `Contents()` is the queued sequence. `Run` performs a sequence of calls. The lemmas about `Run` state first-in-first-out order and the count of elements available.
- `DspOption` (dsp_option.dfy) holds the options, `DspOrder` (one option per slot, `StageCount` = 4 slots), the four processor holders `Holder` with their states `Holders`, and the pointer-slot type `DspPointers`.
- `Processor` (processor.dfy) holds the plugin state `(orderFifo, dspOrder, currentDspOrder)`. It contains the pure order step `OrderStep`, the schedule of processors that run, and `ProcessBlock`, which performs the clearing, mapping and running loops.
- `Params` (params.dfy) holds the text converters over exact reals, and the declared ranges, defaults and note list.

A push onto a full order queue fails, and the new order is dropped. Overfilling therefore keeps the EARLIEST `cap` orders, not the most recent ones (`Fifo.OverfillKeepsEarliest`). After an overflow, the next block adopts the last order that fitted, not the one requested last (`Processor.FullQueueKeepsLastFittingOrder`).

## Model

| member | source | states |
|---|---|---|
| Fifo.Empty | source/Pater_Fifo.h:133-135 | a new queue has `Size` slots, the given capacity and nothing queued |
| Fifo.Push | source/Pater_Fifo.h:53-63 | succeeds iff fewer than `cap` elements are queued; then `t` is appended at the back; otherwise it returns false and the queue is unchanged |
| Fifo.Pull | source/Pater_Fifo.h:65-75 | on an empty queue returns false, and `t` and the queue are unchanged; otherwise returns true, `t` is the front element, the front is removed and the slot keeps its copy |
| Fifo.Exchange | source/Pater_Fifo.h:77-127 | generic branch: on an empty queue returns false with `t` and queue unchanged; otherwise `t` receives the front element, the front is consumed, and the freed slot receives `t`'s former value |
| Fifo.ExchangeVector | source/Pater_Fifo.h:95-105 | vector branch: `t` always ends with the front vector and the front is consumed; a shorter `t` leaves the slot's vector in place, otherwise the slot receives `t`'s old vector |
| Fifo.Prepare | source/Pater_Fifo.h:42-51 | after `prepare(n)` every slot is a vector of exactly `n` zeros, and the read position and count are unchanged |
| Fifo.NumAvailableForReading | source/Pater_Fifo.h:129-132 | equals the number of queued elements, and is at most `cap` and at most `Size` |
| Fifo.Step | source/Pater_Fifo.h:53-79 | one call keeps the balance: queued plus accepted equals delivered plus still queued |
| Fifo.RunIsFifo | source/Pater_Fifo.h:53-75 | across any sequence of calls, elements are delivered in the order they were accepted, with nothing lost or duplicated |
| Fifo.NumAvailableCountsSuccesses | source/Pater_Fifo.h:129-135 | available = initially queued + successful pushes - successful pulls and exchanges, and never exceeds `cap` or `Size` |
| Fifo.PushAllKeepsEarliest | source/Pater_Fifo.h:53-63 | a run of pushes accepts exactly its first `cap - count` elements and discards the rest |
| Fifo.OverfillKeepsEarliest | source/Pater_Fifo.h:53-63 | overfilling an empty queue leaves exactly the first `cap` pushed elements queued, in push order |
| DspOption.FromOrdinal | source/Pater_DSPOption.h:13-20 | enumerator values are 0..4 in declaration order, and each value names exactly one enumerator |
| DspOption.StagesBelowCountMarker | source/Pater_DSPOption.h:13-22 | `END_OF_LIST` is 4 and is the slot count; the real stages are exactly the enumerators below it |
| DspOption.ValueInitialised | source/Pater_DSPOption.h:13-22 | a value-initialised order holds enumerator 0 (`Phaser`) in every one of its 4 slots |
| DspOption.KindOf | source/Pater_DSPOption.h:52-55 | each of the four holders stands for a real stage, never for the count marker |
| DspOption.HolderFor | source/PluginProcessor.cpp:176-197 | a real stage selects its own holder; `END_OF_LIST` selects null |
| DspOption.HolderForSelectsExactlyOne | source/Pater_DSPOption.h:52-55 | a holder is selected by its own option and by no other, so distinct stages select distinct holders |
| Processor.Created | source/PluginProcessor.h:59-60 | a new processor has an empty 30-slot order queue, and its current order is all `Phaser` |
| Processor.PrepareToPlay | source/PluginProcessor.cpp:103-108 | `dspOrder` becomes the enumerators in declaration order (Phaser, Chorus, Reverb, Delay), `currentDspOrder` equals it, and the queue is untouched |
| Processor.DrainOrders | source/PluginProcessor.cpp:161-166 | after the pull loop the queue is empty; `newDSPOrder` is the last element pulled, or its initial value if nothing was pulled |
| Processor.Adopt | source/PluginProcessor.cpp:167-169 | the current order changes iff the drained order differs from all-`Phaser` and from the current order |
| Processor.OrderStep | source/PluginProcessor.cpp:161-169 | the queue ends empty; the current order becomes the last queued order if there is one and it is not all-`Phaser`, otherwise it is kept |
| Processor.PointersFor | source/PluginProcessor.cpp:171-198 | pointer slot `i` is the holder named by order slot `i`, or null for `END_OF_LIST` |
| Processor.ScheduleAppend | source/PluginProcessor.cpp:203-209 | the run follows slot order: a chain split in two runs all of its first part before its second |
| Processor.ScheduleMultiplicity | source/PluginProcessor.cpp:172-209 | each holder runs exactly as many times as the order names its stage, so a stage listed twice runs twice and `END_OF_LIST` slots run nothing |
| Processor.ClearSurplus | source/PluginProcessor.cpp:155-159 | channels with index in [numInputs, numOutputs) become silent at their own length; every other channel is untouched |
| Processor.ApplyAll | source/PluginProcessor.cpp:203-209 | running a chain leaves every holder that is not in it with its state unchanged |
| Processor.RepeatedStageSeesItsOwnState | source/PluginProcessor.cpp:176-209 | a stage listed twice in a row, anywhere in the chain, points both slots at the same holder, so its second run starts from the state and buffer its first run left |
| Processor.ClearChannels | source/PluginProcessor.cpp:155-159 | the clearing loop silences exactly the channels in [numInputs, numOutputs), at their own length, and leaves every other channel as it was |
| Processor.MapPointers | source/PluginProcessor.cpp:172-198 | the switch loop fills pointer slot `i` with the holder order slot `i` names, and leaves it null for `END_OF_LIST` |
| Processor.RunChain | source/PluginProcessor.cpp:200-209 | the run loop runs the holders of the non-null slots in slot order, each on the previous holder's output and on its own state |
| Processor.ProcessBlock | source/PluginProcessor.cpp:149-210 | one block: the order step (queue drained, `dspOrder` kept, the last queued order adopted unless it is all-`Phaser`), then the cleared buffer is passed through the non-null holders of the current order, in increasing slot order, each on its own persisting state; each holder runs as often as the adopted order names it, and holders the order does not name keep their state |
| Processor.LastOrderWins | source/PluginProcessor.cpp:161-169 | pushing order A then order B (B not all-`Phaser`) before a block adopts B, whatever A and the earlier queued orders were |
| Processor.FullQueueKeepsLastFittingOrder | source/PluginProcessor.cpp:161-169 | on a full queue, pushing A and then B both fail and leave the queue as it was; the next block adopts the last order that fitted (when it is not all-`Phaser`), not B |
| Processor.AllPhaserOrderIgnored | source/PluginProcessor.cpp:168-169 | pushing the all-`Phaser` order last is ignored silently, and the current order is kept |
| Processor.PreparedChainRunsEachStageOnce | source/PluginProcessor.cpp:104-108 | after `prepareToPlay`, a block with nothing queued runs phaser, chorus, reverb, delay once each, in that order |
| Processor.UnpreparedChainRunsPhaserFourTimes | source/PluginProcessor.h:60 | before `prepareToPlay`, a block with nothing queued runs the phaser four times |
| Processor.IsBusesLayoutSupported | source/PluginProcessor.cpp:120-140 | a MIDI effect accepts all layouts; a synth accepts exactly the layouts with a mono or stereo output; any other build accepts exactly those whose output is mono or stereo and whose input equals the output |
| Processor.DeclaredLayoutSupported | source/PluginProcessor.cpp:8-16 | every build accepts the bus layout its constructor declares |
| Params.TruncateToInt | source/Pater_Params.cpp:53 | `int(value)` truncates toward zero |
| Params.RoundTo | source/Pater_Params.cpp:57-61 | rendering with `places` decimals gives a whole number of units of the last decimal, and changes the value by at most half such a unit |
| Params.StringFromHz | source/Pater_Params.cpp:49-63 | below 1000 prints the truncated hertz with unit "Hz"; [1000, 10000) prints kHz to 2 decimals (within 5 Hz); 10000 and up prints kHz to 1 decimal (within 50 Hz); the printed number has no digits beyond its decimals |
| Params.HzFromStringReadsSmallNumbersAsKHz | source/Pater_Params.cpp:38-46 | a number below 20 is scaled by 1000, any other is returned unchanged, the unit is ignored, and [0.02, 20000] lands in [20, 20000] |
| Params.HzTextRoundTrip | source/Pater_Params.cpp:38-54 | each whole hertz value in [20, 1000) renders and reads back exactly |
| Params.KHzTextRoundTrip | source/Pater_Params.cpp:38-62 | values in [1000, 19950) read back as the printed kHz number times 1000: within 5 Hz below 10000 and within 50 Hz above |
| Params.TopOfRangeReadsBackAs20Hz | source/Pater_Params.cpp:38-62 | every value in [19950, 20000] renders as "20.0kHz", and that text reads back as 20 Hz |
| Params.HzFromStringUnitAware | source/Pater_Params.cpp:38-46 | corrected reading: a "kHz" text is scaled by 1000, an "Hz" text is taken as is, and a bare number reads as before |
| Params.UnitAwareRoundTrip | source/Pater_Params.cpp:38-63 | with the corrected reading, every centre frequency in [20, 20000] reads back within its rendering error, and 20000 reads back exactly |
| Params.RateTextReadsBackAsZero | source/Pater_Params.cpp:70-75 | every rate value in [0.01, 1) renders as "0Hz", which reads back as 0, below the rate range; the rate typed as a bare number reads back 1000 times too large, above the range |
| Params.StringFromRate | source/Pater_Params.cpp:70-75 | corrected rate text: hertz with two decimals, the nearest multiple of the 0.01 Hz step |
| Params.RateTextRoundTrip | source/Pater_Params.cpp:70-75 | with the corrected rate text, every rate in [0.01, 1] reads back inside the range within 0.005 Hz, and every rate on the 0.01 grid reads back exactly |
| Params.ParameterLayout | source/Pater_Params.cpp:65-125 | eight parameters; every default lies in its range or choice list; both parameters with frequency text have strictly positive ranges |
| Params.DeclaredRangesAndDefaults | source/Pater_Params.cpp:70-122 | rate [0.01, 1] default 0.2; centre [20, 20000] default 1000; depth, warmth, mix [0, 1]; feedback [-1, 1]; 16 note lengths with default index 9 = "1/4" |

## Left out

- Atomics and threading: the queue is modelled sequentially. Its single-producer/single-consumer discipline and `juce::AbstractFifo` are not part of this model.
- Fifo.Push: the usable capacity `cap` is kept abstract (`1 <= cap <= Size`), because the index manager that fixes it is library code not shown here.
- The `ReferenceCountedObjectPtr`, `ReferenceCountedArray` and `AudioBuffer` branches of `exchange`, and `prepare(numChannels, numSamples)`: their only guarantees are debug assertions over library types.
- `DSP_Choice` forwarding and the `juce::dsp` phaser, chorus, reverb and delay: they are library DSP. A holder's effect is the parameter `process` of `ProcessBlock`, a function from the holder, its state and a buffer to its next state and the processed buffer. Their own `prepare`/`reset` calls in `prepareToPlay`/`releaseResources` are not modelled.
- Processor.ProcessBlock: `process` is a parameter, and a holder's state is a sequence of numbers. Nothing is promised about what a holder computes, only about which holders run, in what order, and on whose state. The queue after the block is stated by its contents (empty), capacity and size, not slot by slot: the drained slots keep stale copies that no later call reads, and `Processor.OrderStep`, which the block applies, pins them exactly.
- The `jassertfalse` on an `END_OF_LIST` slot: it is a debug-build assertion. The release behaviour (the slot stays null and is skipped) is what the model states.
- `Parameters` constructor, `prepareToPlay`, `reset`, `smoothen` and `update`: these are pointer casts into the parameter tree and float smoothing, and they use members that `Pater_Params.h` does not declare. The parameter IDs are not declared either, so the layout identifies parameters by display name.
- `PluginProcessor::createParameterLayout` is left out because it returns an empty layout that nothing uses. The tree is built from `Parameters::createParameterLayout`.
- Editor, rotary knob, look-and-feel, stereo phaser, constants file, state save/load stubs, program-name and MIDI stubs, `getName` and `getTailLengthSeconds` are all left out. They are UI or host glue, with no behaviour of the order handoff.
- The FFT analyser and the equaliser are left out: their sources are not part of this model.
- Params.StringFromHz: float formatting is replaced by round-half-up on exact reals (`RoundTo`). A value that sits on a rounding boundary in binary floating point may print differently.
- Params.HzFromStringReadsSmallNumbersAsKHz: `getFloatValue` parsing of arbitrary user text is abstracted. A text is taken to be its leading number plus a trailing unit.
- Single-precision arithmetic is left out (`value * 1000.0f`, `value / 1000.0f`, the float literals of the ranges). All of it is exact real arithmetic here.

## Findings

| source | as written | input that shows it | evidently intended | confidence | as-written member | corrected member |
|---|---|---|---|---|---|---|
| source/Pater_Params.cpp:41 | `hzFromString` treats any number below 20 as kHz and ignores the unit, while `stringFromHz` prints 19950-20000 Hz as "20.0kHz" | the centre frequency's maximum 20000 Hz renders "20.0kHz", which reads back as 20 Hz | a text the converter printed reads back as (about) the value it printed, so "20.0kHz" reads as 20000 Hz | medium, not executed | Params.TopOfRangeReadsBackAs20Hz | Params.HzFromStringUnitAware |
| source/Pater_Params.cpp:74-75 | the rate parameter, range [0.01, 1] Hz, uses the same converters: `stringFromHz` prints `int(value)`, and `hzFromString` reads a number below 20 as kHz | every rate below 1 Hz, such as the default 0.2, renders "0Hz", which reads back as 0, below the range; a typed "0.5" reads as 500 | a rate text shows the rate at its 0.01 Hz resolution and reads back as that rate | medium, not executed | Params.RateTextReadsBackAsZero | Params.StringFromRate |

The corrected reading honours the printed unit. `Params.UnitAwareRoundTrip` proves that it reads every centre frequency back within its rendering error, and reads 20000 back exactly. Bare numbers keep the below-20-means-kHz shorthand.

The corrected rate text prints hertz with two decimals and reads the number back as hertz. `Params.RateTextRoundTrip` proves that every rate reads back inside its range within half a step, and that a rate on the step grid reads back exactly.
