# Dre-Dimura in Dafny

Dre-Dimura is an audio plugin built on JUCE. It is a tube-preamp track with fifteen colour effects. A C++ back end runs the audio:
- the processor holds the parameters and decides the bus layout;
- a preamp runs through a transformer stage, a tube stage, a tone shelf, a DC blocker and an output gain;
- the effects sit in three families (cathode, filament, steel plate);
- an editor hosts a web page in a web view and serves it its resources.

The web front end, written in TypeScript and React, shows one of three hardware "skins" in a carousel. It binds knobs, faders and toggles to host parameters and draws level meters from the peaks the host sends.

This project models that core and proves properties of it.

| file | models |
|---|---|
| `common.dfy` | shared arithmetic: min/max/clamp, truncation toward zero, JavaScript's `Math.round`, modular-index facts |
| `juce.dfy` | the JUCE library calls the core relies on: one-pole IIR filters, linear parameter ramps, `tanh`, `decibelsToGain`, `std::round`. Their numeric results are fields of `Externals`, so they stay uninterpreted |
| `effect_base.dfy` | what the effects share: the frame-by-frame process loop (`Run`), the "skip while the mix is below 0.001" rule, ring-buffer positions, resizing, hard clipping, dry/wet blending |
| `cascade.dfy`, `prism.dfy`, `haze.dfy`, `rust.dfy`, `grind.dfy`, `fracture.dfy`, `scorch.dfy` | seven effects of `Source/Effects/EffectsDSP.cpp`, each as a class with its buffers, plus a pure `Step` function that its `Process` method is proved against |
| `preamp_dsp.dfy` | `Source/PreampDSP.{h,cpp}`: the static curves, the parameter mappings, prepare/reset of the chain and of the seven effects, and the in-place block process over an `array2` (channel × sample) |
| `plugin_processor.dfy` | `Source/PluginProcessor.cpp`: the parameter layout and its display texts, the bus-layout rule, program queries, and `processBlock` (clearing the unused outputs, bypass, preamp) |
| `plugin_editor.dfy` | `Source/PluginEditor.cpp`: the resource provider (path, MIME type), the window size, and the activation-status messages |
| `parameter_ids.dfy` | `Source/ParameterIDs.h`: the identifier table |
| `juce_param.dfy` | `web-ui/src/hooks/useJuceParam.ts`: the slider and toggle bindings to the host's parameter states, and the host's listener registry |
| `audio_levels.dfy` | `web-ui/src/hooks/useAudioLevels.ts`: the level subscription |
| `pointer.dfy`, `knob.dfy`, `fader.dfy`, `effect_module.dfy` | the pointer-drag controls and the window listeners they attach |
| `app.dfy` | `web-ui/src/App.tsx`: the skin carousel with its timers, the bound level, and the filament slider |
| `meters.dfy`, `schaffer.dfy`, `re201.dfy`, `tascam.dfy`, `ep3.dfy`, `vu_meter.dfy` | the skin modules' level, pilot-light and preset displays |
| `text.dfy` | decimal text of integers, used to read back what the parameters display |

Modelling conventions:
- Samples and parameter values are `real`.
- A vector the source resizes is a `seq<real>` field of a grouped `EffectState`, reassigned by the methods.
- The preamp's audio block is an `array2<real>` processed in place.
- Every effect's `Process` method loops over frames. Its `ensures` ties the new buffers and state to `EffectBase.Run` of the effect's `Step` function. Lemmas about `Step` state what a frame does.
- Each web control is a class. Its handlers either update a pure model (`Model() == Step(old(Model()), event)`) or append what they would report to their owner to a `calls` log.
- `undefined`/`null` is `Option`.
- A `setTimeout` firing is an explicit `FireTimer` event.
- The host bridge's event listeners are a registry of live listener ids.

Facts about the code the model makes explicit:
- Cascade's fourth tap is `0.5 * sampleRate - 1` samples, so it fits the line exactly (`Source/Effects/EffectsDSP.cpp:455-458`).
- Cascade's and Prism's `reset` clear their lines but keep the write position.
- Fracture and Scorch have no state of their own, so their `reset` is the shared one, which only snaps the mix ramp.
- Haze keeps `feedbackL`/`feedbackR` fields that nothing reads.
- Prism's and Grind's feedback fields are only ever zeroed.
- `processBlock` clears the unused outputs before it tests bypass, so a bypassed block still has those outputs cleared.
- Nothing in the plug-in calls an effect's `process`: the preamp's `process` runs only the tube, tone, soft-clip and DC-blocker chain (`Source/PreampDSP.h:62-122`), and the processor calls only that (`Source/PluginProcessor.cpp:203`). The effect models' `Process` methods are therefore standalone models of code the plug-in compiles but never runs. Each models both the block it skips and the block it processes.
- A bypassed LED bar still lights its bottom segment, because the bottom threshold is 0 and the shown level is 0 (`Meters.BypassedBarShowsOneSegment`).
- `useAudioLevels` does no smoothing and makes up no signal outside the host: it copies each field of an event, with `?? 0`, and otherwise leaves the levels at 0.

## Model

| member | source | states |
|---|---|---|
| EffectBase.Run | Source/Effects/EffectsDSP.cpp:468-501 | folding a frame step over n frames gives exactly n output samples per channel |
| EffectBase.RunLast | Source/Effects/EffectsDSP.cpp:470-500 | the state after n frames is one step from the state after n-1 frames |
| EffectBase.RunSnoc | Source/Effects/EffectsDSP.cpp:470-500 | one more frame appends that frame's two output samples and keeps the earlier outputs |
| EffectBase.QuietBlockIsIdentity | Source/Effects/EffectsDSP.cpp:472-473 | if a step leaves frames whose mix is below 0.001 untouched, then a block of such frames returns its input and its starting state |
| EffectBase.Wrap | Source/Effects/EffectsDSP.cpp:496 | the advanced write position stays inside the line |
| EffectBase.WrapIsMod | Source/Effects/EffectsDSP.cpp:496 | advancing the write position is `(pos + 1) % size` |
| EffectBase.RingPos | Source/Effects/EffectsDSP.cpp:496 | after any number of frames the write position is still inside the line |
| EffectBase.RingPosClosedForm | Source/Effects/EffectsDSP.cpp:496 | after k frames the write position is `(p + k) % size` |
| EffectBase.RingPosPeriod | Source/Effects/EffectsDSP.cpp:618 | a full turn of `size` frames returns the write position to where it started |
| EffectBase.RingPosDistinct | Source/Effects/EffectsDSP.cpp:618 | within one turn every frame writes a different slot |
| EffectBase.Resize | Source/Effects/EffectsDSP.cpp:450-451 | `resize(n, 0)` has length n, keeps the old prefix and pads with zeros |
| EffectBase.Zeros | Source/Effects/EffectsDSP.cpp:464-465 | `std::fill` with 0 gives a silent line of the same length |
| EffectBase.HardClip | Source/Effects/EffectsDSP.cpp:346-347 | the clip lies in [-1, 1], is the identity inside it and saturates to ±1 outside it |
| EffectBase.BlendBetween | Source/Effects/EffectsDSP.cpp:355-356 | the crossfade `dry + (wet - dry)*mix` for a mix in [0, 1] lies between dry and wet, is dry at 0 and wet at 1 |
| Cascade.TapDelays | Source/Effects/EffectsDSP.cpp:455-458 | exactly four taps, one per tap gain |
| Cascade.BufferLength | Source/Effects/EffectsDSP.cpp:449 | for a non-negative rate the line holds 0.5 s of samples, rounded down |
| Cascade.TapsFit | Source/Effects/EffectsDSP.cpp:449-458 | whenever prepare gives a non-empty line, every tap delay lies in [0, line length] |
| Cascade.TapsShorterThanLine | Source/Effects/EffectsDSP.cpp:455-458 | from 8 Hz up every tap is at most `size - 1`, so each read lands inside the line |
| Cascade.ReadIndex | Source/Effects/EffectsDSP.cpp:482-483 | the wrapped read position lies in [0, size) |
| Cascade.ReadIndexIsMod | Source/Effects/EffectsDSP.cpp:482-483 | the wrapped read position is `(pos - delay) mod size` |
| Cascade.SilentLineNoEcho | Source/Effects/EffectsDSP.cpp:479-486 | a silent line contributes no echo |
| Cascade.TapSum | Source/Effects/EffectsDSP.cpp:480-486 | over a line within [-1, 1] the weighted sum of the first t taps lies within the sum of their gains |
| Cascade.FullScaleWetBound | Source/Effects/EffectsDSP.cpp:480-490 | a line within [-1, 1] gives a normalised wet signal within [-0.875, 0.875] |
| Cascade.Step | Source/Effects/EffectsDSP.cpp:472-473 | a frame whose mix is below 0.001 leaves the sample and the line untouched |
| Cascade.StepSkipsQuietFrames | Source/Effects/EffectsDSP.cpp:472-473 | the step obeys the shared skip rule, so a whole quiet block is the identity |
| Cascade.StepActive | Source/Effects/EffectsDSP.cpp:475-499 | an active frame outputs `dry + wet*mix` with wet = 0.5 × the weighted tap sum, overwrites only the write slot with `dry + wet*0.15`, keeps the taps and advances the position |
| Cascade.CascadeDSP.constructor | Source/Effects/EffectsDSP.h:173-178 | empty lines, position 0, mix 0 at 44.1 kHz |
| Cascade.CascadeDSP.Prepare | Source/Effects/EffectsDSP.cpp:444-459 | lines resized to half a second (prefix kept, zero padded), position 0, the four taps set, mix ramp reset at the new rate |
| Cascade.CascadeDSP.Reset | Source/Effects/EffectsDSP.cpp:461-466 | lines zeroed at the same length, write position and taps kept, mix snapped, a prepared effect stays prepared |
| Cascade.CascadeDSP.SetMix | Source/Effects/EffectsDSP.h:27 | only the mix ramp changes, by `SetTarget`: a repeated target leaves it untouched, a new one starts a fresh ramp; lines, position and rate are kept |
| Cascade.CascadeDSP.SumTaps | Source/Effects/EffectsDSP.cpp:479-486 | the tap loop returns the weighted tap sum of each channel |
| Cascade.CascadeDSP.ProcessFrame | Source/Effects/EffectsDSP.cpp:475-499 | one active frame in place equals `Step`, the mix ramp untouched |
| Cascade.CascadeDSP.Tick | Source/Effects/EffectsDSP.cpp:470-500 | one loop iteration extends `Run(Step)` by frame i, leaves later samples and advances the ramp once |
| Cascade.CascadeDSP.Process | Source/Effects/EffectsDSP.cpp:468-501 | the first numSamples samples and the state afterwards are `Run(Step)` of the inputs and the ramp's values; later samples are untouched; the ramp advances numSamples times |
| Prism.Step | Source/Effects/EffectsDSP.cpp:598-599 | a frame whose mix is below 0.001 leaves the sample and the comb untouched |
| Prism.BufferLength | Source/Effects/EffectsDSP.cpp:579 | for a non-negative rate the comb holds 7 ms of samples, rounded down |
| Prism.CombFeedback | Source/Effects/EffectsDSP.cpp:610 | a mix in [0, 1] gives a feedback in [0.5, 0.85], below 1 |
| Prism.CombWet | Source/Effects/EffectsDSP.cpp:610-612 | an empty slot gives back the dry sample |
| Prism.CombWetBetween | Source/Effects/EffectsDSP.cpp:610-612 | for a mix in [0, 1] the comb adds between 50% and 85% of a non-negative delayed sample |
| Prism.CombOut | Source/Effects/EffectsDSP.cpp:620-621 | at mix 0, or when the comb adds nothing, the output is dry; at mix 1 it is 30% dry and 70% comb |
| Prism.StepActive | Source/Effects/EffectsDSP.cpp:601-621 | an active frame reads the slot it writes, stores `dry + delayed*(0.5 + 0.35 mix)` there only, outputs `dry + (wet - dry)*mix*0.7` and advances the position |
| Prism.StepKeepsOtherSlots | Source/Effects/EffectsDSP.cpp:615-616 | a frame writes only the current slot |
| Prism.StepSkipsQuietFrames | Source/Effects/EffectsDSP.cpp:598-599 | the step obeys the shared skip rule |
| Prism.PositionAfter | Source/Effects/EffectsDSP.cpp:618 | over i active frames the line length is kept and the position is `RingPos` i steps on |
| Prism.SlotHolds | Source/Effects/EffectsDSP.cpp:605-618 | a slot written at one frame keeps its value until the comb comes round to it again |
| Prism.EchoAfterOneTurn | Source/Effects/EffectsDSP.cpp:605-618 | the comb reads back, exactly one line length later, the value it wrote at that slot |
| Prism.PrismDSP.constructor | Source/Effects/EffectsDSP.h:210-213 | empty comb, position 0, mix 0 |
| Prism.PrismDSP.Prepare | Source/Effects/EffectsDSP.cpp:574-584 | comb lines resized to 7 ms (prefix kept, zero padded), position 0, feedback 0, mix reset |
| Prism.PrismDSP.Reset | Source/Effects/EffectsDSP.cpp:586-592 | comb zeroed at the same length, position kept, mix snapped |
| Prism.PrismDSP.SetMix | Source/Effects/EffectsDSP.h:27 | only the mix ramp changes, by `SetTarget`; a repeated target leaves it untouched |
| Prism.PrismDSP.ProcessFrame | Source/Effects/EffectsDSP.cpp:601-621 | one active frame in place equals `Step` |
| Prism.PrismDSP.Tick | Source/Effects/EffectsDSP.cpp:596-622 | one loop iteration extends `Run(Step)` by frame i |
| Prism.PrismDSP.Process | Source/Effects/EffectsDSP.cpp:594-623 | samples and state afterwards are `Run(Step)` over the block; later samples and the feedback fields are untouched |
| Haze.Step | Source/Effects/EffectsDSP.cpp:102-103 | a frame whose mix is below 0.001 leaves the samples, the lines and the filters untouched |
| Haze.ShortLength | Source/Effects/EffectsDSP.cpp:69 | for a non-negative rate the short lines hold 37 ms of samples, rounded down |
| Haze.LongLength | Source/Effects/EffectsDSP.cpp:70 | for a non-negative rate the long lines hold 53 ms of samples, rounded down |
| Haze.StepSkipsQuietFrames | Source/Effects/EffectsDSP.cpp:102-103 | the step obeys the shared skip rule |
| Haze.StepActive | Source/Effects/EffectsDSP.cpp:105-129 | an active frame low-passes 60/40 of both taps, feeds each short line the dry sample plus the other channel's reverb and each long line its own, writes only the current slots, advances both positions and outputs `dry + wet*mix` (`Mixed`) |
| Haze.HazeDSP.constructor | Source/Effects/EffectsDSP.h:69-74 | empty lines, positions 0, fresh filters, feedback 0 |
| Haze.HazeDSP.Prepare | Source/Effects/EffectsDSP.cpp:64-84 | lines resized to the short and long lengths, positions 0, both filters redesigned for the rate, mix reset |
| Haze.HazeDSP.Reset | Source/Effects/EffectsDSP.cpp:86-96 | lines zeroed at the same lengths, filters reset, positions kept, mix snapped |
| Haze.HazeDSP.SetMix | Source/Effects/EffectsDSP.h:27 | only the mix ramp changes, by `SetTarget`; a repeated target leaves it untouched |
| Haze.HazeDSP.ProcessFrame | Source/Effects/EffectsDSP.cpp:105-129 | one active frame in place equals `Step` |
| Haze.HazeDSP.Tick | Source/Effects/EffectsDSP.cpp:100-130 | one loop iteration extends `Run(Step)` by frame i |
| Haze.HazeDSP.Process | Source/Effects/EffectsDSP.cpp:98-131 | samples and state afterwards are `Run(Step)` over the block; the unread feedback fields are untouched |
| Rust.InputLevel | Source/Effects/EffectsDSP.cpp:708 | the detector level is the larger of the two channel magnitudes |
| Rust.ShortLength | Source/Effects/EffectsDSP.cpp:671 | for a non-negative rate the short lines hold 23 ms of samples, rounded down |
| Rust.LongLength | Source/Effects/EffectsDSP.cpp:672 | for a non-negative rate the long lines hold 47 ms of samples, rounded down |
| Rust.Follow | Source/Effects/EffectsDSP.cpp:709-710 | the envelope moves towards the level without passing it: up when the level is higher, down when lower, still when equal |
| Rust.Gate | Source/Effects/EffectsDSP.cpp:713 | the gate lies in [0, 1] and is fully open above the threshold |
| Rust.GateMonotone | Source/Effects/EffectsDSP.cpp:713 | a larger envelope never closes the gate further |
| Rust.Step | Source/Effects/EffectsDSP.cpp:701-702 | a frame whose mix is below 0.001 leaves the samples, the lines and the envelope untouched |
| Rust.StepSkipsQuietFrames | Source/Effects/EffectsDSP.cpp:701-702 | the step obeys the shared skip rule |
| Rust.StepActive | Source/Effects/EffectsDSP.cpp:704-735 | an active frame updates the envelope by `Follow`, feeds the short lines the dry sample plus the other channel's gated long tap and the long lines their own short tap, writes only the current slots, advances both positions and outputs `dry + wet*mix` (`Mixed`) with the gated reflections as wet |
| Rust.ClosedGateIsDry | Source/Effects/EffectsDSP.cpp:713-729 | with a silent follower the output is the dry sample and the short lines hear only the dry input |
| Rust.EnvelopeBounded | Source/Effects/EffectsDSP.cpp:707-710 | over a run the envelope stays in [0, peak] when it starts there and no input level exceeds that peak |
| Rust.RustDSP.constructor | Source/Effects/EffectsDSP.h:242-245 | empty lines, positions 0, envelope 0 |
| Rust.RustDSP.Prepare | Source/Effects/EffectsDSP.cpp:666-682 | lines resized to the short and long lengths, positions and envelope 0, mix reset |
| Rust.RustDSP.Reset | Source/Effects/EffectsDSP.cpp:684-692 | lines zeroed at the same lengths, envelope 0, positions kept, mix snapped |
| Rust.RustDSP.SetMix | Source/Effects/EffectsDSP.h:27 | only the mix ramp changes, by `SetTarget`; a repeated target leaves it untouched |
| Rust.RustDSP.ProcessFrame | Source/Effects/EffectsDSP.cpp:704-735 | one active frame in place equals `Step` |
| Rust.RustDSP.Tick | Source/Effects/EffectsDSP.cpp:699-736 | one loop iteration extends `Run(Step)` by frame i |
| Rust.RustDSP.Process | Source/Effects/EffectsDSP.cpp:694-737 | samples and state afterwards are `Run(Step)` over the block |
| Grind.HoldFactorRange | Source/Effects/EffectsDSP.cpp:775 | the hold factor is a whole number from 1 to 8, 8 at full mix |
| Grind.BufferLength | Source/Effects/EffectsDSP.cpp:745 | for a non-negative rate the line holds 0.3 s of samples, rounded down |
| Grind.HoldFactor | Source/Effects/EffectsDSP.cpp:775 | a non-negative mix holds each sample for at least one frame |
| Grind.Bits | Source/Effects/EffectsDSP.cpp:787 | the bit depth lies between 4 and 16 for a mix in [0, 1] |
| Grind.Hold | Source/Effects/EffectsDSP.cpp:775-791 | the counter stays below the factor; it wraps to 0 exactly when it reaches the factor, and then the line's current slot is re-read and quantised; otherwise the held samples are kept |
| Grind.Step | Source/Effects/EffectsDSP.cpp:768-769 | a frame whose mix is below 0.001 leaves the samples, the line, the counter and the held samples untouched |
| Grind.StepSkipsQuietFrames | Source/Effects/EffectsDSP.cpp:768-769 | the step obeys the shared skip rule |
| Grind.StepActive | Source/Effects/EffectsDSP.cpp:771-800 | an active frame does the hold step, writes `dry + held*0.5` to the current slot only, advances the position and outputs `dry + held*mix` (`Mixed`) |
| Grind.CounterCycle | Source/Effects/EffectsDSP.cpp:776-779 | under a constant mix the counter counts the frames since the last new sample |
| Grind.CounterWraps | Source/Effects/EffectsDSP.cpp:776-779 | after exactly hold-factor frames the counter is back at 0 |
| Grind.GrindDSP.constructor | Source/Effects/EffectsDSP.h:259-264 | empty line, position, counter, held samples and feedback 0 |
| Grind.GrindDSP.Prepare | Source/Effects/EffectsDSP.cpp:740-752 | line resized, position, counter, held samples and feedback 0, mix reset |
| Grind.GrindDSP.Reset | Source/Effects/EffectsDSP.cpp:754-762 | line zeroed at the same length, counter and held samples 0, position kept, mix snapped |
| Grind.GrindDSP.SetMix | Source/Effects/EffectsDSP.h:27 | only the mix ramp changes, by `SetTarget`; a repeated target leaves it untouched |
| Grind.GrindDSP.ProcessFrame | Source/Effects/EffectsDSP.cpp:771-800 | one active frame in place equals `Step` |
| Grind.GrindDSP.Tick | Source/Effects/EffectsDSP.cpp:766-801 | one loop iteration extends `Run(Step)` by frame i |
| Grind.GrindDSP.Process | Source/Effects/EffectsDSP.cpp:764-802 | samples and state afterwards are `Run(Step)` over the block |
| Fracture.Gain | Source/Effects/EffectsDSP.cpp:345 | the pre-gain lies between 1 and 5 for a mix in [0, 1] |
| Fracture.Bits | Source/Effects/EffectsDSP.cpp:350 | the bit depth lies between 8 and 12 for a mix in [0, 1] |
| Fracture.ClipsBeforeQuantising | Source/Effects/EffectsDSP.cpp:345-353 | the quantiser only ever sees a sample in [-1, 1], and one not needing the clip is quantised as gained |
| Fracture.Step | Source/Effects/EffectsDSP.cpp:334-358 | a quiet frame passes through; an active frame with a mix in [0, 1] lands on each channel between the dry and the crushed sample |
| Fracture.StepSkipsQuietFrames | Source/Effects/EffectsDSP.cpp:339 | the step obeys the shared skip rule |
| Fracture.FullMixIsWet | Source/Effects/EffectsDSP.cpp:355-356 | at mix 1 the output is the crushed sample alone |
| Fracture.FractureDSP.constructor | Source/Effects/EffectsDSP.h:33-34 | mix 0 at 44.1 kHz |
| Fracture.FractureDSP.Prepare | Source/Effects/EffectsDSP.cpp:329-332 | the mix ramp is reset at the new rate |
| Fracture.FractureDSP.Reset | Source/Effects/EffectsDSP.h:22-25 | the mix ramp is snapped to its target |
| Fracture.FractureDSP.SetMix | Source/Effects/EffectsDSP.h:27 | only the mix ramp changes, by `SetTarget`; a repeated target leaves it untouched |
| Fracture.FractureDSP.ProcessFrame | Source/Effects/EffectsDSP.cpp:341-356 | the outputs are the blends of dry and the crushed samples |
| Fracture.FractureDSP.Tick | Source/Effects/EffectsDSP.cpp:336-357 | one loop iteration extends the run by one frame |
| Fracture.FractureDSP.Process | Source/Effects/EffectsDSP.cpp:334-358 | buffers and ramp afterwards are `Run(Step)` over the block |
| Scorch.Gain | Source/Effects/EffectsDSP.cpp:646 | the pre-gain lies between 1 and 9 for a mix in [0, 1] |
| Scorch.RectifyRange | Source/Effects/EffectsDSP.cpp:655-658 | on a clipped sample the rectifier gives a value in [-0.7, 1], never below 0.7 times the sample |
| Scorch.WetRange | Source/Effects/EffectsDSP.cpp:646-658 | the shaped sample lies in [-0.7, 1] whatever the input |
| Scorch.Step | Source/Effects/EffectsDSP.cpp:635-663 | a quiet frame passes through; an active frame with a mix in [0, 1] lands on each channel between the dry and the rectified clip |
| Scorch.StepSkipsQuietFrames | Source/Effects/EffectsDSP.cpp:640 | the step obeys the shared skip rule |
| Scorch.FullMixIsWet | Source/Effects/EffectsDSP.cpp:660-661 | at mix 1 the output is the wet sample alone |
| Scorch.ScorchDSP.constructor | Source/Effects/EffectsDSP.h:33-34 | mix 0 at 44.1 kHz |
| Scorch.ScorchDSP.Prepare | Source/Effects/EffectsDSP.cpp:630-633 | the mix ramp is reset at the new rate |
| Scorch.ScorchDSP.Reset | Source/Effects/EffectsDSP.h:22-25 | the mix ramp is snapped to its target |
| Scorch.ScorchDSP.SetMix | Source/Effects/EffectsDSP.h:27 | only the mix ramp changes, by `SetTarget`; a repeated target leaves it untouched |
| Scorch.ScorchDSP.ProcessFrame | Source/Effects/EffectsDSP.cpp:642-661 | the outputs are the blends of dry and the shaped samples |
| Scorch.ScorchDSP.Tick | Source/Effects/EffectsDSP.cpp:637-662 | one loop iteration extends the run by one frame |
| Scorch.ScorchDSP.Process | Source/Effects/EffectsDSP.cpp:635-663 | buffers and ramp afterwards are `Run(Step)` over the block |
| Preamp.TransformerSaturate | Source/PreampDSP.cpp:118-135 | identity below the 0.7 threshold, never larger in magnitude than the input or than 1, sign preserving |
| Preamp.TubeSlope | Source/PreampDSP.cpp:102-116 | the tube's slope is below 1 on positive half-cycles and above 1 otherwise |
| Preamp.SoftClip | Source/PreampDSP.cpp:102-116 | the tube stage is tanh of the input scaled by its half-cycle's slope |
| Preamp.ProcessSample | Source/PreampDSP.cpp:137-141 | whatever the input, the tube's tanh sees the transformer's output scaled into [-1.1, 0.9] |
| Preamp.KneeClosedForm | Source/PreampDSP.cpp:129-134 | above the threshold the stage is `±min(0.35 + |x|/2, 1)`, and it is ±1 from 1.3 up |
| Preamp.TransformerOdd | Source/PreampDSP.cpp:118-135 | the stage is odd |
| Preamp.TransformerMonotone | Source/PreampDSP.cpp:118-135 | the stage never decreases |
| Preamp.TransformerContinuous | Source/PreampDSP.cpp:118-135 | the stage never moves two inputs further apart, so the knee has no jump |
| Preamp.QuietSampleSkipsTransformer | Source/PreampDSP.cpp:137-141 | below the threshold `processSample` is the tube stage alone |
| Preamp.DriveMultiplier | Source/PreampDSP.h:98 | drive in [0, 1] gives a multiplier in [1, 4] |
| Preamp.ToneCutoff | Source/PreampDSP.h:84 | tone in [0, 1] gives a shelf corner in [800, 4800] Hz |
| Preamp.ShelfGain | Source/PreampDSP.h:85-86 | tone in [0, 1] gives a shelf gain in [0.5, 1.5], neutral 1.0 at tone 0.5 |
| Preamp.OutputGainDb | Source/PreampDSP.cpp:97 | output in [0, 1] gives a level in [-12, +6] dB |
| Preamp.ToneCoeffs | Source/PreampDSP.h:83-86 | a low shelf at the frame's rate with Q 0.707; tone in [0, 1] gives a corner in 800..4800 Hz and a gain in 0.5..1.5; tone 0.5 is neutral at 2800 Hz |
| Preamp.MappingsMonotone | Source/PreampDSP.h:84-98 | all four mappings increase with their parameter |
| Preamp.Cell | Source/PreampDSP.h:95-119 | one sample of one channel changes only that channel's filters and never their designs |
| Preamp.StageOrder | Source/PreampDSP.h:98-117 | the stages run drive, transformer, tube, tone shelf, DC blocker, output gain, in that order |
| Preamp.Sweep | Source/PreampDSP.h:90-120 | channels 0..k-1 of one frame give k outputs and keep every filter design |
| Preamp.MonoKeepsRightFilters | Source/PreampDSP.h:107-114 | a mono block never touches the right-channel filters |
| Preamp.SweepPrefix | Source/PreampDSP.h:90-120 | a channel's output does not depend on the channels processed after it |
| Preamp.FrameStep | Source/PreampDSP.h:78-120 | a frame advances each smoother once, redesigns both tone filters from the new tone value and keeps the DC blockers |
| Preamp.BlockRun | Source/PreampDSP.h:76-121 | a block gives one output column per input column, with as many channels |
| Preamp.SmoothersAdvanceOncePerFrame | Source/PreampDSP.h:76-80 | over n frames each smoother advances exactly n times, whatever the channel count |
| Preamp.SupportedRateFitsEveryLine | Source/PreampDSP.cpp:27-44 | at a supported rate every effect's delay line holds at least one slot |
| Preamp.PreampDSP.constructor | Source/PreampDSP.cpp:3-5 | 44.1 kHz, fresh smoothers and filters, last samples 0, seven fresh effects |
| Preamp.PreparedState | Source/PreampDSP.cpp:7-62 | both tone filters become the 2 kHz / 0.707 neutral low shelf and both DC blockers the 10 Hz high-pass at the rate; filter memories are cleared and every smoother settles on its target |
| Preamp.PrepareIdempotent | Source/PreampDSP.cpp:7-62 | preparing twice at one rate leaves the chain as preparing once |
| Preamp.PreampDSP.Prepare | Source/PreampDSP.cpp:7-47 | the chain state becomes `PreparedState` of the old one at the new rate, last samples 0, every effect prepared at that rate and cleared |
| Preamp.PreampDSP.Reset | Source/PreampDSP.cpp:49-82 | filters and smoothers reset, last samples 0, every effect cleared, rates kept |
| Preamp.PreampDSP.PrepareEffects | Source/PreampDSP.cpp:27-44 | all seven effects prepared at the rate, every delay line sized |
| Preamp.PreampDSP.ResetEffects | Source/PreampDSP.cpp:64-81 | all seven effects cleared, rates kept, prepared lines stay prepared |
| Preamp.PreampDSP.PrepareCathode | Source/PreampDSP.cpp:28-32 | Haze prepared at the rate |
| Preamp.PreampDSP.PrepareFilament | Source/PreampDSP.cpp:34-38 | Fracture, Cascade and Prism prepared at the rate |
| Preamp.PreampDSP.PrepareSteel | Source/PreampDSP.cpp:40-44 | Scorch, Rust and Grind prepared at the rate |
| Preamp.PreampDSP.ResetCathode | Source/PreampDSP.cpp:65-69 | Haze cleared |
| Preamp.PreampDSP.ResetFilament | Source/PreampDSP.cpp:71-75 | Fracture, Cascade and Prism cleared |
| Preamp.PreampDSP.ResetSteel | Source/PreampDSP.cpp:77-81 | Scorch, Rust and Grind cleared |
| Juce.Smoothed.SetTarget | Source/PreampDSP.cpp:84-87 | `setTargetValue`: the target becomes v and the current value is kept; the target already set leaves the smoother exactly as it was; a new one starts the ramp from the current value |
| Juce.SameTargetStaysSettled | Source/PreampDSP.cpp:84-87 | re-setting a settled smoother's target leaves it settled, and every later draw returns the target |
| Preamp.PreampDSP.SetDrive | Source/PreampDSP.cpp:84-87 | only the drive ramp changes, by `SetTarget`: a repeated target leaves it untouched, a new one starts a fresh ramp from the current value |
| Preamp.PreampDSP.SetTone | Source/PreampDSP.cpp:89-92 | only the tone ramp changes, by `SetTarget`: a repeated target leaves it untouched, a new one starts a fresh ramp |
| Preamp.PreampDSP.SetOutputGain | Source/PreampDSP.cpp:94-100 | only the output ramp changes, by `SetTarget` towards the linear gain of `-12 + 18 v` dB; a repeated target leaves it untouched |
| Preamp.PreampDSP.SetCathHaze | Source/PreampDSP.cpp:147 | only Haze's mix ramp changes, by `SetTarget` (a repeated target leaves it untouched), its lines are kept |
| Preamp.PreampDSP.SetFilFracture | Source/PreampDSP.cpp:155 | only Fracture's mix ramp changes, by `SetTarget` (a repeated target leaves it untouched) |
| Preamp.PreampDSP.SetFilCascade | Source/PreampDSP.cpp:157 | only Cascade's mix ramp changes, by `SetTarget` (a repeated target leaves it untouched), its lines are kept |
| Preamp.PreampDSP.SetFilPrism | Source/PreampDSP.cpp:159 | only Prism's mix ramp changes, by `SetTarget` (a repeated target leaves it untouched), its comb is kept |
| Preamp.PreampDSP.SetSteelScorch | Source/PreampDSP.cpp:164 | only Scorch's mix ramp changes, by `SetTarget` (a repeated target leaves it untouched) |
| Preamp.PreampDSP.SetSteelRust | Source/PreampDSP.cpp:165 | only Rust's mix ramp changes, by `SetTarget` (a repeated target leaves it untouched), its lines are kept |
| Preamp.PreampDSP.SetSteelGrind | Source/PreampDSP.cpp:166 | only Grind's mix ramp changes, by `SetTarget` (a repeated target leaves it untouched), its line is kept |
| Preamp.PreampDSP.ProcessCell | Source/PreampDSP.h:95-119 | one cell in place equals `Cell` |
| Preamp.PreampDSP.ProcessColumn | Source/PreampDSP.h:90-120 | the channel loop writes `Sweep` into sample j and no other sample |
| Preamp.PreampDSP.ChannelTick | Source/PreampDSP.h:90-120 | one channel iteration extends the sweep by one cell and touches only that cell |
| Preamp.PreampDSP.ProcessFrame | Source/PreampDSP.h:78-120 | one frame in place equals `FrameStep` |
| Preamp.PreampDSP.Process | Source/PreampDSP.h:62-122 | a bypassed context changes nothing; otherwise the block and the state become `BlockRun` of the input |
| Preamp.PreampDSP.ProcessFrames | Source/PreampDSP.h:76-121 | the sample loop equals `BlockRun` |
| Preamp.PreampDSP.Tick | Source/PreampDSP.h:76-121 | one sample iteration extends `BlockRun` by one frame |
| Processor.IsBusesLayoutSupported | Source/PluginProcessor.cpp:161-171 | a layout is accepted exactly when the output is mono or stereo and the input matches it |
| Processor.SupportedLayoutIsBalanced | Source/PluginProcessor.cpp:161-171 | an accepted layout has as many inputs as outputs, one or two |
| Processor.ParameterLayout | Source/PluginProcessor.cpp:33-78 | drive, tone, output (defaults 0.25, 0.5, 0.5 on [0, 1] in steps of 0.01) and bypass (off), all at the state version |
| Processor.LayoutIdsDistinct | Source/PluginProcessor.cpp:38-75 | the four parameter ids are distinct |
| Processor.PercentText | Source/PluginProcessor.cpp:44 | the text is the value × 100 truncated toward zero, followed by `%` |
| Text.IntToString | Source/PluginProcessor.cpp:44 | `juce::String(int)`: a leading minus exactly for negative numbers, and the digits after it read back as the magnitude |
| Processor.PercentTextReadsBack | Source/PluginProcessor.cpp:44 | for an in-range value the text is a whole number n in [0, 100] with n ≤ 100·v < n + 1 |
| Processor.OutputDb | Source/PluginProcessor.cpp:65 | in-range values show between -12 and +6 dB, with -3 dB at the midpoint |
| Processor.Tenths | Source/PluginProcessor.cpp:66 | the magnitude in tenths, rounded to the nearest tenth |
| Processor.OneDecimal | Source/PluginProcessor.cpp:66 | the text is a one-decimal number with a minus sign exactly for negative values |
| Processor.OneDecimalReadsBack | Source/PluginProcessor.cpp:66 | the text reads back within 0.05 of the value |
| Processor.DecibelText | Source/PluginProcessor.cpp:64-67 | the output text is a one-decimal number followed by ` dB` |
| Processor.DecibelTextReadsBack | Source/PluginProcessor.cpp:64-67 | the output text reads back within 0.05 dB of the gain |
| Processor.DisplayText | Source/PluginProcessor.cpp:38-68 | percent parameters show `PercentText`, the output shows `DecibelText` |
| Processor.NumPrograms | Source/PluginProcessor.cpp:138 | one program |
| Processor.CurrentProgram | Source/PluginProcessor.cpp:139 | program 0 |
| Processor.TailLengthSeconds | Source/PluginProcessor.cpp:136 | no tail |
| Processor.CurrentProgramExists | Source/PluginProcessor.cpp:138-139 | the current program is one of the programs |
| Processor.ClearChannels | Source/PluginProcessor.cpp:182-184 | channels lo..hi-1 become silent and every other sample is kept |
| Processor.ClearingNothing | Source/PluginProcessor.cpp:183 | with no more outputs than inputs the loop clears nothing |
| Processor.ClearChannel | Source/PluginProcessor.cpp:184 | `buffer.clear(i, …)` silences channel i and leaves the others |
| Processor.ClearUnusedChannels | Source/PluginProcessor.cpp:182-184 | the loop leaves the block equal to its input with channels numIn..numOut-1 silenced |
| Processor.ResetState | Source/PreampDSP.cpp:49-62 | every filter keeps its coefficients with its memory cleared; every smoother settles on its target |
| Processor.Armed | Source/PluginProcessor.cpp:196-198 | the chain and the smoothers' current values are kept; the targets become the drive, the tone and the decibel-mapped output gain; a smoother whose target does not move is left as it was, countdown included |
| Processor.DreDimuraProcessor.constructor | Source/PluginProcessor.cpp:12-22 | stereo in and out, each parameter at its layout default, bypass off, a fresh preamp |
| Processor.UnchangedParametersKeepRamps | Source/PluginProcessor.cpp:196-198 | a block whose three parameters have not moved since the last one leaves every ramp of the chain state where it was |
| Processor.DreDimuraProcessor.PrepareToPlay | Source/PluginProcessor.cpp:145-154 | the preamp is prepared at the host's rate: every effect at that rate and cleared, last samples 0, and the chain state is `PreparedState` of the old one (2 kHz neutral shelves, 10 Hz DC blockers, filter memories cleared, smoothers settled) |
| Processor.DreDimuraProcessor.ReleaseResources | Source/PluginProcessor.cpp:156-159 | the preamp is reset as `Preamp.Reset` says: chain state `ResetState` of the old one, effects cleared, last samples 0, sample rate and every effect's rate kept, a prepared preamp stays prepared |
| Processor.DreDimuraProcessor.ProcessBlock | Source/PluginProcessor.cpp:173-204 | the unused outputs are cleared first; bypassed, that is all the block sees and the preamp is reset; otherwise the preamp's ramps take the three parameters as `Armed` says (unmoved ones untouched) and the block becomes `BlockRun` of the cleared input, with the seven effects and the last samples untouched; on both paths the rates are kept and a prepared preamp stays prepared, and a bypassed block also zeroes the last samples |
| Processor.DreDimuraProcessor.RunPreamp | Source/PluginProcessor.cpp:195-203 | drive, tone and output are set as `Armed` says, then the block becomes `BlockRun` of its input |
| Editor.ResourcePath | Source/PluginEditor.cpp:91-95 | never empty; empty or `/` serves `index.html`; otherwise one leading slash is removed |
| Editor.MimeType | Source/PluginEditor.cpp:101-110 | a path ending in no listed extension gets the default type |
| Editor.FirstMatch | Source/PluginEditor.cpp:101-110 | with no entry matching the path the result is the default type |
| Editor.FirstMatchFinds | Source/PluginEditor.cpp:101-110 | the first entry whose extension ends the path decides the type |
| Editor.ExtensionsAreSuffixFree | Source/PluginEditor.cpp:102-110 | no listed extension ends another one |
| Editor.ExtensionDeterminesMime | Source/PluginEditor.cpp:102-110 | so the order of the tests does not matter: a path ending in a listed extension gets that extension's type |
| Editor.JpegAliases | Source/PluginEditor.cpp:107 | `.jpg` and `.jpeg` both give `image/jpeg` |
| Editor.Provide | Source/PluginEditor.cpp:89-121 | the file's contents with its type when the file exists, no resource exactly when it does not |
| Editor.LeadingSlashIgnored | Source/PluginEditor.cpp:91-93 | `/x` and `x` are served the same way |
| Editor.RelaysMatchLayout | Source/PluginEditor.cpp:51-58 | one relay per layout parameter, with the same id in the same order, a slider relay exactly for the float parameters |
| Editor.DefaultSizeWithinLimits | Source/PluginEditor.cpp:41-43 | the default window size lies inside the resize limits |
| Editor.ActivationStatusText | Source/PluginEditor.cpp:222-235 | the text is `unknown` exactly for a status the switch does not list |
| Editor.ActivationStatusTextReadsBack | Source/PluginEditor.cpp:222-235 | each listed status has its own text, which reads back as that status |
| Editor.ParseStatusText | Source/PluginEditor.cpp:222-235 | a text that parses names a listed status whose text it is |
| Editor.DeactivationStatusText | Source/PluginEditor.cpp:283-291 | only Valid, NetworkError, ServerError and NotActivated are named, with their activation texts; every other status reads `unknown` |
| Editor.SendActivationState | Source/PluginEditor.cpp:162-199 | a message goes out exactly when there is a web view and its browser is visible; a build without activation reports configured-false and activated-true; otherwise configured means an activation exists and activated, with its info, follows it |
| Editor.ActivatedImpliesConfigured | Source/PluginEditor.cpp:172-178 | a message never reports activated without configured |
| Editor.ActivationRequest | Source/PluginEditor.cpp:201-212 | a request goes ahead exactly when activation is enabled and configured and the code is not empty, and it carries that code |
| Editor.ActivationReply | Source/PluginEditor.cpp:220-257 | the reply carries the status text, and the info exactly for Valid or AlreadyActive with info available |
| ParameterIds.FamiliesArePrefixed | Source/ParameterIDs.h:27-46 | each family has five ids, all under the family's prefix (`cath_`, `fil_`, `steel_`) |
| ParameterIds.AllIdsDistinct | Source/ParameterIDs.h:8-46 | the twenty-three ids are distinct |
| JuceParam.NotificationLatch | web-ui/src/hooks/useJuceParam.ts:45-49 | a host notification records the host value, adopts it locally exactly when no drag is in progress, and sends nothing |
| JuceParam.StepKeepsSynced | web-ui/src/hooks/useJuceParam.ts:45-72 | every event keeps a synced binding (local value equal to the host's outside a drag) synced |
| JuceParam.RunKeepsSynced | web-ui/src/hooks/useJuceParam.ts:45-72 | so does every run of events |
| JuceParam.DragIgnoresHost | web-ui/src/hooks/useJuceParam.ts:45-65 | during a drag the local value is the last local write, whatever the host sends, and each write goes to the host once |
| JuceParam.DragSession | web-ui/src/hooks/useJuceParam.ts:62-72 | start, writes, end: the gesture is closed, the local value re-read from the host, and the host sees start, the writes and end in order |
| JuceParam.ToggleFollowsHost | web-ui/src/hooks/useJuceParam.ts:108-110 | after any event a toggle's local value is the host's value |
| JuceParam.ToggleFlipsHost | web-ui/src/hooks/useJuceParam.ts:122-126 | toggling writes the negation of the host's value, once |
| JuceParam.ToggleTwice | web-ui/src/hooks/useJuceParam.ts:122-126 | toggling twice restores the value |
| JuceParam.Listeners.constructor | web-ui/src/hooks/useJuceParam.ts:45 | an empty listener registry |
| JuceParam.Listeners.Add | web-ui/src/hooks/useJuceParam.ts:45 | a fresh id, added to the registry |
| JuceParam.Listeners.Remove | web-ui/src/hooks/useJuceParam.ts:53 | exactly that id is removed |
| JuceParam.SliderState.constructor | web-ui/src/hooks/useJuceParam.ts:32-35 | a host slider state holding the initial value, with no calls and an empty registry |
| JuceParam.SliderState.SetNormalisedValue | web-ui/src/hooks/useJuceParam.ts:59 | the host stores the value and logs the write |
| JuceParam.SliderState.SliderDragStarted | web-ui/src/hooks/useJuceParam.ts:64 | the host logs a gesture start, value kept |
| JuceParam.SliderState.SliderDragEnded | web-ui/src/hooks/useJuceParam.ts:69 | the host logs a gesture end, value kept |
| JuceParam.ToggleState.constructor | web-ui/src/hooks/useJuceParam.ts:96-99 | a host toggle state holding the initial value |
| JuceParam.ToggleState.SetValue | web-ui/src/hooks/useJuceParam.ts:119 | the host stores the value and logs the write |
| JuceParam.SliderParam.constructor | web-ui/src/hooks/useJuceParam.ts:32-35 | the first render shows the default (0.5 if none), not dragging, no listener |
| JuceParam.SliderParam.Mount | web-ui/src/hooks/useJuceParam.ts:38-50 | inside the host the host value is adopted; a fresh listener is registered |
| JuceParam.SliderParam.OnValueChanged | web-ui/src/hooks/useJuceParam.ts:45-49 | a host change is applied as `Notified`: adopted only while not dragging |
| JuceParam.SliderParam.Unmount | web-ui/src/hooks/useJuceParam.ts:52-54 | exactly the mounted listener is removed |
| JuceParam.SliderParam.SetValue | web-ui/src/hooks/useJuceParam.ts:57-60 | the binding steps as `SliderStep` says for a local write |
| JuceParam.SliderParam.OnDragStart | web-ui/src/hooks/useJuceParam.ts:62-65 | the binding steps as `SliderStep` says for a drag start |
| JuceParam.SliderParam.OnDragEnd | web-ui/src/hooks/useJuceParam.ts:67-72 | the binding steps as `SliderStep` says for a drag end |
| JuceParam.ToggleParam.constructor | web-ui/src/hooks/useJuceParam.ts:96-99 | the first render shows the default (false if none), no listener |
| JuceParam.ToggleParam.Mount | web-ui/src/hooks/useJuceParam.ts:101-110 | inside the host the host value is adopted; a fresh listener is registered |
| JuceParam.ToggleParam.OnValueChanged | web-ui/src/hooks/useJuceParam.ts:108-110 | a host change is always shown |
| JuceParam.ToggleParam.Unmount | web-ui/src/hooks/useJuceParam.ts:112-114 | exactly the mounted listener is removed |
| JuceParam.ToggleParam.SetValue | web-ui/src/hooks/useJuceParam.ts:117-120 | the binding steps as `ToggleStep` says for a local write |
| JuceParam.ToggleParam.Toggle | web-ui/src/hooks/useJuceParam.ts:122-126 | the binding steps as `ToggleStep` says for a toggle |
| AudioLevels.OrZero | web-ui/src/hooks/useAudioLevels.ts:46-51 | `x ?? 0`: a present field is copied, a missing one reads 0 |
| AudioLevels.PayloadRoundTrip | web-ui/src/hooks/useAudioLevels.ts:45-52 | a complete payload comes through unchanged; an empty one reads as silence |
| AudioLevels.FieldsIndependent | web-ui/src/hooks/useAudioLevels.ts:45-52 | for each of the six levels: two payloads that agree on its field give the same level, and a present field is copied as is |
| AudioLevels.AudioLevelsHook.constructor | web-ui/src/hooks/useAudioLevels.ts:27-36 | the levels start silent with no listener |
| AudioLevels.AudioLevelsHook.Mount | web-ui/src/hooks/useAudioLevels.ts:38-53 | a fresh listener is added only inside the host |
| AudioLevels.AudioLevelsHook.OnLevels | web-ui/src/hooks/useAudioLevels.ts:43-53 | an event replaces the levels by its payload, missing fields as 0 |
| AudioLevels.AudioLevelsHook.Unmount | web-ui/src/hooks/useAudioLevels.ts:55 | the added listener, if any, is removed, and nothing else |
| AudioLevels.AudioLevelsHook.Result | web-ui/src/hooks/useAudioLevels.ts:58-61 | the hook reports whether it runs inside the host |
| AudioLevels.OutsideHost | web-ui/src/hooks/useAudioLevels.ts:38-41 | outside the host no listener is added and the levels stay silent |
| Pointer.PressListeners | web-ui/src/components/Knob.tsx:64-65 | a press's listener set holds its move and up listeners, and only listeners of that press |
| Pointer.PressListenersDisjoint | web-ui/src/components/Knob.tsx:60-65 | different presses attach different listeners, so a release removes only its own |
| Pointer.Window.constructor | web-ui/src/components/Knob.tsx:64-65 | a window with no listeners |
| Pointer.Window.AddEventListener | web-ui/src/components/Knob.tsx:64-65 | the listener is added |
| Pointer.Window.RemoveEventListener | web-ui/src/components/Knob.tsx:60-61 | the listener is removed |
| Pointer.DragValue | web-ui/src/components/Knob.tsx:48-53 | the drag value stays within [min, max] |
| Pointer.DragValueLinear | web-ui/src/components/Knob.tsx:48-53 | while the value stays in range it moves by the displacement `(startY - y)/200` |
| Pointer.DragValueMonotone | web-ui/src/components/Knob.tsx:48-53 | dragging further up never lowers the value |
| Pointer.DragValueByDisplacement | web-ui/src/components/Knob.tsx:41-48 | the value depends only on the vertical displacement since the press |
| Pointer.DragValueAtStart | web-ui/src/components/Knob.tsx:48-53 | with no displacement an in-range starting value comes back unchanged |
| Pointer.Rotation | web-ui/src/components/Knob.tsx:34-35 | an in-range value turns the indicator within -135..135 degrees |
| Pointer.RotationFollowsValue | web-ui/src/components/Knob.tsx:34-35 | min shows -135, max shows +135, and the angle rises with the value |
| Pointer.PercentLabel | web-ui/src/components/EffectModule.tsx:79 | the label is `Math.round(v × 100)`: within one half of 100·v, and in [0, 100] for v in [0, 1] |
| Knob.Knob.constructor | web-ui/src/components/Knob.tsx:26-32 | range defaults 0..1, not dragging, nothing reported |
| Knob.Knob.IndicatorRotation | web-ui/src/components/Knob.tsx:34-35 | an in-range value turns the indicator within -135..135 degrees |
| Knob.Knob.MouseDown | web-ui/src/components/Knob.tsx:37-66 | the press point and value are kept, the drag start is reported, and the press's listeners are attached |
| Knob.Knob.MouseMove | web-ui/src/components/Knob.tsx:45-55 | while dragging the drag value is requested; after the drag nothing is |
| Knob.Knob.MouseUp | web-ui/src/components/Knob.tsx:57-62 | the drag end is reported and that press's listeners are removed |
| Knob.Knob.DoubleClick | web-ui/src/components/Knob.tsx:70-72 | the midpoint 0.5 is requested |
| Knob.Knob.DragSession | web-ui/src/components/Knob.tsx:37-66 | press, two moves and release report start, two in-range values and end, and leave no listener attached |
| EffectModule.KnobRotation | web-ui/src/components/EffectModule.tsx:30 | an in-range value turns the knob within -135..135 degrees |
| EffectModule.IsActive | web-ui/src/components/EffectModule.tsx:29 | the control is active exactly when the effect is more than 1% in |
| EffectModule.KnobRotationIsIndicator | web-ui/src/components/EffectModule.tsx:30 | the effect knob's angle is the generic indicator over [0, 1] |
| EffectModule.ActiveAgreesWithLabel | web-ui/src/components/EffectModule.tsx:29 | a label of 2% or more means the glow is on; a label of 0% or less means it is off |
| EffectModule.EffectModule.constructor | web-ui/src/components/EffectModule.tsx:22-27 | the binding starts at 0, not dragging |
| EffectModule.EffectModule.MouseDown | web-ui/src/components/EffectModule.tsx:32-56 | the press point and value are kept, the host gesture opens and the press's listeners are attached |
| EffectModule.EffectModule.MouseMove | web-ui/src/components/EffectModule.tsx:39-46 | while dragging the clamped drag value is written to the binding, in [0, 1] |
| EffectModule.EffectModule.MouseUp | web-ui/src/components/EffectModule.tsx:48-53 | the gesture ends, the binding re-syncs and the press's listeners are removed |
| EffectModule.EffectModule.DoubleClick | web-ui/src/components/EffectModule.tsx:61-63 | 0 is written, so the effect is no longer active |
| Fader.PointerValue | web-ui/src/components/Fader.tsx:37-38 | the requested value lies within [min, max] |
| Fader.PointerValueEnds | web-ui/src/components/Fader.tsx:37-38 | the bottom edge asks for min and the top edge for max |
| Fader.PointerValueLinear | web-ui/src/components/Fader.tsx:36-38 | on the track the value is linear in the height, with no clamping |
| Fader.PointerValueMonotone | web-ui/src/components/Fader.tsx:37-38 | higher on the track never asks for less |
| Fader.ThumbBottom | web-ui/src/components/Fader.tsx:25-26 | an in-range value places the thumb within the 60 px travel |
| Fader.ThumbFollowsValue | web-ui/src/components/Fader.tsx:25-26 | min sits at the bottom, max at the top, and the thumb rises with the value |
| Fader.Fader.constructor | web-ui/src/components/Fader.tsx:19-23 | range defaults 0..1, not dragging |
| Fader.Fader.UpdateValue | web-ui/src/components/Fader.tsx:34-40 | the pointer's value is requested once the track is rendered, nothing before |
| Fader.Fader.MouseDown | web-ui/src/components/Fader.tsx:28-57 | the drag start is reported, then the press point's value, and the press's listeners are attached |
| Fader.Fader.MouseMove | web-ui/src/components/Fader.tsx:44-47 | moves are followed only while dragging |
| Fader.Fader.MouseUp | web-ui/src/components/Fader.tsx:49-54 | the drag end is reported and the listeners are removed |
| Fader.Fader.DoubleClick | web-ui/src/components/Fader.tsx:62-64 | the midpoint 0.5 is requested |
| App.Ids | web-ui/src/App.tsx:11-33 | one id per effect entry, in order |
| App.EffectListsMatchIds | web-ui/src/App.tsx:11-33 | each skin's effect strip binds exactly its family's ids from the identifier header, in header order |
| App.ControlsFor | web-ui/src/App.tsx:718-728 | the filament skin gets the filament panel, the steel-plate skin the steel-plate panel, any other id the cathode panel |
| App.PanelsDiffer | web-ui/src/App.tsx:718-728 | the three skins get three different panels |
| App.InitialValid | web-ui/src/App.tsx:668-671 | the starting carousel satisfies the invariant |
| App.Accepts | web-ui/src/App.tsx:686-687 | an accepted target is another skin in range, and nothing is accepted during a transition |
| App.Navigate | web-ui/src/App.tsx:685-702 | the carousel changes exactly when the request is accepted; the shown skin never changes; pending timers are kept in order, and an accepted request moves `current`, starts the transition and queues the swap then the finish |
| App.Fire | web-ui/src/App.tsx:694-701 | the earliest timer is consumed and `current` kept; a swap shows its skin, a finish ends the transition |
| App.NavigateEffect | web-ui/src/App.tsx:686-691 | a refused request changes nothing; an accepted one moves `current` at once, keeps the shown skin, slides towards the target and schedules the swap then the finish |
| App.FireKeepsValid | web-ui/src/App.tsx:694-701 | firing a timer keeps the invariant and the target skin |
| App.TransitionCompletes | web-ui/src/App.tsx:694-701 | after an accepted request the first timer swaps the shown skin and the second ends the transition with no timer left |
| App.StepsStayInRange | web-ui/src/App.tsx:704-705 | next and previous never leave the three skins |
| App.ApplyAllKeepsValid | web-ui/src/App.tsx:685-705 | any sequence of clicks and timer firings keeps the invariant |
| App.AlwaysOnASkin | web-ui/src/App.tsx:679 | whatever happens, both indices name a skin and a transition runs exactly while a timer is pending |
| App.ArrowsDisabledIffRefused | web-ui/src/App.tsx:753-765 | an arrow is disabled exactly when its navigation would be refused |
| App.LeftArrowDisabled | web-ui/src/App.tsx:756 | disabled on the first skin and during a transition; when idle a disabled left arrow is one whose navigation is refused |
| App.RightArrowDisabled | web-ui/src/App.tsx:764 | disabled on the last skin and during a transition; when idle a disabled right arrow is one whose navigation is refused |
| App.IndicatorsNavigate | web-ui/src/App.tsx:772-778 | when idle another skin's indicator navigates to it; during a transition every indicator does nothing |
| App.CarouselState.constructor | web-ui/src/App.tsx:668-671 | the starting carousel |
| App.CarouselState.NavigateTo | web-ui/src/App.tsx:685-702 | the carousel steps as `Navigate` says |
| App.CarouselState.GoNext | web-ui/src/App.tsx:704 | `navigateTo(current + 1)` |
| App.CarouselState.GoPrev | web-ui/src/App.tsx:705 | `navigateTo(current - 1)` |
| App.CarouselState.FireTimer | web-ui/src/App.tsx:694-701 | the earliest timer fires as `Fire` says |
| App.DisplayLevel | web-ui/src/App.tsx:682-683 | the host's peak capped at 1: a peak up to 1 is shown as it is, a larger one as 1; not negative for a peak that is not |
| App.SliderValue | web-ui/src/App.tsx:272-277 | the value lies in [0, 1], is linear across the track, 0 at or left of it and 1 at or right of it |
| App.BarCentre | web-ui/src/App.tsx:307 | the centre weighting lies in [0.7, 1] across the 24 bars, 1 at bar 12 and 0.7 at bars 0 and 24 |
| App.BarCentreFallsOff | web-ui/src/App.tsx:307 | a bar at least as far from bar 12 as another gets no larger weighting |
| App.BarHeight | web-ui/src/App.tsx:302-308 | a bar's height stays within [0.05, 1] |
| App.FilamentSlider.constructor | web-ui/src/App.tsx:248-249 | not dragging, nothing reported |
| App.FilamentSlider.UpdateValue | web-ui/src/App.tsx:272-278 | once the track is rendered the pointer's value, in [0, 1], is requested; nothing before |
| App.FilamentSlider.MouseDown | web-ui/src/App.tsx:251-270 | the drag start is reported, then the press point's value, and the press's listeners are attached |
| App.FilamentSlider.MouseMove | web-ui/src/App.tsx:256-259 | moves are followed only while dragging |
| App.FilamentSlider.MouseUp | web-ui/src/App.tsx:261-266 | the drag end is reported and the press's listeners are removed |
| Meters.ThresholdTable | web-ui/src/components/modules/SchafferModule.tsx:17-26 | eight thresholds falling strictly from 0.95 to 0 |
| Meters.Segments | web-ui/src/components/modules/SchafferModule.tsx:34 | segment k is lit exactly when the level reaches threshold k |
| Meters.LitCount | web-ui/src/components/modules/SchafferModule.tsx:17-34 | at most eight segments are lit |
| Meters.LitSegmentsFormSuffix | web-ui/src/components/modules/SchafferModule.tsx:17-34 | the lit segments are exactly the bottom `LitCount` ones |
| Meters.LitCountMonotone | web-ui/src/components/modules/SchafferModule.tsx:34 | a higher level never lights fewer segments |
| Meters.BottomSegmentAlwaysLit | web-ui/src/components/modules/SchafferModule.tsx:25 | any level that is not negative lights the bottom segment |
| Meters.ShownLevel | web-ui/src/components/modules/SchafferModule.tsx:53-54 | 0 when bypassed, otherwise the peak capped at 1 |
| Meters.BypassedBarShowsOneSegment | web-ui/src/components/modules/SchafferModule.tsx:25 | a bypassed bar lights exactly one segment |
| Meters.ShownLevelMonotone | web-ui/src/components/modules/SchafferModule.tsx:53-54 | while active, a louder peak never shows less |
| Meters.BarPercent | web-ui/src/components/modules/EP3Module.tsx:28 | the fill is `min(100, level × 100)` |
| Meters.ShownLevelFillsBar | web-ui/src/components/modules/EP3Module.tsx:28 | every shown level fills between 0 and 100%, 0 when bypassed |
| Schaffer.Show | web-ui/src/components/modules/SchafferModule.tsx:53-86 | both lights agree and are on exactly when not bypassed; bypassed, both bars read 0; otherwise each bar shows its peak, capped at 1 |
| Schaffer.BypassDarkens | web-ui/src/components/modules/SchafferModule.tsx:53-86 | bypassed, both lights go out and both bars drop to the bottom segment; otherwise the lights are on and the levels at most 1 |
| Re201.DisplayText | web-ui/src/components/modules/RE201Module.tsx:53 | `BYPASS` exactly when bypassed, `ACTIVE` exactly when not |
| Re201.Show | web-ui/src/components/modules/RE201Module.tsx:53-94 | the text, the pilot light and both meters follow the bypass state |
| Re201.TextAgreesWithLight | web-ui/src/components/modules/RE201Module.tsx:53-94 | the light is on exactly when the text says `ACTIVE`, and the two texts differ |
| Tascam.ChannelHeight | web-ui/src/components/modules/TascamModule.tsx:18 | the fill lies in [0, 100]%, and is the level times 100 for a level in [0, 1] |
| Tascam.LeftLevel | web-ui/src/components/modules/TascamModule.tsx:97 | 0 when bypassed; otherwise the output peak, or 1 at or above full scale; never above 1, never negative for a non-negative peak |
| Tascam.RightLevel | web-ui/src/components/modules/TascamModule.tsx:98 | 0 when bypassed; otherwise 0.95 of the output peak, or 1 once that reaches full scale; never above 1, never negative for a non-negative peak |
| Tascam.RightNotAboveLeft | web-ui/src/components/modules/TascamModule.tsx:97-98 | for a peak that is not negative the right meter never reads above the left |
| Tascam.ShowTransport | web-ui/src/components/modules/TascamModule.tsx:116-203 | the reels turn and the pilot and record lights are on exactly when not bypassed |
| Tascam.TransportAgreesWithMeters | web-ui/src/components/modules/TascamModule.tsx:97-116 | a stopped transport comes with both meters at 0; a running one shows the peak |
| Ep3.Options | web-ui/src/components/modules/EP3Module.tsx:96-98 | one option per preset, its index and its name, in order |
| Ep3.OptionsAreIndices | web-ui/src/components/modules/EP3Module.tsx:16-24 | seven presets, `Init` first; the values offered are exactly 0 to 6 |
| Ep3.VuLevel | web-ui/src/components/modules/EP3Module.tsx:63 | the VU bar shows the shown level: nothing when bypassed |
| Ep3.VuFillInRange | web-ui/src/components/modules/EP3Module.tsx:28 | the VU fill stays in [0, 100]% for a peak that is not negative, and is empty when bypassed |
| Ep3.Ep3Panel.constructor | web-ui/src/components/modules/EP3Module.tsx:60 | preset 0 is selected |
| Ep3.Ep3Panel.Select | web-ui/src/components/modules/EP3Module.tsx:81-83 | the chosen option becomes the selected preset |
| Ep3.Ep3Panel.PresetName | web-ui/src/components/modules/EP3Module.tsx:16-24 | the name shown is the selected option's text |
| VuMeter.WithDefaults | web-ui/src/components/VUMeter.tsx:11 | a missing variant is golden and a missing label `Level`; the value is passed through |
| VuMeter.NeedleAngle | web-ui/src/components/VUMeter.tsx:14 | levels in [0, 1] swing the needle within -45..45 degrees |
| VuMeter.NeedleLandmarks | web-ui/src/components/VUMeter.tsx:13-14 | 0 shows -45, 0.5 shows 0, 1 shows +45 |
| VuMeter.NeedleStrictlyIncreasing | web-ui/src/components/VUMeter.tsx:14 | a higher level always swings the needle further |
| VuMeter.NeedleReadsBack | web-ui/src/components/VUMeter.tsx:14 | the level is read back from the angle as `(angle + 45)/90` |

## Left out

- Ember, Echo, Drift, Velvet, Glisten, Phase, Shred and Snarl: eight of the fifteen effects in `Source/Effects/EffectsDSP.cpp` are not modelled, nor are their prepare, reset and setter calls in `Source/PreampDSP.cpp`. They rely on sine LFOs, fractional read positions and per-sample filter redesign, and the model has no interpretation for those.
- `Source/PreampDSP.h` does not declare the effect members and setters that `Source/PreampDSP.cpp` uses. The model gives the preamp the seven modelled effects as fields, under the names the `.cpp` uses.
- Effect mixes: the processor never passes one to the preamp. The model leaves them unforwarded, as the code does.
- Preamp.PreampDSP.Prepare: requires a non-negative sample rate, because the model's line lengths are natural numbers; a negative rate would make the C++ `resize` throw. It promises a prepared (`Valid`) preamp only at a rate where every delay line holds at least one slot (`SupportedRate`). Below that, `prepare` itself still runs, but a later `process` of an effect would take `% 0` on an empty vector.
- Preamp.PreampDSP.PrepareEffects, Preamp.PreampDSP.PrepareCathode, Preamp.PreampDSP.PrepareFilament and Preamp.PreampDSP.PrepareSteel: the same non-negative rate requirement, and the same conditional promise of validity.
- Cascade.CascadeDSP.Prepare: requires a non-negative rate for the same reason. It promises `Valid()` only when the line holds at least one slot. The same holds for the Prepare methods of Prism, Haze, Rust and Grind.
- Processor.DreDimuraProcessor.PrepareToPlay: the same non-negative rate requirement, and `Valid()` only at a `SupportedRate`. The maximum block size and channel count it passes to the preamp are not modelled, because the modelled preamp state does not depend on them.
- Juce.Smoothed.SetTarget: JUCE's `approximatelyEqual` test for an unchanged target is exact equality here. JUCE's jump straight to the target when no ramp length has been set (before the first `reset`) is not modelled either: every smoother is built with a ramp.
- Juce.Smoothed.Reset: the ramp length, `floor(0.02 × sampleRate)` steps per `reset(sampleRate, 0.02)` (`Source/PreampDSP.cpp:12-14`, `Source/PreampDSP.cpp:60-62`, `Source/Effects/EffectsDSP.h:19-24`), and the linear step size are not modelled. The values a ramp takes are the uninterpreted `ext.ramp(current, target)`, so nothing is proved about how long a ramp lasts.
- Cascade.CascadeDSP.Process: requires a prepared effect (`Valid()`). Processing before `prepare` indexes empty vectors, which is undefined. The same holds for the Process, ProcessFrame and Tick methods of Prism, Haze, Rust and Grind.
- Preamp.PreampDSP.Process: ghost snapshot parameters describe the block's contents before the call. Only a replacing context (input block = output block) is modelled, which is the only kind the processor creates.
- Numerics:
  - Samples are `real`, not 32-bit floats. `tanh`, `decibelsToGain`, the IIR filters and their coefficient design, and `std::round` stay uninterpreted (`Juce.Externals`), so no statement depends on their values.
  - Processor.PercentText: truncates `value × 100` as a real. Float rounding just below a whole percent is not modelled.
  - Processor.OneDecimal: uses round-half-up on the magnitude to stand for `juce::String(x, 1)`. The exact tie rule of the C library's formatting is not modelled.
  - Pointer.PercentLabel: `Math.round` on reals; float representation error near .5 is not modelled.
- Pointer.Rotation: requires `min != max`. With equal bounds JavaScript would give `NaN` or an infinite angle. Knob.Knob.IndicatorRotation and Fader.ThumbBottom carry the same requirement.
- Fader.PointerValue: requires a track of positive height. A zero-height box gives `NaN` in JavaScript. App.SliderValue likewise requires a positive width.
- Ep3.Ep3Panel.Select: requires one of the offered options, since the `<select>` element offers nothing else.
- App.CarouselState.FireTimer: requires a pending timer, since only a scheduled timer can fire.
- React rendering is not modelled: JSX layout, styles, SVG drawing, `generateWavePath`, artwork and the FX module views. The model keeps only the values these components compute.
- `navigateTo` closes over the state of the render that created it, and React batches updates. The model reads the current state, which is the same given that `isTransitioning` blocks every second call.
- Timers: `setTimeout` delays are not real time. A timer's firing is an explicit event, and timers fire in the order they were set.
- Window event dispatch is one handler call per event. Listeners are identified by kind and press number, not by function identity.
- `??` on `NaN`, and non-numeric payload fields, are left out: payloads hold reals or nothing.
- App.BarHeight: `App.tsx` computes bar heights with `Math.sin`/`Math.cos` of `Date.now()`. The trigonometric terms and the clock are parameters.
- `isInJuceWebView()`, and whether the page runs inside the host, is a constructor parameter.
- The juce-bridge is not part of this model. Its slider and toggle states and its event registry are modelled by the `JuceParam` classes, with the behaviour the hooks rely on.
- `getStateInformation`/`setStateInformation` (XML state with a version property), `createEditor`, `getName`, the MIDI queries, `setCurrentProgram`/`getProgramName`/`changeProgramName` and `createPluginFilter`: these are serialisation and plug-in host glue with no logic of their own.
- The editor's web-view setup (`setupWebView`), its resource-directory search on disk, `paint`, `resized` and its `timerCallback`: the model has file existence as a parameter of `Provide` and does not model the GUI.
- Whether activation is enabled, and the activation service itself, are parameters of the activation messages. The network side of licence validation is left out.
- Threads: the message thread versus the audio thread, `callAsync` and `ScopedNoDenormals` are not modelled. Every call is atomic.
