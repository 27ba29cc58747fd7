# mac-pedals in Dafny

This project models the real-time signal chain of `mac-pedals`, a guitar-pedal-style audio
processor, and proves properties of the model.

- **Distortion engine** (`src/distortion.rs`): a stateful object with five parameters, each
  clamped by its setter. Its `tick` applies, in order, a drive gain, one of five waveshapers
  (soft clip, hard clip, bit crusher, wavefolder, overdrive), a tone filter, a DC blocker and
  an output level. The left and the right sample go through the same filter and bit-crusher
  state, left first. The engine is a class whose methods update its fields and its two
  two-element filter arrays in place. Each method is proved against a function on an
  `EngineState` value, and the properties are proved about those functions.
- **Capture callback** (`src/main.rs`): interleaved input samples, in `f32`, `i16` or `u16`, are
  scaled into the floating-point range and down-mixed to one mono sample per frame. They are
  then pushed into the bounded sample queue until the first push fails.
- **Sample queue**: the `ringbuf` ring buffer of 8192 samples, seen through its observable
  behaviour. A push fails when the queue is full; a pop yields the oldest sample or nothing.
- **Playback callbacks**: for every frame of the interleaved output buffer, one sample is
  popped (silence when the queue is empty). In passthrough mode that sample is copied into every
  slot of the frame. In reverb mode the sample is fed to a stereo reverb and the output pair is
  spread over the frame. The output format is a parameter `encode`: the identity for `f32`,
  `ToI16` or `ToU16` for the integer formats.
- **Control console** of reverb mode: each input line is trimmed, split at whitespace and
  dispatched. The result sets one of the five reverb settings, switches the reverb to dry, or
  quits by clearing the shared `running` flag.

Files:
- `maths.dfy`: clamping, rounding and truncation, and the uninterpreted transcendental
  functions.
- `options.dfy`: the `Option` type.
- `formats.dfy`: the integer sample formats.
- `queue.dfy`: the sample queue.
- `frames.dfy`: frame arithmetic for interleaved buffers.
- `capture.dfy`, `playback.dfy`, `control.dfy`: the `main.rs` logic.
- `distortion.dfy`, `distortion_props.dfy`, `distortion_scenarios.dfy`: the engine, its
  properties, and its unit tests as verified methods.

## Model

| member | source | states |
|---|---|---|
| Maths.Clamp | src/distortion.rs:114-116 | `clamp(lo, hi)`: the result lies in [lo, hi]; it is lo below the range, hi above it, and the input inside it |
| Maths.Round | src/distortion.rs:179 | `round`: the nearest integer, with halfway cases going away from zero |
| Maths.Trunc | src/main.rs:494 | the truncation toward zero of a float-to-integer `as` |
| Maths.SaturatingCast | src/main.rs:494 | Rust's float-to-integer `as`: the result lies within the target's bounds and equals the truncation whenever the truncation fits |
| DistortionEngine.DriveGain | src/distortion.rs:135-138 | the drive gain lies in [1, 20]; it is 1 at drive 0 and 20 at drive 1 |
| DistortionEngine.SoftClip | src/distortion.rs:152-154 | the soft clip lies strictly inside (-1, 1) |
| DistortionEngine.HardThreshold | src/distortion.rs:158 | the hard-clip threshold lies in [0.5, 1] |
| DistortionEngine.HardClip | src/distortion.rs:157-166 | the output magnitude is at most the threshold; the output is ±threshold exactly beyond it and the input itself otherwise |
| DistortionEngine.FoldAmount | src/distortion.rs:186 | the fold amount lies in [0.5, 2.5] |
| DistortionEngine.Wavefold | src/distortion.rs:185-189 | the wavefolder's output lies in [-2, 2] |
| DistortionEngine.PositiveKnee | src/distortion.rs:193 | the positive threshold lies in [0.3, 0.7] |
| DistortionEngine.NegativeKnee | src/distortion.rs:194 | the negative threshold lies in [0.2, 0.5] |
| DistortionEngine.OverdriveClip | src/distortion.rs:192-203 | identity between the thresholds; above p, p < out < in; below -n, in < out < -n |
| DistortionEngine.Quantize | src/distortion.rs:178-179 | the result lies within half a level step (0.5/levels) of the held sample, and a held zero gives zero |
| DistortionEngine.Initial | src/distortion.rs:55-69 | the constructor's defaults satisfy every range invariant, with all history zero |
| DistortionEngine.ResetState | src/distortion.rs:235-240 | `reset` zeroes both histories, the counter and the held sample, keeps every parameter and preserves the invariant |
| DistortionEngine.CrushStep | src/distortion.rs:169-175 | the counter advances by the rate; the input is latched, and 1 subtracted, exactly when the counter reaches 1; the counter stays in [0, 1); nothing else changes |
| DistortionEngine.Distort | src/distortion.rs:141-149 | the active shaper's output and its bounds; only the bit crusher changes state; the invariant is preserved |
| DistortionEngine.ToneAlpha | src/distortion.rs:208-211 | for a positive sample rate the tone coefficient lies in (0, 1) |
| DistortionEngine.AlphaForm | src/distortion.rs:209-211 | rc / (rc + dt) equals fs / (fs + 2 pi fc) |
| DistortionEngine.ToneStep | src/distortion.rs:206-222 | the history becomes [input, old first entry]; tone 0 passes the input through; tone 1 gives the filtered sample |
| DistortionEngine.DcStep | src/distortion.rs:225-232 | the history becomes [input, output]; a repeated input decays the output by 0.995 |
| DistortionEngine.DistortPair | src/distortion.rs:90-91 | the shaper runs on left and then right, threading one state; the invariant is preserved |
| DistortionEngine.ToneStage | src/distortion.rs:94-95 | the tone filter on left then right changes only the tone history |
| DistortionEngine.DcStage | src/distortion.rs:98-99 | the DC blocker on left then right changes only the DC history |
| DistortionEngine.Leveled | src/distortion.rs:102-103 | the level stage leaves the state alone |
| DistortionEngine.TickSpec | src/distortion.rs:81-106 | a whole frame preserves the invariant |
| DistortionEngine.TickSpecSteps | src/distortion.rs:81-106 | the three stages of `tick`, composed, are the frame function |
| DistortionEngine.Distortion.constructor | src/distortion.rs:55-69 | `new` builds the initial state with fresh filter arrays |
| DistortionEngine.Distortion.Tick | src/distortion.rs:81-106 | `tick` updates the fields and arrays as the frame function says and returns its outputs |
| DistortionEngine.Distortion.DistortBoth | src/distortion.rs:90-91 | two `apply_distortion` calls, left first |
| DistortionEngine.Distortion.ToneBoth | src/distortion.rs:94-95 | two `apply_tone_filter` calls, left first |
| DistortionEngine.Distortion.DcBlockAndLevel | src/distortion.rs:98-103 | two `apply_dc_blocker` calls, left first, then the level |
| DistortionEngine.Distortion.SetDistortionType | src/distortion.rs:109-111 | only the type changes |
| DistortionEngine.Distortion.SetDrive | src/distortion.rs:114-116 | the drive becomes clamp(v, 0, 1); nothing else changes |
| DistortionEngine.Distortion.SetLevel | src/distortion.rs:119-121 | the level becomes clamp(v, 0, 1); nothing else changes |
| DistortionEngine.Distortion.SetTone | src/distortion.rs:124-126 | the tone becomes clamp(v, 0, 1); nothing else changes |
| DistortionEngine.Distortion.SetBitCrusherParams | src/distortion.rs:129-132 | the rate is clamped to [0.01, 1] and the depth to [0.1, 1]; nothing else changes |
| DistortionEngine.Distortion.ApplyDistortion | src/distortion.rs:141-149 | the match on the type is the `Distort` function |
| DistortionEngine.Distortion.BitCrush | src/distortion.rs:169-182 | counter and latch as `CrushStep`; the output is the quantised held sample |
| DistortionEngine.Distortion.ApplyToneFilter | src/distortion.rs:206-222 | the array update and the blend are `ToneStep` |
| DistortionEngine.Distortion.ApplyDcBlocker | src/distortion.rs:225-232 | the array update and the output are `DcStep` |
| DistortionEngine.Distortion.Reset | src/distortion.rs:235-240 | the new state is `ResetState` of the old one |
| DistortionProperties.HardClipIdempotent | src/distortion.rs:157-166 | clipping twice is clipping once |
| DistortionProperties.HardClipMonotone | src/distortion.rs:157-166 | the hard clip is monotone and never makes a sample louder |
| DistortionProperties.OverdriveMonotone | src/distortion.rs:192-203 | the overdrive curve is monotone |
| DistortionProperties.OverdriveContinuous | src/distortion.rs:192-203 | the overdrive curve is 1-Lipschitz, so continuous at both thresholds |
| DistortionProperties.CrushStepCounter | src/distortion.rs:170-174 | one step sets the counter to frac(counter + rate) |
| DistortionProperties.CrushRunLatches | src/distortion.rs:170-174 | after n steps the counter is counter + n·rate minus the number of latches, and it stays in [0, 1) |
| DistortionProperties.CrushRunCounter | src/distortion.rs:170-174 | after n steps the counter is frac(counter + n·rate) |
| DistortionProperties.CrushRunHeld | src/distortion.rs:172-175 | the held sample is the initial one or one of the inputs |
| DistortionProperties.CrushTwiceCounter | src/distortion.rs:170-174 | two steps give frac(counter + 2·rate) |
| DistortionProperties.TickCrushesTwice | src/distortion.rs:90-91 | one BitCrusher frame advances the shared crusher on left and then on right |
| DistortionProperties.TickCounter | src/distortion.rs:90-91 | after one BitCrusher frame the counter is frac(counter + 2·rate) |
| DistortionProperties.RightHoldsLeft | src/distortion.rs:90-91 | with shared state, the right output can be the quantised left input |
| DistortionProperties.ToneAlphaClosedForm | src/distortion.rs:208-211 | the tone coefficient is fs / (fs + 2 pi (100 + 2000 tone)) |
| DistortionProperties.MidToneAlpha | src/distortion.rs:208-211 | at 44100 Hz and tone 0.5 the coefficient lies in (0.86, 0.87) |
| DistortionProperties.ToneConstantGain | src/distortion.rs:213-221 | a constant input with matching history passes with gain alpha·tone + 1 - tone |
| DistortionProperties.DcDecays | src/distortion.rs:227-230 | a constant input is blocked: the output's history decays as 0.995^n |
| DistortionProperties.SilenceStaysSilent | src/distortion.rs:81-106 | silence into a quiet engine gives silence and keeps it quiet, in every mode |
| DistortionProperties.HardAtFullDrive | src/distortion.rs:274-276 | the test's engine satisfies the invariant |
| DistortionProperties.HardClipFrame | src/distortion.rs:273-281 | the frame (2, 2) gives exact outputs, both at most 1, the right one above 0.7 |
| DistortionProperties.SoftAtFullDrive | src/distortion.rs:257-259 | the test's engine satisfies the invariant |
| DistortionProperties.SoftClipFirstFrame | src/distortion.rs:261-263 | the frame (1, 1) comes out below 1 on both channels |
| DistortionProperties.SoftClipSecondFrame | src/distortion.rs:265-269 | the following frame (-1, -1) stays above -2 on both channels |
| DistortionProperties.ToneStepForm | src/distortion.rs:207-221 | one tone step in closed form, with the history shifted to [x, old tf0] |
| DistortionProperties.ToneStageForm | src/distortion.rs:94-95 | the tone stage of a frame in closed form: the right sample is filtered against the left one and the history the left one left behind |
| DistortionProperties.DcStageForm | src/distortion.rs:98-99 | the DC stage of a frame in closed form: the right sample is blocked against the left input and output |
| DistortionProperties.TickByStages | src/distortion.rs:81-106 | a frame is its distortion, tone and DC stages followed by the level |
| DistortionProperties.SoftFullDriveShaping | src/distortion.rs:85-91 | in Soft mode at full drive each sample is multiplied by 20 and goes through tanh, the state untouched |
| DistortionProperties.SoftFirstFrameValues | src/distortion.rs:81-106 | the frame (1, 1) into an engine with no history, stage by stage, with the history it leaves |
| DistortionProperties.SoftFrameStages | src/distortion.rs:81-100 | the three stages of a Soft full-drive frame (x, x) from any history |
| DistortionProperties.SoftFrame | src/distortion.rs:81-106 | a Soft full-drive frame (x, x) from any history: both levelled outputs and the history it leaves |
| DistortionProperties.FirstFrameArith | src/distortion.rs:256-263 | from no history at tone 0.5 and level 0.7 the first test frame's tone and DC values take their closed forms |
| DistortionProperties.SecondFrameArith | src/distortion.rs:265-269 | the tone and DC values of the second test frame, and that both levelled values stay above -2 |
| DistortionProperties.SoftSecondFrameBound | src/distortion.rs:265-269 | from the history the first test frame leaves, the frame (-1, -1) stays above -2 |
| DistortionProperties.SoftTwoFrames | src/distortion.rs:256-269 | two frames (1, 1) then (-1, -1) through a Soft full-drive engine with no history: the second stays above -2 |
| DistortionScenarios.Creation | src/distortion.rs:248-253 | a new engine has sample rate 44100, drive 0.5 and level 0.7 |
| DistortionScenarios.SoftClipping | src/distortion.rs:256-270 | the soft-clipping test's four assertions |
| DistortionScenarios.HardClipping | src/distortion.rs:273-281 | the hard-clipping test's two assertions |
| DistortionScenarios.ParameterBounds | src/distortion.rs:284-304 | -1 reads back as 0 and 2 as 1 for drive, level and tone |
| DistortionScenarios.ResetClears | src/distortion.rs:307-321 | after a frame and `reset`, both arrays, the counter and the held sample are zero |
| SampleFormats.FromI16 | src/main.rs:363 | an `i16` sample divided by 32767 lies in [-1 - 1/32767, 1], and in [-1, 1] unless it is -32768 |
| SampleFormats.FromU16 | src/main.rs:404 | a `u16` sample maps into [-1, 1], 0 to -1 and 65535 to 1 |
| SampleFormats.ToI16 | src/main.rs:494 | on [-1, 1], the `i16` output is trunc(x·32767) and lies in [-32767, 32767] |
| SampleFormats.ToU16 | src/main.rs:524-525 | on [-1, 1], the `u16` output is trunc((x+1)·0.5·65535): -1 gives 0 and 1 gives 65535 |
| SampleFormats.I16RoundTrip | src/main.rs:494 | every `i16` sample survives capture scaling followed by playback scaling |
| SampleFormats.U16RoundTrip | src/main.rs:524-525 | over exact reals, every `u16` sample survives capture scaling followed by playback scaling |
| SampleQueues.SampleQueue.constructor | src/main.rs:184 | a new queue is empty, with the given capacity |
| SampleQueues.NewRingBuffer | src/main.rs:184 | each mode's ring buffer starts empty with room for 8192 samples |
| SampleQueues.SampleQueue.Push | src/main.rs:344 | a push succeeds exactly when there is room, and then appends the sample; nothing else changes |
| SampleQueues.SampleQueue.Pop | src/main.rs:461 | a pop from an empty queue yields nothing; otherwise it yields and removes the oldest sample; whatever it yields was pushed earlier |
| Capture.StereoMix | src/main.rs:333-335 | two channels: sample k is (data[2k] + data[2k+1]) · 0.5 |
| Capture.MultiMix | src/main.rs:338-340 | more channels: one sample per frame, the short last frame included |
| Capture.MultiMixChunk | src/main.rs:338-340 | each sample is its frame's sum divided by the channel count |
| Capture.DownMix | src/main.rs:328-341 | one sample per frame; mono passes through; stereo averages the pair |
| Capture.DownMixFrame | src/main.rs:336-340 | a frame that starts in the buffer yields a sample, the sum over the channel count beyond two channels |
| Capture.StereoIsMulti | src/main.rs:331-340 | the stereo branch is the general branch with two channels |
| Capture.FourChannelFrame | src/main.rs:338-340 | [0.2, 0.4, 0.6, 0.8] on four channels gives [0.5] |
| Capture.ShortLastFrame | src/main.rs:338-340 | a short last frame is still divided by the full channel count |
| Capture.SumBound | src/main.rs:339 | n samples in [-1, 1] sum into [-n, n] |
| Capture.DownMixInRange | src/main.rs:328-341 | samples in [-1, 1] down-mix into [-1, 1] for every channel count |
| Capture.MultiMixInRange | src/main.rs:338-340 | each multi-channel mean lies in [-1, 1] |
| Capture.Scaled | src/main.rs:362-364 | sample i is the format conversion of input sample i |
| Capture.F32CaptureInRange | src/main.rs:320-340 | `f32` samples are taken unscaled, and unit-range captures down-mix into [-1, 1] |
| Capture.U16CaptureInRange | src/main.rs:401-424 | `u16` captures down-mix into [-1, 1] |
| Capture.I16CaptureInRange | src/main.rs:360-383 | `i16` captures without -32768 down-mix into [-1, 1] |
| Capture.PushUntilFull | src/main.rs:343-348 | the queue receives, in order, the longest prefix that fits; the rest is dropped; the queue stays within its capacity |
| Capture.InputCallback | src/main.rs:322-348 | a stopped program pushes nothing; otherwise the queue receives a prefix of the down-mix of the scaled buffer |
| Playback.Padded | src/main.rs:461 | frame k plays queued sample k while there is one, then 0 |
| Playback.PaddedIsQueuePrefix | src/main.rs:461 | playback hands out a prefix of the queue, then silence |
| Playback.PopOrSilence | src/main.rs:461 | `pop().unwrap_or(0.0)`: the next queued sample, or 0 when none is left |
| Playback.FillPassthroughFrame | src/main.rs:464-480 | every slot of the frame gets the sample; no other slot changes |
| Playback.PassLayoutSnoc | src/main.rs:459-481 | one more sample appends one more frame to the passthrough layout |
| Playback.PassLayoutLength | src/main.rs:459 | one sample per frame fills the whole buffer |
| Playback.PassLayoutSlot | src/main.rs:464-480 | slot j plays the sample of frame j / channels, for every channel count |
| Playback.PassthroughCallback | src/main.rs:454-481 | a stopped program changes nothing; otherwise exactly one pop per frame, oldest first with silence after, and the buffer is the passthrough layout of what was popped |
| Playback.PlayPassthroughFrame | src/main.rs:459-480 | one frame of the passthrough loop pops one sample (or silence) and extends the layout by that frame |
| Playback.Slot | src/main.rs:582-601 | the reverb frame rule for one slot |
| Playback.StereoPairFirst | src/main.rs:587-595 | with two or more slots, slot 0 plays left and slot 1 plays right |
| Playback.FillReverbFrame | src/main.rs:582-601 | frame slot i gets the mono mix on one channel, otherwise left at even i and right at odd i; no other slot changes |
| Playback.Freeverb.constructor | src/main.rs:189 | the reverb starts from the given settings and state |
| Playback.Freeverb.SetWet | src/main.rs:234 | only wet changes |
| Playback.Freeverb.SetDry | src/main.rs:238 | only dry changes |
| Playback.Freeverb.SetRoomSize | src/main.rs:242 | only the room size changes |
| Playback.Freeverb.SetDampening | src/main.rs:246 | only the dampening changes |
| Playback.Freeverb.SetWidth | src/main.rs:250 | only the width changes |
| Playback.Freeverb.Configure | src/main.rs:192-199 | the starting settings are wet 0.1, dry 0.9, room 0.5, dampening 0.5, width 0.5 |
| Playback.Freeverb.Tick | src/main.rs:579 | one reverb step on the current settings; the settings do not change |
| Playback.ReverbRun | src/main.rs:574-579 | one output per input, each input fed to both sides |
| Playback.ReverbRunCausal | src/main.rs:574-579 | the first k outputs depend only on the first k inputs |
| Playback.ReverbRunSnoc | src/main.rs:579 | one more input extends the run by one step |
| Playback.ReverbLayoutSnoc | src/main.rs:574-602 | one more output appends one more frame to the reverb layout |
| Playback.ReverbLayoutLength | src/main.rs:574 | one output per frame fills the whole buffer |
| Playback.ReverbLayoutAt | src/main.rs:582-601 | offset i of frame k plays what the frame rule prescribes for output k |
| Playback.ReverbLayoutSlot | src/main.rs:582-601 | slot j plays the mono mix on one channel, otherwise left when j % channels is even and right when it is odd, of output j / channels |
| Playback.NextReverbOutput | src/main.rs:576-579 | one pop (or silence) and one reverb step extend the run by one output |
| Playback.PlayReverbFrame | src/main.rs:574-601 | one frame of the reverb loop extends the layout by that frame |
| Playback.ReverbCallback | src/main.rs:567-602 | a stopped program changes nothing; otherwise exactly one pop and one reverb step per frame, and the buffer is the reverb layout of the run |
| Control.IsWhitespace | src/main.rs:223-224 | the characters `trim` and `split_whitespace` treat as whitespace |
| Control.Word | src/main.rs:224 | the longest whitespace-free prefix |
| Control.Tokens | src/main.rs:224 | `split_whitespace` yields only non-empty, whitespace-free tokens |
| Control.WordOfToken | src/main.rs:224 | a token followed by whitespace or nothing is the word at the front |
| Control.TokensOfJoin | src/main.rs:224 | tokens joined by spaces split back into the same tokens |
| Control.TrimStart | src/main.rs:223 | the result is a suffix; everything cut off is whitespace; it starts with a non-blank |
| Control.TrimEnd | src/main.rs:223 | the result is a prefix; everything cut off is whitespace; it ends with a non-blank |
| Control.Trim | src/main.rs:223 | the result neither starts nor ends with whitespace |
| Control.TokensSnocWhitespace | src/main.rs:224 | trailing whitespace adds no token |
| Control.TokensTrimStart | src/main.rs:223-224 | leading whitespace adds no token |
| Control.TokensTrimEnd | src/main.rs:223-224 | trimming the end changes no token |
| Control.TokensOfTrim | src/main.rs:223-224 | trimming before splitting changes no token |
| Control.BlankLine | src/main.rs:97 | a line trims to empty exactly when it is all whitespace, and exactly when it has no tokens |
| Control.SetByVerbOneField | src/main.rs:232-254 | a known verb sets exactly its own field; any other verb changes nothing |
| Control.Dispatch | src/main.rs:226-273 | a command quits exactly when it is the single token `q`; settings in range stay in range; other token counts, unparsable values and other single tokens change nothing |
| Control.TwoTokenCommand | src/main.rs:226-255 | a verb with a number sets exactly the verb's field, to the number clamped into [0, 1]; an unknown verb changes nothing |
| Control.DryCommand | src/main.rs:258-263 | `dry` sets wet 0 and dry 1 and keeps room, dampening and width |
| Control.PaddedWetLine | src/main.rs:223-224 | `"  w 1.5 "` splits into `w` and `1.5` |
| Control.WetClampedExample | src/main.rs:223-234 | `"  w 1.5 "` sets wet to 1 and nothing else |
| Control.Step | src/main.rs:222-224 | a read quits exactly when its line is the token `q`; a failed read does nothing; settings in range stay in range |
| Control.Session | src/main.rs:220-275 | the loop reads until `q` or the end of input; if it quits, the last line read was `q`; settings in range stay in range |
| Control.SessionStopsAtQuit | src/main.rs:264-267 | nothing typed after `q` is read |
| Control.Console.constructor | src/main.rs:202 | the console starts with `running` set |
| Control.Console.HandleLine | src/main.rs:223-273 | one line updates the reverb settings as dispatched; `q` clears `running` and breaks; the reverb state does not change |
| Control.Console.Run | src/main.rs:220-275 | while running, the console loop's final settings, lines read and `running` flag are those of `Session` |
| Control.EndsPassthrough | src/main.rs:97-100 | passthrough mode stops on a line that is all whitespace, that is, one with no tokens |

## Left out

- Host and stream plumbing is not modelled as I/O. This covers device discovery, stream
  configuration, `print_device_config`, the mode menu, `play()`, the waits and sleeps, every
  `println!`, and the unsupported-format error branch.
- Threads, the `Arc<AtomicBool>` and the `Mutex<Freeverb>` are not modelled. `running` is a
  parameter of the callbacks and a field of the console, and a lock is plain exclusive access.
- The Freeverb crate's internals are not visible. One reverb `tick` is the uninterpreted
  `process` function of the settings, a hidden state and the input pair. The constructor's
  `sample_rate` argument is folded into the initial hidden state.
- `ringbuf`'s lock-free internals are modelled only by their observable FIFO behaviour.
- Floating point is not modelled: samples are `real`, and `f32`/`f64` conversions
  (`as f64`, `as f32`) are the identity. NaN, infinities, rounding and NaN handling in
  `clamp` are not modelled. `tanh`, `sin` and `2^y` are uninterpreted functions; the model
  assumes only their ranges and that `tanh(0) == 0` and `sin(0) == 0` (`Maths.Lawful`). The
  `f32` division of a capture sample is exact.
- SampleFormats.U16RoundTrip: holds over exact reals only. In the program's `f32` arithmetic
  the round trip can lose one: `u16` sample 1 captures as `(1/65535)*2 - 1`, which rounds to
  -1 + 2^-15, and playback's `(x + 1) * 0.5 * 65535` then gives about 0.99998, which `as u16`
  truncates to 0. By hand calculation of the single-precision steps, 5461 of the 65536 values
  come back one lower. `I16RoundTrip` is unaffected.
- DistortionEngine.Distortion.constructor: requires `sampleRate > 0`. `Distortion::new(0)` is
  accepted by the source, but then `dt` is infinite and the tone filter's alpha is 0, and
  infinities are not modelled.
- `str::parse::<f64>` is the parameter `parse`, an arbitrary partial function.
- Input that makes the source panic becomes a precondition:
  - a zero channel count, because `chunks(0)` panics;
  - two input channels with an odd buffer length (`chunk[1]` out of bounds);
  - two output channels with an odd buffer length;
  - a short last reverb frame of one slot on three or more channels (`frame[1]` out of bounds).
- Control.Console.Run: the reads are a finite sequence, and the loop also ends when they run
  out. The program itself keeps polling `read_line` at end of input.
- The passthrough mode's stdin loop is modelled only through its stopping rule,
  `EndsPassthrough`; the loop around it is the same shape as `Console.Run`.
- The distortion engine is not wired into any audio path, because no code in `src/main.rs`
  uses it.

## Notes on the source

Where a description of the system and the code differ, the model follows the code:
- The distortion engine processes the left and the right sample through one shared filter and
  bit-crusher state, not independently per channel. So in BitCrusher mode the counter advances
  twice per frame, and the right output can hold the left input (`RightHoldsLeft`).
- In the hard-clipping test the outputs are at most 1, not at most 0.7. The right output is
  0.7·(0.9975·a + 0.4975), about 0.95 (`HardClipFrame`).
- A multi-channel capture divides a short last frame by the full channel count, not by its
  length (`ShortLastFrame`).
- When the queue is full, the capture callback drops every remaining sample of the buffer, not
  only the one that failed (`PushUntilFull`).
- The tone filter's "filtered" term is alpha·(x[n-1] + x[n] - x[n-2]). Its history holds the
  two previous inputs, not a previous output; it is modelled as written (`ToneStep`).
- The console has no commands for the distortion engine and no effect selector. The
  one-token `q` check after the one-token branch can never be reached.
