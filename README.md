# Drum kit sequencer and voice timing, in Dafny

This project models the core of a browser drum kit (`app.js`): the
sequencer that records pad hits into a take, snaps them to a 125 ms grid
and schedules them for playback with an optional metronome, and the
timing of the eight synthesized voices (kick, snare, closed and open hat,
clap, tom, crash, ride).

Modules:

- `Wrappers` (wrappers.dfy): `Option`, for JavaScript's `null` and `??`.
- `Quantize` (quantize.dfy): `quantizeMs`, with `Math.round` written as
  `Floor(x + 0.5)` (exact halves go up) and the `max(0, ·)` clamp kept.
- `Voices` (voices.dfy): `envGain` as four automation breakpoints, and each
  instrument as a descriptor: its envelopes, the stop times of its sources
  and its exponential frequency sweeps. The clap has three micro-envelopes.
  All times are exact reals on the audio clock. No audio is computed.
- `Takes` (takes.dfy): pure functions. They cover a recorded hit, the
  quantizing `map` over the take, the schedule that the Play handler
  builds, and the metronome. The lemmas about them are here too.
- `Recording` (sequencer.dfy): class `Sequencer` holds the module-level
  state `recording`, `rec`, `recStart`, `timers` and `clickTimer`. Its
  methods are `stopTimers`, `trigger` and the Record, Play and Clear
  handlers, plus the two timer callbacks. `performance.now()` is the
  parameter `stamp` and the audio clock is `audioNow`. The metronome and
  quantize checkboxes are boolean parameters. A playback timer is the
  `Task(delayMs, id)` it will run. The metronome timer is
  `Some(Click(intervalMs, stopAfterMs))`.

Quantization ties are settled by `Math.round`, which sends every exact
half up rather than to the even multiple: 62.5 ms goes to 125 and 187.5 ms
to 250. See `Quantize.QuantizeTieRoundsUp`.

## Model

| member | source | states |
|---|---|---|
| `Quantize.Round` | app.js:502 | `Math.round(x)` is within half of `x`, with exact halves rounded up: `x - 0.5 < k <= x + 0.5` |
| `Quantize.QuantizeMs` | app.js:500-504 | the result is at least 0 and a whole multiple of the grid; it is 0 for offsets at or below 0; for an offset `ms >= 0` it lies in `(ms - 62.5, ms + 62.5]` |
| `Quantize.QuantizeIsNearest` | app.js:500-504 | for `ms >= 0` the result is the one multiple of the grid in `(ms - 62.5, ms + 62.5]`, so it is the nearest grid point, with ties going up |
| `Quantize.QuantizeTieRoundsUp` | app.js:502-503 | an offset exactly half-way between grid points `n` and `n + 1` goes to `n + 1` |
| `Quantize.QuantizeIdempotent` | app.js:500-504 | quantizing a quantized offset changes nothing |
| `Quantize.QuantizeMonotone` | app.js:500-504 | quantizing keeps order: `a <= b` implies `quantizeMs(a) <= quantizeMs(b)` |
| `Voices.SustainBelowPeak` | app.js:242-249 | with `0 <= sustain <= 1` and `peak >= 0` the sustain level `peak * sustain` lies in `[0, peak]` |
| `Voices.EnvGain` | app.js:242-249 | four breakpoints: set to 0 at `t0`, linear to `peak` over `attack`, linear to `peak * sustain` over `decay`, linear to 0 over `release`, all three ramps linear; times non-decreasing when the durations are non-negative; every value within `[0, peak]` when `0 <= sustain <= 1` and `peak >= 0` |
| `Voices.ClapBurst` | app.js:380-383 | one clap burst: set to 0 at `t + off`, linear to its peak 2 ms later, then exponential to a positive target 80 ms after its start; in time order |
| `Voices.ClapBursts` | app.js:378-384 | the `forEach` over the clap's hits yields one burst per remaining hit |
| `Voices.ClapBurstsAt` | app.js:378-384 | the k-th burst comes from the k-th offset, with peak `0.55 - k * 0.12` |
| `Voices.ClapShape` | app.js:378-384 | the clap has exactly three bursts, at 0, 18 and 35 ms, with peaks 0.55, 0.43 and 0.31: positive and strictly decreasing |
| `Voices.EnvChainWellTimed` | app.js:242-249 | a gain stage driven by one `envGain` (so it has automation) is well timed when every source stops at or after the end of the release and every sweep fits in the sources' lives |
| `Voices.PlayKick` | app.js:299-314 | the kick starts at `t` and is well timed: its oscillator stops (t + 0.25) after its envelope ends (t + 0.241) and after both sweeps end |
| `Voices.PlaySnare` | app.js:316-341 | the snare starts at `t` and is well timed: its noise stops at t + 0.25, after its envelope ends at t + 0.211; its oscillator stops at t + 0.22, after its envelope ends at t + 0.201 and after its sweep ends |
| `Voices.PlayHat` | app.js:343-364 | a hat starts at `t` and is well timed: both hats stop their noise at `t + dur + 0.12`, after the envelope ends (closed t + 0.151, open t + 0.681) |
| `Voices.BurstWithin` | app.js:378-391 | a clap burst starting at most 170 ms after t is in time order, ends by the stop at t + 0.25, and ramps exponentially only to a positive target |
| `Voices.PlayClap` | app.js:366-392 | the clap starts at `t` and is well timed: every burst is in time order, ends before the noise stops at t + 0.25, and ramps exponentially only to the positive target 0.001 |
| `Voices.PlayTom` | app.js:394-411 | the tom starts at `t` and is well timed: its oscillator stops at t + 0.32, after its envelope (t + 0.301) and its sweep end |
| `Voices.PlayCrash` | app.js:413-428 | the crash starts at `t` and is well timed: its noise stops at t + 1.4, after its long release ends (t + 1.221) |
| `Voices.PlayRide` | app.js:430-451 | the ride starts at `t` and is well timed: both oscillators stop at t + 0.95, after the envelope ends (t + 0.781) |
| `Voices.Sound` | app.js:453-462 | every pad of the `sounds` table plays a voice starting at `t` in which every gain stage is driven by at least one non-empty envelope and every source is stopped only after all of its automation has finished |
| `Takes.RecordHit` | app.js:515-519 | a recorded hit appends exactly one event with the pad's id and leaves the earlier events alone; the first hit of a take sets `recStart` to its own stamp, so its offset is 0; later hits keep `recStart`; the take stays anchored |
| `Takes.SortedAppend` | app.js:515-519 | appending a hit no earlier than the last one keeps the take in time order |
| `Takes.RecordAll` | app.js:515-519 | recording hits from an empty take stores one event per hit; the take is anchored, with `recStart` the first stamp |
| `Takes.RecordAllOffsets` | app.js:515-519 | recording hits from an empty take stores each hit in order at its stamp minus the first stamp; offsets are non-decreasing when stamps are |
| `Takes.ScheduleFrom` | app.js:572-575 | the push loop creates one task per event |
| `Takes.Quantized` | app.js:566-568 | the quantizing `map` keeps one event per hit |
| `Takes.Metronome` | app.js:552-562 | the click interval is 60000 / 120 = 500 ms; the auto-stop comes 600 ms after the last scheduled (unquantized) hit, so at least 600 ms after the start for a non-decreasing take |
| `Takes.ScheduleFromAt` | app.js:572-575 | task `i` fires `events[i].dt - first` after the start and triggers `events[i].id` |
| `Takes.QuantizedAt` | app.js:566-568 | event `i` of the quantized take keeps its id and moves to `quantizeMs(dt - first) + first` |
| `Takes.ScheduleFromAllAt` | app.js:572-575 | every task of the push loop, at once: task `i` fires `events[i].dt - first` after the start with `events[i].id` |
| `Takes.QuantizedAllAt` | app.js:566-568 | every event of the quantized take, at once: it keeps its id and moves to `quantizeMs(dt - first) + first` |
| `Takes.Schedule` | app.js:564-575 | one task per hit, in take order, with the hit's pad and delay `dt - first`, or `quantizeMs(dt - first)` when quantizing |
| `Takes.ScheduleOrdered` | app.js:564-575 | the first delay is 0; for a non-decreasing take every delay is at least 0 and the delays are non-decreasing, with or without quantizing |
| `Takes.QuantizedScheduleOnGrid` | app.js:564-568 | each quantized delay is on the grid, within half a grid step of the recorded delay, and a fixed point of `quantizeMs` |
| `Takes.MetronomeOutlastsSchedule` | app.js:552-575 | for a non-decreasing take the auto-stop (`duration + 600`) comes more than one click interval after every scheduled hit, quantized or not |
| `Takes.ExampleTake` | app.js:515-575 | hits at 1000, 1130 and 1260 ms are stored at 0, 130 and 260 and play back quantized at 0, 125 and 250 |
| `Recording.Sequencer.constructor` | app.js:487-492 | the initial state: not recording, empty take, `recStart` unset, no timers, no metronome |
| `Recording.Sequencer.StopTimers` | app.js:494-498 | every playback timer is cleared in order; afterwards `timers` is empty, `clickTimer` is unset and nothing else changed |
| `Recording.Sequencer.Trigger` | app.js:506-522 | plays `sounds[id]` at `atTime ?? now + 0.0005`, a well-timed voice; while recording and not replaying, the take and `recStart` become `RecordHit` of the old ones; otherwise they are unchanged; timers and `recording` never change; given a clock that does not go back, the take stays in time order |
| `Recording.Sequencer.Record` | app.js:530-543 | all timers are cancelled and `recording` flips; entering recording empties the take and unsets `recStart`; leaving keeps the take |
| `Recording.Sequencer.Play` | app.js:545-576 | all prior timers are cancelled first; an empty take schedules nothing and starts no metronome; otherwise `timers` is exactly `Schedule(rec, quantize)`, whose first delay is 0 and whose delays are non-negative and non-decreasing, and the metronome is `Metronome(rec)` when asked for; the take is never changed |
| `Recording.Sequencer.Clear` | app.js:578-585 | afterwards `recording` is false, the take is empty, `recStart` is unset, and no timer or metronome is active |
| `Recording.Sequencer.FireTask` | app.js:574 | a playback timer re-triggers its pad as a replay just past the audio clock, so the take and `recStart` stay unchanged |
| `Recording.Sequencer.AutoStop` | app.js:561 | the metronome's auto-stop clears the metronome and touches nothing else |
| `Recording.ExampleSession` | app.js:530-576 | Record, three hits at 1000, 1130 and 1260 ms, Record, then quantized Play leaves timers at 0, 125 and 250 ms for kick, snare and hat |

## Left out

- QuantizeMs: the `gridMs` parameter is fixed at its default of 125 ms. No caller passes another value.
- Floating point: all times are exact reals. Play's quantized delay is `(quantizeMs(dt - first) + first) - first`, but `first` is the first hit's offset, which is always `stamp - stamp == 0`, so in IEEE doubles too it is exactly `quantizeMs(dt - first)`. Only the rounding of the other time arithmetic is not modelled.
- Timer execution: `setTimeout` and `setInterval` are host scheduling, so scheduled tasks are data. `FireTask` and `AutoStop` model what one callback does when it fires. The metronome's repeating click (`playHat` every 500 ms) is not modelled.
- Recording.Sequencer.StopTimers: the auto-stop timeout of app.js:561 is never stored in `timers`, so `stopTimers` never cancels it. A stale auto-stop from an earlier Play can therefore clear a later metronome early. The model keeps the auto-stop inside `clickTimer` and cancels them together, so it does not capture this.
- Voices.ClapShape: Web Audio merges all automation events of one gain into a single time-sorted timeline. The three clap bursts overlap in time (each falls until 80 ms past its start), so the real curve interleaves them. The model keeps each burst's own breakpoints and does not compute the resulting curve.
- Audio graph: node creation, filter types, fixed filter frequencies and Q values, oscillator types, the master gain, `ensureAudio` and `AC.resume` are left out. Only timing and exponential targets are modelled.
- `withFX` (the compressor and feedback delay chain) is left out. It reads the FX checkbox when a voice fires, not when Play is pressed, so replayed hits follow the checkbox as it is at fire time.
- `getNoise` is left out: it fills a buffer with `Math.random`.
- Firebase sign-in, entitlements, unlock requests and `applyEntitlements` are left out. The core only needs the two checkbox booleans, which are parameters.
- DOM and UI are left out: `log` messages (including "Nothing recorded yet.", modelled as `started == false`), `flashPad`, pad buttons, the keyboard map and button labels.
- Pad ids are the eight-value `Instrument` type. The unknown-id branch of `trigger` (`if (fn)`) cannot arise from the pads or keys.
