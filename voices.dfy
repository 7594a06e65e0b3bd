/**
  Timing of the synthesized drum voices (app.js, envGain and playKick .. playRide).

  A voice is described by what it schedules on the audio clock: for each gain
  stage, its automation breakpoints and the stop times of the sources that feed
  it, and the exponential frequency sweeps along that path. No audio is
  computed; every time is in seconds on the audio clock, starting at `t`.
 */
module Voices {

  /** The eight pads (the `sounds` table). */
  datatype Instrument = Kick | Snare | HiHat | OpenHat | Clap | Tom | Crash | Ride

  /** How an automation event reaches its value: a jump, or a ramp ending at its time. */
  datatype Ramp = SetValue | Linear | Exponential

  /** One automation event on a gain: `value` is reached at `time`. */
  datatype Breakpoint = Breakpoint(ramp: Ramp, value: real, time: real)

  /** The arguments of envGain after t0: durations in seconds, sustain as a fraction of the peak. */
  datatype Envelope = Envelope(attack: real, decay: real, sustain: real, release: real, peak: real)

  /** An exponential frequency ramp: `from` is set at `start`, `to` is reached at `end`. */
  datatype Sweep = Sweep(from: real, to: real, start: real, end: real)

  /** One gain stage: its automation (one or more envelopes), the stop times of its sources, its sweeps. */
  datatype Chain = Chain(envelopes: seq<seq<Breakpoint>>, stops: seq<real>, sweeps: seq<Sweep>)

  /** One triggered voice: every source starts at `start`. */
  datatype Voice = Voice(start: real, chains: seq<Chain>)

  predicate Ordered(bps: seq<Breakpoint>) {
    forall i, j :: 0 <= i <= j < |bps| ==> bps[i].time <= bps[j].time
  }

  predicate TimingValid(env: Envelope) {
    env.attack >= 0.0 && env.decay >= 0.0 && env.release >= 0.0
  }

  predicate LevelsValid(env: Envelope) {
    env.peak >= 0.0 && 0.0 <= env.sustain <= 1.0
  }

  /** The sustain level lies between silence and the peak. */
  lemma SustainBelowPeak(env: Envelope)
    ensures LevelsValid(env) ==> 0.0 <= env.peak * env.sustain <= env.peak
  {
    if LevelsValid(env) {
      assert env.peak * (1.0 - env.sustain) >= 0.0;
      assert env.peak * (1.0 - env.sustain) == env.peak - env.peak * env.sustain;
    }
  }

  /**
    envGain(t0, attack, decay, sustain, release, peak): silent at t0, a linear
    ramp to the peak, to peak * sustain, then down to silence.
   */
  function EnvGain(t0: real, env: Envelope): (bps: seq<Breakpoint>)
    ensures |bps| == 4
    ensures bps[0] == Breakpoint(SetValue, 0.0, t0) && bps[3].value == 0.0
    ensures bps[1].value == env.peak && bps[2].value == env.peak * env.sustain
    ensures bps[1].time - bps[0].time == env.attack && bps[2].time - bps[1].time == env.decay
    ensures bps[3].time - bps[2].time == env.release
    ensures bps[1].ramp == Linear && bps[2].ramp == Linear && bps[3].ramp == Linear
    ensures TimingValid(env) ==> Ordered(bps)
    ensures LevelsValid(env) ==> forall b :: b in bps ==> 0.0 <= b.value <= env.peak
  {
    SustainBelowPeak(env);
    [ Breakpoint(SetValue, 0.0, t0),
      Breakpoint(Linear, env.peak, t0 + env.attack),
      Breakpoint(Linear, env.peak * env.sustain, t0 + env.attack + env.decay),
      Breakpoint(Linear, 0.0, t0 + env.attack + env.decay + env.release) ]
  }

  /** The clap's three bursts, as offsets from t. */
  const ClapHits: seq<real> := [0.0, 0.018, 0.035]

  /** The i-th burst's peak. */
  function ClapPeak(i: nat): real {
    0.55 - i as real * 0.12
  }

  /** One clap burst: silent at t+off, peak 2 ms later, exponential fall to 0.001 at t+off+80 ms. */
  function ClapBurst(t: real, off: real, peak: real): (bps: seq<Breakpoint>)
    ensures |bps| == 3 && Ordered(bps)
    ensures bps[0] == Breakpoint(SetValue, 0.0, t + off) && bps[1].value == peak && bps[1].ramp == Linear
    ensures bps[1].time - bps[0].time == 0.002 && bps[2].time - bps[0].time == 0.08
    ensures bps[2].ramp == Exponential && bps[2].value > 0.0
  {
    [ Breakpoint(SetValue, 0.0, t + off),
      Breakpoint(Linear, peak, t + off + 0.002),
      Breakpoint(Exponential, 0.001, t + off + 0.08) ]
  }

  /** hits.forEach((off, i) => ...) from index i on. */
  function ClapBursts(t: real, hits: seq<real>, i: nat): (bursts: seq<seq<Breakpoint>>)
    requires i <= |hits|
    ensures |bursts| == |hits| - i
    decreases |hits| - i
  {
    if i == |hits| then [] else [ClapBurst(t, hits[i], ClapPeak(i))] + ClapBursts(t, hits, i + 1)
  }

  function PlayKick(t: real): (v: Voice)
    ensures v.start == t && WellTimed(v)
  {
    EnvChainWellTimed(t, Envelope(0.001, 0.06, 0.2, 0.18, 1.0), [t + 0.25],
                      [Sweep(900.0, 120.0, t, t + 0.18), Sweep(150.0, 55.0, t, t + 0.14)]);
    Voice(t, [Chain([EnvGain(t, Envelope(0.001, 0.06, 0.2, 0.18, 1.0))], [t + 0.25],
                    [Sweep(900.0, 120.0, t, t + 0.18), Sweep(150.0, 55.0, t, t + 0.14)])])
  }

  function PlaySnare(t: real): (v: Voice)
    ensures v.start == t && WellTimed(v)
  {
    EnvChainWellTimed(t, Envelope(0.001, 0.03, 0.15, 0.18, 0.9), [t + 0.25], []);
    EnvChainWellTimed(t, Envelope(0.001, 0.04, 0.12, 0.16, 0.5), [t + 0.22],
                      [Sweep(210.0, 170.0, t, t + 0.12)]);
    Voice(t, [ Chain([EnvGain(t, Envelope(0.001, 0.03, 0.15, 0.18, 0.9))], [t + 0.25], []),
               Chain([EnvGain(t, Envelope(0.001, 0.04, 0.12, 0.16, 0.5))], [t + 0.22],
                     [Sweep(210.0, 170.0, t, t + 0.12)]) ])
  }

  function PlayHat(t: real, open: bool): (v: Voice)
    ensures v.start == t && WellTimed(v)
  {
    var dur := if open then 0.6 else 0.12;
    var env := Envelope(0.001, if open then 0.08 else 0.03, 0.2, dur, if open then 0.55 else 0.35);
    EnvChainWellTimed(t, env, [t + dur + 0.12], []);
    Voice(t, [Chain([EnvGain(t, env)], [t + dur + 0.12], [])])
  }

  function PlayClap(t: real): (v: Voice)
    ensures v.start == t && WellTimed(v)
  {
    ClapShape(t);
    BurstWithin(t, 0.0, 0.55);
    BurstWithin(t, 0.018, 0.43);
    BurstWithin(t, 0.035, 0.31);
    var envelopes := [[Breakpoint(SetValue, 0.0, t)]] + ClapBursts(t, ClapHits, 0);
    assert envelopes == [[Breakpoint(SetValue, 0.0, t)], ClapBurst(t, 0.0, 0.55),
                         ClapBurst(t, 0.018, 0.43), ClapBurst(t, 0.035, 0.31)];
    assert forall e, b :: e in envelopes && b in e ==>
      t <= b.time <= t + 0.25 && (b.ramp == Exponential ==> b.value > 0.0);
    Voice(t, [Chain(envelopes, [t + 0.25], [])])
  }

  function PlayTom(t: real): (v: Voice)
    ensures v.start == t && WellTimed(v)
  {
    EnvChainWellTimed(t, Envelope(0.001, 0.05, 0.25, 0.25, 0.8), [t + 0.32],
                      [Sweep(220.0, 120.0, t, t + 0.18)]);
    Voice(t, [Chain([EnvGain(t, Envelope(0.001, 0.05, 0.25, 0.25, 0.8))], [t + 0.32],
                    [Sweep(220.0, 120.0, t, t + 0.18)])])
  }

  function PlayCrash(t: real): (v: Voice)
    ensures v.start == t && WellTimed(v)
  {
    EnvChainWellTimed(t, Envelope(0.001, 0.12, 0.35, 1.1, 0.7), [t + 1.4], []);
    Voice(t, [Chain([EnvGain(t, Envelope(0.001, 0.12, 0.35, 1.1, 0.7))], [t + 1.4], [])])
  }

  function PlayRide(t: real): (v: Voice)
    ensures v.start == t && WellTimed(v)
  {
    EnvChainWellTimed(t, Envelope(0.001, 0.08, 0.25, 0.7, 0.25), [t + 0.95, t + 0.95], []);
    Voice(t, [Chain([EnvGain(t, Envelope(0.001, 0.08, 0.25, 0.7, 0.25))], [t + 0.95, t + 0.95], [])])
  }

  /**
    sounds[id](t): for every pad, a voice starting at t whose sources are
    stopped only after all of their automation has finished.
   */
  function Sound(id: Instrument, t: real): (v: Voice)
    ensures v.start == t && WellTimed(v)
  {
    match id
    case Kick => PlayKick(t)
    case Snare => PlaySnare(t)
    case HiHat => PlayHat(t, false)
    case OpenHat => PlayHat(t, true)
    case Clap => PlayClap(t)
    case Tom => PlayTom(t)
    case Crash => PlayCrash(t)
    case Ride => PlayRide(t)
  }

  /**
    A gain stage is well timed when it is driven by at least one envelope,
    each of its envelopes is non-empty and in time order and
    lies within the lives of all its sources, every exponential target is
    positive (Web Audio refuses zero), and every sweep runs between the start
    and every stop with positive end points.
   */
  predicate ChainWellTimed(start: real, c: Chain) {
    c.envelopes != [] && (forall e :: e in c.envelopes ==> e != [] && Ordered(e)) &&
    (forall e, b :: e in c.envelopes && b in e ==> start <= b.time) &&
    (forall e, b, s :: e in c.envelopes && b in e && s in c.stops ==> b.time <= s) &&
    (forall e, b :: e in c.envelopes && b in e && b.ramp == Exponential ==> b.value > 0.0) &&
    (forall w :: w in c.sweeps ==> 0.0 < w.from && 0.0 < w.to && start <= w.start <= w.end) &&
    (forall w, s :: w in c.sweeps && s in c.stops ==> w.end <= s)
  }

  predicate WellTimed(v: Voice) {
    v.chains != [] && forall c :: c in v.chains ==> c.stops != [] && ChainWellTimed(v.start, c)
  }

  /** The i+k-th burst is built from the i+k-th hit and peak. */
  lemma {:induction false} ClapBurstsAt(t: real, hits: seq<real>, i: nat, k: nat)
    requires i + k < |hits|
    ensures ClapBursts(t, hits, i)[k] == ClapBurst(t, hits[i + k], ClapPeak(i + k))
    decreases k
  {
    if k > 0 {
      ClapBurstsAt(t, hits, i + 1, k - 1);
    }
  }

  /** The clap's bursts: three of them, peaks 0.55, 0.43, 0.31, positive and strictly decreasing. */
  lemma ClapShape(t: real)
    ensures ClapBursts(t, ClapHits, 0) ==
      [ClapBurst(t, 0.0, 0.55), ClapBurst(t, 0.018, 0.43), ClapBurst(t, 0.035, 0.31)]
    ensures forall k :: 0 <= k < 3 ==> ClapBursts(t, ClapHits, 0)[k][1].value > 0.0
    ensures forall k :: 0 < k < 3 ==>
      ClapBursts(t, ClapHits, 0)[k][1].value < ClapBursts(t, ClapHits, 0)[k - 1][1].value
  {
    ClapBurstsAt(t, ClapHits, 0, 0);
    ClapBurstsAt(t, ClapHits, 0, 1);
    ClapBurstsAt(t, ClapHits, 0, 2);
  }

  /** The length of an envelope: from t0 to the end of its release. */
  function EnvLength(env: Envelope): real {
    env.attack + env.decay + env.release
  }

  /**
    A stage driven by one envGain is well timed as soon as every stop comes
    at or after the end of the release and the sweeps fit.
   */
  lemma {:induction false} EnvChainWellTimed(t: real, env: Envelope, stops: seq<real>, sweeps: seq<Sweep>)
    requires TimingValid(env)
    requires forall s :: s in stops ==> t + EnvLength(env) <= s
    requires forall w :: w in sweeps ==> 0.0 < w.from && 0.0 < w.to && t <= w.start <= w.end
    requires forall w, s :: w in sweeps && s in stops ==> w.end <= s
    ensures ChainWellTimed(t, Chain([EnvGain(t, env)], stops, sweeps))
  {
    var bps := EnvGain(t, env);
    forall b, s | b in bps && s in stops
      ensures b.time <= s
    {
      assert b.time <= bps[3].time;
    }
  }

  /** A burst starting `off` after t, with 80 ms to fall, is over by t + 0.25. */
  lemma BurstWithin(t: real, off: real, peak: real)
    requires 0.0 <= off <= 0.17
    ensures Ordered(ClapBurst(t, off, peak))
    ensures forall b :: b in ClapBurst(t, off, peak) ==>
      t <= b.time <= t + 0.25 && (b.ramp == Exponential ==> b.value > 0.0)
  {
  }
}
