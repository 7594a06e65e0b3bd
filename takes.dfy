/**
  Takes and playback schedules (app.js, the recording branch of trigger and
  the schedule the Play handler builds).

  A take is the list of recorded hits `{id, dt}`, where `dt` is milliseconds
  since the first hit of the take. Playback turns a take into one timer task
  per hit, optionally snapped to the grid, plus an optional metronome.
 */
module Takes {
  import opened Wrappers
  import opened Quantize
  import opened Voices

  /** One recorded hit: `dt` milliseconds after the take's first hit. */
  datatype Event = Event(id: Instrument, dt: real)

  /** One playback timer: trigger `id` after `delayMs`. */
  datatype Task = Task(delayMs: real, id: Instrument)

  /** The metronome: a click every `intervalMs`, auto-stopped after `stopAfterMs`. */
  datatype Click = Click(intervalMs: real, stopAfterMs: real)

  const Bpm: real := 120.0

  /** The metronome runs this long past the last hit. */
  const AutoStopSlackMs: real := 600.0

  predicate Sorted(take: seq<Event>) {
    forall i, j :: 0 <= i <= j < |take| ==> take[i].dt <= take[j].dt
  }

  /** A hit no earlier than the last one keeps a take in time order. */
  lemma SortedAppend(take: seq<Event>, e: Event)
    requires Sorted(take) && (take != [] ==> take[|take| - 1].dt <= e.dt)
    ensures Sorted(take + [e])
  {
    var t := take + [e];
    forall i, j | 0 <= i <= j < |t|
      ensures t[i].dt <= t[j].dt
    {
      if j == |take| && i < j {
        assert take[i].dt <= take[|take| - 1].dt;
      }
    }
  }

  /**
    The shape every take has between handlers: the reference stamp is set
    exactly when the take is non-empty, and the first hit is at offset 0.
   */
  predicate Anchored(rec: seq<Event>, recStart: Option<real>) {
    (recStart.None? <==> rec == []) && (rec != [] ==> rec[0].dt == 0.0)
  }

  /**
    One hit while recording, at performance.now() == stamp: the first hit
    of a take fixes the reference stamp, and the hit is appended with its
    offset from it. Returns the new take and reference stamp.
   */
  function RecordHit(rec: seq<Event>, recStart: Option<real>, id: Instrument, stamp: real)
    : (r: (seq<Event>, Option<real>))
    ensures |r.0| == |rec| + 1 && r.0[..|rec|] == rec && r.0[|rec|].id == id
    ensures r.1.Some? && (recStart.Some? ==> r.1 == recStart)
    ensures r.0[|rec|].dt == stamp - r.1.value
    ensures recStart.None? ==> r.1 == Some(stamp) && r.0[|rec|].dt == 0.0
    ensures Anchored(rec, recStart) ==> Anchored(r.0, r.1)
  {
    var start := recStart.GetOr(stamp);
    (rec + [Event(id, stamp - start)], Some(start))
  }

  /** The hits of a take recorded from an empty take, one per (id, stamp). */
  function RecordAll(hits: seq<(Instrument, real)>): (r: (seq<Event>, Option<real>))
    ensures |r.0| == |hits| && Anchored(r.0, r.1)
    ensures hits != [] ==> r.1 == Some(hits[0].1)
    decreases |hits|
  {
    if hits == [] then ([], None)
    else
      var init := hits[..|hits| - 1];
      assert init != [] ==> init[0] == hits[0];
      var (rec, start) := RecordAll(init);
      RecordHit(rec, start, hits[|hits| - 1].0, hits[|hits| - 1].1)
  }

  predicate StampsSorted(hits: seq<(Instrument, real)>) {
    forall i, j :: 0 <= i <= j < |hits| ==> hits[i].1 <= hits[j].1
  }

  /**
    Recording a sequence of hits from an empty take stores every hit, in
    order, at its stamp minus the first stamp, and its offsets are
    non-decreasing whenever the stamps are.
   */
  lemma {:induction false} RecordAllOffsets(hits: seq<(Instrument, real)>)
    ensures var (rec, start) := RecordAll(hits);
      (forall i :: 0 <= i < |hits| ==> rec[i] == Event(hits[i].0, hits[i].1 - hits[0].1)) &&
      (StampsSorted(hits) ==> Sorted(rec))
    decreases |hits|
  {
    if hits != [] {
      var n := |hits| - 1;
      var init := hits[..n];
      RecordAllOffsets(init);
      var (rec0, start0) := RecordAll(init);
      var (rec, start) := RecordAll(hits);
      assert (rec, start) == RecordHit(rec0, start0, hits[n].0, hits[n].1);
      forall i | 0 <= i < |hits|
        ensures rec[i] == Event(hits[i].0, hits[i].1 - hits[0].1)
      {
        if i < n {
          assert rec[i] == rec[..n][i] == rec0[i];
          assert init[i] == hits[i] && init[0] == hits[0];
        }
      }
      if StampsSorted(hits) {
        assert StampsSorted(init);
      }
    }
  }

  /** The schedule of `events` relative to `first`: one task per event, in order (the push loop). */
  function ScheduleFrom(events: seq<Event>, first: real): (tasks: seq<Task>)
    ensures |tasks| == |events|
    decreases |events|
  {
    if events == [] then []
    else
      var last := events[|events| - 1];
      ScheduleFrom(events[..|events| - 1], first) + [Task(last.dt - first, last.id)]
  }

  /** rec.map(ev => ({...ev, dt: quantizeMs(ev.dt - first) + first})) */
  function Quantized(take: seq<Event>, first: real): (q: seq<Event>)
    ensures |q| == |take|
    decreases |take|
  {
    if take == [] then []
    else
      var last := take[|take| - 1];
      Quantized(take[..|take| - 1], first) + [Event(last.id, QuantizeMs(last.dt - first) + first)]
  }

  /**
    The timers the Play handler creates for a non-empty take: exactly one
    task per hit, in take order, with the hit's instrument, after the hit's
    offset from the first hit, snapped to the grid when quantizing.
   */
  function Schedule(take: seq<Event>, useQuantize: bool): (tasks: seq<Task>)
    requires take != []
    ensures |tasks| == |take|
    ensures forall i :: 0 <= i < |take| ==>
      tasks[i] == Task(if useQuantize then QuantizeMs(take[i].dt - take[0].dt) else take[i].dt - take[0].dt,
                       take[i].id)
  {
    var first := take[0].dt;
    var events := if useQuantize then Quantized(take, first) else take;
    ScheduleFromAllAt(events, first);
    QuantizedAllAt(take, first);
    ScheduleFrom(events, first)
  }

  /** The metronome the Play handler starts for a non-empty take. */
  function Metronome(take: seq<Event>): (c: Click)
    requires take != []
    ensures c.intervalMs == 500.0
    ensures c.stopAfterMs == Schedule(take, false)[|take| - 1].delayMs + AutoStopSlackMs
    ensures Sorted(take) ==> c.stopAfterMs >= AutoStopSlackMs
  {
    var duration := take[|take| - 1].dt - take[0].dt;
    Click(60000.0 / Bpm, duration + AutoStopSlackMs)
  }

  lemma {:induction false} ScheduleFromAt(events: seq<Event>, first: real, i: nat)
    requires i < |events|
    ensures ScheduleFrom(events, first)[i] == Task(events[i].dt - first, events[i].id)
    decreases |events|
  {
    if i < |events| - 1 {
      ScheduleFromAt(events[..|events| - 1], first, i);
    }
  }

  lemma ScheduleFromAllAt(events: seq<Event>, first: real)
    ensures forall i :: 0 <= i < |events| ==>
      ScheduleFrom(events, first)[i] == Task(events[i].dt - first, events[i].id)
  {
    forall i | 0 <= i < |events|
      ensures ScheduleFrom(events, first)[i] == Task(events[i].dt - first, events[i].id)
    {
      ScheduleFromAt(events, first, i);
    }
  }

  lemma QuantizedAllAt(take: seq<Event>, first: real)
    ensures forall i :: 0 <= i < |take| ==>
      Quantized(take, first)[i] == Event(take[i].id, QuantizeMs(take[i].dt - first) + first)
  {
    forall i | 0 <= i < |take|
      ensures Quantized(take, first)[i] == Event(take[i].id, QuantizeMs(take[i].dt - first) + first)
    {
      QuantizedAt(take, first, i);
    }
  }

  lemma {:induction false} QuantizedAt(take: seq<Event>, first: real, i: nat)
    requires i < |take|
    ensures Quantized(take, first)[i] == Event(take[i].id, QuantizeMs(take[i].dt - first) + first)
    decreases |take|
  {
    if i < |take| - 1 {
      QuantizedAt(take[..|take| - 1], first, i);
    }
  }

  /**
    Playback starts at once and keeps the take's order: the first delay is 0,
    and for a non-decreasing take every delay is non-negative and no task
    comes before an earlier hit's, quantized or not.
   */
  lemma ScheduleOrdered(take: seq<Event>, useQuantize: bool)
    requires take != []
    ensures Schedule(take, useQuantize)[0].delayMs == 0.0
    ensures Sorted(take) ==> forall i, j :: 0 <= i <= j < |take| ==>
      0.0 <= Schedule(take, useQuantize)[i].delayMs <= Schedule(take, useQuantize)[j].delayMs
  {
    if useQuantize && Sorted(take) {
      forall i, j | 0 <= i <= j < |take|
        ensures QuantizeMs(take[i].dt - take[0].dt) <= QuantizeMs(take[j].dt - take[0].dt)
      {
        QuantizeMonotone(take[i].dt - take[0].dt, take[j].dt - take[0].dt);
      }
    }
  }

  /**
    Quantized delays sit on the grid, within half a grid step of the recorded
    offset, and quantizing again changes nothing.
   */
  lemma QuantizedScheduleOnGrid(take: seq<Event>)
    requires take != [] && Sorted(take)
    ensures forall i :: 0 <= i < |take| ==>
      var d := Schedule(take, true)[i].delayMs;
      var raw := Schedule(take, false)[i].delayMs;
      OnGrid(d) && raw - GridMs / 2.0 < d <= raw + GridMs / 2.0 && QuantizeMs(d) == d
  {
    forall i | 0 <= i < |take|
      ensures QuantizeMs(QuantizeMs(take[i].dt - take[0].dt)) == QuantizeMs(take[i].dt - take[0].dt)
    {
      QuantizeIdempotent(take[i].dt - take[0].dt);
    }
  }

  /**
    For a non-decreasing take the metronome's auto-stop comes more than one
    click interval after every scheduled hit, quantized or not.
   */
  lemma MetronomeOutlastsSchedule(take: seq<Event>, useQuantize: bool)
    requires take != [] && Sorted(take)
    ensures forall i :: 0 <= i < |take| ==>
      Schedule(take, useQuantize)[i].delayMs + Metronome(take).intervalMs < Metronome(take).stopAfterMs
  {
  }

  /**
    Three hits at performance.now() 1000, 1130 and 1260 are stored at 0, 130
    and 260 ms, and play back quantized at 0, 125 and 250 ms.
   */
  lemma ExampleTake()
    ensures RecordAll([(Kick, 1000.0), (Snare, 1130.0), (HiHat, 1260.0)]).0 ==
      [Event(Kick, 0.0), Event(Snare, 130.0), Event(HiHat, 260.0)]
    ensures Schedule([Event(Kick, 0.0), Event(Snare, 130.0), Event(HiHat, 260.0)], true) ==
      [Task(0.0, Kick), Task(125.0, Snare), Task(250.0, HiHat)]
  {
    var hits := [(Kick, 1000.0), (Snare, 1130.0), (HiHat, 1260.0)];
    RecordAllOffsets(hits);
    var take := [Event(Kick, 0.0), Event(Snare, 130.0), Event(HiHat, 260.0)];
    QuantizeIsNearest(130.0, 1);
    QuantizeIsNearest(260.0, 2);
  }
}
