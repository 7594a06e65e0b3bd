/**
  The sequencer's module-level state and its handlers (app.js, "Recording"):
  `recording`, the take `rec`, the reference stamp `recStart`, the playback
  timers and the metronome timer, and the Record, Play and Clear buttons.

  Host inputs become parameters: `stamp` is performance.now(), `audioNow` is
  the audio clock, and the metronome and quantize checkboxes are booleans.
  Timers are kept as data: a playback timer is the Task it will run, the
  metronome timer is its interval together with its auto-stop delay.
 */
module Recording {
  import opened Wrappers
  import opened Voices
  import opened Takes

  /** A sound scheduled this far past the audio clock when no time is given (seconds). */
  const Lookahead: real := 0.0005

  class Sequencer {
    var recording: bool
    var rec: seq<Event>
    var recStart: Option<real>
    var timers: seq<Task>
    var clickTimer: Option<Click>

    /** The latest performance.now() seen; the host clock never goes back. */
    ghost var lastStamp: real

    /**
      The take is anchored at its first hit and in time order, and no hit
      lies after the latest clock reading.
     */
    ghost predicate Valid()
      reads this
    {
      Anchored(rec, recStart) && Sorted(rec) &&
      (rec != [] ==> rec[|rec| - 1].dt <= lastStamp - recStart.value)
    }

    /** The state at page load: not recording, nothing recorded, nothing scheduled. */
    constructor ()
      ensures Valid()
      ensures !recording && rec == [] && recStart == None
      ensures timers == [] && clickTimer == None
      ensures lastStamp == 0.0
    {
      recording := false;
      rec := [];
      recStart := None;
      timers := [];
      clickTimer := None;
      lastStamp := 0.0;
    }

    /**
      stopTimers: clears every playback timer, in order, then the metronome.
      Returns the tasks whose timers were cleared.
     */
    method StopTimers() returns (cancelled: seq<Task>)
      modifies this
      ensures cancelled == old(timers)
      ensures timers == [] && clickTimer == None
      ensures recording == old(recording) && rec == old(rec) && recStart == old(recStart)
      ensures lastStamp == old(lastStamp)
    {
      cancelled := [];
      for i := 0 to |timers|
        invariant cancelled == timers[..i]
      {
        cancelled := cancelled + [timers[i]];
      }
      timers := [];
      if clickTimer.Some? {
        clickTimer := None;
      }
    }

    /**
      trigger(id, fromPlayback, atTime): plays the pad's voice at `atTime`, or
      just past the audio clock, and, while recording and not replaying,
      appends the hit to the take.
     */
    method Trigger(id: Instrument, fromPlayback: bool, atTime: Option<real>, audioNow: real, stamp: real)
      returns (voice: Voice)
      requires Valid() && lastStamp <= stamp
      modifies this
      ensures Valid()
      ensures voice == Sound(id, atTime.GetOr(audioNow + Lookahead)) && WellTimed(voice)
      ensures recording && !fromPlayback ==> (rec, recStart) == RecordHit(old(rec), old(recStart), id, stamp)
      ensures !(recording && !fromPlayback) ==> rec == old(rec) && recStart == old(recStart)
      ensures recording == old(recording) && timers == old(timers) && clickTimer == old(clickTimer)
      ensures lastStamp == stamp
    {
      var t := atTime.GetOr(audioNow + Lookahead);
      voice := Sound(id, t);
      if recording && !fromPlayback {
        if recStart.None? {
          recStart := Some(stamp);
        }
        SortedAppend(rec, Event(id, stamp - recStart.value));
        rec := rec + [Event(id, stamp - recStart.value)];
      }
      lastStamp := stamp;
    }

    /**
      The Record button: cancels all timers and toggles recording; starting a
      take throws the previous one away, stopping keeps it.
     */
    method Record() returns (cancelled: seq<Task>)
      requires Valid()
      modifies this
      ensures Valid()
      ensures cancelled == old(timers)
      ensures timers == [] && clickTimer == None
      ensures recording == !old(recording)
      ensures recording ==> rec == [] && recStart == None
      ensures !recording ==> rec == old(rec) && recStart == old(recStart)
      ensures lastStamp == old(lastStamp)
    {
      cancelled := StopTimers();
      recording := !recording;
      if recording {
        rec := [];
        recStart := None;
      }
    }

    /**
      The Play button: cancels all timers; on an empty take it reports
      "Nothing recorded yet." and schedules nothing. Otherwise it optionally
      starts the metronome and creates one timer per hit, in take order.
      The take itself is never changed.
     */
    method Play(metronome: bool, useQuantize: bool) returns (started: bool, cancelled: seq<Task>)
      requires Valid()
      modifies this
      ensures Valid()
      ensures cancelled == old(timers)
      ensures recording == old(recording) && rec == old(rec) && recStart == old(recStart)
      ensures started == (rec != [])
      ensures !started ==> timers == [] && clickTimer == None
      ensures started ==> timers == Schedule(rec, useQuantize)
      ensures started ==> clickTimer == (if metronome then Some(Metronome(rec)) else None)
      ensures started ==> timers[0].delayMs == 0.0
      ensures started ==> forall i, j :: 0 <= i <= j < |timers| ==> 0.0 <= timers[i].delayMs <= timers[j].delayMs
      ensures lastStamp == old(lastStamp)
    {
      cancelled := StopTimers();
      if |rec| == 0 {
        return false, cancelled;
      }
      started := true;
      var first := rec[0].dt;
      var last := rec[|rec| - 1].dt;
      var duration := last - first;
      if metronome {
        var interval := 60000.0 / Bpm;
        clickTimer := Some(Click(interval, duration + AutoStopSlackMs));
      }
      var events := if useQuantize then Quantized(rec, first) else rec;
      for i := 0 to |events|
        invariant timers == ScheduleFrom(events[..i], first)
        invariant rec == old(rec) && recStart == old(recStart) && recording == old(recording)
        invariant lastStamp == old(lastStamp)
        invariant clickTimer == (if metronome then Some(Metronome(rec)) else None)
      {
        var ev := events[i];
        assert events[..i + 1][..i] == events[..i];
        timers := timers + [Task(ev.dt - first, ev.id)];
      }
      assert events[..|events|] == events;
      ScheduleOrdered(rec, useQuantize);
    }

    /** The Clear button: cancels all timers, stops recording and empties the take. */
    method Clear() returns (cancelled: seq<Task>)
      modifies this
      ensures Valid()
      ensures cancelled == old(timers)
      ensures !recording && rec == [] && recStart == None
      ensures timers == [] && clickTimer == None
      ensures lastStamp == old(lastStamp)
    {
      cancelled := StopTimers();
      recording := false;
      rec := [];
      recStart := None;
    }

    /**
      A playback timer firing: the task's pad is triggered as a replay just
      past the audio clock, so the take is never re-recorded.
     */
    method FireTask(task: Task, audioNow: real, stamp: real) returns (voice: Voice)
      requires Valid() && lastStamp <= stamp
      modifies this
      ensures Valid()
      ensures voice == Sound(task.id, audioNow + Lookahead)
      ensures rec == old(rec) && recStart == old(recStart) && recording == old(recording)
      ensures timers == old(timers) && clickTimer == old(clickTimer)
      ensures lastStamp == stamp
    {
      voice := Trigger(task.id, true, Some(audioNow + Lookahead), audioNow, stamp);
    }

    /** The metronome's auto-stop timer firing: the metronome, if running, is cleared. */
    method AutoStop()
      modifies this
      ensures clickTimer == None
      ensures recording == old(recording) && rec == old(rec) && recStart == old(recStart)
      ensures timers == old(timers)
      ensures lastStamp == old(lastStamp)
    {
      if clickTimer.Some? {
        clickTimer := None;
      }
    }
  }

  /**
    A session driven through the handlers: record three hits at
    performance.now() 1000, 1130 and 1260, stop, and play back quantized.
   */
  method ExampleSession() returns (tasks: seq<Task>)
    ensures tasks == [Task(0.0, Kick), Task(125.0, Snare), Task(250.0, HiHat)]
  {
    var s := new Sequencer();
    var _ := s.Record();
    var _ := s.Trigger(Kick, false, None, 0.0, 1000.0);
    var _ := s.Trigger(Snare, false, None, 0.1, 1130.0);
    var _ := s.Trigger(HiHat, false, None, 0.2, 1260.0);
    var _ := s.Record();
    var _, _ := s.Play(false, true);
    tasks := s.timers;
    ExampleTake();
    assert s.rec == RecordAll([(Kick, 1000.0), (Snare, 1130.0), (HiHat, 1260.0)]).0;
  }
}
