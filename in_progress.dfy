/** The in-progress step: a seconds counter that starts at the session's
    checkpoint and goes up by one on every tick of a one-second interval,
    the rule that maps each second to a cue, and the Pause and Stop buttons
    that hand the counter back to the session as the new checkpoint. */
module InProgress {
  import Clock
  import Options
  import Arith
  import Session

  type Option<T> = Options.Option<T>

  datatype Cue = Run | Walk | Complete

  /** The foreground cue rule for second s: past the total the workout is
      complete; otherwise a lap start (second 0 included) is Run, and the
      end of the run phase is Walk. Run is tested first. */
  function ForegroundCue(s: nat, total: nat, lap: nat, run: nat): (r: Option<Cue>)
    requires lap > 0
    ensures r == Options.Some(Complete) <==> s >= total
    ensures r == Options.Some(Run) <==> s < total && s == LapsDone(s, lap) * lap
    ensures r == Options.Some(Walk) <==> s < total && 0 < run < lap && s == LapsDone(s, lap) * lap + run
  {
    Arith.DivMod(s, lap);
    assert s - LapsDone(s, lap) * lap == s % lap;
    if s >= total then Options.Some(Complete)
    else if s % lap == 0 then Options.Some(Run)
    else if s % lap == run then Options.Some(Walk)
    else Options.None
  }

  /** Which phase of its lap second s lies in. */
  datatype Phase = Running | Walking

  function PhaseAt(s: nat, lap: nat, run: nat): Phase
    requires lap > 0
  {
    if s % lap < run then Running else Walking
  }

  /** The remainder of s - 1 from that of s. */
  lemma PredecessorRemainder(s: nat, lap: nat)
    requires lap > 0 && s > 0
    ensures (s - 1) % lap == if s % lap == 0 then lap - 1 else s % lap - 1
  {
    Arith.DivMod(s, lap);
    if s % lap == 0 {
      Arith.DivUnique(s - 1, lap, s / lap - 1, lap - 1);
    } else {
      Arith.DivUnique(s - 1, lap, s / lap, s % lap - 1);
    }
  }

  /** With both phases non-empty, a cue fires during the workout exactly
      when the phase changes, and it names the phase that begins. */
  lemma CueMarksPhaseChange(s: nat, total: nat, lap: nat, run: nat)
    requires 0 < run < lap && 0 < s < total
    ensures ForegroundCue(s, total, lap, run) == Options.Some(Run)
        <==> PhaseAt(s - 1, lap, run) == Walking && PhaseAt(s, lap, run) == Running
    ensures ForegroundCue(s, total, lap, run) == Options.Some(Walk)
        <==> PhaseAt(s - 1, lap, run) == Running && PhaseAt(s, lap, run) == Walking
    ensures ForegroundCue(s, total, lap, run) == Options.None
        <==> PhaseAt(s - 1, lap, run) == PhaseAt(s, lap, run)
  {
    PredecessorRemainder(s, lap);
  }

  /** Every lap start before the total gives Run, second 0 included, so a
      session resumed from a checkpoint on a lap boundary plays Run again. */
  lemma RunAtEveryLapStart(k: nat, total: nat, lap: nat, run: nat)
    requires lap > 0 && k * lap < total
    ensures ForegroundCue(k * lap, total, lap, run) == Options.Some(Run)
  {
    Arith.MultipleOf(k, lap);
  }

  /** When both modulo tests hold (a zero-length run phase), Run wins. */
  lemma RunBeatsWalk(s: nat, total: nat, lap: nat)
    requires lap > 0 && s < total && s % lap == 0
    ensures ForegroundCue(s, total, lap, 0) == Options.Some(Run)
  {
  }

  /** Run 60 s, walk 30 s, total 540 s. */
  lemma ForegroundScenario()
    ensures ForegroundCue(0, 540, 90, 60) == Options.Some(Run)
    ensures ForegroundCue(59, 540, 90, 60) == Options.None
    ensures ForegroundCue(60, 540, 90, 60) == Options.Some(Walk)
    ensures ForegroundCue(90, 540, 90, 60) == Options.Some(Run)
    ensures ForegroundCue(540, 540, 90, 60) == Options.Some(Complete)
  {
  }

  /** Whole laps done at second s. */
  function LapsDone(s: nat, lap: nat): (laps: nat)
    requires lap > 0
    ensures laps * lap <= s < (laps + 1) * lap
  {
    var q := s / lap;
    Arith.DivBounds(s, lap);
    assert q * lap <= s < (q + 1) * lap;
    q
  }

  lemma LapsDoneMonotone(s: nat, t: nat, lap: nat)
    requires lap > 0 && s <= t
    ensures LapsDone(s, lap) <= LapsDone(t, lap)
  {
    Arith.DivMonotone(s, t, lap);
  }

  /** The counter values the cue effect runs for during a visit of n ticks
      from start, as written: its dependency list holds the interval handle
      too, so it runs once on mount, once more at the same counter value
      when the handle is stored, and then once per tick. */
  function EffectSecondsAsWritten(start: nat, n: nat): (r: seq<nat>)
    ensures |r| == n + 2 && r[0] == start && r[1] == start
    ensures forall i :: 2 <= i < |r| ==> r[i] == start + i - 1
  {
    [start] + EffectSeconds(start, n)
  }

  /** With the counter as the effect's only changing dependency, the effect
      runs once on mount and once per tick. */
  function EffectSeconds(start: nat, n: nat): seq<nat> {
    seq(n + 1, i requires 0 <= i <= n => start + i)
  }

  /** The cues each run of the effect selects. */
  function CuesFor(ss: seq<nat>, total: nat, lap: nat, run: nat): seq<Option<Cue>>
    requires lap > 0
  {
    seq(|ss|, i requires 0 <= i < |ss| => ForegroundCue(ss[i], total, lap, run))
  }

  /** As written, mounting the step at a lap boundary (a fresh start, or a
      resume from a checkpoint on one) plays Run twice for the same second. */
  lemma StartCuePlayedTwiceAsWritten(start: nat, n: nat, total: nat, lap: nat, run: nat)
    requires lap > 0 && start < total && start % lap == 0
    ensures CuesFor(EffectSecondsAsWritten(start, n), total, lap, run)[..2] == [Options.Some(Run), Options.Some(Run)]
  {
    var cues := CuesFor(EffectSecondsAsWritten(start, n), total, lap, run);
    assert cues[0] == Options.Some(Run) && cues[1] == Options.Some(Run);
  }

  /** A fresh start of the 60/30/540 workout: as written the first two
      effect runs both play Run for second 0. */
  lemma FreshStartCuesAsWritten()
    ensures CuesFor(EffectSecondsAsWritten(0, 1), 540, 90, 60) == [Options.Some(Run), Options.Some(Run), Options.None]
  {
    var cues := CuesFor(EffectSecondsAsWritten(0, 1), 540, 90, 60);
    assert EffectSecondsAsWritten(0, 1) == [0, 0, 1];
  }

  /** Without the handle in the dependencies, no two runs of the effect
      see the same second, so no second's cue is selected twice; and every
      second of the visit is seen. */
  lemma EachSecondCuedOnce(start: nat, n: nat)
    ensures forall i, j :: 0 <= i < j < n + 1 ==> EffectSeconds(start, n)[i] != EffectSeconds(start, n)[j]
    ensures forall s :: start <= s <= start + n ==> s in EffectSeconds(start, n)
  {
    var ss := EffectSeconds(start, n);
    forall s | start <= s <= start + n
      ensures s in ss
    {
      assert ss[s - start] == s;
    }
  }

  /** What the step hands back to the session: the checkpoint and the event. */
  datatype Exit = Exit(checkpoint: nat, event: Session.Button)

  class Timer {
    /** The counter. */
    var seconds: nat
    /** Whether the one-second interval is set and not yet cleared. */
    var ticking: bool
    const run: nat
    const lap: nat
    const total: nat
    const totalLaps: nat

    /** Mounting the step: the counter starts at the checkpoint and the
        interval is set. */
    constructor (completed: nat, run: nat, lap: nat, total: nat, totalLaps: nat)
      requires lap > 0
      ensures seconds == completed && ticking
      ensures this.run == run && this.lap == lap && this.total == total && this.totalLaps == totalLaps
    {
      this.run, this.lap, this.total, this.totalLaps := run, lap, total, totalLaps;
      seconds := completed;
      ticking := true;
    }

    /** One firing of the interval: exactly one second more, and nothing
        once the interval is cleared. */
    method Tick()
      modifies this`seconds
      ensures seconds == old(seconds) + (if ticking then 1 else 0)
    {
      if ticking {
        seconds := seconds + 1;
      }
    }

    /** The cue effect, run when the counter changes. At or past the total it
        plays the complete cue and, once that playback has resolved
        (completePlayed), clears the interval and leaves with the counter as
        the checkpoint and the session Stopped. */
    method OnSecondsChanged(completePlayed: bool) returns (cue: Option<Cue>, exit: Option<Exit>)
      requires lap > 0
      modifies this`ticking
      ensures cue == ForegroundCue(seconds, total, lap, run)
      ensures exit == if seconds >= total && completePlayed then Options.Some(Exit(seconds, Session.CompleteCue)) else Options.None
      ensures ticking == (old(ticking) && exit.None?)
    {
      exit := Options.None;
      if seconds >= total {
        cue := Options.Some(Complete);
        if completePlayed {
          ticking := false;
          exit := Options.Some(Exit(seconds, Session.CompleteCue));
        }
      } else if seconds % lap == 0 {
        cue := Options.Some(Run);
      } else if seconds % lap == run {
        cue := Options.Some(Walk);
      } else {
        cue := Options.None;
      }
    }

    /** Pause or Stop: clear the interval and hand the current counter back
        as the checkpoint, with the chosen event. */
    method OnButtonClick(event: Session.Button) returns (exit: Exit)
      requires event == Session.PauseButton || event == Session.StopButton
      modifies this`ticking
      ensures !ticking
      ensures exit == Exit(seconds, event)
    {
      ticking := false;
      exit := Exit(seconds, event);
    }

    /** The two lines the step shows. */
    function TimeText(): (t: (string, string))
      reads this
      ensures Clock.ParseClock(t.0, Clock.SpacedSeparator) == Options.Some(seconds)
      ensures Clock.ParseClock(t.1, Clock.SpacedSeparator) == Options.Some(total)
    {
      Clock.SeparatorsAreReadable();
      Clock.FormatClockRoundTrip(seconds, Clock.SpacedSeparator);
      Clock.FormatClockRoundTrip(total, Clock.SpacedSeparator);
      (Clock.FormatClock(seconds, Clock.SpacedSeparator), Clock.FormatClock(total, Clock.SpacedSeparator))
    }

    function LapsText(): (r: (nat, nat))
      reads this
      requires lap > 0
      ensures r.0 * lap <= seconds < (r.0 + 1) * lap && r.1 == totalLaps
    {
      (LapsDone(seconds, lap), totalLaps)
    }
  }

  /** A whole visit to the step, as the session sees it: mount from the
      checkpoint, n ticks, then Pause. The session's new checkpoint is the
      old one plus n, and resuming starts the counter there. */
  method PauseAfterTicks(o: Session.Overview, n: nat) returns (t: Timer)
    requires o.Valid() && o.status == Session.InProgress
    modifies o
    ensures o.Valid() && o.status == Session.Paused
    ensures o.completedSeconds == old(o.completedSeconds) + n
    ensures fresh(t) && !t.ticking && t.seconds == o.completedSeconds
    ensures o.runSeconds == old(o.runSeconds) && o.walkSeconds == old(o.walkSeconds)
    ensures o.totalSeconds == old(o.totalSeconds) && o.posted == []
  {
    t := new Timer(o.completedSeconds, o.runSeconds, o.InProgressLap(), o.totalSeconds, o.InProgressTotalLaps());
    var i := 0;
    while i < n
      invariant 0 <= i <= n
      invariant t.ticking && t.seconds == old(o.completedSeconds) + i
      invariant o.Valid() && o.status == Session.InProgress && o.completedSeconds == old(o.completedSeconds)
      invariant o.runSeconds == old(o.runSeconds) && o.walkSeconds == old(o.walkSeconds)
      invariant o.totalSeconds == old(o.totalSeconds)
    {
      t.Tick();
      i := i + 1;
    }
    var exit := t.OnButtonClick(Session.PauseButton);
    o.LeaveInProgress(exit.event, exit.checkpoint, 0);
  }
}
