/** The session screen (Overview): which step is shown, the configured
    durations in seconds, the checkpoint of completed seconds, and the record
    sent to the history store when the session stops. */
module Session {
  import Clock
  import Options
  import History
  import Arith
  import Steps

  type Option<T> = Options.Option<T>

  /** The step the session screen is on; exactly one at a time. */
  datatype Status = NotStarted | ConfirmStart | InProgress | Paused | Stopped

  /** What can move the session on: the buttons each step shows, and the
      end of the in-progress timer (the complete cue has been played). */
  datatype Button = StartButton | YesButton | NoButton | PauseButton | StopButton | ResumeButton | CompleteCue

  /** The transition table: which event each step offers and where it leads.
      None means the step does not offer that event. */
  function Next(s: Status, b: Button): (r: Option<Status>)
    ensures s == Stopped ==> r.None?
    ensures r == Options.Some(Stopped) <==> (s == InProgress || s == Paused) && (b == StopButton || (s == InProgress && b == CompleteCue))
    ensures r == Options.Some(Paused) <==> s == InProgress && b == PauseButton
    ensures r == Options.Some(InProgress) <==> (s == ConfirmStart && b == YesButton) || (s == Paused && b == ResumeButton)
    ensures r == Options.Some(ConfirmStart) <==> s == NotStarted && b == StartButton
    ensures r == Options.Some(NotStarted) <==> s == ConfirmStart && b == NoButton
  {
    match (s, b)
    case (NotStarted, StartButton) => Options.Some(ConfirmStart)
    case (ConfirmStart, YesButton) => Options.Some(InProgress)
    case (ConfirmStart, NoButton) => Options.Some(NotStarted)
    case (InProgress, PauseButton) => Options.Some(Paused)
    case (InProgress, StopButton) => Options.Some(Stopped)
    case (InProgress, CompleteCue) => Options.Some(Stopped)
    case (Paused, ResumeButton) => Options.Some(InProgress)
    case (Paused, StopButton) => Options.Some(Stopped)
    case _ => Options.None
  }

  /** How many times a sequence of events enters Stopped, starting from s.
      An event the current step does not offer cannot be pressed and changes nothing. */
  function StopsAlong(s: Status, events: seq<Button>): nat
    decreases |events|
  {
    if events == [] then 0
    else
      match Next(s, events[0])
      case None => StopsAlong(s, events[1..])
      case Some(t) => (if t == Stopped then 1 else 0) + StopsAlong(t, events[1..])
  }

  /** Stopped is final, so whatever happens a session enters it (and posts
      its record) at most once. */
  lemma {:induction false} AtMostOneStop(s: Status, events: seq<Button>)
    ensures StopsAlong(s, events) <= 1
    ensures s == Stopped ==> StopsAlong(s, events) == 0
    decreases |events|
  {
    if events != [] {
      AtMostOneStop(s, events[1..]);
      match Next(s, events[0])
      case None =>
      case Some(t) => AtMostOneStop(t, events[1..]);
    }
  }

  /** The total actually run: whole laps only, any remainder dropped. It is
      the largest multiple of the lap that does not exceed the total. */
  function NormalizedTotal(total: nat, lap: nat): (r: nat)
    requires lap > 0
    ensures r <= total && r % lap == 0 && total - r < lap
  {
    var q := total / lap;
    Arith.DivMod(total, lap);
    Arith.MultipleOf(q, lap);
    assert total - q * lap == total % lap;
    q * lap
  }

  lemma NormalizeIdempotent(total: nat, lap: nat)
    requires lap > 0
    ensures NormalizedTotal(NormalizedTotal(total, lap), lap) == NormalizedTotal(total, lap)
  {
    Arith.MultipleOf(total / lap, lap);
  }

  /** The record posted when the session stops: now, the checkpoint, the
      whole laps it covers and the two phase lengths. */
  function StoppedRecord(now: int, completed: nat, run: nat, walk: nat): (e: History.Exercise)
    requires run + walk > 0
    ensures e.date == Options.Some(now) && e.duration == Options.Some(completed)
    ensures e.laps.Some? && e.laps.value * (run + walk) <= completed < (e.laps.value + 1) * (run + walk)
    ensures e.eachLapRunTime == Options.Some(run) && e.eachLapWalkTime == Options.Some(walk)
  {
    Arith.DivBounds(completed, run + walk);
    History.Exercise(Options.Some(now), Options.Some(completed), Options.Some(completed / (run + walk)),
                     Options.Some(run), Options.Some(walk))
  }

  /** The history screen shows a posted record's checkpoint and phase
      lengths exactly, and its lap count as stored. */
  lemma StoppedRecordShowsCheckpoint(now: int, completed: nat, run: nat, walk: nat, index: nat)
    requires run + walk > 0
    ensures Clock.ParseClock(History.RowFor(StoppedRecord(now, completed, run, walk), index).duration,
                             Clock.SpacedSeparator) == Options.Some(completed)
    ensures Clock.ParseClock(History.RowFor(StoppedRecord(now, completed, run, walk), index).runTime,
                             Clock.SpacedSeparator) == Options.Some(run)
    ensures Clock.ParseClock(History.RowFor(StoppedRecord(now, completed, run, walk), index).walkTime,
                             Clock.SpacedSeparator) == Options.Some(walk)
    ensures History.RowFor(StoppedRecord(now, completed, run, walk), index).date == now
  {
  }

  /** Which of the three form inputs changed. */
  datatype Field = RunTime | WalkTime | TotalTime

  class Overview {
    var status: Status
    var runSeconds: nat
    var walkSeconds: nat
    var totalSeconds: nat
    var completedSeconds: nat
    /** The records sent to the history store. */
    var posted: seq<History.Exercise>

    function Lap(): nat
      reads this
    {
      runSeconds + walkSeconds
    }

    /** Past the form, the lap is positive and the total is whole laps; the
        checkpoint is 0 until the workout runs; a record is posted exactly
        when the session is Stopped, and it describes the stopped session. */
    ghost predicate Valid()
      reads this
    {
      (status != NotStarted ==> Lap() > 0 && totalSeconds % Lap() == 0) &&
      ((status == NotStarted || status == ConfirmStart) ==> completedSeconds == 0) &&
      (status != Stopped ==> posted == []) &&
      (status == Stopped ==>
         (|posted| == 1 && posted[0].date.Some? &&
          posted[0] == StoppedRecord(posted[0].date.value, completedSeconds, runSeconds, walkSeconds)))
    }

    constructor ()
      ensures Valid()
      ensures status == NotStarted && posted == []
      ensures runSeconds == 0 && walkSeconds == 0 && totalSeconds == 0 && completedSeconds == 0
    {
      status := NotStarted;
      runSeconds, walkSeconds, totalSeconds, completedSeconds := 0, 0, 0, 0;
      posted := [];
    }

    /** A form input changed: the typed minutes go, as seconds, to the
        matching field and to no other. */
    method OnTimeUpdate(field: Field, minutes: nat)
      requires Valid() && status == NotStarted
      modifies this
      ensures Valid() && status == NotStarted && posted == old(posted)
      ensures completedSeconds == old(completedSeconds)
      ensures runSeconds == if field == RunTime then Steps.MinutesToSeconds(minutes) else old(runSeconds)
      ensures walkSeconds == if field == WalkTime then Steps.MinutesToSeconds(minutes) else old(walkSeconds)
      ensures totalSeconds == if field == TotalTime then Steps.MinutesToSeconds(minutes) else old(totalSeconds)
    {
      var seconds := Steps.MinutesToSeconds(minutes);
      match field
      case RunTime => runSeconds := seconds;
      case WalkTime => walkSeconds := seconds;
      case TotalTime => totalSeconds := seconds;
    }

    /** Start: the form moves to the confirmation step (no check of the
        values), which at once cuts the total down to whole laps. */
    method Start()
      requires Valid() && status == NotStarted
      requires Lap() > 0
      modifies this
      ensures Valid()
      ensures Options.Some(status) == Next(old(status), StartButton)
      ensures totalSeconds == NormalizedTotal(old(totalSeconds), Lap())
      ensures runSeconds == old(runSeconds) && walkSeconds == old(walkSeconds)
      ensures completedSeconds == old(completedSeconds) && posted == old(posted)
    {
      status := ConfirmStart;
      var laps := totalSeconds / Lap();
      var actual := laps * Lap();
      Arith.MultipleOf(laps, Lap());
      if totalSeconds != actual {
        totalSeconds := actual;
      }
    }

    /** The number of laps the confirmation step announces. */
    function ConfirmLaps(): (laps: nat)
      reads this
      requires Lap() > 0
      ensures laps * Lap() <= totalSeconds < (laps + 1) * Lap()
    {
      Arith.DivBounds(totalSeconds, Lap());
      totalSeconds / Lap()
    }

    /** Yes on the confirmation step. */
    method Confirm()
      requires Valid() && status == ConfirmStart
      modifies this
      ensures Valid()
      ensures Options.Some(status) == Next(old(status), YesButton)
      ensures runSeconds == old(runSeconds) && walkSeconds == old(walkSeconds) && totalSeconds == old(totalSeconds)
      ensures completedSeconds == old(completedSeconds) && posted == old(posted)
    {
      status := InProgress;
    }

    /** No on the confirmation step: back to the form, values kept. */
    method Decline()
      requires Valid() && status == ConfirmStart
      modifies this
      ensures Valid()
      ensures Options.Some(status) == Next(old(status), NoButton)
      ensures runSeconds == old(runSeconds) && walkSeconds == old(walkSeconds) && totalSeconds == old(totalSeconds)
      ensures completedSeconds == old(completedSeconds) && posted == old(posted)
    {
      status := NotStarted;
    }

    /** The lap length handed to the in-progress step: once the form is
        left it is positive and divides the total. */
    function InProgressLap(): (lap: nat)
      reads this
      ensures Valid() && status != NotStarted ==> lap > 0 && totalSeconds % lap == 0
    {
      Lap()
    }

    /** The lap count handed to the in-progress step. */

    function InProgressTotalLaps(): (laps: nat)
      reads this
      requires Lap() > 0
      ensures laps * InProgressLap() <= totalSeconds < (laps + 1) * InProgressLap()
    {
      Arith.DivBounds(totalSeconds, Lap());
      totalSeconds / (runSeconds + walkSeconds)
    }

    /** The in-progress step hands back its seconds as the checkpoint and
        the next step (Pause, Stop, or Stopped after the complete cue).
        Entering Stopped posts the session's record, dated now. */
    method LeaveInProgress(event: Button, checkpoint: nat, now: int)
      requires Valid() && status == InProgress
      requires event == PauseButton || event == StopButton || event == CompleteCue
      modifies this
      ensures Valid()
      ensures Options.Some(status) == Next(old(status), event)
      ensures completedSeconds == checkpoint
      ensures posted == if status == Stopped then [StoppedRecord(now, checkpoint, runSeconds, walkSeconds)] else []
      ensures runSeconds == old(runSeconds) && walkSeconds == old(walkSeconds) && totalSeconds == old(totalSeconds)
    {
      completedSeconds := checkpoint;
      status := if event == PauseButton then Paused else Stopped;
      if status == Stopped {
        PostRecord(now);
      }
    }

    /** Resume on the paused step; the in-progress step restarts from the checkpoint. */
    method Resume()
      requires Valid() && status == Paused
      modifies this
      ensures Valid()
      ensures Options.Some(status) == Next(old(status), ResumeButton)
      ensures runSeconds == old(runSeconds) && walkSeconds == old(walkSeconds) && totalSeconds == old(totalSeconds)
      ensures completedSeconds == old(completedSeconds) && posted == old(posted)
    {
      status := InProgress;
    }

    /** Stop on the paused step: the record uses the frozen checkpoint. */
    method StopWhilePaused(now: int)
      requires Valid() && status == Paused
      modifies this
      ensures Valid()
      ensures Options.Some(status) == Next(old(status), StopButton)
      ensures posted == [StoppedRecord(now, completedSeconds, runSeconds, walkSeconds)]
      ensures runSeconds == old(runSeconds) && walkSeconds == old(walkSeconds) && totalSeconds == old(totalSeconds)
      ensures completedSeconds == old(completedSeconds)
    {
      status := Stopped;
      PostRecord(now);
    }

    /** The effect that runs when the status becomes Stopped. */
    method PostRecord(now: int)
      requires status == Stopped && Lap() > 0 && posted == []
      modifies this`posted
      ensures posted == [StoppedRecord(now, completedSeconds, runSeconds, walkSeconds)]
    {
      posted := posted + [StoppedRecord(now, completedSeconds, runSeconds, walkSeconds)];
    }

    /** The stopped step's summary: whole laps done out of laps planned. */
    function StoppedSummary(): (r: (nat, nat))
      reads this
      requires Lap() > 0
      ensures r.0 * Lap() <= completedSeconds < (r.0 + 1) * Lap()
      ensures r.1 * Lap() <= totalSeconds < (r.1 + 1) * Lap()
    {
      var lap := Lap();
      var done, planned := completedSeconds / lap, totalSeconds / lap;
      Arith.DivBounds(completedSeconds, lap);
      Arith.DivBounds(totalSeconds, lap);
      assert done * lap <= completedSeconds < (done + 1) * lap;
      assert planned * lap <= totalSeconds < (planned + 1) * lap;
      (done, planned)
    }
  }
}
