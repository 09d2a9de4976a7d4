/** The service worker's background side: decoded cue buffers, a playback
    guard, and a workout check that recomputes elapsed whole seconds from the
    wall clock on every call and reschedules itself until the total is
    reached. The clock reading and each playback's outcome are inputs. */
module ServiceWorker {
  import Options
  import Arith
  import InProgress

  type Option<T> = Options.Option<T>
  type Cue = InProgress.Cue

  const RunFile: string := "./run.mp3"
  const WalkFile: string := "./walk.mp3"
  const CompleteFile: string := "./complete.mp3"
  const AudioFiles: seq<string> := [RunFile, WalkFile, CompleteFile]

  /** The workout description the page sends with START_BACKGROUND_WORKOUT. */
  datatype WorkoutData = WorkoutData(startTime: int, isActive: bool, lapTimeInSeconds: nat,
                                     runTimeInSeconds: nat, totalTimeInSeconds: int)

  /** Whole seconds since the start instant, rounded down (the divisor is
      positive, so Euclidean division is the floor). */
  function Elapsed(now: int, startTime: int): (e: int)
    ensures e * 1000 <= now - startTime < (e + 1) * 1000
  {
    Arith.DivBounds(now - startTime, 1000);
    (now - startTime) / 1000
  }

  lemma ElapsedMonotone(now: int, later: int, startTime: int)
    requires now <= later
    ensures Elapsed(now, startTime) <= Elapsed(later, startTime)
  {
    Arith.DivMonotone(now - startTime, later - startTime, 1000);
  }

  /** Checks at least a second apart never see the same second. */
  lemma ElapsedAdvances(now: int, later: int, startTime: int)
    requires later >= now + 1000
    ensures Elapsed(later, startTime) >= Elapsed(now, startTime) + 1
  {
  }

  /** The script's % operator: the remainder takes the sign of the dividend. */
  function JsRemainder(a: int, n: int): (r: int)
    requires n > 0
    ensures -n < r < n && (a - r) % n == 0
    ensures a >= 0 ==> r == a % n
    ensures a <= 0 ==> r <= 0
  {
    var r := if a >= 0 then a % n else -((-a) % n);
    RemainderDivides(a, n, r);
    r
  }

  /** A negative dividend has a zero JavaScript remainder exactly when the
      divisor divides it. */
  lemma NegativeRemainder(a: int, n: int)
    requires n > 0 && a < 0
    ensures JsRemainder(a, n) == 0 <==> a % n == 0
  {
    var q := a / n;
    Arith.DivMod(a, n);
    if a % n == 0 {
      assert -a == (-q) * n;
      Arith.MultipleOf(-q, n);
    } else {
      var m := -a;
      var p := m / n;
      Arith.DivMod(m, n);
      if m % n == 0 {
        assert a == (-p) * n;
        Arith.MultipleOf(-p, n);
      }
    }
  }

  lemma RemainderDivides(a: int, n: int, r: int)
    requires n > 0 && r == if a >= 0 then a % n else -((-a) % n)
    ensures (a - r) % n == 0
  {
    var b := if a >= 0 then a else -a;
    var q := b / n;
    Arith.DivMod(b, n);
    if a >= 0 {
      assert a - r == q * n;
      Arith.MultipleOf(q, n);
    } else {
      assert a - r == (-q) * n;
      Arith.MultipleOf(-q, n);
    }
  }

  /** The background cue rule: Run at a lap start other than second 0,
      otherwise Walk at the end of the run phase. A zero lap makes the
      remainder NaN in the script, so neither test passes. */
  function BackgroundCue(elapsed: int, lap: nat, run: nat): (r: Option<Cue>)
    ensures r.Some? ==> lap > 0 && r != Options.Some(InProgress.Complete)
    ensures r == Options.Some(InProgress.Run) <==> lap > 0 && elapsed > 0 && elapsed % lap == 0
    ensures lap > 0 && elapsed >= 0 ==>
              (r == Options.Some(InProgress.Walk) <==> elapsed % lap == run && (elapsed == 0 || run != 0))
    ensures lap > 0 && elapsed < 0 ==>
              (r == Options.Some(InProgress.Walk) <==> run == 0 && elapsed % lap == 0)
  {
    assert lap > 0 && elapsed < 0 ==> (JsRemainder(elapsed, lap) == 0 <==> elapsed % lap == 0) by {
      if lap > 0 && elapsed < 0 {
        NegativeRemainder(elapsed, lap);
      }
    }
    if lap > 0 && JsRemainder(elapsed, lap) == 0 && elapsed > 0 then Options.Some(InProgress.Run)
    else if lap > 0 && JsRemainder(elapsed, lap) == run then Options.Some(InProgress.Walk)
    else Options.None
  }

  /** Before the total, both schedulers agree on every second except 0,
      where the foreground plays Run and the background does not. */
  lemma BackgroundAgreesWithForeground(e: nat, total: nat, lap: nat, run: nat)
    requires lap > 0 && e < total
    ensures e > 0 ==> BackgroundCue(e, lap, run) == InProgress.ForegroundCue(e, total, lap, run)
    ensures e == 0 ==> InProgress.ForegroundCue(e, total, lap, run) == Options.Some(InProgress.Run)
    ensures e == 0 ==> BackgroundCue(e, lap, run) == (if run == 0 then Options.Some(InProgress.Walk) else Options.None)
  {
  }

  function CueFile(c: Cue): string {
    match c
    case Run => RunFile
    case Walk => WalkFile
    case Complete => CompleteFile
  }

  /** What one check does: the files it asks to play, in order, the elapsed
      time it reports on completion, and whether it schedules another check. */
  datatype CheckResult = CheckResult(plays: seq<string>, completedAt: Option<int>, reschedule: bool)

  function Check(w: Option<WorkoutData>, now: int): (r: CheckResult)
    ensures (w.None? || !w.value.isActive) ==> r == CheckResult([], Options.None, false)
    ensures r.completedAt.Some? <==> (w.Some? && w.value.isActive && !r.reschedule)
    ensures w.Some? && w.value.isActive ==>
              (r.completedAt.Some? <==> Elapsed(now, w.value.startTime) >= w.value.totalTimeInSeconds)
    ensures r.completedAt.Some? ==> r.completedAt.value >= w.value.totalTimeInSeconds
                                    && r.completedAt.value == Elapsed(now, w.value.startTime)
                                    && r.plays != [] && r.plays[|r.plays| - 1] == CompleteFile
    ensures r.reschedule ==> CompleteFile !in r.plays
    ensures |r.plays| <= 2 && forall i :: 0 <= i < |r.plays| ==> r.plays[i] in AudioFiles
  {
    match w
    case None => CheckResult([], Options.None, false)
    case Some(d) =>
      if !d.isActive then CheckResult([], Options.None, false)
      else
        var e := Elapsed(now, d.startTime);
        var cuePlays := match BackgroundCue(e, d.lapTimeInSeconds, d.runTimeInSeconds)
                        case Some(c) => [CueFile(c)]
                        case None => [];
        if e >= d.totalTimeInSeconds then CheckResult(cuePlays + [CompleteFile], Options.Some(e), false)
        else CheckResult(cuePlays, Options.None, true)
  }

  /** Before the total, a check plays exactly the file of the cue the page
      would play for that second, except at second 0. */
  lemma CheckPlaysForegroundCue(d: WorkoutData, now: int)
    requires d.isActive && d.lapTimeInSeconds > 0
    requires 0 < Elapsed(now, d.startTime) < d.totalTimeInSeconds
    ensures Check(Options.Some(d), now).reschedule
    ensures Check(Options.Some(d), now).plays ==
              match InProgress.ForegroundCue(Elapsed(now, d.startTime), d.totalTimeInSeconds,
                                             d.lapTimeInSeconds, d.runTimeInSeconds)
              case Some(c) => [CueFile(c)]
              case None => []
  {
    var e := Elapsed(now, d.startTime);
    BackgroundAgreesWithForeground(e, d.totalTimeInSeconds, d.lapTimeInSeconds, d.runTimeInSeconds);
  }

  /** What any active check plays, in terms of the elapsed second's
      remainder: Run on a lap boundary after second 0; otherwise Walk when
      the lap position is the run time (at second 0 or before, only with a
      run time of 0 on a boundary); then Complete once the total is reached. */
  lemma CheckPlaysByRemainder(d: WorkoutData, now: int)
    requires d.isActive
    ensures var e, lap, run := Elapsed(now, d.startTime), d.lapTimeInSeconds, d.runTimeInSeconds;
            Check(Options.Some(d), now).plays ==
              (if lap > 0 && e > 0 && e % lap == 0 then [RunFile]
               else if lap > 0 && ((e > 0 && e % lap == run && run != 0) || (e <= 0 && run == 0 && e % lap == 0))
               then [WalkFile]
               else [])
              + (if e >= d.totalTimeInSeconds then [CompleteFile] else [])
  {
  }

  /** The first second of the workout plays no Run, unlike the page: only a
      run time of 0 makes it play Walk. */
  lemma CheckAtSecondZero(d: WorkoutData, now: int)
    requires d.isActive && d.lapTimeInSeconds > 0
    requires Elapsed(now, d.startTime) == 0 < d.totalTimeInSeconds
    ensures Check(Options.Some(d), now).reschedule
    ensures Check(Options.Some(d), now).plays == if d.runTimeInSeconds == 0 then [WalkFile] else []
  {
    CheckPlaysByRemainder(d, now);
  }

  /** The cue test comes before the completion test: a completing check on a
      lap boundary plays Run and then Complete. */
  lemma RunThenCompleteOnBoundary(d: WorkoutData, now: int)
    requires d.isActive && d.lapTimeInSeconds > 0
    requires Elapsed(now, d.startTime) > 0 && Elapsed(now, d.startTime) % d.lapTimeInSeconds == 0
    requires Elapsed(now, d.startTime) >= d.totalTimeInSeconds
    ensures Check(Options.Some(d), now).plays == [RunFile, CompleteFile]
  {
  }

  /** A file played by a run of self-rescheduled checks, with the second it was played for. */
  datatype Played = Played(second: int, file: string)

  /** The chain of checks of one undisturbed workout, at the given clock
      readings; it ends at the first check that does not reschedule. */
  function Chain(d: WorkoutData, nows: seq<int>): (r: seq<Played>)
    ensures |r| <= 2 * |nows|
    ensures forall k :: 0 <= k < |r| ==> r[k].file in AudioFiles
    decreases |nows|
  {
    if nows == [] then []
    else
      var r := Check(Options.Some(d), nows[0]);
      var e := Elapsed(nows[0], d.startTime);
      var here := seq(|r.plays|, i requires 0 <= i < |r.plays| => Played(e, r.plays[i]));
      here + (if r.reschedule then Chain(d, nows[1..]) else [])
  }

  /** No replay: everything played is for a second some check actually saw. */
  lemma {:induction false} ChainPlaysOnlyObservedSeconds(d: WorkoutData, nows: seq<int>, k: nat)
    requires k < |Chain(d, nows)|
    ensures exists i :: 0 <= i < |nows| && Chain(d, nows)[k].second == Elapsed(nows[i], d.startTime)
    decreases |nows|
  {
    var r := Check(Options.Some(d), nows[0]);
    if k >= |r.plays| {
      ChainPlaysOnlyObservedSeconds(d, nows[1..], k - |r.plays|);
      var i :| 0 <= i < |nows[1..]| && Chain(d, nows[1..])[k - |r.plays|].second == Elapsed(nows[1..][i], d.startTime);
      assert nows[1..][i] == nows[i + 1];
    } else {
      assert Chain(d, nows)[k].second == Elapsed(nows[0], d.startTime);
    }
  }

  /** Complete is played at most once, and nothing is played after it. */
  lemma {:induction false} ChainCompleteIsLast(d: WorkoutData, nows: seq<int>, k: nat)
    requires k < |Chain(d, nows)| && Chain(d, nows)[k].file == CompleteFile
    ensures k == |Chain(d, nows)| - 1
    decreases |nows|
  {
    var r := Check(Options.Some(d), nows[0]);
    if r.reschedule {
      assert forall i :: 0 <= i < |r.plays| ==> r.plays[i] != CompleteFile;
      ChainCompleteIsLast(d, nows[1..], k - |r.plays|);
    } else {
      assert |Chain(d, nows)| == |r.plays|;
      assert r.plays[k] == CompleteFile;
    }
  }

  /** Run 60 s, walk 30 s, total 540 s: checks that observe seconds 58 and 95
      play nothing, so the Walk due at 60 and the Run due at 90 are lost. */
  lemma SkippedSecondsAreLost()
    ensures Chain(WorkoutData(0, true, 90, 60, 540), [58_000, 95_000]) == []
  {
  }

  datatype ClientMessage = WorkoutComplete(completedTime: int)

  /** The worker's module-level state. */
  class Globals {
    var hasAudioContext: bool
    /** Keys of the decoded buffers. */
    var audioBuffers: set<string>
    var activeWorkout: Option<WorkoutData>
    /** Messages posted to the pages (one broadcast per completion). */
    var clientMessages: seq<ClientMessage>

    constructor ()
      ensures !hasAudioContext && audioBuffers == {} && activeWorkout == Options.None && clientMessages == []
    {
      hasAudioContext, audioBuffers, activeWorkout, clientMessages := false, {}, Options.None, [];
    }

    /** INIT_BACKGROUND_AUDIO: create a context if the platform has one and
        store a buffer for every file that fetched and decoded; a failing file
        does not stop the others. Earlier buffers stay. */
    method InitializeAudio(contextAvailable: bool, constructs: bool, decoded: seq<bool>)
      requires |decoded| == |AudioFiles|
      modifies this
      ensures hasAudioContext == (old(hasAudioContext) || (contextAvailable && constructs))
      ensures audioBuffers == if contextAvailable && constructs
                              then old(audioBuffers) + (set i | 0 <= i < |AudioFiles| && decoded[i] :: AudioFiles[i])
                              else old(audioBuffers)
      ensures activeWorkout == old(activeWorkout) && clientMessages == old(clientMessages)
    {
      if contextAvailable && constructs {
        hasAudioContext := true;
        for i := 0 to |AudioFiles|
          invariant audioBuffers == old(audioBuffers) + (set j | 0 <= j < i && decoded[j] :: AudioFiles[j])
          invariant hasAudioContext && activeWorkout == old(activeWorkout) && clientMessages == old(clientMessages)
        {
          if decoded[i] {
            audioBuffers := audioBuffers + {AudioFiles[i]};
          }
        }
      }
    }

    /** The playback guard: no context, or no buffer under exactly this
        name, is a failure; otherwise the outcome of starting playback. */
    method PlayAudio(fileName: string, playbackOk: bool) returns (ok: bool)
      ensures ok == (hasAudioContext && fileName in audioBuffers && playbackOk)
    {
      if !hasAudioContext || fileName !in audioBuffers {
        return false;
      }
      ok := playbackOk;
    }

    /** One check of the background workout. */
    method CheckWorkoutProgress(now: int) returns (plays: seq<string>, rescheduled: bool)
      modifies this
      ensures plays == Check(old(activeWorkout), now).plays
      ensures rescheduled == Check(old(activeWorkout), now).reschedule
      ensures activeWorkout == if Check(old(activeWorkout), now).completedAt.Some? then Options.None else old(activeWorkout)
      ensures clientMessages == old(clientMessages) +
        (if Check(old(activeWorkout), now).completedAt.Some?
         then [WorkoutComplete(Check(old(activeWorkout), now).completedAt.value)] else [])
      ensures hasAudioContext == old(hasAudioContext) && audioBuffers == old(audioBuffers)
    {
      plays, rescheduled := [], false;
      if activeWorkout.None? || !activeWorkout.value.isActive {
        return;
      }
      var d := activeWorkout.value;
      var elapsed := (now - d.startTime) / 1000;
      if d.lapTimeInSeconds > 0 {
        var lapProgress := JsRemainder(elapsed, d.lapTimeInSeconds);
        if lapProgress == 0 && elapsed > 0 {
          plays := plays + [RunFile];
        } else if lapProgress == d.runTimeInSeconds {
          plays := plays + [WalkFile];
        }
      }
      if elapsed >= d.totalTimeInSeconds {
        plays := plays + [CompleteFile];
        activeWorkout := Options.None;
        clientMessages := clientMessages + [WorkoutComplete(elapsed)];
        return;
      }
      rescheduled := true;
    }

    /** START_BACKGROUND_WORKOUT: store the workout and check at once. */
    method StartBackgroundWorkout(data: WorkoutData, now: int) returns (plays: seq<string>, rescheduled: bool)
      modifies this
      ensures plays == Check(Options.Some(data), now).plays
      ensures rescheduled == Check(Options.Some(data), now).reschedule
      ensures activeWorkout == if Check(Options.Some(data), now).completedAt.Some? then Options.None else Options.Some(data)
      ensures clientMessages == old(clientMessages) +
        (if Check(Options.Some(data), now).completedAt.Some?
         then [WorkoutComplete(Check(Options.Some(data), now).completedAt.value)] else [])
      ensures hasAudioContext == old(hasAudioContext) && audioBuffers == old(audioBuffers)
    {
      activeWorkout := Options.Some(data);
      plays, rescheduled := CheckWorkoutProgress(now);
    }

    /** STOP_BACKGROUND_WORKOUT: the next check finds nothing and stops. */
    method StopBackgroundWorkout()
      modifies this
      ensures activeWorkout == Options.None
      ensures forall now :: Check(activeWorkout, now) == CheckResult([], Options.None, false)
      ensures hasAudioContext == old(hasAudioContext) && audioBuffers == old(audioBuffers)
      ensures clientMessages == old(clientMessages)
    {
      activeWorkout := Options.None;
    }

    /** PLAY_AUDIO: reply with the guard's outcome on the supplied port, if any. */
    method PlayAudioMessage(fileName: string, hasPort: bool, playbackOk: bool) returns (reply: Option<bool>)
      ensures reply == if hasPort then Options.Some(hasAudioContext && fileName in audioBuffers && playbackOk) else Options.None
    {
      var success := PlayAudio(fileName, playbackOk);
      reply := if hasPort then Options.Some(success) else Options.None;
    }
  }
}
