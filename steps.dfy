/** The two configuration screens before a workout starts: the form that
    takes run, walk and total durations in minutes (StartStep) and the
    confirmation screen (ConfirmStartStep). Both are pure: they convert
    values and forward them to the session. */
module Steps {
  import Clock
  import Options

  /** StartStep stores every duration in seconds: minutes times 60. */
  function MinutesToSeconds(minutes: nat): (seconds: nat)
    ensures seconds % 60 == 0 && seconds / 60 == minutes
  {
    minutes * 60
  }

  /** StartStep shows a stored duration back in minutes, by a real division. */
  function SecondsToMinutes(seconds: nat): (minutes: real)
    ensures minutes * 60.0 == seconds as real
  {
    seconds as real / 60.0
  }

  /** A value typed into the form is shown back unchanged. */
  lemma MinutesRoundTrip(minutes: nat)
    ensures SecondsToMinutes(MinutesToSeconds(minutes)) == minutes as real
  {
  }

  /** The lap duration line shows the sum of the two typed values. */
  function LapMinutes(runSeconds: nat, walkSeconds: nat): (minutes: real)
    ensures minutes == SecondsToMinutes(runSeconds) + SecondsToMinutes(walkSeconds)
  {
    SecondsToMinutes(runSeconds + walkSeconds)
  }

  lemma LapMinutesOfTypedValues(runMinutes: nat, walkMinutes: nat)
    ensures LapMinutes(MinutesToSeconds(runMinutes), MinutesToSeconds(walkMinutes))
         == (runMinutes + walkMinutes) as real
  {
  }

  /** The confirmation screen's formatter: "m:s", no spaces, no padding. */
  function ConfirmClock(seconds: nat): string {
    Clock.FormatClock(seconds, Clock.CompactSeparator)
  }

  lemma ConfirmClockRoundTrip(seconds: nat)
    ensures Clock.ParseClock(ConfirmClock(seconds), Clock.CompactSeparator) == Options.Some(seconds)
  {
    Clock.SeparatorsAreReadable();
    Clock.FormatClockRoundTrip(seconds, Clock.CompactSeparator);
  }
}
