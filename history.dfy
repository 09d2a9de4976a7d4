/** The history screen: the stored session records are fetched, sorted in
    place by date (a missing date counts as 0), and listed with a running
    number starting at 1. Dates are modelled as already-parsed integers. */
module History {
  import Clock
  import Options

  type Option<T> = Options.Option<T>

  /** One finished session as the store holds it; every field may be missing. */
  datatype Exercise = Exercise(
    date: Option<int>,
    duration: Option<nat>,
    laps: Option<nat>,
    eachLapRunTime: Option<nat>,
    eachLapWalkTime: Option<nat>)

  function OrZero(x: Option<nat>): nat {
    match x
    case Some(v) => v
    case None => 0
  }

  /** The sort key: the record's date, or 0 when it has none. */
  function DateKey(e: Exercise): int {
    match e.date
    case Some(d) => d
    case None => 0
  }

  ghost predicate SortedByDate(s: seq<Exercise>) {
    forall i, j :: 0 <= i < j < |s| ==> DateKey(s[i]) <= DateKey(s[j])
  }

  /** Exchanges two neighbouring entries of the array. */
  method SwapWithPrevious(a: array<Exercise>, j: nat)
    requires 0 < j < a.Length
    modifies a
    ensures a[j - 1] == old(a[j]) && a[j] == old(a[j - 1])
    ensures forall k :: 0 <= k < a.Length && k != j - 1 && k != j ==> a[k] == old(a[k])
    ensures multiset(a[..]) == old(multiset(a[..]))
  {
    a[j - 1], a[j] := a[j], a[j - 1];
  }

  /** The in-place sort of the fetched array, ascending by DateKey. */
  method SortByDate(a: array<Exercise>)
    modifies a
    ensures SortedByDate(a[..])
    ensures multiset(a[..]) == old(multiset(a[..]))
  {
    for i := 0 to a.Length
      invariant forall p, q :: 0 <= p < q < i ==> DateKey(a[p]) <= DateKey(a[q])
      invariant multiset(a[..]) == old(multiset(a[..]))
    {
      var j := i;
      while j > 0 && DateKey(a[j - 1]) > DateKey(a[j])
        invariant 0 <= j <= i
        invariant forall p, q :: 0 <= p < q <= i && q != j ==> DateKey(a[p]) <= DateKey(a[q])
        invariant forall q :: j < q <= i ==> DateKey(a[j]) <= DateKey(a[q])
        invariant multiset(a[..]) == old(multiset(a[..]))
      {
        SwapWithPrevious(a, j);
        j := j - 1;
      }
    }
  }

  /** Fetch, sort, store: what the screen ends up listing. Nothing is added
      or dropped, and the list is in non-decreasing date order. */
  method LoadHistory(fetched: seq<Exercise>) returns (shown: seq<Exercise>)
    ensures SortedByDate(shown)
    ensures multiset(shown) == multiset(fetched)
    ensures |shown| == |fetched|
  {
    var a := new Exercise[|fetched|](i requires 0 <= i < |fetched| => fetched[i]);
    assert a[..] == fetched;
    SortByDate(a);
    shown := a[..];
    assert |shown| == |multiset(shown)| == |multiset(fetched)| == |fetched|;
  }

  /** What one list entry shows; durations go through the shared formatter. */
  datatype Row = Row(number: nat, date: int, duration: string, laps: Option<nat>,
                     runTime: string, walkTime: string)

  /** A duration as the list shows it; the text reads back as the same
      number of seconds. */
  function ShowClock(seconds: nat): (text: string)
    ensures Clock.ParseClock(text, Clock.SpacedSeparator) == Options.Some(seconds)
  {
    Clock.SeparatorsAreReadable();
    Clock.FormatClockRoundTrip(seconds, Clock.SpacedSeparator);
    Clock.FormatClock(seconds, Clock.SpacedSeparator)
  }

  /** One list entry: number index + 1, the record's laps as stored, and
      every present duration shown so that it reads back exactly. */
  function RowFor(e: Exercise, index: nat): (r: Row)
    ensures r.number == index + 1 && r.laps == e.laps
    ensures e.duration.Some? ==>
              Clock.ParseClock(r.duration, Clock.SpacedSeparator) == Options.Some(e.duration.value)
    ensures e.eachLapRunTime.Some? ==>
              Clock.ParseClock(r.runTime, Clock.SpacedSeparator) == Options.Some(e.eachLapRunTime.value)
    ensures e.eachLapWalkTime.Some? ==>
              Clock.ParseClock(r.walkTime, Clock.SpacedSeparator) == Options.Some(e.eachLapWalkTime.value)
  {
    Row(index + 1, DateKey(e), ShowClock(OrZero(e.duration)), e.laps,
        ShowClock(OrZero(e.eachLapRunTime)), ShowClock(OrZero(e.eachLapWalkTime)))
  }

  /** The rendered list: one row per record, in order, numbered from 1. */
  function Rows(history: seq<Exercise>): (rows: seq<Row>)
    ensures |rows| == |history|
    ensures forall i :: 0 <= i < |rows| ==> rows[i].number == i + 1 && rows[i].date == DateKey(history[i])
  {
    seq(|history|, i requires 0 <= i < |history| => RowFor(history[i], i))
  }

  /** Rows are numbered consecutively from 1 and carry distinct numbers. */
  lemma RowNumbersDistinct(history: seq<Exercise>, i: nat, j: nat)
    requires i < j < |history|
    ensures Rows(history)[i].number < Rows(history)[j].number
  {
  }

  /** Each missing duration or run/walk time is shown as the format of 0,
      whatever the other fields hold. */
  lemma MissingFieldsShowZero(e: Exercise, index: nat)
    ensures e.duration.None? ==> RowFor(e, index).duration == "0 : 0"
    ensures e.eachLapRunTime.None? ==> RowFor(e, index).runTime == "0 : 0"
    ensures e.eachLapWalkTime.None? ==> RowFor(e, index).walkTime == "0 : 0"
  {
    ZeroShown();
  }

  lemma ZeroShown()
    ensures ShowClock(0) == "0 : 0"
  {
    assert Clock.FormatClock(0, Clock.SpacedSeparator) == Clock.DecimalString(0) + " : " + Clock.DecimalString(0);
  }
}
