/**
 * The weekly availability form (src/pages/register/time-intervals/index.page.tsx):
 * `timeIntervalsFormSchema` and the form's default value.
 *
 * The schema takes an array of exactly 7 entries, each with a weekday between 0
 * and 6, keeps only the enabled entries in their order, and fails when none is left.
 * A parse returns the filtered entries or the first issue zod reports.
 */
module TimeIntervals {
  import opened Results

  /**
   * One entry of `intervals`. `weekDay` is a JavaScript number, so fractions get
   * through `min(0).max(6)`; it is modelled as a real. The times are free strings.
   */
  datatype Interval = Interval(weekDay: real, enabled: bool, startTime: string, endTime: string)

  /** The issues the schema can raise, in the order zod checks them. */
  datatype IntervalsError =
    | WrongLength              // `.length(7)` on the raw array
    | WeekDayOutOfRange(index: nat)  // `.min(0)` or `.max(6)` on entry `index`
    | NoDaySelected            // the `refine` after filtering

  /** Message attached to `NoDaySelected`. */
  const NoDaySelectedMessage: string := "Você precisa selecionar pelo menos um dia da semana!"

  predicate WeekDayInRange(i: Interval) { 0.0 <= i.weekDay <= 6.0 }

  /** `intervals.filter((interval) => interval.enabled)`. */
  function EnabledOnly(xs: seq<Interval>): (r: seq<Interval>)
    ensures |r| <= |xs|
    ensures forall i :: 0 <= i < |r| ==> r[i].enabled && r[i] in xs
    ensures r == [] <==> forall i :: 0 <= i < |xs| ==> !xs[i].enabled
  {
    if xs == [] then []
    else
      var rest := EnabledOnly(xs[1..]);
      if xs[0].enabled then [xs[0]] + rest else rest
  }

  /** Every enabled entry is kept as often as it occurs; no disabled entry is kept. */
  lemma {:induction false} EnabledOnlyCounts(xs: seq<Interval>)
    ensures forall x :: multiset(EnabledOnly(xs))[x] == if x.enabled then multiset(xs)[x] else 0
  {
    if xs != [] {
      EnabledOnlyCounts(xs[1..]);
      assert xs == [xs[0]] + xs[1..];
      assert multiset(xs) == multiset{xs[0]} + multiset(xs[1..]);
      if xs[0].enabled {
        assert multiset(EnabledOnly(xs)) == multiset{xs[0]} + multiset(EnabledOnly(xs[1..]));
      }
    }
  }

  /** `a` is `b` with some entries dropped and the others in their original order. */
  predicate IsSubsequence(a: seq<Interval>, b: seq<Interval>)
  {
    if a == [] then true
    else if b == [] then false
    else (a[0] == b[0] && IsSubsequence(a[1..], b[1..])) || IsSubsequence(a, b[1..])
  }

  /** The filter keeps the original order. */
  lemma {:induction false} EnabledOnlyKeepsOrder(xs: seq<Interval>)
    ensures IsSubsequence(EnabledOnly(xs), xs)
  {
    if xs != [] {
      EnabledOnlyKeepsOrder(xs[1..]);
      var r := EnabledOnly(xs);
      if xs[0].enabled {
        assert r[0] == xs[0] && r[1..] == EnabledOnly(xs[1..]);
      }
    }
  }

  /** Index of the first entry whose weekday is outside 0..6, looking from `from` on. */
  function FirstOutOfRange(xs: seq<Interval>, from: nat): (r: Option<nat>)
    requires from <= |xs|
    ensures r.Some? ==>
      && from <= r.value < |xs| && !WeekDayInRange(xs[r.value])
      && forall j :: from <= j < r.value ==> WeekDayInRange(xs[j])
    ensures r.None? ==> forall j :: from <= j < |xs| ==> WeekDayInRange(xs[j])
    decreases |xs| - from
  {
    if from == |xs| then None
    else if !WeekDayInRange(xs[from]) then Some(from)
    else FirstOutOfRange(xs, from + 1)
  }

  /** `timeIntervalsFormSchema.parse({ intervals: xs })`, reporting the first issue. */
  function ParseIntervals(xs: seq<Interval>): (r: Result<seq<Interval>, IntervalsError>)
    ensures r.Ok? <==>
      |xs| == 7 && (forall i :: 0 <= i < |xs| ==> WeekDayInRange(xs[i])) &&
      exists i :: 0 <= i < |xs| && xs[i].enabled
    ensures r == Err(WrongLength) <==> |xs| != 7
    ensures r.Err? && r.error.WeekDayOutOfRange? ==>
      |xs| == 7 && FirstOutOfRange(xs, 0) == Some(r.error.index)
    ensures |xs| == 7 && FirstOutOfRange(xs, 0).Some? ==>
      r == Err(WeekDayOutOfRange(FirstOutOfRange(xs, 0).value))
    ensures r == Err(NoDaySelected) <==>
      |xs| == 7 && (forall i :: 0 <= i < |xs| ==> WeekDayInRange(xs[i])) &&
      forall i :: 0 <= i < |xs| ==> !xs[i].enabled
    ensures r.Ok? ==> 1 <= |r.value| <= 7
    ensures r.Ok? ==> r.value == EnabledOnly(xs)
  {
    if |xs| != 7 then Err(WrongLength)
    else match FirstOutOfRange(xs, 0)
      case Some(i) => Err(WeekDayOutOfRange(i))
      case None =>
        var enabled := EnabledOnly(xs);
        if enabled == [] then Err(NoDaySelected) else Ok(enabled)
  }

  /** One default entry: 08:00 to 18:00. */
  function DefaultInterval(weekDay: real, enabled: bool): Interval
  {
    Interval(weekDay, enabled, "08:00", "18:00")
  }

  /** The form's `defaultValues.intervals`: every weekday, Monday to Friday enabled. */
  const DefaultIntervals: seq<Interval> := [
    DefaultInterval(0.0, false),
    DefaultInterval(1.0, true),
    DefaultInterval(2.0, true),
    DefaultInterval(3.0, true),
    DefaultInterval(4.0, true),
    DefaultInterval(5.0, true),
    DefaultInterval(6.0, false)
  ]

  /** Filtering distributes over concatenation. */
  lemma {:induction false} EnabledOnlyAppend(a: seq<Interval>, b: seq<Interval>)
    ensures EnabledOnly(a + b) == EnabledOnly(a) + EnabledOnly(b)
  {
    if a == [] {
      assert a + b == b;
    } else {
      assert (a + b)[0] == a[0] && (a + b)[1..] == a[1..] + b;
      EnabledOnlyAppend(a[1..], b);
    }
  }

  /** A list of enabled entries passes the filter whole. */
  lemma {:induction false} EnabledOnlyAllEnabled(xs: seq<Interval>)
    requires forall i :: 0 <= i < |xs| ==> xs[i].enabled
    ensures EnabledOnly(xs) == xs
  {
    if xs != [] {
      EnabledOnlyAllEnabled(xs[1..]);
    }
  }

  lemma DefaultEnabledOnly()
    ensures EnabledOnly(DefaultIntervals) == DefaultIntervals[1..6]
  {
    var xs := DefaultIntervals;
    var head, middle, tail := xs[..1], xs[1..6], xs[6..];
    assert xs == head + middle + tail;
    assert !head[0].enabled && !tail[0].enabled;
    EnabledOnlyAllEnabled(middle);
    EnabledOnlyAppend(head + middle, tail);
    EnabledOnlyAppend(head, middle);
  }

  /** The default value passes the schema and yields Monday to Friday, 08:00 to 18:00. */
  lemma DefaultAccepted()
    ensures ParseIntervals(DefaultIntervals) == Ok([
      DefaultInterval(1.0, true),
      DefaultInterval(2.0, true),
      DefaultInterval(3.0, true),
      DefaultInterval(4.0, true),
      DefaultInterval(5.0, true)
    ])
  {
    var xs := DefaultIntervals;
    DefaultEnabledOnly();
    assert forall i :: 0 <= i < |xs| ==> WeekDayInRange(xs[i]);
    assert FirstOutOfRange(xs, 0).None?;
    assert xs[1..6] == [xs[1], xs[2], xs[3], xs[4], xs[5]];
  }
}
