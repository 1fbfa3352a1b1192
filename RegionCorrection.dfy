/** What the `region-updated` handler of the current controller does to the raw
    edges of the selection region, as a function of the raw `start`, `end` and the
    duration the engine reports. Step by step it is carried out in place by
    `AppController.SelectionController.OnRegionUpdated`; here are its properties. */
module RegionCorrection {

  /** The width given to a selection dragged to zero or negative width. */
  const MinWidth: real := 0.1

  /** The duration assumed while `getDuration()` reports 0 (track not decoded). */
  const FallbackDuration: real := 100.0

  datatype Interval = Interval(start: real, end: real) {
    function Width(): real { end - start }
  }

  function Max(a: real, b: real): real {
    if a >= b then a else b
  }

  /** `getDuration() || 100` */
  function EffectiveDuration(reported: real): (d: real)
    ensures d != 0.0
    ensures reported != 0.0 ==> d == reported
  {
    if reported == 0.0 then FallbackDuration else reported
  }

  /** The end after the first step: a zero or negative width becomes `MinWidth`. */
  function FixedEnd(start: real, end: real): (e: real)
    ensures e > start
    ensures start < end ==> e == end
  {
    if start >= end then start + MinWidth else end
  }

  /** The interval the handler publishes and writes back onto the region. */
  function Corrected(start: real, end: real, reported: real): (r: Interval)
    ensures r.end <= EffectiveDuration(reported) && r.end <= FixedEnd(start, end)
    ensures FixedEnd(start, end) > EffectiveDuration(reported) ==>
              r.end == EffectiveDuration(reported) && r.start >= 0.0
    ensures FixedEnd(start, end) <= EffectiveDuration(reported) ==> r.start == start
    ensures EffectiveDuration(reported) > 0.0 ==> r.start < r.end
  {
    var e := FixedEnd(start, end);
    var d := EffectiveDuration(reported);
    if e > d then Interval(Max(0.0, d - (e - start)), d) else Interval(start, e)
  }

  /** A zero or negative width is repaired to `MinWidth`, leaving `start` alone,
      unless the repaired end runs past the duration. */
  lemma EmptyWidthRepaired(start: real, end: real, reported: real)
    requires start >= end && start + MinWidth <= EffectiveDuration(reported)
    ensures Corrected(start, end, reported) == Interval(start, start + MinWidth)
  {
  }

  /** An overshooting selection is moved left onto the end of the track keeping
      its (already repaired) width, with `start` floored at 0; the width survives
      whenever it fits in the track. */
  lemma OvershootShiftsLeft(start: real, end: real, reported: real)
    requires FixedEnd(start, end) > EffectiveDuration(reported)
    ensures var w := FixedEnd(start, end) - start;
      var d := EffectiveDuration(reported);
      var r := Corrected(start, end, reported);
      r == Interval(Max(0.0, d - w), d) &&
      (w <= d ==> r.Width() == w)
  {
  }

  /** The handler leaves an edit alone exactly when it already has positive width
      and ends within the track; this includes a negative `start`, which is never
      clamped outside the overshoot branch. */
  lemma UnchangedIff(start: real, end: real, reported: real)
    requires EffectiveDuration(reported) > 0.0
    ensures Corrected(start, end, reported) == Interval(start, end) <==>
              start < end <= EffectiveDuration(reported)
  {
    var r := Corrected(start, end, reported);
    if r == Interval(start, end) {
      assert start < end;
    }
  }

  /** Correcting the published interval again, against the same reported
      duration, changes nothing. */
  lemma {:induction false} CorrectedIdempotent(start: real, end: real, reported: real)
    ensures var r := Corrected(start, end, reported);
      Corrected(r.start, r.end, reported) == r
  {
    var r := Corrected(start, end, reported);
    var d := EffectiveDuration(reported);
    if d > 0.0 {
      UnchangedIff(r.start, r.end, reported);
    } else {
      // a negative reported duration: both passes end in the shift branch
      if FixedEnd(start, end) > d {
        assert r == Interval(0.0, d);
        assert FixedEnd(0.0, d) == MinWidth;
      }
    }
  }

  /** When the reported duration is 0, the fallback of 100 seconds bounds the selection. */
  lemma UnknownDurationFallsBack(start: real, end: real)
    ensures Corrected(start, end, 0.0) == Corrected(start, end, FallbackDuration)
    ensures Corrected(start, end, 0.0).end <= FallbackDuration
  {
  }

  lemma CorrectionExamples()
    ensures Corrected(5.0, 3.0, 100.0) == Interval(5.0, 5.1)
    ensures Corrected(95.0, 101.0, 100.0) == Interval(94.0, 100.0)
    ensures Corrected(-2.0, 3.0, 100.0) == Interval(-2.0, 3.0)
    ensures Corrected(10.0, 130.0, 0.0) == Interval(0.0, 100.0)
  {
  }
}
