/** Splitting a span into local days: DayBuckets of shared/analytics/period.go. */
module DayBuckets {
  import opened Common
  import opened Civil
  import opened Periods
  import opened GapZones

  datatype TimeRange = TimeRange(start: Time, end: Time)

  // ---------- When the loop ends ----------

  /** time.Date of the day after an instant's local day. */
  function NextDay(z: Zone, day: Time): Time { z.at(z.localDay(day) + 1, 0) }

  /** Where the cursor starts. */
  function FirstMidnight(z: Zone, start: Time): Time { z.at(z.localDay(start), 0) }

  /** The cursor after n rounds of the loop. */
  function Rounds(z: Zone, start: Time, n: nat): Time {
    if n == 0 then FirstMidnight(z, start) else NextDay(z, Rounds(z, start, n - 1))
  }

  ghost predicate Exits(z: Zone, start: Time, end: Time) { exists n: nat :: Rounds(z, start, n) >= end }

  /** Every midnight the loop visits before the end lands on its day. */
  ghost predicate AllLand(z: Zone, start: Time, end: Time) {
    forall d :: z.localDay(start) <= d && z.at(d, 0) < end ==> Lands(z, d)
  }

  lemma {:induction false} MidnightAfter(z: Zone, d: Day, n: nat)
    requires MidnightsApart(z)
    ensures z.at(d + n, 0) >= z.at(d, 0) + n
  {
    if n > 0 {
      MidnightAfter(z, d, n - 1);
      assert z.at(d + n - 1, 0) + SECOND <= z.at(d + n, 0);
    }
  }

  /** All midnights from one day up to another land. */
  ghost predicate LandFrom(z: Zone, from: Day, to: Day) { forall d :: from <= d < to ==> Lands(z, d) }

  /** As long as the midnights land, the cursor visits them one after the other. */
  lemma {:induction false} VisitsMidnights(z: Zone, start: Time, n: nat)
    requires LandFrom(z, z.localDay(start), z.localDay(start) + n)
    ensures Rounds(z, start, n) == z.at(z.localDay(start) + n, 0)
  {
    if n > 0 {
      VisitsMidnights(z, start, n - 1);
      assert Lands(z, z.localDay(start) + n - 1);
    }
  }

  /** From a midnight that resolves to the day before, the cursor no longer moves. */
  lemma {:induction false} Stuck(z: Zone, start: Time, m: nat, n: nat)
    requires m <= n && z.localDay(Rounds(z, start, m)) + 1 == z.localDay(start) + m
    requires Rounds(z, start, m) == z.at(z.localDay(start) + m, 0)
    ensures Rounds(z, start, n) == Rounds(z, start, m)
  {
    if m < n { Stuck(z, start, m, n - 1); }
  }

  /** The first midnight from a day on that does not land. */
  lemma {:induction false} FirstMiss(z: Zone, from: Day, d: Day) returns (m: Day)
    requires from <= d && !Lands(z, d)
    ensures from <= m <= d && !Lands(z, m) && LandFrom(z, from, m)
    decreases d - from
  {
    if e :| from <= e < d && !Lands(z, e) { m := FirstMiss(z, from, e); } else { m := d; }
  }

  lemma LandingExits(z: Zone, start: Time, end: Time)
    requires MidnightsApart(z) && AllLand(z, start, end)
    ensures Exits(z, start, end)
  {
    var d := z.localDay(start);
    var n: nat := Max(0, end - z.at(d, 0));
    if e :| d <= e < d + n && !Lands(z, e) {
      var m := FirstMiss(z, d, e);
      ExitsAt(z, start, end, m - d);
    } else {
      MidnightAfter(z, d, n);
      ExitsAt(z, start, end, n);
    }
  }

  lemma ExitsAt(z: Zone, start: Time, end: Time, n: nat)
    requires LandFrom(z, z.localDay(start), z.localDay(start) + n) && z.at(z.localDay(start) + n, 0) >= end
    ensures Exits(z, start, end)
  {
    VisitsMidnights(z, start, n);
    assert Rounds(z, start, n) >= end;
  }

  lemma RoundsBelow(z: Zone, start: Time, m: Day, n: nat)
    requires MidnightsApart(z) && z.localDay(start) + n <= m && LandFrom(z, z.localDay(start), m)
    ensures Rounds(z, start, n) <= z.at(m, 0)
  {
    VisitsMidnights(z, start, n);
    MidnightAfter(z, z.localDay(start) + n, m - n - z.localDay(start));
  }

  lemma MissNeverExits(z: Zone, start: Time, end: Time, d: Day)
    requires LandsNearby(z) && MidnightsApart(z) && z.localDay(start) <= d && !Lands(z, d) && z.at(d, 0) < end
    ensures !Exits(z, start, end)
  {
    var from := z.localDay(start);
    var m := FirstMiss(z, from, d);
    MidnightAfter(z, m, d - m);
    VisitsMidnights(z, start, m - from);
    forall n: nat ensures Rounds(z, start, n) < end {
      if n < m - from { RoundsBelow(z, start, m, n); } else { Stuck(z, start, m - from, n); }
    }
  }

  /** The loop exits if and only if every midnight it visits before the end lands on its day. */
  lemma ExitsExactly(z: Zone, start: Time, end: Time)
    requires LandsNearby(z) && MidnightsApart(z)
    ensures Exits(z, start, end) <==> AllLand(z, start, end)
  {
    if AllLand(z, start, end) {
      LandingExits(z, start, end);
    } else {
      var d :| z.localDay(start) <= d && z.at(d, 0) < end && !Lands(z, d);
      MissNeverExits(z, start, end, d);
    }
  }

  /** A clock that jumps an hour forward at midnight and resolves it to the day before: a span across it never ends. */
  lemma SkippedMidnightLoops(g: Day, start: Time, end: Time)
    requires GapDay(g, start) <= g && GapAt(g, true, g, 0) < end
    ensures ZoneOk(Gap(g, true)) && !Exits(Gap(g, true), start, end)
  {
    GapOk(g, true);
    ExitsExactly(Gap(g, true), start, end);
    assert !Lands(Gap(g, true), g);
  }

  // ---------- What the buckets are ----------

  /** Non-empty ranges, each beginning where the one before ends. */
  predicate Linked(out: seq<TimeRange>) {
    && (forall k :: 0 <= k < |out| ==> out[k].start < out[k].end)
    && (forall j, k :: 0 <= j && k == j + 1 < |out| ==> out[j].end == out[k].start)
  }

  /** The ranges run from start to end. */
  predicate Spans(out: seq<TimeRange>, start: Time, end: Time) {
    if start >= end then out == [] else out != [] && out[0].start == start && out[|out| - 1].end == end
  }

  ghost predicate InOneDay(z: Zone, r: TimeRange) {
    forall t :: r.start <= t < r.end ==> z.localDay(t) == z.localDay(r.start)
  }

  /** Each inside one local day, on consecutive days. */
  ghost predicate Daily(z: Zone, out: seq<TimeRange>) {
    && (forall k :: 0 <= k < |out| ==> InOneDay(z, out[k]))
    && (forall j, k :: 0 <= j && k == j + 1 < |out| ==> z.localDay(out[k].start) == z.localDay(out[j].start) + 1)
  }

  lemma LinkRange(out: seq<TimeRange>, r: TimeRange)
    requires Linked(out) && r.start < r.end && (out != [] ==> out[|out| - 1].end == r.start)
    ensures Linked(out + [r])
  {
  }

  lemma DailyRange(z: Zone, out: seq<TimeRange>, r: TimeRange)
    requires Daily(z, out) && InOneDay(z, r)
    requires out != [] ==> z.localDay(r.start) == z.localDay(out[|out| - 1].start) + 1
    ensures Daily(z, out + [r])
  {
  }

  lemma BucketInDay(z: Zone, d: Day, s: Time, e: Time)
    requires FlowOk(z) && Lands(z, d) && Midnight(z, d) <= s < e <= Midnight(z, d + 1)
    ensures InOneDay(z, TimeRange(s, e)) && z.localDay(s) == d
  {
    forall t | s <= t < e ensures z.localDay(t) == d {
      assert z.localDay(z.at(d, 0)) <= z.localDay(t);
      assert z.localDay(t) >= d + 1 ==> z.at(d + 1, 0) <= t;
    }
  }

  function Clipped(out: seq<TimeRange>, s: Time, e: Time): seq<TimeRange> { if e > s then out + [TimeRange(s, e)] else out }

  /** Everything from the first midnight, or from the start if that is later, up to midnight of d is split. */
  predicate SoFar(z: Zone, out: seq<TimeRange>, from: Time, end: Time, d: Day) {
    if out == [] then Midnight(z, d) <= from || from >= end
    else from < end && out[0].start == from && out[|out| - 1].end == Min(Midnight(z, d), end)
  }

  lemma Round(z: Zone, out: seq<TimeRange>, start: Time, from: Time, end: Time, d: Day)
    requires MidnightsApart(z) && Linked(out) && SoFar(z, out, from, end, d) && Midnight(z, d) < end
    requires start <= from && (from == start || out != [] || from == Midnight(z, d))
    ensures var next := Clipped(out, Max(Midnight(z, d), start), Min(Midnight(z, d + 1), end));
            Linked(next) && SoFar(z, next, from, end, d + 1) && (from == start || next != [] || from >= end)
  {
    var s, e := Max(Midnight(z, d), start), Min(Midnight(z, d + 1), end);
    assert Midnight(z, d) + SECOND <= Midnight(z, d + 1);
    if out != [] { FirstBeforeLast(out); }
    if e > s { LinkRange(out, TimeRange(s, e)); }
  }

  lemma {:induction false} FirstBeforeLast(out: seq<TimeRange>)
    requires Linked(out) && out != []
    ensures out[0].start < out[|out| - 1].end
  {
    if |out| > 1 {
      var front := out[..|out| - 1];
      assert forall k :: 0 <= k < |front| ==> front[k] == out[k];
      FirstBeforeLast(front);
      assert out[|out| - 2].end == out[|out| - 1].start;
    }
  }

  // ---------- The loop ----------

  /** The cursor is midnight of d; the days so far landed. */
  ghost predicate Progress(z: Zone, out: seq<TimeRange>, start: Time, end: Time, d: Day, day: Time) {
    && z.localDay(start) <= d && day == Midnight(z, d) && LandFrom(z, z.localDay(start), d)
    && Linked(out) && SoFar(z, out, Max(start, FirstMidnight(z, start)), end, d)
    && (d > z.localDay(start) && start < FirstMidnight(z, start) < end ==> out != [])
  }

  /** In a location whose days follow one another the ranges are the days. */
  ghost predicate DailySoFar(z: Zone, out: seq<TimeRange>, start: Time, end: Time, d: Day) {
    && Daily(z, out)
    && (out != [] ==> z.localDay(out[|out| - 1].start) == d - 1)
  }

  lemma NextRound(z: Zone, out: seq<TimeRange>, start: Time, end: Time, d: Day, day: Time)
    requires MidnightsApart(z) && AllLand(z, start, end) && Progress(z, out, start, end, d, day) && day < end
    ensures Lands(z, d)
    ensures Progress(z, Clipped(out, Max(day, start), Min(NextDay(z, day), end)), start, end, d + 1, NextDay(z, day))
    ensures NextDay(z, day) > day
  {
    assert Lands(z, d);
    assert Midnight(z, d) + SECOND <= Midnight(z, d + 1);
    MidnightAfter(z, z.localDay(start), d - z.localDay(start));
    Round(z, out, start, Max(start, FirstMidnight(z, start)), end, d);
  }

  lemma NextRoundDaily(z: Zone, out: seq<TimeRange>, start: Time, end: Time, d: Day, day: Time)
    requires MidnightsApart(z) && FlowOk(z) && AllLand(z, start, end) && Progress(z, out, start, end, d, day) && day < end
    requires DailySoFar(z, out, start, end, d)
    ensures DailySoFar(z, Clipped(out, Max(day, start), Min(NextDay(z, day), end)), start, end, d + 1)
  {
    var s, e := Max(day, start), Min(NextDay(z, day), end);
    assert Lands(z, d) && NextDay(z, day) == Midnight(z, d + 1);
    if e > s {
      BucketInDay(z, d, s, e);
      DailyRange(z, out, TimeRange(s, e));
    } else if start < end {
      StartsInside(z, start, end, d);
    }
  }

  /** A day at or after the start's own ends after the start. */
  lemma StartsInside(z: Zone, start: Time, end: Time, d: Day)
    requires MidnightsApart(z) && FlowOk(z) && AllLand(z, start, end) && z.localDay(start) <= d && Midnight(z, d) < end && start < end
    ensures Max(Midnight(z, d), start) < Min(Midnight(z, d + 1), end)
  {
    assert Midnight(z, d) + SECOND <= Midnight(z, d + 1);
    assert Midnight(z, d + 1) < end ==> Lands(z, d + 1);
    assert Midnight(z, d + 1) <= start ==> z.localDay(z.at(d + 1, 0)) <= z.localDay(start);
  }

  ghost predicate Kept(z: Zone, out: seq<TimeRange>, start: Time, end: Time, d: Day, day: Time) {
    Progress(z, out, start, end, d, day) && (FlowOk(z) ==> DailySoFar(z, out, start, end, d))
  }

  lemma RoundKeeps(z: Zone, out: seq<TimeRange>, start: Time, end: Time, d: Day, day: Time)
    requires MidnightsApart(z) && AllLand(z, start, end) && Kept(z, out, start, end, d, day) && day < end
    ensures Kept(z, Clipped(out, Max(day, start), Min(NextDay(z, day), end)), start, end, d + 1, NextDay(z, day))
    ensures NextDay(z, day) > day
  {
    NextRound(z, out, start, end, d, day);
    if FlowOk(z) { NextRoundDaily(z, out, start, end, d, day); }
  }

  lemma KeptSpans(z: Zone, out: seq<TimeRange>, start: Time, end: Time, d: Day, day: Time)
    requires Kept(z, out, start, end, d, day) && day >= end
    ensures Linked(out) && Spans(out, Max(start, FirstMidnight(z, start)), end)
    ensures FlowOk(z) ==> Spans(out, start, end) && Daily(z, out)
  {
    assert FlowOk(z) ==> FirstMidnight(z, start) <= start;
  }

  /**
   Where the midnights land the loop ends, and its ranges partition the span from its first midnight
   (or its start, if that is later); where local days follow one another that is the whole span, one
   local day to a range.
   */
  method DayBuckets(z: Zone, start: Time, end: Time) returns (out: seq<TimeRange>)
    requires MidnightsApart(z) && AllLand(z, start, end)
    ensures Linked(out) && Spans(out, Max(start, FirstMidnight(z, start)), end)
    ensures FlowOk(z) ==> Spans(out, start, end) && Daily(z, out)
  {
    out := [];
    var day := z.at(z.localDay(start), 0);
    ghost var d := z.localDay(start);
    while day < end
      invariant Kept(z, out, start, end, d, day)
      decreases end - day
    {
      RoundKeeps(z, out, start, end, d, day);
      var next := NextDay(z, day);
      var s, e := day, next;
      if s < start { s := start; }
      if e > end { e := end; }
      out := Clipped(out, s, e);
      day := next;
      d := d + 1;
    }
    KeptSpans(z, out, start, end, d, day);
  }
}
