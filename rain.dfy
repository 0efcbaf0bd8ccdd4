/** The rain-accumulation report: for every rain or climate location, the
    rain fallen since the start of the hydrological day (07:00) and how long
    it rained, counting five minutes per rainy reading. */
module RainReport {
  import opened Models

  const HydroDayHour := 7
  const MinutesPerReading := 5

  /** 07:00 today, or 07:00 yesterday while the clock is still before 07:00. */
  function HydrologicalDayStart(now: int): (dari: int)
    ensures dari % DaySeconds == HydroDayHour * HourSeconds
    ensures dari <= now < dari + DaySeconds
  {
    var midnight := now - now % DaySeconds;
    var seven := midnight + HydroDayHour * HourSeconds;
    if (now % DaySeconds) / HourSeconds < HydroDayHour then seven - DaySeconds else seven
  }

  /** The two postconditions above pin the start down: no other 07:00 lies
      within the past day. */
  lemma HydrologicalDayStartUnique(now: int, d: int)
    requires d % DaySeconds == HydroDayHour * HourSeconds
    requires d <= now < d + DaySeconds
    ensures d == HydrologicalDayStart(now)
  {
    var e := HydrologicalDayStart(now);
    var qd, qe := d / DaySeconds, e / DaySeconds;
    assert d == qd * DaySeconds + HydroDayHour * HourSeconds;
    assert e == qe * DaySeconds + HydroDayHour * HourSeconds;
    assert d - e == (qd - qe) * DaySeconds;
  }

  /** At 06:30 of day D the window opens at 07:00 of day D-1; at 07:01 of
      day D it opens at 07:00 of day D. */
  lemma HydrologicalDayExamples(day: int)
    ensures HydrologicalDayStart(day * DaySeconds + 6 * HourSeconds + 30 * 60) == (day - 1) * DaySeconds + 7 * HourSeconds
    ensures HydrologicalDayStart(day * DaySeconds + 7 * HourSeconds + 60) == day * DaySeconds + 7 * HourSeconds
  {
    HydrologicalDayStartUnique(day * DaySeconds + 6 * HourSeconds + 30 * 60, (day - 1) * DaySeconds + 7 * HourSeconds);
    HydrologicalDayStartUnique(day * DaySeconds + 7 * HourSeconds + 60, day * DaySeconds + 7 * HourSeconds);
  }

  /** `(now - dari).seconds / 3600`: the window's length in hours. */
  function ElapsedHours(dari: int, now: int): (hours: real)
    requires dari <= now < dari + DaySeconds
    ensures 0.0 <= hours < 24.0 && hours * 3600.0 == (now - dari) as real
  {
    (now - dari) as real / 3600.0
  }

  /** The reading query of the report: at this location, rain > 0, after the start. */
  predicate RainyIn(p: Periodik, locationId: int, dari: int)
  {
    p.locationId == Some(locationId) && p.rain.Some? && p.rain.value > 0.0 && p.sampling > dari
  }

  function RainSum(ps: seq<Periodik>, locationId: int, dari: int): real
  {
    if ps == [] then 0.0
    else
      var last := ps[|ps| - 1];
      RainSum(ps[..|ps| - 1], locationId, dari) + (if RainyIn(last, locationId, dari) then last.rain.value else 0.0)
  }

  /** The rainy readings the query returns: never more than the readings stored. */
  function RainyCount(ps: seq<Periodik>, locationId: int, dari: int): (n: nat)
    ensures n <= |ps|
  {
    if ps == [] then 0
    else
      RainyCount(ps[..|ps| - 1], locationId, dari) + (if RainyIn(ps[|ps| - 1], locationId, dari) then 1 else 0)
  }

  /** The accumulated rain is positive exactly when some reading in the
      window rained, and never negative. */
  lemma {:induction false} RainSumPositive(ps: seq<Periodik>, locationId: int, dari: int)
    ensures RainSum(ps, locationId, dari) >= 0.0
    ensures RainSum(ps, locationId, dari) > 0.0 <==> RainyCount(ps, locationId, dari) > 0
    ensures RainyCount(ps, locationId, dari) == 0 <==> forall i :: 0 <= i < |ps| ==> !RainyIn(ps[i], locationId, dari)
  {
    if ps != [] {
      var init := ps[..|ps| - 1];
      RainSumPositive(init, locationId, dari);
      assert forall i :: 0 <= i < |init| ==> init[i] == ps[i];
    }
  }

  datatype RainEntry = Rained(mm: real, minutes: int) | Dry
  datatype RainLine = RainLine(no: nat, nama: string, entry: RainEntry)

  /** What the line for `pos` must say. */
  predicate Reports(line: RainLine, no: nat, pos: Location, ps: seq<Periodik>, dari: int)
  {
    && line.no == no
    && line.nama == pos.nama
    && (line.entry.Dry? <==> forall i :: 0 <= i < |ps| ==> !RainyIn(ps[i], pos.id, dari))
    && (line.entry.Rained? ==>
          line.entry.mm == RainSum(ps, pos.id, dari) && line.entry.mm > 0.0 &&
          line.entry.minutes == MinutesPerReading * RainyCount(ps, pos.id, dari))
  }

  /** Line k reports the k-th location, numbered from 1. */
  predicate AllReport(lines: seq<RainLine>, posts: seq<Location>, ps: seq<Periodik>, dari: int)
  {
    |lines| == |posts| && forall k :: 0 <= k < |lines| ==> Reports(lines[k], k + 1, posts[k], ps, dari)
  }

  lemma AllReportAppend(lines: seq<RainLine>, posts: seq<Location>, line: RainLine, pos: Location, ps: seq<Periodik>, dari: int)
    requires AllReport(lines, posts, ps, dari) && Reports(line, |lines| + 1, pos, ps, dari)
    ensures AllReport(lines + [line], posts + [pos], ps, dari)
  {
  }

  /** The inner loop: `durasi += 5; ch += p.rain` over the rainy readings. */
  method AccumulateRain(periodiks: seq<Periodik>, locationId: int, dari: int) returns (ch: real, durasi: int)
    ensures ch == RainSum(periodiks, locationId, dari)
    ensures durasi == MinutesPerReading * RainyCount(periodiks, locationId, dari)
  {
    ch, durasi := 0.0, 0;
    var j := 0;
    while j < |periodiks|
      invariant 0 <= j <= |periodiks|
      invariant ch == RainSum(periodiks[..j], locationId, dari)
      invariant durasi == MinutesPerReading * RainyCount(periodiks[..j], locationId, dari)
    {
      var p := periodiks[j];
      assert periodiks[..j + 1][..j] == periodiks[..j];
      if RainyIn(p, locationId, dari) {
        durasi := durasi + MinutesPerReading;
        ch := ch + p.rain.value;
      }
      j := j + 1;
    }
    assert periodiks[..j] == periodiks;
  }

  /** The body of the location loop: the line for `pos`, dry when nothing rained. */
  method RainLineFor(pos: Location, periodiks: seq<Periodik>, dari: int, no: nat) returns (line: RainLine)
    ensures Reports(line, no, pos, periodiks, dari)
  {
    var ch, durasi := AccumulateRain(periodiks, pos.id, dari);
    RainSumPositive(periodiks, pos.id, dari);
    var entry := if ch > 0.0 then Rained(ch, durasi) else Dry;
    line := RainLine(no, pos.nama, entry);
  }

  /** `build_ch`: the window start, its length in hours, and one line per
      rain or climate location in table order. */
  method BuildCh(now: int, locations: seq<Location>, periodiks: seq<Periodik>)
    returns (dari: int, hours: real, lines: seq<RainLine>)
    ensures dari == HydrologicalDayStart(now)
    ensures 0.0 <= hours < 24.0 && hours * 3600.0 == (now - dari) as real
    ensures |lines| == |OfType(locations, {RainPost, ClimatePost})|
    ensures forall k :: 0 <= k < |lines| ==>
      Reports(lines[k], k + 1, OfType(locations, {RainPost, ClimatePost})[k], periodiks, dari)
  {
    dari := HydrologicalDayStart(now);
    hours := ElapsedHours(dari, now);
    lines := [];
    ghost var posts := [];
    var i := 1;
    var j := 0;
    while j < |locations|
      invariant 0 <= j <= |locations|
      invariant posts == OfType(locations[..j], {RainPost, ClimatePost})
      invariant AllReport(lines, posts, periodiks, dari) && i == |lines| + 1
    {
      var pos := locations[j];
      OfTypeStep(locations, {RainPost, ClimatePost}, j);
      if pos.tipe in {RainPost, ClimatePost} {
        var line := RainLineFor(pos, periodiks, dari, i);
        AllReportAppend(lines, posts, line, pos, periodiks, dari);
        lines := lines + [line];
        posts := posts + [pos];
        i := i + 1;
      }
      j := j + 1;
    }
    assert locations[..j] == locations;
  }
}
