/** The data-arrival report for one day: per location, the readings that
    arrived as a percentage of the 288 five-minute samples of a day, and per
    category (rain, water level, climate) the mean of those percentages. */
module ArrivalReport {
  import opened Models

  const ExpectedPerDay := 288   // 24 hours of one reading every five minutes

  /** The count query: readings of this location whose sampling date is the day. */
  predicate OnDay(p: Periodik, locationId: int, dayStart: int)
  {
    p.locationId == Some(locationId) && dayStart <= p.sampling < dayStart + DaySeconds
  }

  /** The count of that query: never more than the readings stored. */
  function DayCount(ps: seq<Periodik>, locationId: int, dayStart: int): (n: nat)
    ensures n <= |ps|
  {
    if ps == [] then 0
    else DayCount(ps[..|ps| - 1], locationId, dayStart) + (if OnDay(ps[|ps| - 1], locationId, dayStart) then 1 else 0)
  }

  /** A location counts no readings exactly when none of its readings is
      sampled on the day. */
  lemma {:induction false} DayCountZero(ps: seq<Periodik>, locationId: int, dayStart: int)
    ensures DayCount(ps, locationId, dayStart) == 0 <==> forall j :: 0 <= j < |ps| ==> !OnDay(ps[j], locationId, dayStart)
  {
    if ps != [] {
      var init := ps[..|ps| - 1];
      DayCountZero(init, locationId, dayStart);
      assert forall j :: 0 <= j < |init| ==> init[j] == ps[j];
    }
  }

  /** `(banyak_data / 288) * 100`. */
  function Percent(count: nat): real
  {
    (count as real / ExpectedPerDay as real) * 100.0
  }

  /** The percentage is the count scaled so that a full day of readings is
      100: never negative, and at most 100 exactly when the count is at most
      a day's worth. Half a day of readings is 50%. */
  lemma PercentMeaning(count: nat)
    ensures Percent(count) * (ExpectedPerDay as real) == (count as real) * 100.0
    ensures 0.0 <= Percent(count) && (Percent(count) <= 100.0 <==> count <= ExpectedPerDay)
    ensures Percent(ExpectedPerDay / 2) == 50.0
  {
  }

  function Sum(xs: seq<real>): real
  {
    if xs == [] then 0.0 else Sum(xs[..|xs| - 1]) + xs[|xs| - 1]
  }

  /** The percentage of each location, in order. */
  function Percents(posts: seq<Location>, ps: seq<Periodik>, dayStart: int): (r: seq<real>)
    ensures |r| == |posts|
  {
    if posts == [] then []
    else Percents(posts[..|posts| - 1], ps, dayStart) + [Percent(DayCount(ps, posts[|posts| - 1].id, dayStart))]
  }

  /** All readings that arrived at these locations on the day. */
  function TotalCount(posts: seq<Location>, ps: seq<Periodik>, dayStart: int): nat
  {
    if posts == [] then 0
    else TotalCount(posts[..|posts| - 1], ps, dayStart) + DayCount(ps, posts[|posts| - 1].id, dayStart)
  }

  /** `j_data / (i - 1)`: the mean of n percentages summing to `total`. */
  function Mean(total: real, n: nat): real
    requires n > 0
  {
    total / n as real
  }

  datatype Category = RainCategory | LevelCategory | ClimateCategory

  datatype ArrivalLine =
    | Heading(category: Category, mean: real)
    | Entry(no: nat, nama: string, percent: real)

  function Entries(posts: seq<Location>, ps: seq<Periodik>, dayStart: int): seq<ArrivalLine>
  {
    if posts == [] then []
    else
      var last := posts[|posts| - 1];
      Entries(posts[..|posts| - 1], ps, dayStart) + [Entry(|posts|, last.nama, Percent(DayCount(ps, last.id, dayStart)))]
  }

  /** The headings a section collects when its heading is prepended on every
      iteration: the mean so far, newest first. */
  function RunningHeadings(category: Category, percents: seq<real>): seq<ArrivalLine>
  {
    if percents == [] then []
    else [Heading(category, Mean(Sum(percents), |percents|))] + RunningHeadings(category, percents[..|percents| - 1])
  }

  /** One category's section. A category without locations prints nothing. */
  function Section(category: Category, posts: seq<Location>, ps: seq<Periodik>, dayStart: int, headingPerRow: bool): seq<ArrivalLine>
  {
    if posts == [] then []
    else if headingPerRow then RunningHeadings(category, Percents(posts, ps, dayStart)) + Entries(posts, ps, dayStart)
    else [Heading(category, Mean(Sum(Percents(posts, ps, dayStart)), |posts|))] + Entries(posts, ps, dayStart)
  }

  /** A category's mean percentage is the pooled arrival rate of its
      locations: all their readings over all the readings expected of them. */
  lemma {:induction false} MeanIsPooledRate(posts: seq<Location>, ps: seq<Periodik>, dayStart: int)
    ensures Sum(Percents(posts, ps, dayStart)) * (ExpectedPerDay as real) == (TotalCount(posts, ps, dayStart) as real) * 100.0
  {
    if posts != [] {
      MeanIsPooledRate(posts[..|posts| - 1], ps, dayStart);
    }
  }

  /** When no location received more than a day's samples, the category
      mean is at most 100%. */
  lemma {:induction false} MeanAtMostHundred(posts: seq<Location>, ps: seq<Periodik>, dayStart: int)
    requires forall k :: 0 <= k < |posts| ==> DayCount(ps, posts[k].id, dayStart) <= ExpectedPerDay
    ensures Sum(Percents(posts, ps, dayStart)) <= 100.0 * |posts| as real
  {
    if posts != [] {
      var init := posts[..|posts| - 1];
      assert forall k :: 0 <= k < |init| ==> init[k] == posts[k];
      MeanAtMostHundred(init, ps, dayStart);
    }
  }

  /** The section built with a heading per row opens with the correct
      overall mean but carries one heading per location: the m-th is the
      mean of the first |percents| - m locations only. */
  lemma {:induction false} RunningHeadingsAreStaleMeans(category: Category, percents: seq<real>)
    ensures |RunningHeadings(category, percents)| == |percents|
    ensures forall m :: 0 <= m < |percents| ==>
      RunningHeadings(category, percents)[m] ==
        Heading(category, Mean(Sum(percents[..|percents| - m]), |percents| - m))
  {
    if percents != [] {
      var init := percents[..|percents| - 1];
      RunningHeadingsAreStaleMeans(category, init);
      forall m | 0 <= m < |percents|
        ensures RunningHeadings(category, percents)[m] ==
          Heading(category, Mean(Sum(percents[..|percents| - m]), |percents| - m))
      {
        if m == 0 {
          assert percents[..|percents|] == percents;
        } else {
          assert percents[..|percents| - m] == init[..|init| - (m - 1)];
        }
      }
    }
  }

  /** What a block holds after its first j locations, before a heading is
      added after the loop. */
  function Built(category: Category, posts: seq<Location>, ps: seq<Periodik>, dayStart: int, headingPerRow: bool, j: nat): seq<ArrivalLine>
    requires j <= |posts|
  {
    (if headingPerRow then RunningHeadings(category, Percents(posts[..j], ps, dayStart)) else []) + Entries(posts[..j], ps, dayStart)
  }

  /** Adding the next location adds its percentage and its entry. */
  lemma PrefixStep(posts: seq<Location>, ps: seq<Periodik>, dayStart: int, j: nat)
    requires j < |posts|
    ensures var x := Percent(DayCount(ps, posts[j].id, dayStart));
      && Percents(posts[..j + 1], ps, dayStart) == Percents(posts[..j], ps, dayStart) + [x]
      && Entries(posts[..j + 1], ps, dayStart) == Entries(posts[..j], ps, dayStart) + [Entry(j + 1, posts[j].nama, x)]
  {
    assert posts[..j + 1][..j] == posts[..j];
  }

  /** Hence the running sum grows by that percentage and, with a heading per
      row, the new running mean goes in front of the block. */
  lemma BuiltStep(category: Category, posts: seq<Location>, ps: seq<Periodik>, dayStart: int, headingPerRow: bool, j: nat)
    requires j < |posts|
    ensures var x := Percent(DayCount(ps, posts[j].id, dayStart));
      var sum := Sum(Percents(posts[..j], ps, dayStart)) + x;
      && Sum(Percents(posts[..j + 1], ps, dayStart)) == sum
      && Built(category, posts, ps, dayStart, headingPerRow, j + 1) ==
           (if headingPerRow then [Heading(category, Mean(sum, j + 1))] else []) +
           (Built(category, posts, ps, dayStart, headingPerRow, j) + [Entry(j + 1, posts[j].nama, x)])
  {
    PrefixStep(posts, ps, dayStart, j);
    var p := Percents(posts[..j + 1], ps, dayStart);
    assert p[..|p| - 1] == Percents(posts[..j], ps, dayStart);
  }

  /** After the loop, the block is the section. */
  lemma BuiltAll(category: Category, posts: seq<Location>, ps: seq<Periodik>, dayStart: int, headingPerRow: bool)
    requires posts != []
    ensures var built := Built(category, posts, ps, dayStart, headingPerRow, |posts|);
      Section(category, posts, ps, dayStart, headingPerRow) ==
        if headingPerRow then built
        else [Heading(category, Mean(Sum(Percents(posts[..|posts|], ps, dayStart)), |posts|))] + built
  {
    assert posts[..|posts|] == posts;
  }

  /** The rain and water-level blocks of `persentase_hadir_data`: the
      percentage loop, then the category heading with the mean in front. */
  method ArrivalSection(category: Category, posts: seq<Location>, periodiks: seq<Periodik>, dayStart: int)
    returns (section: seq<ArrivalLine>)
    ensures section == Section(category, posts, periodiks, dayStart, false)
  {
    section := [];
    if |posts| > 0 {
      var jData := 0.0;
      var i := 1;
      var j := 0;
      while j < |posts|
        invariant 0 <= j <= |posts| && i == j + 1
        invariant jData == Sum(Percents(posts[..j], periodiks, dayStart))
        invariant section == Built(category, posts, periodiks, dayStart, false, j)
      {
        var l := posts[j];
        BuiltStep(category, posts, periodiks, dayStart, false, j);
        var banyakData := DayCount(periodiks, l.id, dayStart);
        var persenData := Percent(banyakData);
        jData := jData + persenData;
        section := section + [Entry(i, l.nama, persenData)];
        i := i + 1;
        j := j + 1;
      }
      BuiltAll(category, posts, periodiks, dayStart, false);
      section := [Heading(category, Mean(jData, i - 1))] + section;
    }
  }

  /** The climatology block as written: the heading is put in front inside
      the loop, once per location. */
  method ClimateSection(posts: seq<Location>, periodiks: seq<Periodik>, dayStart: int)
    returns (section: seq<ArrivalLine>)
    ensures section == Section(ClimateCategory, posts, periodiks, dayStart, true)
  {
    section := [];
    if |posts| > 0 {
      var jData := 0.0;
      var i := 1;
      var j := 0;
      while j < |posts|
        invariant 0 <= j <= |posts| && i == j + 1
        invariant jData == Sum(Percents(posts[..j], periodiks, dayStart))
        invariant section == Built(ClimateCategory, posts, periodiks, dayStart, true, j)
      {
        var l := posts[j];
        BuiltStep(ClimateCategory, posts, periodiks, dayStart, true, j);
        var banyakData := DayCount(periodiks, l.id, dayStart);
        var persenData := Percent(banyakData);
        jData := jData + persenData;
        section := section + [Entry(i, l.nama, persenData)];
        i := i + 1;
        section := [Heading(ClimateCategory, Mean(jData, i - 1))] + section;
        j := j + 1;
      }
      BuiltAll(ClimateCategory, posts, periodiks, dayStart, true);
    }
  }

  /** `persentase_hadir_data`: the rain, water-level and climate sections in
      that order. */
  method PersentaseHadirData(dayStart: int, locations: seq<Location>, periodiks: seq<Periodik>)
    returns (report: seq<ArrivalLine>)
    ensures report ==
      Section(RainCategory, OfType(locations, {RainPost}), periodiks, dayStart, false) +
      Section(LevelCategory, OfType(locations, {LevelPost}), periodiks, dayStart, false) +
      Section(ClimateCategory, OfType(locations, {ClimatePost}), periodiks, dayStart, true)
  {
    var rain := ArrivalSection(RainCategory, OfType(locations, {RainPost}), periodiks, dayStart);
    var level := ArrivalSection(LevelCategory, OfType(locations, {LevelPost}), periodiks, dayStart);
    var climate := ClimateSection(OfType(locations, {ClimatePost}), periodiks, dayStart);
    report := rain + level + climate;
  }
}
