/** The water-level report: for every water-level location, its most recent
    reading up to now, reported in metres. */
module LevelReport {
  import opened Models

  const MetresPerCentimetre: real := 0.01

  /** The reading query of the report: at this location, sampled no later than now. */
  predicate AtOrBefore(p: Periodik, locationId: int, now: int)
  {
    p.locationId == Some(locationId) && p.sampling <= now
  }

  /** `order_by(desc(sampling)).first()`: the reading with the latest sampling
      among those at or before `now`; of equal samplings, the first stored. */
  function Latest(ps: seq<Periodik>, locationId: int, now: int): (r: Option<nat>)
    ensures r.None? <==> forall j :: 0 <= j < |ps| ==> !AtOrBefore(ps[j], locationId, now)
    ensures r.Some? ==> r.value < |ps| && AtOrBefore(ps[r.value], locationId, now)
    ensures r.Some? ==> forall j :: 0 <= j < |ps| && AtOrBefore(ps[j], locationId, now) ==> ps[j].sampling <= ps[r.value].sampling
  {
    if ps == [] then None
    else
      var n := |ps| - 1;
      var r := Latest(ps[..n], locationId, now);
      assert forall j :: 0 <= j < n ==> ps[..n][j] == ps[j];
      if AtOrBefore(ps[n], locationId, now) && (r.None? || ps[r.value].sampling < ps[n].sampling) then Some(n) else r
  }

  datatype LevelLine = LevelLine(no: nat, nama: string, metres: real, sampling: int)

  /** Why the report could not be built: `periodik.wlev` was read from no
      reading at all, or from a reading without a level. */
  datatype LevelError = NoReading(nama: string) | NoLevel(nama: string)

  /** The line for `pos`, or the error its latest reading raises. */
  function LevelFor(pos: Location, ps: seq<Periodik>, now: int, no: nat): Result<LevelLine, LevelError>
  {
    match Latest(ps, pos.id, now)
    case None => Failure(NoReading(pos.nama))
    case Some(j) =>
      if ps[j].wlev.None? then Failure(NoLevel(pos.nama))
      else Success(LevelLine(no, pos.nama, ps[j].wlev.value * MetresPerCentimetre, ps[j].sampling))
  }

  /** A level line names its location and reports, in metres, the level of a
      reading at that location sampled at or before now, later than or as late
      as every other such reading. The report fails with NoReading exactly
      when there is no such reading; otherwise it succeeds exactly when the
      latest reading has a level, and fails with NoLevel when it has none. */
  lemma LevelForMeaning(pos: Location, ps: seq<Periodik>, now: int, no: nat)
    ensures var r := LevelFor(pos, ps, now, no);
      && (r.Success? ==> r.value.no == no && r.value.nama == pos.nama && r.value.sampling <= now)
      && (r.Success? ==> (exists j :: 0 <= j < |ps| && AtOrBefore(ps[j], pos.id, now) &&
                                      ps[j].sampling == r.value.sampling && ps[j].wlev == Some(r.value.metres * 100.0)))
      && (r.Success? ==> forall j :: 0 <= j < |ps| && AtOrBefore(ps[j], pos.id, now) ==> ps[j].sampling <= r.value.sampling)
      && (r == Failure(NoReading(pos.nama)) <==> forall j :: 0 <= j < |ps| ==> !AtOrBefore(ps[j], pos.id, now))
      && (Latest(ps, pos.id, now).Some? ==> (r.Success? <==> ps[Latest(ps, pos.id, now).value].wlev.Some?))
      && (Latest(ps, pos.id, now).Some? && r.Failure? ==> r == Failure(NoLevel(pos.nama)))
  {
    var r := LevelFor(pos, ps, now, no);
    if r.Success? {
      var j := Latest(ps, pos.id, now).value;
      assert ps[j].wlev == Some(r.value.metres * 100.0);
    }
  }

  /** Line k is the line of the k-th location, numbered from 1. */
  predicate AllLines(lines: seq<LevelLine>, posts: seq<Location>, ps: seq<Periodik>, now: int)
  {
    |lines| == |posts| && forall k :: 0 <= k < |lines| ==> LevelFor(posts[k], ps, now, k + 1) == Success(lines[k])
  }

  lemma AllLinesAppend(lines: seq<LevelLine>, posts: seq<Location>, line: LevelLine, pos: Location, ps: seq<Periodik>, now: int)
    requires AllLines(lines, posts, ps, now) && LevelFor(pos, ps, now, |lines| + 1) == Success(line)
    ensures AllLines(lines + [line], posts + [pos], ps, now)
  {
  }

  /** `build_tma`: one line per water-level location in table order. The
      first location whose latest reading is missing or has no level aborts
      the whole report. */
  method BuildTma(now: int, locations: seq<Location>, periodiks: seq<Periodik>)
    returns (r: Result<seq<LevelLine>, LevelError>)
    ensures var posts := OfType(locations, {LevelPost});
      r.Success? ==> (|r.value| == |posts| &&
        forall k :: 0 <= k < |posts| ==> LevelFor(posts[k], periodiks, now, k + 1) == Success(r.value[k]))
    ensures var posts := OfType(locations, {LevelPost});
      r.Failure? ==> (exists k :: 0 <= k < |posts| &&
                        LevelFor(posts[k], periodiks, now, k + 1) == Failure(r.error) &&
                        (forall k' :: 0 <= k' < k ==> LevelFor(posts[k'], periodiks, now, k' + 1).Success?))
  {
    var lines := [];
    ghost var posts := [];
    var i := 1;
    var j := 0;
    while j < |locations|
      invariant 0 <= j <= |locations|
      invariant posts == OfType(locations[..j], {LevelPost})
      invariant AllLines(lines, posts, periodiks, now) && i == |lines| + 1
    {
      var pos := locations[j];
      OfTypeStep(locations, {LevelPost}, j);
      if pos.tipe in {LevelPost} {
        var line := LevelFor(pos, periodiks, now, i);
        if line.Failure? {
          OfTypeAt(locations, {LevelPost}, j);
          OfTypePrefix(locations, {LevelPost}, j);
          ghost var all := OfType(locations, {LevelPost});
          assert forall k' :: 0 <= k' < |posts| ==> all[k'] == posts[k'];
          assert all[|posts|] == pos;
          return Failure(line.error);
        }
        AllLinesAppend(lines, posts, line.value, pos, periodiks, now);
        lines := lines + [line.value];
        posts := posts + [pos];
        i := i + 1;
      }
      j := j + 1;
    }
    assert locations[..j] == locations;
    r := Success(lines);
  }
}
