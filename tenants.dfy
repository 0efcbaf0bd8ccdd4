/** The per-tenant rain summary: readings sampled in one window are grouped by
    tenant name and logger serial, their rain summed, and only loggers with
    positive rain are listed. */
module TenantReport {
  import opened Models

  /** Tenant name to logger serial to rain, as the nested dictionary. */
  type Totals = map<string, map<string, real>>

  /** The exceptions the grouping loop can raise. */
  datatype ReportError =
    | NoLogger(sn: string)          // the reading's logger does not exist
    | NoLoggerTenant(sn: string)    // its logger has no tenant
    | NoReadingTenant(sn: string)   // the reading itself has no tenant
    | MissingKey(key: string)       // a dictionary lookup misses

  const HardcodedReportTime := 1578826800   // 2020-01-12 11:00:00, the fixed report time
  const WindowLength := 55 * 60

  /** The window is the previous hour, from minute 0 to minute 55. Building
      it fails in the first hour of a day, where the hour before is -1. */
  function Window(time: int): (w: Option<(int, int)>)
    ensures w.None? <==> time % DaySeconds < HourSeconds
    ensures w.Some? ==> var (start, end) := w.value;
      && start % HourSeconds == 0
      && start + HourSeconds <= time < start + 2 * HourSeconds
      && end == start + WindowLength
  {
    if time % DaySeconds < HourSeconds then None
    else
      var start := time - time % HourSeconds - HourSeconds;
      Some((start, start + WindowLength))
  }

  /** At the fixed report time the window is 10:00 to 10:55 that day. */
  lemma HardcodedWindow()
    ensures Window(HardcodedReportTime) == Some((HardcodedReportTime - HourSeconds, HardcodedReportTime - HourSeconds + WindowLength))
  {
  }

  /** `sampling.between(start, end)`, both ends included, in stored order. */
  function Between(ps: seq<Periodik>, start: int, end: int): (r: seq<Periodik>)
    ensures |r| <= |ps|
    ensures forall p :: p in r <==> p in ps && start <= p.sampling <= end
  {
    if ps == [] then []
    else (if start <= ps[0].sampling <= end then [ps[0]] else []) + Between(ps[1..], start, end)
  }

  /** The query keeps stored order: on readings stored one stretch after
      another it returns those it keeps of the first stretch, then those of
      the second. */
  lemma {:induction false} BetweenConcat(a: seq<Periodik>, b: seq<Periodik>, start: int, end: int)
    ensures Between(a + b, start, end) == Between(a, start, end) + Between(b, start, end)
  {
    if a == [] {
      assert a + b == b;
    } else {
      assert (a + b)[0] == a[0] && (a + b)[1..] == a[1..] + b;
      BetweenConcat(a[1..], b, start, end);
    }
  }

  function TenantName(tenants: map<int, Tenant>, id: Option<int>): Option<string>
  {
    if id.Some? && id.value in tenants then Some(tenants[id.value].nama) else None
  }

  /** `period.rain or 0`. */
  function RainOrZero(p: Periodik): real
  {
    if p.rain.Some? then p.rain.value else 0.0
  }

  /** One iteration of the grouping loop. The entry is created under the
      logger's tenant but reset and summed under the reading's own tenant.
      It raises when the logger, its tenant or the reading's tenant is
      missing, and with a KeyError when the reading is booked to another
      tenant that has no dictionary yet, or whose dictionary lacks the serial
      although the owner's has it. Otherwise the tenants collected so far
      gain the owner and no other. */
  function Step(acc: Totals, p: Periodik, loggers: map<string, Logger>, tenants: map<int, Tenant>): (r: Result<Totals, ReportError>)
    ensures r == Failure(NoLogger(p.loggerSn)) <==> p.loggerSn !in loggers
    ensures r == Failure(NoLoggerTenant(p.loggerSn)) <==>
      p.loggerSn in loggers && Owner(p.loggerSn, loggers, tenants).None?
    ensures r == Failure(NoReadingTenant(p.loggerSn)) <==>
      Owner(p.loggerSn, loggers, tenants).Some? && TenantName(tenants, p.tenantId).None?
    ensures Owner(p.loggerSn, loggers, tenants).Some? && TenantName(tenants, p.tenantId).Some? ==>
      var owner, booked, sn := Owner(p.loggerSn, loggers, tenants).value, TenantName(tenants, p.tenantId).value, p.loggerSn;
      && (r.Failure? <==> booked != owner && (booked !in acc || (owner in acc && sn in acc[owner] && sn !in acc[booked])))
      && (booked != owner && booked !in acc ==> r == Failure(MissingKey(booked)))
      && (booked != owner && booked in acc && r.Failure? ==> r == Failure(MissingKey(sn)))
      && (r.Success? ==> r.value.Keys == acc.Keys + {owner})
  {
    if p.loggerSn !in loggers then Failure(NoLogger(p.loggerSn))
    else match TenantName(tenants, loggers[p.loggerSn].tenantId)
      case None => Failure(NoLoggerTenant(p.loggerSn))
      case Some(owner) =>
        var acc1 := (if owner in acc then acc else acc[owner := map[]]);
        var isNew := p.loggerSn !in acc1[owner];
        match TenantName(tenants, p.tenantId)
        case None => Failure(NoReadingTenant(p.loggerSn))
        case Some(booked) =>
          if booked !in acc1 then Failure(MissingKey(booked))
          else
            var row := (if isNew then acc1[booked][p.loggerSn := 0.0] else acc1[booked]);
            if p.loggerSn !in row then Failure(MissingKey(p.loggerSn))
            else Success(acc1[booked := row[p.loggerSn := row[p.loggerSn] + RainOrZero(p)]])
  }

  /** The grouping loop over the readings; the first exception ends it. A
      tenant once collected is never dropped. */
  function Run(acc: Totals, ps: seq<Periodik>, loggers: map<string, Logger>, tenants: map<int, Tenant>): (r: Result<Totals, ReportError>)
    ensures r.Success? ==> acc.Keys <= r.value.Keys
    decreases ps
  {
    if ps == [] then Success(acc)
    else match Step(acc, ps[0], loggers, tenants)
      case Failure(e) => Failure(e)
      case Success(next) => Run(next, ps[1..], loggers, tenants)
  }

  /** What the report prints: every tenant, and under it only the loggers whose rain is positive. */
  function Listing(acc: Totals): (l: Totals)
    ensures l.Keys == acc.Keys
    ensures forall t, sn :: t in l && sn in l[t] ==> sn in acc[t] && l[t][sn] == acc[t][sn] > 0.0
    ensures forall t, sn :: t in acc && sn in acc[t] && acc[t][sn] > 0.0 ==> sn in l[t]
  {
    map t | t in acc :: map sn | sn in acc[t] && acc[t][sn] > 0.0 :: acc[t][sn]
  }

  function Report(r: Result<Totals, ReportError>): Result<Totals, ReportError>
  {
    match r
    case Success(acc) => Success(Listing(acc))
    case Failure(e) => Failure(e)
  }

  /** The body of the grouping loop, lines as written: create the tenant's
      dictionary under the logger's tenant, zero the entry if that dictionary
      lacks the serial, then add the rain under the reading's tenant. What
      one such step does is stated on `Step`. */
  method Accumulate(result: Totals, period: Periodik, loggers: map<string, Logger>, tenants: map<int, Tenant>)
    returns (r: Result<Totals, ReportError>)
    ensures r == Step(result, period, loggers, tenants)
  {
    var sn := period.loggerSn;
    if sn !in loggers {
      return Failure(NoLogger(sn));
    }
    var owner := TenantName(tenants, loggers[sn].tenantId);
    if owner.None? {
      return Failure(NoLoggerTenant(sn));
    }
    var acc := result;
    if owner.value !in acc {
      acc := acc[owner.value := map[]];
    }
    ghost var acc1 := acc;
    var booked := TenantName(tenants, period.tenantId);
    if sn !in acc[owner.value] {
      if booked.None? {
        return Failure(NoReadingTenant(sn));
      }
      if booked.value !in acc {
        return Failure(MissingKey(booked.value));
      }
      acc := acc[booked.value := acc[booked.value][sn := 0.0]];
    }
    if booked.None? {
      return Failure(NoReadingTenant(sn));
    }
    if booked.value !in acc {
      return Failure(MissingKey(booked.value));
    }
    if sn !in acc[booked.value] {
      return Failure(MissingKey(sn));
    }
    r := Success(acc[booked.value := acc[booked.value][sn := acc[booked.value][sn] + RainOrZero(period)]]);
    assert r.value == acc1[booked.value := acc[booked.value][sn := acc[booked.value][sn] + RainOrZero(period)]];
  }

  /** The loop from position j on is the step at j followed by the loop from j + 1 on. */
  lemma RunFirst(acc: Totals, ps: seq<Periodik>, j: nat, loggers: map<string, Logger>, tenants: map<int, Tenant>)
    requires j < |ps|
    ensures var s := Step(acc, ps[j], loggers, tenants);
      Run(acc, ps[j..], loggers, tenants) == if s.Failure? then Failure(s.error) else Run(s.value, ps[j + 1..], loggers, tenants)
  {
    assert ps[j..][0] == ps[j] && ps[j..][1..] == ps[j + 1..];
  }

  /** `tenants_report` for a given window: the grouping loop, then the listing. */
  method TenantsReport(start: int, end: int, periodiks: seq<Periodik>, loggers: map<string, Logger>, tenants: map<int, Tenant>)
    returns (r: Result<Totals, ReportError>)
    ensures r == Report(Run(map[], Between(periodiks, start, end), loggers, tenants))
  {
    var periodics := Between(periodiks, start, end);
    var result: Totals := map[];
    var j := 0;
    while j < |periodics|
      invariant 0 <= j <= |periodics|
      invariant Run(result, periodics[j..], loggers, tenants) == Run(map[], periodics, loggers, tenants)
    {
      RunFirst(result, periodics, j, loggers, tenants);
      var next := Accumulate(result, periodics[j], loggers, tenants);
      if next.Failure? {
        return Failure(next.error);
      }
      result := next.value;
      j := j + 1;
    }
    r := Success(Listing(result));
  }

  /** The tenant a logger belongs to, by name. */
  function Owner(sn: string, loggers: map<string, Logger>, tenants: map<int, Tenant>): Option<string>
  {
    if sn in loggers then TenantName(tenants, loggers[sn].tenantId) else None
  }

  /** Every reading's logger exists and has a tenant, and the reading is
      booked to that same tenant. */
  predicate Consistent(ps: seq<Periodik>, loggers: map<string, Logger>, tenants: map<int, Tenant>)
  {
    forall i :: 0 <= i < |ps| ==>
      && Owner(ps[i].loggerSn, loggers, tenants).Some?
      && ps[i].tenantId == loggers[ps[i].loggerSn].tenantId
  }

  function Get(acc: Totals, t: string, sn: string): real
  {
    if t in acc && sn in acc[t] then acc[t][sn] else 0.0
  }

  /** The rain of a logger's readings. */
  function RainTotal(ps: seq<Periodik>, sn: string): real
  {
    if ps == [] then 0.0
    else (if ps[0].loggerSn == sn then RainOrZero(ps[0]) else 0.0) + RainTotal(ps[1..], sn)
  }

  lemma StepAddsRain(acc: Totals, p: Periodik, loggers: map<string, Logger>, tenants: map<int, Tenant>)
    requires Owner(p.loggerSn, loggers, tenants).Some? && p.tenantId == loggers[p.loggerSn].tenantId
    ensures Step(acc, p, loggers, tenants).Success?
    ensures var next := Step(acc, p, loggers, tenants).value;
      && next.Keys == acc.Keys + {Owner(p.loggerSn, loggers, tenants).value}
      && forall t, sn :: Get(next, t, sn) ==
           Get(acc, t, sn) + (if sn == p.loggerSn && Owner(sn, loggers, tenants) == Some(t) then RainOrZero(p) else 0.0)
  {
  }

  /** With consistent bookings the loop never raises and adds to each
      (tenant, logger) entry the rain of that logger's readings when the
      tenant owns the logger, and nothing otherwise. */
  lemma {:induction false} RunAddsRain(acc: Totals, ps: seq<Periodik>, loggers: map<string, Logger>, tenants: map<int, Tenant>)
    requires Consistent(ps, loggers, tenants)
    ensures Run(acc, ps, loggers, tenants).Success?
    ensures var out := Run(acc, ps, loggers, tenants).value;
      forall t, sn :: Get(out, t, sn) ==
        Get(acc, t, sn) + (if Owner(sn, loggers, tenants) == Some(t) then RainTotal(ps, sn) else 0.0)
    decreases ps
  {
    if ps != [] {
      StepAddsRain(acc, ps[0], loggers, tenants);
      var next := Step(acc, ps[0], loggers, tenants).value;
      assert forall i :: 0 <= i < |ps[1..]| ==> ps[1..][i] == ps[i + 1];
      RunAddsRain(next, ps[1..], loggers, tenants);
    }
  }

  /** With consistent bookings the loop collects exactly the tenants that
      own a logger of some reading, besides those it started with. */
  lemma {:induction false} RunTenants(acc: Totals, ps: seq<Periodik>, loggers: map<string, Logger>, tenants: map<int, Tenant>)
    requires Consistent(ps, loggers, tenants)
    ensures Run(acc, ps, loggers, tenants).Success?
    ensures forall t :: t in Run(acc, ps, loggers, tenants).value <==>
      t in acc || exists i :: 0 <= i < |ps| && Owner(ps[i].loggerSn, loggers, tenants) == Some(t)
    decreases ps
  {
    if ps != [] {
      StepAddsRain(acc, ps[0], loggers, tenants);
      var next := Step(acc, ps[0], loggers, tenants).value;
      assert forall i :: 0 <= i < |ps[1..]| ==> ps[1..][i] == ps[i + 1];
      RunTenants(next, ps[1..], loggers, tenants);
      var out := Run(acc, ps, loggers, tenants).value;
      forall t
        ensures t in out <==> t in acc || exists i :: 0 <= i < |ps| && Owner(ps[i].loggerSn, loggers, tenants) == Some(t)
      {
        if exists i :: 0 <= i < |ps| && Owner(ps[i].loggerSn, loggers, tenants) == Some(t) {
          var i :| 0 <= i < |ps| && Owner(ps[i].loggerSn, loggers, tenants) == Some(t);
          if i > 0 {
            assert ps[1..][i - 1] == ps[i];
          }
        }
      }
    }
  }

  /** A logger is listed under a tenant exactly when its total there is positive. */
  lemma ListingEntry(acc: Totals, t: string, sn: string)
    ensures var l := Listing(acc);
      && (t in l && sn in l[t] <==> Get(acc, t, sn) > 0.0)
      && (t in l && sn in l[t] ==> l[t][sn] == Get(acc, t, sn))
  {
  }

  /** For totals of the shape a consistent run produces (see RunAddsRain),
      a logger is listed under a tenant exactly when the tenant owns it and
      its readings rained, and it is listed with the rain of all those
      readings. */
  lemma ListedIffRained(out: Totals, ps: seq<Periodik>, loggers: map<string, Logger>, tenants: map<int, Tenant>)
    requires forall t, sn :: Get(out, t, sn) == (if Owner(sn, loggers, tenants) == Some(t) then RainTotal(ps, sn) else 0.0)
    ensures var l := Listing(out);
      && (forall t, sn :: t in l && sn in l[t] <==> (Owner(sn, loggers, tenants) == Some(t) && RainTotal(ps, sn) > 0.0))
      && (forall t, sn :: t in l && sn in l[t] ==> l[t][sn] == RainTotal(ps, sn))
  {
    var l := Listing(out);
    forall t, sn
      ensures t in l && sn in l[t] <==> (Owner(sn, loggers, tenants) == Some(t) && RainTotal(ps, sn) > 0.0)
      ensures t in l && sn in l[t] ==> l[t][sn] == RainTotal(ps, sn)
    {
      ListingEntry(out, t, sn);
    }
  }

  /** `tenants_report` over a window whose bookings are consistent never
      raises, and lists each tenant's rained-on loggers with their rain. */
  lemma ReportListsOwnedRain(start: int, end: int, periodiks: seq<Periodik>, loggers: map<string, Logger>, tenants: map<int, Tenant>)
    requires Consistent(Between(periodiks, start, end), loggers, tenants)
    ensures var window := Between(periodiks, start, end);
      var r := Report(Run(map[], window, loggers, tenants));
      && r.Success?
      && (forall t, sn :: t in r.value && sn in r.value[t] <==> (Owner(sn, loggers, tenants) == Some(t) && RainTotal(window, sn) > 0.0))
      && (forall t, sn :: t in r.value && sn in r.value[t] ==> r.value[t][sn] == RainTotal(window, sn))
  {
    var window := Between(periodiks, start, end);
    RunAddsRain(map[], window, loggers, tenants);
    ListedIffRained(Run(map[], window, loggers, tenants).value, window, loggers, tenants);
  }

  /** When a reading is booked to another tenant than its logger's, and the
      owner's dictionary does not hold the serial, the entry is zeroed again
      on every such reading: of two such readings of 2 mm and 3 mm, only the
      last 3 mm is reported, although the logger's rain is 5 mm. */
  lemma MismatchedBookingKeepsLastReading()
    ensures
      var alpha, beta := Tenant(1, "Alpha", "alpha"), Tenant(2, "Beta", "beta");
      var a := Logger("A1", "arr", None, Some(1), None, None, None, None, None);
      var b := Logger("B1", "arr", None, Some(2), None, None, None, None, None);
      var p := Periodik(0, "B1", None, Some(2), None, None, None, None, None, None, Some(1.0), None, 0, 0, 0);
      var q := p.(loggerSn := "A1", rain := Some(2.0));
      var r := q.(rain := Some(3.0));
      var out := Run(map[], [p, q, r], map["A1" := a, "B1" := b], map[1 := alpha, 2 := beta]);
      && RainTotal([p, q, r], "A1") == 5.0
      && out.Success? && "Beta" in out.value && "A1" in out.value["Beta"] && out.value["Beta"]["A1"] == 3.0
  {
    var alpha, beta := Tenant(1, "Alpha", "alpha"), Tenant(2, "Beta", "beta");
    var a := Logger("A1", "arr", None, Some(1), None, None, None, None, None);
    var b := Logger("B1", "arr", None, Some(2), None, None, None, None, None);
    var p := Periodik(0, "B1", None, Some(2), None, None, None, None, None, None, Some(1.0), None, 0, 0, 0);
    var q := p.(loggerSn := "A1", rain := Some(2.0));
    var r := q.(rain := Some(3.0));
    var loggers, tenants := map["A1" := a, "B1" := b], map[1 := alpha, 2 := beta];
    assert "A1" != "B1" && "Alpha" != "Beta";
    var s1 := Step(map[], p, loggers, tenants).value;
    assert s1.Keys == {"Beta"};
    var s2 := Step(s1, q, loggers, tenants).value;
    assert s2.Keys == {"Alpha", "Beta"} && s2["Beta"]["A1"] == 2.0;
    var s3 := Step(s2, r, loggers, tenants).value;
    assert s3["Beta"]["A1"] == 3.0;
    assert [p, q, r][1..] == [q, r] && [q, r][1..] == [r] && [r][1..] == [];
    assert Run(s2, [r], loggers, tenants) == Success(s3);
    assert Run(s1, [q, r], loggers, tenants) == Success(s3);
    assert Run(map[], [p, q, r], loggers, tenants) == Success(s3);
    assert RainTotal([r], "A1") == 3.0;
    assert RainTotal([q, r], "A1") == 5.0;
  }

  /** Once the owner's dictionary holds the serial, a reading booked to
      another tenant whose dictionary lacks it raises a KeyError: A1 belongs
      to Alpha, and its second reading, booked to Beta, fails. */
  lemma MismatchedBookingRaisesKeyError()
    ensures
      var alpha, beta := Tenant(1, "Alpha", "alpha"), Tenant(2, "Beta", "beta");
      var a := Logger("A1", "arr", None, Some(1), None, None, None, None, None);
      var b := Logger("B1", "arr", None, Some(2), None, None, None, None, None);
      var p := Periodik(0, "A1", None, Some(1), None, None, None, None, None, None, Some(1.0), None, 0, 0, 0);
      var q := p.(loggerSn := "B1", tenantId := Some(2));
      var r := p.(tenantId := Some(2));
      Run(map[], [p, q, r], map["A1" := a, "B1" := b], map[1 := alpha, 2 := beta]) == Failure(MissingKey("A1"))
  {
    var alpha, beta := Tenant(1, "Alpha", "alpha"), Tenant(2, "Beta", "beta");
    var a := Logger("A1", "arr", None, Some(1), None, None, None, None, None);
    var b := Logger("B1", "arr", None, Some(2), None, None, None, None, None);
    var p := Periodik(0, "A1", None, Some(1), None, None, None, None, None, None, Some(1.0), None, 0, 0, 0);
    var q := p.(loggerSn := "B1", tenantId := Some(2));
    var r := p.(tenantId := Some(2));
    var loggers, tenants := map["A1" := a, "B1" := b], map[1 := alpha, 2 := beta];
    assert "A1" != "B1" && "Alpha" != "Beta";
    var s1 := Step(map[], p, loggers, tenants).value;
    assert s1.Keys == {"Alpha"} && "A1" in s1["Alpha"];
    var s2 := Step(s1, q, loggers, tenants).value;
    assert s2.Keys == {"Alpha", "Beta"} && s2["Alpha"] == s1["Alpha"] && "A1" !in s2["Beta"];
    assert Step(s2, r, loggers, tenants) == Failure(MissingKey("A1"));
    assert [p, q, r][1..] == [q, r] && [q, r][1..] == [r];
    assert Run(s1, [q, r], loggers, tenants) == Failure(MissingKey("A1"));
  }
}
