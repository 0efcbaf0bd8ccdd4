/** The reading ingest and the rain backfill, over a store holding the logger
    table, the raw-payload table and the periodik table. A commit adds its
    pending rows all together or not at all. */
module Ingest {
  import opened Models
  import opened Conversion

  /** What one ingest call reports, in place of its message strings. */
  datatype Outcome =
    | Recorded(sn: string, upSince: int)      // one Raw and one Periodik committed
    | AlreadyExist(sn: string, sampling: int) // a reading with this key is stored
    | TenantNotSet(sn: string)
    | LoggerNotFound(sn: string)
    | RecordFailed(sn: string)                // the insert block raised: time_set_at missing,
                                              // or the commit rejected its rows; rolled back
    | Errors(sn: string)                      // sampling or up_since missing
    | DeviceUnparsed                          // device missing or without '/': the serial
                                              // parse raises out of the ingest, uncaught

  /** Result of one raw row in the backfill. */
  datatype FixStep =
    | Updated(sn: string, sampling: int, rain: Option<real>)
    | Inserted(outcome: Outcome)
    | Failed                                  // the row raised and was skipped

  /** Result of one fetched payload. */
  datatype FetchStep =
    | RawRejected                             // its content was already stored
    | Ingested(outcome: Outcome)

  /** Position of the first `c` in `s`. */
  function IndexOf(s: string, c: char): (r: Option<nat>)
    ensures r.None? <==> c !in s
    ensures r.Some? ==> r.value < |s| && s[r.value] == c && c !in s[..r.value]
  {
    if s == [] then None
    else if s[0] == c then Some(0)
    else match IndexOf(s[1..], c)
      case None => None
      case Some(k) =>
        assert s[..k + 1] == [s[0]] + s[1..][..k];
        Some(k + 1)
  }

  /** `device.split('/')[1]`: the text between the first and the second '/'.
      A device without a '/' has no second part. */
  function SerialOf(device: Option<string>): (r: Option<string>)
    ensures r.None? <==> device.None? || '/' !in device.value
    ensures r.Some? ==> '/' !in r.value
  {
    match device
    case None => None
    case Some(s) =>
      match IndexOf(s, '/')
      case None => None
      case Some(i) =>
        var rest := s[i + 1..];
        match IndexOf(rest, '/')
        case None => Some(rest)
        case Some(j) => Some(rest[..j])
  }

  /** The serial written into a "<prefix>/<serial>" path is the one read back. */
  lemma {:induction false} SerialRoundTrip(prefix: string, sn: string, tail: string)
    requires '/' !in prefix && '/' !in sn
    ensures SerialOf(Some(prefix + "/" + sn)) == Some(sn)
    ensures SerialOf(Some(prefix + "/" + sn + "/" + tail)) == Some(sn)
  {
    SerialAfterPrefix(prefix, sn);
    assert prefix + "/" + sn + "/" + tail == prefix + "/" + (sn + "/" + tail);
    SerialAfterPrefix(prefix, sn + "/" + tail);
    FirstSlashAt(sn, tail);
    assert (sn + "/" + tail)[..|sn|] == sn;
  }

  /** After a first '/', the serial is what follows, up to the next '/'. */
  lemma SerialAfterPrefix(prefix: string, rest: string)
    requires '/' !in prefix
    ensures SerialOf(Some(prefix + "/" + rest)) ==
      match IndexOf(rest, '/')
      case None => Some(rest)
      case Some(j) => Some(rest[..j])
  {
    FirstSlashAt(prefix, rest);
    assert (prefix + "/" + rest)[|prefix| + 1..] == rest;
  }

  lemma {:induction false} FirstSlashAt(prefix: string, rest: string)
    requires '/' !in prefix
    ensures IndexOf(prefix + "/" + rest, '/') == Some(|prefix|)
  {
    var s := prefix + "/" + rest;
    if prefix != [] {
      assert s[1..] == prefix[1..] + "/" + rest;
      FirstSlashAt(prefix[1..], rest);
    }
  }

  /** The periodik query `filter_by(sampling=…, logger_sn=…).first()`: the
      first stored reading with that key, if any. */
  function FirstMatch(ps: seq<Periodik>, sn: string, sampling: int): (r: Option<nat>)
    ensures r.None? <==> forall i :: 0 <= i < |ps| ==> !HasKey(ps[i], sn, sampling)
    ensures r.Some? ==> r.value < |ps| && HasKey(ps[r.value], sn, sampling)
    ensures r.Some? ==> forall i :: 0 <= i < r.value ==> !HasKey(ps[i], sn, sampling)
  {
    if ps == [] then None
    else if HasKey(ps[0], sn, sampling) then Some(0)
    else match FirstMatch(ps[1..], sn, sampling)
      case None => None
      case Some(k) => Some(k + 1)
  }

  /** The raw query `received BETWEEN lo AND hi`, in stored order. */
  function ReceivedBetween(raws: seq<Raw>, lo: int, hi: int): (rows: seq<Raw>)
    ensures forall r :: r in rows <==> r in raws && lo <= r.received <= hi
  {
    if raws == [] then []
    else (if lo <= raws[0].received <= hi then [raws[0]] else []) + ReceivedBetween(raws[1..], lo, hi)
  }

  /** The query keeps stored order: on rows stored one stretch after another
      it returns the rows it keeps of the first stretch, then those of the
      second. */
  lemma {:induction false} ReceivedBetweenConcat(a: seq<Raw>, b: seq<Raw>, lo: int, hi: int)
    ensures ReceivedBetween(a + b, lo, hi) == ReceivedBetween(a, lo, hi) + ReceivedBetween(b, lo, hi)
  {
    if a == [] {
      assert a + b == b;
    } else {
      assert (a + b)[0] == a[0] && (a + b)[1..] == a[1..] + b;
      ReceivedBetweenConcat(a[1..], b, lo, hi);
    }
  }

  /** Whether one commit of these pending rows satisfies the tables' constraints. */
  predicate Admissible(loggers: map<string, Logger>, raws: seq<Raw>, rows: seq<Raw>, readings: seq<Periodik>)
  {
    RawTable(raws + rows) && forall p :: p in readings ==> PeriodikFits(p, loggers)
  }

  // The stages an ingest passes, in the order the source tests them.

  predicate Resolves(loggers: map<string, Logger>, raw: Payload)
  {
    SerialOf(raw.device).Some? && SerialOf(raw.device).value in loggers
  }

  predicate Assigned(loggers: map<string, Logger>, raw: Payload)
  {
    Resolves(loggers, raw) && IdSet(loggers[SerialOf(raw.device).value].tenantId)
  }

  predicate Timed(raw: Payload)
  {
    raw.sampling.Some? && raw.upSince.Some?
  }

  predicate NewKey(loggers: map<string, Logger>, ps: seq<Periodik>, raw: Payload)
  {
    Assigned(loggers, raw) && Timed(raw) &&
    FirstMatch(ps, SerialOf(raw.device).value, raw.sampling.value).None?
  }

  /** The insert block of the ingest goes through: `time_set_at` is present
      for the reading, and the one commit accepts both the payload and the
      reading. */
  predicate Storable(loggers: map<string, Logger>, raws: seq<Raw>, raw: Payload)
  {
    SerialOf(raw.device).Some? &&
    raw.timeSetAt.Some? && !StoredContent(raws, raw) &&
    |SerialOf(raw.device).value| <= PeriodikSnWidth
  }

  /** The backfill's plan for one stored payload, against the readings as they are. */
  datatype FixAction = Update(index: nat, rain: Option<real>) | Insert | Skip

  function FixActionFor(ps: seq<Periodik>, loggers: map<string, Logger>, content: Payload): (a: FixAction)
    ensures a.Update? ==> a.index < |ps|
  {
    match content.sampling
    case None => Skip
    case Some(s) =>
      match SerialOf(content.device)
      case None => Skip
      case Some(sn) =>
        if sn !in loggers then Skip
        else match FirstMatch(ps, sn, s)
          case Some(k) => Update(k, Rain(content.tick, loggers[sn].tippFac))
          case None => Insert
  }

  function ApplyFix(ps: seq<Periodik>, a: FixAction): seq<Periodik>
  {
    if a.Update? && a.index < |ps| then ps[a.index := ps[a.index].(rain := a.rain)] else ps
  }

  /** The readings after the backfill has gone through `rows` in order. */
  function FixAll(ps: seq<Periodik>, loggers: map<string, Logger>, rows: seq<Raw>): seq<Periodik>
    decreases |rows|
  {
    if rows == [] then ps
    else FixAll(ApplyFix(ps, FixActionFor(ps, loggers, rows[0].content)), loggers, rows[1..])
  }

  /** A row that raises (no sampling, no parsable serial, unknown logger) or
      that has no matching reading leaves the readings as they were: it is
      skipped, or handed to the ingest, which cannot record stored content. */
  lemma FixLeavesUnmatched(ps: seq<Periodik>, loggers: map<string, Logger>, row: Raw)
    requires row.content.sampling.None? || !Resolves(loggers, row.content) ||
             FirstMatch(ps, SerialOf(row.content.device).value, row.content.sampling.value).None?
    ensures FixAll(ps, loggers, [row]) == ps
  {
    assert [row][1..] == [];
  }

  /** The backfill from row i on is the action for row i followed by the backfill from i + 1 on. */
  lemma FixAllFirst(ps: seq<Periodik>, loggers: map<string, Logger>, rows: seq<Raw>, i: nat)
    requires i < |rows|
    ensures FixAll(ps, loggers, rows[i..]) ==
      FixAll(ApplyFix(ps, FixActionFor(ps, loggers, rows[i].content)), loggers, rows[i + 1..])
  {
    assert rows[i..][0] == rows[i] && rows[i..][1..] == rows[i + 1..];
  }

  /** The backfill touches only the rain of existing readings: it adds none,
      removes none and leaves every other field as it was. */
  lemma {:induction false} FixAllOnlyRain(ps: seq<Periodik>, loggers: map<string, Logger>, rows: seq<Raw>)
    ensures |FixAll(ps, loggers, rows)| == |ps|
    ensures forall i :: 0 <= i < |ps| ==> FixAll(ps, loggers, rows)[i] == ps[i].(rain := FixAll(ps, loggers, rows)[i].rain)
    decreases |rows|
  {
    if rows != [] {
      var next := ApplyFix(ps, FixActionFor(ps, loggers, rows[0].content));
      FixAllOnlyRain(next, loggers, rows[1..]);
      assert |next| == |ps|;
      forall i | 0 <= i < |ps|
        ensures FixAll(ps, loggers, rows)[i] == ps[i].(rain := FixAll(ps, loggers, rows)[i].rain)
      {
        assert next[i] == ps[i].(rain := next[i].rain);
      }
    }
  }

  /** Hence the backfill keeps the one-reading-per-key property. */
  lemma FixAllKeepsUnique(ps: seq<Periodik>, loggers: map<string, Logger>, rows: seq<Raw>)
    requires UniqueReadings(ps)
    ensures UniqueReadings(FixAll(ps, loggers, rows))
  {
    FixAllOnlyRain(ps, loggers, rows);
    var qs := FixAll(ps, loggers, rows);
    forall i, j | 0 <= i < j < |qs|
      ensures !HasKey(qs[j], qs[i].loggerSn, qs[i].sampling)
    {
      assert qs[i] == ps[i].(rain := qs[i].rain);
      assert qs[j] == ps[j].(rain := qs[j].rain);
    }
  }

  /** A backfill row whose reading exists sets that reading's rain to the
      ticks times the logger's current factor, and nothing else. */
  lemma FixSetsRecomputedRain(ps: seq<Periodik>, loggers: map<string, Logger>, row: Raw, k: nat)
    requires row.content.sampling.Some? && Resolves(loggers, row.content)
    requires FirstMatch(ps, SerialOf(row.content.device).value, row.content.sampling.value) == Some(k)
    ensures FixAll(ps, loggers, [row]) ==
      ps[k := ps[k].(rain := Rain(row.content.tick, loggers[SerialOf(row.content.device).value].tippFac))]
  {
    assert [row][1..] == [];
  }

  /** The rows the raw table holds after a batch of payloads was each
      committed on its own. */
  function WithContents(raws: seq<Raw>, data: seq<Payload>, now: int): seq<Raw>
    decreases |data|
  {
    if data == [] then raws
    else
      var row := Raw(data[0], now);
      WithContents(if RawTable(raws + [row]) then raws + [row] else raws, data[1..], now)
  }

  /** The batch from payload i on is payload i's commit followed by the batch from i + 1 on. */
  lemma WithContentsFirst(raws: seq<Raw>, data: seq<Payload>, now: int, i: nat)
    requires i < |data|
    ensures WithContents(raws, data[i..], now) ==
      WithContents(if RawTable(raws + [Raw(data[i], now)]) then raws + [Raw(data[i], now)] else raws, data[i + 1..], now)
  {
    assert data[i..][0] == data[i] && data[i..][1..] == data[i + 1..];
  }

  /** The outcome of ingesting `raw` against the store as it is: the checks
      of the source in their order. */
  function Decide(loggers: map<string, Logger>, ps: seq<Periodik>, raws: seq<Raw>, raw: Payload): Outcome
  {
    match SerialOf(raw.device)
    case None => DeviceUnparsed
    case Some(sn) =>
      if sn !in loggers then LoggerNotFound(sn)
      else if !IdSet(loggers[sn].tenantId) then TenantNotSet(sn)
      else if !Timed(raw) then Errors(sn)
      else if FirstMatch(ps, sn, raw.sampling.value).Some? then AlreadyExist(sn, raw.sampling.value)
      else if !Storable(loggers, raws, raw) then RecordFailed(sn)
      else Recorded(sn, raw.upSince.value)
  }

  /** Each outcome happens exactly when the ingest gets to its stage. */
  lemma DecideStages(loggers: map<string, Logger>, ps: seq<Periodik>, raws: seq<Raw>, raw: Payload)
    ensures var o := Decide(loggers, ps, raws, raw);
      && (o == DeviceUnparsed <==> SerialOf(raw.device).None?)
      && (o != DeviceUnparsed ==> o.sn == SerialOf(raw.device).value)
      && (o.LoggerNotFound? <==> SerialOf(raw.device).Some? && !Resolves(loggers, raw))
      && (o.TenantNotSet? <==> Resolves(loggers, raw) && !Assigned(loggers, raw))
      && (o.Errors? <==> Assigned(loggers, raw) && !Timed(raw))
      && (o.AlreadyExist? <==> Assigned(loggers, raw) && Timed(raw) && !NewKey(loggers, ps, raw))
      && (o.RecordFailed? <==> NewKey(loggers, ps, raw) && !Storable(loggers, raws, raw))
      && (o.Recorded? <==> NewKey(loggers, ps, raw) && Storable(loggers, raws, raw))
  {
  }

  /** A payload whose content is already in the raw table is never recorded:
      its Raw insert would break the unique constraint. */
  lemma StoredPayloadNeverRecorded(loggers: map<string, Logger>, ps: seq<Periodik>, raws: seq<Raw>, raw: Payload)
    requires StoredContent(raws, raw)
    ensures !Decide(loggers, ps, raws, raw).Recorded?
  {
  }

  /** The calibrated reading carries the logger's tenant and, unless unset,
      its location, under the payload's key. */
  lemma CalibrateCopiesLogger(raw: Payload, logger: Logger, sn: string, sampling: int, upS: int, tsA: int, received: int)
    ensures var p := Calibrate(raw, logger, sn, sampling, upS, tsA, received);
      && HasKey(p, sn, sampling)
      && p.tenantId == logger.tenantId
      && (IdSet(logger.locationId) ==> p.locationId == logger.locationId)
      && (!IdSet(logger.locationId) ==> p.locationId.None?)
  {
  }

  class Store {
    var loggers: map<string, Logger>
    var raws: seq<Raw>
    var periodiks: seq<Periodik>

    /** The constraints the store enforces itself. */
    ghost predicate Valid()
      reads this
    {
      LoggerTable(loggers) && RawTable(raws)
    }

    /** One reading per (logger_sn, sampling): what the ingest maintains. */
    ghost predicate Deduplicated()
      reads this
    {
      UniqueReadings(periodiks)
    }

    constructor (loggers: map<string, Logger>)
      requires LoggerTable(loggers)
      ensures Valid() && Deduplicated()
      ensures this.loggers == loggers && raws == [] && periodiks == []
    {
      this.loggers := loggers;
      raws := [];
      periodiks := [];
    }

    /** `db.session.commit()` of pending rows: all are added or, when any
        constraint fails, the session is rolled back and none is. */
    method Commit(rows: seq<Raw>, readings: seq<Periodik>) returns (ok: bool)
      requires Valid()
      modifies this
      ensures Valid() && loggers == old(loggers)
      ensures ok == Admissible(old(loggers), old(raws), rows, readings)
      ensures ok ==> raws == old(raws) + rows && periodiks == old(periodiks) + readings
      ensures !ok ==> raws == old(raws) && periodiks == old(periodiks)
    {
      ok := Admissible(loggers, raws, rows, readings);
      if ok {
        raws := raws + rows;
        periodiks := periodiks + readings;
      }
    }

    /** Ingest one payload: resolve its logger, refuse a repeated key,
        calibrate, and commit the Raw and the Periodik together. */
    method RecordPeriodic(raw: Payload, now: int) returns (o: Outcome)
      requires Valid()
      modifies this
      ensures Valid() && loggers == old(loggers)
      ensures o == Decide(loggers, old(periodiks), old(raws), raw)
      ensures o.Recorded? ==>
        && raws == old(raws) + [Raw(raw, now)]
        && periodiks == old(periodiks) + [Calibrate(raw, loggers[o.sn], o.sn, raw.sampling.value, raw.upSince.value, raw.timeSetAt.value, now)]
      ensures !o.Recorded? ==> raws == old(raws) && periodiks == old(periodiks)
      ensures old(Deduplicated()) ==> Deduplicated()
    {
      var serial := SerialOf(raw.device);
      if serial.None? {
        return DeviceUnparsed;
      }
      var sn := serial.value;
      if sn !in loggers {
        return LoggerNotFound(sn);
      }
      var logger := loggers[sn];
      if !IdSet(logger.tenantId) {
        return TenantNotSet(sn);
      }
      if raw.sampling.None? || raw.upSince.None? {
        return Errors(sn);
      }
      var sampling := raw.sampling.value;
      if FirstMatch(periodiks, logger.sn, sampling).Some? {
        return AlreadyExist(sn, sampling);
      }
      if raw.timeSetAt.None? {
        return RecordFailed(sn);
      }
      var reading := Calibrate(raw, logger, sn, sampling, raw.upSince.value, raw.timeSetAt.value, now);
      var row := Raw(raw, now);
      ghost var before := periodiks;
      RawTableAppend(raws, row);
      assert reading in [reading];
      var ok := Commit([row], [reading]);
      if !ok {
        return RecordFailed(sn);
      }
      AppendNewKeyKeepsUnique(before, reading);
      return Recorded(sn, raw.upSince.value);
    }

    /** `fetch_periodic`'s loop: each payload is first committed as a Raw on
        its own, then handed to the ingest. Since the ingest commits the same
        content again, no payload fetched this way ever becomes a reading. */
    method FetchPeriodic(data: seq<Payload>, now: int) returns (steps: seq<FetchStep>)
      requires Valid()
      modifies this
      ensures Valid() && loggers == old(loggers)
      ensures periodiks == old(periodiks)
      ensures raws == WithContents(old(raws), data, now)
      ensures forall k :: 0 <= k < |data| ==> StoredContent(raws, data[k])
      ensures |steps| == |data|
      ensures forall i :: 0 <= i < |steps| && steps[i].Ingested? ==> !steps[i].outcome.Recorded?
    {
      steps := [];
      var i := 0;
      while i < |data|
        invariant 0 <= i <= |data|
        invariant Valid() && loggers == old(loggers)
        invariant periodiks == old(periodiks)
        invariant WithContents(raws, data[i..], now) == WithContents(old(raws), data, now)
        invariant AllStored(raws, data, i)
        invariant |steps| == i && NoneRecorded(steps)
      {
        ghost var was := raws;
        WithContentsFirst(raws, data, now, i);
        var step := FetchOne(data[i], now);
        StoredContentGrows(was, raws, data, i);
        steps := steps + [step];
        i := i + 1;
      }
    }

    /** The body of `fetch_periodic`'s loop for one payload: commit it as a
        Raw, and only if that succeeds hand it to the ingest. */
    method FetchOne(d: Payload, now: int) returns (step: FetchStep)
      requires Valid()
      modifies this
      ensures Valid() && loggers == old(loggers)
      ensures periodiks == old(periodiks)
      ensures raws == if RawTable(old(raws) + [Raw(d, now)]) then old(raws) + [Raw(d, now)] else old(raws)
      ensures StoredContent(raws, d)
      ensures step.Ingested? ==> !step.outcome.Recorded?
    {
      var row := Raw(d, now);
      RawTableAppend(raws, row);
      var ok := Commit([row], []);
      if ok {
        assert raws[|raws| - 1].content == d;
        var o := RecordPeriodic(d, now);
        step := Ingested(o);
      } else {
        step := RawRejected;
      }
    }

    /** `fix_rain`: for every raw payload received in the day from `start`,
        overwrite the rain of its existing reading, or hand it to the ingest
        when there is none. A row that raises is skipped. */
    method FixRain(start: int, now: int) returns (log: seq<FixStep>)
      requires Valid()
      modifies this
      ensures Valid() && loggers == old(loggers) && raws == old(raws)
      ensures periodiks == FixAll(old(periodiks), loggers, ReceivedBetween(raws, start, start + DaySeconds))
      ensures |log| == |ReceivedBetween(raws, start, start + DaySeconds)|
      ensures forall i :: 0 <= i < |log| && log[i].Inserted? ==> !log[i].outcome.Recorded?
      ensures old(Deduplicated()) ==> Deduplicated()
    {
      var rows := ReceivedBetween(raws, start, start + DaySeconds);
      log := [];
      var i := 0;
      while i < |rows|
        invariant 0 <= i <= |rows|
        invariant Valid() && loggers == old(loggers) && raws == old(raws)
        invariant FixAll(periodiks, loggers, rows[i..]) == FixAll(old(periodiks), loggers, rows)
        invariant |log| == i
        invariant forall k :: 0 <= k < i && log[k].Inserted? ==> !log[k].outcome.Recorded?
      {
        FixAllFirst(periodiks, loggers, rows, i);
        assert rows[i] in raws;
        var step := FixRow(rows[i].content, now);
        log := log + [step];
        i := i + 1;
      }
      if old(Deduplicated()) {
        FixAllKeepsUnique(old(periodiks), loggers, rows);
      }
    }

    /** The body of the backfill loop for one stored payload. */
    method FixRow(content: Payload, now: int) returns (step: FixStep)
      requires Valid() && StoredContent(raws, content)
      modifies this
      ensures Valid() && loggers == old(loggers) && raws == old(raws)
      ensures periodiks == ApplyFix(old(periodiks), FixActionFor(old(periodiks), loggers, content))
      ensures step.Inserted? ==> !step.outcome.Recorded?
    {
      var serial := SerialOf(content.device);
      if content.sampling.None? || serial.None? || serial.value !in loggers {
        return Failed;
      }
      var sampling := content.sampling.value;
      var logger := loggers[serial.value];
      var found := FirstMatch(periodiks, logger.sn, sampling);
      if found.Some? {
        var newRain := Rain(content.tick, logger.tippFac);
        periodiks := periodiks[found.value := periodiks[found.value].(rain := newRain)];
        return Updated(logger.sn, sampling, newRain);
      }
      StoredPayloadNeverRecorded(loggers, periodiks, raws, content);
      var o := RecordPeriodic(content, now);
      return Inserted(o);
    }
  }

  lemma AppendNewKeyKeepsUnique(ps: seq<Periodik>, p: Periodik)
    requires FirstMatch(ps, p.loggerSn, p.sampling).None?
    ensures UniqueReadings(ps) ==> UniqueReadings(ps + [p])
  {
  }

  /** The first n payloads are all stored. */
  predicate AllStored(raws: seq<Raw>, ds: seq<Payload>, n: nat)
  {
    n <= |ds| && forall k :: 0 <= k < n ==> StoredContent(raws, ds[k])
  }

  /** No fetched payload was recorded. */
  predicate NoneRecorded(steps: seq<FetchStep>)
  {
    forall k :: 0 <= k < |steps| && steps[k].Ingested? ==> !steps[k].outcome.Recorded?
  }

  /** Rows stay stored as the table grows, and one more payload is stored. */
  lemma StoredContentGrows(was: seq<Raw>, now: seq<Raw>, ds: seq<Payload>, n: nat)
    requires was <= now && n < |ds|
    requires AllStored(was, ds, n) && StoredContent(now, ds[n])
    ensures AllStored(now, ds, n + 1)
  {
    forall k | 0 <= k < n
      ensures StoredContent(now, ds[k])
    {
      var m :| 0 <= m < |was| && was[m].content == ds[k];
      assert now[m] == was[m];
    }
  }

}
