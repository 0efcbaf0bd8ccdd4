/** Record shapes of the telemetry store (raw payloads, loggers, locations,
    tenants and calibrated periodic readings) and the constraints their
    table definitions declare. Instants are epoch seconds; strings are
    `seq<char>`; a nullable column is an `Option`. */
module Models {

  datatype Option<+T> = None | Some(value: T)

  /** A computation that either yields a value or raises. */
  datatype Result<+T, +E> = Success(value: T) | Failure(error: E)

  /** One sensor message as it arrives: the JSON keys the ingest reads.
      Every key may be missing, as with `dict.get`. */
  datatype Payload = Payload(
    device: Option<string>,         // "<prefix>/<serial>"
    sampling: Option<int>,          // epoch seconds
    upSince: Option<int>,           // epoch seconds
    timeSetAt: Option<int>,         // epoch seconds
    tick: Option<real>,             // rain-gauge tips
    distance: Option<real>,         // sonar distance, millimetres
    temperature: Option<real>,
    humidity: Option<real>,
    battery: Option<real>,
    altitude: Option<real>,
    pressure: Option<real>,
    signalQuality: Option<int>)

  /** A stored payload; its content is unique across the table. */
  datatype Raw = Raw(content: Payload, received: int)

  datatype Tenant = Tenant(id: int, nama: string, slug: string)

  /** A sensor device with its calibration constants. */
  datatype Logger = Logger(
    sn: string,
    tipe: string,
    locationId: Option<int>,
    tenantId: Option<int>,
    tempCor: Option<real>,
    humiCor: Option<real>,
    battCor: Option<real>,
    tippFac: Option<real>,          // mm per tip
    tingSon: Option<real>)          // sonar height above the river bed, centimetres

  /** A monitoring site; `tipe` is "1" rain, "2" water level, "3" dam, "4" climate. */
  datatype Location = Location(id: int, nama: string, tipe: string, tenantId: Option<int>)

  /** One calibrated reading. */
  datatype Periodik = Periodik(
    sampling: int,
    loggerSn: string,
    locationId: Option<int>,
    tenantId: Option<int>,
    mdpl: Option<real>,
    apre: Option<real>,
    sq: Option<int>,
    temp: Option<real>,
    humi: Option<real>,
    batt: Option<real>,
    rain: Option<real>,             // millimetres
    wlev: Option<real>,             // centimetres
    upS: int,
    tsA: int,
    received: int)

  const DaySeconds := 86400
  const HourSeconds := 3600

  const RainPost := "1"
  const LevelPost := "2"
  const DamPost := "3"
  const ClimatePost := "4"

  /** Column widths: `logger.sn` is VARCHAR(10), `periodik.logger_sn` only VARCHAR(8). */
  const LoggerSnWidth := 10
  const PeriodikSnWidth := 8

  /** Python truthiness of a nullable integer column: NULL and 0 are both false. */
  predicate IdSet(id: Option<int>)
  {
    id.Some? && id.value != 0
  }

  /** The logger table keyed by its unique, non-null serial. */
  predicate LoggerTable(loggers: map<string, Logger>)
  {
    forall sn :: sn in loggers ==> loggers[sn].sn == sn && |sn| <= LoggerSnWidth
  }

  /** The unique constraint on `raw.content`. */
  predicate RawTable(raws: seq<Raw>)
  {
    forall i, j :: 0 <= i < j < |raws| ==> raws[i].content != raws[j].content
  }

  predicate StoredContent(raws: seq<Raw>, content: Payload)
  {
    exists i :: 0 <= i < |raws| && raws[i].content == content
  }

  /** What the periodik table itself checks on insert: the serial fits its
      column and refers to an existing logger. It has no uniqueness on
      (logger_sn, sampling): that constraint is commented out. */
  predicate PeriodikFits(p: Periodik, loggers: map<string, Logger>)
  {
    |p.loggerSn| <= PeriodikSnWidth && p.loggerSn in loggers
  }

  predicate HasKey(p: Periodik, sn: string, sampling: int)
  {
    p.loggerSn == sn && p.sampling == sampling
  }

  /** At most one reading per (logger_sn, sampling): kept by the ingest, not by the store. */
  predicate UniqueReadings(ps: seq<Periodik>)
  {
    forall i, j :: 0 <= i < j < |ps| ==> !HasKey(ps[j], ps[i].loggerSn, ps[i].sampling)
  }

  /** Looking a logger up by serial can only ever find one row. */
  lemma SerialIdentifiesLogger(loggers: map<string, Logger>, a: Logger, b: Logger)
    requires LoggerTable(loggers)
    requires a in loggers.Values && b in loggers.Values && a.sn == b.sn
    ensures a == b
  {
    var ka :| ka in loggers && loggers[ka] == a;
    var kb :| kb in loggers && loggers[kb] == b;
    assert ka == a.sn && kb == b.sn;
  }

  /** Appending a payload whose content is already stored breaks the unique constraint. */
  lemma SecondRawViolatesUnique(raws: seq<Raw>, r: Raw)
    requires StoredContent(raws, r.content)
    ensures !RawTable(raws + [r])
  {
    var i :| 0 <= i < |raws| && raws[i].content == r.content;
    assert (raws + [r])[i].content == (raws + [r])[|raws|].content;
  }

  /** A payload can be added to a well-formed raw table exactly when its
      content is not stored yet. */
  lemma RawTableAppend(raws: seq<Raw>, r: Raw)
    requires RawTable(raws)
    ensures RawTable(raws + [r]) <==> !StoredContent(raws, r.content)
  {
    if StoredContent(raws, r.content) {
      SecondRawViolatesUnique(raws, r);
    }
  }

  /** The location query `filter(tipe in tipes)`, in table order. */
  function OfType(locations: seq<Location>, tipes: set<string>): seq<Location>
  {
    if locations == [] then []
    else
      var last := locations[|locations| - 1];
      OfType(locations[..|locations| - 1], tipes) + (if last.tipe in tipes then [last] else [])
  }

  /** The filter keeps exactly the locations of the requested types, and no
      more locations than it was given. */
  lemma {:induction false} OfTypeMembers(locations: seq<Location>, tipes: set<string>)
    ensures |OfType(locations, tipes)| <= |locations|
    ensures forall l :: l in OfType(locations, tipes) <==> l in locations && l.tipe in tipes
  {
    if locations != [] {
      var init := locations[..|locations| - 1];
      OfTypeMembers(init, tipes);
      assert locations == init + [locations[|locations| - 1]];
    }
  }

  lemma OfTypeStep(locations: seq<Location>, tipes: set<string>, j: nat)
    requires j < |locations|
    ensures OfType(locations[..j + 1], tipes) ==
      OfType(locations[..j], tipes) + (if locations[j].tipe in tipes then [locations[j]] else [])
  {
    assert locations[..j + 1][..j] == locations[..j];
  }

  /** A matching location sits in the filtered list right after those
      matching before it. */
  lemma OfTypeAt(locations: seq<Location>, tipes: set<string>, j: nat)
    requires j < |locations| && locations[j].tipe in tipes
    ensures |OfType(locations[..j], tipes)| < |OfType(locations, tipes)|
    ensures OfType(locations, tipes)[|OfType(locations[..j], tipes)|] == locations[j]
  {
    OfTypeStep(locations, tipes, j);
    OfTypePrefix(locations, tipes, j + 1);
  }

  /** The locations of a prefix come first among all the locations. */
  lemma {:induction false} OfTypePrefix(locations: seq<Location>, tipes: set<string>, j: nat)
    requires j <= |locations|
    ensures OfType(locations[..j], tipes) <= OfType(locations, tipes)
    decreases |locations| - j
  {
    if j < |locations| {
      OfTypeStep(locations, tipes, j);
      OfTypePrefix(locations, tipes, j + 1);
    } else {
      assert locations[..j] == locations;
    }
  }
}
