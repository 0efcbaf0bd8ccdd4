# prinus_python telemetry core in Dafny

This project models the core of the prinus telemetry back end:

- **Ingest.** One JSON sensor payload becomes one calibrated periodic reading (`recordperiodic`).
- **Fetch.** A batch of payloads is first stored as raw rows and then handed to that ingest (`fetch_periodic`).
- **Rain backfill.** One day of stored raw payloads is replayed to recompute rain (`fix_rain`).
- **Reports.** Four reports are built from the readings:
  - rain accumulated since the start of the hydrological day (`build_ch`);
  - latest water level per location (`build_tma`);
  - daily data arrival percentages (`persentase_hadir_data`);
  - rain per tenant and logger over one window (`tenants_report`).

The model has one module per concern:

| file | module | content |
|---|---|---|
| `models.dfy` | `Models` | Record shapes: payload, raw row, tenant, logger, location, periodic reading. The table constraints the store relies on. The location-type filter shared by the reports. |
| `conversion.dfy` | `Conversion` | The per-field calibration expressions of the ingest. Presence follows Python truthiness: a field that is missing or zero counts as absent. |
| `ingest.dfy` | `Ingest` | A `Store` class that owns the logger map, the raw table and the periodic table. Each commit is all-or-nothing. The class provides `RecordPeriodic`, `FetchPeriodic` and `FixRain`, each specified by a pure function (`Decide`, `WithContents`, `FixAll`). |
| `rain.dfy` | `RainReport` | `build_ch` with its two accumulation loops. |
| `level.dfy` | `LevelReport` | `build_tma`. |
| `arrival.dfy` | `ArrivalReport` | `persentase_hadir_data`. |
| `tenants.dfy` | `TenantReport` | `tenants_report` and its nested-dictionary loop, including the exceptions that loop can raise. |

Conventions:

- Instants are epoch seconds (`int`).
- Sensor values are exact `real`s.
- A nullable column is an `Option`.
- Database queries become functions over the table contents, in stored order.
- Loops appear only where the source loops, as methods whose `ensures` ties them to those functions.

The report builders query names that exist nowhere in the models: `Lokasi`, `jenis` and `lokasi_id`. They are read here as `Location`, `tipe` and `location_id`. The reports receive the location list as a parameter.

### Behaviour as written

The model follows the code, including where the code does something surprising:

- **Missing calibration offset.** Temperature, humidity and battery are stored as `0` unless both the value and the logger's offset are truthy. A real reading without an offset is therefore stored as 0 (`Conversion.UncorrectedValueStoredAsZero`); it is not passed through.
- **Zero ticks or zero distance.** A tick count or distance of `0` gives no rain or no level (NULL), not 0.
- **Commit failure.** When the ingest's commit fails, both pending rows are rolled back: the raw payload and the reading.
- **Fetched payloads.** `fetch_periodic` commits each payload as a raw row before calling the ingest. The ingest then inserts the same content again, so the unique constraint on `raw.content` rejects it. A fetched payload is therefore never recorded as a reading (`Ingest.Store.FetchPeriodic`). The same holds for the insert branch of the rain backfill.
- **Serial widths.** `periodik.logger_sn` is 8 characters wide while `logger.sn` is 10. A logger whose serial has 9 or 10 characters passes every check but can never commit a reading.
- **Climatology heading.** The climatology block of the arrival report prepends its heading inside the loop. It prints one heading per location: the first holds the correct mean, the others hold stale running means (`ArrivalReport.RunningHeadingsAreStaleMeans`).
- **Tenant keys in `tenants_report`.** The loop checks for the entry under the logger's tenant but writes it under the reading's own tenant. When the two differ:
  - while the owner's dictionary lacks the serial, the entry is zeroed again on every reading (`TenantReport.MismatchedBookingKeepsLastReading`);
  - once the owner's dictionary holds the serial and the reading's tenant's does not, the report raises a `KeyError` for the serial (`TenantReport.MismatchedBookingRaisesKeyError`);
  - if the reading's tenant has no dictionary yet, the report raises a `KeyError` for the tenant.
- **Device without a serial.** A payload without `device`, or whose device has no '/', makes the serial parse raise before either `try` block of the ingest, so the exception reaches the ingest's caller. The model returns this as the outcome `DeviceUnparsed`.
- **Level report without readings.** `build_tma` fails as a whole when a water-level location has no reading, or when its latest reading has no level.

## Model

| member | source | states |
|---|---|---|
| Models.SerialIdentifiesLogger | apps/models.py:61 | Logger serials are unique, so looking a logger up by serial finds at most one row. |
| Models.SecondRawViolatesUnique | apps/models.py:16 | Storing a payload whose content is already stored breaks the unique constraint on `raw.content`. |
| Models.RawTableAppend | apps/models.py:16 | A payload can be added to a well-formed raw table if and only if its content is not stored yet. |
| Models.OfTypeMembers | apps/command.py:130-131 | The location filter keeps exactly the locations whose type is one of the requested types, and no more locations than it was given. |
| Models.OfTypeAt | apps/command.py:154 | A matching location sits in the filtered list at the position given by the number of matching locations before it. |
| Conversion.SonarHeight | apps/command.py:364 | The sonar height is the logger's own height when that is set and nonzero, and 100 cm when it is NULL or 0. |
| Conversion.TipFactor | apps/command.py:363 | The tip factor is the logger's own factor when that is set and nonzero, and 0.2 mm per tip when it is NULL or 0; so it is never zero. |
| Conversion.Rain | apps/command.py:363 | Rain is present if and only if the tick count is truthy. It is then nonzero, and dividing it by the tip factor gives back the tick count. |
| Conversion.WaterLevel | apps/command.py:364 | The level is present if and only if the distance is truthy. It is then the sonar height minus the distance converted from mm to cm; the distance is recoverable from the level. |
| Conversion.Corrected | apps/command.py:360-362 | With a truthy value and a truthy offset, the result minus the offset is the value. In every other case the result is 0. |
| Conversion.PassThrough | apps/command.py:357-358 | `x or None`: present exactly when the value is truthy, and then unchanged. |
| Conversion.PassThroughInt | apps/command.py:359 | `x or None` for signal quality: present exactly when it is nonzero, and then unchanged. |
| Conversion.RainAtDefaultFactor | apps/command.py:363 | Five tips at the default factor give 1 mm. Zero tips or no tips give no rain. |
| Conversion.WaterLevelAtDefaultHeight | apps/command.py:364 | A 100 cm sonar measuring 300 mm puts the water at 70 cm. A NULL height and a 0 height both fall back to 100 cm. |
| Conversion.Calibrate | apps/command.py:353-368 | The reading the ingest builds: key and logger copied, altitude, pressure and signal quality passed through, offsets applied, rain and level converted. Its properties are those of the conversions and `Ingest.CalibrateCopiesLogger`. |
| Conversion.UncorrectedValueStoredAsZero | apps/command.py:360 | A nonzero temperature from a logger without an offset is stored as 0, which differs from the reading. |
| Ingest.SerialOf | apps/command.py:337 | `split('/')[1]` fails exactly when the device has no '/'. Otherwise the serial contains no '/'. |
| Ingest.SerialRoundTrip | apps/command.py:337 | The serial written after the first '/' of a device path (optionally followed by more path) is the serial read back. |
| Ingest.FirstMatch | apps/command.py:347 | `filter_by(sampling, logger_sn).first()` finds nothing if and only if no stored reading has that key. Otherwise it returns the first reading that has it. |
| Ingest.ReceivedBetween | apps/command.py:274 | The raw query keeps exactly the stored rows received inside the inclusive window. |
| Ingest.ReceivedBetweenConcat | apps/command.py:274 | The raw query keeps stored order: over two stretches of rows it gives the kept rows of the first, then those of the second. |
| Ingest.Decide | apps/command.py:336-385 | The outcome of one ingest against the store as it is, with the checks in source order. `Ingest.DecideStages` states when each outcome occurs. |
| Ingest.DecideStages | apps/command.py:336-385 | Each ingest outcome happens if and only if the payload reaches its stage. The stages, in order: serial parsed, logger found, tenant set, sampling and up_since present, key new, insert block done. The insert block is done when `time_set_at` is present and the commit accepts both rows. Every outcome except the unparsed device names the parsed serial. |
| Ingest.StoredPayloadNeverRecorded | apps/command.py:369-379 | A payload whose content is already in the raw table is never recorded. |
| Ingest.CalibrateCopiesLogger | apps/command.py:353-356 | The new reading has the payload's key and the logger's tenant. It has the logger's location when that is set, and no location otherwise. |
| Ingest.Store.Commit | apps/command.py:371-379 | The commit adds all pending rows exactly when the table constraints accept them. Otherwise it rolls both tables back. |
| Ingest.Store.RecordPeriodic | apps/command.py:336-385 | The outcome is the stage decision on the store before the call. Only a recorded outcome appends the payload and its calibrated reading. A deduplicated periodic table stays deduplicated. |
| Ingest.AppendNewKeyKeepsUnique | apps/command.py:347-349 | Appending a reading whose key is not yet stored keeps one reading per (serial, sampling). |
| Ingest.Store.FetchPeriodic | apps/command.py:307-315 | Every fetched payload ends up stored as a raw row, exactly as the batch fold says. No reading is added, and no fetched payload is reported as recorded. |
| Ingest.Store.FetchOne | apps/command.py:308-315 | One fetched payload is stored as a raw row unless its content is already stored, and the ingest it triggers never records it. |
| Ingest.FixActionFor | apps/command.py:279-292 | The backfill's plan for one stored payload: an update of a reading's rain, an insert, or a skip when the row raises. An update names an existing reading. `Ingest.FixLeavesUnmatched` states that any other row leaves the readings unchanged. |
| Ingest.FixAll | apps/command.py:277-295 | The readings after the backfill has gone through the rows in order. `Ingest.FixAllOnlyRain`, `Ingest.FixAllKeepsUnique`, `Ingest.FixSetsRecomputedRain` and `Ingest.FixLeavesUnmatched` state what it does. |
| Ingest.WithContents | apps/command.py:307-315 | The raw rows after each fetched payload was committed on its own, a duplicate being rejected. `Ingest.Store.FetchPeriodic` states its result. |
| Ingest.Store.FixRow | apps/command.py:278-295 | One backfill row applies the planned action to the readings. Its insert branch never records. |
| Ingest.Store.FixRain | apps/command.py:266-295 | The readings become the fold of the backfill over the raw rows received within one day of the start. The raw and logger tables are unchanged. There is one log entry per raw row. Deduplication is kept. |
| Ingest.FixAllOnlyRain | apps/command.py:285-287 | The backfill neither adds nor removes readings, and changes no field other than rain. |
| Ingest.FixAllKeepsUnique | apps/command.py:282-288 | The backfill keeps one reading per (serial, sampling). |
| Ingest.FixLeavesUnmatched | apps/command.py:279-295 | A row without sampling, without a parsable serial, with an unknown logger, or without a matching reading leaves the readings unchanged. It either raises and is skipped, or goes to the ingest, which rejects its already stored content. |
| Ingest.FixSetsRecomputedRain | apps/command.py:285-288 | A raw row whose reading exists sets that reading's rain to the ticks times the logger's current factor, and changes nothing else. |
| RainReport.HydrologicalDayStart | apps/command.py:120-123 | The window starts at a 07:00 that is at most one day back and no later than now. |
| RainReport.HydrologicalDayStartUnique | apps/command.py:121-123 | Only one 07:00 satisfies that. |
| RainReport.HydrologicalDayExamples | apps/command.py:122-123 | At 06:30 the window opens at 07:00 the day before. At 07:01 it opens at 07:00 the same day. |
| RainReport.RainSumPositive | apps/command.py:136-141 | Accumulated rain is never negative. It is positive exactly when some reading in the window rained. |
| RainReport.ElapsedHours | apps/command.py:128 | The elapsed time of a window shorter than a day is under 24 hours, and those hours times 3600 are the elapsed seconds. |
| RainReport.RainLineFor | apps/command.py:132-145 | A location's line is dry exactly when none of its readings rained; otherwise it carries the positive sum and the duration. |
| RainReport.RainSum | apps/command.py:136-140 | The rain of the readings the query returns, summed. `RainReport.RainSumPositive` states its sign. |
| RainReport.RainyCount | apps/command.py:136-139 | The number of readings the query returns, which is at most the number stored. |
| RainReport.AccumulateRain | apps/command.py:133-140 | The loop sums the rain of the rainy readings after the start, and counts 5 minutes per such reading. |
| RainReport.BuildCh | apps/command.py:119-147 | The report gives the hydrological start and the elapsed hours (under 24), then one line per rain or climate location in table order. A line is dry exactly when no reading rained; otherwise it gives the positive sum and the duration. |
| LevelReport.Latest | apps/command.py:156-157 | `order_by(desc(sampling)).first()` returns nothing if and only if no reading is at the location at or before now. Otherwise it returns such a reading with the greatest sampling. |
| LevelReport.LevelFor | apps/command.py:156-159 | The line for one location, or the error its latest reading raises. `LevelReport.LevelForMeaning` states what it reports. |
| LevelReport.LevelForMeaning | apps/command.py:156-159 | A level line names the location and gives in metres the level of its latest reading at or before now. It fails with NoReading exactly when no such reading exists. Otherwise it succeeds exactly when that latest reading has a level, and fails with NoLevel when it has none. |
| LevelReport.BuildTma | apps/command.py:150-161 | On success there is one line per water-level location, numbered in table order. On failure, the error is the one raised by the first water-level location in table order that fails. |
| ArrivalReport.DayCount | apps/command.py:175-176 | The count query for one location and day is never more than the readings stored. |
| ArrivalReport.DayCountZero | apps/command.py:175-176 | A location counts zero readings exactly when none of its readings is sampled on the day. |
| ArrivalReport.Percent | apps/command.py:177 | A location's count as a percentage of 288 readings. `ArrivalReport.PercentMeaning` states its meaning. |
| ArrivalReport.PercentMeaning | apps/command.py:177 | The percentage times 288 is the count times 100. It is never negative, and at most 100 exactly when the count is at most 288. 144 readings make 50%. |
| ArrivalReport.MeanIsPooledRate | apps/command.py:172-181 | A category's mean percentage is all its readings over all the readings expected of its locations. |
| ArrivalReport.MeanAtMostHundred | apps/command.py:175-181 | If no location exceeds 288 readings, the category mean is at most 100%. |
| ArrivalReport.RunningHeadingsAreStaleMeans | apps/command.py:208-215 | The climatology block carries one heading per location. Heading m is the mean of the first n-m locations, so only the first heading is the overall mean. |
| ArrivalReport.Section | apps/command.py:169-216 | One category block: nothing without locations, otherwise one heading with the mean (or one per row for the climatology block) and one numbered entry per location. |
| ArrivalReport.ArrivalSection | apps/command.py:169-199 | The rain or water-level block is empty without locations. Otherwise it is one numbered entry per location with its percentage, headed once by the mean of those percentages. |
| ArrivalReport.ClimateSection | apps/command.py:202-216 | The climatology block is empty without locations. Otherwise it is one numbered entry per location, preceded by one running-mean heading per location, newest first. |
| ArrivalReport.PersentaseHadirData | apps/command.py:164-217 | The report is the rain, water-level and climatology blocks in that order. |
| TenantReport.Window | apps/command.py:58-60 | The window is the previous full hour, from minute 0 to minute 55. It cannot be built in the first hour of a day. |
| TenantReport.HardcodedWindow | apps/command.py:57-60 | At the fixed report time the window is 10:00 to 10:55. |
| TenantReport.Between | apps/command.py:64 | The window query keeps exactly the readings sampled inside it, both ends included. |
| TenantReport.BetweenConcat | apps/command.py:64 | The window query keeps stored order: over two stretches of readings it gives the kept readings of the first, then those of the second. |
| TenantReport.Step | apps/command.py:65-70 | One iteration raises exactly when the logger, its tenant or the reading's tenant is missing. It also raises with a `KeyError` exactly when the reading is booked to another tenant that either has no dictionary or lacks the serial although the owner's dictionary has it. The failure names the missing tenant or serial. Otherwise the collected tenants gain the owner and no other. |
| TenantReport.Run | apps/command.py:64-70 | The loop over the readings, ended by the first exception. A tenant once collected is never dropped. |
| TenantReport.Listing | apps/command.py:72-76 | Every tenant is listed. Under it appear exactly the loggers with positive rain, with their totals. |
| TenantReport.TenantsReport | apps/command.py:56-77 | The report is the grouping loop over the window followed by the listing. The first exception ends it. |
| TenantReport.StepAddsRain | apps/command.py:65-70 | With a consistent booking, one reading adds its rain (NULL counted as 0) to its owner's entry and to no other. It also adds the owner tenant. |
| TenantReport.RunAddsRain | apps/command.py:64-70 | With consistent bookings the loop never raises. It adds to each (tenant, logger) entry the rain of that logger's readings when the tenant owns the logger, and nothing otherwise. |
| TenantReport.RunTenants | apps/command.py:64-68 | With consistent bookings the loop collects exactly the tenants owning the logger of some reading, besides those it started with. |
| TenantReport.ListedIffRained | apps/command.py:64-76 | With consistent bookings, a logger is listed under a tenant if and only if the tenant owns it and its rain is positive, and it is listed with that rain. |
| TenantReport.ReportListsOwnedRain | apps/command.py:56-77 | The same holds for the report over a window. |
| TenantReport.MismatchedBookingKeepsLastReading | apps/command.py:66-70 | A logger whose readings are booked to another tenant, which holds no entry for it under its owner, is reported with the rain of its last reading only: 3 mm instead of 5 mm. |
| TenantReport.MismatchedBookingRaisesKeyError | apps/command.py:66-70 | A logger with an entry under its owner, whose next reading is booked to another tenant lacking that entry, makes the loop raise a `KeyError` for its serial. |

## Left out

- Telegram messages, HTTP requests, the MQTT subscription, the daemon, the command-line wrappers and the Flask application are I/O. They are not modelled. A report's message text and its number formatting (`%.1f`, `strftime`) are not modelled; the reports return their values as data.
- Ingest.Decide returns `DeviceUnparsed` for a payload without a parsable device. The source does not return anything there: the parse at apps/command.py:337 lies outside both `try` blocks, so the exception escapes the ingest to its caller (the MQTT handler or `fetch_periodic`). The model does not capture that escape.
- `fetch_periodic` is modelled from the point where its HTTP response is decoded. The decoded list is a parameter.
- `raw2periodic` and `fetch_logger` refer to a `Device` model that does not exist; they are not part of this model. The commented-out code is not part of it either.
- Local-time conversion (`fromtimestamp`, `now()`, `today()`, `func.DATE`) is not modelled. Instants are epoch seconds, and "now", the report day and the backfill start are parameters.
- `db.session.rollback()` and `flush()` at the start of the ingest are not modelled. They discard nothing the model holds.
- Row ids, the `created_at`/`modified_at` columns and the foreign keys to `location` and `tenant` are not modelled. Only the `logger_sn` foreign key is checked on commit.
- JSON keys other than those the ingest reads are not modelled. The content of a raw row is the payload.
- Ingest.Store.FixRain does not round the recomputed rain to two decimals. Rain is an exact real.
- Ingest.Store.FixRain visits the day's raw rows in stored order, not ordered by `received`. The two orders agree when rows were stored at non-decreasing times.
- TenantReport.TenantsReport does not round each reading's rain or the totals to two decimals. It returns maps, so the report's tenant and logger order (dictionary insertion order) is not modelled.
- TenantReport.TenantsReport visits the window's readings in stored order. The query has no `order_by`, so the database may return them in another order. The two quirk lemmas (`MismatchedBookingKeepsLastReading`, `MismatchedBookingRaisesKeyError`) hold for readings returned in the order given.
- LevelReport.Latest breaks ties between equal samplings by stored order, where the database leaves that order unspecified.
