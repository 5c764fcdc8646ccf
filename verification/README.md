# Transformer telemetry: models and proofs

This project models the telemetry platform for power transformers in Dafny and
proves what its parts promise one another: the at-least-once ingestion service
and its stores, the thermal fleet simulator, the fleet generator with its file
format, and the paged queries of the API.

## What is modelled

**Ingestion** (`Validation`, `Topic`, `Json`, `Storage`, `Sinks`, `Protocol*`,
`Ingestor`). The service is a state machine: any number of message handlers,
each at a program point, interleaved step by step under at-least-once delivery
(QoS 1, section 4.3.2 of MQTT 3.1.1), over a store that may lose a write before or
after it takes effect, with crashes and restarts that empty the claimed keys, the
counters and the handlers but keep the store. Every sequence of steps is a run, so
a statement about `Exec(cfg, Init(...), run)` is about every delivery order,
duplication, interleaving and crash point. `Ingestor` is the service's object for
one undisturbed call, and `Ingestor.CallIsRun` says which run of the machine a call
is. Two sinks are modelled: the append-only JSON Lines file and the relational
tables with their two different keys (the text key for raw records, the instant for
measurements). `Replay` feeds the file into the tables, and `Silver` derives the SQL
models from the raw table. `TableProvenance`, `RowHistory`, `ProvenanceExact`,
`Confluence`, `Recovery` and `SilverTheorems` hold the results.

**Simulator** (`Analysis`, `Physics`, `Simulator`, and the theorems in
`ThermalLag`, `StepBounds`, `Envelope`, `OrderPreservation`, `WindingGap`,
`NominalGap`, `GapFleets`, `RoundedState`, `PhysicsLaws`, `DailyLoad`, `Stamps`). A
class that steps its units, its clock and its position in the random source, proved
against a closed description of every tick of every unit. `PhysicsLaws` and
`DailyLoad` say what that description amounts to at rated values and at hours of the
day. `EndToEnd` joins the simulator to ingestion, `ReadBack` goes on to the API.

**Fleet** (`Transformer`, `FleetDesign`, `FleetTheorems`, `Generator`,
`Decimal`, `Csv`, `CsvTheorems`, `FleetPipeline`). Generation, the printed file
and its reader, and the way of a generated fleet through the whole pipeline.

**Queries** (`Ordering`, `Paging`, `DesignBase`). Telemetry pages, page limits,
the table of design records and the candidates of a similarity request.

`Witnesses`, and a lemma beside some theorems, give concrete inputs at which the
exceptions those theorems state occur.

## Assumptions

- Numbers are reals; IEEE rounding is not modelled. Rounding to decimals is.
- `exp`, `sin`, `sqrt`, `ln`, `log10`, `x^0.8` and `x^0.9` are parameters that obey
  the facts listed in `Analysis.Lawful`: the exponential law, `exp(x) >= 1 + x`,
  `|sin| <= 1`, `sin 0 = 0`, `sin(pi/2) = 1` and half a turn changes the sign; that
  `x^0.8` is multiplicative, monotone and below its tangent at one; and, for the generator, that `ln` and `sqrt` are inverses, `log10` is
  monotone with `log10(1) = 0` and `log10(1000) = 3`, and `x^0.9` is not negative.
  `k^1.6` is `(k^2)^0.8`. Everything else, the numeric margins included, is derived.
- The random source is an arbitrary stream of draws in [0, 1), one per call; an
  integer below n is the whole part of n times a draw. Statements quantify over
  every stream, not over one seed.
- Time is an integer of nanoseconds. Reading and writing timestamps (section 5.6 of
  RFC 3339) is a parameter. Writing drops the fraction of a second and is in UTC;
  what it writes within the years 1970 to 9999 is read back as the instant without
  its fraction; and every such instant, fractions included, has some spelling.
- A message body is a JSON value or unreadable; objects are maps from keys.
- A file append writes a whole line or nothing. The log then holds records only;
  `Replay.TornLineStops` says what a torn line would do to a replay. After a failed
  append the model lets later ones succeed, which allows more runs than an encoder
  that stays failed.
- Physics divides by one plus the loss ratio; at a ratio of -1 the value is left
  open. Results that need ratios that are not negative say so: valid records have them
  (`Simulator.ValidLossesAreSound`), and the file reader lets no other through.

## What the code does that its documentation does not say

- `docs/ingestion.md:26-31` gives the timestamp window as `-max-skew..now` and
  asks for winding above oil. The code refuses only timestamps later than
  now plus the skew, has no lower bound, and tolerates a winding up to 0.5
  degrees below the oil. The model follows the code.
- `docs/domain.md:37` bounds the commissioning year by today; validation does
  not. The table's CHECK does, at 2100.
- `docs/telemetry-model.md:51-55` lists winding not below oil among the relations
  of normal operation. It is not one of every valid fleet: see
  `GapFleets.FlatFleetIsRejected`, and `WindingGap.GapKeptExactly` for when it
  holds. The silver test asks for the strict order, the validator for a tolerance
  of 0.5. Generated fleets keep within the tolerance from the simulator's default
  intensity up (`NominalGap.SteepFleetClears`).
- The silver test that compares states reads the state the sender computed from
  unrounded values. It fails exactly where rounding moves a reading across a
  threshold (`SilverTheorems.StateTestExactly`,
  `RoundedState.SampleIsNormalExactly`). `Witnesses.StateTestFails` gives a stored
  sample that fails it; `Witnesses.DowngradeHappens` shows that every fleet and
  stream has an intensity at which the simulator sends such a sample.
- The uniqueness test of the silver key assumes one sample per second and
  transformer; the validator admits fractions of a second
  (`SilverTheorems.SilverKeyUniqueExactly`, `Witnesses.TwoInOneSecond`). The
  simulator's own timestamps have none, so its key is unique; but at an interval
  below a second its ticks share keys, and the surplus samples are dropped as
  duplicates (`Stamps.StampsDifferExactly`, `EndToEnd.NothingLostExactly`).
- A sample the validator admits can still be refused by the measurements table,
  in the cases `Storage.AdmittedButRefused` lists, `Storage.AdmittedYetRefused`
  being one; its key then stays claimed until a restart
  (`Recovery.ErroredKeyIsStuck`).
- After a restart a different payload under an old key can leave a measurement
  that no stored payload backs, and whose state differs from the silver row's;
  `ProvenanceExact.BackedExactlyWhenCoherent` and
  `SilverTheorems.AgreesExactlyWhenCoherent` say for which messages this cannot
  happen, and `Witnesses.IncoherentPair` gives two for which it does.
- A row of the fleet file with too few fields makes the reader index out of range
  instead of reporting an error (`CsvTheorems.LoadPanicsExactly` says for which
  tables, `CsvTheorems.SafeWidthExactly` from which width on it cannot).
- Validation and the table's columns disagree on design records at both ends: years
  after 2100, and quantities that do not show at two decimals or do not fit
  (`DesignBase.ValidFitsExactly`, `DesignBase.ValidRecordRefused`).
- Two voltages that differ by less than the columns show are stored as equal, which
  leaves a stored record that validation would refuse
  (`DesignBase.StoredIsValidExactly`, `DesignBase.StoredVoltagesCanMeet`).

## Model

| member | source | states |
|---|---|---|
| Topic.ParseIffPublished | internal/messaging/topic.go:13-31 | parsing a topic yields an id exactly when the topic is the one publishing to that id uses, and the id is neither empty nor split by a slash |
| Topic.FilterVersusParser | internal/messaging/topic.go:34 | the subscribe filter (section 4.7.1.3 of MQTT 3.1.1) delivers exactly the topics the parser accepts, plus the one with the empty id |
| Validation.NewValidator | internal/ingestion/validate.go:31-40 | the registry holds exactly the given ids; a skew that is not positive becomes five minutes |
| Validation.ValidateAcceptsExactly | internal/ingestion/validate.go:44-92 | the chain of checks accepts a payload as a sample exactly when it decodes to it and every condition holds, in whatever order |
| Validation.RejectionIsJustified | internal/ingestion/validate.go:44-92 | every rejection names the first thing wrong with the payload in the order of the checks: the version, the id, the timestamp, the reading that is out of its own range, or the state |
| Validation.AdmissionIsMonotone | internal/ingestion/validate.go:56-62 | a payload once admitted is admitted at every later clock reading, with the same result |
| Measurement.ClassifiedSeverity | internal/telemetry/physics.go:77-86 | the severity of a classified triple, threshold by threshold, and that a state always comes out |
| Measurement.FormattedIsCanonical | internal/telemetry/measurement.go:39-42 | what the timestamp writer produces for any instant, fraction or not, is the canonical spelling of its second |
| Measurement.FormatExactly | internal/telemetry/measurement.go:39-42 | two instants are written alike exactly when they lie in one second |
| Json.MeasurementRoundTrip | internal/telemetry/measurement.go:23-37 | a measurement written as an object is read back as itself and carries no payload key |
| Json.MeasurementKeys | internal/telemetry/measurement.go:23-37 | each field of a measurement is written under its own key, and nothing else is |
| Json.DecodesExactly | internal/telemetry/measurement.go:23-37 | an object is read as a measurement exactly when each key holds its field, or is missing or null where the field is zero or empty |
| Json.RawRoundTrip | internal/ingestion/store.go:14-23 | a raw record written as an object is read back as itself |
| Json.RawKeys | internal/ingestion/store.go:14-23 | each field of a raw record is written under its own key, and nothing else is |
| Storage.AdmittedButRefused | migrations/00002_create_measurements.sql:4-19 | exactly which admitted samples the table's columns and CHECK constraints refuse |
| Storage.AdmittedYetRefused | migrations/00002_create_measurements.sql:4-19 | one such sample: oil -20.0 and winding -20.4 |
| Storage.InsertAllExtends | internal/store/ingestion.go:24-48 | first write wins: no series of writes changes or removes a row |
| Storage.InsertAllConcat | internal/store/ingestion.go:24-48 | inserting two series one after the other is inserting their concatenation |
| Storage.HoldsStays | internal/store/ingestion.go:24-48 | a write whose row is present stays a successful no-op whatever else is attempted |
| Sinks.JsonLinesStore.WriteRaw | internal/ingestion/store.go:51-55 | appends one line for the record, or nothing when the write is lost, and reports whether it failed |
| Sinks.JsonLinesStore.WriteMeasurement | internal/ingestion/store.go:57-61 | appends one line for the measurement, or nothing when the write is lost, and reports whether it failed |
| Sinks.RelationalStore.WriteRaw | internal/store/ingestion.go:37-48 | the tables and the reported error are those of the insert statement under that fault; a new row holds each field of the record in its own column, the receipt as an instant |
| Sinks.RelationalStore.WriteMeasurement | internal/store/ingestion.go:22-35 | the tables and the reported error are those of the insert statement under that fault; a new row shows each reading in its own column, to 0.005 and exactly from two decimals, with the state |
| Ingestor.Ingestor.HandleMessage | internal/ingestion/ingestor.go:109-159 | one call's effect on the claimed keys, the five counters and the sink, for every message, clock and fault; rows that were there stay, and a new one holds the message's own id, topic, payload and readings, the state of its readings, and the second of receipt |
| Ingestor.CallIsRun | internal/ingestion/ingestor.go:109-159 | a call is the run of one protocol handler with nothing in between: shared state, counters and the handler's end agree |
| ProtocolSafety.CounterConservation | internal/ingestion/ingestor.go:109-168 | in every reachable state: claimed keys are accepted, errors or in flight; received are rejected, duplicates, claims or on their way |
| ProtocolSafety.CountersAlways | internal/ingestion/ingestor.go:22-42 | every counter equals the number of handlers that ended that way, and the claimed keys number the handlers past the claim |
| ProtocolWrites.AlwaysSafe | internal/ingestion/ingestor.go:109-159 | the inductive invariant of claims, writes, provenance and sink holds after every run, over either sink |
| ProtocolWrites.EverGenuine | internal/ingestion/ingestor.go:112-121 | whatever has ever been admitted decodes, is registered, in range, and came on its own topic |
| ProtocolWrites.ClaimedAndWrittenOnce | internal/ingestion/ingestor.go:123-150 | no two handlers of a process hold one key, no key is written twice in it, and each measurement follows its raw record |
| TableProvenance.RawRowsFaithful | internal/ingestion/ingestor.go:133-141 | in every run every raw row's id is the key of its payload and its topic the one of its transformer |
| RowHistory.RawRowWritten | internal/ingestion/ingestor.go:131-141 | behind every raw row of every run stands one step: the write of the handler that claimed its key, with that handler's message column by column and the second of that step's clock as its receipt |
| RowHistory.MeasRowWritten | internal/ingestion/ingestor.go:130-150 | behind every measurement row stands one step, with its message's readings column by column and the state they imply |
| RowHistory.RowsStay | internal/store/ingestion.go:22-48 | whatever follows, redeliveries, failures and restarts included, no row changes or goes |
| TableProvenance.MeasurementSource | internal/ingestion/ingestor.go:130-150 | behind every measurement row stands an admitted message whose raw record was written before; each column shows its own reading and the state is theirs |
| TableProvenance.SeenKeyIsAccounted | internal/ingestion/ingestor.go:123-152 | every claimed key has one owner, and once that has returned the key has both rows or one store error |
| TableProvenance.OneProcessIsBacked | internal/ingestion/ingestor.go:123-150 | without a restart every measurement row is the normalized payload of a stored raw row, failing writes included |
| ProvenanceExact.BackedExactlyWhenCoherent | internal/ingestion/ingestor.go:123-150 | over all runs with restarts and failures, every measurement row stays backed if and only if messages under one key lead to one row |
| Confluence.CaughtUpIsExact | internal/ingestion/ingestor.go:109-153 | once everything admitted has been handled since the last restart without error, the tables are a function of the admitted messages alone |
| Confluence.Confluent | internal/ingestion/ingestor.go:109-153 | two such runs over the same messages leave the same tables but for receive times |
| Confluence.CaughtUpCounts | internal/store/ingestion.go:22-48 | one raw row per admitted message, and as many measurement rows exactly when no instant was spelled in two ways |
| Confluence.CanonicalIsOneSpelling | internal/ingestion/normalize.go:5-9 | canonical timestamps give one spelling per transformer and instant |
| Recovery.ErroredKeyIsStuck | internal/ingestion/ingestor.go:124-150 | a key charged a store error is never written again before a restart, whatever is redelivered |
| Recovery.RedeliveryRepairs | internal/ingestion/ingestor.go:109-159 | from any state, a restart and one redelivery under a healthy store put both rows in place and lose none |
| Recovery.LogReplaysExactly | internal/store/replay.go:17-50 | the log of any run replays to its end if and only if every logged sample passes the table's checks |
| Recovery.SinksRunInLockstep | internal/ingestion/store.go:25-30 | the same run over the file and over the tables goes through the same states but for the sink |
| Recovery.BackfillEqualsLive | internal/store/replay.go:11-50 | replaying the log a run leaves gives the tables, and the counts, of the same run over the database |
| Replay.ReplayBronze | internal/store/replay.go:17-50 | the tables, both counts and the error of a replay over every file and every pattern of connection faults |
| Replay.WrittenLinesAreClassified | internal/store/replay.go:25-44 | every line either sink method wrote is classified as the kind that wrote it and read back as the same record |
| Replay.ClassifiedExactly | internal/store/replay.go:21-44 | which lines ask for nothing, for a raw record, for a measurement, a null line included, and which stop the replay with which error |
| Replay.ReplayEqualsLive | internal/store/replay.go:17-50 | replaying a log equals inserting its writes live, and each kind is counted exactly |
| Replay.ReplayResumes | internal/store/replay.go:17-50 | a replay stopped anywhere and run again in full equals one uninterrupted replay; so a second replay changes nothing |
| Replay.TornLineStops | internal/store/replay.go:17-50 | a line that is no record ends the replay with a parse error: the records before it are stored and counted, those behind it not looked at |
| Silver.DedupKeepsOne | dbt/models/silver/stg_telemetry.sql:48-79 | `row_number` keeps exactly one row of each transformer and timestamp text: the last received, and among those received at once the one with the greatest id |
| Silver.SqlAgreesWithService | dbt/macros/telemetry.sql:27-37 | the SQL classification, nulls included, equals the service's with missing readings as zero |
| Silver.StatesAreCleaned | dbt/models/silver/stg_telemetry.sql:75 | a state in any mix of small and capital letters and between spaces becomes the state |
| Silver.MarginsTellCritical | dbt/models/silver/int_telemetry.sql:36-37 | for readings of two decimals a margin is used up exactly when its reading alone makes the state CRITICAL |
| SilverTheorems.SilverDropsNothing | dbt/models/silver/stg_telemetry.sql:48-79 | over every raw table live ingestion can reach, the deduplication drops no row |
| SilverTheorems.SilverShowsMessage | dbt/models/silver/stg_telemetry.sql:23-46 | in every run each silver column holds its own reading of an admitted message, empty exactly where the payload has none, and the row is complete exactly when load, oil and winding are there |
| SilverTheorems.MeasurementsAgreeWithSilver | dbt/models/silver/int_telemetry.sql:30-34 | in every run, a backed measurement row agrees with the silver row of the payload that backs it: transformer, second and recomputed state |
| SilverTheorems.MeasurementHasSilverRow | dbt/models/silver/stg_telemetry.sql:48-79 | in every run, restarts and failures included, each measurement row has a silver row of its transformer and second |
| SilverTheorems.OneProcessAgrees | dbt/models/silver/int_telemetry.sql:30-34 | without a restart every measurement row agrees with a silver row, state included, whatever fails |
| SilverTheorems.AgreesExactlyWhenCoherent | dbt/models/silver/int_telemetry.sql:30-34 | over all runs with restarts and failures, every measurement row agrees with a silver row if and only if messages under one key imply one state |
| SilverTheorems.SilverKeyUniqueExactly | dbt/macros/unique_telemetry_key.sql:2-10 | in every run, in flight, errored or restarted, the silver key is unique if and only if no two captured messages of a transformer lie in one second |
| SilverTheorems.CanonicalKeyIsUnique | dbt/macros/unique_telemetry_key.sql:2-10 | in every run whose admitted timestamps are canonical the silver key is unique |
| SilverTheorems.CaughtUpKeyUniqueExactly | dbt/macros/unique_telemetry_key.sql:2-10 | once caught up the condition is on all admitted messages |
| SilverTheorems.StateTestExactly | dbt/tests/silver/assert_int_state_matches_recomputed.sql:4-6 | a silver row passes the state test exactly when the sender's state is the one its own readings imply |
| Witnesses.IncoherentPair | internal/ingestion/ingestor.go:123-150 | two genuine messages under one key for which some run leaves an unbacked measurement, and some run one that disagrees with silver |
| Witnesses.TwoInOneSecond | dbt/macros/unique_telemetry_key.sql:2-10 | two samples a millisecond apart are both admitted and stored, and the silver key is not unique |
| Witnesses.StateTestFails | dbt/tests/silver/assert_int_state_matches_recomputed.sql:4-6 | a load of 100.0 sent as WARNING is stored and its silver row fails the state test |
| StressIndex.IndexInRange | dbt/macros/telemetry.sql:17-23 | the index lies in [0, 1] for every reading, missing ones included |
| StressIndex.IndexWeights | dbt/macros/telemetry.sql:17-23 | half for the winding at 105, three tenths for the oil at 100, two for the load at 140, in proportion, to half a thousandth |
| StressIndex.IndexEnds | dbt/macros/telemetry.sql:17-23 | a full blend is capped at one, and readings below zero count as zero |
| StressIndex.IndexMonotone | dbt/macros/telemetry.sql:17-23 | the rounded index is monotone in each reading |
| StressIndex.FullIndexIsCritical | dbt/macros/telemetry.sql:17-37 | for one-decimal readings an index of 1.000 is reached in CRITICAL only |
| StressIndex.NormalBoundsIndex | dbt/macros/telemetry.sql:17-37 | NORMAL keeps the index at or below 0.865 |
| Simulator.Simulator.constructor | internal/telemetry/simulator.go:56-80 | the units start at the ambient of the start time, the parameters are those of the first draws |
| Simulator.New | internal/telemetry/simulator.go:44-81 | for every fleet: an empty one and a non-positive interval are refused, in that order; otherwise a fresh simulator with the effective intensity |
| Simulator.Simulator.Next | internal/telemetry/simulator.go:103-141 | the n-th call returns tick n of the closed description of the run, unit by unit in fleet order |
| Simulator.ParamsOfSource | internal/telemetry/simulator.go:66-79 | a unit's parameters were drawn for the last record of its id: a later duplicate replaces an earlier one |
| Simulator.TickEquations | internal/telemetry/simulator.go:108-139 | how a tick's load, unit and sample follow from the unit before it: load against the old ambient, winding against the new oil |
| PhysicsLaws.SampleSays | internal/telemetry/simulator.go:122-138 | each field of a sample reports its own quantity of the tick to one decimal, the ambient that of the clock; the state is the tick's |
| PhysicsLaws.TickLeads | internal/telemetry/simulator.go:111-120 | a tick multiplies the oil's distance from its target at the new ambient by exp(-dt/5400), the winding's from its target above the new oil by exp(-dt/420) |
| PhysicsLaws.ParamsByDraws | internal/telemetry/simulator.go:66-79 | a unit's parameters from the three draws and the record they belong to: rise, gradient, offset, loss ratio and voltage |
| PhysicsLaws.CoolingRatings | internal/telemetry/measurement.go:58-87 | rated rise and gradient of each of the five cooling types |
| PhysicsLaws.RatedLoad | internal/telemetry/physics.go:22-41 | full load warms the oil by its rated rise and the winding by its rated gradient, no load by nothing |
| PhysicsLaws.RiseFollowsLosses | internal/telemetry/physics.go:22-31 | the oil's rise is to its rated rise as the losses to their rated value, to the power 0.8 |
| PhysicsLaws.GradientScales | internal/telemetry/physics.go:33-41 | at c times the load the winding's gradient is c^1.6 times as large |
| PhysicsLaws.TimeConstants | internal/telemetry/physics.go:52-57 | after 90 minutes 1/e of the oil's gap is left, after 7 of the winding's |
| PhysicsLaws.VoltageDroops | internal/telemetry/physics.go:98-106 | full load takes two percent off the voltage, in proportion below |
| PhysicsLaws.LevelFollowsOil | internal/telemetry/simulator.go:122 | the oil level is 96 percent, three more for each 100 degrees above the ambient, 0.4 to either side |
| DailyLoad.HourCountsMinutes | internal/telemetry/simulator.go:97 | the hour counts the whole minutes since midnight and nothing finer |
| DailyLoad.AmbientByHour | internal/telemetry/simulator.go:95-99 | 21 degrees at 08:00, 31 at 20:00, 26 at 02:00 and 14:00 |
| DailyLoad.Extremes | internal/telemetry/simulator.go:95-99 | no instant is colder than one at 08:00 or warmer than one at 20:00 |
| DailyLoad.AmbientTurns | internal/telemetry/simulator.go:95-99 | half a day later the ambient is mirrored at 26 degrees, a day later it is the same |
| DailyLoad.ShapeBetween | internal/telemetry/physics.go:61-67 | at every hour the day's shape lies between two rational curves: a plateau of 0.45, a bump of 0.30 at 13:00 and one of 0.18 at 19:00 |
| DailyLoad.SwingByHour | internal/telemetry/physics.go:67 | the swing is highest six hours into the shifted day, lowest at eighteen, level in between |
| DailyLoad.OppositeSwings | internal/telemetry/physics.go:67 | twelve hours of offset mirror the swing at its mean |
| DailyLoad.WeatherAndNoise | internal/telemetry/simulator.go:145-154 | one percent of load per degree off 26, three to either side by the draw |
| DailyLoad.UnclampedLoad | internal/telemetry/simulator.go:153 | between 5 and 160 percent the load is the nominal one times the intensity |
| DailyLoad.LoadByHour | internal/telemetry/simulator.go:143-154 | at intensity one, 26 degrees and the middle draw: 66 to 87.7 percent at 13:00, 55.4 to 80 at 19:00, 39.6 to 55.2 at 03:00, for every offset |
| DailyLoad.TickLoadByHour | internal/telemetry/simulator.go:143-154 | in every run, bounds on the load of a tick at 13:00, 19:00 and 03:00 by the intensity |
| DailyLoad.MiddayBeatsNight | internal/telemetry/simulator.go:143-154 | within a run no unit at 03:00 carries more than any unit at 13:00 |
| Simulator.NowIsLinear | internal/telemetry/simulator.go:104 | after n ticks the clock reads start plus n intervals |
| Simulator.ValidLossesAreSound | internal/telemetry/simulator.go:87-93 | valid records have no negative loss ratio |
| ThermalLag.StepBetween | internal/telemetry/physics.go:43-50 | a step never passes its target, never moves away from it, and strictly approaches it when time passes |
| ThermalLag.DistanceDecays | internal/telemetry/physics.go:43-50 | under the same targets two trajectories' distance is multiplied by exp of minus the elapsed time over the constant |
| ThermalLag.StepsCompose | internal/telemetry/physics.go:43-50 | with one target, steps of any sizes amount to a single step of their sum |
| StepBounds.LoadBounds | internal/telemetry/simulator.go:143-154 | the load stays in [5, 160] and within explicit multiples of the intensity |
| StepBounds.LoadMonotone | internal/telemetry/simulator.go:143-154 | more intensity, at least as much load |
| StepBounds.OilTargetBounds | internal/telemetry/physics.go:22-31 | the steady oil temperature lies between the ambient and a bound by the squared load |
| StepBounds.WindingTargetBounds | internal/telemetry/physics.go:33-41 | the steady winding temperature lies between the oil and a bound by the squared load |
| StepBounds.ParamBounds | internal/telemetry/simulator.go:72-78 | the drawn parameters lie in their ranges for every fleet and stream |
| Envelope.AlwaysInEnvelope | internal/telemetry/simulator.go:103-141 | at intensities up to 1.3 no unit of any run leaves oil [21, 149.8], winding [21, 191], ambient [21, 31]; load stays in [5, 146.445] |
| Envelope.ReportedEnvelope | internal/telemetry/simulator.go:126-138 | the same for the rounded fields of every sample, with the oil level in [85, 99.8] |
| Envelope.EmittedInRangesExactly | internal/ingestion/validate.go:64-85 | every sample passes all range checks but winding against oil exactly when the drooped voltage is at least 0.05 kV |
| Envelope.EmittedInRanges | internal/ingestion/validate.go:64-85 | a fleet rated at 0.1 kV or more always passes them |
| Envelope.LowRatingIsOutOfRange | internal/ingestion/validate.go:83-85 | a fleet rated at 0.05 kV or less never does |
| Envelope.CurrentCarriesPower | internal/telemetry/physics.go:88-96 | root three times voltage times current is the loaded share of the rated power |
| OrderPreservation.DrawsAreLinear | internal/telemetry/simulator.go:72-154 | the draws taken are a function of fleet size and tick alone |
| OrderPreservation.RunsOrdered | internal/telemetry/simulator.go:103-141 | of two runs that differ in intensity alone, every unit of the harder is at least as hot at every tick |
| OrderPreservation.LoadsOrdered | internal/telemetry/simulator.go:145-154 | and carries at least as much load before rounding |
| OrderPreservation.SamplesOrdered | internal/telemetry/simulator.go:122-138 | and reports at least as much load, heat, current, oil level and severity, and no more voltage, after rounding |
| OrderPreservation.DerivedOrdered | internal/telemetry/simulator.go:122-138 | unrounded current and oil level are ordered the same way and voltage the other, in whole runs |
| OrderPreservation.SampleRounds | internal/telemetry/simulator.go:126-138 | and these are the quantities whose roundings the sample reports |
| WindingGap.OilIsSlower | internal/telemetry/physics.go:54-57 | in a step of any size the oil closes at most 7/90 of what the winding closes |
| WindingGap.GapKept | internal/telemetry/simulator.go:115-119 | a step of any size keeps the winding within c of the oil when its gradient covers 7/90 of the oil's coming rise less c |
| WindingGap.GapKeptExactly | internal/telemetry/simulator.go:115-119 | that condition is sharp: a winding c below the oil falls no further in a step of any size if and only if it holds |
| WindingGap.GapAlways | internal/telemetry/simulator.go:115-119 | over whole runs: while every step is covered the winding is never more than c below the oil |
| WindingGap.ReportedGap | internal/ingestion/validate.go:73-76 | then the rounded fields pass the validator's tolerance, and for c = 0 the strict order of the silver test |
| NominalGap.BudgetKept | internal/telemetry/simulator.go:115-119 | a step of any size keeps the winding's deficit within half a degree and within 0.2508 of the oil's warming above 21, when the gradient pays for the coming rise |
| NominalGap.AlwaysInBudget | internal/telemetry/simulator.go:103-141 | loss ratios from 3.7 and intensities 1.0 to 1.3: every unit of every run stays in that budget |
| NominalGap.SteepFleetClears | internal/ingestion/validate.go:73-76 | so every sample of every such run clears the oil by the validator's tolerance, after rounding |
| GapFleets.FlatFleetIsRefused | internal/telemetry/simulator.go:111-119 | flat losses, near-idle load, seven-minute steps: for every stream and start the first sample breaks the winding check |
| GapFleets.FlatFleetIsRejected | internal/ingestion/validate.go:73-76 | the validator answers such a sample with the winding range error although all else is in order |
| GapFleets.FlatRecordIsValid | internal/domain/transformer.go:115-153 | and such a record is a valid design record |
| RoundedState.DowngradedExactly | internal/telemetry/simulator.go:126-138 | the state recomputed from rounded fields is less severe exactly when a load in (100, 100.05) was the only trigger |
| RoundedState.UpgradedExactly | internal/telemetry/simulator.go:126-138 | it is more severe exactly when a reading rounds up onto a threshold nothing already reaches |
| RoundedState.ClearReadingsAgree | internal/ingestion/normalize.go:11-16 | the two agree when no reading lies within 0.05 of a threshold |
| RoundedState.SampleIsNormalExactly | internal/ingestion/normalize.go:11-16 | in every run a sample is unchanged by normalization exactly when rounding changed its severity neither way |
| Witnesses.DowngradeHappens | internal/telemetry/simulator.go:103-141 | for every fleet with sound losses, every stream and start, some intensity makes the first sample of a one-second run WARNING to the simulator and NORMAL to the service |
| Delivery.AtLeastOnceKeys | internal/ingestion/ingestor.go:109-159 | any at-least-once delivery of welcome messages, in any order and interleaving: none rejected or lost, each key accepted once, each table holds exactly its keys, duplicates are the other deliveries |
| Delivery.AtLeastOnceCounts | internal/ingestion/ingestor.go:109-159 | when the messages differ in both keys: each accepted and stored once, duplicates are the surplus, and the tables are the exact ones |
| Stamps.StampIsCanonical | internal/telemetry/measurement.go:39-42 | every timestamp of a run is the canonical spelling of its second, at any interval |
| Stamps.KeysAreStamps | internal/ingestion/normalize.go:5-9 | a unit's dedup keys tell the ticks apart exactly when the timestamps do |
| Stamps.StampsDifferExactly | internal/telemetry/measurement.go:39-42 | over a run long enough for short ticks to meet in a second, timestamps and dedup keys tell its ticks apart if and only if the interval is a second or more |
| EndToEnd.PublishedAreWelcome | cmd/simulator/main.go:74-97 | every message of a run that fits the service is admitted from its start on and accepted by the tables |
| EndToEnd.PublishedAreDifferent | internal/ingestion/normalize.go:5-9 | at intervals of a second or more no two of them share a dedup key or a measurement key |
| EndToEnd.RunArrivesOnce | internal/telemetry/simulator.go:103-141 | n ticks a second or more apart, delivered at least once: rejected 0, accepted = raw rows = measurement rows = n times the fleet, duplicates the surplus |
| EndToEnd.RunArrivesPerSecond | internal/telemetry/simulator.go:103-141 | at any interval those counts are the fleet times the seconds that ticks fall in |
| EndToEnd.NothingLostExactly | internal/ingestion/ingestor.go:123-130 | every sample of such a run is accepted if and only if the timestamps tell its ticks apart |
| ReadBack.RunIsListed | internal/store/query.go:101-129 | and back: after any such delivery the API lists of each unit exactly the samples it emitted, last tick first, each with the state of its own readings |
| EndToEnd.PublishedKeyIsUnique | dbt/macros/unique_telemetry_key.sql:2-10 | whatever becomes of its messages, restarts and failures included, the silver key of a simulator's samples is unique, at any interval |
| EndToEnd.CoveredFleetIsClean | internal/ingestion/validate.go:64-91 | while the gradients cover the rise but for half a degree, a fleet with plain ratings reports nothing but samples the validator and the table take |
| EndToEnd.SteepFleetIsClean | internal/telemetry/simulator.go:103-141 | so does a fleet of steep losses at intensities 1.0 to 1.3 |
| Transformer.IdNumberInjective | internal/domain/transformer.go:112 | valid ids are told apart by a number below a thousand |
| Transformer.ValidIdIsPlain | internal/domain/transformer.go:112-121 | a valid id carries neither the key's nor the topic's separator |
| Transformer.ValidExactly | internal/domain/transformer.go:114-153 | the record passes validation exactly when every rule holds, in whatever order |
| Transformer.RefusalIsJustified | internal/domain/transformer.go:114-153 | every refusal names the first rule the record breaks |
| Generator.Generator.SupportedHVs | internal/domain/generator.go:106-123 | the classes the rating supports, once each and in order, or all of them when it supports none |
| Generator.Generator.VoltagePair | internal/domain/generator.go:125-138 | a drawn high voltage and a drawn lower one from those below it, or from all when there is none |
| Generator.Generator.One | internal/domain/generator.go:78-104 | the record that the position of the source determines, and how many draws it takes; FleetTheorems.RecordByDraws says what record that is |
| Generator.Generator.Generate | internal/domain/generator.go:64-76 | the fleet of the source's position, all valid, for n up to 999 and every stream; from 1000 on the error names record 1000 and its id |
| FleetTheorems.LogBetweenBounds | internal/domain/generator.go:199-201 | a log-uniform draw lies between its ends |
| FleetTheorems.LogUniform | internal/domain/generator.go:199-201 | draws 0 and 1 give the ends, and draws d and 1-d give values whose product is that of the ends |
| FleetTheorems.LogMonotone | internal/domain/generator.go:199-201 | a greater draw gives at least as great a value |
| FleetTheorems.SketchInEnvelope | internal/domain/generator.go:78-138 | neither fallback is reachable; rating and voltages lie in the envelope and obey the 230/345 kV size rules |
| FleetTheorems.ImpedanceBounds | internal/domain/generator.go:140-148 | the impedance lies in [4.5, 22], so its cap at 25 is never reached |
| FleetTheorems.YearBounds | internal/domain/generator.go:177-181 | the year lies in 1990 to 2025 |
| FleetTheorems.LossBounds | internal/domain/generator.go:97-98 | rounded losses are positive and load losses at least 3.7 times the no-load losses |
| FleetTheorems.IdForMatches | internal/domain/generator.go:86 | the padded id is well formed exactly for numbers below a thousand |
| FleetTheorems.IdForCounts | internal/domain/generator.go:86 | the three digits of an id are its number |
| FleetTheorems.EveryRecord | internal/domain/generator.go:78-104 | every record of every stream is plausible, cooling, frequency, phases and sizes included, and valid exactly when its number has three digits |
| FleetTheorems.RecordByDraws | internal/domain/generator.go:78-201 | each field of every record by its own draw: choices by the part of the unit interval it lies in, quantities to their last decimal |
| FleetTheorems.CoolingByDraw | internal/domain/generator.go:150-161 | ONAN exactly below 15 MVA, ONAF from 15 to 60 and for half the draws to 150, OFAF only from 60, ODAF and OFWF only from 150, each for a third of the draws |
| FleetTheorems.ClassesByApplication | internal/domain/generator.go:29-60 | ratings and voltages of each application, and the ratings the 230 and 345 kV classes need |
| FleetTheorems.EveryFleet | internal/domain/generator.go:64-76 | up to 999 records: all valid and plausible, power in its envelope after rounding, ids distinct |
| Decimal.IntRoundTrip | internal/domain/csv.go:111-117 | a printed integer is read back exactly when it fits 64 bits |
| Decimal.FixedRoundTripExactly | internal/domain/csv.go:103-109 | a number printed with p decimals is read back as itself exactly when it has no more than p decimals |
| Csv.LoadTransformerCSV | internal/domain/csv.go:11-101 | the outcome for every header and rows: the fleet, the first failure in reading order, or an index out of range |
| Csv.WriteCSV | cmd/etl/main.go:96-140 | the header and one row per record, in order |
| CsvTheorems.ColumnsIsLast | internal/domain/csv.go:19-22 | a name stands for its last place in the header |
| CsvTheorems.RowRoundTripExactly | internal/domain/csv.go:49-98 | a written row is read back as its record exactly when the record is valid and printable |
| CsvTheorems.RoundTripExactly | internal/domain/csv.go:11-101 | reading undoes writing, order included, exactly on the fleets whose records are all valid and printable |
| CsvTheorems.LoadedByName | internal/domain/csv.go:49-98 | whatever the order of the header, a file that loads gives one valid record per row, each field read from the column of its own name |
| CsvTheorems.WrittenByName | cmd/etl/main.go:103-134 | each field of a written record stands under its own name |
| CsvTheorems.LoadFailureIsJustified | internal/domain/csv.go:11-101 | what a failed load says is so: the first missing column, the row, header counted, and the text there that is no number, or the rule its record breaks; all rows before it are good |
| CsvTheorems.ColumnOrderIsFree | internal/domain/csv.go:19-22 | permuting the columns of header and rows together changes neither the fleet nor the failure |
| CsvTheorems.RowPanicsExactly | internal/domain/csv.go:49-94 | a row takes the reader out of range exactly when a cell it needs is missing before the first cell it cannot read |
| CsvTheorems.LoadPanicsExactly | internal/domain/csv.go:11-101 | so does a table exactly when its header is complete and such a row comes after none but good ones |
| CsvTheorems.SafeWidthExactly | internal/domain/csv.go:19-54 | rows of n fields can never do so exactly when every required column lies below n |
| CsvTheorems.WideRowsDoNotPanic | internal/domain/csv.go:49-94 | rows as wide as the header never take the reader out of range |
| CsvTheorems.OneFieldPanics | internal/domain/csv.go:49-54 | a first row of a single field always does, whatever the header |
| FleetPipeline.GeneratedFileReadsBack | cmd/etl/main.go:46-71 | the file written for a generated fleet is read back as that fleet |
| FleetPipeline.GeneratedFleetArrives | docker-compose.yml:79-90 | a generated fleet, simulated at any intensity from the default 1.0 to the deployed 1.3, a second or more between ticks, and delivered at least once, is stored exactly once per tick and unit |
| Ordering.OrderedUnique | internal/store/query.go:109 | a total order leaves one way to list a set, so ORDER BY on a key determines the rows' order |
| Paging.ListTelemetry | internal/store/query.go:101-129 | the samples of the page at that limit and offset of the window, newest first: at most the limit, each with version, id, written timestamp and each column of its row under its own name |
| ReadBack.WrittenIsListed | internal/store/query.go:101-129 | an admitted canonical sample of two decimals, written under a free key, is listed with the state of its readings |
| ReadBack.ListingIsWhatWasAdmitted | internal/store/query.go:101-129 | once caught up, over canonical samples of two decimals, the API lists of a transformer and window exactly what was admitted of it |
| Paging.SamplesTellRows | internal/store/query.go:118-128 | two samples of a page carry one timestamp exactly when their rows lie in one second |
| Paging.PageParams | internal/api/params.go:16-34 | the limit is in 1 to 1000 and the offset not negative; a readable positive number is taken, capped for the limit |
| Paging.ZeroTimeIsYearOne | internal/api/params.go:36-47 | the instant that stands for a missing bound is the first of the year 1, counted in days |
| Paging.UnreadableBoundsAreOpen | internal/api/params.go:36-47 | a bound that is missing or cannot be read leaves its side of the window open; a window of two bounds includes its ends |
| Paging.NewestLists | internal/store/query.go:101-141 | the rows of a window are exactly its keys, strictly newest first, as many as the count says |
| Paging.PagesPartitionTheWindow | internal/store/query.go:101-141 | pages at offsets 0, L, 2L and so on give every row once, without gap or repeat, for every limit the API passes |
| DesignBase.AlwaysWellNumbered | internal/api/measurements.go:115-136 | through every series of registrations and file reloads each row is filed under its own well-formed id |
| DesignBase.RegisteredStays | internal/store/query.go:84-97 | registration never replaces a record |
| DesignBase.RegistrationAddsOne | internal/store/query.go:84-97 | a registered record shows field by field in the row of its id, and every other row is as before |
| DesignBase.ReloadReplaces | internal/store/transformers.go:11-54 | a reload fails as a whole exactly when some record breaks a column; otherwise the last record of each id replaces its row, and rows the file does not name stay |
| DesignBase.StoredIsValidExactly | migrations/00001_create_transformers.sql:4-24 | what the columns keep of a valid record is valid exactly when its voltages still differ |
| DesignBase.ValidFitsExactly | migrations/00001_create_transformers.sql:4-24 | exactly which valid records the table takes: those that show at two decimals where the column must be positive, stay below the column's bound after rounding, and have no year after 2100 |
| DesignBase.CreateSucceedsExactly | internal/store/query.go:84-97 | a registration succeeds exactly for valid records that fit the columns under a new id; the check constraint fails exactly for valid ones that do not |
| DesignBase.ValidRecordRefused | migrations/00001_create_transformers.sql:14 | a valid record the table refuses: commissioned in 2101 |
| DesignBase.StoredVoltagesCanMeet | migrations/00001_create_transformers.sql:6-8 | a valid record, of 10.004 and 10.001 kV, that the table takes and whose stored form is not valid |
| DesignBase.AtMostAThousand | internal/domain/transformer.go:112-121 | a table of well-formed ids has at most a thousand rows |
| DesignBase.FirstPageIsAllExactly | internal/store/query.go:44-62 | a first page of n loses nothing exactly when there are no more than n rows |
| DesignBase.ExcludeTarget | internal/api/measurements.go:95-101 | the in-place filter leaves the other records in front, in order, and everything behind them untouched |
| DesignBase.CandidatesAreComplete | internal/api/measurements.go:89-101 | after any registrations and reloads the candidates are exactly all other records, in the order of their numbers |

## Left out

- The MQTT client, the broker's sessions, shutdown and the network: delivery is a step of the protocol with any message at any time.
- JSON as bytes: case-insensitive and repeated keys, escaping, and the buffer limit of the line scanner.
- CSV as bytes: quoting, line ends and blank lines; the file is a header and rows of fields.
- Exponents, infinities, hexadecimal and underscores in the numbers the file reader accepts; the writer produces none of them.
- IEEE floating point, NaN and signed zero; integer overflow of the counters.
- The PostgreSQL engine: connections, pool, transactions beyond all-or-nothing reloads, index maintenance, microsecond rounding of timestamps, and the collation of text columns (order by code point here).
- SQL casts of payload fields that are not of the contract's type: raw rows reach the table through the validator only.
- The store interface as an interface: the ingestor holds one of its two implementations.
- The reader of RFC 3339 itself, and offsets and leap seconds in it.
- Conversion of a random source's raw output into draws, and so the values of a particular seed.
- `ListEvents` and its paging: it orders by a time that is not a key, so the order of its pages is not determined by the code.
- `runGenerate`'s report of the least and greatest rating, JSON output of the fleet, and command-line flags.
- The HTTP server, middleware, metrics endpoint, health probes and migrations runner.
- The similarity and anomaly service in Python, the gold models and the notebooks.
- Runs of the simulator at intensities above 1.3: the envelope is stated up to the deployed value.
- NominalGap.SteepFleetClears: intensities below the simulator's default 1.0 are not covered; there the general condition of `WindingGap.ReportedGap` applies.
- Sinks.JsonLinesStore.WriteRaw: a line written in part is not modelled, so the sink never holds a torn one, and an encoder that stays failed after an error is not modelled either.
- Sinks.JsonLinesStore.WriteMeasurement: as for WriteRaw, a line written in part is not modelled.
- The spelling of JSON numbers: a schema version written 1.0 counts as the integer 1 here, and Go's decoder refuses it.
- Which sample of a second is kept when ticks lie less than a second apart: the order of handling decides, and `EndToEnd.RunArrivesPerSecond` only counts.
