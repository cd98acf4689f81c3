# Talaiot metrics core, modelled in Dafny

Talaiot is a Gradle plugin that records build and task metrics and sends them to
time-series and document stores. This project models the part of it that decides which
metrics exist, what a build record turns into, and how the RethinkDB publisher writes it.
The model covers four parts:

- **The metrics registry** (`metrics_configuration.dfy`). This is the `MetricsConfiguration`
  class, modelled as a Dafny class whose `metrics` list the bundle methods and the custom-metric
  overloads append to. `build()` falls back to all five preset bundles (30 metrics) when nothing
  was registered, and appends the build-id metric when `generateBuildId` is set. Simple custom
  metrics write into the report's custom property bags. The bags are Kotlin `LinkedHashMap`s,
  modelled as insertion-ordered sequences of key/value pairs (`Entities.Put`, `Entities.Lookup`).
- **The flattening provider** (`metrics_provider.dfy`, `long_parsing.dfy`).
  `MetricsProviderImpl.get()` is modelled twice:
  - `Flatten` is its specification;
  - `Get` is a method with the same loops, proved equal to `Flatten`.

  The output is:
  1. the build-environment pairs;
  2. `duration`, `configuration` and `success`;
  3. the custom build properties;
  4. each non-null optional field, in source order. `publicIp` appears twice, and six
     environment values are converted with Kotlin's `String.toLong()`.

  `toLong()` is modelled exactly for ASCII input: sign, digits and the signed 64-bit range.
  Its failure is the `NumberFormatException` that aborts `get()`.
- **The RethinkDB publisher** (`rethinkdb_publisher.dfy`). It runs against `FakeBackend`, an
  in-memory server holding databases, tables, inserted batches and connection attempts:
  - `publish` validates the configuration synchronously;
  - the background unit connects, with credentials unless both username and password are blank;
  - it checks and creates the database, then writes the gated task batch and the gated build
    batch, each after checking and creating its table;
  - every failure inside the unit is caught.

  `RunSpec` and `PublishSpec` state the whole effect as functions. `RethinkDbPublisher.Publish`
  and `Run` are proved equal to them.
- **The InfluxDB publisher configuration** (`influxdb_configuration.dfy`). This covers its
  defaults and the retention-policy block. The block builds a fresh default policy, applies
  its assignments to it, and replaces the old policy, so earlier customisations are discarded.

`pipeline.dfy` connects registration to output, using the corrected assigner (see
## Findings). With it, a custom build pair registered in the registry and applied to a report
comes out of the flattening as a string pair under its key. The assigner as written stores the
value under the value instead, so `("buildType", "release")` reaches the build row as
`("release", "release")`.

A few behaviours of `get()` and `build()` are worth stating plainly:

- A malformed numeric environment value makes `get()` throw; the value is not skipped.
- `get()` emits the build-environment pairs and the three core pairs before the custom build
  properties.
- Any registration at all, even a single custom pair, suppresses the preset fallback of `build()`.

`MetricsProviderImplTest` looks for `cpuCount` with the string value `"12"`. The code emits
it as the Long `12` (`CpuCountEmittedAsLong`).

## Model

| member | source | states |
|---|---|---|
| MetricsConfig.MetricsConfiguration.constructor | talaiot/src/main/kotlin/com/cdsap/talaiot/configuration/MetricsConfiguration.kt:77-79 | a new registry is empty and does not generate a build id |
| MetricsConfig.MetricsConfiguration.Default | talaiot/src/main/kotlin/com/cdsap/talaiot/configuration/MetricsConfiguration.kt:81-90 | appends exactly the six default metrics, in order, after the existing ones |
| MetricsConfig.MetricsConfiguration.Git | talaiot/src/main/kotlin/com/cdsap/talaiot/configuration/MetricsConfiguration.kt:92-96 | appends git user then git branch |
| MetricsConfig.MetricsConfiguration.Environment | talaiot/src/main/kotlin/com/cdsap/talaiot/configuration/MetricsConfiguration.kt:98-104 | appends the four environment metrics in order |
| MetricsConfig.MetricsConfiguration.Performance | talaiot/src/main/kotlin/com/cdsap/talaiot/configuration/MetricsConfiguration.kt:106-118 | appends the ten performance metrics in order |
| MetricsConfig.MetricsConfiguration.GradleSwitches | talaiot/src/main/kotlin/com/cdsap/talaiot/configuration/MetricsConfiguration.kt:120-130 | appends the eight Gradle switch metrics in order |
| MetricsConfig.MetricsConfiguration.CustomMetrics | talaiot/src/main/kotlin/com/cdsap/talaiot/configuration/MetricsConfiguration.kt:137-141 | the registry afterwards is the old one followed by the given metrics, in argument order |
| MetricsConfig.AppendSimpleBuildMetrics | talaiot/src/main/kotlin/com/cdsap/talaiot/configuration/MetricsConfiguration.kt:149-153 | the `mapTo` loop appends one simple build metric per pair, in argument order |
| MetricsConfig.SimpleBuildMetricsAt | talaiot/src/main/kotlin/com/cdsap/talaiot/configuration/MetricsConfiguration.kt:149-153 | the i-th simple build metric carries the i-th pair unchanged |
| MetricsConfig.MetricsConfiguration.CustomBuildMetrics | talaiot/src/main/kotlin/com/cdsap/talaiot/configuration/MetricsConfiguration.kt:149-153 | vararg overload: old registry followed by one simple build metric per pair |
| MetricsConfig.MetricsConfiguration.CustomBuildMetric | talaiot/src/main/kotlin/com/cdsap/talaiot/configuration/MetricsConfiguration.kt:161-163 | single-pair overload appends exactly one simple build metric |
| MetricsConfig.MetricsConfiguration.CustomBuildMetricsMap | talaiot/src/main/kotlin/com/cdsap/talaiot/configuration/MetricsConfiguration.kt:171-175 | map overload: one simple build metric per entry, in the map's iteration order |
| MetricsConfig.AppendSimpleTaskMetrics | talaiot/src/main/kotlin/com/cdsap/talaiot/configuration/MetricsConfiguration.kt:183-187 | the `mapTo` loop appends one simple task metric per pair, in argument order |
| MetricsConfig.SimpleTaskMetricsAt | talaiot/src/main/kotlin/com/cdsap/talaiot/configuration/MetricsConfiguration.kt:183-187 | the i-th simple task metric carries the i-th pair unchanged |
| MetricsConfig.MetricsConfiguration.CustomTaskMetrics | talaiot/src/main/kotlin/com/cdsap/talaiot/configuration/MetricsConfiguration.kt:183-187 | vararg overload: old registry followed by one simple task metric per pair |
| MetricsConfig.MetricsConfiguration.CustomTaskMetric | talaiot/src/main/kotlin/com/cdsap/talaiot/configuration/MetricsConfiguration.kt:195-197 | single-pair overload appends exactly one simple task metric |
| MetricsConfig.MetricsConfiguration.CustomTaskMetricsMap | talaiot/src/main/kotlin/com/cdsap/talaiot/configuration/MetricsConfiguration.kt:205-209 | map overload: one simple task metric per entry, in iteration order |
| MetricsConfig.Resolve | talaiot/src/main/kotlin/com/cdsap/talaiot/configuration/MetricsConfiguration.kt:211-226 | the resolved list keeps a non-empty registry as its prefix, starts with the 30 presets when the registry is empty, ends with the build id exactly when the flag is set, and contains the build id without the flag only if it was registered |
| MetricsConfig.MetricsConfiguration.Build | talaiot/src/main/kotlin/com/cdsap/talaiot/configuration/MetricsConfiguration.kt:211-226 | the registry becomes, and `build()` returns, the resolution of the old registry under the flag |
| MetricsConfig.ResolveFallback | talaiot/src/main/kotlin/com/cdsap/talaiot/configuration/MetricsConfiguration.kt:213-219 | an empty registry resolves to default, performance, switches, git, environment in that order: 30 metrics, the union of the five bundles |
| MetricsConfig.ResolveKeepsCustomisation | talaiot/src/main/kotlin/com/cdsap/talaiot/configuration/MetricsConfiguration.kt:211-219 | any registration suppresses the fallback: no preset that was not registered appears |
| MetricsConfig.ResolveBuildId | talaiot/src/main/kotlin/com/cdsap/talaiot/configuration/MetricsConfiguration.kt:221-223 | the flag adds exactly one build-id metric, last, after any fallback |
| MetricsConfig.AssignAsWritten | talaiot/src/main/kotlin/com/cdsap/talaiot/configuration/MetricsConfiguration.kt:228-240 | as written, a simple metric's value is found under the value itself in its bag, every other key of that bag answers as before, the other bag is unchanged; other metrics leave both bags alone |
| MetricsConfig.AssignAsWrittenLosesKey | talaiot/src/main/kotlin/com/cdsap/talaiot/configuration/MetricsConfiguration.kt:228-233 | for every pair whose key differs from its value, in either bag, a lookup under the key answers what it answered before and the value is found under the value; so ("buildType", "release") leaves nothing under "buildType" |
| MetricsConfig.Assign | talaiot/src/main/kotlin/com/cdsap/talaiot/configuration/MetricsConfiguration.kt:228-240 | corrected: the pair's value is found under its key, every other key and the other bag are unchanged, and keys stay distinct |
| MetricsConfig.ApplySimpleBuildMetrics | talaiot/src/main/kotlin/com/cdsap/talaiot/configuration/MetricsConfiguration.kt:228-233 | corrected behaviour (see ## Findings): after applying a run of custom build pairs, each key holds the last value given for it (or its earlier value), the task bag is untouched, keys stay distinct; the code as written stores each value under the value instead |
| MetricsConfig.ApplySimpleTaskMetrics | talaiot/src/main/kotlin/com/cdsap/talaiot/configuration/MetricsConfiguration.kt:235-240 | corrected behaviour (see ## Findings): the task-bag counterpart, last write wins, the build bag is untouched, keys stay distinct; the code as written stores each value under the value instead |
| Entities.PutLookup | talaiot/src/main/kotlin/com/cdsap/talaiot/configuration/MetricsConfiguration.kt:231 | after a map put the key maps to the new value and every other key to its old value |
| Entities.PutShape | talaiot/src/main/kotlin/com/cdsap/talaiot/configuration/MetricsConfiguration.kt:231 | a put keeps every key in its position; an existing key keeps the size, a new key is appended last |
| Entities.PutDistinct | talaiot/src/main/kotlin/com/cdsap/talaiot/configuration/MetricsConfiguration.kt:231 | a put keeps the keys distinct |
| LongParsing.ParseLong | talaiot/src/main/kotlin/com/cdsap/talaiot/metrics/MetricsProviderImpl.kt:20 | `toLong()` only accepts a non-empty string starting with a sign or digit, and only values within the signed 64-bit range |
| LongParsing.ParseLongToString | talaiot/src/main/kotlin/com/cdsap/talaiot/metrics/MetricsProviderImpl.kt:27 | round trip: the decimal text of any Long parses back to it |
| LongParsing.ParseLongRejectsOverflow | talaiot/src/main/kotlin/com/cdsap/talaiot/metrics/MetricsProviderImpl.kt:27 | the decimal text of a value outside the Long range is rejected |
| LongParsing.ParseLongRejectsMalformed | talaiot/src/main/kotlin/com/cdsap/talaiot/metrics/MetricsProviderImpl.kt:27 | a non-digit after the first character, a lone sign and the empty string are rejected |
| MetricsProvider.Emit | talaiot/src/main/kotlin/com/cdsap/talaiot/metrics/MetricsProviderImpl.kt:19-43 | the optional fields succeed exactly when none is a malformed numeric value, then yield one pair per present field; on failure the error names the first malformed field and its text |
| MetricsProvider.EmitErrorPrefix | talaiot/src/main/kotlin/com/cdsap/talaiot/metrics/MetricsProviderImpl.kt:19-43 | once an exception is thrown the later fields do not matter |
| MetricsProvider.EmitFields | talaiot/src/main/kotlin/com/cdsap/talaiot/metrics/MetricsProviderImpl.kt:19-43 | the `?.let { add(...) }` statements compute exactly `Emit` of the field table |
| MetricsProvider.EmitAt | talaiot/src/main/kotlin/com/cdsap/talaiot/metrics/MetricsProviderImpl.kt:19-43 | a present field is well formed and lands at the index counted by the present fields before it |
| MetricsProvider.EmitFrom | talaiot/src/main/kotlin/com/cdsap/talaiot/metrics/MetricsProviderImpl.kt:19-43 | every emitted pair is the emission of some present, well-formed field |
| MetricsProvider.BagEntries | talaiot/src/main/kotlin/com/cdsap/talaiot/metrics/MetricsProviderImpl.kt:16-18 | one string pair per bag entry, same key and value, same order |
| MetricsProvider.Get | talaiot/src/main/kotlin/com/cdsap/talaiot/metrics/MetricsProviderImpl.kt:7-45 | `get()` returns exactly `Flatten(report)` |
| MetricsProvider.FlattenLayout | talaiot/src/main/kotlin/com/cdsap/talaiot/metrics/MetricsProviderImpl.kt:8-18 | environment pairs first, then duration and configuration (0 when null) and success, then the build properties verbatim; total length |
| MetricsProvider.FlattenEmitsField | talaiot/src/main/kotlin/com/cdsap/talaiot/metrics/MetricsProviderImpl.kt:19-43 | each present optional field is emitted under its key at its place in source order |
| MetricsProvider.FlattenTailFromFields | talaiot/src/main/kotlin/com/cdsap/talaiot/metrics/MetricsProviderImpl.kt:19-43 | nothing after the build properties comes from anywhere but a present optional field |
| MetricsProvider.FlattenOmitsAbsent | talaiot/src/main/kotlin/com/cdsap/talaiot/metrics/MetricsProviderImpl.kt:19-43 | a null optional field yields no pair under its key |
| MetricsProvider.PublicIpEmittedTwice | talaiot/src/main/kotlin/com/cdsap/talaiot/metrics/MetricsProviderImpl.kt:30-38 | a present `publicIp` appears at two distinct positions |
| MetricsProvider.FlattenLength | talaiot/src/main/kotlin/com/cdsap/talaiot/metrics/MetricsProviderImpl.kt:7-45 | output length is environment + 3 + build properties + one per non-null field, plus one more for `publicIp` |
| MetricsProvider.FlattenFailsIffMalformed | talaiot/src/main/kotlin/com/cdsap/talaiot/metrics/MetricsProviderImpl.kt:20-27 | `get()` throws exactly when one of the six numeric environment values is present and not a decimal Long |
| MetricsProvider.MalformedIsNumeric | talaiot/src/main/kotlin/com/cdsap/talaiot/metrics/MetricsProviderImpl.kt:20-27 | only maxWorkers, javaXmsBytes, javaXmxBytes, javaMaxPermSize, totalRamAvailableBytes and cpuCount can make `get()` throw |
| MetricsProvider.CpuCountEmittedAsLong | talaiot/src/main/kotlin/com/cdsap/talaiot/metrics/MetricsProviderImpl.kt:27 | a `cpuCount` holding a Long's decimal text is emitted as that Long and never as text |
| RethinkDb.ConnectionFor | talaiot/src/main/kotlin/com/cdsap/talaiot/publisher/rethinkdb/RethinkDbPublisher.kt:64-78 | credentials are sent exactly when the username or the password is not blank, and they are that username and password |
| RethinkDb.DbChecked | talaiot/src/main/kotlin/com/cdsap/talaiot/publisher/rethinkdb/RethinkDbPublisher.kt:131-136 | afterwards the database exists; an existing database keeps its tables, a new one has none; nothing else changes |
| RethinkDb.TableChecked | talaiot/src/main/kotlin/com/cdsap/talaiot/publisher/rethinkdb/RethinkDbPublisher.kt:138-143 | afterwards the table exists in the database; other databases and the batches are unchanged |
| RethinkDb.SchemaChecksIdempotent | talaiot/src/main/kotlin/com/cdsap/talaiot/publisher/rethinkdb/RethinkDbPublisher.kt:131-143 | checking a database or table twice is the same as checking it once |
| RethinkDb.FakeBackend.Connect | talaiot/src/main/kotlin/com/cdsap/talaiot/publisher/rethinkdb/RethinkDbPublisher.kt:68-77 | each connect attempt is recorded, and it succeeds exactly when the server is reachable |
| RethinkDb.FakeBackend.DbExists | talaiot/src/main/kotlin/com/cdsap/talaiot/publisher/rethinkdb/RethinkDbPublisher.kt:132 | `dbList().contains(db)` |
| RethinkDb.FakeBackend.DbCreate | talaiot/src/main/kotlin/com/cdsap/talaiot/publisher/rethinkdb/RethinkDbPublisher.kt:134 | creates a missing database with no tables |
| RethinkDb.FakeBackend.TableExists | talaiot/src/main/kotlin/com/cdsap/talaiot/publisher/rethinkdb/RethinkDbPublisher.kt:139 | `tableList().contains(table)` |
| RethinkDb.FakeBackend.TableCreate | talaiot/src/main/kotlin/com/cdsap/talaiot/publisher/rethinkdb/RethinkDbPublisher.kt:141 | creates a missing table in an existing database |
| RethinkDb.FakeBackend.Insert | talaiot/src/main/kotlin/com/cdsap/talaiot/publisher/rethinkdb/RethinkDbPublisher.kt:122-129 | appends one batch to an existing table |
| RethinkDb.TaskRow | talaiot/src/main/kotlin/com/cdsap/talaiot/publisher/rethinkdb/RethinkDbPublisher.kt:156-163 | eight pairs per task |
| RethinkDb.TaskRows | talaiot/src/main/kotlin/com/cdsap/talaiot/publisher/rethinkdb/RethinkDbPublisher.kt:154-166 | eight pairs for every task |
| RethinkDb.TaskRowsAt | talaiot/src/main/kotlin/com/cdsap/talaiot/publisher/rethinkdb/RethinkDbPublisher.kt:154-166 | pair j of task i is at position 8·i + j |
| RethinkDb.TaskEntriesLayout | talaiot/src/main/kotlin/com/cdsap/talaiot/publisher/rethinkdb/RethinkDbPublisher.kt:145-168 | the task entry list is the task properties verbatim, then state, module, time, rootNode, task path, workerId, value and critical for each task in order |
| RethinkDb.GetCustomProperties | talaiot/src/main/kotlin/com/cdsap/talaiot/publisher/rethinkdb/RethinkDbPublisher.kt:170-174 | one single-entry map per task property, holding that key and value, in order |
| RethinkDb.RunSchema | talaiot/src/main/kotlin/com/cdsap/talaiot/publisher/rethinkdb/RethinkDbPublisher.kt:63-114 | one connection attempt with the configured credentials; once connected the database exists and holds exactly its old tables plus those of the batches written; no other database changes; an unreachable server leaves the store as it was apart from the recorded connection attempt |
| RethinkDb.RunBatches | talaiot/src/main/kotlin/com/cdsap/talaiot/publisher/rethinkdb/RethinkDbPublisher.kt:80-114 | the unit appends the task batch (if enabled and non-empty) then the build batch (if enabled, built and non-empty), after all earlier batches |
| RethinkDb.RunOutcome | talaiot/src/main/kotlin/com/cdsap/talaiot/publisher/rethinkdb/RethinkDbPublisher.kt:63-118 | an unreachable server ends in a refused connection, a failed build flattening ends in its error, everything else completes; the unit never rejects |
| RethinkDb.FlattenNeverEmpty | talaiot/src/main/kotlin/com/cdsap/talaiot/publisher/rethinkdb/RethinkDbPublisher.kt:99-101 | a built entry list is never empty, so the emptiness guard never skips it |
| RethinkDb.PublishBatches | talaiot/src/main/kotlin/com/cdsap/talaiot/publisher/rethinkdb/RethinkDbPublisher.kt:36-120 | an invalid configuration changes nothing; otherwise the batches written are the gated task entries and the flattened build metrics, unchanged |
| RethinkDb.PublishOutcomes | talaiot/src/main/kotlin/com/cdsap/talaiot/publisher/rethinkdb/RethinkDbPublisher.kt:36-120 | rejected exactly on an empty url, database or table name; refused exactly on an unreachable server; a build failure exactly when flattening throws, carrying its error |
| RethinkDb.RerunKeepsSchema | talaiot/src/main/kotlin/com/cdsap/talaiot/publisher/rethinkdb/RethinkDbPublisher.kt:131-143 | running again with entry lists of the same shape creates no database or table |
| RethinkDb.RepublishKeepsSchema | talaiot/src/main/kotlin/com/cdsap/talaiot/publisher/rethinkdb/RethinkDbPublisher.kt:36-143 | publishing the same report twice creates nothing the first call did not |
| RethinkDb.RethinkDbPublisher.constructor | talaiot/src/main/kotlin/com/cdsap/talaiot/publisher/rethinkdb/RethinkDbPublisher.kt:17-30 | the publisher holds its configuration and server |
| RethinkDb.RethinkDbPublisher.Publish | talaiot/src/main/kotlin/com/cdsap/talaiot/publisher/rethinkdb/RethinkDbPublisher.kt:36-120 | the server state and the outcome are exactly `PublishSpec` |
| RethinkDb.RethinkDbPublisher.Run | talaiot/src/main/kotlin/com/cdsap/talaiot/publisher/rethinkdb/RethinkDbPublisher.kt:56-119 | the server state and the outcome are exactly `RunSpec` of the task entries and the flattened report |
| RethinkDb.RethinkDbPublisher.CheckDb | talaiot/src/main/kotlin/com/cdsap/talaiot/publisher/rethinkdb/RethinkDbPublisher.kt:131-136 | the server state becomes `DbChecked` of the old one |
| RethinkDb.RethinkDbPublisher.CheckTable | talaiot/src/main/kotlin/com/cdsap/talaiot/publisher/rethinkdb/RethinkDbPublisher.kt:138-143 | the server state becomes `TableChecked` of the old one |
| RethinkDb.RethinkDbPublisher.CreateTaskEntries | talaiot/src/main/kotlin/com/cdsap/talaiot/publisher/rethinkdb/RethinkDbPublisher.kt:145-168 | returns exactly `TaskEntries(report, now)` |
| RethinkDb.RethinkDbPublisher.AddCustomProperties | talaiot/src/main/kotlin/com/cdsap/talaiot/publisher/rethinkdb/RethinkDbPublisher.kt:149-153 | flattening the single-entry maps yields the task properties as string pairs, in order |
| RethinkDb.RethinkDbPublisher.AddMapEntries | talaiot/src/main/kotlin/com/cdsap/talaiot/publisher/rethinkdb/RethinkDbPublisher.kt:150-152 | a single-entry map contributes exactly its one pair |
| RethinkDb.RethinkDbPublisher.AddTasks | talaiot/src/main/kotlin/com/cdsap/talaiot/publisher/rethinkdb/RethinkDbPublisher.kt:154-166 | appends eight pairs per task, in task order |
| RethinkDb.RethinkDbPublisher.CreateBuildEntry | talaiot/src/main/kotlin/com/cdsap/talaiot/publisher/rethinkdb/RethinkDbPublisher.kt:176-179 | returns exactly the provider's flattening of the report |
| InfluxDbConfig.RetentionPolicyConfiguration.constructor | talaiot/src/main/kotlin/com/cdsap/talaiot/configuration/InfluxDbPublisherConfiguration.kt:78-84 | a fresh policy is rpTalaiot, 30d, 30m shards, replication 2, not default |
| InfluxDbConfig.RetentionPolicyConfiguration.Apply | talaiot/src/main/kotlin/com/cdsap/talaiot/configuration/InfluxDbPublisherConfiguration.kt:78-84 | one assignment changes its field only |
| InfluxDbConfig.InfluxDbPublisherConfiguration.constructor | talaiot/src/main/kotlin/com/cdsap/talaiot/configuration/InfluxDbPublisherConfiguration.kt:21-55 | the declared defaults, with a fresh default retention policy |
| InfluxDbConfig.InfluxDbPublisherConfiguration.ConfigureRetentionPolicy | talaiot/src/main/kotlin/com/cdsap/talaiot/configuration/InfluxDbPublisherConfiguration.kt:62-64 | the policy becomes a fresh default with the block applied, whatever it was before; no other setting changes and the old policy object is untouched |
| InfluxDbConfig.BlockLastAssignmentWins | talaiot/src/main/kotlin/com/cdsap/talaiot/configuration/InfluxDbPublisherConfiguration.kt:62-64 | within a block the last assignment wins for each of the five fields (name, duration, shard duration, replication factor, default flag); a field never assigned keeps its starting value |
| Pipeline.ResolvedCustomPairRecorded | talaiot/src/main/kotlin/com/cdsap/talaiot/configuration/MetricsConfiguration.kt:161-163 | corrected behaviour (see ## Findings): a single registered custom build pair, resolved and applied, is found under its key, with keys distinct; as written it is found under its value |
| Pipeline.CustomBuildPropertyReachesBuildRow | talaiot/src/main/kotlin/com/cdsap/talaiot/metrics/MetricsProviderImpl.kt:16-18 | corrected behaviour (see ## Findings): that pair reaches the flattened build entry as a string pair under its key; as written, ("buildType", "release") reaches it as ("release", "release") |

## Left out

- The executor: the background unit runs to completion inside `Publish`, so concurrency and
  the point at which the unit is scheduled are not modelled.
- Logging through `LogTracker` is left out; it has no effect on state.
- `URL(...)` parsing into host and port, and `MalformedURLException`: the connection records
  the URL string.
- Driver failures: only an unreachable server is modelled (`FakeBackend.reachable`). Failures
  of `dbCreate`, `tableCreate` or `insert` on a live server are not.
- `System.currentTimeMillis()` is the parameter `now`, read once per publish; the source reads
  it once per task.
- The eight `list.add` calls per task are modelled as one append of the eight-pair `TaskRow`.
- The 25 `?.let` statements of `get()` are driven by a field table (`OptionalFields`) and a loop.
- `flattenBuildEnv()` is not part of this model; its result is the report field `buildEnv`.
- The metric classes themselves (their probes of the JVM, Gradle, git and the network, and
  `BuildIdMetric`'s random id) are not part of this model: metrics are constructors of `Metric`.
  Only simple custom metrics have a modelled effect on the report (`Assign`).
- `Double` values are modelled as `real`; `toDouble()` rounding is not modelled.
- LongParsing.ParseLong: digits are ASCII only; Unicode decimal digits that `toLong()` also accepts are not modelled.
- RethinkDb.IsBlank: whitespace is ASCII plus U+001C–U+001F; other Unicode spaces are not modelled.
- The Groovy `Closure` overload of `retentionPolicyConfiguration` (InfluxDbPublisherConfiguration.kt:71-75) is left out: it runs a Groovy closure through dynamic delegate dispatch, which is not modelled.
- `durationMs`, `configurationDurationMs` and task `ms` are unbounded integers; the 64-bit range is not enforced on them.
- The other publishers and the orchestrator that calls them are not part of this model.

## Findings

| source | as written | input that shows it | evidently intended | confidence | as-written member | corrected member |
|---|---|---|---|---|---|---|
| talaiot/src/main/kotlin/com/cdsap/talaiot/configuration/MetricsConfiguration.kt:228-240 | the simple metric's assigner stores the value under `pair.second`, the value itself | `customBuildMetrics("buildType" to "release")`: nothing is found under `buildType`, and `release` maps to `release` | store under `pair.first`, the key | high, not executed | MetricsConfig.AssignAsWrittenLosesKey | MetricsConfig.Assign |
