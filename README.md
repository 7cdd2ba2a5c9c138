# goruntime stats flattening, in Dafny

This project models the stats-flattening transform of telegraf's `goruntime`
input. One decoded runtime snapshot (`RuntimeData`: a serial, CPU and
percentage counts, and a Go `runtime.MemStats`) becomes a single gauge:

- a measurement name;
- a map of 32 numeric fields keyed by dotted names such as `mem.heap.alloc`;
- one `serial` tag.

The model is split into three modules:

- `GoTypes` (`go_types.dfy`): the Go integer types and conversions the transform uses.
  - `uint32`, `uint64` and `int64` as newtypes.
  - `int64(x)` of a `uint64` as a two's-complement reinterpretation.
  - `uint32` addition with wrap-around.
  - `float64` as an opaque bit pattern that is only copied.
- `Metric` (`metric.dfy`): the `Fields` struct and its operations.
  - `Fields` is a class whose fields the collectors update in place.
  - The collectors `collectGCStats` and `collectMemStats` are methods with field-granular `modifies` frames.
  - `Values` and `Tags` are functions returning maps.
  - `FieldId` and `KeyOf` hold the json tag of each field, with an inverse `FieldOfKey`.
- `Plugin` (`goruntime.dfy`): the `parse` step of the `GoRuntime` input.
  - `RuntimeData` and `DefaulMeasurement`.
  - An `Accumulator` sink that logs every `AddGauge` call.
  - `GoRuntime.Parse`, specified against `GaugeOf`, the gauge read straight off the snapshot. `GaugeOf` uses `FlatFields`, which says for each key which runtime quantity it reports and which conversion it goes through.

`parse` is split into two helper methods plus the name choice and the emit:

- `CopyIdentity` copies the serial, CPU and percentage figures.
- `NewFilledFields` creates `Fields{}` and runs both collectors.
- The name choice and the single `AddGauge` call stay in `Parse`.

`FilledFlattens` proves that a struct filled this way turns into exactly `FlatFields` and the serial tag.

## Model

| member | source | states |
|---|---|---|
| GoTypes.AddUint32 | telegraf/plugins/inputs/goruntime/metric.go:63 | `NumGC+255` in uint32: the exact sum below 2^32, otherwise the sum minus 2^32 |
| GoTypes.Int64FromUint64 | telegraf/plugins/inputs/goruntime/metric.go:59-93 | `int64(x)` of a uint64 counter: every counter below 2^63 is kept exactly, and every larger one comes out negative |
| GoTypes.Int64FromUint64Value | telegraf/plugins/inputs/goruntime/metric.go:59-62 | `int64(x)` of a uint64 keeps every x below 2^63 and maps every other x to x - 2^64 |
| GoTypes.Int64FromUint64Congruent | telegraf/plugins/inputs/goruntime/metric.go:70-93 | `int64(x)` is congruent to x modulo 2^64, and it is negative exactly when x is at least 2^63 |
| GoTypes.Int64Congruent | telegraf/plugins/inputs/goruntime/metric.go:70-93 | two int64 values congruent modulo 2^64 are equal, so the congruence pins down each converted field |
| GoTypes.Uint64FromInt64 | telegraf/plugins/inputs/goruntime/metric.go:70-93 | the inverse reading of the same 64 bits: the result is congruent to its argument modulo 2^64 |
| GoTypes.Uint64RoundTrip | telegraf/plugins/inputs/goruntime/metric.go:70-93 | the int64 conversion loses no information: reading the bits back as uint64 restores every uint64 counter |
| GoTypes.Int64RoundTrip | telegraf/plugins/inputs/goruntime/metric.go:70-93 | the conversion is onto: every int64 is the converted value of some uint64 |
| GoTypes.Int64FromUint32 | telegraf/plugins/inputs/goruntime/metric.go:64 | `int64(NumGC)` keeps the value of the uint32 count exactly |
| Metric.PauseIndex | telegraf/plugins/inputs/goruntime/metric.go:63 | the pause slot is always in [0, 256) and equals (NumGC - 1) mod 256, the slot just behind the next write position |
| Metric.PauseIndexIgnoresWrap | telegraf/plugins/inputs/goruntime/metric.go:63 | the uint32 wrap of `NumGC+255` never changes the slot, which equals the unbounded (NumGC + 255) mod 256 |
| Metric.PauseIndexExamples | telegraf/plugins/inputs/goruntime/metric.go:63 | NumGC = 0 reads slot 255, 5 reads slot 4, 256 reads slot 255, and 2^32 - 1 reads slot 254 |
| Metric.FieldGroupsCover | telegraf/plugins/inputs/goruntime/metric.go:9-51 | every numeric field is in one of four groups: set by `parse` from the snapshot, never written (NumCgoCall), written by collectMemStats, or written by collectGCStats |
| Metric.FieldGroupsExclusive | telegraf/plugins/inputs/goruntime/metric.go:9-51 | no numeric field is in two of those groups, so each field has exactly one writer or none |
| Metric.KeyOf | telegraf/plugins/inputs/goruntime/metric.go:10-51 | the json tag declared on each numeric field; it carries no contract of its own, and what it promises is stated by the three lemmas below |
| Metric.FieldOfKeyRoundTrip | telegraf/plugins/inputs/goruntime/metric.go:10-51 | looking up a field's json tag gives back that field |
| Metric.KeyOfInjective | telegraf/plugins/inputs/goruntime/metric.go:10-51 | no two fields share a json tag, so the 32 tags are distinct |
| Metric.JsonTagsAreValueKeys | telegraf/plugins/inputs/goruntime/metric.go:10-51 | the json tag of every numeric field is a key of the field map |
| Metric.ValueKeysAreJsonTags | telegraf/plugins/inputs/goruntime/metric.go:105-145 | a string is a key of the field map if and only if it is the json tag of some numeric field |
| Metric.Fields.constructor | telegraf/plugins/inputs/goruntime/goruntime.go:163 | `Fields{}`: an empty serial and every numeric field zero |
| Metric.Fields.Tags | telegraf/plugins/inputs/goruntime/metric.go:96-103 | the tag map has exactly one key, `serial`, holding the struct's serial; no OS, architecture or version tag |
| Metric.Fields.Values | telegraf/plugins/inputs/goruntime/metric.go:105-145 | the field map built from the struct; it carries no contract of its own, and its keys and entries are stated by ValuesKeysFixed and ValuesByTag |
| Metric.ValuesKeysFixed | telegraf/plugins/inputs/goruntime/metric.go:105-145 | the field map has the same key set whatever the struct holds: no key is optional or missing |
| Metric.ValuesByTag | telegraf/plugins/inputs/goruntime/metric.go:105-145 | for every numeric field, the field map holds that field's current value under the field's json tag |
| Metric.CollectGCStats | telegraf/plugins/inputs/goruntime/metric.go:58-66 | sets GCSys, NextGC, LastGC, PauseTotalNs, the pause at the most recent slot, NumGC and GCCPUFraction from the MemStats; every field outside the collectGCStats group keeps its value |
| Metric.CopyGeneral | telegraf/plugins/inputs/goruntime/metric.go:69-75 | the general block: the six allocation counters, each read as int64; nothing else changes |
| Metric.CopyHeap | telegraf/plugins/inputs/goruntime/metric.go:77-83 | the heap block: the six heap counters, each read as int64; nothing else changes |
| Metric.CopyStack | telegraf/plugins/inputs/goruntime/metric.go:85-91 | the stack block: the stack, span and cache counters, each read as int64; nothing else changes |
| Metric.CopyOtherSys | telegraf/plugins/inputs/goruntime/metric.go:93 | the last line: OtherSys read as int64; nothing else changes |
| Metric.CollectMemStats | telegraf/plugins/inputs/goruntime/metric.go:68-94 | sets exactly the 19 general, heap, stack and OtherSys fields to their MemStats counters read as int64; every field outside the collectMemStats group keeps its value, and the serial is unchanged |
| Metric.MemThenGC | telegraf/plugins/inputs/goruntime/metric.go:58-94 | collectMemStats then collectGCStats leaves all 26 MemStats-derived fields set, and nothing else changes |
| Metric.GCThenMem | telegraf/plugins/inputs/goruntime/metric.go:58-94 | collectGCStats then collectMemStats reaches the same 26 fields with the same frame |
| Metric.CollectorsCommute | telegraf/plugins/inputs/goruntime/metric.go:58-94 | on two separate structs holding equal values, running the collectors in either order leaves them equal again |
| Plugin.Accumulator.AddGauge | telegraf/plugins/inputs/goruntime/goruntime.go:178 | the sink records the gauge call after all earlier ones, unchanged |
| Plugin.MeasurementName | telegraf/plugins/inputs/goruntime/goruntime.go:174-177 | the configured measurement when it is non-empty, `goruntime_m` otherwise; never empty |
| Plugin.FlatFields | telegraf/plugins/inputs/goruntime/metric.go:105-145 | the flattened snapshot read straight off the runtime data, key by key with each conversion; it carries no contract of its own, and FilledFlattens and the Gauge lemmas state what it holds |
| Plugin.FilledFlattens | telegraf/plugins/inputs/goruntime/goruntime.go:163-178 | a struct holding what `parse` stores for a snapshot turns into exactly the flattened snapshot and the single serial tag |
| Plugin.GaugeOf | telegraf/plugins/inputs/goruntime/goruntime.go:162-180 | the gauge `parse` emits: its measurement is never empty and its only tag key is `serial` |
| Plugin.GaugeKeysFixed | telegraf/plugins/inputs/goruntime/metric.go:105-145 | the emitted field map has the same 32 keys for every snapshot |
| Plugin.GaugeCpuCounts | telegraf/plugins/inputs/goruntime/goruntime.go:165-167 | `cpu.count`, `cpu.goroutines` and `cpu.thread` equal the snapshot's CPUNum, GoRoutineNum and ThreadNum |
| Plugin.GaugePercents | telegraf/plugins/inputs/goruntime/goruntime.go:168-169 | `cpu.percent` and `mem.percent` equal the snapshot's CpuPercent and MemPercent |
| Plugin.GaugeCgoCallsZero | telegraf/plugins/inputs/goruntime/goruntime.go:163-172 | `cpu.cgo_calls` is 0 for every snapshot, since nothing assigns it after `Fields{}` |
| Plugin.GaugeMostRecentPause | telegraf/plugins/inputs/goruntime/metric.go:63 | `mem.gc.pause` is the pause stored at slot (NumGC + 255) mod 256; before any GC it is slot 255 |
| Plugin.GaugeGCCountExact | telegraf/plugins/inputs/goruntime/metric.go:64 | `mem.gc.count` is an integer equal to NumGC, never wrapped |
| Plugin.GaugeSerialTag | telegraf/plugins/inputs/goruntime/goruntime.go:164 | the `serial` tag equals the snapshot's serial verbatim, also when it is empty |
| Plugin.CopyIdentity | telegraf/plugins/inputs/goruntime/goruntime.go:164-169 | stores the serial and the five CPU and percentage figures; every field outside that group, the cgo call count included, keeps its value |
| Plugin.NewFilledFields | telegraf/plugins/inputs/goruntime/goruntime.go:163-172 | a fresh struct holding the identity figures, a zero cgo count, and everything both collectors write for the snapshot |
| Plugin.GoRuntime.constructor | telegraf/plugins/inputs/goruntime/goruntime.go:29-42 | the input keeps its configured measurement name |
| Plugin.GoRuntime.Parse | telegraf/plugins/inputs/goruntime/goruntime.go:162-180 | always returns no error, appends exactly one gauge (the chosen name, the flattened snapshot, the serial tag), and changes nothing else |

## Left out

- `Gather`, `gatherURL`, `init`, `SampleConfig` and `Description` (goruntime.go:44-160) are not modelled. They cover concurrent fan-out, HTTP requests, JSON decoding, plugin registration and constant help text. The snapshot arrives at `Parse` already decoded.
- The configuration fields other than `Measurement` are not modelled: URLs, method, credentials, TLS options, timeout and the HTTP client. `parse` does not read them.
- Error-message formatting is not modelled, since `parse` never returns an error.
- The accumulator's internals are not modelled. It is a log of `AddGauge` calls, and the timestamp telegraf attaches is not represented.
- `GCCPUFraction` is a float64. It is carried as an opaque bit pattern that is only copied. The `float64(...)` conversions at metric.go:65 and metric.go:143 are identities on a float64, and no float arithmetic is modelled.
- The `Goarch`, `Goos` and `Version` fields are not modelled. They are never set or read.
- The Go `int` fields of `RuntimeData` are kept as int64. `parse` only converts them with `int64(...)`, which is exact whatever the width of `int`, so this loses nothing `parse` does.
- The `runtime.MemStats` type itself is not part of this model. `MemStats` keeps only the fields the collectors read, with Go's types: uint64 counters, a 256-slot uint64 pause history and a uint32 `NumGC`.
- Metric.CollectMemStats: the source copies all 19 fields in one function. Here the general, heap and stack blocks are copied by three helper methods named after its comment blocks, and the final `OtherSys` line by a fourth. The resulting state is the same.
- Metric.CollectorsCommute: stated for two distinct structs that hold equal values. Aliasing one struct with itself is not covered.
- Metric.KeyOfInjective: shows the 32 tags are pairwise distinct. The cardinality of the key set is not stated as a number.
