/** The goruntime input's parse step: it flattens one decoded runtime
    snapshot into a `Fields` struct and hands the resulting gauge to the
    accumulator. */
module Plugin {
  import opened GoTypes
  import opened Metric

  /** Measurement name used when none is configured. */
  const DefaulMeasurement: string := "goruntime_m"

  /** The JSON document an endpoint serves, once decoded. The counts are
      Go `int`s; `parse` only converts them with `int64(..)`, which is exact
      whatever the width of `int`, so they are kept as int64. */
  datatype RuntimeData = RuntimeData(
    serial: string,
    cpuNum: int64,
    threadNum: int64,
    goRoutineNum: int64,
    cpuPercent: int64,
    memPercent: int64,
    memstats: MemStats)

  /** One gauge as the accumulator receives it. */
  datatype Gauge = Gauge(
    measurement: string,
    fields: map<string, Value>,
    tags: map<string, string>)

  /** The part of telegraf's accumulator that `parse` uses: it records
      every gauge it is given, in order. */
  class Accumulator {
    var gauges: seq<Gauge>

    constructor ()
      ensures gauges == []
    {
      gauges := [];
    }

    method AddGauge(measurement: string, fields: map<string, Value>, tags: map<string, string>)
      modifies this
      ensures gauges == old(gauges) + [Gauge(measurement, fields, tags)]
    {
      gauges := gauges + [Gauge(measurement, fields, tags)];
    }
  }

  /** The measurement a gauge is filed under: the configured one, or the
      default when the configured one is empty. */
  function MeasurementName(configured: string): (name: string)
    ensures name != ""
    ensures configured != "" ==> name == configured
    ensures configured == "" ==> name == DefaulMeasurement
  {
    if configured == "" then DefaulMeasurement else configured
  }

  /** The flattened snapshot, read straight off the runtime data: each key
      with the runtime quantity it reports and the conversion applied on
      the way. The cgo call count is never filled in. */
  function FlatFields(rd: RuntimeData): (r: map<string, Value>)
  {
    var m := rd.memstats;
    map[
      "cpu.count" := Int(rd.cpuNum),
      "cpu.goroutines" := Int(rd.goRoutineNum),
      "cpu.cgo_calls" := Int(0),
      "cpu.thread" := Int(rd.threadNum),

      "cpu.percent" := Int(rd.cpuPercent),
      "mem.percent" := Int(rd.memPercent),

      "mem.alloc" := Int(Int64FromUint64(m.alloc)),
      "mem.total" := Int(Int64FromUint64(m.totalAlloc)),
      "mem.sys" := Int(Int64FromUint64(m.sys)),
      "mem.lookups" := Int(Int64FromUint64(m.lookups)),
      "mem.malloc" := Int(Int64FromUint64(m.mallocs)),
      "mem.frees" := Int(Int64FromUint64(m.frees)),

      "mem.heap.alloc" := Int(Int64FromUint64(m.heapAlloc)),
      "mem.heap.sys" := Int(Int64FromUint64(m.heapSys)),
      "mem.heap.idle" := Int(Int64FromUint64(m.heapIdle)),
      "mem.heap.inuse" := Int(Int64FromUint64(m.heapInuse)),
      "mem.heap.released" := Int(Int64FromUint64(m.heapReleased)),
      "mem.heap.objects" := Int(Int64FromUint64(m.heapObjects)),

      "mem.stack.inuse" := Int(Int64FromUint64(m.stackInuse)),
      "mem.stack.sys" := Int(Int64FromUint64(m.stackSys)),
      "mem.stack.mspan_inuse" := Int(Int64FromUint64(m.mSpanInuse)),
      "mem.stack.mspan_sys" := Int(Int64FromUint64(m.mSpanSys)),
      "mem.stack.mcache_inuse" := Int(Int64FromUint64(m.mCacheInuse)),
      "mem.stack.mcache_sys" := Int(Int64FromUint64(m.mCacheSys)),
      "mem.othersys" := Int(Int64FromUint64(m.otherSys)),

      "mem.gc.sys" := Int(Int64FromUint64(m.gcSys)),
      "mem.gc.next" := Int(Int64FromUint64(m.nextGC)),
      "mem.gc.last" := Int(Int64FromUint64(m.lastGC)),
      "mem.gc.pause_total" := Int(Int64FromUint64(m.pauseTotalNs)),
      "mem.gc.pause" := Int(Int64FromUint64(m.pauseNs[PauseIndex(m.numGC)])),
      "mem.gc.count" := Int(Int64FromUint32(m.numGC)),
      "mem.gc.cpu_fraction" := Float(m.gcCpuFraction)
    ]
  }

  /** The identity and cpu part of what `parse` puts into the struct. */
  predicate CpuFilled(f: Fields, rd: RuntimeData)
    reads f`serial, f`numCpu, f`numThread, f`numGoroutine, f`numCgoCall,
      f`cpuPercent, f`memPercent
  {
    && f.serial == rd.serial
    && f.numCpu == rd.cpuNum && f.numThread == rd.threadNum
    && f.numGoroutine == rd.goRoutineNum && f.numCgoCall == 0
    && f.cpuPercent == rd.cpuPercent && f.memPercent == rd.memPercent
  }

  /** `f` holds what `parse` puts into the struct for `rd`. */
  predicate Filled(f: Fields, rd: RuntimeData)
    reads f
  {
    CpuFilled(f, rd) && MemCollected(f, rd.memstats) && GCCollected(f, rd.memstats)
  }

  /** A struct filled from `rd` turns into the flattened snapshot and the
      serial tag. */
  lemma FilledFlattens(f: Fields, rd: RuntimeData)
    requires Filled(f, rd)
    ensures f.Values() == FlatFields(rd)
    ensures f.Tags() == map["serial" := rd.serial]
  {
  }

  /** The gauge `parse` emits for a snapshot under a configured
      measurement: never filed under an empty name, and tagged with the
      serial only. */
  function GaugeOf(configured: string, rd: RuntimeData): (r: Gauge)
    ensures r.measurement != ""
    ensures r.tags.Keys == {"serial"}
  {
    Gauge(MeasurementName(configured), FlatFields(rd), map["serial" := rd.serial])
  }

  /** Whatever the snapshot, the gauge carries the same 32 field keys. */
  lemma GaugeKeysFixed(configured: string, rd: RuntimeData)
    ensures GaugeOf(configured, rd).fields.Keys == ValueKeys
  {
  }

  /** The cpu counts reach the gauge unchanged. */
  lemma GaugeCpuCounts(configured: string, rd: RuntimeData)
    ensures GaugeOf(configured, rd).fields["cpu.count"] == Int(rd.cpuNum)
    ensures GaugeOf(configured, rd).fields["cpu.goroutines"] == Int(rd.goRoutineNum)
    ensures GaugeOf(configured, rd).fields["cpu.thread"] == Int(rd.threadNum)
  {
  }

  /** The cpu and memory percentages reach the gauge unchanged. */
  lemma GaugePercents(configured: string, rd: RuntimeData)
    ensures GaugeOf(configured, rd).fields["cpu.percent"] == Int(rd.cpuPercent)
    ensures GaugeOf(configured, rd).fields["mem.percent"] == Int(rd.memPercent)
  {
  }

  /** Nothing fills in the cgo call count, so it is reported as 0 for
      every snapshot. */
  lemma GaugeCgoCallsZero(configured: string, rd: RuntimeData)
    ensures GaugeOf(configured, rd).fields["cpu.cgo_calls"] == Int(0)
  {
  }

  /** The reported pause is the ring-buffer slot (NumGC + 255) mod 256,
      the one holding the most recent pause; before the first collection
      that is slot 255. */
  lemma GaugeMostRecentPause(configured: string, rd: RuntimeData)
    ensures GaugeOf(configured, rd).fields["mem.gc.pause"]
      == Int(Int64FromUint64(rd.memstats.pauseNs[(rd.memstats.numGC as int + 255) % 256]))
    ensures rd.memstats.numGC == 0 ==>
      GaugeOf(configured, rd).fields["mem.gc.pause"] == Int(Int64FromUint64(rd.memstats.pauseNs[255]))
  {
  }

  /** The collection count is reported exactly, never wrapped. */
  lemma GaugeGCCountExact(configured: string, rd: RuntimeData)
    ensures GaugeOf(configured, rd).fields["mem.gc.count"].Int?
    ensures GaugeOf(configured, rd).fields["mem.gc.count"].i as int == rd.memstats.numGC as int
  {
  }

  /** The serial tag is passed through verbatim (also when it is empty). */
  lemma GaugeSerialTag(configured: string, rd: RuntimeData)
    ensures GaugeOf(configured, rd).tags["serial"] == rd.serial
  {
  }

  /** The serial and cpu figures `parse` copies straight from the
      snapshot; the cgo call count is left as it was. */
  method CopyIdentity(fields: Fields, rd: RuntimeData)
    modifies fields`serial, fields`numCpu, fields`numGoroutine, fields`numThread,
      fields`cpuPercent, fields`memPercent
    ensures fields.serial == rd.serial
    ensures fields.numCpu == rd.cpuNum && fields.numThread == rd.threadNum
    ensures fields.numGoroutine == rd.goRoutineNum
    ensures fields.cpuPercent == rd.cpuPercent && fields.memPercent == rd.memPercent
    ensures forall id :: id !in IdentityFields ==> fields.Get(id) == old(fields.Get(id))
  {
    fields.serial := rd.serial;
    fields.numCpu := rd.cpuNum;
    fields.numGoroutine := rd.goRoutineNum;
    fields.numThread := rd.threadNum;
    fields.cpuPercent := rd.cpuPercent;
    fields.memPercent := rd.memPercent;
    OutsideIdentityUnchanged(fields);
  }

  /** The first half of `parse`: a zero `Fields`, the serial and cpu
      figures copied in, then both collectors run over the memory
      statistics. */
  method NewFilledFields(rd: RuntimeData) returns (fields: Fields)
    ensures fresh(fields)
    ensures Filled(fields, rd)
  {
    fields := new Fields();
    assert fields.Get(NumCgoCall) == Int(0);
    CopyIdentity(fields, rd);
    CollectMemStats(fields, rd.memstats);
    CollectGCStats(fields, rd.memstats);
  }

  /** The goruntime input; only the configured measurement name matters to
      `parse`. */
  class GoRuntime {
    var measurement: string

    constructor (measurement: string)
      ensures this.measurement == measurement
    {
      this.measurement := measurement;
    }

    /** parse: fills a fresh `Fields` from the snapshot, runs both
        collectors, and adds exactly one gauge. It never fails. */
    method Parse(rd: RuntimeData, acc: Accumulator) returns (err: Option<string>)
      modifies acc
      ensures err == None
      ensures acc.gauges == old(acc.gauges) + [GaugeOf(measurement, rd)]
    {
      var fields := NewFilledFields(rd);

      var name := measurement;
      if name == "" {
        name := DefaulMeasurement;
      }
      assert Filled(fields, rd);
      FilledFlattens(fields, rd);
      acc.AddGauge(name, fields.Values(), fields.Tags());
      return None;
    }
  }
}
