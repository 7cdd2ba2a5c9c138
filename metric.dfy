/** The flat measurement record of the goruntime input: the `Fields`
    struct, the two collectors that copy a runtime.MemStats into it, and
    its conversion to a field map and a tag map. */
module Metric {
  import opened GoTypes

  /** The 256-slot circular history of GC pause durations, in nanoseconds. */
  type PauseHistory = s: seq<uint64> | |s| == 256 witness seq(256, _ => 0)

  /** The part of Go's runtime.MemStats that the collectors read. */
  datatype MemStats = MemStats(
    // General
    alloc: uint64, totalAlloc: uint64, sys: uint64,
    lookups: uint64, mallocs: uint64, frees: uint64,
    // Heap
    heapAlloc: uint64, heapSys: uint64, heapIdle: uint64,
    heapInuse: uint64, heapReleased: uint64, heapObjects: uint64,
    // Stack, span and cache
    stackInuse: uint64, stackSys: uint64, mSpanInuse: uint64,
    mSpanSys: uint64, mCacheInuse: uint64, mCacheSys: uint64,
    gcSys: uint64, otherSys: uint64,
    // GC
    nextGC: uint64, lastGC: uint64, pauseTotalNs: uint64,
    pauseNs: PauseHistory, numGC: uint32, gcCpuFraction: Float64)

  /** Slot of the most recent pause in `pauseNs`: `(NumGC+255)%256`, computed
      in uint32 arithmetic. It is the slot just behind the next write slot
      `NumGC % 256`; with no GC yet it is slot 255. */
  function PauseIndex(numGC: uint32): (i: uint32)
    ensures i < 256
    ensures i as int == (numGC as int - 1) % 256
  {
    AddUint32(numGC, 255) % 256
  }

  /** The wrap-around of `NumGC+255` in uint32 never changes the slot,
      because 256 divides 2^32. */
  lemma PauseIndexIgnoresWrap(numGC: uint32)
    ensures PauseIndex(numGC) as int == (numGC as int + 255) % 256
  {
  }

  /** The first pause, a few collections in, and the uint32 edges. */
  lemma PauseIndexExamples()
    ensures PauseIndex(0) == 255
    ensures PauseIndex(5) == 4
    ensures PauseIndex(256) == 255
    ensures PauseIndex(0xFFFF_FFFF) == 254
  {
  }

  /** The numeric fields of the `Fields` struct, in declaration order. */
  datatype FieldId =
    | NumCpu | NumThread | NumGoroutine | NumCgoCall
    | CpuPercent | MemPercent
    | Alloc | TotalAlloc | Sys | Lookups | Mallocs | Frees
    | HeapAlloc | HeapSys | HeapIdle | HeapInuse | HeapReleased | HeapObjects
    | StackInuse | StackSys | MSpanInuse | MSpanSys | MCacheInuse | MCacheSys
    | OtherSys
    | GCSys | NextGC | LastGC | PauseTotalNs | PauseNs | NumGC | GCCPUFraction

  /** The json tag declared on each field of the struct. */
  function KeyOf(id: FieldId): (r: string)
  {
    match id
    case NumCpu => "cpu.count"
    case NumThread => "cpu.thread"
    case NumGoroutine => "cpu.goroutines"
    case NumCgoCall => "cpu.cgo_calls"
    case CpuPercent => "cpu.percent"
    case MemPercent => "mem.percent"
    case Alloc => "mem.alloc"
    case TotalAlloc => "mem.total"
    case Sys => "mem.sys"
    case Lookups => "mem.lookups"
    case Mallocs => "mem.malloc"
    case Frees => "mem.frees"
    case HeapAlloc => "mem.heap.alloc"
    case HeapSys => "mem.heap.sys"
    case HeapIdle => "mem.heap.idle"
    case HeapInuse => "mem.heap.inuse"
    case HeapReleased => "mem.heap.released"
    case HeapObjects => "mem.heap.objects"
    case StackInuse => "mem.stack.inuse"
    case StackSys => "mem.stack.sys"
    case MSpanInuse => "mem.stack.mspan_inuse"
    case MSpanSys => "mem.stack.mspan_sys"
    case MCacheInuse => "mem.stack.mcache_inuse"
    case MCacheSys => "mem.stack.mcache_sys"
    case OtherSys => "mem.othersys"
    case GCSys => "mem.gc.sys"
    case NextGC => "mem.gc.next"
    case LastGC => "mem.gc.last"
    case PauseTotalNs => "mem.gc.pause_total"
    case PauseNs => "mem.gc.pause"
    case NumGC => "mem.gc.count"
    case GCCPUFraction => "mem.gc.cpu_fraction"
  }

  /** The fields `parse` sets from the runtime data itself. */
  const IdentityFields: set<FieldId> := {NumCpu, NumThread, NumGoroutine, CpuPercent, MemPercent}

  /** The field nothing writes: it keeps the zero of `Fields{}`. */
  const UnwrittenFields: set<FieldId> := {NumCgoCall}

  /** The fields of the "General", "Heap" and "Stack" blocks of
      collectMemStats; OtherSys follows the blocks on its own. */
  const GeneralFields: set<FieldId> := {Alloc, TotalAlloc, Sys, Lookups, Mallocs, Frees}
  const HeapFields: set<FieldId> :=
    {HeapAlloc, HeapSys, HeapIdle, HeapInuse, HeapReleased, HeapObjects}
  const StackFields: set<FieldId> :=
    {StackInuse, StackSys, MSpanInuse, MSpanSys, MCacheInuse, MCacheSys}

  /** The fields collectMemStats writes. */
  const MemStatsFields: set<FieldId> := GeneralFields + HeapFields + StackFields + {OtherSys}

  /** The fields collectGCStats writes. */
  const GCStatsFields: set<FieldId> :=
    {GCSys, NextGC, LastGC, PauseTotalNs, PauseNs, NumGC, GCCPUFraction}

  /** The keys of the field map, block by block as the map literal lists them. */
  const CpuKeys: set<string> := {
    "cpu.count", "cpu.goroutines", "cpu.cgo_calls", "cpu.thread",
    "cpu.percent", "mem.percent"}
  const GeneralKeys: set<string> := {
    "mem.alloc", "mem.total", "mem.sys", "mem.lookups", "mem.malloc", "mem.frees"}
  const HeapKeys: set<string> := {
    "mem.heap.alloc", "mem.heap.sys", "mem.heap.idle", "mem.heap.inuse",
    "mem.heap.released", "mem.heap.objects"}
  const StackKeys: set<string> := {
    "mem.stack.inuse", "mem.stack.sys", "mem.stack.mspan_inuse", "mem.stack.mspan_sys",
    "mem.stack.mcache_inuse", "mem.stack.mcache_sys", "mem.othersys"}
  const GCKeys: set<string> := {
    "mem.gc.sys", "mem.gc.next", "mem.gc.last", "mem.gc.pause_total", "mem.gc.pause",
    "mem.gc.count", "mem.gc.cpu_fraction"}

  /** The keys of every field map. */
  const ValueKeys: set<string> := CpuKeys + GeneralKeys + HeapKeys + StackKeys + GCKeys

  /** A value of the field map: Go's int64 or float64 behind an interface{}. */
  datatype Value = Int(i: int64) | Float(f: Float64)

  /** The zero value of a field, as in a fresh `Fields{}`. */
  function ZeroValue(id: FieldId): Value
  {
    if id == GCCPUFraction then Float(ZeroFloat) else Int(0)
  }

  /** Every field is in one of the groups: set by `parse`, never written,
      written by collectMemStats, written by collectGCStats. */
  lemma FieldGroupsCover(id: FieldId)
    ensures id in IdentityFields || id in UnwrittenFields || id in MemStatsFields
      || id in GCStatsFields
  {
  }

  /** No field is in two of the groups. */
  lemma FieldGroupsExclusive(id: FieldId)
    ensures id in IdentityFields ==>
      id !in UnwrittenFields && id !in MemStatsFields && id !in GCStatsFields
    ensures id in UnwrittenFields ==> id !in MemStatsFields && id !in GCStatsFields
    ensures id in MemStatsFields ==> id !in GCStatsFields
  {
  }

  /** The json tag of every field is a key of the field map. */
  lemma JsonTagsAreValueKeys(id: FieldId)
    ensures KeyOf(id) in ValueKeys
  {
  }

  /** The field a json tag names, if any: the inverse of KeyOf. */
  function FieldOfKey(k: string): (r: Option<FieldId>)
  {
    match k
    case "cpu.count" => Some(NumCpu)
    case "cpu.thread" => Some(NumThread)
    case "cpu.goroutines" => Some(NumGoroutine)
    case "cpu.cgo_calls" => Some(NumCgoCall)
    case "cpu.percent" => Some(CpuPercent)
    case "mem.percent" => Some(MemPercent)
    case "mem.alloc" => Some(Alloc)
    case "mem.total" => Some(TotalAlloc)
    case "mem.sys" => Some(Sys)
    case "mem.lookups" => Some(Lookups)
    case "mem.malloc" => Some(Mallocs)
    case "mem.frees" => Some(Frees)
    case "mem.heap.alloc" => Some(HeapAlloc)
    case "mem.heap.sys" => Some(HeapSys)
    case "mem.heap.idle" => Some(HeapIdle)
    case "mem.heap.inuse" => Some(HeapInuse)
    case "mem.heap.released" => Some(HeapReleased)
    case "mem.heap.objects" => Some(HeapObjects)
    case "mem.stack.inuse" => Some(StackInuse)
    case "mem.stack.sys" => Some(StackSys)
    case "mem.stack.mspan_inuse" => Some(MSpanInuse)
    case "mem.stack.mspan_sys" => Some(MSpanSys)
    case "mem.stack.mcache_inuse" => Some(MCacheInuse)
    case "mem.stack.mcache_sys" => Some(MCacheSys)
    case "mem.othersys" => Some(OtherSys)
    case "mem.gc.sys" => Some(GCSys)
    case "mem.gc.next" => Some(NextGC)
    case "mem.gc.last" => Some(LastGC)
    case "mem.gc.pause_total" => Some(PauseTotalNs)
    case "mem.gc.pause" => Some(PauseNs)
    case "mem.gc.count" => Some(NumGC)
    case "mem.gc.cpu_fraction" => Some(GCCPUFraction)
    case _ => None
  }

  // The round trip below, one block of fields at a time.

  lemma CpuTagsRoundTrip(id: FieldId)
    requires id in IdentityFields || id in UnwrittenFields
    ensures FieldOfKey(KeyOf(id)) == Some(id)
  {
  }

  lemma GeneralTagsRoundTrip(id: FieldId)
    requires id in GeneralFields
    ensures FieldOfKey(KeyOf(id)) == Some(id)
  {
  }

  lemma HeapTagsRoundTrip(id: FieldId)
    requires id in HeapFields
    ensures FieldOfKey(KeyOf(id)) == Some(id)
  {
  }

  lemma StackSpanTagsRoundTrip(id: FieldId)
    requires id in {StackInuse, StackSys, MSpanInuse, MSpanSys}
    ensures FieldOfKey(KeyOf(id)) == Some(id)
  {
  }

  lemma CacheOtherTagsRoundTrip(id: FieldId)
    requires id in {MCacheInuse, MCacheSys, OtherSys}
    ensures FieldOfKey(KeyOf(id)) == Some(id)
  {
  }

  lemma GCCounterTagsRoundTrip(id: FieldId)
    requires id in {GCSys, NextGC, LastGC, PauseTotalNs}
    ensures FieldOfKey(KeyOf(id)) == Some(id)
  {
  }

  lemma GCPauseTagsRoundTrip(id: FieldId)
    requires id in {PauseNs, NumGC, GCCPUFraction}
    ensures FieldOfKey(KeyOf(id)) == Some(id)
  {
  }

  /** Looking up a field's own tag gives back the field. */
  lemma FieldOfKeyRoundTrip(id: FieldId)
    ensures FieldOfKey(KeyOf(id)) == Some(id)
  {
    FieldGroupsCover(id);
    if id in IdentityFields || id in UnwrittenFields {
      CpuTagsRoundTrip(id);
    } else if id in GeneralFields {
      GeneralTagsRoundTrip(id);
    } else if id in HeapFields {
      HeapTagsRoundTrip(id);
    } else if id in {StackInuse, StackSys, MSpanInuse, MSpanSys} {
      StackSpanTagsRoundTrip(id);
    } else if id in {MCacheInuse, MCacheSys, OtherSys} {
      CacheOtherTagsRoundTrip(id);
    } else if id in {GCSys, NextGC, LastGC, PauseTotalNs} {
      GCCounterTagsRoundTrip(id);
    } else {
      GCPauseTagsRoundTrip(id);
    }
  }

  /** No two fields share a json tag. */
  lemma KeyOfInjective(a: FieldId, b: FieldId)
    ensures KeyOf(a) == KeyOf(b) ==> a == b
  {
    FieldOfKeyRoundTrip(a);
    FieldOfKeyRoundTrip(b);
  }

  // Each key of the field map is some field's tag, one block at a time.

  lemma CpuKeysAreTags(k: string)
    requires k in CpuKeys
    ensures exists id :: KeyOf(id) == k
  {
    if k == "cpu.count" {
      assert KeyOf(NumCpu) == k;
    } else if k == "cpu.goroutines" {
      assert KeyOf(NumGoroutine) == k;
    } else if k == "cpu.cgo_calls" {
      assert KeyOf(NumCgoCall) == k;
    } else if k == "cpu.thread" {
      assert KeyOf(NumThread) == k;
    } else if k == "cpu.percent" {
      assert KeyOf(CpuPercent) == k;
    } else {
      assert KeyOf(MemPercent) == k;
    }
  }

  lemma GeneralKeysAreTags(k: string)
    requires k in GeneralKeys
    ensures exists id :: KeyOf(id) == k
  {
    if k == "mem.alloc" {
      assert KeyOf(Alloc) == k;
    } else if k == "mem.total" {
      assert KeyOf(TotalAlloc) == k;
    } else if k == "mem.sys" {
      assert KeyOf(Sys) == k;
    } else if k == "mem.lookups" {
      assert KeyOf(Lookups) == k;
    } else if k == "mem.malloc" {
      assert KeyOf(Mallocs) == k;
    } else {
      assert KeyOf(Frees) == k;
    }
  }

  lemma HeapKeysAreTags(k: string)
    requires k in HeapKeys
    ensures exists id :: KeyOf(id) == k
  {
    if k == "mem.heap.alloc" {
      assert KeyOf(HeapAlloc) == k;
    } else if k == "mem.heap.sys" {
      assert KeyOf(HeapSys) == k;
    } else if k == "mem.heap.idle" {
      assert KeyOf(HeapIdle) == k;
    } else if k == "mem.heap.inuse" {
      assert KeyOf(HeapInuse) == k;
    } else if k == "mem.heap.released" {
      assert KeyOf(HeapReleased) == k;
    } else {
      assert KeyOf(HeapObjects) == k;
    }
  }

  lemma StackKeysAreTags(k: string)
    requires k in StackKeys
    ensures exists id :: KeyOf(id) == k
  {
    if k == "mem.stack.inuse" {
      assert KeyOf(StackInuse) == k;
    } else if k == "mem.stack.sys" {
      assert KeyOf(StackSys) == k;
    } else if k == "mem.stack.mspan_inuse" {
      assert KeyOf(MSpanInuse) == k;
    } else if k == "mem.stack.mspan_sys" {
      assert KeyOf(MSpanSys) == k;
    } else if k == "mem.stack.mcache_inuse" {
      assert KeyOf(MCacheInuse) == k;
    } else if k == "mem.stack.mcache_sys" {
      assert KeyOf(MCacheSys) == k;
    } else {
      assert KeyOf(OtherSys) == k;
    }
  }

  lemma GCKeysAreTags(k: string)
    requires k in GCKeys
    ensures exists id :: KeyOf(id) == k
  {
    if k == "mem.gc.sys" {
      assert KeyOf(GCSys) == k;
    } else if k == "mem.gc.next" {
      assert KeyOf(NextGC) == k;
    } else if k == "mem.gc.last" {
      assert KeyOf(LastGC) == k;
    } else if k == "mem.gc.pause_total" {
      assert KeyOf(PauseTotalNs) == k;
    } else if k == "mem.gc.pause" {
      assert KeyOf(PauseNs) == k;
    } else if k == "mem.gc.count" {
      assert KeyOf(NumGC) == k;
    } else {
      assert KeyOf(GCCPUFraction) == k;
    }
  }

  /** The keys of the field map are exactly the json tags of the numeric
      fields. */
  lemma ValueKeysAreJsonTags(k: string)
    ensures k in ValueKeys <==> exists id :: KeyOf(id) == k
  {
    if k in CpuKeys {
      CpuKeysAreTags(k);
    } else if k in GeneralKeys {
      GeneralKeysAreTags(k);
    } else if k in HeapKeys {
      HeapKeysAreTags(k);
    } else if k in StackKeys {
      StackKeysAreTags(k);
    } else if k in GCKeys {
      GCKeysAreTags(k);
    }
    if exists id :: KeyOf(id) == k {
      var id :| KeyOf(id) == k;
      JsonTagsAreValueKeys(id);
    }
  }

  /** The `Fields` struct that `parse` fills and turns into a gauge. */
  class Fields {
    var serial: string

    // CPU
    var numCpu: int64
    var numThread: int64
    var numGoroutine: int64
    var numCgoCall: int64
    var cpuPercent: int64
    var memPercent: int64

    // General
    var alloc: int64
    var totalAlloc: int64
    var sys: int64
    var lookups: int64
    var mallocs: int64
    var frees: int64

    // Heap
    var heapAlloc: int64
    var heapSys: int64
    var heapIdle: int64
    var heapInuse: int64
    var heapReleased: int64
    var heapObjects: int64

    // Stack
    var stackInuse: int64
    var stackSys: int64
    var mSpanInuse: int64
    var mSpanSys: int64
    var mCacheInuse: int64
    var mCacheSys: int64

    var otherSys: int64

    // GC
    var gcSys: int64
    var nextGC: int64
    var lastGC: int64
    var pauseTotalNs: int64
    var pauseNs: int64
    var numGC: int64
    var gcCpuFraction: Float64

    /** `Fields{}`: the empty serial and every number zero. */
    constructor ()
      ensures serial == ""
      ensures forall id :: Get(id) == ZeroValue(id)
    {
      serial := "";
      numCpu, numThread, numGoroutine, numCgoCall := 0, 0, 0, 0;
      cpuPercent, memPercent := 0, 0;
      alloc, totalAlloc, sys, lookups, mallocs, frees := 0, 0, 0, 0, 0, 0;
      heapAlloc, heapSys, heapIdle, heapInuse, heapReleased, heapObjects := 0, 0, 0, 0, 0, 0;
      stackInuse, stackSys, mSpanInuse, mSpanSys, mCacheInuse, mCacheSys := 0, 0, 0, 0, 0, 0;
      otherSys := 0;
      gcSys, nextGC, lastGC, pauseTotalNs, pauseNs, numGC := 0, 0, 0, 0, 0, 0;
      gcCpuFraction := ZeroFloat;
    }

    /** The current value of one numeric field. */
    function Get(id: FieldId): (r: Value)
      reads this
    {
      match id
      case NumCpu => Int(numCpu)
      case NumThread => Int(numThread)
      case NumGoroutine => Int(numGoroutine)
      case NumCgoCall => Int(numCgoCall)
      case CpuPercent => Int(cpuPercent)
      case MemPercent => Int(memPercent)
      case Alloc => Int(alloc)
      case TotalAlloc => Int(totalAlloc)
      case Sys => Int(sys)
      case Lookups => Int(lookups)
      case Mallocs => Int(mallocs)
      case Frees => Int(frees)
      case HeapAlloc => Int(heapAlloc)
      case HeapSys => Int(heapSys)
      case HeapIdle => Int(heapIdle)
      case HeapInuse => Int(heapInuse)
      case HeapReleased => Int(heapReleased)
      case HeapObjects => Int(heapObjects)
      case StackInuse => Int(stackInuse)
      case StackSys => Int(stackSys)
      case MSpanInuse => Int(mSpanInuse)
      case MSpanSys => Int(mSpanSys)
      case MCacheInuse => Int(mCacheInuse)
      case MCacheSys => Int(mCacheSys)
      case OtherSys => Int(otherSys)
      case GCSys => Int(gcSys)
      case NextGC => Int(nextGC)
      case LastGC => Int(lastGC)
      case PauseTotalNs => Int(pauseTotalNs)
      case PauseNs => Int(pauseNs)
      case NumGC => Int(numGC)
      case GCCPUFraction => Float(gcCpuFraction)
    }

    /** The tag map: only the serial; the OS, architecture and version tags
        are not emitted. */
    function Tags(): (r: map<string, string>)
      reads this
      ensures r.Keys == {"serial"}
      ensures r["serial"] == serial
    {
      map["serial" := serial]
    }

    /** The field map. */
    function Values(): (r: map<string, Value>)
      reads this
    {
      map[
        "cpu.count" := Int(numCpu),
        "cpu.goroutines" := Int(numGoroutine),
        "cpu.cgo_calls" := Int(numCgoCall),
        "cpu.thread" := Int(numThread),

        "cpu.percent" := Int(cpuPercent),
        "mem.percent" := Int(memPercent),

        "mem.alloc" := Int(alloc),
        "mem.total" := Int(totalAlloc),
        "mem.sys" := Int(sys),
        "mem.lookups" := Int(lookups),
        "mem.malloc" := Int(mallocs),
        "mem.frees" := Int(frees),

        "mem.heap.alloc" := Int(heapAlloc),
        "mem.heap.sys" := Int(heapSys),
        "mem.heap.idle" := Int(heapIdle),
        "mem.heap.inuse" := Int(heapInuse),
        "mem.heap.released" := Int(heapReleased),
        "mem.heap.objects" := Int(heapObjects),

        "mem.stack.inuse" := Int(stackInuse),
        "mem.stack.sys" := Int(stackSys),
        "mem.stack.mspan_inuse" := Int(mSpanInuse),
        "mem.stack.mspan_sys" := Int(mSpanSys),
        "mem.stack.mcache_inuse" := Int(mCacheInuse),
        "mem.stack.mcache_sys" := Int(mCacheSys),
        "mem.othersys" := Int(otherSys),

        "mem.gc.sys" := Int(gcSys),
        "mem.gc.next" := Int(nextGC),
        "mem.gc.last" := Int(lastGC),
        "mem.gc.pause_total" := Int(pauseTotalNs),
        "mem.gc.pause" := Int(pauseNs),
        "mem.gc.count" := Int(numGC),
        "mem.gc.cpu_fraction" := Float(gcCpuFraction)
      ]
    }
  }

  /** The field map always has the same 32 keys, whatever the fields hold. */
  lemma ValuesKeysFixed(f: Fields)
    ensures f.Values().Keys == ValueKeys
  {
  }

  // The field map entry of each tag, two fields at a time.

  lemma CpuThreadByTag(f: Fields, id: FieldId)
    requires id == NumCpu || id == NumThread
    ensures KeyOf(id) in f.Values() && f.Values()[KeyOf(id)] == f.Get(id)
  {
    match id
    case NumCpu =>
    case NumThread =>
  }

  lemma GoroutineCgoByTag(f: Fields, id: FieldId)
    requires id == NumGoroutine || id == NumCgoCall
    ensures KeyOf(id) in f.Values() && f.Values()[KeyOf(id)] == f.Get(id)
  {
    match id
    case NumGoroutine =>
    case NumCgoCall =>
  }

  lemma PercentsByTag(f: Fields, id: FieldId)
    requires id == CpuPercent || id == MemPercent
    ensures KeyOf(id) in f.Values() && f.Values()[KeyOf(id)] == f.Get(id)
  {
    match id
    case CpuPercent =>
    case MemPercent =>
  }

  lemma AllocByTag(f: Fields, id: FieldId)
    requires id == Alloc || id == TotalAlloc
    ensures KeyOf(id) in f.Values() && f.Values()[KeyOf(id)] == f.Get(id)
  {
    match id
    case Alloc =>
    case TotalAlloc =>
  }

  lemma SysLookupsByTag(f: Fields, id: FieldId)
    requires id == Sys || id == Lookups
    ensures KeyOf(id) in f.Values() && f.Values()[KeyOf(id)] == f.Get(id)
  {
    match id
    case Sys =>
    case Lookups =>
  }

  lemma MallocsFreesByTag(f: Fields, id: FieldId)
    requires id == Mallocs || id == Frees
    ensures KeyOf(id) in f.Values() && f.Values()[KeyOf(id)] == f.Get(id)
  {
    match id
    case Mallocs =>
    case Frees =>
  }

  lemma HeapSizeByTag(f: Fields, id: FieldId)
    requires id == HeapAlloc || id == HeapSys
    ensures KeyOf(id) in f.Values() && f.Values()[KeyOf(id)] == f.Get(id)
  {
    match id
    case HeapAlloc =>
    case HeapSys =>
  }

  lemma HeapIdleInuseByTag(f: Fields, id: FieldId)
    requires id == HeapIdle || id == HeapInuse
    ensures KeyOf(id) in f.Values() && f.Values()[KeyOf(id)] == f.Get(id)
  {
    match id
    case HeapIdle =>
    case HeapInuse =>
  }

  lemma HeapReleasedObjectsByTag(f: Fields, id: FieldId)
    requires id == HeapReleased || id == HeapObjects
    ensures KeyOf(id) in f.Values() && f.Values()[KeyOf(id)] == f.Get(id)
  {
    match id
    case HeapReleased =>
    case HeapObjects =>
  }

  lemma StackByTag(f: Fields, id: FieldId)
    requires id == StackInuse || id == StackSys
    ensures KeyOf(id) in f.Values() && f.Values()[KeyOf(id)] == f.Get(id)
  {
    match id
    case StackInuse =>
    case StackSys =>
  }

  lemma SpanByTag(f: Fields, id: FieldId)
    requires id == MSpanInuse || id == MSpanSys
    ensures KeyOf(id) in f.Values() && f.Values()[KeyOf(id)] == f.Get(id)
  {
    match id
    case MSpanInuse =>
    case MSpanSys =>
  }

  lemma CacheByTag(f: Fields, id: FieldId)
    requires id == MCacheInuse || id == MCacheSys
    ensures KeyOf(id) in f.Values() && f.Values()[KeyOf(id)] == f.Get(id)
  {
    match id
    case MCacheInuse =>
    case MCacheSys =>
  }

  lemma OtherGCSysByTag(f: Fields, id: FieldId)
    requires id == OtherSys || id == GCSys
    ensures KeyOf(id) in f.Values() && f.Values()[KeyOf(id)] == f.Get(id)
  {
    match id
    case OtherSys =>
    case GCSys =>
  }

  lemma GCTimesByTag(f: Fields, id: FieldId)
    requires id == NextGC || id == LastGC
    ensures KeyOf(id) in f.Values() && f.Values()[KeyOf(id)] == f.Get(id)
  {
    match id
    case NextGC =>
    case LastGC =>
  }

  lemma PausesByTag(f: Fields, id: FieldId)
    requires id == PauseTotalNs || id == PauseNs
    ensures KeyOf(id) in f.Values() && f.Values()[KeyOf(id)] == f.Get(id)
  {
    match id
    case PauseTotalNs =>
    case PauseNs =>
  }

  lemma GCCountFractionByTag(f: Fields, id: FieldId)
    requires id == NumGC || id == GCCPUFraction
    ensures KeyOf(id) in f.Values() && f.Values()[KeyOf(id)] == f.Get(id)
  {
    match id
    case NumGC =>
    case GCCPUFraction =>
  }

  /** The field map files every numeric field under its json tag: the
      entry for a field's tag is that field's current value. */
  lemma ValuesByTag(f: Fields, id: FieldId)
    ensures KeyOf(id) in f.Values() && f.Values()[KeyOf(id)] == f.Get(id)
  {
    if id == NumCpu || id == NumThread {
      CpuThreadByTag(f, id);
    } else if id == NumGoroutine || id == NumCgoCall {
      GoroutineCgoByTag(f, id);
    } else if id == CpuPercent || id == MemPercent {
      PercentsByTag(f, id);
    } else if id == Alloc || id == TotalAlloc {
      AllocByTag(f, id);
    } else if id == Sys || id == Lookups {
      SysLookupsByTag(f, id);
    } else if id == Mallocs || id == Frees {
      MallocsFreesByTag(f, id);
    } else if id == HeapAlloc || id == HeapSys {
      HeapSizeByTag(f, id);
    } else if id == HeapIdle || id == HeapInuse {
      HeapIdleInuseByTag(f, id);
    } else if id == HeapReleased || id == HeapObjects {
      HeapReleasedObjectsByTag(f, id);
    } else if id == StackInuse || id == StackSys {
      StackByTag(f, id);
    } else if id == MSpanInuse || id == MSpanSys {
      SpanByTag(f, id);
    } else if id == MCacheInuse || id == MCacheSys {
      CacheByTag(f, id);
    } else if id == OtherSys || id == GCSys {
      OtherGCSysByTag(f, id);
    } else if id == NextGC || id == LastGC {
      GCTimesByTag(f, id);
    } else if id == PauseTotalNs || id == PauseNs {
      PausesByTag(f, id);
    } else {
      GCCountFractionByTag(f, id);
    }
  }

  /** A write to the fields of one group leaves the value of every field
      outside it as it was: the frames of the collectors below, stated on
      field values. */
  twostate lemma OutsideMemStatsUnchanged(f: Fields)
    requires unchanged(
      f`numCpu, f`numThread, f`numGoroutine, f`numCgoCall, f`cpuPercent, f`memPercent,
      f`gcSys, f`nextGC, f`lastGC, f`pauseTotalNs, f`pauseNs, f`numGC, f`gcCpuFraction)
    ensures forall id :: id !in MemStatsFields ==> f.Get(id) == old(f.Get(id))
  {
  }

  twostate lemma OutsideGCStatsUnchanged(f: Fields)
    requires unchanged(
      f`numCpu, f`numThread, f`numGoroutine, f`numCgoCall, f`cpuPercent, f`memPercent,
      f`alloc, f`totalAlloc, f`sys, f`lookups, f`mallocs, f`frees, f`heapAlloc,
      f`heapSys, f`heapIdle, f`heapInuse, f`heapReleased, f`heapObjects, f`stackInuse,
      f`stackSys, f`mSpanInuse, f`mSpanSys, f`mCacheInuse, f`mCacheSys, f`otherSys)
    ensures forall id :: id !in GCStatsFields ==> f.Get(id) == old(f.Get(id))
  {
  }

  twostate lemma OutsideIdentityUnchanged(f: Fields)
    requires unchanged(
      f`numCgoCall, f`alloc, f`totalAlloc, f`sys, f`lookups, f`mallocs, f`frees,
      f`heapAlloc, f`heapSys, f`heapIdle, f`heapInuse, f`heapReleased, f`heapObjects,
      f`stackInuse, f`stackSys, f`mSpanInuse, f`mSpanSys, f`mCacheInuse, f`mCacheSys,
      f`otherSys, f`gcSys, f`nextGC, f`lastGC, f`pauseTotalNs, f`pauseNs, f`numGC,
      f`gcCpuFraction)
    ensures forall id :: id !in IdentityFields ==> f.Get(id) == old(f.Get(id))
  {
  }

  /** collectGCStats: copies the GC counters, the most recent pause and the
      GC CPU fraction through the pointer; the frame names the only fields
      that change. */
  method CollectGCStats(fields: Fields, m: MemStats)
    modifies fields`gcSys, fields`nextGC, fields`lastGC, fields`pauseTotalNs,
      fields`pauseNs, fields`numGC, fields`gcCpuFraction
    ensures fields.gcSys == Int64FromUint64(m.gcSys)
    ensures fields.nextGC == Int64FromUint64(m.nextGC)
    ensures fields.lastGC == Int64FromUint64(m.lastGC)
    ensures fields.pauseTotalNs == Int64FromUint64(m.pauseTotalNs)
    ensures fields.pauseNs == Int64FromUint64(m.pauseNs[PauseIndex(m.numGC)])
    ensures fields.numGC == Int64FromUint32(m.numGC)
    ensures fields.gcCpuFraction == m.gcCpuFraction
    ensures forall id :: id !in GCStatsFields ==> fields.Get(id) == old(fields.Get(id))
  {
    fields.gcSys := Int64FromUint64(m.gcSys);
    fields.nextGC := Int64FromUint64(m.nextGC);
    fields.lastGC := Int64FromUint64(m.lastGC);
    fields.pauseTotalNs := Int64FromUint64(m.pauseTotalNs);
    fields.pauseNs := Int64FromUint64(m.pauseNs[PauseIndex(m.numGC)]);
    fields.numGC := Int64FromUint32(m.numGC);
    fields.gcCpuFraction := m.gcCpuFraction;
    OutsideGCStatsUnchanged(fields);
  }

  /** The "General" block of collectMemStats: the general allocation counters. */
  method CopyGeneral(fields: Fields, m: MemStats)
    modifies fields`alloc, fields`totalAlloc, fields`sys,
      fields`lookups, fields`mallocs, fields`frees
    ensures fields.alloc == Int64FromUint64(m.alloc)
    ensures fields.totalAlloc == Int64FromUint64(m.totalAlloc)
    ensures fields.sys == Int64FromUint64(m.sys)
    ensures fields.lookups == Int64FromUint64(m.lookups)
    ensures fields.mallocs == Int64FromUint64(m.mallocs)
    ensures fields.frees == Int64FromUint64(m.frees)
  {
    fields.alloc := Int64FromUint64(m.alloc);
    fields.totalAlloc := Int64FromUint64(m.totalAlloc);
    fields.sys := Int64FromUint64(m.sys);
    fields.lookups := Int64FromUint64(m.lookups);
    fields.mallocs := Int64FromUint64(m.mallocs);
    fields.frees := Int64FromUint64(m.frees);
  }

  /** The "Heap" block of collectMemStats: the heap counters. */
  method CopyHeap(fields: Fields, m: MemStats)
    modifies fields`heapAlloc, fields`heapSys, fields`heapIdle,
      fields`heapInuse, fields`heapReleased, fields`heapObjects
    ensures fields.heapAlloc == Int64FromUint64(m.heapAlloc)
    ensures fields.heapSys == Int64FromUint64(m.heapSys)
    ensures fields.heapIdle == Int64FromUint64(m.heapIdle)
    ensures fields.heapInuse == Int64FromUint64(m.heapInuse)
    ensures fields.heapReleased == Int64FromUint64(m.heapReleased)
    ensures fields.heapObjects == Int64FromUint64(m.heapObjects)
  {
    fields.heapAlloc := Int64FromUint64(m.heapAlloc);
    fields.heapSys := Int64FromUint64(m.heapSys);
    fields.heapIdle := Int64FromUint64(m.heapIdle);
    fields.heapInuse := Int64FromUint64(m.heapInuse);
    fields.heapReleased := Int64FromUint64(m.heapReleased);
    fields.heapObjects := Int64FromUint64(m.heapObjects);
  }

  /** The "Stack" block of collectMemStats: the stack, span and cache counters. */
  method CopyStack(fields: Fields, m: MemStats)
    modifies fields`stackInuse, fields`stackSys, fields`mSpanInuse,
      fields`mSpanSys, fields`mCacheInuse, fields`mCacheSys
    ensures fields.stackInuse == Int64FromUint64(m.stackInuse)
    ensures fields.stackSys == Int64FromUint64(m.stackSys)
    ensures fields.mSpanInuse == Int64FromUint64(m.mSpanInuse)
    ensures fields.mSpanSys == Int64FromUint64(m.mSpanSys)
    ensures fields.mCacheInuse == Int64FromUint64(m.mCacheInuse)
    ensures fields.mCacheSys == Int64FromUint64(m.mCacheSys)
  {
    fields.stackInuse := Int64FromUint64(m.stackInuse);
    fields.stackSys := Int64FromUint64(m.stackSys);
    fields.mSpanInuse := Int64FromUint64(m.mSpanInuse);
    fields.mSpanSys := Int64FromUint64(m.mSpanSys);
    fields.mCacheInuse := Int64FromUint64(m.mCacheInuse);
    fields.mCacheSys := Int64FromUint64(m.mCacheSys);
  }

  /** The last line of collectMemStats: the OtherSys counter. */
  method CopyOtherSys(fields: Fields, m: MemStats)
    modifies fields`otherSys
    ensures fields.otherSys == Int64FromUint64(m.otherSys)
  {
    fields.otherSys := Int64FromUint64(m.otherSys);
  }

  /** collectMemStats: copies the general, heap, stack, span, cache and
      OtherSys counters through the pointer, each read as int64; the frame
      names the only fields that change. */
  method CollectMemStats(fields: Fields, m: MemStats)
    modifies fields`alloc, fields`totalAlloc, fields`sys,
      fields`lookups, fields`mallocs, fields`frees,
      fields`heapAlloc, fields`heapSys, fields`heapIdle,
      fields`heapInuse, fields`heapReleased, fields`heapObjects,
      fields`stackInuse, fields`stackSys, fields`mSpanInuse,
      fields`mSpanSys, fields`mCacheInuse, fields`mCacheSys,
      fields`otherSys
    ensures fields.alloc == Int64FromUint64(m.alloc)
    ensures fields.totalAlloc == Int64FromUint64(m.totalAlloc)
    ensures fields.sys == Int64FromUint64(m.sys)
    ensures fields.lookups == Int64FromUint64(m.lookups)
    ensures fields.mallocs == Int64FromUint64(m.mallocs)
    ensures fields.frees == Int64FromUint64(m.frees)
    ensures fields.heapAlloc == Int64FromUint64(m.heapAlloc)
    ensures fields.heapSys == Int64FromUint64(m.heapSys)
    ensures fields.heapIdle == Int64FromUint64(m.heapIdle)
    ensures fields.heapInuse == Int64FromUint64(m.heapInuse)
    ensures fields.heapReleased == Int64FromUint64(m.heapReleased)
    ensures fields.heapObjects == Int64FromUint64(m.heapObjects)
    ensures fields.stackInuse == Int64FromUint64(m.stackInuse)
    ensures fields.stackSys == Int64FromUint64(m.stackSys)
    ensures fields.mSpanInuse == Int64FromUint64(m.mSpanInuse)
    ensures fields.mSpanSys == Int64FromUint64(m.mSpanSys)
    ensures fields.mCacheInuse == Int64FromUint64(m.mCacheInuse)
    ensures fields.mCacheSys == Int64FromUint64(m.mCacheSys)
    ensures fields.otherSys == Int64FromUint64(m.otherSys)
    ensures forall id :: id !in MemStatsFields ==> fields.Get(id) == old(fields.Get(id))
  {
    CopyGeneral(fields, m);
    CopyHeap(fields, m);
    CopyStack(fields, m);
    CopyOtherSys(fields, m);
    OutsideMemStatsUnchanged(fields);
  }

  /** `f` holds what collectMemStats writes for `m`. */
  predicate MemCollected(f: Fields, m: MemStats)
    reads f`alloc, f`totalAlloc, f`sys, f`lookups, f`mallocs, f`frees,
      f`heapAlloc, f`heapSys, f`heapIdle, f`heapInuse, f`heapReleased, f`heapObjects,
      f`stackInuse, f`stackSys, f`mSpanInuse, f`mSpanSys, f`mCacheInuse, f`mCacheSys,
      f`otherSys
  {
    && f.alloc == Int64FromUint64(m.alloc) && f.totalAlloc == Int64FromUint64(m.totalAlloc)
    && f.sys == Int64FromUint64(m.sys) && f.lookups == Int64FromUint64(m.lookups)
    && f.mallocs == Int64FromUint64(m.mallocs) && f.frees == Int64FromUint64(m.frees)
    && f.heapAlloc == Int64FromUint64(m.heapAlloc) && f.heapSys == Int64FromUint64(m.heapSys)
    && f.heapIdle == Int64FromUint64(m.heapIdle) && f.heapInuse == Int64FromUint64(m.heapInuse)
    && f.heapReleased == Int64FromUint64(m.heapReleased)
    && f.heapObjects == Int64FromUint64(m.heapObjects)
    && f.stackInuse == Int64FromUint64(m.stackInuse) && f.stackSys == Int64FromUint64(m.stackSys)
    && f.mSpanInuse == Int64FromUint64(m.mSpanInuse) && f.mSpanSys == Int64FromUint64(m.mSpanSys)
    && f.mCacheInuse == Int64FromUint64(m.mCacheInuse)
    && f.mCacheSys == Int64FromUint64(m.mCacheSys)
    && f.otherSys == Int64FromUint64(m.otherSys)
  }

  /** `f` holds what collectGCStats writes for `m`. */
  predicate GCCollected(f: Fields, m: MemStats)
    reads f`gcSys, f`nextGC, f`lastGC, f`pauseTotalNs, f`pauseNs, f`numGC, f`gcCpuFraction
  {
    && f.gcSys == Int64FromUint64(m.gcSys) && f.nextGC == Int64FromUint64(m.nextGC)
    && f.lastGC == Int64FromUint64(m.lastGC)
    && f.pauseTotalNs == Int64FromUint64(m.pauseTotalNs)
    && f.pauseNs == Int64FromUint64(m.pauseNs[PauseIndex(m.numGC)])
    && f.numGC == Int64FromUint32(m.numGC) && f.gcCpuFraction == m.gcCpuFraction
  }

  /** Two structs hold equal values, as Go's `==` on `Fields` would say
      (the unused OS, architecture and version strings aside). */
  predicate SameValue(a: Fields, b: Fields)
    reads a, b
  {
    && a.serial == b.serial
    && a.numCpu == b.numCpu && a.numThread == b.numThread
    && a.numGoroutine == b.numGoroutine && a.numCgoCall == b.numCgoCall
    && a.cpuPercent == b.cpuPercent && a.memPercent == b.memPercent
    && a.alloc == b.alloc && a.totalAlloc == b.totalAlloc && a.sys == b.sys
    && a.lookups == b.lookups && a.mallocs == b.mallocs && a.frees == b.frees
    && a.heapAlloc == b.heapAlloc && a.heapSys == b.heapSys && a.heapIdle == b.heapIdle
    && a.heapInuse == b.heapInuse && a.heapReleased == b.heapReleased
    && a.heapObjects == b.heapObjects
    && a.stackInuse == b.stackInuse && a.stackSys == b.stackSys
    && a.mSpanInuse == b.mSpanInuse && a.mSpanSys == b.mSpanSys
    && a.mCacheInuse == b.mCacheInuse && a.mCacheSys == b.mCacheSys
    && a.otherSys == b.otherSys
    && a.gcSys == b.gcSys && a.nextGC == b.nextGC && a.lastGC == b.lastGC
    && a.pauseTotalNs == b.pauseTotalNs && a.pauseNs == b.pauseNs
    && a.numGC == b.numGC && a.gcCpuFraction == b.gcCpuFraction
  }

  /** Running collectMemStats and then collectGCStats. */
  method MemThenGC(fields: Fields, m: MemStats)
    modifies fields`alloc, fields`totalAlloc, fields`sys,
      fields`lookups, fields`mallocs, fields`frees,
      fields`heapAlloc, fields`heapSys, fields`heapIdle,
      fields`heapInuse, fields`heapReleased, fields`heapObjects,
      fields`stackInuse, fields`stackSys, fields`mSpanInuse,
      fields`mSpanSys, fields`mCacheInuse, fields`mCacheSys,
      fields`otherSys,
      fields`gcSys, fields`nextGC, fields`lastGC, fields`pauseTotalNs,
      fields`pauseNs, fields`numGC, fields`gcCpuFraction
    ensures MemCollected(fields, m) && GCCollected(fields, m)
  {
    CollectMemStats(fields, m);
    CollectGCStats(fields, m);
  }

  /** Running collectGCStats and then collectMemStats. */
  method GCThenMem(fields: Fields, m: MemStats)
    modifies fields`alloc, fields`totalAlloc, fields`sys,
      fields`lookups, fields`mallocs, fields`frees,
      fields`heapAlloc, fields`heapSys, fields`heapIdle,
      fields`heapInuse, fields`heapReleased, fields`heapObjects,
      fields`stackInuse, fields`stackSys, fields`mSpanInuse,
      fields`mSpanSys, fields`mCacheInuse, fields`mCacheSys,
      fields`otherSys,
      fields`gcSys, fields`nextGC, fields`lastGC, fields`pauseTotalNs,
      fields`pauseNs, fields`numGC, fields`gcCpuFraction
    ensures MemCollected(fields, m) && GCCollected(fields, m)
  {
    CollectGCStats(fields, m);
    CollectMemStats(fields, m);
  }

  /** The collectors write disjoint fields, so on two structs holding the
      same value, running them in either order leaves equal values. */
  method CollectorsCommute(a: Fields, b: Fields, m: MemStats)
    requires a != b
    requires SameValue(a, b)
    modifies a, b
    ensures SameValue(a, b)
  {
    MemThenGC(a, m);
    GCThenMem(b, m);
  }
}
