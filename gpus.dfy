/** The `GpuInfo` record and the two HTTP handlers that build it:
    `list_gpu` (GET /gpus) and `gpu_by_id` (GET /gpu/{id}). */
module Gpus {
  import opened Units
  import opened Format
  import opened Nvml

  /** One device at one instant, with the fields the JSON payload carries. */
  datatype GpuInfo = GpuInfo(
    memoryTotalMib: u64,
    memoryUsedMib: u64,
    memoryUtil: u32,
    powerUsage: u32,
    id: u32,
    utilizationGpu: u32,
    cudaVersion: i32,
    name: string,
    driverVersion: string,
    nvmlVersion: string)

  /** The record carries the system-wide fields of `meta` unchanged. */
  predicate SharesMeta(g: GpuInfo, meta: GlobalMeta) {
    g.driverVersion == meta.driverVersion
    && g.cudaVersion == meta.cudaVersion
    && g.nvmlVersion == meta.nvmlVersion
  }

  /** The record both handlers build from one device's reading: memory in
      whole MiB and power in whole watts, both rounded down, utilisation and
      name passed through, version fields taken from the global metadata. */
  function Normalize(id: u32, raw: RawReading, meta: GlobalMeta): (g: GpuInfo)
    ensures g.id == id && g.name == raw.name
    ensures g.memoryTotalMib * BytesPerMib <= raw.totalBytes < (g.memoryTotalMib + 1) * BytesPerMib
    ensures g.memoryUsedMib * BytesPerMib <= raw.usedBytes < (g.memoryUsedMib + 1) * BytesPerMib
    ensures g.powerUsage * MilliwattsPerWatt <= raw.milliwatts < (g.powerUsage + 1) * MilliwattsPerWatt
    ensures g.utilizationGpu == raw.gpuUtil && g.memoryUtil == raw.memoryUtil
    ensures SharesMeta(g, meta)
  {
    GpuInfo(
      memoryTotalMib := BytesToMib(raw.totalBytes),
      memoryUsedMib := BytesToMib(raw.usedBytes),
      memoryUtil := raw.memoryUtil,
      powerUsage := MilliwattsToWatts(raw.milliwatts),
      id := id,
      utilizationGpu := raw.gpuUtil,
      cudaVersion := meta.cudaVersion,
      name := raw.name,
      driverVersion := meta.driverVersion,
      nvmlVersion := meta.nvmlVersion)
  }

  /** The records of one sampling pass over indices `0..n`: the devices whose
      lookup succeeds, in index order; failed lookups leave no trace. */
  function Collect(p: Provider, n: nat): seq<GpuInfo>
    requires n <= p.count
    decreases n
  {
    if n == 0 then []
    else
      var earlier := Collect(p, n - 1);
      match p.device(n - 1)
      case Some(raw) => earlier + [Normalize(n - 1, raw, p.meta)]
      case None => earlier
  }

  /** The whole pass `list_gpu` makes. */
  function CollectAll(p: Provider): seq<GpuInfo> {
    Collect(p, p.count)
  }

  predicate IdsAscending(s: seq<GpuInfo>) {
    forall a, b :: 0 <= a < b < |s| ==> s[a].id < s[b].id
  }

  /** `list_gpu`: reads the count and the global fields once, then walks
      the indices upward and pushes a record for every device it can open. */
  method ListGpu(p: Provider) returns (gpus: seq<GpuInfo>)
    ensures gpus == CollectAll(p)
  {
    var count := p.count;
    var meta := p.meta;
    gpus := [];
    for i := 0 to count
      invariant gpus == Collect(p, i)
    {
      match p.device(i) {
        case Some(raw) =>
          gpus := gpus + [Normalize(i, raw, meta)];
        case None =>
      }
    }
  }

  /** A pass over `0..n` yields at most `n` records, every id below `n`,
      ids strictly ascending (hence no id twice). */
  lemma {:induction false} CollectShape(p: Provider, n: nat)
    requires n <= p.count
    ensures |Collect(p, n)| <= n
    ensures forall k :: 0 <= k < |Collect(p, n)| ==> Collect(p, n)[k].id < n
    ensures IdsAscending(Collect(p, n))
    decreases n
  {
    if n > 0 {
      CollectShape(p, n - 1);
    }
  }

  /** Every record of a pass over `0..n` comes from a successful lookup of
      its own id and is the normalised reading of that device. */
  lemma {:induction false} CollectSound(p: Provider, n: nat)
    requires n <= p.count
    ensures forall k :: 0 <= k < |Collect(p, n)| ==>
      Collect(p, n)[k].id < n && p.device(Collect(p, n)[k].id).Some?
      && Collect(p, n)[k] == Normalize(Collect(p, n)[k].id, p.device(Collect(p, n)[k].id).value, p.meta)
    decreases n
  {
    if n > 0 {
      CollectSound(p, n - 1);
    }
  }

  /** Every index below `n` whose lookup succeeds has a record in the pass. */
  lemma {:induction false} CollectComplete(p: Provider, n: nat, i: u32)
    requires n <= p.count && i < n && p.device(i).Some?
    ensures exists k :: 0 <= k < |Collect(p, n)| && Collect(p, n)[k].id == i
    decreases n
  {
    var c, earlier := Collect(p, n), Collect(p, n - 1);
    if i == n - 1 {
      assert c == earlier + [Normalize(i, p.device(i).value, p.meta)];
      assert c[|c| - 1].id == i;
    } else {
      CollectComplete(p, n - 1, i);
      var k :| 0 <= k < |earlier| && earlier[k].id == i;
      match p.device(n - 1)
      case None =>
        assert c == earlier;
        assert c[k].id == i;
      case Some(raw) =>
        assert c == earlier + [Normalize(n - 1, raw, p.meta)];
        assert c[k] == earlier[k];
    }
  }

  /** An index below `n` is in the pass exactly when its lookup succeeds,
      and then its record is the normalised reading. */
  lemma CollectMembership(p: Provider, n: nat, i: u32)
    requires n <= p.count && i < n
    ensures (exists k :: 0 <= k < |Collect(p, n)| && Collect(p, n)[k].id == i) <==> p.device(i).Some?
    ensures forall k :: 0 <= k < |Collect(p, n)| && Collect(p, n)[k].id == i ==>
      p.device(i).Some? && Collect(p, n)[k] == Normalize(i, p.device(i).value, p.meta)
  {
    CollectSound(p, n);
    if p.device(i).Some? {
      CollectComplete(p, n, i);
    }
  }

  /** Every record of one pass carries the same three version fields, the
      ones fetched once before the loop. */
  lemma {:induction false} CollectSharesMeta(p: Provider, n: nat)
    requires n <= p.count
    ensures forall k :: 0 <= k < |Collect(p, n)| ==> SharesMeta(Collect(p, n)[k], p.meta)
    decreases n
  {
    if n > 0 {
      CollectSharesMeta(p, n - 1);
    }
  }

  /** The status codes `gpu_by_id` can fail with. */
  datatype Status = NotFound | InternalServerError {
    function Code(): nat {
      match this
      case NotFound => 404
      case InternalServerError => 500
    }
  }

  /** `gpu_by_id`'s result: the record, or a status with a plain-text body. */
  datatype Response = Found(info: GpuInfo) | Failed(status: Status, message: string)

  /** `gpu_by_id`. The bound check is `id > count`, so `id == count` passes
      it and is decided by the device lookup. */
  function GpuById(p: Provider, id: u32): (r: Response)
    ensures r.Failed? && r.status == NotFound <==> id > p.count
    ensures r.Failed? && r.status == InternalServerError <==> id <= p.count && p.device(id).None?
    ensures r.Found? <==> id <= p.count && p.device(id).Some?
    ensures r.Found? ==> r.info.id == id && r.info == Normalize(id, p.device(id).value, p.meta)
    ensures r.Failed? && r.status == NotFound ==> r.message == "GPU " + Decimal(id) + " not found"
    ensures r.Failed? && r.status == InternalServerError ==> r.message == "Failed to get GPU " + Decimal(id) + " info"
  {
    if id > p.count then
      Failed(NotFound, "GPU " + Decimal(id) + " not found")
    else
      match p.device(id)
      case Some(raw) => Found(Normalize(id, raw, p.meta))
      case None => Failed(InternalServerError, "Failed to get GPU " + Decimal(id) + " info")
  }

  /** When NVML refuses indices past the count, the single lookup and the
      list agree: an id is found exactly when the list holds a record with
      that id, and the record is the same. */
  lemma GpuByIdAgreesWithList(p: Provider, id: u32)
    requires RejectsOutOfRange(p)
    ensures GpuById(p, id).Found? <==>
      exists k :: 0 <= k < |CollectAll(p)| && CollectAll(p)[k].id == id
    ensures forall k :: 0 <= k < |CollectAll(p)| && CollectAll(p)[k].id == id ==>
      GpuById(p, id) == Found(CollectAll(p)[k])
  {
    assert CollectAll(p) == Collect(p, p.count);
    CollectShape(p, p.count);
    if id < p.count {
      CollectMembership(p, p.count, id);
    } else {
      assert GpuById(p, id).Failed?;
    }
  }

  /** The preserved off-by-one: `id == count` is not "not found" but an
      internal server error, because the lookup of that index fails. */
  lemma BoundaryIdIsInternalError(p: Provider)
    requires RejectsOutOfRange(p)
    ensures GpuById(p, p.count) == Failed(InternalServerError, "Failed to get GPU " + Decimal(p.count) + " info")
    ensures GpuById(p, p.count).status.Code() == 500
  {
  }

  /** With no devices the list is empty and GET /gpu/0 answers 500, not 404. */
  lemma NoDevices(p: Provider)
    requires p.count == 0 && RejectsOutOfRange(p)
    ensures CollectAll(p) == []
    ensures GpuById(p, 0) == Failed(InternalServerError, "Failed to get GPU 0 info")
    ensures GpuById(p, 1) == Failed(NotFound, "GPU 1 not found")
  {
  }

  /** One device with 8 GiB total, 1 GiB used, 125000 mW, 42% busy. */
  lemma OneDeviceExample(p: Provider, memUtil: u32, name: string)
    requires p.count == 1
    requires p.device(0) == Some(RawReading(8589934592, 1073741824, 42, memUtil, 125000, name))
    ensures CollectAll(p) == [GpuInfo(8192, 1024, memUtil, 125, 0, 42, p.meta.cudaVersion, name,
                                      p.meta.driverVersion, p.meta.nvmlVersion)]
  {
  }
}
