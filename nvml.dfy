/** NVML, the vendor library behind the server, seen as an oracle: the
    device count, the three system-wide version fields and, per device
    index, either a raw reading or a failed `device_by_index`. */
module Nvml {
  import opened Units

  datatype Option<+T> = None | Some(value: T)

  /** What one device reports: `memory_info` (total and used bytes),
      `utilization_rates` (gpu and memory percent), `power_usage`
      (milliwatts) and `name`. */
  datatype RawReading = RawReading(
    totalBytes: u64,
    usedBytes: u64,
    gpuUtil: u32,
    memoryUtil: u32,
    milliwatts: u32,
    name: string)

  /** `sys_driver_version`, `sys_cuda_driver_version`, `sys_nvml_version`. */
  datatype GlobalMeta = GlobalMeta(driverVersion: string, cudaVersion: i32, nvmlVersion: string)

  /** The library's state as one handler observes it: `device_count` and
      the global fields, and `device_by_index` as a partial map from index
      to reading (`None` is a failed lookup). */
  datatype Provider = Provider(count: u32, meta: GlobalMeta, device: u32 -> Option<RawReading>)

  /** NVML refuses every index at or past the device count. */
  predicate RejectsOutOfRange(p: Provider) {
    forall i: u32 :: p.count <= i ==> p.device(i).None?
  }
}
