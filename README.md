# donv GPU telemetry server: verified model of its core

donv is a small Rust server that reads GPU telemetry from NVML, the vendor's
management library, and serves it in three ways:

- `GET /gpus` returns every device's record;
- `GET /gpu/{id}` returns one device's record, or a 404 or 500;
- `GET /ws` is a WebSocket that pushes the list once a second.

This project models the logic under that plumbing, in five modules:

- `Units`: the integer widths of the record and its two conversions. Bytes become
  MiB by two truncating divisions by 1024. Milliwatts become watts by a
  truncating division by 1000.
- `Format`: the decimal rendering of an id in the handlers' error messages.
- `Nvml`: NVML as an oracle. It holds the device count, the three global
  version fields, and a function from index to `Option<RawReading>`. `None` is
  a failed `device_by_index`.
- `Gpus`: the `GpuInfo` record, the `list_gpu` sampling pass and the
  `gpu_by_id` lookup. The pass is a method with a loop, proved against the
  specification function `CollectAll`.
- `Stream`: the `handle_socket` loop. Each tick it runs one pass and sends the
  result as one frame. It stops at the first failed send.

The bound check in `gpu_by_id` is `id > count`, so `id == count` passes it.
The device lookup then fails, and the answer is 500, not 404. The model keeps
this behaviour as written.

With zero devices, `GET /gpu/0` therefore answers 500 "Failed to get GPU 0
info", not 404, because `0 > 0` is false (src/main.rs:70); `Gpus.NoDevices`
states it.

## Model

| member | source | states |
|---|---|---|
| `Units.BytesToMib` | src/main.rs:157-159 | the result is the number of whole MiB in the byte count, rounded down, and never exceeds the byte count |
| `Units.MilliwattsToWatts` | src/main.rs:46-53 | the power field is the number of whole watts in the milliwatt reading, rounded down |
| `Units.ConversionBoundaries` | src/main.rs:157-159 | 1048575 bytes give 0 MiB and 1048576 give 1; 8 GiB give 8192 MiB; 999 mW give 0 W and 125000 mW give 125 W |
| `Format.Decimal` | src/main.rs:73 | an id renders as digits only, with no leading zero unless the id is 0 |
| `Format.DecimalRoundTrip` | src/main.rs:115 | reading the rendered id back gives the id |
| `Format.DecimalInjective` | src/main.rs:71-74 | two ids with the same rendering are equal, so each error message names its own id |
| `Gpus.Normalize` | src/main.rs:43-59 | a record takes its id and name from the device, memory in whole MiB and power in whole watts rounded down, utilisation passed through, and the version fields from the global metadata |
| `Gpus.ListGpu` | src/main.rs:31-64 | the loop over `0..count` returns exactly the specification pass `CollectAll` of the provider |
| `Gpus.CollectShape` | src/main.rs:41-61 | a pass yields at most `count` records; every id is below `count`; ids strictly ascend, so none repeats |
| `Gpus.CollectSound` | src/main.rs:41-61 | every record of a pass has an id below `count` whose lookup succeeded, and is that device's normalised reading |
| `Gpus.CollectComplete` | src/main.rs:41-61 | every index below `count` whose lookup succeeds has a record in the pass |
| `Gpus.CollectMembership` | src/main.rs:41-61 | an index below `count` has a record exactly when its device lookup succeeds, and that record is the normalised reading; failed indices are skipped |
| `Gpus.CollectSharesMeta` | src/main.rs:37-57 | every record of one pass carries the same driver, CUDA and NVML versions, the ones fetched before the loop |
| `Gpus.GpuById` | src/main.rs:66-119 | 404 "GPU {id} not found" exactly when `id > count`; 500 "Failed to get GPU {id} info" exactly when `id <= count` and the lookup fails; otherwise the normalised record with that id |
| `Gpus.GpuByIdAgreesWithList` | src/main.rs:81-109 | when NVML refuses indices past the count, an id is found exactly when the list holds a record with that id, and the two records are equal |
| `Gpus.BoundaryIdIsInternalError` | src/main.rs:70-117 | when NVML refuses indices past the count, `id == count` yields 500 "Failed to get GPU {id} info", not 404 |
| `Gpus.NoDevices` | src/main.rs:41-117 | with no devices the list is empty, `/gpu/0` is 500 and `/gpu/1` is 404 "GPU 1 not found" |
| `Gpus.OneDeviceExample` | src/main.rs:43-59 | one device with 8589934592 total bytes, 1073741824 used, 125000 mW and 42% gives 8192 MiB, 1024 MiB, 125 W and 42% |
| `Stream.Attempts` | src/main.rs:127-136 | the number of sends attempted is at most the number of outcomes, zero only when there are none, and the last attempted send failed unless every outcome was used |
| `Stream.StopsAtFirstFailure` | src/main.rs:133-135 | when N sends succeed and send N+1 fails, exactly N+1 sends are attempted, never N+2 |
| `Stream.RunsWhileSendsSucceed` | src/main.rs:127-136 | while every send succeeds the loop never stops on its own |
| `Stream.HandleSocket` | src/main.rs:125-137 | frame t carries the full pass of tick t; all sends but the last succeeded; the loop closes exactly when a send failed, and makes `Attempts` sends |

## Left out

- HTTP routing with axum, static files from `static/`, the TCP listener on port 26501 and `main` (src/main.rs:139-155). These are I/O and process startup.
- The NVML library and its one-time lazy initialisation (src/main.rs:8, src/main.rs:15). NVML is a foreign library; the model takes a `Provider` value as a parameter instead.
- The `.unwrap()` panics on `device_count`, the three `sys_*` calls, `memory_info`, `utilization_rates`, `power_usage` and `name`. Those reads are total in the model. Only `device_by_index` can fail.
- Within one pass the model reads a single `Provider` value. It does not capture a device whose readings change between two NVML calls of the same pass.
- Log lines from `tracing` (src/main.rs:67, src/main.rs:88-96, src/main.rs:112). They have no effect on results.
- The one-second `interval` and async scheduling (src/main.rs:126-128), concurrency between connections, and the WebSocket upgrade (src/main.rs:121-123).
- JSON encoding with `serde_json` (src/main.rs:131). A frame carries the record list itself.
- Stream.HandleSocket: the source loop never ends while sends succeed. The model runs over a finite sequence of send outcomes, and stops with `closed == false` when that sequence runs out.
