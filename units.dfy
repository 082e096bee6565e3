/** Integer widths of the server's record and the unit conversions it applies
    to NVML's raw readings (src/main.rs). */
module Units {

  /** Rust's `u32`, `u64` and `i32`. */
  type u32 = x: int | 0 <= x < 0x1_0000_0000
  type u64 = x: int | 0 <= x < 0x1_0000_0000_0000_0000
  type i32 = x: int | -0x8000_0000 <= x < 0x8000_0000

  const BytesPerMib: nat := 1048576
  const MilliwattsPerWatt: nat := 1000

  /** `bytes_to_mib`: two truncating divisions by 1024 of an unsigned byte
      count. The result is the whole number of MiB the bytes fill, rounded
      down, and never more than the byte count itself. */
  function BytesToMib(bytes: u64): (mib: u64)
    ensures mib * BytesPerMib <= bytes < (mib + 1) * BytesPerMib
    ensures mib <= bytes
  {
    bytes / 1024 / 1024
  }

  /** NVML's power reading is in milliwatts; the record carries `pow / 1000`,
      the whole number of watts rounded down. */
  function MilliwattsToWatts(milliwatts: u32): (watts: u32)
    ensures watts * MilliwattsPerWatt <= milliwatts < (watts + 1) * MilliwattsPerWatt
    ensures watts <= milliwatts
  {
    milliwatts / 1000
  }

  /** Truncation at the boundaries: one byte short of a MiB is 0 MiB, a
      full MiB is 1; 999 mW is 0 W and 125000 mW is 125 W. */
  lemma ConversionBoundaries()
    ensures BytesToMib(1048575) == 0 && BytesToMib(1048576) == 1
    ensures BytesToMib(8589934592) == 8192 && BytesToMib(1073741824) == 1024
    ensures MilliwattsToWatts(999) == 0 && MilliwattsToWatts(125000) == 125
  {
  }
}
