/** The vendor-neutral values that cross every seam (internal/model/model.go).

    Times are integer nanoseconds counted from Go's zero time, so `ZERO_TIME` is 0 and a
    `Truncate(time.Minute)` is the remainder of a division by `MINUTE`.  A Go string is a byte
    string; each `char` below stands for one byte. */
module Model {

  const ZERO_TIME := 0
  const MILLI := 1_000_000
  const SECOND := 1_000_000_000
  const MINUTE := 60 * SECOND
  /** First instant of the year 10000: 3652059 days after Go's zero time. */
  const YEAR_10000 := 3_652_059 * 86_400 * SECOND

  datatype Option<+T> = None | Some(value: T)

  type Labels = map<string, string>

  datatype Kind = Gauge | Sum
  datatype Temporality = Unset | Delta | Cumulative

  datatype Sample = Sample(
    name: string, kind: Kind, temporality: Temporality, monotonic: bool,
    unit: string, labels: Labels, value: int, timestamp: int)

  datatype LogRecord = LogRecord(
    timestamp: int, body: string, severity: string,
    indexed: Labels, record: Labels, traceId: seq<char>)

  /** `C` is the opaque resume token; the checkpoint layers only compare it for equality. */
  datatype Watermark<+C> = Watermark(time: int, cursor: C, epoch: int)
}
