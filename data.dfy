/** Types of the data API that the modelled files use but do not define:
    they stand for values the model only compares and passes along. */
module Data {

  /** Rust's `usize` on a 64-bit target. */
  type Usize = n: int | 0 <= n < 0x1_0000_0000_0000_0000

  /** A `DateTime<Utc>`: opaque, totally ordered by its position on the time line. */
  datatype Timestamp = Timestamp(nanos: int)

  /** The data feed selector `Feed`, opaque here. */
  datatype Feed = Feed(name: string)

  /** A decimal price (`num_decimal::Num`), opaque here. */
  datatype Num = Num(numer: int, denom: int)

  /** Names the crate constant `DATA_BASE_URL`, whose value lies outside the model. */
  datatype BaseUrl = DataBaseUrl
}
