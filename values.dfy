/**
 * The library value types the resources carry. None of them is computed
 * with; they are compared for equality and carried through.
 */
module Values {

  /** A Java int. */
  type Int32 = x: int | -0x8000_0000 <= x < 0x8000_0000

  /** java.time.Instant, as a point on one time line. */
  type Instant = int

  /** java.time.Duration, in milliseconds. */
  type Duration = int

  /** java.net.URL, by its external form. */
  type Url = string

  /** java.util.UUID: two 64-bit halves, compared half by half. */
  datatype Uuid = Uuid(mostSignificantBits: int, leastSignificantBits: int)

  /** java.time.OffsetDateTime: a local date-time and a zone offset, both compared. */
  datatype OffsetDateTime = OffsetDateTime(localSeconds: int, offsetSeconds: int)
}
