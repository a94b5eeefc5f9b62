/** What the three image canonicalisers share (image-canonical.ts:30-80). */
module Images {
  import opened Options
  import opened Bytes

  const MAX_IMAGE_DIMENSION := 12000
  const MAX_PNG_RAW_BYTES := 128 * 1024 * 1024

  datatype CheckCode =
    | TRUNCATED | TRAILING_BYTES | BAD_SIGNATURE | BAD_CRC | BAD_HEADER | BAD_DIMENSIONS | BAD_STRUCTURE
    | UNKNOWN_CRITICAL | UNSUPPORTED_VARIANT | BAD_IMAGE_DATA | TOO_LARGE_TO_VERIFY

  datatype CanonicalImage = Accepted(bytes: Buffer, width: nat, height: nat) | Refused(code: CheckCode)

  predicate DimensionsOk(width: nat, height: nat) {
    1 <= width <= MAX_IMAGE_DIMENSION && 1 <= height <= MAX_IMAGE_DIMENSION
  }
}
