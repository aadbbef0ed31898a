/** Bytes, as files and streams hold them. */
module Bytes {
  type byte = n: nat | n < 256
}
