/** Bytes as numbers. */
module Octets {
  type byte = x: nat | x < 256
}
