module Octets {
  type byte = n: int | 0 <= n < 256
}
