/** Instants, counted from the zero time, which the code also uses to mean "no
    instant". */
module Instants {
  type Instant = int
  const ZERO_TIME: Instant := 0
}
