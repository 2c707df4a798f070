/** Instants are integer seconds and dates integer days. */
module Instants {
  const DAY := 86400
}
