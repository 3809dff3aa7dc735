/** The stored reading that the history screen filters and summarises. */
module Readings {

  /** A timestamped oxygen level: milliseconds since the epoch and percent. */
  datatype Reading = Reading(timestamp: int, value: real)
}
