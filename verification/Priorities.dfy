module Priorities {
  /** Maximum number of priorities. */
  const NO_PRIORITIES := 31
}
