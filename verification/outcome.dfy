/** How a golden script ends: it either raises or leaves its results behind. */
module Outcomes {

  /**
   * `Raises` stands for a run that stops with an exception (NumPy's `max` of
   * an empty array); `Returns` carries the module-level results of a run.
   */
  datatype Outcome<T> = Raises | Returns(results: T)
}
