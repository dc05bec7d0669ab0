/** `MonitorValues` of healthcheck/monitorvalues.py: the default of every
    monitoring parameter, and the inclusive range a registration may ask for. */
module MonitorValues {

  /** Response timeout: 5 seconds, between 2 and 60. */
  const DefaultTimeOut := 5
  const MinTimeout := 2
  const MaxTimeout := 60

  /** Health-check interval: 30 seconds, between 5 and 300. */
  const DefaultInterval := 30
  const MinInterval := 5
  const MaxInterval := 300

  /** Failed checks before a service counts as unhealthy: 2, between 2 and 10. */
  const DefaultUnhealthyThreshold := 2
  const MinUnhealthyThreshold := 2
  const MaxUnhealthyThreshold := 10

  /** Passed checks before a service counts as healthy: 10, between 2 and 10. */
  const DefaultHealthyThreshold := 10
  const MinHealthyThreshold := 2
  const MaxHealthyThreshold := 10

  /** All four parameters lie in their documented ranges, bounds included. */
  predicate WithinBounds(timeout: int, interval: int, unhealthyThreshold: int, healthyThreshold: int) {
    && MinTimeout <= timeout <= MaxTimeout
    && MinInterval <= interval <= MaxInterval
    && MinUnhealthyThreshold <= unhealthyThreshold <= MaxUnhealthyThreshold
    && MinHealthyThreshold <= healthyThreshold <= MaxHealthyThreshold
  }

  /** Every default lies in its own range. */
  lemma DefaultsWithinBounds()
    ensures WithinBounds(DefaultTimeOut, DefaultInterval, DefaultUnhealthyThreshold, DefaultHealthyThreshold)
  {
  }
}
