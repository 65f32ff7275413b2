/** checkTTL of cache/core/driver.go. */
module Leases {

  /** A write may go ahead when it states a lease, or states deliberately that it has none, or
      nobody asked for either. */
  predicate LeaseStated(require_: bool, ttl: int, permanent: bool) { !require_ || ttl > 0 || permanent }
}
