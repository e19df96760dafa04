/** Picking a port. */
module Ports {
  /** The port the system assigns to a listener that is closed again, or the
      fallback when that fails. */
  method FreePort() returns (port: int)
    ensures port > 0
  {
    port := *;
    if port <= 0 {
      port := 8080;
    }
  }
}
