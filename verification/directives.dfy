/** The directives a coverer relays down to its agents. */
module Directives {

  // The six kinds that cross the seam between server and coverer.
  datatype Kind =
    | DesiredState
    | DesiredDelta
    | DesiredStateChunk
    | Rehome
    | Failover
    | Urgent

  // Payloads are opaque: only their length matters to the transport.
  datatype Directive = Directive(kind: Kind, generation: nat, payload: seq<bv8>) {
    function Size(): nat {
      |payload|
    }
  }

  // Kinds for which the newest directive may stand in for the older ones.
  predicate Coalescible(k: Kind) {
    k != DesiredDelta && k != DesiredStateChunk
  }
}
