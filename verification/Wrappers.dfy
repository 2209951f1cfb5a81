/** The stock option type. */
module Wrappers {

  datatype Option<+T> = None | Some(value: T)
}

/** A caller's context: `Err` is polled, and once it is cancelled every later poll sees it. */
module Cancellation {

  datatype Context = Background | CancelledFrom(poll: nat) {
    predicate Err(poll: nat) {
      CancelledFrom? && this.poll <= poll
    }
  }
}
