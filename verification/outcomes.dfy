/** Outcomes shared by function dispatch and the daemon loop: the optional values
    the configuration carries, and the panics that end the daemon. The daemon never
    recovers from an error: every failing `unwrap`, `expect` and `todo!` stops the
    process, and each one, except the two `expect`s on serializing an event, is a
    named `Panic` here. */
module Outcomes {

  datatype Option<+T> = None | Some(value: T)

  /** Every point at which the daemon panics, named after what failed there. */
  datatype Panic =
    | MissingLibraryPath    // a library spec without a module path
    | InvalidLibraryPath    // the module at the configured path cannot be loaded
    | MissingSymbol         // a library spec without a symbol
    | NotImplemented        // the executable strategy has no implementation
    | SymbolNotFound        // the loaded module does not export the configured symbol
    | BindFailed            // the listening socket cannot be bound
    | AcceptFailed          // an incoming connection cannot be accepted
    | DecodeFailed          // the bytes of a connection do not decode to an event
    | RecipientUnreachable  // connecting to a downstream address fails
    | RecipientWriteFailed  // writing the envelope to a downstream peer fails
    | ReplyWriteFailed      // writing the reply to a requester fails
    | ReplyFlushFailed      // flushing the reply to a requester fails (cannot occur for TCP)

  /** A computation that either yields a value or panics. */
  datatype Result<+T> = Ok(value: T) | Abort(panic: Panic)
}
