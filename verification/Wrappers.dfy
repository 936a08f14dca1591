/** Optional values, and the two ways a call of the service can end. */
module Wrappers {

  /** A nullable column or argument. */
  datatype Option<+T> = None | Some(value: T) {
    /** SQL `COALESCE(this, other)`. */
    function Or(other: Option<T>): Option<T> {
      if Some? then this else other
    }

    function GetOr(default: T): T {
      if Some? then value else default
    }
  }

  /** The exceptions the modelled code raises, one name per cause. */
  datatype Error =
    | InvalidArgument
    | UnknownOrder
    | FillSymbolMismatch
    | FillSideMismatch
    | FillBrokerIdMismatch
    | FillExceedsOrder
    | MissingPriceLadder
    | DuplicatePosition
    | NoOpenPosition
    | SellExceedsPosition
    | MissingEntryRisk
    | NonPositiveIncrement

  /** Either the call returned a value, or it raised. */
  datatype Outcome<+T> = Done(value: T) | Raised(error: Error)
}
