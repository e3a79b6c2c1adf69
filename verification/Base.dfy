/** Identifiers, instants, results and the error values shared by every component. */
module Base {
  datatype Option<+T> = None | Some(value: T)

  datatype Result<+T> = Ok(value: T) | Err(error: Error)

  /** The error values of the packages; a raw database error is `ConstraintViolation`. */
  datatype Error =
    | RideNotFound
    | RideNotOpen
    | DriverIneligible
    | AmountOutOfRange
    | OfferNotFound
    | OfferNotActionable
    | OpportunityNotOpen
    | MarketNotOpen
    | DriverUnavailable
    | CancellationNotFound
    | TripCompletedError
    | RideExpiredError
    | TripNotFound
    | TripNotStarted
    | TripNotCompleted
    | TripCancelledError
    | ProfileNotFound
    | SelectionInvalid
    | SelectionLocked
    | LocationRequired
    | TripActive
    | InvalidService
    | InvalidPolicy
    | InvalidRoute
    | FareOutOfRange
    | PricingUnavailable
    | PolicyChanged
    | UserNotFound
    | ApplicationNotFound
    | ApplicationPending
    | ApplicationNotPending
    | VehicleAlreadyRegistered
    | InconsistentRow
    | ConstraintViolation

  /** Microseconds, the resolution of a PostgreSQL timestamp. */
  type Time = int
  const SECOND: int := 1_000_000

  type RideId = nat
  type UserId = nat
  type VehicleId = nat
  type ServiceCode = string

  /** Latitude and longitude; distances are measured by a `Metric` given from outside. */
  datatype Point = Point(latitude: real, longitude: real)
  type Metric = (Point, Point) -> real

  datatype Money = Money(amount: int, currency: string)
}
