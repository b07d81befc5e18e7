/** Shared vocabulary: optional results, and the clock every stored deadline is measured on. */
module Common {

  datatype Option<+T> = None | Some(value: T) {
    function GetOr(default: T): T {
      if Some? then value else default
    }
  }

  /** One monotone clock drives Redis expiry, lock deadlines and row timestamps. The unit is the second. */
  type Time = nat

  const MINUTE: Time := 60
  const HOUR: Time := 60 * MINUTE
  const DAY: Time := 24 * HOUR
}
