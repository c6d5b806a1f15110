/** Results, failures and instants shared by every part of the client model. */
module Outcomes {

  datatype Option<+T> = None | Some(value: T)

  /** The ways a call of the client can fail, as far as the code tells them apart.
      `Api` is a response turned into an APIError; the others are not APIErrors. */
  datatype Failure = Transport | Garbled | Api(status: int) | NoToken | NotConnected

  datatype Result<+T> = Ok(value: T) | Err(error: Failure)

  /** A point in time; `Zero` is the zero time.Time, which no clock reading equals. */
  datatype Instant = Zero | At(when: int)

  /** time.Now().Before(e): never true of the zero time. */
  predicate Before(now: int, e: Instant) {
    e.At? && now < e.when
  }

  /** A clock that never runs backwards, as a function of the number of readings taken. */
  ghost predicate Monotone(clock: nat -> int) {
    forall i: nat, j: nat :: i <= j ==> clock(i) <= clock(j)
  }
}
