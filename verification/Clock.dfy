// Points in time, in nanoseconds; the zero time stands for "not set".
module Clock {

  type Time = int

  const ZERO_TIME: Time := 0

  const SECOND := 1_000_000_000
}
