/** Quantities, legal ranges and failure values shared by the compile-side
    Windfreak device and the runtime worker that drives the synthesizer. */
module Basics {

  /** The three channel quantities whose values are range-checked. */
  datatype Quantity = Frequency | Power | Phase

  const MinFrequency: real := 10_000_000.0       // Hz (10 MHz)
  const MaxFrequency: real := 15_000_000_000.0   // Hz (15 GHz)
  const MinPower: real := -70.0                  // dBm
  const MaxPower: real := 20.0                   // dBm
  const MinPhase: real := 0.0                    // degrees
  const MaxPhase: real := 360.0                  // degrees

  function Lowest(q: Quantity): real {
    match q
    case Frequency => MinFrequency
    case Power => MinPower
    case Phase => MinPhase
  }

  function Highest(q: Quantity): real {
    match q
    case Frequency => MaxFrequency
    case Power => MaxPower
    case Phase => MaxPhase
  }

  /** Both bounds are inclusive; values outside are rejected, never clamped. */
  predicate InRange(q: Quantity, v: real) {
    Lowest(q) <= v <= Highest(q)
  }

  /** The synthesizer has two channels, numbered 0 and 1. */
  predicate IsChannel(ch: int) {
    ch == 0 || ch == 1
  }

  /** Every way an operation of the driver can fail. */
  datatype Error =
    | OutOfRange(quantity: Quantity, value: real)  // value outside [Lowest, Highest]
    | InvalidChannel(channel: int)                 // compile side: channel not 0 or 1
    | NoSuchChannel(channel: int)                  // runtime: the synthesizer has no such channel
    | UnsupportedReferenceMode(mode: string)
    | MalformedRecord                              // a shot-record array is too short or a row is not 4 long

  datatype Option<+T> = None | Some(value: T)

  datatype Result<+T> = Ok(value: T) | Err(error: Error)

  /** Python's `s[i]`: negative indices count from the end, anything else
      outside the sequence is an IndexError (None). */
  function PyIndex<T>(s: seq<T>, i: int): (r: Option<T>)
    ensures r.Some? <==> -|s| <= i < |s|
    ensures r.Some? ==> r.value == s[if i < 0 then |s| + i else i]
  {
    if 0 <= i < |s| then Some(s[i])
    else if -|s| <= i < 0 then Some(s[|s| + i])
    else None
  }
}
