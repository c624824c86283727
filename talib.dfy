/** The go-talib routines the core calls, taken as given: each field is the output
    array of one routine over this frame's price columns, as a function of the
    routine's parameters and of the day index into that array. The routines always
    return an array as long as their input, so every day of the frame has a value. */
module TaLib {

  /** One value of one output array: the routine, its parameters, the day. */
  datatype Query =
    | SmaOut(period: int, day: int)
    | EmaOut(period: int, day: int)
    | BBUpperOut(n: int, k: real, day: int)
    | BBMiddleOut(n: int, k: real, day: int)
    | BBLowerOut(n: int, k: real, day: int)
    | MacdOut(fast: int, slow: int, signal: int, day: int)
    | MacdSignalOut(fast: int, slow: int, signal: int, day: int)
    | MacdHistOut(fast: int, slow: int, signal: int, day: int)
    | RsiOut(period: int, day: int)
    | WillrOut(period: int, day: int)

  datatype Library = Library(at: Query -> real)

  /** The first n entries of an output array. */
  function Series(f: int -> real, n: nat): (s: seq<real>)
    ensures |s| == n
    ensures forall day :: 0 <= day < n ==> s[day] == f(day)
  {
    seq(n, day => f(day))
  }
}
