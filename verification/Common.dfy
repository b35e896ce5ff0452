/** Types shared by every component: optional values, bytes and the conversion to an integer. */
module Common {
  datatype Option<+T> = None | Some(value: T)

  type byte = b: int | 0 <= b < 256

  /** The concatenation of a list of byte strings, `b"".join(parts)`. */
  function Join(parts: seq<seq<byte>>): (joined: seq<byte>)
  {
    if parts == [] then [] else Join(parts[..|parts| - 1]) + parts[|parts| - 1]
  }

  function Max(a: int, b: int): (m: int)
  {
    if a < b then b else a
  }

  /** A floating-point number converted to an integer loses its fraction. */
  function Truncate(v: real): (t: int)
    ensures v >= 0.0 ==> t as real <= v < t as real + 1.0
    ensures v < 0.0 ==> t as real - 1.0 < v <= t as real
  {
    if v >= 0.0 then v.Floor else -((-v).Floor)
  }
}
