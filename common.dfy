/** Shared vocabulary of the image-combining model: optional values, the
    destination coordinate of a plane and the locator of a source plane. */
module Common {

  datatype Option<+T> = None | Some(value: T)

  /** A destination position (z, c, t) in the combined image. */
  datatype Coord = Coord(z: nat, c: nat, t: nat)

  /** Where a plane physically lives: a source image and a plane inside it. */
  datatype Locator = Locator(image: nat, z: nat, c: nat, t: nat)

  predicate IsDigit(ch: char) { '0' <= ch <= '9' }

  predicate IsDigits(s: string) { |s| > 0 && forall i :: 0 <= i < |s| ==> IsDigit(s[i]) }

  /** A token captured by a `\d+` group: non-empty and digits only. */
  type Digits = s: string | IsDigits(s) witness "0"

  /** Decimal value of a digit string, as Python's `int()` reads it. */
  function DecimalValue(s: string): nat
    requires forall i :: 0 <= i < |s| ==> IsDigit(s[i])
  {
    if s == [] then 0
    else assert IsDigit(s[|s| - 1]); 10 * DecimalValue(s[..|s| - 1]) + (s[|s| - 1] as int - '0' as int)
  }

  function Max(a: int, b: int): int { if a < b then b else a }
  function Min(a: int, b: int): int { if a < b then a else b }
}
