/** The notation symbols of `TransposerConfig`: the sharp and flat characters
    and the labels of the two output styles. The source lets callers reassign
    them; this model fixes them to their defaults. */
module Symbols {

  const Sharp: char := '#'
  const Flat: char := 'b'

  /** Style label of letter notation (A-B-C). */
  const Abc: string := "abc"
  /** Style label of solfege notation (DO-RE-MI). */
  const Doremi: string := "doremi"

  /** `sharp_flat()`: the accidental characters, sharp first. */
  const SharpFlat: seq<char> := [Sharp, Flat]

  /** Membership in the regular-expression character class `[#b]`. */
  predicate IsAccidental(c: char) {
    c == Sharp || c == Flat
  }

  /** A valid output style label. */
  predicate IsStyle(style: string) {
    style == Abc || style == Doremi
  }
}
