/** 64-bit signed words with saturating arithmetic, and the byte length of text. */
module Words {
  const MIN_WORD := -0x8000_0000_0000_0000
  const MAX_WORD := 0x7fff_ffff_ffff_ffff

  type Word = x: int | MIN_WORD <= x <= MAX_WORD witness 0

  function Saturate(x: int): (r: Word)
    ensures MIN_WORD <= x <= MAX_WORD ==> r == x
    ensures x < MIN_WORD ==> r == MIN_WORD
    ensures x > MAX_WORD ==> r == MAX_WORD
  {
    if x < MIN_WORD then MIN_WORD else if x > MAX_WORD then MAX_WORD else x
  }

  function SatAdd(a: Word, b: Word): (r: Word) { Saturate(a + b) }

  function SatSub(a: Word, b: Word): (r: Word) { Saturate(a - b) }

  // UTF-8 bytes of a text.
  function ByteLength(s: string): (r: nat)
    ensures |s| <= r <= 4 * |s|
  {
    if s == [] then 0
    else
      var c := s[|s| - 1] as int;
      ByteLength(s[..|s| - 1]) + (if c < 0x80 then 1 else if c < 0x800 then 2 else if c < 0x1_0000 then 3 else 4)
  }
}
