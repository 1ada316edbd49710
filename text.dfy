/**
  The two `str` operations the line classifiers rely on. Lines are sequences
  of Unicode scalar values; Rust indexes them by UTF-8 byte, so a byte range
  is only valid where it falls on a character boundary.
 */
module Text {
  import opened Wrappers

  /** A character encoded as a single UTF-8 byte. */
  predicate IsAscii(c: char) {
    c as int < 128
  }

  /**
    `line.get(0..1)`: the first character, when it occupies exactly the
    first byte; `None` for an empty line and for a line whose first
    character is not ASCII.
   */
  function Head(line: string): (r: Option<char>)
    ensures r.Some? <==> |line| > 0 && IsAscii(line[0])
    ensures r.Some? ==> r.value == line[0]
  {
    if |line| > 0 && IsAscii(line[0]) then Some(line[0]) else None
  }

  /**
    `s.find(c)`: the position of the first occurrence of `c`, counted in
    characters. Rust counts it in bytes, so the two differ once a
    character before it takes more than one byte (on `"é]"` this gives 1
    where Rust gives 2). `Setup.Config.ParseSection` only uses the
    position when the first character is ASCII, and slices from character
    1; in that case `line[1..right]` is the same text as Rust's
    `line.get(1..right)`.
   */
  function Find(s: string, c: char): (r: Option<nat>)
    ensures r.None? <==> c !in s
    ensures r.Some? ==> r.value < |s| && s[r.value] == c && c !in s[..r.value]
  {
    if s == [] then None
    else if s[0] == c then Some(0)
    else
      match Find(s[1..], c)
      case None => None
      case Some(k) =>
        assert s[..k + 1] == [s[0]] + s[1..][..k];
        Some(k + 1)
  }
}
