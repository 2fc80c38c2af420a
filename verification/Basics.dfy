/** Small vocabulary shared by the whole model: optional values and Python's `str.strip`. */
module Basics {

  datatype Option<+T> = None | Some(value: T)

  /** The characters both `\s` and `str.strip` treat as white space (Latin range). */
  predicate IsSpace(c: char) {
    c in {' ', '\t', '\n', '\r', 0x0B as char, 0x0C as char, 0x1C as char, 0x1D as char,
          0x1E as char, 0x1F as char, 0x85 as char, 0xA0 as char}
  }

  function StripLeft(s: string): string {
    if s != [] && IsSpace(s[0]) then StripLeft(s[1..]) else s
  }

  function StripRight(s: string): string {
    if s != [] && IsSpace(s[|s| - 1]) then StripRight(s[..|s| - 1]) else s
  }

  function Strip(s: string): string {
    StripRight(StripLeft(s))
  }

  function Max(a: int, b: int): int {
    if a >= b then a else b
  }

  function Min(a: int, b: int): int {
    if a <= b then a else b
  }
}
