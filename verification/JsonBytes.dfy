/** Bytes of JSON text (src/constrain.rs works on `u8`), with the classes the automaton distinguishes. */
module JsonBytes {
  type Byte = b: int | 0 <= b < 256

  /** How deep containers nest, and how many whitespace bytes may follow each other. */
  const MAX_DEPTH: nat := 64
  const MAX_RUN: nat := 22

  const TAB: Byte := 0x09
  const LF: Byte := 0x0A
  const CR: Byte := 0x0D
  const SPACE: Byte := 0x20
  const QUOTE: Byte := 0x22
  const PLUS: Byte := 0x2B
  const COMMA: Byte := 0x2C
  const MINUS: Byte := 0x2D
  const DOT: Byte := 0x2E
  const SLASH: Byte := 0x2F
  const ZERO: Byte := 0x30
  const NINE: Byte := 0x39
  const COLON: Byte := 0x3A
  const UPPER_E: Byte := 0x45
  const LBRACKET: Byte := 0x5B
  const BACKSLASH: Byte := 0x5C
  const RBRACKET: Byte := 0x5D
  const LOWER_B: Byte := 0x62
  const LOWER_E: Byte := 0x65
  const LOWER_F: Byte := 0x66
  const LOWER_N: Byte := 0x6E
  const LOWER_R: Byte := 0x72
  const LOWER_T: Byte := 0x74
  const LOWER_U: Byte := 0x75
  const LBRACE: Byte := 0x7B
  const RBRACE: Byte := 0x7D

  predicate IsWs(b: Byte) {
    b == SPACE || b == TAB || b == LF || b == CR
  }

  predicate IsDigit(b: Byte) {
    ZERO <= b <= NINE
  }

  predicate IsHex(b: Byte) {
    IsDigit(b) || 0x41 <= b <= 0x46 || 0x61 <= b <= 0x66
  }

  predicate IsExponentMark(b: Byte) {
    b == LOWER_E || b == UPPER_E
  }

  /** The bytes that may follow a backslash, `u` aside. */
  predicate IsSimpleEscape(b: Byte) {
    || b == QUOTE || b == BACKSLASH || b == SLASH || b == LOWER_B
    || b == LOWER_F || b == LOWER_N || b == LOWER_R || b == LOWER_T
  }

  /** `true`, `false`, `null`, in the order the automaton numbers them. */
  function Literal(lit: nat): seq<Byte>
    requires lit < 3
  {
    if lit == 0 then [LOWER_T, LOWER_R, LOWER_U, LOWER_E]
    else if lit == 1 then [LOWER_F, 0x61, 0x6C, 0x73, LOWER_E]
    else [LOWER_N, LOWER_U, 0x6C, 0x6C]
  }

  predicate AllWs(s: seq<Byte>) {
    forall i | 0 <= i < |s| :: IsWs(s[i])
  }

  predicate AllDigits(s: seq<Byte>) {
    forall i | 0 <= i < |s| :: IsDigit(s[i])
  }

  /** Length of the whitespace run that ends `s`. */
  function TrailingWs(s: seq<Byte>): nat {
    if s == [] || !IsWs(s[|s| - 1]) then 0 else TrailingWs(s[..|s| - 1]) + 1
  }

  /** No run of more than `bound` whitespace bytes anywhere in `s`. */
  predicate RunsWithin(s: seq<Byte>, bound: nat) {
    s == [] || (RunsWithin(s[..|s| - 1], bound) && TrailingWs(s) <= bound)
  }
}
