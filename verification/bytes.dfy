/** Bytes of the HTML stream and the character classes the scanner tests them against. */
module Bytes {

  /** One byte of the response body (C `char`; the scanner's comparisons give the same
      result for a signed or an unsigned `char`, so bytes are taken as 0..255). */
  type Byte = x: int | 0 <= x < 256

  datatype Option<+T> = None | Some(value: T)

  const NUL: Byte := 0
  const SPACE: Byte := 32      // ' '
  const DQUOTE: Byte := 34     // '"'
  const SQUOTE: Byte := 39     // '\''
  const SLASH: Byte := 47      // '/'
  const COLON: Byte := 58      // ':'
  const LT: Byte := 60         // '<'
  const EQ: Byte := 61         // '='
  const GT: Byte := 62         // '>'
  const BACKSLASH: Byte := 92  // '\\'
  const LOWER_E: Byte := 101   // 'e'
  const LOWER_I: Byte := 105   // 'i'
  const LOWER_S: Byte := 115   // 's'

  /** C `isspace` in the "C" locale: tab, newline, vertical tab, form feed, carriage return, space. */
  predicate IsSpace(b: Byte) {
    b == SPACE || 9 <= b <= 13
  }

  /** `a`..`z`, the letters of an ESI tag name. */
  predicate IsLower(b: Byte) {
    97 <= b <= 122
  }

  /** First byte of an attribute key: `-`, `_`, `A`..`Z` or `a`..`z`. */
  predicate IsKeyStart(b: Byte) {
    b == 45 || b == 95 || 65 <= b <= 90 || IsLower(b)
  }

  /** Any later byte of an attribute key: a key start or a digit. */
  predicate IsKeyChar(b: Byte) {
    IsKeyStart(b) || 48 <= b <= 57
  }
}
