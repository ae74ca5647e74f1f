/** Character classes of the HTTP parser. A byte of the stream is the `char` with the same code;
    the classes are those of the non-strict build. */
module Chars {

  const CR: char := '\r'
  const LF: char := '\n'
  const HT: char := '\t'
  const QUOTE: char := '\"'
  const BACKSLASH: char := '\\'
  const CRLF: string := "\r\n"

  predicate IsNum(c: char) {
    '0' <= c <= '9'
  }

  predicate IsAlpha(c: char) {
    'a' <= c <= 'z' || 'A' <= c <= 'Z'
  }

  predicate IsAlphaNum(c: char) {
    IsAlpha(c) || IsNum(c)
  }

  predicate IsHex(c: char) {
    IsNum(c) || 'a' <= c <= 'f' || 'A' <= c <= 'F'
  }

  /** Lower case. The parser sets bit 5 of the byte instead, but only ever compares
      the result with letters, where the two agree. */
  function Lower(c: char): char {
    if 'A' <= c <= 'Z' then (c as int + 32) as char else c
  }

  function DigitVal(c: char): int {
    c as int - '0' as int
  }

  /** The bytes with a nonzero entry in the token table. */
  predicate IsToken(c: char) {
    IsAlphaNum(c) || c == '!' || '#' <= c <= '\'' || c == '*' || c == '+' || c == '-' || c == '.'
    || '^' <= c <= '`' || c == '|' || c == '~'
  }

  predicate IsUrlChar(c: char) {
    c == HT || c as int == 12 || (33 <= c as int <= 126 && c != '#' && c != '?') || 128 <= c as int
  }

  predicate IsHostChar(c: char) {
    IsAlphaNum(c) || c == '.' || c == '-' || c == '_'
  }

  predicate IsUserinfoChar(c: char) {
    IsAlphaNum(c) || c == '!' || '$' <= c <= '.' || c == ':' || c == ';' || c == '=' || c == '_' || c == '~'
  }

  predicate IsHeaderChar(c: char) {
    c == CR || c == LF || c == HT || (31 < c as int && c as int != 127)
  }

  /** The hex table: -1 for an ASCII byte that is no hex digit; the table has no entries for the
      bytes from 128 on, which therefore count as digit zero. */
  function Unhex(c: char): int {
    if IsNum(c) then DigitVal(c)
    else if 'a' <= c <= 'f' then c as int - 'a' as int + 10
    else if 'A' <= c <= 'F' then c as int - 'A' as int + 10
    else if 128 <= c as int then 0
    else -1
  }
}
