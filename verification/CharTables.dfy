/** The character classes of the parser against the grammars that they are for. */
module CharTables {
  import opened Chars

  const TCHAR: string := "!#$%&'*+-.^_`|~"
  const UNRESERVED: string := "-._~"
  const SUB_DELIMS: string := "!$&'()*+,;="
  const HEX_DIGITS: string := "0123456789abcdef"

  /** Tokens are made of the `tchar` of section 3.2.6 of RFC 7230. */
  lemma TokensAreTchars(c: char)
    ensures IsToken(c) <==> IsAlphaNum(c) || c in TCHAR
  {
    assert TCHAR[0] == '!' && TCHAR[1] == '#' && TCHAR[2] == '$' && TCHAR[3] == '%' && TCHAR[4] == '&' && TCHAR[5] == '\'' && TCHAR[6] == '*'
        && TCHAR[7] == '+' && TCHAR[8] == '-' && TCHAR[9] == '.' && TCHAR[10] == '^' && TCHAR[11] == '_' && TCHAR[12] == '`'
        && TCHAR[13] == '|' && TCHAR[14] == '~';
  }

  /** The user information of a URL is made of the characters of section 3.2.1 of RFC 3986, any percent sign included. */
  lemma UserinfoIsByGrammar(c: char)
    ensures IsUserinfoChar(c) <==> IsAlphaNum(c) || c in UNRESERVED || c in SUB_DELIMS || c == ':' || c == '%'
  {
    assert UNRESERVED[0] == '-' && UNRESERVED[1] == '.' && UNRESERVED[2] == '_' && UNRESERVED[3] == '~';
    assert SUB_DELIMS[0] == '!' && SUB_DELIMS[1] == '$' && SUB_DELIMS[2] == '&' && SUB_DELIMS[3] == '\'' && SUB_DELIMS[4] == '('
        && SUB_DELIMS[5] == ')' && SUB_DELIMS[6] == '*' && SUB_DELIMS[7] == '+' && SUB_DELIMS[8] == ',' && SUB_DELIMS[9] == ';' && SUB_DELIMS[10] == '=';
  }

  /** The hex table gives each hexadecimal digit its value, and -1 to every other ASCII byte. */
  lemma HexDigitsByValue(c: char)
    ensures IsHex(c) ==> 0 <= Unhex(c) < 16 && HEX_DIGITS[Unhex(c)] == Lower(c)
    ensures !IsHex(c) && c as int < 128 ==> Unhex(c) == -1
  {
    assert HEX_DIGITS[0] == '0' && HEX_DIGITS[1] == '1' && HEX_DIGITS[2] == '2' && HEX_DIGITS[3] == '3' && HEX_DIGITS[4] == '4'
        && HEX_DIGITS[5] == '5' && HEX_DIGITS[6] == '6' && HEX_DIGITS[7] == '7' && HEX_DIGITS[8] == '8' && HEX_DIGITS[9] == '9'
        && HEX_DIGITS[10] == 'a' && HEX_DIGITS[11] == 'b' && HEX_DIGITS[12] == 'c' && HEX_DIGITS[13] == 'd' && HEX_DIGITS[14] == 'e' && HEX_DIGITS[15] == 'f';
  }

  /** In ASCII, a target or a header value may have any visible character, and where it may have more: a target has no
      question mark and no hash of its own, but a tab and a form feed; a header value has the space and the tab. */
  lemma VisibleCharacters(c: char)
    requires c as int < 128
    ensures 33 <= c as int <= 126 ==> IsHeaderChar(c) && (IsUrlChar(c) <==> c != '?' && c != '#')
    ensures !(33 <= c as int <= 126) ==> (IsHeaderChar(c) <==> c in " \t\r\n") && (IsUrlChar(c) <==> c == HT || c as int == 12)
  {
    assert " \t\r\n"[0] == ' ' && " \t\r\n"[1] == HT && " \t\r\n"[2] == CR && " \t\r\n"[3] == LF;
  }
}
