/**
 Percent-encoding of one URL component: the grammar of RFC 3986, the encoder, and what the
 encoder keeps.
 */
module UrlSyntax {
  import opened ByteStrings

  predicate IsHexDigit(c: Byte) {
    ('0' <= c <= '9') || ('a' <= c <= 'f') || ('A' <= c <= 'F')
  }

  predicate IsUrlComponentCharLegal(c: Byte, inQuery: bool) {
    if c == '\0' then false
    else if ('a' <= c <= 'z') || ('A' <= c <= 'Z') || ('0' <= c <= '9') then true
    else if c == '-' || c == '.' || c == '_' || c == '~' then true
    else if c in "!$&'()*+,;=" then true
    else if c == ':' || c == '@' || c == '/' then true
    else inQuery && c == '?'
  }

  const HEX: Bytes := "0123456789ABCDEF"

  predicate IsEscape(s: Bytes) {
    |s| >= 3 && s[0] == '%' && IsHexDigit(s[1]) && IsHexDigit(s[2])
  }

  // What append_url_component appends for the bytes `s`.
  function Encode(s: Bytes, inQuery: bool): Bytes {
    if s == [] then []
    else if IsEscape(s) then s[..3] + Encode(s[3..], inQuery)
    else Token(s[0], inQuery) + Encode(s[1..], inQuery)
  }

  function Token(c: Byte, inQuery: bool): Bytes {
    if c == '%' then "%25"
    else if IsUrlComponentCharLegal(c, inQuery) then [c]
    else ['%', HEX[c as int / 16], HEX[c as int % 16]]
  }

  /** The digits of an escape are those of both cases; the ones emitted are upper case. */
  lemma EscapeDigits(c: Byte)
    ensures IsHexDigit(c) <==> c in "0123456789abcdefABCDEF"
    ensures |HEX| == 16 && (c in HEX <==> c in "0123456789ABCDEF")
  {
    assert "0123456789abcdefABCDEF"[..16] == "0123456789abcdef";
  }

  /** A byte that is not legal becomes a '%' and two upper-case digits of its value. */
  lemma IllegalBecomesEscape(c: Byte, inQuery: bool, rest: Bytes)
    requires c != '%' && !IsUrlComponentCharLegal(c, inQuery)
    ensures var e := Encode([c] + rest, inQuery);
            && |e| >= 3 && e[0] == '%' && e[1] in "0123456789ABCDEF" && e[2] in "0123456789ABCDEF"
            && IsHexDigit(e[1]) && IsHexDigit(e[2]) && 16 * HexValue(e[1]) + HexValue(e[2]) == c as int
            && e[3..] == Encode(rest, inQuery)
  {
    HexDigits(c as int / 16);
    HexDigits(c as int % 16);
    assert ([c] + rest)[1..] == rest;
    assert HEX[c as int / 16] in HEX && HEX[c as int % 16] in HEX;
  }

  // --- section 2.1 of RFC 3986, read backwards ---

  function HexValue(c: Byte): (v: int)
    requires IsHexDigit(c)
    ensures 0 <= v < 16
  {
    if c <= '9' then c as int - '0' as int
    else if c <= 'F' then c as int - 'A' as int + 10
    else c as int - 'a' as int + 10
  }

  // Escapes stand for their byte; a '%' that starts no escape stands for itself.
  function Decode(s: Bytes): Bytes {
    if s == [] then []
    else if IsEscape(s) then [(16 * HexValue(s[1]) + HexValue(s[2])) as char] + Decode(s[3..])
    else [s[0]] + Decode(s[1..])
  }

  lemma HexDigits(n: int)
    requires 0 <= n < 16
    ensures IsHexDigit(HEX[n]) && HexValue(HEX[n]) == n
  {}

  lemma TokenDecodes(c: Byte, inQuery: bool, rest: Bytes)
    ensures Decode(Token(c, inQuery) + rest) == [c] + Decode(rest)
  {
    var t := Token(c, inQuery) + rest;
    if c == '%' || !IsUrlComponentCharLegal(c, inQuery) {
      HexDigits(c as int / 16);
      HexDigits(c as int % 16);
      assert IsEscape(t) && t[3..] == rest;
    } else {
      assert t[1..] == rest;
    }
  }

  /** Encoding does not change what a component decodes to. */
  lemma {:induction false} EncodeKeepsMeaning(s: Bytes, inQuery: bool)
    ensures Decode(Encode(s, inQuery)) == Decode(s)
  {
    if s == [] {
    } else if IsEscape(s) {
      EncodeKeepsMeaning(s[3..], inQuery);
      var e := Encode(s, inQuery);
      assert e[3..] == Encode(s[3..], inQuery) && IsEscape(e);
    } else {
      EncodeKeepsMeaning(s[1..], inQuery);
      TokenDecodes(s[0], inQuery, Encode(s[1..], inQuery));
    }
  }

  // --- sections 3.3 and 3.4 of RFC 3986 ---

  predicate IsUnreserved(c: Byte) {
    ('a' <= c <= 'z') || ('A' <= c <= 'Z') || ('0' <= c <= '9') || c in "-._~"
  }

  predicate IsSubDelim(c: Byte) {
    c in "!$&'()*+,;="
  }

  // *( pchar / more ), where pchar = unreserved / pct-encoded / sub-delims / ":" / "@".
  predicate IsPchars(s: Bytes, more: Bytes) {
    s == []
    || (IsEscape(s) && IsPchars(s[3..], more))
    || ((IsUnreserved(s[0]) || IsSubDelim(s[0]) || s[0] == ':' || s[0] == '@' || s[0] in more)
        && IsPchars(s[1..], more))
  }

  // query = *( pchar / "/" / "?" )
  predicate IsQuery(s: Bytes) {
    IsPchars(s, "/?")
  }

  // path-abempty = *( "/" segment ), segment = *pchar
  predicate IsPathAbempty(s: Bytes) {
    s == [] || (s[0] == '/' && exists n | 1 <= n <= |s| :: IsPchars(s[1..n], "") && IsPathAbempty(s[n..]))
  }

  function More(inQuery: bool): Bytes {
    if inQuery then "/?" else "/"
  }

  lemma LegalIsPchar(c: Byte, inQuery: bool)
    ensures IsUrlComponentCharLegal(c, inQuery) <==>
              IsUnreserved(c) || IsSubDelim(c) || c == ':' || c == '@' || c in More(inQuery)
  {}

  /** What is emitted is always in the grammar. */
  lemma {:induction false} EncodeIsPchars(s: Bytes, inQuery: bool)
    ensures IsPchars(Encode(s, inQuery), More(inQuery))
  {
    if s == [] {
    } else if IsEscape(s) {
      EncodeIsPchars(s[3..], inQuery);
      var e := Encode(s, inQuery);
      assert e[3..] == Encode(s[3..], inQuery) && IsEscape(e);
    } else {
      EncodeIsPchars(s[1..], inQuery);
      var c := s[0];
      var e := Encode(s, inQuery);
      LegalIsPchar(c, inQuery);
      if c == '%' || !IsUrlComponentCharLegal(c, inQuery) {
        HexDigits(c as int / 16);
        HexDigits(c as int % 16);
        assert e[3..] == Encode(s[1..], inQuery) && IsEscape(e);
      } else {
        assert e[1..] == Encode(s[1..], inQuery);
      }
    }
  }

  /** A component already in the grammar is left alone, and only such a component is. */
  lemma {:induction false} EncodeFixes(s: Bytes, inQuery: bool)
    ensures Encode(s, inQuery) == s <==> IsPchars(s, More(inQuery))
  {
    if IsPchars(s, More(inQuery)) { PcharsAreKept(s, inQuery); }
    EncodeIsPchars(s, inQuery);
  }

  lemma {:induction false} PcharsAreKept(s: Bytes, inQuery: bool)
    requires IsPchars(s, More(inQuery))
    ensures Encode(s, inQuery) == s
  {
    if s == [] {
    } else if IsEscape(s) {
      LegalIsPchar(s[0], inQuery);
      PcharsAreKept(s[3..], inQuery);
    } else {
      LegalIsPchar(s[0], inQuery);
      PcharsAreKept(s[1..], inQuery);
    }
  }

  lemma {:induction false} EncodeAtMostTriples(s: Bytes, inQuery: bool)
    ensures |s| <= |Encode(s, inQuery)| <= 3 * |s|
  {
    if s == [] {
    } else if IsEscape(s) {
      EncodeAtMostTriples(s[3..], inQuery);
    } else {
      EncodeAtMostTriples(s[1..], inQuery);
    }
  }
}
