/** Escaping of a byte string for use as a URL query component, the way Go's
    net/url package does it in QueryEscape and undoes it in QueryUnescape:
    percent-encoding (section 2.1 of RFC 3986) of every byte outside the
    unreserved set (section 2.3 of RFC 3986), except that the space becomes `+`
    (the form-urlencoded convention). */
module UrlEscape {
  import opened Wrappers

  /** A Go string is an immutable sequence of bytes, not of Unicode characters. */
  newtype byte = b: int | 0 <= b < 256

  type GoString = seq<byte>

  const Space: byte := ' ' as byte
  const Plus: byte := '+' as byte
  const Percent: byte := '%' as byte
  const Slash: byte := '/' as byte

  /** Letters, digits and `-`, `_`, `.`, `~` (section 2.3 of RFC 3986). */
  predicate IsUnreserved(c: byte) {
    || ('a' as byte <= c <= 'z' as byte)
    || ('A' as byte <= c <= 'Z' as byte)
    || ('0' as byte <= c <= '9' as byte)
    || c == '-' as byte || c == '_' as byte || c == '.' as byte || c == '~' as byte
  }

  /** In query-component mode every byte that is not unreserved is escaped,
      the reserved ones (`$&+,/:;=?@`) included. */
  predicate ShouldEscape(c: byte) {
    !IsUnreserved(c)
  }

  /** The bytes that can appear in an escaped query component. */
  predicate IsQuerySafe(c: byte) {
    IsUnreserved(c) || c == Percent || c == Plus
  }

  predicate IsHex(c: byte) {
    || ('0' as byte <= c <= '9' as byte)
    || ('a' as byte <= c <= 'f' as byte)
    || ('A' as byte <= c <= 'F' as byte)
  }

  /** The value of a hexadecimal digit of either case; 0 for any other byte. */
  function UnHex(c: byte): (d: int)
    ensures 0 <= d < 16
    ensures !IsHex(c) ==> d == 0
  {
    if '0' as byte <= c <= '9' as byte then (c - '0' as byte) as int
    else if 'a' as byte <= c <= 'f' as byte then (c - 'a' as byte) as int + 10
    else if 'A' as byte <= c <= 'F' as byte then (c - 'A' as byte) as int + 10
    else 0
  }

  /** The upper-case hexadecimal digit for d, as escaping writes it. */
  function HexDigit(d: int): (c: byte)
    requires 0 <= d < 16
    ensures IsHex(c) && IsUnreserved(c)
    ensures UnHex(c) == d
  {
    if d < 10 then '0' as byte + d as byte else 'A' as byte + (d - 10) as byte
  }

  /** What one byte of the input becomes in the escaped output. */
  function EscapeByte(c: byte): (r: GoString)
    ensures 1 <= |r| <= 3
    ensures forall k :: 0 <= k < |r| ==> IsQuerySafe(r[k])
  {
    if c == Space then [Plus]
    else if ShouldEscape(c) then [Percent, HexDigit(c as int / 16), HexDigit(c as int % 16)]
    else [c]
  }

  /** Go's url.QueryEscape: the input escaped byte by byte, left to right.
      The result holds only unreserved bytes, `%` and `+`, and is between one
      and three times as long as the input. */
  function QueryEscape(s: GoString): (r: GoString)
    ensures forall k :: 0 <= k < |r| ==> IsQuerySafe(r[k])
    ensures |s| <= |r| <= 3 * |s|
  {
    if s == [] then [] else EscapeByte(s[0]) + QueryEscape(s[1..])
  }

  /** Go's url.QueryUnescape: `%` followed by two hexadecimal digits of either
      case stands for one byte, `+` for a space, and every other byte for
      itself. A `%` without two hexadecimal digits after it is an error (Go's
      EscapeError), modelled as None. */
  function QueryUnescape(s: GoString): (r: Option<GoString>)
    decreases |s|
  {
    if s == [] then Some([])
    else if s[0] == Percent then
      if 3 <= |s| && IsHex(s[1]) && IsHex(s[2]) then
        match QueryUnescape(s[3..])
        case None => None
        case Some(t) => Some([(UnHex(s[1]) * 16 + UnHex(s[2])) as byte] + t)
      else None
    else
      match QueryUnescape(s[1..])
      case None => None
      case Some(t) => Some([if s[0] == Plus then Space else s[0]] + t)
  }

  /** Unescaping undoes the escape of a single byte in front of any tail. */
  lemma UnescapeEscapedByte(c: byte, tail: GoString)
    ensures QueryUnescape(EscapeByte(c) + tail) ==
              match QueryUnescape(tail)
              case None => None
              case Some(t) => Some([c] + t)
  {
  }

  /** QueryUnescape is a left inverse of QueryEscape. */
  lemma {:induction false} EscapeRoundTrip(s: GoString)
    ensures QueryUnescape(QueryEscape(s)) == Some(s)
  {
    if s != [] {
      EscapeRoundTrip(s[1..]);
      UnescapeEscapedByte(s[0], QueryEscape(s[1..]));
      assert [s[0]] + s[1..] == s;
    }
  }

  /** Distinct strings have distinct escapes. */
  lemma QueryEscapeInjective(s1: GoString, s2: GoString)
    ensures QueryEscape(s1) == QueryEscape(s2) ==> s1 == s2
  {
    EscapeRoundTrip(s1);
    EscapeRoundTrip(s2);
  }
}
