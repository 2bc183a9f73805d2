/**
  The query-component escaping of Go's url.QueryEscape, byte for byte: the
  unreserved characters of section 2.3 of RFC 3986 are copied, a space becomes
  '+', and every other byte becomes '%' followed by two upper-case hex digits.
  Unescape is its inverse (url.QueryUnescape), which a reader of the detail
  link applies.
 */
module QueryEscape {
  import opened Bytes
  import opened Wrappers

  /** ALPHA / DIGIT / "-" / "." / "_" / "~" */
  predicate Unreserved(b: byte) {
    || 0x41 <= b <= 0x5A  // 'A'..'Z'
    || 0x61 <= b <= 0x7A  // 'a'..'z'
    || 0x30 <= b <= 0x39  // '0'..'9'
    || b == 0x2D || b == 0x2E || b == 0x5F || b == 0x7E
  }

  /** "0123456789ABCDEF"[n] */
  function HexDigit(n: int): (d: byte)
    requires 0 <= n < 16
    ensures Unreserved(d)
  {
    if n < 10 then (0x30 + n) as byte else (0x41 + n - 10) as byte
  }

  /** The value of a hex digit in either case, None for any other byte. */
  function HexValue(d: byte): (v: Option<int>)
    ensures v.Some? ==> 0 <= v.value < 16
  {
    if 0x30 <= d <= 0x39 then Some(d as int - 0x30)
    else if 0x41 <= d <= 0x46 then Some(d as int - 0x41 + 10)
    else if 0x61 <= d <= 0x66 then Some(d as int - 0x61 + 10)
    else None
  }

  /** What one input byte becomes. */
  function EscapeByte(b: byte): (r: Bytes)
  {
    if Unreserved(b) then [b]
    else if b == Space then [Plus]
    else [Percent, HexDigit(b as int / 16), HexDigit(b as int % 16)]
  }

  /** url.QueryEscape. The result holds only unreserved bytes, '+' and '%',
      so it never contains the '&' or '=' that delimit a query. */
  function Escape(s: Bytes): (r: Bytes)
    ensures forall i | 0 <= i < |r| :: Unreserved(r[i]) || r[i] == Plus || r[i] == Percent
    ensures |s| <= |r| <= 3 * |s|
  {
    if s == [] then [] else EscapeByte(s[0]) + Escape(s[1..])
  }

  function Cons(b: byte, rest: Option<Bytes>): (r: Option<Bytes>) {
    if rest.Some? then Some([b] + rest.value) else None
  }

  /** url.QueryUnescape: None where a '%' is not followed by two hex digits. */
  function Unescape(s: Bytes): (r: Option<Bytes>)
    decreases |s|
  {
    if s == [] then Some([])
    else if s[0] == Percent then
      if |s| < 3 then None
      else
        var hi, lo := HexValue(s[1]), HexValue(s[2]);
        if hi.Some? && lo.Some? then Cons((hi.value * 16 + lo.value) as byte, Unescape(s[3..]))
        else None
    else if s[0] == Plus then Cons(Space, Unescape(s[1..]))
    else Cons(s[0], Unescape(s[1..]))
  }

  /** Decoding the escape of one byte, followed by anything, yields that byte first. */
  lemma UnescapeEscapeByte(b: byte, t: Bytes)
    ensures Unescape(EscapeByte(b) + t) == Cons(b, Unescape(t))
  {
  }

  /** The decoder recovers every input exactly, including '&', '=', '%', '+',
      spaces and non-ASCII bytes. */
  lemma {:induction false} UnescapeEscape(s: Bytes)
    ensures Unescape(Escape(s)) == Some(s)
  {
    if s != [] {
      UnescapeEscapeByte(s[0], Escape(s[1..]));
      UnescapeEscape(s[1..]);
      assert [s[0]] + s[1..] == s;
    }
  }

  /** Different inputs never share an escaped form. */
  lemma EscapeInjective(s: Bytes, t: Bytes)
    requires Escape(s) == Escape(t)
    ensures s == t
  {
    UnescapeEscape(s);
    UnescapeEscape(t);
  }

  /** A string made of unreserved bytes (such as a query key) is its own escape. */
  lemma {:induction false} EscapeUnreserved(s: Bytes)
    requires forall i | 0 <= i < |s| :: Unreserved(s[i])
    ensures Escape(s) == s
  {
    if s != [] {
      EscapeUnreserved(s[1..]);
      assert [s[0]] + s[1..] == s;
    }
  }
}
