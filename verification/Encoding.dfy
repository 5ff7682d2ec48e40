/**
 * UTF-8, section 3 of RFC 3629, with a decoder that accepts the shortest form only: the
 * gateway's byte count of an input is the length of what that decoder reads back.
 */
module Encoding {
  import opened Common
  import Gateway

  function EncodeChar(c: char): seq<nat> {
    var n := c as int;
    if n < 0x80 then [n]
    else if n < 0x800 then [0xC0 + n / 64, 0x80 + n % 64]
    else if n < 0x10000 then [0xE0 + n / 4096, 0x80 + n / 64 % 64, 0x80 + n % 64]
    else [0xF0 + n / 262144, 0x80 + n / 4096 % 64, 0x80 + n / 64 % 64, 0x80 + n % 64]
  }

  function Encode(s: string): seq<nat> {
    if s == "" then [] else EncodeChar(s[0]) + Encode(s[1..])
  }

  /** A byte that continues a character, and the six bits it carries. */
  predicate Continues(b: nat) {
    0x80 <= b < 0xC0
  }

  predicate IsScalar(n: nat) {
    n < 0xD800 || 0xE000 <= n < 0x110000
  }

  /** The number of the first character, and how many bytes it takes. */
  function DecodeFirst(bytes: seq<nat>): Option<(nat, nat)>
    requires bytes != []
  {
    var b := bytes[0];
    if b < 0x80 then Some((b, 1))
    else if 0xC0 <= b < 0xE0 then
      if |bytes| < 2 || !Continues(bytes[1]) then None
      else
        var n := (b - 0xC0) * 64 + (bytes[1] - 0x80);
        if n < 0x80 then None else Some((n, 2))
    else if 0xE0 <= b < 0xF0 then
      if |bytes| < 3 || !Continues(bytes[1]) || !Continues(bytes[2]) then None
      else
        var n := (b - 0xE0) * 4096 + (bytes[1] - 0x80) * 64 + (bytes[2] - 0x80);
        if n < 0x800 then None else Some((n, 3))
    else if 0xF0 <= b < 0xF8 then
      if |bytes| < 4 || !Continues(bytes[1]) || !Continues(bytes[2]) || !Continues(bytes[3]) then None
      else
        var n := (b - 0xF0) * 262144 + (bytes[1] - 0x80) * 4096 + (bytes[2] - 0x80) * 64 + (bytes[3] - 0x80);
        if n < 0x10000 then None else Some((n, 4))
    else None
  }

  function Decode(bytes: seq<nat>): Option<string> {
    if bytes == [] then Some("")
    else
      match DecodeFirst(bytes)
      case None => None
      case Some((n, length)) =>
        if length == 0 || length > |bytes| || !IsScalar(n) then None
        else
          match Decode(bytes[length..])
          case None => None
          case Some(rest) => Some([n as char] + rest)
  }

  lemma CharIsScalar(c: char)
    ensures IsScalar(c as int)
  {
  }

  lemma Sixes(n: nat)
    ensures n == n / 64 * 64 + n % 64
    ensures n == n / 4096 * 4096 + n / 64 % 64 * 64 + n % 64
    ensures n == n / 262144 * 262144 + n / 4096 % 64 * 4096 + n / 64 % 64 * 64 + n % 64
  {
    assert n / 4096 == n / 64 / 64 && n / 262144 == n / 4096 / 64;
  }

  lemma CharRoundTrip(c: char, rest: seq<nat>)
    ensures DecodeFirst(EncodeChar(c) + rest) == Some((c as int, |EncodeChar(c)|))
  {
    var n, all := c as int, EncodeChar(c) + rest;
    Sixes(n);
    if n >= 0x10000 {
      assert all[..4] == EncodeChar(c);
    } else if n >= 0x800 {
      assert all[..3] == EncodeChar(c);
    } else if n >= 0x80 {
      assert all[..2] == EncodeChar(c);
    }
  }

  /** Reading the bytes back gives the text, and there are as many as the gateway counts. */
  lemma {:induction false} EncodingRoundTrip(s: string)
    ensures Decode(Encode(s)) == Some(s)
    ensures |Encode(s)| == Gateway.Utf8Length(s)
  {
    if s != "" {
      var first, rest := EncodeChar(s[0]), Encode(s[1..]);
      EncodingRoundTrip(s[1..]);
      CharRoundTrip(s[0], rest);
      CharIsScalar(s[0]);
      assert (first + rest)[|first|..] == rest;
      assert s == [s[0]] + s[1..];
    }
  }
}
