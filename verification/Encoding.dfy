/** Texts as bytes: what the UTF-8 encoding keeps, and its inverse. */
module Encoding {
  import opened Options
  import opened Protocol

  predicate OneLine(text: string) {
    forall i :: 0 <= i < |text| ==> text[i] != '\n'
  }

  predicate Ascii(text: string) {
    forall i :: 0 <= i < |text| ==> text[i] as int < 0x80
  }

  lemma {:induction false} EncodeOne(c: char)
    ensures Encode([c]) == Utf8(c)
  {
    assert [c][1..] == "";
  }

  lemma {:induction false} EncodeLength(text: string)
    ensures |Encode(text)| <= 4 * |text|
    ensures Ascii(text) ==> |Encode(text)| == |text|
  {
    if text != "" {
      EncodeLength(text[1..]);
    }
  }

  /** The limits for credentials without non-ASCII characters, counted in characters. */
  lemma {:induction false} PlainCredentials(text: string)
    requires Ascii(text)
    ensures ValidSsid(text) <==> 1 <= |text| <= 32 && forall c :: c in text ==> 0x20 <= c as int < 0x7F
    ensures ValidPassword(text) <==> 8 <= |text| <= 63 && '\0' !in text && '\r' !in text && '\n' !in text
  {
    EncodeLength(text);
    forall c | c in text
      ensures c as int < 0x80
    {
      var i :| 0 <= i < |text| && text[i] == c;
    }
  }

  lemma {:induction false} EncodeConcat(a: string, b: string)
    ensures Encode(a + b) == Encode(a) + Encode(b)
  {
    if a == "" {
      assert a + b == b;
    } else {
      assert (a + b)[1..] == a[1..] + b;
      EncodeConcat(a[1..], b);
    }
  }

  lemma {:induction false} EncodeOneLine(text: string)
    requires OneLine(text)
    ensures NEWLINE !in Encode(text)
  {
    if text != "" {
      EncodeOneLine(text[1..]);
    }
  }

  // ---------------------------------------------------------------------------------------
  // Decoding

  predicate Continues(b: seq<Byte>, n: nat) {
    n <= |b| && forall i :: 1 <= i < n ==> 0x80 <= b[i] < 0xC0
  }

  predicate IsScalar(code: int) {
    0 <= code < 0xD800 || 0xE000 <= code < 0x11_0000
  }

  /** The first character and its length; shortest forms of scalar values only. */
  function DecodeFirst(b: seq<Byte>): (r: Option<(char, nat)>)
    requires b != []
    ensures r.Some? ==> 1 <= r.value.1 <= |b|
  {
    if b[0] < 0x80 then Some((b[0] as char, 1))
    else if 0xC0 <= b[0] < 0xE0 && Continues(b, 2) then
      var code := 0x40 * (b[0] as int - 0xC0) + (b[1] as int - 0x80);
      if 0x80 <= code then Some((code as char, 2)) else None
    else if 0xE0 <= b[0] < 0xF0 && Continues(b, 3) then
      var code := 0x1000 * (b[0] as int - 0xE0) + 0x40 * (b[1] as int - 0x80) + (b[2] as int - 0x80);
      if 0x800 <= code && IsScalar(code) then Some((code as char, 3)) else None
    else if 0xF0 <= b[0] < 0xF8 && Continues(b, 4) then
      var code := 0x4_0000 * (b[0] as int - 0xF0) + 0x1000 * (b[1] as int - 0x80)
                  + 0x40 * (b[2] as int - 0x80) + (b[3] as int - 0x80);
      if 0x1_0000 <= code && IsScalar(code) then Some((code as char, 4)) else None
    else None
  }

  function Decode(b: seq<Byte>): Option<string> {
    if b == [] then Some("")
    else
      match DecodeFirst(b)
      case None => None
      case Some((c, n)) =>
        match Decode(b[n..])
        case None => None
        case Some(text) => Some([c] + text)
  }

  lemma {:induction false} DecodeFirstOf(c: char, rest: seq<Byte>)
    ensures DecodeFirst(Utf8(c) + rest) == Some((c, |Utf8(c)|))
  {
    var n := c as int;
    assert n == n / 0x40 * 0x40 + n % 0x40;
    assert n / 0x40 == n / 0x1000 * 0x40 + n / 0x40 % 0x40;
    assert n / 0x1000 == n / 0x4_0000 * 0x40 + n / 0x1000 % 0x40;
  }

  lemma {:induction false} DecodeEncode(text: string)
    ensures Decode(Encode(text)) == Some(text)
  {
    if text != "" {
      var rest := Encode(text[1..]);
      DecodeFirstOf(text[0], rest);
      assert (Utf8(text[0]) + rest)[|Utf8(text[0])|..] == rest;
      DecodeEncode(text[1..]);
      assert text == [text[0]] + text[1..];
    }
  }
}
