/** The wire contract's limits, its validators and the UTF-8 encoding they measure. */
module Protocol {
  const MAX_REQUEST_BYTES := 2048
  const MAX_NETWORKS := 64
  const SSID_MAX_BYTES := 32
  const PASSWORD_MIN_BYTES := 8
  const PASSWORD_MAX_BYTES := 63

  type Byte = b: int | 0 <= b < 256

  const NEWLINE: Byte := 10

  /** RFC 3629, section 3. */
  function Utf8(c: char): (r: seq<Byte>)
    ensures 1 <= |r| <= 4
    ensures c as int < 0x80 ==> r == [c as int]
    ensures c as int >= 0x80 ==> forall b :: b in r ==> b >= 0x80
  {
    var n := c as int;
    if n < 0x80 then [n]
    else if n < 0x800 then [0xC0 + n / 0x40, 0x80 + n % 0x40]
    else if n < 0x10000 then [0xE0 + n / 0x1000, 0x80 + n / 0x40 % 0x40, 0x80 + n % 0x40]
    else [0xF0 + n / 0x40000, 0x80 + n / 0x1000 % 0x40, 0x80 + n / 0x40 % 0x40, 0x80 + n % 0x40]
  }

  function Encode(text: string): seq<Byte> {
    if text == "" then [] else Utf8(text[0]) + Encode(text[1..])
  }

  predicate Control(c: char) {
    c as int < 0x20 || c as int == 0x7F
  }

  /** `validate_ssid` returns its argument. */
  predicate ValidSsid(value: string) {
    && 1 <= |Encode(value)| <= SSID_MAX_BYTES
    && forall c :: c in value ==> !Control(c)
  }

  /** `validate_password` returns its argument. */
  predicate ValidPassword(value: string) {
    && PASSWORD_MIN_BYTES <= |Encode(value)| <= PASSWORD_MAX_BYTES
    && forall c :: c in value ==> c != '\0' && c != '\r' && c != '\n'
  }
}
