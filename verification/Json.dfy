/** JSON objects of strings and nulls: how the client prints them and the server reads them. */
module Json {
  import opened Options
  import opened Protocol
  import opened Encoding

  datatype Value = Null | Text(text: string)

  /** A name with its value. */
  datatype Field = Field(name: string, value: Value)

  type Object = map<string, Value>

  // ---------------------------------------------------------------------------------------
  // Printing

  const HEX := "0123456789abcdef"

  /** The escape sequences of json.dumps with ensure_ascii=False. */
  function Sequence(c: char): (r: string)
    requires c == '"' || c == '\\' || c as int < 0x20
    ensures OneLine(r) && Ascii(r) && |r| <= 6
  {
    if c == '"' then "\\\""
    else if c == '\\' then "\\\\"
    else if c == '\n' then "\\n"
    else if c == '\r' then "\\r"
    else if c == '\t' then "\\t"
    else if c as int == 8 then "\\b"
    else if c as int == 12 then "\\f"
    else
      var high, low := HEX[c as int / 16], HEX[c as int % 16];
      assert high in HEX && low in HEX;
      ['\\', 'u', '0', '0', high, low]
  }

  function EscapeChar(c: char): (r: string)
    ensures OneLine(r)
    ensures |Encode(r)| <= 6 * |Utf8(c)|
  {
    if c == '"' || c == '\\' || c as int < 0x20 then
      EncodeLength(Sequence(c));
      Sequence(c)
    else
      EncodeOne(c);
      [c]
  }

  function Escape(text: string): (r: string)
    ensures OneLine(r)
  {
    if text == "" then "" else EscapeChar(text[0]) + Escape(text[1..])
  }

  function Quote(text: string): (r: string)
    ensures OneLine(r)
  {
    "\"" + Escape(text) + "\""
  }

  function PrintValue(v: Value): (r: string)
    ensures OneLine(r)
  {
    match v
    case Null => "null"
    case Text(s) => Quote(s)
  }

  function PrintField(f: Field): (r: string)
    ensures OneLine(r)
  {
    Quote(f.name) + ":" + PrintValue(f.value)
  }

  /** The fields after the first, and the closing brace. */
  function PrintRest(fields: seq<Field>): (r: string)
    ensures OneLine(r) && r != "" && !Blank(r[0])
  {
    if fields == [] then "}" else "," + (PrintField(fields[0]) + PrintRest(fields[1..]))
  }

  /** `json.dumps` of a dictionary with these fields, without spaces. */
  function Print(fields: seq<Field>): (r: string)
    requires fields != []
    ensures OneLine(r)
  {
    "{" + (PrintField(fields[0]) + PrintRest(fields[1..]))
  }

  lemma {:induction false} EncodeEscape(text: string)
    ensures |Encode(Escape(text))| <= 6 * |Encode(text)|
  {
    if text != "" {
      EncodeEscape(text[1..]);
      EncodeConcat(EscapeChar(text[0]), Escape(text[1..]));
    }
  }

  lemma {:induction false} QuoteIsShort(text: string)
    ensures |Encode(Quote(text))| <= 2 + 6 * |Encode(text)|
  {
    EncodeConcat("\"" + Escape(text), "\"");
    EncodeConcat("\"", Escape(text));
    EncodeLength("\"");
    EncodeEscape(text);
  }

  function Bulk(f: Field): nat {
    9 + 6 * |Encode(f.name)| + if f.value.Text? then 6 * |Encode(f.value.text)| else 2
  }

  function TotalBulk(fields: seq<Field>): nat {
    if fields == [] then 0 else Bulk(fields[0]) + TotalBulk(fields[1..])
  }

  lemma {:induction false} FieldIsShort(f: Field)
    ensures |Encode(PrintField(f))| < Bulk(f)
  {
    QuoteIsShort(f.name);
    if f.value.Text? {
      QuoteIsShort(f.value.text);
    } else {
      EncodeLength("null");
    }
    EncodeLength(":");
    EncodeConcat(Quote(f.name), ":");
    EncodeConcat(Quote(f.name) + ":", PrintValue(f.value));
  }

  lemma {:induction false} RestIsShort(fields: seq<Field>)
    ensures |Encode(PrintRest(fields))| <= 1 + TotalBulk(fields)
  {
    EncodeLength("}");
    if fields != [] {
      EncodeLength(",");
      FieldIsShort(fields[0]);
      RestIsShort(fields[1..]);
      EncodeConcat(PrintField(fields[0]), PrintRest(fields[1..]));
      EncodeConcat(",", PrintField(fields[0]) + PrintRest(fields[1..]));
    }
  }

  lemma {:induction false} PrintIsShort(fields: seq<Field>)
    requires fields != []
    ensures 1 <= |Encode(Print(fields))| <= 1 + TotalBulk(fields)
  {
    EncodeLength("{");
    FieldIsShort(fields[0]);
    RestIsShort(fields[1..]);
    EncodeConcat(PrintField(fields[0]), PrintRest(fields[1..]));
    EncodeConcat("{", PrintField(fields[0]) + PrintRest(fields[1..]));
  }

  // ---------------------------------------------------------------------------------------
  // Reading

  datatype Read<T> = Got(value: T, rest: string) | Malformed

  predicate Blank(c: char) {
    c == ' ' || c == '\t' || c == '\n' || c == '\r'
  }

  function Skip(text: string): (r: string)
    ensures |r| <= |text|
  {
    if text != "" && Blank(text[0]) then Skip(text[1..]) else text
  }

  function Digit(c: char): Option<nat> {
    if '0' <= c <= '9' then Some(c as int - '0' as int)
    else if 'a' <= c <= 'f' then Some(c as int - 'a' as int + 10)
    else if 'A' <= c <= 'F' then Some(c as int - 'A' as int + 10)
    else None
  }

  /** The character that four hexadecimal digits name. */
  function Hex(text: string): Option<char> {
    if |text| < 4 then None
    else
      match (Digit(text[0]), Digit(text[1]), Digit(text[2]), Digit(text[3]))
      case (Some(a), Some(b), Some(c), Some(d)) =>
        var code := a * 0x1000 + b * 0x100 + c * 0x10 + d;
        if IsScalar(code) then Some(code as char) else None
      case _ => None
  }

  /** An escape sequence after its backslash. */
  function ReadEscape(text: string): (r: Read<char>)
    ensures r.Got? ==> |r.rest| < |text|
  {
    if text == "" then Malformed
    else if text[0] == '"' || text[0] == '\\' || text[0] == '/' then Got(text[0], text[1..])
    else if text[0] == 'b' then Got(8 as char, text[1..])
    else if text[0] == 'f' then Got(12 as char, text[1..])
    else if text[0] == 'n' then Got('\n', text[1..])
    else if text[0] == 'r' then Got('\r', text[1..])
    else if text[0] == 't' then Got('\t', text[1..])
    else if text[0] == 'u' then
      match Hex(text[1..])
      case None => Malformed
      case Some(c) => Got(c, text[5..])
    else Malformed
  }

  function Prepend(c: char, read: Read<string>): Read<string> {
    match read
    case Malformed => Malformed
    case Got(s, rest) => Got([c] + s, rest)
  }

  /** A string after its opening quote. */
  function ReadString(text: string): (r: Read<string>)
    ensures r.Got? ==> |r.rest| < |text|
    decreases |text|
  {
    if text == "" || text[0] as int < 0x20 then Malformed
    else if text[0] == '"' then Got("", text[1..])
    else if text[0] != '\\' then Prepend(text[0], ReadString(text[1..]))
    else
      match ReadEscape(text[1..])
      case Malformed => Malformed
      case Got(c, rest) => Prepend(c, ReadString(rest))
  }

  function ReadValue(text: string): (r: Read<Value>)
    ensures r.Got? ==> |r.rest| < |text|
  {
    if text != "" && text[0] == '"' then
      match ReadString(text[1..])
      case Malformed => Malformed
      case Got(s, rest) => Got(Text(s), rest)
    else if |text| >= 4 && text[..4] == "null" then Got(Null, text[4..])
    else Malformed
  }

  /** One field: its name, a colon and its value. */
  function ReadField(text: string): (r: Read<Field>)
    ensures r.Got? ==> |r.rest| < |text|
  {
    if text == "" || text[0] != '"' then Malformed
    else
      match ReadString(text[1..])
      case Malformed => Malformed
      case Got(name, after) =>
        var colon := Skip(after);
        if colon == "" || colon[0] != ':' then Malformed
        else
          match ReadValue(Skip(colon[1..]))
          case Malformed => Malformed
          case Got(value, rest) => Got(Field(name, value), rest)
  }

  /** The fields up to the closing brace; the last of equal names counts. */
  function ReadFields(text: string, sofar: Object): Read<Object>
    decreases |text|
  {
    match ReadField(text)
    case Malformed => Malformed
    case Got(field, after) =>
      var now := sofar[field.name := field.value];
      var next := Skip(after);
      if next == "" then Malformed
      else if next[0] == '}' then Got(now, next[1..])
      else if next[0] == ',' then ReadFields(Skip(next[1..]), now)
      else Malformed
  }

  /** A whole text that is one object. */
  function ReadObject(text: string): Option<Object> {
    var start := Skip(text);
    if start == "" || start[0] != '{' then None
    else
      var inside := Skip(start[1..]);
      var read := if inside != "" && inside[0] == '}' then Got(map[], inside[1..]) else ReadFields(inside, map[]);
      if read.Got? && Skip(read.rest) == "" then Some(read.value) else None
  }

  // ---------------------------------------------------------------------------------------
  // Reading what was printed

  lemma {:induction false} ReadSequence(c: char, rest: string)
    requires c == '"' || c == '\\' || c as int < 0x20
    ensures Sequence(c)[0] == '\\' && ReadEscape((Sequence(c) + rest)[1..]) == Got(c, rest)
  {
    var text := (Sequence(c) + rest)[1..];
    if |Sequence(c)| == 2 {
      assert text == [Sequence(c)[1]] + rest;
    } else {
      var high, low := HEX[c as int / 16], HEX[c as int % 16];
      assert text == ['u', '0', '0', high, low] + rest;
      assert text[1..][..4] == ['0', '0', high, low] && text[5..] == rest;
      HexDigit(c as int / 16);
      HexDigit(c as int % 16);
    }
  }

  lemma {:induction false} HexDigit(n: nat)
    requires n < 16
    ensures Digit(HEX[n]) == Some(n)
  {
  }

  lemma {:induction false} ReadEscapedChar(c: char, rest: string)
    ensures ReadString(EscapeChar(c) + rest) == Prepend(c, ReadString(rest))
  {
    var text := EscapeChar(c) + rest;
    if c == '"' || c == '\\' || c as int < 0x20 {
      ReadSequence(c, rest);
    } else {
      assert text[0] == c && text[1..] == rest;
    }
  }

  lemma {:induction false} EscapedTail(s: string, rest: string)
    requires s != ""
    ensures Escape(s) + "\"" + rest == EscapeChar(s[0]) + (Escape(s[1..]) + "\"" + rest)
  {
  }

  lemma {:induction false} ReadQuoted(s: string, rest: string)
    ensures ReadString(Escape(s) + "\"" + rest) == Got(s, rest)
  {
    if s == "" {
      assert Escape(s) + "\"" + rest == "\"" + rest;
      assert ("\"" + rest)[1..] == rest;
    } else {
      EscapedTail(s, rest);
      ReadEscapedChar(s[0], Escape(s[1..]) + "\"" + rest);
      ReadQuoted(s[1..], rest);
      assert [s[0]] + s[1..] == s;
    }
  }

  /** The last of equal names counts. */
  function Collect(fields: seq<Field>, sofar: Object): Object {
    if fields == [] then sofar else Collect(fields[1..], sofar[fields[0].name := fields[0].value])
  }

  lemma {:induction false} ReadPrintedString(s: string, rest: string)
    ensures (Quote(s) + rest)[0] == '"' && ReadString((Quote(s) + rest)[1..]) == Got(s, rest)
  {
    ReadQuoted(s, rest);
    assert (Quote(s) + rest)[1..] == Escape(s) + "\"" + rest;
  }

  lemma {:induction false} ReadPrintedValue(v: Value, rest: string)
    ensures PrintValue(v) != "" && !Blank(PrintValue(v)[0])
    ensures ReadValue(PrintValue(v) + rest) == Got(v, rest)
  {
    if v.Text? {
      ReadPrintedString(v.text, rest);
    } else {
      assert ("null" + rest)[..4] == "null" && ("null" + rest)[4..] == rest;
    }
  }

  lemma {:induction false} PrintedFieldParts(f: Field, rest: string)
    ensures PrintField(f) + rest == Quote(f.name) + (":" + (PrintValue(f.value) + rest))
  {
    Reassociate(Quote(f.name), ":", PrintValue(f.value), rest);
  }

  lemma {:induction false} Reassociate(a: string, b: string, c: string, d: string)
    ensures a + b + c + d == a + (b + (c + d))
  {
  }

  lemma {:induction false} ReadParts(text: string, name: string, after: string, v: Value, rest: string)
    requires text != "" && text[0] == '"' && ReadString(text[1..]) == Got(name, after)
    requires after != "" && after[0] == ':' && ReadValue(Skip(after[1..])) == Got(v, rest)
    ensures ReadField(text) == Got(Field(name, v), rest)
  {
    NotBlank(after);
  }

  lemma {:induction false} ReadPrintedField(f: Field, rest: string)
    ensures ReadField(PrintField(f) + rest) == Got(f, rest)
    ensures PrintField(f) + rest != "" && (PrintField(f) + rest)[0] == '"'
  {
    var tail := PrintValue(f.value) + rest;
    var after := ":" + tail;
    PrintedFieldParts(f, rest);
    ReadPrintedString(f.name, after);
    ReadPrintedValue(f.value, rest);
    assert after[1..] == tail && tail[0] == PrintValue(f.value)[0];
    NotBlank(tail);
    ReadParts(Quote(f.name) + after, f.name, after, f.value, rest);
  }

  lemma {:induction false} NotBlank(text: string)
    requires text != "" && !Blank(text[0])
    ensures Skip(text) == text
  {
  }

  lemma {:induction false} ReadLast(text: string, f: Field, sofar: Object)
    requires ReadField(text) == Got(f, "}")
    ensures ReadFields(text, sofar) == Got(sofar[f.name := f.value], "")
  {
    NotBlank("}");
  }

  lemma {:induction false} ReadNext(text: string, f: Field, sofar: Object, next: string)
    requires ReadField(text) == Got(f, "," + next) && next != "" && !Blank(next[0])
    ensures ReadFields(text, sofar) == ReadFields(next, sofar[f.name := f.value])
  {
    NotBlank("," + next);
    assert ("," + next)[1..] == next;
    NotBlank(next);
  }

  /** The reader goes on with the rest of the fields, given the first. */
  lemma {:induction false} ReadPrintedFields(f: Field, fields: seq<Field>, sofar: Object)
    ensures ReadFields(PrintField(f) + PrintRest(fields), sofar)
         == Got(Collect(fields, sofar[f.name := f.value]), "")
    decreases |fields|
  {
    var text := PrintField(f) + PrintRest(fields);
    ReadPrintedField(f, PrintRest(fields));
    if fields == [] {
      ReadLast(text, f, sofar);
    } else {
      ReadPrintedField(fields[0], PrintRest(fields[1..]));
      ReadNext(text, f, sofar, PrintField(fields[0]) + PrintRest(fields[1..]));
      ReadPrintedFields(fields[0], fields[1..], sofar[f.name := f.value]);
    }
  }

  /** Reading an object of strings and nulls gives the printed fields, for all names and texts. */
  lemma {:induction false} ReadUndoesPrint(fields: seq<Field>)
    requires fields != []
    ensures ReadObject(Print(fields)) == Some(Collect(fields, map[]))
  {
    var text, inside := Print(fields), PrintField(fields[0]) + PrintRest(fields[1..]);
    assert text[1..] == inside;
    NotBlank(text);
    ReadPrintedField(fields[0], PrintRest(fields[1..]));
    NotBlank(inside);
    ReadPrintedFields(fields[0], fields[1..], map[]);
    assert Collect(fields, map[]) == Collect(fields[1..], map[fields[0].name := fields[0].value]);
  }
}
