/** nmcli's escaped terse lines: fields joined with ':', with '\' before ':' and '\'. */
module Fields {
  /** The fields still to come, given the unfinished field and whether '\' was just read. */
  function Resume(line: string, current: string, escaped: bool): (fields: seq<string>)
    ensures fields != []
  {
    if line == "" then [if escaped then current + "\\" else current]
    else if escaped then Resume(line[1..], current + [line[0]], false)
    else if line[0] == '\\' then Resume(line[1..], current, true)
    else if line[0] == ':' then [current] + Resume(line[1..], "", false)
    else Resume(line[1..], current + [line[0]], false)
  }

  function Split(line: string): seq<string> {
    Resume(line, "", false)
  }

  method SplitEscapedFields(line: string) returns (fields: seq<string>)
    ensures fields == Split(line)
  {
    fields := [];
    var current := "";
    var escaped := false;
    for i := 0 to |line|
      invariant fields + Resume(line[i..], current, escaped) == Split(line)
    {
      var character := line[i];
      assert line[i..][1..] == line[i + 1..];
      if escaped {
        current := current + [character];
        escaped := false;
      } else if character == '\\' {
        escaped := true;
      } else if character == ':' {
        assert fields + ([current] + Resume(line[i + 1..], "", false))
            == fields + [current] + Resume(line[i + 1..], "", false);
        fields := fields + [current];
        current := "";
      } else {
        current := current + [character];
      }
    }
    if escaped {
      current := current + "\\";
    }
    fields := fields + [current];
  }

  /** What nmcli does to one character. */
  function EscapeChar(c: char): string {
    if c == ':' || c == '\\' then ['\\', c] else [c]
  }

  /** And to one field. */
  function Escape(field: string): string {
    if field == "" then "" else EscapeChar(field[0]) + Escape(field[1..])
  }

  function Join(fields: seq<string>): string
    requires fields != []
  {
    if |fields| == 1 then Escape(fields[0]) else Escape(fields[0]) + ":" + Join(fields[1..])
  }

  lemma {:induction false} ResumeEscapedChar(c: char, rest: string, current: string)
    ensures Resume(EscapeChar(c) + rest, current, false) == Resume(rest, current + [c], false)
  {
    var line := EscapeChar(c) + rest;
    if c == ':' || c == '\\' {
      assert line[0] == '\\' && line[1..] == [c] + rest;
      assert ([c] + rest)[1..] == rest;
    } else {
      assert line[0] == c && line[1..] == rest;
    }
  }

  lemma {:induction false} ResumeEscaped(field: string, rest: string, current: string)
    ensures Resume(Escape(field) + rest, current, false) == Resume(rest, current + field, false)
  {
    if field == "" {
      assert Escape(field) + rest == rest && current + field == current;
    } else {
      var tail := Escape(field[1..]) + rest;
      assert Escape(field) + rest == EscapeChar(field[0]) + tail;
      ResumeEscapedChar(field[0], tail, current);
      ResumeEscaped(field[1..], rest, current + [field[0]]);
      assert current + [field[0]] + field[1..] == current + field;
    }
  }

  lemma {:induction false} SplitUndoesJoin(fields: seq<string>)
    requires fields != []
    ensures Split(Join(fields)) == fields
  {
    if |fields| == 1 {
      ResumeEscaped(fields[0], "", "");
      assert Escape(fields[0]) + "" == Join(fields);
      assert "" + fields[0] == fields[0];
    } else {
      var rest := ":" + Join(fields[1..]);
      assert Join(fields) == Escape(fields[0]) + rest;
      ResumeEscaped(fields[0], rest, "");
      assert "" + fields[0] == fields[0] && rest[1..] == Join(fields[1..]);
      SplitUndoesJoin(fields[1..]);
      assert fields == [fields[0]] + fields[1..];
    }
  }

  /** The character at `i` follows an odd run of backslashes. */
  predicate EscapedAt(line: string, i: nat)
    requires i <= |line|
  {
    i > 0 && line[i - 1] == '\\' && !EscapedAt(line, i - 1)
  }

  function UnescapedColons(line: string, end: nat): nat
    requires end <= |line|
  {
    if end == 0 then 0
    else UnescapedColons(line, end - 1) + if line[end - 1] == ':' && !EscapedAt(line, end - 1) then 1 else 0
  }

  lemma {:induction false} CountFrom(line: string, i: nat, current: string)
    requires i <= |line|
    ensures UnescapedColons(line, i) + |Resume(line[i..], current, EscapedAt(line, i))|
         == 1 + UnescapedColons(line, |line|)
    decreases |line| - i
  {
    if i < |line| {
      assert line[i..][1..] == line[i + 1..];
      var next := if EscapedAt(line, i) then current + [line[i]]
                  else if line[i] == '\\' then current
                  else if line[i] == ':' then "" else current + [line[i]];
      CountFrom(line, i + 1, next);
    }
  }

  lemma {:induction false} FieldCount(line: string)
    ensures |Split(line)| == 1 + UnescapedColons(line, |line|)
  {
    CountFrom(line, 0, "");
    assert line[0..] == line;
  }
}
