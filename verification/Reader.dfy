/** What the server makes of a request line: UTF-8, JSON, and the fields of a request. */
module Reader {
  import opened Options
  import opened Protocol
  import opened Encoding
  import opened Json
  import opened Framing
  import opened Client

  datatype Reading = Accepted(request: Request) | Rejected(code: string) | Unreadable

  function ParseCredentials(ssid: Value, password: Value): Reading {
    if ssid.Text? && ValidSsid(ssid.text) && (password.Text? ==> ValidPassword(password.text)) then
      Accepted(Connect(ssid.text, if password.Text? then Some(password.text) else None))
    else Rejected("network_credentials_invalid")
  }

  /** `parse_request`. */
  function ParseRequest(fields: Object): Reading {
    if "api_version" !in fields || fields["api_version"] != Text("v1") then Rejected("api_version_invalid")
    else if "action" !in fields || fields["action"].Null? then Rejected("action_invalid")
    else
      var action := fields["action"].text;
      if action == "connect" then
        if fields.Keys == {"api_version", "action", "ssid", "password"}
        then ParseCredentials(fields["ssid"], fields["password"])
        else Rejected("request_fields_invalid")
      else if action == "status" || action == "scan" || action == "provisioning" then
        if fields.Keys != {"api_version", "action"} then Rejected("request_fields_invalid")
        else if action == "status" then Accepted(Status)
        else if action == "scan" then Accepted(Scan)
        else Accepted(Provisioning)
      else Rejected("action_invalid")
  }

  /** What the server makes of a line. */
  function ReadLine(line: seq<Byte>): Reading {
    match Decode(line)
    case None => Unreadable
    case Some(text) =>
      match ReadObject(text)
      case None => Unreadable
      case Some(fields) => ParseRequest(fields)
  }

  lemma {:induction false} CollectTwo(a: Field, b: Field, sofar: Object)
    ensures Collect([a, b], sofar) == sofar[a.name := a.value][b.name := b.value]
  {
    assert [a, b][1..] == [b] && [b][1..] == [];
    assert Collect([b], sofar[a.name := a.value]) == Collect([], sofar[a.name := a.value][b.name := b.value]);
  }

  lemma {:induction false} CollectFour(a: Field, b: Field, c: Field, d: Field, sofar: Object)
    ensures Collect([a, b, c, d], sofar)
         == sofar[a.name := a.value][b.name := b.value][c.name := c.value][d.name := d.value]
  {
    assert [a, b, c, d][1..] == [b, c, d] && [b, c, d][1..] == [c, d];
    CollectTwo(c, d, sofar[a.name := a.value][b.name := b.value]);
  }

  lemma {:induction false} FieldsAreParsed(request: Request)
    requires Buildable(request)
    ensures ParseRequest(Collect(FieldsOf(request), map[])) == Accepted(request)
  {
    var fields := FieldsOf(request);
    if request.Connect? {
      assert fields == [fields[0], fields[1], fields[2], fields[3]];
      CollectFour(fields[0], fields[1], fields[2], fields[3], map[]);
    } else {
      assert fields == [fields[0], fields[1]];
      CollectTwo(fields[0], fields[1], map[]);
    }
  }

  lemma {:induction false} LineIsRead(request: Request)
    requires Buildable(request)
    ensures ReadLine(Encode(Serialize(request))) == Accepted(request)
  {
    DecodeEncode(Serialize(request));
    ReadUndoesPrint(FieldsOf(request));
    FieldsAreParsed(request);
  }

  /** The server reads from what arrives the very request that the client was asked to make,
      however the socket cuts it. */
  lemma {:induction false} RequestIsRead(request: Request, cuts: nat -> nat, deadline: nat)
    requires Buildable(request) && deadline > MAX_REQUEST_BYTES + 1
    ensures var received := Receive(Sent(request), cuts, deadline, 0, 0);
      received.Line? && ReadLine(received.bytes) == Accepted(request)
  {
    ClientRequestArrives(request, cuts, deadline);
    LineIsRead(request);
  }
}
