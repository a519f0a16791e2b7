/** The requests that the client builds, and that they reach the server whole. */
module Client {
  import opened Options
  import opened Protocol
  import opened Encoding
  import opened Json
  import opened Framing

  datatype Request =
    | Status
    | Scan
    | Connect(ssid: string, password: Option<string>)
    | Provisioning

  /** The client's validators accept it. */
  predicate Buildable(request: Request) {
    request.Connect? ==>
      ValidSsid(request.ssid) && (request.password.Some? ==> ValidPassword(request.password.value))
  }

  function Action(request: Request): string {
    match request
    case Status => "status"
    case Scan => "scan"
    case Connect(_, _) => "connect"
    case Provisioning => "provisioning"
  }

  /** The request's dictionary. */
  function FieldsOf(request: Request): (fields: seq<Field>)
    ensures fields != []
  {
    [Field("api_version", Text("v1")), Field("action", Text(Action(request)))] +
    if request.Connect? then
      [Field("ssid", Text(request.ssid)),
       Field("password", if request.password.Some? then Text(request.password.value) else Null)]
    else []
  }

  function Serialize(request: Request): (r: string)
    ensures OneLine(r)
  {
    Print(FieldsOf(request))
  }

  /** The bytes the client sends. */
  function Sent(request: Request): seq<Byte> {
    Encode(Serialize(request)) + [NEWLINE]
  }

  lemma {:induction false} ActionIsShort(request: Request)
    ensures |Encode(Action(request))| <= 12
  {
    EncodeLength(Action(request));
  }

  lemma {:induction false} FixedNames()
    ensures |Encode("api_version")| == 11 && |Encode("v1")| == 2 && |Encode("action")| == 6
  {
    EncodeLength("api_version");
    EncodeLength("v1");
    EncodeLength("action");
  }

  lemma {:induction false} CredentialNames()
    ensures |Encode("ssid")| == 4 && |Encode("password")| == 8
  {
    EncodeLength("ssid");
    EncodeLength("password");
  }

  lemma {:induction false} BulkOfTwo(fields: seq<Field>)
    requires |fields| == 2
    ensures TotalBulk(fields) == Bulk(fields[0]) + Bulk(fields[1])
  {
    assert TotalBulk(fields[1..]) == Bulk(fields[1]) + TotalBulk([]);
  }

  lemma {:induction false} BulkOfFour(fields: seq<Field>)
    requires |fields| == 4
    ensures TotalBulk(fields) == Bulk(fields[0]) + Bulk(fields[1]) + Bulk(fields[2]) + Bulk(fields[3])
  {
    BulkOfTwo(fields[1..][1..]);
  }

  lemma {:induction false} HeadBulk(request: Request)
    ensures Bulk(FieldsOf(request)[0]) + Bulk(FieldsOf(request)[1]) <= 204
  {
    FixedNames();
    ActionIsShort(request);
  }

  lemma {:induction false} CredentialBulk(request: Request)
    requires Buildable(request) && request.Connect?
    ensures Bulk(FieldsOf(request)[2]) + Bulk(FieldsOf(request)[3]) <= 660
  {
    CredentialNames();
  }

  lemma {:induction false} RequestBulk(request: Request)
    requires Buildable(request)
    ensures TotalBulk(FieldsOf(request)) <= 999
  {
    HeadBulk(request);
    if request.Connect? {
      CredentialBulk(request);
      BulkOfFour(FieldsOf(request));
    } else {
      BulkOfTwo(FieldsOf(request));
    }
  }

  lemma {:induction false} SerializedFits(request: Request)
    requires Buildable(request)
    ensures 1 <= |Encode(Serialize(request))| <= 1000
  {
    RequestBulk(request);
    PrintIsShort(FieldsOf(request));
  }

  lemma {:induction false} LineArrives(line: string, cuts: nat -> nat, deadline: nat)
    requires OneLine(line) && 1 <= |Encode(line)| < MAX_REQUEST_BYTES && deadline > MAX_REQUEST_BYTES + 1
    ensures Receive(Encode(line) + [NEWLINE], cuts, deadline, 0, 0) == Line(Encode(line))
  {
    EncodeOneLine(line);
    var body := Encode(line);
    var stream := body + [NEWLINE];
    assert stream[..|body|] == body && stream[|body|] == NEWLINE;
    assert forall x :: 0 <= x < |body| ==> stream[x] == body[x] != NEWLINE;
    assert FirstNewline(stream) == |body|;
    ChunkIndependent(stream, cuts, deadline);
  }

  /** Whatever the client can build, the server receives whole, however the socket cuts it. */
  lemma {:induction false} ClientRequestArrives(request: Request, cuts: nat -> nat, deadline: nat)
    requires Buildable(request) && deadline > MAX_REQUEST_BYTES + 1
    ensures |Sent(request)| <= MAX_REQUEST_BYTES
    ensures Receive(Sent(request), cuts, deadline, 0, 0) == Line(Encode(Serialize(request)))
  {
    SerializedFits(request);
    LineArrives(Serialize(request), cuts, deadline);
  }
}
