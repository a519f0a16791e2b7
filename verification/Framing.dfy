/** One newline-terminated request per connection: the server's bounded receive loop against
    every way the socket may cut the stream, and the requests the client builds. */
module Framing {
  import opened Options
  import opened Protocol

  const RECEIVE_BYTES := 1024

  datatype Received =
    | Line(bytes: seq<Byte>)
    | Empty
    | TooLarge
    | TimedOut

  function Min(a: nat, b: nat): nat {
    if a <= b then a else b
  }

  /** The index of the first newline, or the length without one. */
  function FirstNewline(bytes: seq<Byte>): (i: nat)
    ensures i <= |bytes|
    ensures i < |bytes| ==> bytes[i] == NEWLINE
    ensures forall k :: 0 <= k < i ==> bytes[k] != NEWLINE
  {
    if bytes == [] || bytes[0] == NEWLINE then 0 else 1 + FirstNewline(bytes[1..])
  }

  /** What the loop makes of the bytes it holds. */
  function Finish(request: seq<Byte>): Received {
    if |request| > MAX_REQUEST_BYTES then TooLarge
    else
      var serialized := request[..FirstNewline(request)];
      if serialized == [] then Empty else Line(serialized)
  }

  /** The limit the server passes to `recv`. */
  function Limit(held: nat): (limit: nat)
    requires held <= MAX_REQUEST_BYTES
    ensures 1 <= limit <= RECEIVE_BYTES && held + limit <= MAX_REQUEST_BYTES + 1
    ensures limit == RECEIVE_BYTES || held + limit == MAX_REQUEST_BYTES + 1
  {
    Min(RECEIVE_BYTES, MAX_REQUEST_BYTES + 1 - held)
  }

  /** How many bytes call number `call` hands over: at least one until the stream ends, at most
      the limit, otherwise as the socket likes. */
  function Size(stream: seq<Byte>, cuts: nat -> nat, call: nat, held: nat): (size: nat)
    requires held <= |stream| && held <= MAX_REQUEST_BYTES
    ensures size <= Limit(held) && held + size <= |stream|
    ensures size == 0 <==> held == |stream|
  {
    var most := Min(Limit(held), |stream| - held);
    if cuts(call) == 0 then Min(1, most) else Min(cuts(call), most)
  }

  /** The receive loop from its call number `call` with the first `held` bytes in hand; the
      deadline passes before call number `deadline`. */
  function Receive(stream: seq<Byte>, cuts: nat -> nat, deadline: nat, call: nat, held: nat): Received
    requires held <= |stream|
    decreases |stream| - held
  {
    if held > MAX_REQUEST_BYTES then Finish(stream[..held])
    else if call >= deadline then TimedOut
    else
      var next := held + Size(stream, cuts, call, held);
      if next == held || NEWLINE in stream[held..next] then Finish(stream[..next])
      else Receive(stream, cuts, deadline, call + 1, next)
  }

  method ReceiveRequest(stream: seq<Byte>, cuts: nat -> nat, deadline: nat)
    returns (received: Received, held: nat)
    ensures received == Receive(stream, cuts, deadline, 0, 0)
    ensures held <= 2049
  {
    var request: seq<Byte> := [];
    var call := 0;
    held := 0;
    while held <= MAX_REQUEST_BYTES
      invariant held == |request| <= |stream| && request == stream[..held]
      invariant held <= MAX_REQUEST_BYTES + 1
      invariant Receive(stream, cuts, deadline, call, held) == Receive(stream, cuts, deadline, 0, 0)
      decreases |stream| - held
    {
      if call >= deadline {
        return TimedOut, held;
      }
      var next := held + Size(stream, cuts, call, held);
      var chunk := stream[held..next];
      ExtendSlice(stream, held, next);
      request, held := request + chunk, next;
      if chunk == [] || NEWLINE in chunk {
        break;
      }
      call := call + 1;
    }
    received := Finish(request);
  }

  lemma {:induction false} ExtendSlice(stream: seq<Byte>, held: nat, next: nat)
    requires held <= next <= |stream|
    ensures stream[..held] + stream[held..next] == stream[..next]
  {
  }

  /** What a stream means, without reference to chunks. */
  function Framed(stream: seq<Byte>): Received {
    var i := FirstNewline(stream);
    if i >= MAX_REQUEST_BYTES && |stream| > MAX_REQUEST_BYTES then TooLarge
    else if i == 0 then Empty
    else Line(stream[..i])
  }

  /** A stream is too large if more than 2048 bytes come before any newline; else its first line is
      the request, unless that is empty. */
  lemma {:induction false} FramedMeans(stream: seq<Byte>, line: seq<Byte>)
    ensures Framed(stream) == TooLarge <==> |stream| > 2048 && 10 !in stream[..2048]
    ensures Framed(stream) == Empty <==> stream == [] || stream[0] == 10
    ensures Framed(stream) == Line(line) <==>
      && line != [] && line <= stream && 10 !in line
      && (|line| < |stream| ==> stream[|line|] == 10)
      && (|stream| <= 2048 || |line| < 2048)
    ensures Framed(stream) != TimedOut
  {
    var i := FirstNewline(stream);
    if |stream| > 2048 && i < 2048 {
      assert stream[..2048][i] == 10;
    }
    if line <= stream && i < |line| {
      assert line[i] == 10;
    }
  }

  /** The streams whose treatment depends on the chunks: the newline is in time, but a last
      chunk may carry more bytes past it than the limit. */
  predicate Ambiguous(stream: seq<Byte>) {
    |stream| > MAX_REQUEST_BYTES && RECEIVE_BYTES < FirstNewline(stream) < MAX_REQUEST_BYTES
  }

  lemma {:induction false} NewlineOfPrefix(stream: seq<Byte>, n: nat)
    requires n <= |stream|
    ensures FirstNewline(stream[..n]) == Min(FirstNewline(stream), n)
  {
    var i, j := FirstNewline(stream), FirstNewline(stream[..n]);
    assert i < n ==> stream[..n][i] == stream[i];
    assert j < n ==> stream[..n][j] == stream[j];
  }

  /** The loop stops only where its bytes already decide the result. */
  lemma {:induction false} FinishIsFramed(stream: seq<Byte>, n: nat)
    requires n <= |stream|
    requires
      var i := FirstNewline(stream);
      i < n <= MAX_REQUEST_BYTES || (n > MAX_REQUEST_BYTES && i >= MAX_REQUEST_BYTES)
      || (n == |stream| <= MAX_REQUEST_BYTES && i == n)
    ensures Finish(stream[..n]) == Framed(stream)
  {
    var i := FirstNewline(stream);
    NewlineOfPrefix(stream, n);
    if n <= MAX_REQUEST_BYTES {
      assert stream[..n][..i] == stream[..i];
    }
  }

  lemma {:induction false} NewlineInChunk(stream: seq<Byte>, held: nat, next: nat)
    requires held <= FirstNewline(stream) && held <= next <= |stream|
    ensures NEWLINE in stream[held..next] <==> FirstNewline(stream) < next
  {
    var i := FirstNewline(stream);
    if i < next {
      assert stream[held..next][i - held] == NEWLINE;
    }
  }

  lemma {:induction false} ReceiveIsFramed(
      stream: seq<Byte>, cuts: nat -> nat, deadline: nat, call: nat, held: nat)
    requires !Ambiguous(stream)
    requires held <= FirstNewline(stream) && held <= MAX_REQUEST_BYTES + 1 && call <= held
    ensures var received := Receive(stream, cuts, deadline, call, held);
      && (received == Framed(stream) || received == TimedOut)
      && (deadline > MAX_REQUEST_BYTES + 1 ==> received == Framed(stream))
    decreases |stream| - held
  {
    if held > MAX_REQUEST_BYTES {
      FinishIsFramed(stream, held);
    } else if call < deadline {
      var next := held + Size(stream, cuts, call, held);
      NewlineInChunk(stream, held, next);
      if next == held || NEWLINE in stream[held..next] {
        FinishIsFramed(stream, next);
      } else {
        ReceiveIsFramed(stream, cuts, deadline, call + 1, next);
      }
    }
  }

  /** Unless the deadline passes, every way of cutting an unambiguous stream gives the same
      result, the one its bytes call for. */
  lemma {:induction false} ChunkIndependent(stream: seq<Byte>, cuts: nat -> nat, deadline: nat)
    requires !Ambiguous(stream)
    ensures var received := Receive(stream, cuts, deadline, 0, 0);
      && (received == Framed(stream) || received == TimedOut)
      && (deadline > MAX_REQUEST_BYTES + 1 ==> received == Framed(stream))
  {
    ReceiveIsFramed(stream, cuts, deadline, 0, 0);
  }

  lemma {:induction false} BytewiseAccepts(stream: seq<Byte>, deadline: nat, held: nat)
    requires Ambiguous(stream) && deadline > MAX_REQUEST_BYTES + 1 && held <= FirstNewline(stream)
    ensures Receive(stream, Bytewise(), deadline, held, held) == Line(stream[..FirstNewline(stream)])
    decreases |stream| - held
  {
    assert Size(stream, Bytewise(), held, held) == 1;
    NewlineInChunk(stream, held, held + 1);
    if held == FirstNewline(stream) {
      NewlineOfPrefix(stream, held + 1);
      assert stream[..held + 1][..held] == stream[..held];
    } else {
      BytewiseAccepts(stream, deadline, held + 1);
    }
  }

  function Bytewise(): nat -> nat {
    call => 1
  }

  /** A full chunk, one byte, and again a full chunk. */
  function Greedy(): nat -> nat {
    call => if call == 1 then 1 else RECEIVE_BYTES
  }

  lemma {:induction false} GreedyRejects(stream: seq<Byte>, deadline: nat)
    requires Ambiguous(stream) && deadline > MAX_REQUEST_BYTES + 1
    ensures Receive(stream, Greedy(), deadline, 0, 0) == TooLarge
  {
    NewlineInChunk(stream, 0, 1024);
    assert Receive(stream, Greedy(), deadline, 0, 0) == Receive(stream, Greedy(), deadline, 1, 1024);
    NewlineInChunk(stream, 1024, 1025);
    assert Receive(stream, Greedy(), deadline, 1, 1024) == Receive(stream, Greedy(), deadline, 2, 1025);
    NewlineInChunk(stream, 1025, 2049);
  }

  /** Exactly the ambiguous streams can be both accepted and rejected. */
  lemma {:induction false} ChunksMatterIffAmbiguous(stream: seq<Byte>, deadline: nat)
    requires deadline > MAX_REQUEST_BYTES + 1
    ensures Ambiguous(stream) <==>
      exists cuts, cuts' :: Receive(stream, cuts, deadline, 0, 0) != Receive(stream, cuts', deadline, 0, 0)
  {
    if Ambiguous(stream) {
      BytewiseAccepts(stream, deadline, 0);
      GreedyRejects(stream, deadline);
    } else {
      forall cuts, cuts'
        ensures Receive(stream, cuts, deadline, 0, 0) == Receive(stream, cuts', deadline, 0, 0)
      {
        ChunkIndependent(stream, cuts, deadline);
        ChunkIndependent(stream, cuts', deadline);
      }
    }
  }
}
