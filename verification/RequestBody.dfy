/** The request body: a slot it can be taken from once, and its chunks. */
module RequestBody {
  import opened Outcomes

  /** The body slot of an `ActionContext`, with a count of how often the body has
      been handed out. */
  datatype Slot = Slot(body: Option<Body>, handed: nat)

  datatype Taken = Taken(slot: Slot, result: Result<Body, Error>)

  function TakeBody(s: Slot): Taken {
    match s.body
    case Some(b) => Taken(Slot(None, s.handed + 1), Ok(b))
    case None => Taken(s, Err(BodyStolen))
  }

  /** One `poll_buf`: nothing left means the end of the stream. */
  function PollBuf(body: Body): (r: (Body, Result<Async<Option<seq<bv8>>>, Error>))
    ensures body != [] ==> |r.0| == |body| - 1
    ensures body == [] ==> r == ([], Ok(Ready(None)))
  {
    if body == [] then ([], Ok(Ready(None)))
    else match body[0]
      case Wait => (body[1..], Ok(NotReady))
      case Chunk(data) => (body[1..], Ok(Ready(Some(data))))
      case Broken(e) => (body[1..], Err(e))
  }

  /** All bytes of the body in order, or the error that breaks it off. */
  function Payload(body: Body): Result<seq<bv8>, Error> {
    if body == [] then Ok([])
    else match body[0]
      case Wait => Payload(body[1..])
      case Broken(e) => Err(e)
      case Chunk(data) =>
        match Payload(body[1..])
        case Ok(rest) => Ok(data + rest)
        case Err(e) => Err(e)
  }

  /** How often the body answers `NotReady` before its end or its error. */
  function Stalls(body: Body): nat {
    if body == [] then 0
    else match body[0]
      case Wait => 1 + Stalls(body[1..])
      case Broken(_) => 0
      case Chunk(_) => Stalls(body[1..])
  }

  /** The body without its `NotReady` answers. */
  function WithoutStalls(body: Body): Body {
    if body == [] then []
    else (if body[0].Wait? then [] else [body[0]]) + WithoutStalls(body[1..])
  }

  /** Delivering the same chunks on another schedule changes no byte. */
  lemma {:induction false} PayloadIgnoresStalls(body: Body)
    ensures Payload(WithoutStalls(body)) == Payload(body) && Stalls(WithoutStalls(body)) == 0
  {
    if body != [] {
      PayloadIgnoresStalls(body[1..]);
      var rest := WithoutStalls(body[1..]);
      assert ([body[0]] + rest)[1..] == rest;
      assert [] + rest == rest;
    }
  }

  function Prefixed(buf: seq<bv8>, r: Result<seq<bv8>, Error>): Result<seq<bv8>, Error> {
    match r
    case Ok(bytes) => Ok(buf + bytes)
    case Err(e) => Err(e)
  }

  /** The payload of a body delivered in two parts is the payloads of the parts,
      in order, nothing lost and nothing repeated. */
  lemma {:induction false} PayloadConcatenates(first: Body, second: Body)
    ensures match Payload(first)
            case Ok(bytes) => Payload(first + second) == Prefixed(bytes, Payload(second))
            case Err(e) => Payload(first + second) == Err(e)
    ensures Payload(first).Ok? <==> forall b <- first :: !b.Broken?
  {
    if first == [] {
      assert first + second == second;
      assert Payload(second).Ok? ==> [] + Payload(second).value == Payload(second).value;
    } else {
      assert (first + second)[1..] == first[1..] + second;
      assert first == [first[0]] + first[1..];
      PayloadConcatenates(first[1..], second);
      if first[0].Chunk? && Payload(first).Ok? && Payload(second).Ok? {
        var data, rest, more := first[0].data, Payload(first[1..]).value, Payload(second).value;
        assert data + (rest + more) == (data + rest) + more;
      }
    }
  }

  /** The payload and the waits of what a body consists of. */
  lemma PayloadOfOne(b: Buf)
    ensures Payload([]) == Ok([]) && Stalls([]) == 0
    ensures Stalls([b]) == if b.Wait? then 1 else 0
    ensures b.Wait? ==> Payload([b]) == Ok([])
    ensures b.Chunk? ==> Payload([b]) == Ok(b.data)
    ensures b.Broken? ==> Payload([b]) == Err(b.error)
  {
    assert [b][1..] == [];
    assert b.Chunk? ==> b.data + [] == b.data;
  }

  /** The waits of a body delivered in two parts: those of the first, and those of
      the second unless the first is broken off. */
  lemma {:induction false} StallsAdd(first: Body, second: Body)
    ensures Stalls(first + second) == Stalls(first) + if Payload(first).Ok? then Stalls(second) else 0
  {
    if first == [] {
      assert first + second == second;
    } else {
      assert (first + second)[1..] == first[1..] + second;
      StallsAdd(first[1..], second);
    }
  }

  /** `receive_all` between two polls. */
  datatype Receiver = Start | Receiving(body: Body, buf: seq<bv8>)

  datatype Drained = Drained(receiver: Receiver, call: Result<Async<seq<bv8>>, Error>)

  /** The inner loop of `receive_all`: poll the body until it is not ready,
      breaks or ends. */
  function Drain(body: Body, buf: seq<bv8>): Drained
    decreases |body|
  {
    var (rest, answer) := PollBuf(body);
    match answer
    case Err(e) => Drained(Receiving(rest, buf), Err(e))
    case Ok(NotReady) => Drained(Receiving(rest, buf), Ok(NotReady))
    case Ok(Ready(Some(data))) => Drain(rest, buf + data)
    case Ok(Ready(None)) => Drained(Receiving(rest, []), Ok(Ready(buf)))
  }

  /** The bytes of the body up to the error that breaks it off, or all of them. */
  function BytesBeforeBreak(body: Body): seq<bv8> {
    if body == [] || body[0].Broken? then []
    else (if body[0].Chunk? then body[0].data else []) + BytesBeforeBreak(body[1..])
  }

  /** Whatever point the inner loop has reached, what is buffered followed by
      what is still to come is the payload, and each `NotReady` of the loop is one
      of the body's own; what came before an error stays buffered. */
  lemma {:induction false} DrainKeepsPayload(body: Body, buf: seq<bv8>)
    ensures var d := Drain(body, buf);
            match d.call
            case Ok(Ready(bytes)) =>
              Prefixed(buf, Payload(body)) == Ok(bytes) && Stalls(body) == 0 && d.receiver == Receiving([], [])
            case Err(e) =>
              && Payload(body) == Err(e) && Stalls(body) == 0
              && d.receiver.Receiving? && d.receiver.buf == buf + BytesBeforeBreak(body)
            case Ok(NotReady) =>
              && d.receiver.Receiving?
              && Prefixed(buf, Payload(body)) == Prefixed(d.receiver.buf, Payload(d.receiver.body))
              && Stalls(body) == 1 + Stalls(d.receiver.body)
    decreases |body|
  {
    if body == [] || body[0].Broken? {
      assert buf + [] == buf;
    } else if body[0].Chunk? {
      var data := body[0].data;
      DrainKeepsPayload(body[1..], buf + data);
      assert buf + data + BytesBeforeBreak(body[1..]) == buf + (data + BytesBeforeBreak(body[1..]));
      if Payload(body[1..]).Ok? {
        assert buf + data + Payload(body[1..]).value == buf + (data + Payload(body[1..]).value);
      }
    }
  }

  datatype Received = Received(receiver: Receiver, slot: Slot, call: Result<Async<seq<bv8>>, Error>)

  /** One `poll_action` of `receive_all`. */
  function PollReceiver(r: Receiver, s: Slot): Received {
    match r
    case Receiving(body, buf) =>
      var d := Drain(body, buf);
      Received(d.receiver, s, d.call)
    case Start =>
      var t := TakeBody(s);
      match t.result
      case Err(e) => Received(r, t.slot, Err(e))
      case Ok(body) =>
        var d := Drain(body, []);
        Received(d.receiver, t.slot, d.call)
  }
}
