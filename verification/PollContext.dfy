/** The context handed to `poll_action`, and the body reader that uses it. */
module PollContext {
  import opened Outcomes
  import opened RequestBody
  import opened ActionSteps

  /** The context handed to `poll_action`. */
  class ActionContext {
    var body: Option<Body>
    ghost var handed: nat
    // the leaves and closure futures polled so far
    ghost var polls: seq<PollEvent>

    constructor (body: Option<Body>)
      ensures Contents() == Slot(body, 0) && polls == []
    {
      this.body := body;
      handed := 0;
      polls := [];
    }

    ghost function Contents(): Slot
      reads this
    {
      Slot(body, handed)
    }

    method Take() returns (r: Result<Body, Error>)
      modifies this
      ensures polls == old(polls)
      ensures Taken(Contents(), r) == TakeBody(old(Contents()))
      ensures body == None && r == if old(body).Some? then Ok(old(body).value) else Err(BodyStolen)
    {
      match body {
        case Some(b) =>
          r := Ok(b);
          body := None;
          handed := handed + 1;
        case None =>
          r := Err(BodyStolen);
      }
    }
  }

  /** One poll of `receive_all`. */
  method ReceiveAll(r: Receiver, cx: ActionContext) returns (r': Receiver, call: Result<Async<seq<bv8>>, Error>)
    modifies cx
    ensures cx.polls == old(cx.polls)
    ensures Received(r', cx.Contents(), call) == PollReceiver(r, old(cx.Contents()))
  {
    r' := r;
    while true
      invariant cx.polls == old(cx.polls)
      invariant r'.Start? ==> r == Start && cx.Contents() == old(cx.Contents())
      invariant r'.Receiving? ==>
                  var want := PollReceiver(r, old(cx.Contents()));
                  want == var d := Drain(r'.body, r'.buf); Received(d.receiver, cx.Contents(), d.call)
      decreases if r'.Start? then 1 else 0
    {
      match r' {
        case Start =>
          var payload := cx.Take();
          if payload.Err? {
            return r', Err(payload.error);
          }
          r' := Receiving(payload.value, []);
        case Receiving(body0, buf0) =>
          var body, buf := body0, buf0;
          while true
            invariant Drain(body, buf) == Drain(body0, buf0)
            decreases |body|
          {
            var (rest, answer) := PollBuf(body);
            match answer {
              case Err(e) => return Receiving(rest, buf), Err(e);
              case Ok(NotReady) => return Receiving(rest, buf), Ok(NotReady);
              case Ok(Ready(None)) => return Receiving(rest, []), Ok(Ready(buf));
              case Ok(Ready(Some(data))) => body, buf := rest, buf + data;
            }
          }
      }
    }
  }
}
