/**
 The `/chat` endpoint of the web front end (app.py:14-24): read `message` and
 `continue` from the request body, refuse a request that has neither, and hand
 everything else to `generate_response`.
 */
module App {
  import opened Wrappers
  import opened Tasks
  import opened Session

  /**
   The fields of the JSON body, as a string message and a boolean flag. `None`
   stands for a field that is absent (or a body that is malformed or falsy, which
   the endpoint treats as an empty object); a `null` or non-string field is not
   represented.
   */
  datatype Request = Request(message: Option<string>, cont: Option<bool>)

  /** What the endpoint answers: a 400 error or the backend's reply as JSON. */
  datatype Reply =
    | BadRequest(status: nat, error: string)
    | Ok(body: Response)

  /** One exchange: the memory afterwards, the reply, and the model calls made. */
  datatype Exchange = Exchange(state: State, reply: Reply, calls: seq<Call>)

  const MissingMessage := "Message is required"

  /** `data.get(key, default)` for the two fields. */
  function MessageOf(req: Request): string {
    match req.message
    case Some(m) => m
    case None => ""
  }

  function ContinueOf(req: Request): bool {
    match req.cont
    case Some(c) => c
    case None => false
  }

  /**
   The handler: a request with an empty message that does not ask to continue is
   refused with status 400 before the backend is reached; any other request is
   answered by one backend turn on the message and the continue flag.
   */
  function Chat(s: State, req: Request, gw: Gateway): (x: Exchange)
    ensures x.reply.BadRequest? <==> MessageOf(req) == [] && !ContinueOf(req)
    ensures x.reply.BadRequest? ==>
              x.reply == BadRequest(400, MissingMessage) && x.state == s && x.calls == []
    ensures x.reply.Ok? ==> 1 <= |x.calls| <= 2
    ensures x.reply.Ok? ==>
              var o := GenerateResponse(s, MessageOf(req), ContinueOf(req), gw);
              x == Exchange(o.state, Ok(o.response), o.calls)
  {
    var message := MessageOf(req);
    var cont := ContinueOf(req);
    if message == [] && !cont then Exchange(s, BadRequest(400, MissingMessage), [])
    else
      var o := GenerateResponse(s, message, cont, gw);
      Exchange(o.state, Ok(o.response), o.calls)
  }

  /** A body without either field is refused, and so is an empty message alone. */
  lemma EmptyRequestRefused(s: State, gw: Gateway)
    ensures Chat(s, Request(None, None), gw).reply == BadRequest(400, MissingMessage)
    ensures Chat(s, Request(Some(""), Some(false)), gw).reply == BadRequest(400, MissingMessage)
  {
  }

  /**
   A bare "continue" request with no message field resumes the remembered task
   when there is one, and otherwise is classified as a general-assistant
   request on the empty text.
   */
  lemma BareContinue(s: State, gw: Gateway)
    requires Consistent(s)
    ensures var x := Chat(s, Request(None, Some(true)), gw);
      && x.reply.Ok?
      && (s.lastTask.Some? ==>
            |x.calls| == 1 && x.calls[0].model == ModelFor(s.lastTask.value)
            && x.calls[0].budget == ContinuationBudget)
      && (s.lastTask.None? ==> x.calls[0] == CallFor(Assistant, ""))
  {
    ContinuationWhenRemembered(s, true);
    if s.lastTask.Some? {
      ContinuationTurn(s, "", true, gw);
    } else {
      EmptyMessageGoesToAssistant(s, true, gw);
    }
  }

  /** The memory invariant survives every exchange, refused or answered. */
  lemma ChatKeepsConsistent(s: State, req: Request, gw: Gateway)
    requires Consistent(s)
    ensures Consistent(Chat(s, req, gw).state)
  {
    ConsistentPreserved(s, MessageOf(req), ContinueOf(req), gw);
  }
}
