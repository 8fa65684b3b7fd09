/** The agent worker's notification handler
    (python/agent_worker/handlers/notification_handler.py): a submitted
    request is turned into a ticket by the language model and answered through
    `fulfill_request`; failures are answered with error replies and raised as
    `RequestProcessingError`. */
module AgentHandler {
  import opened Json
  import opened NotificationModels
  import Dispatch

  /** The ticket the language model produces. */
  datatype Ticket = Ticket(title: string, contents: string)

  /** `parse_requirements_to_ticket`: a ticket, an `OpenAIError` with its
      text, or any other exception. */
  datatype LlmOutcome = Parsed(ticket: Ticket) | OpenAIError(message: string) | LlmCrash

  /** `fulfill_request`: returns, raises `ApiError` with its text, or raises
      any other exception. */
  datatype ApiOutcome = Fulfilled | ApiError(message: string) | ApiCrash

  /** One `fulfill_request(ref, response)` call. */
  datatype Fulfillment = Fulfillment(ref: Json, response: string)

  /** What `_handle_request_submission` raises: a `RequestProcessingError`
      with its text, an exception that escaped from `_send_error_response`, or
      the `AttributeError` of a name that is not a string. */
  datatype SubmissionError =
    | RequestProcessingError(message: string)
    | Escaped
    | Raised(error: PyError)

  /** `NotificationError`, wrapping what `handle_notification` caught. */
  datatype NotificationError = NotificationError(cause: SubmissionError)

  const InvalidRequestMessage := "Invalid request notification format"
  const UnexpectedMessage := "An unexpected error occurred"
  const TitleHeader := "*Title:*\n"
  const DetailsHeader := "\n\n*Implementation Details:*\n```\n"
  const Fence := "\n```"
  const ErrorPrefix := "*Error:* "

  function OpenAIFailureMessage(py: Builtins, ref: Json): string {
    "OpenAI service error while processing request " + Str(py, ref)
  }

  function UnexpectedFailureMessage(py: Builtins, ref: Json): string {
    "Unexpected error while processing request " + Str(py, ref)
  }

  /** The reply for a parsed ticket. */
  function FormatTicket(t: Ticket): string {
    TitleHeader + t.title + DetailsHeader + t.contents + Fence
  }

  /** The reply `_send_error_response` sends. */
  function ErrorReply(message: string): string {
    ErrorPrefix + message
  }

  /** Where the title and contents sit in a ticket reply. */
  lemma TicketLayout(t: Ticket)
    ensures var s, h := FormatTicket(t), |TitleHeader|;
            var e := h + |t.title|;
            && |s| == e + |DetailsHeader| + |t.contents| + |Fence|
            && s[h..e] == t.title
            && s[e] == '\n'
            && s[e + |DetailsHeader|..|s| - |Fence|] == t.contents
  {
    var s, h := FormatTicket(t), |TitleHeader|;
    var e := h + |t.title|;
    assert s == TitleHeader + t.title + DetailsHeader + t.contents + Fence;
    assert s[e] == DetailsHeader[0];
  }

  /** A ticket reply can be read back: for a one-line title, the title and
      contents are determined by the reply. */
  lemma FormatTicketInjective(t1: Ticket, t2: Ticket)
    requires '\n' !in t1.title && '\n' !in t2.title
    requires FormatTicket(t1) == FormatTicket(t2)
    ensures t1 == t2
  {
    TicketLayout(t1);
    TicketLayout(t2);
  }

  /** An error reply is never taken for a ticket reply. */
  lemma ErrorReplyIsNotTicket(message: string, t: Ticket)
    ensures ErrorReply(message) != FormatTicket(t)
  {
    assert ErrorReply(message)[1] == 'E';
    assert FormatTicket(t)[1] == 'T';
  }

  /** The `fulfill_request` calls of one `_send_error_response`, and whether an
      exception other than `ApiError` escaped from it. */
  function SendErrorSpec(api: (Fulfillment, nat) -> ApiOutcome, ref: Json, message: string, k: nat): (seq<Fulfillment>, bool) {
    var f := Fulfillment(ref, ErrorReply(message));
    ([f], api(f, k).ApiCrash?)
  }

  /** The `fulfill_request` calls `_handle_request_submission` makes for a
      well-formed request and what it raises, given the model's outcome and
      the client's outcome for each call (`k` calls were made before). */
  function SubmissionSpec(py: Builtins, api: (Fulfillment, nat) -> ApiOutcome, request: Request, llm: LlmOutcome, k: nat)
    : (seq<Fulfillment>, Result<(), SubmissionError>)
  {
    var ref := request.ref;
    match llm
    case Parsed(ticket) =>
      var f := Fulfillment(ref, FormatTicket(ticket));
      (match api(f, k)
       case Fulfilled => ([f], Ok(()))
       case ApiError(m) =>
         // the RequestProcessingError raised after the first error reply (or
         // an exception escaping from it) is caught again by `except Exception`
         var (first, _) := SendErrorSpec(api, ref, m, k + 1);
         var (second, escaped) := SendErrorSpec(api, ref, UnexpectedMessage, k + 2);
         ([f] + first + second,
          if escaped then Err(Escaped) else Err(RequestProcessingError(UnexpectedFailureMessage(py, ref))))
       case ApiCrash =>
         var (second, escaped) := SendErrorSpec(api, ref, UnexpectedMessage, k + 1);
         ([f] + second,
          if escaped then Err(Escaped) else Err(RequestProcessingError(UnexpectedFailureMessage(py, ref)))))
    case OpenAIError(m) =>
      var (first, escaped) := SendErrorSpec(api, ref, m, k);
      (first, if escaped then Err(Escaped) else Err(RequestProcessingError(OpenAIFailureMessage(py, ref))))
    case LlmCrash =>
      var (first, escaped) := SendErrorSpec(api, ref, UnexpectedMessage, k);
      (first, if escaped then Err(Escaped) else Err(RequestProcessingError(UnexpectedFailureMessage(py, ref))))
  }

  /** Success is exactly one call, with the formatted ticket, and happens iff
      the model parsed a ticket and the call returned. */
  lemma SubmissionSucceeds(py: Builtins, api: (Fulfillment, nat) -> ApiOutcome, request: Request, llm: LlmOutcome, k: nat)
    ensures SubmissionSpec(py, api, request, llm, k).1.Ok? <==>
              llm.Parsed? && api(Fulfillment(request.ref, FormatTicket(llm.ticket)), k).Fulfilled?
    ensures SubmissionSpec(py, api, request, llm, k).1.Ok? ==>
              SubmissionSpec(py, api, request, llm, k).0 == [Fulfillment(request.ref, FormatTicket(llm.ticket))]
  {
  }

  /** Every call answers the request's own reference; the first carries the
      ticket when there is one and the error text otherwise; at most three
      calls are made. */
  lemma SubmissionCalls(py: Builtins, api: (Fulfillment, nat) -> ApiOutcome, request: Request, llm: LlmOutcome, k: nat)
    ensures var calls := SubmissionSpec(py, api, request, llm, k).0;
            && 1 <= |calls| <= 3
            && (forall i :: 0 <= i < |calls| ==> calls[i].ref == request.ref)
            && (llm.Parsed? ==> calls[0].response == FormatTicket(llm.ticket))
            && (llm.OpenAIError? ==> calls == [Fulfillment(request.ref, ErrorReply(llm.message))])
            && (llm.LlmCrash? ==> calls == [Fulfillment(request.ref, ErrorReply(UnexpectedMessage))])
  {
  }

  /** A rejected fulfilment is answered twice: first with the `ApiError` text,
      then, once the raised error is caught again, with the generic message. */
  lemma ApiErrorRepliesTwice(py: Builtins, api: (Fulfillment, nat) -> ApiOutcome, request: Request, t: Ticket, k: nat)
    requires api(Fulfillment(request.ref, FormatTicket(t)), k).ApiError?
    ensures var m := api(Fulfillment(request.ref, FormatTicket(t)), k).message;
            var (calls, r) := SubmissionSpec(py, api, request, Parsed(t), k);
            && calls == [Fulfillment(request.ref, FormatTicket(t)),
                         Fulfillment(request.ref, ErrorReply(m)),
                         Fulfillment(request.ref, ErrorReply(UnexpectedMessage))]
            && r.Err?
            && (r.error.RequestProcessingError? ==> r.error.message == UnexpectedFailureMessage(py, request.ref))
  {
  }

  /** An `ApiError` from an error reply never propagates: only another kind of
      exception from the client escapes. */
  lemma ErrorReplySwallowsApiError(py: Builtins, api: (Fulfillment, nat) -> ApiOutcome, request: Request, llm: LlmOutcome, k: nat)
    ensures var (calls, r) := SubmissionSpec(py, api, request, llm, k);
            r == Err(Escaped) ==> api(calls[|calls| - 1], k + |calls| - 1).ApiCrash?
  {
  }

  /** The `fulfill_request` calls `handle_notification` makes: none unless the
      notification holds a well-formed request. */
  function NotificationCalls(py: Builtins, api: (Fulfillment, nat) -> ApiOutcome, llm: string -> LlmOutcome, n: ApiNotification, k: nat)
    : seq<Fulfillment>
  {
    match GetRequest(py, n)
    case Ok(Some(request)) => SubmissionSpec(py, api, request, llm(request.text), k).0
    case _ => []
  }

  /** The parameters of `AgentNotificationHandler.__init__` after `self`. */
  const InitParameters: set<string> := {"config", "openai_service"}

  /** Python's binding of a call by keywords to `__init__`: both parameters
      are required and no other keyword is accepted; otherwise `TypeError`. */
  function BindInit(keywords: set<string>): (r: Result<(), PyError>)
    ensures r.Ok? <==> "config" in keywords && "openai_service" in keywords && keywords <= InitParameters
    ensures r.Err? ==> r.error == TypeError
  {
    if keywords == InitParameters then Ok(()) else Err(TypeError)
  }

  /** The agent worker's `main` as written builds the handler with
      `config=` and `llm_service=`: the call raises `TypeError`, which `main`
      catches, so `consume_sse` is never reached. */
  lemma MainAsWrittenNeverSubscribes()
    ensures BindInit({"config", "llm_service"}) == Err(TypeError)
  {
    assert "llm_service" !in InitParameters;
  }

  /** Passing the service as `openai_service=` builds the handler, after
      which the worker subscribes as the connectors do. */
  lemma MainCorrectedBinds()
    ensures BindInit({"config", "openai_service"}) == Ok(())
  {
  }

  /** The API client; `api` gives the outcome of the `k`-th call. */
  class ApiClient {
    const api: (Fulfillment, nat) -> ApiOutcome
    var calls: seq<Fulfillment>

    constructor(api: (Fulfillment, nat) -> ApiOutcome)
      ensures this.api == api && calls == []
    {
      this.api := api;
      calls := [];
    }

    /** `fulfill_request`. */
    method FulfillRequest(ref: Json, response: string) returns (r: ApiOutcome)
      modifies this
      ensures calls == old(calls) + [Fulfillment(ref, response)]
      ensures r == api(Fulfillment(ref, response), |old(calls)|)
    {
      r := api(Fulfillment(ref, response), |calls|);
      calls := calls + [Fulfillment(ref, response)];
    }
  }

  class AgentNotificationHandler {
    const py: Builtins
    const parse: string -> Option<Json>
    const llm: string -> LlmOutcome
    const client: ApiClient

    constructor(py: Builtins, parse: string -> Option<Json>, llm: string -> LlmOutcome, client: ApiClient)
      ensures this.py == py && this.parse == parse && this.llm == llm && this.client == client
    {
      this.py := py;
      this.parse := parse;
      this.llm := llm;
      this.client := client;
    }

    /** `_send_error_response`: an `ApiError` is swallowed, any other
        exception escapes. */
    method SendErrorResponse(ref: Json, message: string) returns (escaped: bool)
      modifies client
      ensures var (calls, escapes) := SendErrorSpec(client.api, ref, message, |old(client.calls)|);
              client.calls == old(client.calls) + calls && escaped == escapes
    {
      var outcome := client.FulfillRequest(ref, ErrorReply(message));
      escaped := outcome.ApiCrash?;
    }

    /** `_handle_request_submission`. */
    method HandleRequestSubmission(n: ApiNotification) returns (r: Result<(), SubmissionError>)
      modifies client
      ensures match GetRequest(py, n)
              case Err(e) => r == Err(Raised(e)) && client.calls == old(client.calls)
              case Ok(None) => r == Err(RequestProcessingError(InvalidRequestMessage)) && client.calls == old(client.calls)
              case Ok(Some(request)) =>
                var (calls, outcome) := SubmissionSpec(py, client.api, request, llm(request.text), |old(client.calls)|);
                client.calls == old(client.calls) + calls && r == outcome
    {
      var request := GetRequest(py, n);
      if request.Err? {
        return Err(Raised(request.error));
      }
      if request.value.None? {
        return Err(RequestProcessingError(InvalidRequestMessage));
      }
      r := Submit(request.value.value);
    }

    /** The body of `_handle_request_submission` once the request is
        extracted: the model, the fulfilment and the error replies. */
    method Submit(req: Request) returns (r: Result<(), SubmissionError>)
      modifies client
      ensures var (calls, outcome) := SubmissionSpec(py, client.api, req, llm(req.text), |old(client.calls)|);
              client.calls == old(client.calls) + calls && r == outcome
    {
      var ref := req.ref;
      var escaped: bool;
      match llm(req.text)
      case Parsed(ticket) =>
        var outcome := client.FulfillRequest(ref, FormatTicket(ticket));
        match outcome {
          case Fulfilled =>
            r := Ok(());
          case ApiError(m) =>
            // `_send_error_response` and the raise of "Failed to fulfill
            // request" both end in the `except Exception` handler
            var _ := SendErrorResponse(ref, m);
            escaped := SendErrorResponse(ref, UnexpectedMessage);
            r := if escaped then Err(Escaped) else Err(RequestProcessingError(UnexpectedFailureMessage(py, ref)));
          case ApiCrash =>
            escaped := SendErrorResponse(ref, UnexpectedMessage);
            r := if escaped then Err(Escaped) else Err(RequestProcessingError(UnexpectedFailureMessage(py, ref)));
        }
      case OpenAIError(m) =>
        escaped := SendErrorResponse(ref, m);
        r := if escaped then Err(Escaped) else Err(RequestProcessingError(OpenAIFailureMessage(py, ref)));
      case LlmCrash =>
        escaped := SendErrorResponse(ref, UnexpectedMessage);
        r := if escaped then Err(Escaped) else Err(RequestProcessingError(UnexpectedFailureMessage(py, ref)));
    }

    /** `handle_notification`: every exception comes out as a
        `NotificationError`; a notification that is not a submission makes
        no call. */
    method HandleNotification(n: ApiNotification) returns (r: Result<(), NotificationError>)
      modifies client
      ensures !n.name.JStr? ==> r == Err(NotificationError(Raised(AttributeError))) && client.calls == old(client.calls)
      ensures n.name.JStr? && !EndsWith(n.name.s, RequestSubmittedSuffix) ==> r == Ok(()) && client.calls == old(client.calls)
      ensures n.name.JStr? && EndsWith(n.name.s, RequestSubmittedSuffix) && GetRequest(py, n) == Ok(None) ==>
                r == Err(NotificationError(RequestProcessingError(InvalidRequestMessage)))
      ensures client.calls == old(client.calls) + NotificationCalls(py, client.api, llm, n, |old(client.calls)|)
      ensures GetRequest(py, n).Ok? && GetRequest(py, n).value.Some? ==>
                var request := GetRequest(py, n).value.value;
                var outcome := SubmissionSpec(py, client.api, request, llm(request.text), |old(client.calls)|).1;
                r == (if outcome.Ok? then Ok(()) else Err(NotificationError(outcome.error)))
    {
      var submitted := IsRequestSubmission(n);
      if submitted.Err? {
        return Err(NotificationError(Raised(submitted.error)));
      }
      if !submitted.value {
        return Ok(());
      }
      var outcome := HandleRequestSubmission(n);
      if outcome.Err? {
        return Err(NotificationError(outcome.error));
      }
      r := Ok(());
    }

    /** `process_notification` with this handler behind the gate: what
        `handle_notification` raises is logged and dropped. */
    method ProcessNotification(text: string)
      modifies client
      ensures client.calls == old(client.calls) +
                (match Dispatch.Gate(py, parse, text)
                 case Deliver(n) => NotificationCalls(py, client.api, llm, n, |old(client.calls)|)
                 case _ => [])
    {
      var outcome := Dispatch.Gate(py, parse, text);
      if outcome.Deliver? {
        var _ := HandleNotification(outcome.notification);
      }
    }
  }
}
