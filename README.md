# NPL AI starter: notification decoding, stream framing and connector handlers in Dafny

This project models the event-driven core shared by the three connectors of the
NPL AI starter (Slack bot, Teams bot and the agent worker):

- the tagged-value and notification decoder (`ApiValue.from_dict`, the typed
  accessors, `ApiNotification.from_dict`, `get_request`, `get_response`,
  `ApiNotificationPackage.from_dict`);
- the line framing of the server-sent event stream (`parse_sse` and the loop of
  `consume_sse`);
- the gate `BaseNotificationHandler.process_notification`;
- the Slack and Teams handlers, each a one-slot state machine holding the
  current channel or conversation reference;
- the agent worker's request processing, with its error replies.

Python values are the `Json` datatype (`json.dfy`). Its helpers follow Python's
rules for truthiness, `dict.get` and iteration with `for`. Exceptions are
result values: `PyError` in the decoder, and `SubmissionError` and
`NotificationError` in the agent. Some collaborators are not interpreted:
`json.loads`, `str()`, `float()`, `datetime.fromisoformat`, the language model
and `fulfill_request`. The model takes them as parameters or as `const`
function fields. A message posted, an activity sent and a `fulfill_request`
call are each appended to a sequence field of the handler or client.

Files:

- `json.dfy`: Python values, `Option` and `Result`.
- `notification_models.dfy`: the decoder, the accessors and the classification.
- `notification_codec.dfy`: the JSON the platform sends and the round trips
  through the decoder.
- `stream.dfy`: `parse_sse`, `consume_sse` and a reference framing by blocks.
- `dispatch.dfy`: the gate of `process_notification`.
- `slack_handler.dfy`, `teams_handler.dfy` and `agent_handler.dfy`: the three
  handlers.

Each connector keeps one current-channel or current-conversation-reference
slot and has no per-reference store; the model follows the code. `SlackHandler.SetThenHandle` and
`TeamsHandler.SetThenHandle` state the consequence: a reply goes to the destination that was
set most recently (for Teams, the most recently accepted reference).

## Model

| member | source | states |
|---|---|---|
| Json.GetOr | python/client/models/notification_models.py:124-132 | `d.get(key, default)` is the default when the key is absent, and otherwise a value stored under the key (which may itself equal the default) |
| Json.Iterate | python/client/models/notification_models.py:125 | `for x in v` visits a list's items, a dict's keys or a string's characters; any other value raises `TypeError` |
| NotificationModels.Decode | python/client/models/notification_models.py:16-49 | a non-dict or a dict without `nplType` raises "Invalid NPL value format"; every success copies `nplType`, `typeName` and `prototypeId` from the input and has the decoder's shape: struct fields decoded exactly when tagged, numbers coerced, date-time strings valid |
| NotificationModels.DecodeMember | python/client/models/notification_models.py:27-30 | a struct field is decoded iff it is a dict with `nplType`, and then holds `from_dict` of it or raises its error; any other field is kept unchanged |
| NotificationModels.DecodeScalar | python/client/models/notification_models.py:32-49 | a tagged value that is not a struct keeps its `value`, except that a non-null number becomes `float(str(value))` or raises "Invalid number format: …", and a date-time string is kept or raises "Invalid datetime format: …" |
| NotificationModels.DecodeStruct | python/client/models/notification_models.py:23-31 | a struct whose value is a dict decodes to its items in order, each decoded iff tagged, and succeeds iff every tagged item decodes, raising the first failure; a struct whose value is not a dict keeps it |
| NotificationModels.CollectFields | python/client/models/notification_models.py:25-31 | the struct's dict is built iff every field decodes, with the same keys in the same order; otherwise the error is that of the first field that fails |
| NotificationModels.DecodeValue | python/client/models/notification_models.py:16-49 | `from_dict` as written returns exactly what `Decode` specifies, error cases included |
| NotificationModels.DecodeFields | python/client/models/notification_models.py:25-31 | the loop that fills `parsed_value` item by item, recursing into tagged items, returns the struct's dict `CollectFields` specifies, or the first item's error |
| NotificationModels.CollectFieldsOk | python/client/models/notification_models.py:25-31 | when every field decodes, the struct's dict is exactly the decoded fields under their own keys, in order |
| NotificationModels.GetValueAs | python/client/models/notification_models.py:51-64 | `None` whenever the tag differs from the expected one or the value is `None`; otherwise the value itself |
| NotificationModels.GetText | python/client/models/notification_models.py:66-68 | answers only for `text`-tagged values, with `str` of the raw value |
| NotificationModels.GetNumber | python/client/models/notification_models.py:70-72 | answers iff the value is `number`-tagged and was coerced, with the coerced float; a number-tagged `None` gives `None` |
| NotificationModels.GetStruct | python/client/models/notification_models.py:74-76 | answers iff the value is `struct`-tagged and not `None`, with the value unchanged, whether or not it is a dict |
| NotificationModels.GetReference | python/client/models/notification_models.py:78-80 | answers only for `protocolReference`-tagged values, with the non-null raw value |
| NotificationModels.AccessorsExclusive | python/client/models/notification_models.py:59-80 | at most one typed accessor answers for any value |
| NotificationModels.Collect | python/client/models/notification_models.py:125 | a list comprehension whose items may raise yields all values in order iff none raises, and otherwise the error of the first item that raises |
| NotificationModels.DecodeAll | python/client/models/notification_models.py:125 | arguments are decoded one-to-one and in order; the first argument that fails gives the error |
| NotificationModels.DecodeAgent | python/client/models/notification_models.py:132 | `ApiAgent(**agent)` succeeds iff the agent is a dict whose keys are exactly `id` and `party`, and raises `TypeError` otherwise |
| NotificationModels.DecodeAgents | python/client/models/notification_models.py:132 | the agent list is decoded one-to-one and in order, and succeeds iff every agent decodes; otherwise it raises `TypeError` |
| NotificationModels.DecodeNotification | python/client/models/notification_models.py:119-133 | a non-dict raises "Invalid notification format"; `name` defaults to `''`, `type` to `'notify'`, arguments are decoded in order, and `agents` is `None` iff the entry is absent or falsy |
| NotificationModels.DecodeNotificationCases | python/client/models/notification_models.py:119-133 | a dict decodes iff its arguments iterate and decode and its agents, when truthy, unpack; then every field is copied with its default (`refId`, `protocolVersion`, `created`, `callback`, `id` as given) and the agents are the decoded list; non-iterable arguments or bad agents raise `TypeError`, a failing argument raises its error |
| NotificationModels.NameEndsWith | python/client/models/notification_models.py:135-141 | the suffix test holds iff the string name ends with the suffix; a name that is not a string raises `AttributeError` |
| NotificationModels.GetRequest | python/client/models/notification_models.py:143-157 | a request is returned iff the name ends with `requestSubmitted`, there are at least two arguments, the first is a truthy reference and the second a non-empty text; it then carries exactly that reference and text |
| NotificationModels.FieldOf | python/client/models/notification_models.py:170-171 | the field stored under a key, `None` iff no field has that key |
| NotificationModels.DictGet | python/client/models/notification_models.py:170-171 | `ticket.get(key)` on a decoded struct finds the field under the key; on a raw dict it answers iff the key is present, with the value stored under the key |
| NotificationModels.TextOr | python/client/models/notification_models.py:179-180 | `get_text() or ''` is the text when `get_text` answers, and `''` otherwise |
| NotificationModels.TextOrEmpty | python/client/models/notification_models.py:179-180 | a raw, undecoded field has no `get_text` and raises `AttributeError`; a decoded one gives its text or `''` |
| NotificationModels.GetResponseCases | python/client/models/notification_models.py:159-182 | for a `requestFulfilled` name: too few arguments, a falsy reference or ticket, or a falsy title or contents give `None`; a ticket that is not a dict, or an undecoded title or contents, raise `AttributeError`; otherwise the response holds the reference and the texts of title and contents |
| NotificationModels.GetResponse | python/client/models/notification_models.py:159-182 | a response is only returned for a `requestFulfilled` name with at least two arguments, a truthy reference and a truthy struct holding truthy `title` and `contents`; title and contents are their texts, or `''` when not text-tagged; the only exception is `AttributeError` |
| NotificationModels.DecodePackage | python/client/models/notification_models.py:192-201 | a non-dict raises "Invalid notification package format"; `payloadType` defaults to `''`; the notification is decoded iff it is truthy, and its errors propagate |
| NotificationModels.DecodePackageCases | python/client/models/notification_models.py:192-201 | a dict always decodes when its notification is falsy or absent, with notification `None`; a truthy notification gives the package holding its decoded form, or raises its error |
| NotificationModels.IsNotificationOf | python/client/models/notification_models.py:203-205 | `is_notification` holds iff the package's `payloadType` is the string `notify`; a package without `payloadType` (defaulted to `''`) never is one |
| NotificationCodec.EncodeHeader | python/client/models/notification_models.py:17-21 | an encoded value passes the tag check, and its tag, type name and prototype id are read back unchanged |
| NotificationCodec.DecodeEncode | python/client/models/notification_models.py:16-49 | decoding the JSON of any value of the decoder's shape gives that value back |
| NotificationCodec.DecodeEncodeField | python/client/models/notification_models.py:26-30 | the same round trip for one struct field, tagged or raw |
| NotificationCodec.DecodeIsIdempotent | python/client/models/notification_models.py:16-49 | re-encoding and decoding a decoded value changes nothing |
| NotificationCodec.DecodeSubmitted | python/client/models/notification_models.py:119-133 | a notification with a name and arguments decodes to that name and the arguments decoded in order |
| NotificationCodec.DecodeNotifyPackage | python/client/models/notification_models.py:192-205 | a `notify` package around a submitted notification decodes to a `notify` package holding that notification, with its name and decoded arguments |
| NotificationCodec.TicketHeader | python/client/models/notification_models.py:17-21 | the ticket struct passes the tag check and is read as a `struct` with its two fields and no type name or prototype id |
| NotificationCodec.DecodeTicket | python/client/models/notification_models.py:23-31 | a ticket struct holding text-tagged `title` and `contents` decodes to a struct of two decoded fields |
| NotificationCodec.RequestRoundTrip | python/client/models/notification_models.py:143-157 | a submitted request with a non-empty reference and text is extracted from the decoded notification unchanged |
| NotificationCodec.RequestNeedsTwoArguments | python/client/models/notification_models.py:145-146 | with only the reference argument, no request is extracted |
| NotificationCodec.ResponseRoundTrip | python/client/models/notification_models.py:159-182 | a fulfilled request with a non-empty reference yields its reference, title and contents |
| Stream.FirstColon | python/client/stream.py:24 | `partition(':')` splits at a colon with no colon before it |
| Stream.ParseSse | python/client/stream.py:19-27 | `None` iff the line is empty or has no colon; otherwise the field has no colon and the line is `field: value`, or `field:value` with a value that does not start with a space |
| Stream.ParseFormatted | python/client/stream.py:24-27 | a line `field: value` parses back to the field and value, however many colons the value holds |
| Stream.ParseCompact | python/client/stream.py:24-27 | a line `field:value`, with a value not starting with a space, parses back to the field and value |
| Stream.ServerSentEvent.constructor | python/client/stream.py:15-17 | a new event has neither type nor data |
| Stream.ConsumeSse | python/client/stream.py:54-71 | the loop hands the callback exactly the payloads `Dispatched` specifies, in order |
| Stream.LastValue | python/client/stream.py:65-71 | a field's value in a block is that of its last line setting it, and is absent iff no line sets it |
| Stream.FoldLastValue | python/client/stream.py:65-71 | reading a block leaves each field at its last value in the block, or unchanged when no line sets it; other fields and rejected lines change nothing |
| Stream.RunThroughBlock | python/client/stream.py:56-71 | lines without a blank line only change the event being built and dispatch nothing |
| Stream.DispatchedIsFramed | python/client/stream.py:56-63 | the loop delivers exactly the reference framing: one payload per complete block, namely the block's last data, if non-empty and the block's type is not `tick` |
| Stream.TrailingNotDispatched | python/client/stream.py:56-63 | lines after the last blank line never reach the callback |
| Stream.SplitAtBlank | python/client/stream.py:62 | after a blank line nothing of earlier events remains, and the payloads of the two parts are delivered in order |
| Stream.AtMostOnePerBlank | python/client/stream.py:57-62 | there are at most as many callbacks as blank lines |
| Stream.OneEvent | python/client/stream.py:57-71 | a complete event, followed by the rest of the stream, gives that event's payload and then the rest's payloads as if the stream started there |
| Dispatch.GateOutcomes | python/client/handlers/notification_handler.py:19-37 | a payload reaches the handler iff it is JSON, decodes to a package, the package is `notify`, and it carries a notification; the handler then gets that notification; every other outcome is distinguished |
| Dispatch.GateDeliversSubmitted | python/client/handlers/notification_handler.py:19-37 | a payload that is a `notify` package around a submitted notification passes every gate and hands the handler that notification |
| Dispatch.Handed | python/client/handlers/notification_handler.py:35-37 | a payload hands the handler one notification iff the gate delivers it, and then exactly that one |
| Dispatch.DeliveredAppend | python/client/handlers/notification_handler.py:19-42 | payloads are handled independently: a failing one takes nothing from the others, and order is kept |
| Dispatch.DeliveredFromNotify | python/client/handlers/notification_handler.py:29-37 | at most one notification per payload is handled, and each came from a payload that passed every gate |
| Dispatch.NotificationDispatcher.ProcessNotification | python/client/handlers/notification_handler.py:12-42 | `handle_notification` is called once with the notification when the gate delivers, and never otherwise; nothing is raised |
| Dispatch.DeliveredPrefix | python/client/handlers/notification_handler.py:12-42 | handling one more payload appends what that payload alone hands over |
| Dispatch.NotificationDispatcher.ProcessAll | python/client/stream.py:56-61 | calling `process_notification` on each framed payload in turn hands the handler exactly the delivered notifications, in order |
| Dispatch.NotificationDispatcher.Subscribe | python/slack_connector/slackbot_app.py:54 | `consume_sse(url, process_notification)` hands the handler the delivered notifications of the framed payloads, in order |
| SlackHandler.ReplyConditions | python/slack_connector/handlers/notification_handler.py:36-57 | a message is posted iff the notification is a well-formed `requestFulfilled` and a non-empty channel is set; it goes to that channel with the contents, not the title |
| SlackHandler.ReplyFollowsChannel | python/slack_connector/handlers/notification_handler.py:49-56 | the channel decides only where the reply goes, not whether it is posted or what it says |
| SlackHandler.SlackNotificationHandler.constructor | python/slack_connector/handlers/notification_handler.py:13-16 | a new handler has no channel and has posted nothing |
| SlackHandler.SlackNotificationHandler.SetChannel | python/slack_connector/handlers/notification_handler.py:18-21 | the channel is overwritten, so the last call wins; nothing is posted |
| SlackHandler.SlackNotificationHandler.HandleNotification | python/slack_connector/handlers/notification_handler.py:23-34 | it raises iff the name is not a string; it never changes the channel; it posts the reply for the current channel, if any |
| SlackHandler.SlackNotificationHandler.HandleRequestFulfillment | python/slack_connector/handlers/notification_handler.py:36-60 | it posts at most one message, the reply for the current channel; errors are swallowed and the channel is kept |
| SlackHandler.SlackNotificationHandler.ProcessNotification | python/client/handlers/notification_handler.py:12-42 | only a notification delivered by the gate can lead to a post; the channel is kept |
| SlackHandler.SetThenHandle | python/slack_connector/handlers/notification_handler.py:18-56 | after `set_channel(c)`, a fulfilled request's contents are posted to `c`, whatever channel was set before |
| TeamsHandler.SetThenHandle | python/teams_connector/handlers/notification_handler.py:28-103 | after `set_conversation_reference(c)`, a reply goes to `c`'s conversation id when `c` is accepted, and to the earlier reference when it is refused; exactly that reply is sent |
| TeamsHandler.ConversationId | python/teams_connector/handlers/notification_handler.py:31 | `reference.get('conversation', {}).get('id')` raises iff the reference holds a `conversation` that is not a dict, and then `AttributeError`; without `conversation` it is `None`; a dict `conversation` gives the value stored under its `id` (`None` when absent) |
| TeamsHandler.ReplyConditions | python/teams_connector/handlers/notification_handler.py:54-103 | an activity is sent iff the notification gives a response, a valid reference is stored, the adapter is a `BotFrameworkAdapter` and the reference holds `channel_id`, `service_url`, `bot` and `user`; its text is the response contents, and its conversation is the stored reference's truthy conversation id |
| TeamsHandler.TeamsNotificationHandler.constructor | python/teams_connector/handlers/notification_handler.py:18-22 | a new handler stores no conversation reference and keeps the given adapter |
| TeamsHandler.TeamsNotificationHandler.UpdateAdapter | python/teams_connector/handlers/notification_handler.py:24-26 | only the adapter changes |
| TeamsHandler.TeamsNotificationHandler.SetConversationReference | python/teams_connector/handlers/notification_handler.py:28-36 | a reference without a truthy conversation id leaves the stored one unchanged; a valid one replaces it, so the last valid call wins |
| TeamsHandler.ValidReferenceIsTruthy | python/teams_connector/handlers/notification_handler.py:47 | a reference accepted by `set_conversation_reference` always passes the guard of `handle_notification` |
| TeamsHandler.TeamsNotificationHandler.HandleNotification | python/teams_connector/handlers/notification_handler.py:38-52 | it raises iff the name is not a string; it sends the activity for the stored reference and adapter, if any; neither slot changes |
| TeamsHandler.TeamsNotificationHandler.HandleRequestFulfillment | python/teams_connector/handlers/notification_handler.py:54-103 | it sends at most one activity, the reply for the stored reference and adapter; errors, including a missing reference key, are swallowed |
| TeamsHandler.TeamsNotificationHandler.ProcessNotification | python/client/handlers/notification_handler.py:12-42 | only a notification delivered by the gate can lead to a send; both slots and the reference's validity are kept |
| AgentHandler.TicketLayout | python/agent_worker/handlers/notification_handler.py:73-76 | in the formatted response, the title follows the title header and ends at a newline, and the contents sit between the details header and the closing fence |
| AgentHandler.FormatTicketInjective | python/agent_worker/handlers/notification_handler.py:73-76 | for one-line titles, the formatted response determines the ticket |
| AgentHandler.ErrorReplyIsNotTicket | python/agent_worker/handlers/notification_handler.py:73-110 | an error reply never equals a ticket reply |
| AgentHandler.SubmissionSucceeds | python/agent_worker/handlers/notification_handler.py:67-81 | a submission succeeds iff the model parsed a ticket and its fulfilment returned; then exactly one call is made, with the formatted ticket |
| AgentHandler.SubmissionCalls | python/agent_worker/handlers/notification_handler.py:51-115 | every call answers the request's own reference; one to three calls are made; a model failure gives exactly one error reply, with its text or the generic message |
| AgentHandler.ApiErrorRepliesTwice | python/agent_worker/handlers/notification_handler.py:83-99 | an `ApiError` from the fulfilment gives the ticket call, an error reply with the `ApiError` text, then a second reply "An unexpected error occurred", and the raised error is the "Unexpected error" one |
| AgentHandler.ErrorReplySwallowsApiError | python/agent_worker/handlers/notification_handler.py:101-115 | an exception escapes an error reply only when the client raised something other than `ApiError` |
| AgentHandler.BindInit | python/agent_worker/handlers/notification_handler.py:25 | a keyword call binds to `__init__(self, config, openai_service)` iff it passes both parameters and no other; otherwise `TypeError` |
| AgentHandler.MainAsWrittenNeverSubscribes | python/agent_worker/agent_worker_app.py:34-37 | the agent worker's handler construction with `llm_service=` raises `TypeError` |
| AgentHandler.MainCorrectedBinds | python/agent_worker/agent_worker_app.py:34-37 | with `openai_service=` the construction binds |
| AgentHandler.ApiClient.FulfillRequest | python/agent_worker/handlers/notification_handler.py:81 | each call is appended to the client's log, and its outcome is the client's outcome for that call |
| AgentHandler.AgentNotificationHandler.SendErrorResponse | python/agent_worker/handlers/notification_handler.py:101-115 | one call with `*Error:* ` and the message; only an exception other than `ApiError` escapes |
| AgentHandler.AgentNotificationHandler.HandleRequestSubmission | python/agent_worker/handlers/notification_handler.py:51-99 | a malformed request raises "Invalid request notification format" before any call; otherwise the calls and the outcome are those of `SubmissionSpec` |
| AgentHandler.AgentNotificationHandler.Submit | python/agent_worker/handlers/notification_handler.py:66-99 | for an extracted request, the calls appended to the client and the outcome are exactly those `SubmissionSpec` gives for the model's reply |
| AgentHandler.AgentNotificationHandler.HandleNotification | python/agent_worker/handlers/notification_handler.py:31-49 | a non-submission makes no call; every failure comes out wrapped in a `NotificationError`; the calls are those of `NotificationCalls` |
| AgentHandler.AgentNotificationHandler.ProcessNotification | python/client/handlers/notification_handler.py:12-42 | only a notification delivered by the gate leads to `fulfill_request` calls, and it leads to exactly the calls `handle_notification` makes |

## Left out

- Transport and authentication are not modelled: `fetch_access_token`, `requests.get`, `raise_for_status`, and the re-raise of their errors in `consume_sse`. The framing model is given the sequence of lines the response yields.
- The UTF-8 decoding of each line is not modelled; lines are strings.
- `json.loads` is a parameter `parse: string -> Option<Json>`, which is `None` where it raises.
- `str()` of a non-string value, the success of `float(...)` and the success of `datetime.fromisoformat(...)` are fields of the `Builtins` parameter and are not interpreted. The coerced float is kept as the literal it was parsed from (`FloatOf`), and JSON numbers are `real`, without Python's int/float distinction.
- `NotificationModels.PayloadTruthy` takes a coerced number as true. A number never stands under the `struct` tag, so this case cannot arise from decoding.
- Logging is not modelled. The text of `NotificationError`, which embeds `str(e)`, is kept as its cause instead.
- The language model is a function from request text to an outcome, so two identical requests always get the same outcome; the real service need not answer the same way twice. `fulfill_request` is a function of the call and of its index among the client's calls. Neither interprets the real services.
- The Slack `chat_postMessage` and the Teams send are recorded as attempted when they are made. Whether they then raise is not modelled, since any such error is swallowed.
- For Teams, `asyncio.run`, `TurnContext`, `create_connector_client`, and the conversation's `name`, `conversationType` and `tenantId` are not modelled. The activity records the conversation id, text, channel id, service URL, bot and user.
- `TeamsHandler.TeamsNotificationHandler.SetConversationReference` requires a dict, as its signature declares. What `.get` on a non-dict argument would raise is not modelled.
- The `bot_id` of the Teams handler is stored and never used, as in the code.
- The application entry points are not modelled: threads, web servers, signal handlers and the order of `set_channel` relative to request creation. Only the connectors' call `consume_sse(url, process_notification)` is modelled, as `Subscribe`. The agent worker's `main` is modelled only as far as its construction of the handler (see Findings).
- Json.GetOr: takes the first entry of a repeated key, while `json.loads` keeps the last. The model assumes `parse` yields dicts with distinct keys, as `json.loads` does, and does not constrain it.
- The "Failed to fulfill request" `RequestProcessingError` raised after an `ApiError` is modelled as caught again, as the code does. Its text is never observable, so the model does not keep it.

## Findings

| source | as written | input that shows it | evidently intended | confidence | as-written member | corrected member |
|---|---|---|---|---|---|---|
| python/agent_worker/agent_worker_app.py:34-37 | `AgentNotificationHandler(config=config, llm_service=llm_service)`, while `__init__` takes `openai_service` | any configuration: the call raises `TypeError`, `main` catches it at :41-42, and `consume_sse` at :40 is never reached | `openai_service=llm_service` | high; not executed | AgentHandler.MainAsWrittenNeverSubscribes | AgentHandler.MainCorrectedBinds |
