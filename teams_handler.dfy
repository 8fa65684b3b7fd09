/** The Teams connector's notification handler
    (python/teams_connector/handlers/notification_handler.py): one mutable
    conversation-reference slot and the bot adapter, both set by the inbound
    side. Sending an activity through the adapter is recorded in an outbox. */
module TeamsHandler {
  import opened Json
  import opened NotificationModels
  import Dispatch

  /** The kind of `BotAdapter` the handler holds; only a `BotFrameworkAdapter`
      can send. */
  datatype Adapter = BotFrameworkAdapter | OtherAdapter

  /** The message activity sent for a fulfilled request: its text and the
      addressing copied from the conversation reference. */
  datatype Activity = Activity(
    conversationId: Json,
    text: string,
    channelId: Json,
    serviceUrl: Json,
    bot: Json,
    user: Json)

  const DefaultBotId := "default-bot-id"

  /** `reference.get('conversation', {}).get('id')`; a `conversation` entry that
      is not a dict has no `get`. */
  function ConversationId(reference: Json): (r: Result<Json, PyError>)
    requires reference.JObject?
    ensures r.Err? ==> r.error == AttributeError
    ensures r.Err? <==> HasKey(reference.members, "conversation")
                        && !GetOr(reference.members, "conversation", JObject([])).JObject?
    ensures !HasKey(reference.members, "conversation") ==> r == Ok(JNull)
    ensures r.Ok? && r.value != JNull ==>
              var conversation := GetOr(reference.members, "conversation", JObject([]));
              exists i :: 0 <= i < |conversation.members| && conversation.members[i] == ("id", r.value)
    ensures var conversation := GetOr(reference.members, "conversation", JObject([]));
            conversation.JObject? ==> r == Ok(Get(conversation.members, "id"))
    ensures r.Ok? && r.value != JNull ==>
              && HasKey(reference.members, "conversation")
              && var conversation := GetOr(reference.members, "conversation", JObject([]));
                 conversation.JObject? && HasKey(conversation.members, "id")
  {
    var conversation := GetOr(reference.members, "conversation", JObject([]));
    if conversation.JObject? then Ok(Get(conversation.members, "id")) else Err(AttributeError)
  }

  /** A reference the handler accepts: a dict whose conversation has a truthy id. */
  predicate ValidReference(reference: Json) {
    reference.JObject? && ConversationId(reference).Ok? && Truthy(ConversationId(reference).value)
  }

  /** A valid reference passes both tests of `handle_notification`. */
  lemma ValidReferenceIsTruthy(reference: Json)
    requires ValidReference(reference)
    ensures Truthy(reference) && Truthy(ConversationId(reference).value)
  {
    assert HasKey(reference.members, "conversation");
  }

  /** The activity a notification produces, if any: only a well-formed
      `requestFulfilled` notification, only with a stored reference, only
      through a `BotFrameworkAdapter`, and only when the reference has all of
      `channel_id`, `service_url`, `bot` and `user` (a missing one raises a
      `KeyError` that is swallowed). */
  function Reply(py: Builtins, n: ApiNotification, reference: Option<Json>, adapter: Option<Adapter>): Option<Activity>
  {
    match GetResponse(py, n)
    case Ok(Some(response)) =>
      if reference.None? || !ValidReference(reference.value) || adapter != Some(BotFrameworkAdapter) then None
      else
        var ms := reference.value.members;
        if !(HasKey(ms, "channel_id") && HasKey(ms, "service_url") && HasKey(ms, "bot") && HasKey(ms, "user")) then None
        else
          Some(Activity(
            ConversationId(reference.value).value, response.contents,
            Get(ms, "channel_id"), Get(ms, "service_url"), Get(ms, "bot"), Get(ms, "user")))
    case _ => None
  }

  /** An activity is sent iff the notification is a well-formed fulfilment, a
      valid reference is stored, the adapter can send and the reference is
      complete; it carries the response contents to the stored conversation. */
  lemma ReplyConditions(py: Builtins, n: ApiNotification, reference: Option<Json>, adapter: Option<Adapter>)
    ensures Reply(py, n, reference, adapter).Some? <==>
              && GetResponse(py, n).Ok? && GetResponse(py, n).value.Some?
              && reference.Some? && ValidReference(reference.value)
              && adapter == Some(BotFrameworkAdapter)
              && var ms := reference.value.members;
                 HasKey(ms, "channel_id") && HasKey(ms, "service_url") && HasKey(ms, "bot") && HasKey(ms, "user")
    ensures Reply(py, n, reference, adapter).Some? ==> n.name.JStr? && EndsWith(n.name.s, RequestFulfilledSuffix)
    ensures Reply(py, n, reference, adapter).Some? ==>
              var a := Reply(py, n, reference, adapter).value;
              && a.text == GetResponse(py, n).value.value.contents
              && a.conversationId == ConversationId(reference.value).value
              && Truthy(a.conversationId)
    ensures reference.None? || adapter != Some(BotFrameworkAdapter) ==> Reply(py, n, reference, adapter).None?
  {
  }

  function Sent(reply: Option<Activity>): seq<Activity> {
    if reply.Some? then [reply.value] else []
  }

  class TeamsNotificationHandler {
    const py: Builtins
    const parse: string -> Option<Json>
    const botId: string
    var adapter: Option<Adapter>
    var reference: Option<Json>
    var sent: seq<Activity>

    /** A stored reference is always one `set_conversation_reference` accepted. */
    predicate Valid()
      reads this
    {
      reference.Some? ==> ValidReference(reference.value)
    }

    /** A new handler stores no conversation reference. */
    constructor(py: Builtins, parse: string -> Option<Json>, adapter: Option<Adapter>, botId: string)
      ensures Valid()
      ensures this.py == py && this.parse == parse && this.botId == botId
      ensures this.adapter == adapter && reference == None && sent == []
    {
      this.py := py;
      this.parse := parse;
      this.botId := botId;
      this.adapter := adapter;
      reference := None;
      sent := [];
    }

    /** `update_adapter` changes only the adapter. */
    method UpdateAdapter(a: Adapter)
      modifies this
      ensures adapter == Some(a) && reference == old(reference) && sent == old(sent)
      ensures old(Valid()) ==> Valid()
    {
      adapter := Some(a);
    }

    /** `set_conversation_reference`: a reference without a conversation id is
        refused and the stored one kept; a valid one replaces it. */
    method SetConversationReference(candidate: Json) returns (r: Result<(), PyError>)
      requires candidate.JObject?
      modifies this
      ensures r.Err? <==> ConversationId(candidate).Err?
      ensures reference == (if ValidReference(candidate) then Some(candidate) else old(reference))
      ensures adapter == old(adapter) && sent == old(sent)
      ensures old(Valid()) ==> Valid()
    {
      var id := ConversationId(candidate);
      if id.Err? {
        return Err(id.error);
      }
      if !Truthy(id.value) {
        return Ok(());
      }
      reference := Some(candidate);
      r := Ok(());
    }

    /** `handle_notification`: a name that is not a string raises from
        `is_request_fulfilled`; the rest of the fulfilment runs under
        `asyncio.run` and swallows its errors. Neither slot is changed. */
    method HandleNotification(n: ApiNotification) returns (r: Result<(), PyError>)
      requires Valid()
      modifies this
      ensures r.Err? <==> !n.name.JStr?
      ensures adapter == old(adapter) && reference == old(reference)
      ensures sent == old(sent) + Sent(Reply(py, n, old(reference), old(adapter)))
    {
      var fulfilled := IsRequestFulfilled(n);
      if fulfilled.Err? {
        return Err(fulfilled.error);
      }
      r := Ok(());
      ReplyConditions(py, n, reference, adapter);
      if reference.Some? {
        ValidReferenceIsTruthy(reference.value);
      }
      if !fulfilled.value {
        return;
      }
      if reference.None? || !Truthy(reference.value) {
        return;
      }
      var id := ConversationId(reference.value);
      if !Truthy(id.value) {
        return;
      }
      HandleRequestFulfillment(n);
    }

    /** `_handle_request_fulfillment`. */
    method HandleRequestFulfillment(n: ApiNotification)
      requires Valid()
      modifies this
      ensures adapter == old(adapter) && reference == old(reference)
      ensures sent == old(sent) + Sent(Reply(py, n, old(reference), old(adapter)))
    {
      ReplyConditions(py, n, reference, adapter);
      if reference.Some? {
        ValidReferenceIsTruthy(reference.value);
      }
      var response := GetResponse(py, n);
      if response.Err? || response.value.None? {
        return;
      }
      if reference.None? || !Truthy(reference.value) {
        return;
      }
      if adapter != Some(BotFrameworkAdapter) {
        return;
      }
      var ms := reference.value.members;
      if !(HasKey(ms, "channel_id") && HasKey(ms, "service_url") && HasKey(ms, "bot") && HasKey(ms, "user")) {
        return;
      }
      var activity := Activity(
        ConversationId(reference.value).value, response.value.value.contents,
        Get(ms, "channel_id"), Get(ms, "service_url"), Get(ms, "bot"), Get(ms, "user"));
      sent := sent + [activity];
    }

    /** `process_notification` with this handler behind the gate. */
    method ProcessNotification(text: string)
      requires Valid()
      modifies this
      ensures Valid()
      ensures adapter == old(adapter) && reference == old(reference)
      ensures sent == old(sent) +
                (match Dispatch.Gate(py, parse, text)
                 case Deliver(n) => Sent(Reply(py, n, old(reference), old(adapter)))
                 case _ => [])
    {
      var outcome := Dispatch.Gate(py, parse, text);
      if outcome.Deliver? {
        var _ := HandleNotification(outcome.notification);
      }
    }
  }

  /** `set_conversation_reference(c)` followed by `handle_notification(n)`: a
      valid `c` becomes the destination, and a reply goes to its conversation;
      a refused `c` leaves the earlier destination in place. */
  method SetThenHandle(h: TeamsNotificationHandler, c: Json, n: ApiNotification) returns (reply: Option<Activity>)
    requires h.Valid() && c.JObject?
    modifies h
    ensures ValidReference(c) ==> reply == Reply(h.py, n, Some(c), h.adapter)
    ensures !ValidReference(c) ==> reply == Reply(h.py, n, old(h.reference), h.adapter)
    ensures h.sent == old(h.sent) + Sent(reply)
    ensures ValidReference(c) && reply.Some? ==>
              reply.value.conversationId == ConversationId(c).value && HasKey(c.members, "conversation")
  {
    var _ := h.SetConversationReference(c);
    var _ := h.HandleNotification(n);
    reply := Reply(h.py, n, h.reference, h.adapter);
    ReplyConditions(h.py, n, h.reference, h.adapter);
  }
}
