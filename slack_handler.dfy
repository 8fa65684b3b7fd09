/** The Slack connector's notification handler
    (python/slack_connector/handlers/notification_handler.py): one mutable
    channel slot, set by the inbound side and read when a fulfilled request
    comes back. `chat_postMessage` is recorded in an outbox. */
module SlackHandler {
  import opened Json
  import opened NotificationModels
  import Dispatch

  /** A `chat_postMessage(channel=..., text=...)` call. */
  datatype Post = Post(channel: string, text: string)

  /** The message a notification produces for the current channel, if any:
      only a well-formed `requestFulfilled` notification, and only while a
      non-empty channel is set. A failing `get_response` posts nothing. */
  function Reply(py: Builtins, n: ApiNotification, channel: Option<string>): Option<Post> {
    match GetResponse(py, n)
    case Ok(Some(response)) =>
      if channel.Some? && channel.value != "" then Some(Post(channel.value, response.contents)) else None
    case _ => None
  }

  /** A reply is posted iff the notification is a well-formed fulfilment and a
      channel is set; it goes to that channel and carries the contents, not the
      title. */
  lemma ReplyConditions(py: Builtins, n: ApiNotification, channel: Option<string>)
    ensures Reply(py, n, channel).Some? <==>
              && n.name.JStr? && EndsWith(n.name.s, RequestFulfilledSuffix)
              && GetResponse(py, n).Ok? && GetResponse(py, n).value.Some?
              && channel.Some? && channel.value != ""
    ensures Reply(py, n, channel).Some? ==>
              Reply(py, n, channel).value == Post(channel.value, GetResponse(py, n).value.value.contents)
  {
  }

  /** Whatever channel is current, replies to the same notification differ
      only in where they go. */
  lemma ReplyFollowsChannel(py: Builtins, n: ApiNotification, c1: string, c2: string)
    requires c1 != "" && c2 != ""
    ensures Reply(py, n, Some(c1)).Some? <==> Reply(py, n, Some(c2)).Some?
    ensures Reply(py, n, Some(c1)).Some? ==>
              Reply(py, n, Some(c2)) == Some(Reply(py, n, Some(c1)).value.(channel := c2))
  {
  }

  function Posted(reply: Option<Post>): seq<Post> {
    if reply.Some? then [reply.value] else []
  }

  class SlackNotificationHandler {
    const py: Builtins
    const parse: string -> Option<Json>
    var channel: Option<string>
    var posts: seq<Post>

    /** A new handler has no channel and has posted nothing. */
    constructor(py: Builtins, parse: string -> Option<Json>)
      ensures this.py == py && this.parse == parse
      ensures channel == None && posts == []
    {
      this.py := py;
      this.parse := parse;
      channel := None;
      posts := [];
    }

    /** `set_channel`: the last call wins. */
    method SetChannel(c: string)
      modifies this
      ensures channel == Some(c) && posts == old(posts)
    {
      channel := Some(c);
    }

    /** `handle_notification`: a name that is not a string raises from
        `is_request_fulfilled`; everything after that is swallowed. The
        channel is never changed. */
    method HandleNotification(n: ApiNotification) returns (r: Result<(), PyError>)
      modifies this
      ensures r.Err? <==> !n.name.JStr?
      ensures channel == old(channel)
      ensures posts == old(posts) + Posted(Reply(py, n, old(channel)))
    {
      var fulfilled := IsRequestFulfilled(n);
      if fulfilled.Err? {
        return Err(fulfilled.error);
      }
      if fulfilled.value {
        HandleRequestFulfillment(n);
      }
      r := Ok(());
    }

    /** `_handle_request_fulfillment`. */
    method HandleRequestFulfillment(n: ApiNotification)
      modifies this
      ensures channel == old(channel)
      ensures posts == old(posts) + Posted(Reply(py, n, old(channel)))
    {
      var response := GetResponse(py, n);
      if response.Err? || response.value.None? {
        return;
      }
      if channel.None? || channel.value == "" {
        return;
      }
      posts := posts + [Post(channel.value, response.value.value.contents)];
    }

    /** `process_notification` with this handler behind the gate. */
    method ProcessNotification(text: string)
      modifies this
      ensures channel == old(channel)
      ensures posts == old(posts) +
                (match Dispatch.Gate(py, parse, text)
                 case Deliver(n) => Posted(Reply(py, n, old(channel)))
                 case _ => [])
    {
      var outcome := Dispatch.Gate(py, parse, text);
      if outcome.Deliver? {
        var _ := HandleNotification(outcome.notification);
      }
    }
  }

  /** Setting a channel and then handling a fulfilled request posts exactly
      its contents to that channel, whatever was set before. */
  method SetThenHandle(h: SlackNotificationHandler, c: string, n: ApiNotification) returns (reply: Option<Post>)
    modifies h
    ensures reply == Reply(h.py, n, Some(c))
    ensures h.channel == Some(c) && h.posts == old(h.posts) + Posted(reply)
    ensures c != "" && GetResponse(h.py, n).Ok? && GetResponse(h.py, n).value.Some? ==>
              reply == Some(Post(c, GetResponse(h.py, n).value.value.contents))
  {
    h.SetChannel(c);
    var _ := h.HandleNotification(n);
    reply := Reply(h.py, n, Some(c));
  }
}
