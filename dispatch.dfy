/** The gate every connector puts in front of its handler
    (python/client/handlers/notification_handler.py): a stream payload reaches
    `handle_notification` only when it is JSON, decodes to a package, is a
    `notify` package and carries a notification. */
module Dispatch {
  import opened Json
  import opened NotificationModels
  import Stream
  import NotificationCodec

  /** Where `process_notification` leaves a payload. */
  datatype Outcome =
    | Undecodable                  // `json.loads` raised
    | Rejected(error: PyError)     // package decoding raised
    | Ignored(payloadType: Json)   // not a `notify` package
    | Missing                      // a `notify` package without notification
    | Deliver(notification: ApiNotification)

  /** The gates of `process_notification`, in order. `parse` is `json.loads`,
      `None` where it raises. */
  function Gate(py: Builtins, parse: string -> Option<Json>, text: string): Outcome {
    match parse(text)
    case None => Undecodable
    case Some(data) =>
      match DecodePackage(py, data)
      case Err(e) => Rejected(e)
      case Ok(payload) =>
        if !IsNotification(payload) then Ignored(payload.payloadType)
        else if payload.notification.None? then Missing
        else Deliver(payload.notification.value)
  }

  /** Which gate a payload stops at: text that is not JSON, a package that
      fails to decode, a package that is not `notify`, and a `notify` package
      without notification never reach the handler; every other payload
      hands it exactly the package's notification. */
  lemma GateOutcomes(py: Builtins, parse: string -> Option<Json>, text: string)
    ensures parse(text).None? <==> Gate(py, parse, text) == Undecodable
    ensures parse(text).Some? ==>
              var r, p := Gate(py, parse, text), DecodePackage(py, parse(text).value);
              && (r.Rejected? <==> p.Err?)
              && (r.Rejected? ==> r.error == p.error)
              && (r.Ignored? <==> p.Ok? && !IsNotification(p.value))
              && (r.Missing? <==> p.Ok? && IsNotification(p.value) && p.value.notification.None?)
              && (r.Deliver? <==> p.Ok? && IsNotification(p.value) && p.value.notification.Some?)
              && (r.Deliver? ==> r.notification == p.value.notification.value)
  {
  }

  /** A payload that parses to a `notify` package around a submitted
      notification passes every gate and hands the handler that notification. */
  lemma GateDeliversSubmitted(py: Builtins, parse: string -> Option<Json>, text: string,
                              name: string, args: seq<Json>, decoded: seq<ApiValue>)
    requires parse(text) == Some(NotificationCodec.PackageJson(NotificationCodec.SubmittedJson(name, args)))
    requires |decoded| == |args| && forall i :: 0 <= i < |args| ==> Decode(py, args[i]) == Ok(decoded[i])
    ensures Gate(py, parse, text).Deliver?
    ensures Gate(py, parse, text).notification.name == JStr(name)
    ensures Gate(py, parse, text).notification.arguments == decoded
  {
    NotificationCodec.DecodeNotifyPackage(py, name, args, decoded);
  }

  /** What one payload hands to the handler: its notification, or nothing. */
  function Handed(o: Outcome): (r: seq<ApiNotification>)
    ensures |r| <= 1
    ensures r != [] <==> o.Deliver?
    ensures o.Deliver? ==> r == [o.notification]
  {
    if o.Deliver? then [o.notification] else []
  }

  /** The notifications a sequence of payloads hands to the handler, in order. */
  function Delivered(py: Builtins, parse: string -> Option<Json>, texts: seq<string>): seq<ApiNotification>
  {
    if texts == [] then []
    else Handed(Gate(py, parse, texts[0])) + Delivered(py, parse, texts[1..])
  }

  /** Payloads are handled independently: a payload that fails a gate takes
      nothing away from the ones around it. */
  lemma {:induction false} DeliveredAppend(py: Builtins, parse: string -> Option<Json>, a: seq<string>, b: seq<string>)
    ensures Delivered(py, parse, a + b) == Delivered(py, parse, a) + Delivered(py, parse, b)
    decreases |a|
  {
    if a == [] {
      assert a + b == b;
    } else {
      assert (a + b)[0] == a[0];
      assert (a + b)[1..] == a[1..] + b;
      DeliveredAppend(py, parse, a[1..], b);
    }
  }

  lemma DeliveredPrefix(py: Builtins, parse: string -> Option<Json>, texts: seq<string>, i: nat)
    requires i < |texts|
    ensures Delivered(py, parse, texts[..i + 1]) == Delivered(py, parse, texts[..i]) + Handed(Gate(py, parse, texts[i]))
  {
    assert texts[..i + 1] == texts[..i] + [texts[i]];
    DeliveredAppend(py, parse, texts[..i], [texts[i]]);
    assert Delivered(py, parse, [texts[i]]) == Handed(Gate(py, parse, texts[i])) + Delivered(py, parse, []);
  }

  /** Every delivered notification came out of a `notify` package, and there
      is at most one per payload. */
  lemma {:induction false} DeliveredFromNotify(py: Builtins, parse: string -> Option<Json>, texts: seq<string>)
    ensures |Delivered(py, parse, texts)| <= |texts|
    ensures forall n :: n in Delivered(py, parse, texts) ==>
              exists i :: 0 <= i < |texts| && Gate(py, parse, texts[i]) == Deliver(n)
    decreases |texts|
  {
    if texts != [] {
      DeliveredFromNotify(py, parse, texts[1..]);
      forall n | n in Delivered(py, parse, texts)
        ensures exists i :: 0 <= i < |texts| && Gate(py, parse, texts[i]) == Deliver(n)
      {
        if Gate(py, parse, texts[0]) != Deliver(n) {
          assert n in Delivered(py, parse, texts[1..]);
          var i :| 0 <= i < |texts[1..]| && Gate(py, parse, texts[1..][i]) == Deliver(n);
          assert texts[i + 1] == texts[1..][i];
        }
      }
    }
  }

  /** `BaseNotificationHandler` with `handle_notification` left open: the
      notifications it is called with are recorded in `handled`. */
  class NotificationDispatcher {
    const py: Builtins
    const parse: string -> Option<Json>
    var handled: seq<ApiNotification>

    constructor(py: Builtins, parse: string -> Option<Json>)
      ensures this.py == py && this.parse == parse && handled == []
    {
      this.py := py;
      this.parse := parse;
      handled := [];
    }

    /** `process_notification`: raises nothing, whatever the payload and
        whatever `handle_notification` does. */
    method ProcessNotification(text: string)
      modifies this
      ensures handled == old(handled) + Handed(Gate(py, parse, text))
    {
      GateOutcomes(py, parse, text);
      var data := parse(text);
      if data.None? {
        return;
      }
      var payload := DecodePackage(py, data.value);
      if payload.Err? {
        return;
      }
      if !IsNotification(payload.value) {
        return;
      }
      if payload.value.notification.None? {
        return;
      }
      handled := handled + [payload.value.notification.value];
    }

    /** The callbacks of `consume_sse`: `process_notification` on each framed
        payload in turn. */
    method ProcessAll(payloads: seq<string>)
      modifies this
      ensures handled == old(handled) + Delivered(py, parse, payloads)
    {
      var i := 0;
      while i < |payloads|
        invariant 0 <= i <= |payloads|
        invariant handled == old(handled) + Delivered(py, parse, payloads[..i])
      {
        ProcessNotification(payloads[i]);
        DeliveredPrefix(py, parse, payloads, i);
        i := i + 1;
      }
      assert payloads[..i] == payloads;
    }

    /** `consume_sse(url, handler.process_notification)`: the framed payloads
        of the stream, each passed through the gate in turn. */
    method Subscribe(lines: seq<string>)
      modifies this
      ensures handled == old(handled) + Delivered(py, parse, Stream.Dispatched(lines))
    {
      var payloads := Stream.ConsumeSse(lines);
      ProcessAll(payloads);
    }
  }
}
