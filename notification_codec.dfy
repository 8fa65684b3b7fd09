/** The JSON the platform sends for a decoded value or notification, and the
    round trips through the decoder of python/client/models/notification_models.py. */
module NotificationCodec {
  import opened Json
  import opened NotificationModels

  /** The tagged JSON object a decoded value stands for. A coerced number is
      sent as the literal it was parsed from. */
  function Encode(v: ApiValue): Json
    decreases v, 0
  {
    var value :=
      match v.value
      case Raw(j) => j
      case Number(f) => JStr(f.literal)
      case Fields(fs) => JObject(seq(|fs|, i requires 0 <= i < |fs| => (fs[i].0, EncodeField(fs[i].1))));
    JObject([("nplType", v.nplType), ("value", value), ("typeName", v.typeName), ("prototypeId", v.prototypeId)])
  }

  function EncodeField(f: Field): Json
    decreases f, 1
  {
    match f
    case Tagged(v) => Encode(v)
    case Untagged(j) => j
  }

  /** The tag, type name and prototype id of an encoded value are read back
      unchanged, and its `value` entry is the encoded payload. */
  lemma EncodeHeader(v: ApiValue)
    ensures IsTagged(Encode(v))
    ensures var ms := Encode(v).members;
            && Get(ms, "nplType") == v.nplType
            && Get(ms, "value") == ms[1].1
            && Get(ms, "typeName") == v.typeName
            && Get(ms, "prototypeId") == v.prototypeId
  {
    var ms := Encode(v).members;
    assert ms[0].0 == "nplType";
    assert ms[1..][0] == ms[1];
    assert ms[1..][1..][0] == ("typeName", v.typeName);
    assert ms[1..][1..][1..][0] == ("prototypeId", v.prototypeId);
  }

  /** Decoding what `Encode` produced gives the value back, for every value of
      the shape the decoder produces. */
  lemma {:induction false} DecodeEncode(py: Builtins, v: ApiValue)
    requires WellFormed(py, v)
    ensures Decode(py, Encode(v)) == Ok(v)
    decreases v, 0
  {
    EncodeHeader(v);
    var value := Encode(v).members[1].1;
    match v.value
    case Fields(fs) =>
      var vms := value.members;
      var decoded := seq(|vms|, i requires 0 <= i < |vms| => DecodeMember(py, vms[i].1));
      forall i | 0 <= i < |fs|
        ensures decoded[i] == Ok(fs[i].1) && vms[i].0 == fs[i].0
      {
        DecodeEncodeField(py, fs[i].1);
      }
      CollectFieldsOk(vms, decoded, fs);
    case Number(f) =>
    case Raw(j) =>
  }

  lemma {:induction false} DecodeEncodeField(py: Builtins, f: Field)
    requires FieldWellFormed(py, f)
    ensures DecodeMember(py, EncodeField(f)) == Ok(f)
    decreases f, 1
  {
    match f
    case Tagged(v) =>
      DecodeEncode(py, v);
    case Untagged(j) =>
  }

  /** Decoding is a normal form: a decoded value re-encoded decodes to itself. */
  lemma DecodeIsIdempotent(py: Builtins, data: Json)
    requires Decode(py, data).Ok?
    ensures Decode(py, Encode(Decode(py, data).value)) == Decode(py, data)
  {
    DecodeEncode(py, Decode(py, data).value);
  }

  function TextValue(t: string): Json {
    JObject([("nplType", JStr("text")), ("value", JStr(t))])
  }

  function ReferenceValue(ref: string): Json {
    JObject([("nplType", JStr("protocolReference")), ("value", JStr(ref))])
  }

  /** A notification as the platform sends it: a name and its arguments. */
  function SubmittedJson(name: string, args: seq<Json>): Json {
    JObject([("name", JStr(name)), ("arguments", JArray(args))])
  }

  /** The decoded forms of `TextValue` and `ReferenceValue`. */
  function TextApiValue(t: string): ApiValue {
    ApiValue(JStr("text"), Raw(JStr(t)), JNull, JNull)
  }

  function ReferenceApiValue(ref: string): ApiValue {
    ApiValue(JStr("protocolReference"), Raw(JStr(ref)), JNull, JNull)
  }

  lemma DecodeText(py: Builtins, t: string)
    ensures Decode(py, TextValue(t)) == Ok(TextApiValue(t))
  {
    var ms := TextValue(t).members;
    assert ms[0].0 == "nplType";
    assert Get(ms, "value") == JStr(t) by { assert ms[1..][0] == ms[1]; }
  }

  lemma DecodeReference(py: Builtins, ref: string)
    ensures Decode(py, ReferenceValue(ref)) == Ok(ReferenceApiValue(ref))
  {
    var ms := ReferenceValue(ref).members;
    assert ms[0].0 == "nplType";
    assert Get(ms, "value") == JStr(ref) by { assert ms[1..][0] == ms[1]; }
  }

  /** A notification of a name and arguments decodes to that name and the
      arguments decoded one by one. */
  lemma DecodeSubmitted(py: Builtins, name: string, args: seq<Json>, decoded: seq<ApiValue>)
    requires |decoded| == |args| && forall i :: 0 <= i < |args| ==> Decode(py, args[i]) == Ok(decoded[i])
    ensures DecodeNotification(py, SubmittedJson(name, args)).Ok?
    ensures DecodeNotification(py, SubmittedJson(name, args)).value.name == JStr(name)
    ensures DecodeNotification(py, SubmittedJson(name, args)).value.arguments == decoded
  {
    var ms := SubmittedJson(name, args).members;
    assert ms[0].0 == "name";
    assert GetOr(ms, "arguments", JArray([])) == JArray(args) by { assert ms[1..][0] == ms[1]; }
    assert !HasKey(ms, "agents");
    var all := DecodeAll(py, args);
    assert all.Ok?;
    assert all.value == decoded;
  }

  /** A `notify` package as the stream carries it. */
  function PackageJson(notification: Json): Json {
    JObject([("payloadType", JStr("notify")), ("notification", notification)])
  }

  /** A `notify` package around a submitted notification decodes to a `notify`
      package holding that notification, with its name and decoded arguments. */
  lemma DecodeNotifyPackage(py: Builtins, name: string, args: seq<Json>, decoded: seq<ApiValue>)
    requires |decoded| == |args| && forall i :: 0 <= i < |args| ==> Decode(py, args[i]) == Ok(decoded[i])
    ensures var p := DecodePackage(py, PackageJson(SubmittedJson(name, args)));
            && p.Ok? && IsNotification(p.value) && p.value.notification.Some?
            && p.value.notification.value == DecodeNotification(py, SubmittedJson(name, args)).value
            && p.value.notification.value.name == JStr(name)
            && p.value.notification.value.arguments == decoded
  {
    PackageEntries(SubmittedJson(name, args));
    DecodeSubmitted(py, name, args, decoded);
    DecodePackageCases(py, PackageJson(SubmittedJson(name, args)));
  }

  /** The entries of a `notify` package as the decoder reads them. */
  lemma PackageEntries(notification: Json)
    ensures var ms := PackageJson(notification).members;
            && GetOr(ms, "payloadType", JStr("")) == JStr("notify")
            && Get(ms, "notification") == notification
            && Get(ms, "id") == JNull
  {
    var ms := PackageJson(notification).members;
    assert ms[0].0 == "payloadType";
    assert ms[1..][0] == ms[1];
  }

  lemma GetRequestOf(py: Builtins, n: ApiNotification, ref: string, text: string)
    requires n.name.JStr? && EndsWith(n.name.s, RequestSubmittedSuffix) && ref != "" && text != ""
    requires n.arguments == [ReferenceApiValue(ref), TextApiValue(text)]
    ensures GetRequest(py, n) == Ok(Some(Request(JStr(ref), text)))
  {
  }

  /** A request submitted with a non-empty reference and text is extracted
      from the decoded notification unchanged. */
  lemma RequestRoundTrip(py: Builtins, name: string, ref: string, text: string)
    requires EndsWith(name, RequestSubmittedSuffix) && ref != "" && text != ""
    ensures var n := DecodeNotification(py, SubmittedJson(name, [ReferenceValue(ref), TextValue(text)]));
            n.Ok? && GetRequest(py, n.value) == Ok(Some(Request(JStr(ref), text)))
  {
    var args := [ReferenceValue(ref), TextValue(text)];
    DecodeReference(py, ref);
    DecodeText(py, text);
    DecodeSubmitted(py, name, args, [ReferenceApiValue(ref), TextApiValue(text)]);
    GetRequestOf(py, DecodeNotification(py, SubmittedJson(name, args)).value, ref, text);
  }

  /** With only the reference argument there is no request to extract. */
  lemma RequestNeedsTwoArguments(py: Builtins, name: string, ref: string)
    requires EndsWith(name, RequestSubmittedSuffix)
    ensures var n := DecodeNotification(py, SubmittedJson(name, [ReferenceValue(ref)]));
            n.Ok? && GetRequest(py, n.value) == Ok(None)
  {
    DecodeReference(py, ref);
    DecodeSubmitted(py, name, [ReferenceValue(ref)], [ReferenceApiValue(ref)]);
  }

  /** The ticket struct of a fulfilled request, as JSON and decoded. */
  function TicketJson(title: string, contents: string): Json {
    JObject([
      ("nplType", JStr("struct")),
      ("value", JObject([("title", TextValue(title)), ("contents", TextValue(contents))]))])
  }

  function TicketApiValue(title: string, contents: string): ApiValue {
    ApiValue(JStr("struct"), Fields([("title", Tagged(TextApiValue(title))), ("contents", Tagged(TextApiValue(contents)))]), JNull, JNull)
  }

  /** The entries of the ticket struct as the decoder reads them. */
  lemma TicketHeader(title: string, contents: string)
    ensures IsTagged(TicketJson(title, contents))
    ensures var tms := TicketJson(title, contents).members;
            && Get(tms, "nplType") == JStr("struct")
            && Get(tms, "value") == JObject([("title", TextValue(title)), ("contents", TextValue(contents))])
            && Get(tms, "typeName") == JNull
            && Get(tms, "prototypeId") == JNull
  {
    var tms := TicketJson(title, contents).members;
    assert tms[0].0 == "nplType";
    assert tms[1..][0] == tms[1];
  }

  lemma DecodeTicket(py: Builtins, title: string, contents: string)
    ensures Decode(py, TicketJson(title, contents)) == Ok(TicketApiValue(title, contents))
  {
    TicketHeader(title, contents);
    var fms := [("title", TextValue(title)), ("contents", TextValue(contents))];
    DecodeText(py, title);
    DecodeText(py, contents);
    var decoded := seq(|fms|, i requires 0 <= i < |fms| => DecodeMember(py, fms[i].1));
    CollectFieldsOk(fms, decoded, TicketApiValue(title, contents).value.fields);
  }

  lemma GetResponseOf(py: Builtins, n: ApiNotification, ref: string, title: string, contents: string)
    requires n.name.JStr? && EndsWith(n.name.s, RequestFulfilledSuffix) && ref != ""
    requires n.arguments == [ReferenceApiValue(ref), TicketApiValue(title, contents)]
    ensures GetResponse(py, n) == Ok(Some(Response(JStr(ref), title, contents)))
  {
    var fields := TicketApiValue(title, contents).value.fields;
    assert FieldOf(fields, "contents") == Some(Tagged(TextApiValue(contents))) by {
      assert fields[1..][0] == fields[1];
    }
  }

  /** A fulfilled request with a non-empty reference yields its reference,
      title and contents. */
  lemma ResponseRoundTrip(py: Builtins, name: string, ref: string, title: string, contents: string)
    requires EndsWith(name, RequestFulfilledSuffix) && ref != ""
    ensures var n := DecodeNotification(py, SubmittedJson(name, [ReferenceValue(ref), TicketJson(title, contents)]));
            n.Ok? && GetResponse(py, n.value) == Ok(Some(Response(JStr(ref), title, contents)))
  {
    var args := [ReferenceValue(ref), TicketJson(title, contents)];
    DecodeReference(py, ref);
    DecodeTicket(py, title, contents);
    DecodeSubmitted(py, name, args, [ReferenceApiValue(ref), TicketApiValue(title, contents)]);
    GetResponseOf(py, DecodeNotification(py, SubmittedJson(name, args)).value, ref, title, contents);
  }
}
