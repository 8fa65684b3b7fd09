/** Tagged NPL values and notification envelopes, decoded from JSON
    (python/client/models/notification_models.py). */
module NotificationModels {
  import opened Json

  const InvalidValueFormat := "Invalid NPL value format"
  const InvalidNotificationFormat := "Invalid notification format"
  const InvalidPackageFormat := "Invalid notification package format"
  const RequestSubmittedSuffix := "requestSubmitted"
  const RequestFulfilledSuffix := "requestFulfilled"

  /** The Python built-ins the decoder calls and this model does not interpret:
      `str(v)` of a JSON value that is not a string, whether `float(text)`
      succeeds, and whether `datetime.fromisoformat(text.replace('Z', '+00:00'))`
      succeeds. */
  datatype Builtins = Builtins(
    str: Json -> string,
    isFloat: string -> bool,
    isIsoDateTime: string -> bool)

  /** Python's `str(j)`: a string is its own text. */
  function Str(py: Builtins, j: Json): string {
    if j.JStr? then j.s else py.str(j)
  }

  /** The Python float `float(literal)`; its numeric value is not interpreted. */
  datatype Float = FloatOf(literal: string)

  /** What `ApiValue.value` holds after decoding: the raw JSON value, a struct's
      dict of fields, or a coerced number. */
  datatype Payload =
    | Raw(json: Json)
    | Fields(fields: seq<(string, Field)>)
    | Number(float: Float)

  /** A struct field: decoded when it was itself tagged, kept raw otherwise. */
  datatype Field = Tagged(decoded: ApiValue) | Untagged(json: Json)

  datatype ApiValue = ApiValue(nplType: Json, value: Payload, typeName: Json, prototypeId: Json)

  /** The shape `Decode` gives its results: struct fields decoded exactly when
      tagged, numbers coerced, date-times validated. */
  predicate WellFormed(py: Builtins, v: ApiValue)
    decreases v, 0
  {
    match v.value
    case Fields(fs) =>
      && v.nplType == JStr("struct")
      && forall i :: 0 <= i < |fs| ==> FieldWellFormed(py, fs[i].1)
    case Number(f) =>
      v.nplType == JStr("number") && py.isFloat(f.literal)
    case Raw(j) =>
      && (v.nplType == JStr("struct") ==> !j.JObject?)
      && (v.nplType == JStr("number") ==> j == JNull)
      && (v.nplType == JStr("dateTime") && j.JStr? ==> py.isIsoDateTime(j.s))
  }

  predicate FieldWellFormed(py: Builtins, f: Field)
    decreases f, 1
  {
    match f
    case Tagged(v) => WellFormed(py, v)
    case Untagged(j) => !IsTagged(j)
  }

  lemma MemberBelow(data: Json, key: string)
    requires data.JObject? && Get(data.members, key) != JNull
    ensures Get(data.members, key) < data
  {
    var ms := data.members;
    var i :| 0 <= i < |ms| && ms[i] == (key, Get(ms, key));
    assert ms[i].1 == Get(ms, key);
  }

  /** `ApiValue.from_dict`. */
  function Decode(py: Builtins, data: Json): (r: Result<ApiValue, PyError>)
    ensures !IsTagged(data) ==> r == Err(ValueError(InvalidValueFormat))
    ensures r.Ok? ==>
              && IsTagged(data)
              && r.value.nplType == Get(data.members, "nplType")
              && r.value.typeName == Get(data.members, "typeName")
              && r.value.prototypeId == Get(data.members, "prototypeId")
              && WellFormed(py, r.value)
    decreases data, 1
  {
    if !IsTagged(data) then Err(ValueError(InvalidValueFormat))
    else
      var tag := Get(data.members, "nplType");
      var value := Get(data.members, "value");
      var payload :-
        if tag == JStr("struct") then
          if value.JObject? then
            MemberBelow(data, "value");
            var ms := value.members;
            var fields :- CollectFields(ms, seq(|ms|, i requires 0 <= i < |ms| => DecodeMember(py, ms[i].1)));
            Ok(Fields(fields))
          else Ok(Raw(value))
        else if tag == JStr("dateTime") && value.JStr? then
          if py.isIsoDateTime(value.s) then Ok(Raw(value))
          else Err(ValueError("Invalid datetime format: " + value.s))
        else if tag == JStr("number") && value != JNull then
          var literal := Str(py, value);
          if py.isFloat(literal) then Ok(Number(FloatOf(literal)))
          else Err(ValueError("Invalid number format: " + literal))
        else Ok(Raw(value));
      Ok(ApiValue(tag, payload, Get(data.members, "typeName"), Get(data.members, "prototypeId")))
  }

  /** One struct field: decoded recursively iff it is a dict with `nplType`. */
  function DecodeMember(py: Builtins, v: Json): (r: Result<Field, PyError>)
    ensures !IsTagged(v) ==> r == Ok(Untagged(v))
    ensures IsTagged(v) ==> r.Ok? == Decode(py, v).Ok?
    ensures IsTagged(v) && r.Ok? ==> r.value == Tagged(Decode(py, v).value)
    ensures IsTagged(v) && r.Err? ==> r.error == Decode(py, v).error
    ensures r.Ok? ==> FieldWellFormed(py, r.value)
    decreases v, 2
  {
    if IsTagged(v) then
      var d :- Decode(py, v);
      Ok(Tagged(d))
    else Ok(Untagged(v))
  }

  /** The struct's dict built field by field, stopping at the first field whose
      decoding raises. */
  function CollectFields(ms: seq<(string, Json)>, decoded: seq<Result<Field, PyError>>)
    : (r: Result<seq<(string, Field)>, PyError>)
    requires |decoded| == |ms|
    ensures r.Ok? <==> forall i :: 0 <= i < |ms| ==> decoded[i].Ok?
    ensures r.Ok? ==> |r.value| == |ms| && forall i :: 0 <= i < |ms| ==> r.value[i] == (ms[i].0, decoded[i].value)
    ensures r.Err? ==>
              exists i :: 0 <= i < |ms| && decoded[i] == Err(r.error) && forall k :: 0 <= k < i ==> decoded[k].Ok?
  {
    if ms == [] then Ok([])
    else if decoded[0].Err? then Err(decoded[0].error)
    else
      var rest := CollectFields(ms[1..], decoded[1..]);
      if rest.Err? then
        ghost var i :| 0 <= i < |ms| - 1 && decoded[1..][i] == Err(rest.error) && forall k :: 0 <= k < i ==> decoded[1..][k].Ok?;
        assert decoded[i + 1] == Err(rest.error);
        assert forall k :: 0 <= k < i + 1 ==> decoded[k].Ok? by {
          forall k | 0 <= k < i + 1 ensures decoded[k].Ok? {
            if k > 0 { assert decoded[1..][k - 1] == decoded[k]; }
          }
        }
        Err(rest.error)
      else
        assert forall i :: 0 <= i < |ms| ==> decoded[i].Ok? by {
          forall i | 0 <= i < |ms| ensures decoded[i].Ok? {
            if i > 0 { assert decoded[1..][i - 1] == decoded[i]; }
          }
        }
        Ok([(ms[0].0, decoded[0].value)] + rest.value)
  }

  /** A tagged value that is not a struct keeps its `value`, except that a
      non-null number is coerced and a date-time string is validated; each
      check that fails raises a `ValueError` naming the value. */
  lemma DecodeScalar(py: Builtins, data: Json)
    requires IsTagged(data) && Get(data.members, "nplType") != JStr("struct")
    ensures var ms := data.members;
            var tag, value := Get(ms, "nplType"), Get(ms, "value");
            var typeName, prototypeId := Get(ms, "typeName"), Get(ms, "prototypeId");
            && (tag == JStr("dateTime") && value.JStr? ==>
                  Decode(py, data) == if py.isIsoDateTime(value.s) then Ok(ApiValue(tag, Raw(value), typeName, prototypeId))
                                      else Err(ValueError("Invalid datetime format: " + value.s)))
            && (tag == JStr("number") && value != JNull ==>
                  Decode(py, data) == if py.isFloat(Str(py, value)) then Ok(ApiValue(tag, Number(FloatOf(Str(py, value))), typeName, prototypeId))
                                      else Err(ValueError("Invalid number format: " + Str(py, value))))
            && (!(tag == JStr("dateTime") && value.JStr?) && !(tag == JStr("number") && value != JNull) ==>
                  Decode(py, data) == Ok(ApiValue(tag, Raw(value), typeName, prototypeId)))
  {
  }

  /** A struct whose `value` is a dict decodes to its items, in order, each
      decoded iff tagged, and raises the error of the first item that fails;
      a struct whose `value` is not a dict keeps it. */
  lemma DecodeStruct(py: Builtins, data: Json)
    requires IsTagged(data) && Get(data.members, "nplType") == JStr("struct")
    ensures var ms := data.members;
            var value := Get(ms, "value");
            var typeName, prototypeId := Get(ms, "typeName"), Get(ms, "prototypeId");
            && (!value.JObject? ==> Decode(py, data) == Ok(ApiValue(JStr("struct"), Raw(value), typeName, prototypeId)))
            && (value.JObject? ==>
                  var items, r := value.members, Decode(py, data);
                  && (r.Ok? <==> forall i :: 0 <= i < |items| ==> DecodeMember(py, items[i].1).Ok?)
                  && (r.Ok? ==>
                        && r.value.value.Fields? && |r.value.value.fields| == |items|
                        && forall i :: 0 <= i < |items| ==>
                             r.value.value.fields[i] == (items[i].0, DecodeMember(py, items[i].1).value))
                  && (r.Err? ==>
                        exists i :: 0 <= i < |items| && DecodeMember(py, items[i].1) == Err(r.error)
                                    && forall k :: 0 <= k < i ==> DecodeMember(py, items[k].1).Ok?))
  {
    var value := Get(data.members, "value");
    if value.JObject? {
      var items := value.members;
      var decoded := seq(|items|, i requires 0 <= i < |items| => DecodeMember(py, items[i].1));
      assert forall i :: 0 <= i < |items| ==> decoded[i] == DecodeMember(py, items[i].1);
      var collected := CollectFields(items, decoded);
      assert Decode(py, data) == if collected.Ok? then Ok(ApiValue(JStr("struct"), Fields(collected.value), Get(data.members, "typeName"), Get(data.members, "prototypeId")))
                                 else Err(collected.error);
    }
  }

  /** When every field decodes, the struct's dict is exactly the decoded fields
      under their own keys. */
  lemma CollectFieldsOk(ms: seq<(string, Json)>, decoded: seq<Result<Field, PyError>>, fields: seq<(string, Field)>)
    requires |decoded| == |ms| == |fields|
    requires forall i :: 0 <= i < |ms| ==> decoded[i] == Ok(fields[i].1) && ms[i].0 == fields[i].0
    ensures CollectFields(ms, decoded) == Ok(fields)
  {
    var r := CollectFields(ms, decoded);
    assert r.Ok?;
    assert r.value == fields;
  }

  /** `ApiValue.from_dict` as written. */
  method DecodeValue(py: Builtins, data: Json) returns (r: Result<ApiValue, PyError>)
    ensures r == Decode(py, data)
    decreases data, 1
  {
    if !IsTagged(data) {
      return Err(ValueError(InvalidValueFormat));
    }
    var tag := Get(data.members, "nplType");
    var value := Get(data.members, "value");
    var payload: Payload;
    if tag == JStr("struct") {
      if value.JObject? {
        MemberBelow(data, "value");
        var ms := value.members;
        assert forall i :: 0 <= i < |ms| ==> ms[i].1 < data by {
          forall i | 0 <= i < |ms| ensures ms[i].1 < data {
            assert ms[i] in ms;
          }
        }
        var fields := DecodeFields(py, data, ms);
        if fields.Err? {
          return Err(fields.error);
        }
        payload := Fields(fields.value);
      } else {
        payload := Raw(value);
      }
    } else if tag == JStr("dateTime") && value.JStr? {
      if !py.isIsoDateTime(value.s) {
        return Err(ValueError("Invalid datetime format: " + value.s));
      }
      payload := Raw(value);
    } else if tag == JStr("number") && value != JNull {
      var literal := Str(py, value);
      if !py.isFloat(literal) {
        return Err(ValueError("Invalid number format: " + literal));
      }
      payload := Number(FloatOf(literal));
    } else {
      payload := Raw(value);
    }
    r := Ok(ApiValue(tag, payload, Get(data.members, "typeName"), Get(data.members, "prototypeId")));
  }

  /** The loop of `from_dict` over a struct's items: the dict is filled in
      order, recursing into tagged items, and the first item that raises ends
      it. `data` is the enclosing value, for termination only. */
  method DecodeFields(py: Builtins, ghost data: Json, ms: seq<(string, Json)>) returns (r: Result<seq<(string, Field)>, PyError>)
    requires forall i :: 0 <= i < |ms| ==> ms[i].1 < data
    ensures r == CollectFields(ms, seq(|ms|, i requires 0 <= i < |ms| => DecodeMember(py, ms[i].1)))
    decreases data, 0
  {
    ghost var decoded := seq(|ms|, i requires 0 <= i < |ms| => DecodeMember(py, ms[i].1));
    var parsed: seq<(string, Field)> := [];
    var i := 0;
    while i < |ms|
      invariant 0 <= i <= |ms|
      invariant |parsed| == i
      invariant forall k :: 0 <= k < i ==> decoded[k].Ok? && parsed[k] == (ms[k].0, decoded[k].value)
    {
      var key, val := ms[i].0, ms[i].1;
      if IsTagged(val) {
        var d := DecodeValue(py, val);
        if d.Err? {
          assert decoded[i] == Err(d.error);
          return Err(d.error);
        }
        parsed := parsed + [(key, Tagged(d.value))];
      } else {
        parsed := parsed + [(key, Untagged(val))];
      }
      i := i + 1;
    }
    CollectFieldsOk(ms, decoded, parsed);
    r := Ok(parsed);
  }

  /** `get_value_as` without a transform: the value when the tag matches
      (Python's `None` for a JSON null), `None` on any other tag. */
  function GetValueAs(v: ApiValue, expected: string): (r: Option<Payload>)
    ensures v.nplType != JStr(expected) ==> r == None
    ensures r.Some? ==> r.value == v.value && r.value != Raw(JNull)
    ensures v.nplType == JStr(expected) && v.value != Raw(JNull) ==> r == Some(v.value)
  {
    if v.nplType != JStr(expected) || v.value == Raw(JNull) then None else Some(v.value)
  }

  /** `get_text`: a text-tagged value passed through `str`. */
  function GetText(py: Builtins, v: ApiValue): (r: Option<string>)
    ensures r.Some? ==> v.nplType == JStr("text")
    ensures WellFormed(py, v) && v.nplType == JStr("text") ==>
              r == (if v.value == Raw(JNull) then None else Some(Str(py, v.value.json)))
  {
    match GetValueAs(v, "text")
    case Some(Raw(j)) => Some(Str(py, j))
    case _ => None
  }

  /** `get_number`: a number-tagged value's coerced float. */
  function GetNumber(v: ApiValue): (r: Option<Float>)
    ensures r.Some? <==> v.nplType == JStr("number") && v.value.Number?
    ensures v.nplType == JStr("number") && v.value.Number? ==> r == Some(v.value.float)
  {
    match GetValueAs(v, "number")
    case Some(Number(f)) => Some(f)
    case _ => None
  }

  /** `get_struct`: a struct-tagged value's dict of fields, or its raw
      non-dict value. */
  function GetStruct(v: ApiValue): (r: Option<Payload>)
    ensures r.Some? <==> v.nplType == JStr("struct") && v.value != Raw(JNull)
    ensures r.Some? ==> r.value == v.value
  {
    GetValueAs(v, "struct")
  }

  /** `get_reference`: a protocol reference's raw value. */
  function GetReference(v: ApiValue): (r: Option<Json>)
    ensures r.Some? ==> v.nplType == JStr("protocolReference") && v.value == Raw(r.value) && r.value != JNull
    ensures v.nplType == JStr("protocolReference") && v.value.Raw? && v.value.json != JNull ==>
              r == Some(v.value.json)
  {
    match GetValueAs(v, "protocolReference")
    case Some(Raw(j)) => Some(j)
    case _ => None
  }

  /** The typed accessors never disagree: at most one of them answers for a
      given value, the one its tag names. */
  lemma AccessorsExclusive(py: Builtins, v: ApiValue)
    ensures GetText(py, v).Some? ==> GetNumber(v).None? && GetStruct(v).None? && GetReference(v).None?
    ensures GetNumber(v).Some? ==> GetStruct(v).None? && GetReference(v).None?
    ensures GetStruct(v).Some? ==> GetReference(v).None?
  {
  }

  datatype ApiAgent = ApiAgent(id: Json, party: Json)

  /** A decoded notification; `kind` is the JSON field `type`. */
  datatype ApiNotification = ApiNotification(
    name: Json,
    arguments: seq<ApiValue>,
    kind: Json,
    refId: Json,
    protocolVersion: Json,
    created: Json,
    callback: Json,
    id: Json,
    agents: Option<seq<ApiAgent>>)

  /** A list comprehension whose items may raise: the values in order, or the
      exception of the first item that raises. */
  function Collect<T>(results: seq<Result<T, PyError>>): (r: Result<seq<T>, PyError>)
    ensures r.Ok? <==> forall i :: 0 <= i < |results| ==> results[i].Ok?
    ensures r.Ok? ==> |r.value| == |results| && forall i :: 0 <= i < |results| ==> results[i] == Ok(r.value[i])
    ensures r.Err? ==>
              exists i :: 0 <= i < |results| && results[i] == Err(r.error)
                          && forall k :: 0 <= k < i ==> results[k].Ok?
  {
    if results == [] then Ok([])
    else if results[0].Err? then Err(results[0].error)
    else
      var rest := Collect(results[1..]);
      if rest.Err? then
        ghost var i :| 0 <= i < |results| - 1 && results[1..][i] == Err(rest.error)
                       && forall k :: 0 <= k < i ==> results[1..][k].Ok?;
        assert results[i + 1] == Err(rest.error);
        assert forall k :: 0 <= k < i + 1 ==> results[k].Ok? by {
          forall k | 0 <= k < i + 1 ensures results[k].Ok? {
            if k > 0 { assert results[1..][k - 1] == results[k]; }
          }
        }
        Err(rest.error)
      else
        assert forall i :: 0 <= i < |results| ==> results[i].Ok? by {
          forall i | 0 <= i < |results| ensures results[i].Ok? {
            if i > 0 { assert results[1..][i - 1] == results[i]; }
          }
        }
        Ok([results[0].value] + rest.value)
  }

  /** The list comprehension over `arguments`: each item decoded, in order,
      stopping at the first that raises. */
  function DecodeAll(py: Builtins, items: seq<Json>): (r: Result<seq<ApiValue>, PyError>)
    ensures r.Ok? <==> forall i :: 0 <= i < |items| ==> Decode(py, items[i]).Ok?
    ensures r.Ok? ==> |r.value| == |items| && forall i :: 0 <= i < |items| ==> Decode(py, items[i]) == Ok(r.value[i])
    ensures r.Err? ==>
              exists i :: 0 <= i < |items| && Decode(py, items[i]) == Err(r.error)
                          && forall k :: 0 <= k < i ==> Decode(py, items[k]).Ok?
  {
    var results := seq(|items|, i requires 0 <= i < |items| => Decode(py, items[i]));
    assert forall i :: 0 <= i < |items| ==> results[i] == Decode(py, items[i]);
    Collect(results)
  }

  /** `ApiAgent(**agent)`: a dict whose keys are exactly `id` and `party`;
      anything else raises `TypeError`. */
  function DecodeAgent(j: Json): (r: Result<ApiAgent, PyError>)
    ensures r.Ok? <==> j.JObject? && HasKey(j.members, "id") && HasKey(j.members, "party")
                        && forall i :: 0 <= i < |j.members| ==> j.members[i].0 in {"id", "party"}
    ensures r.Ok? ==> r.value == ApiAgent(Get(j.members, "id"), Get(j.members, "party"))
    ensures r.Err? ==> r.error == TypeError
  {
    if j.JObject? && HasKey(j.members, "id") && HasKey(j.members, "party")
       && forall i :: 0 <= i < |j.members| ==> j.members[i].0 in {"id", "party"}
    then Ok(ApiAgent(Get(j.members, "id"), Get(j.members, "party")))
    else Err(TypeError)
  }

  /** `[ApiAgent(**agent) for agent in agents]`. */
  function DecodeAgents(items: seq<Json>): (r: Result<seq<ApiAgent>, PyError>)
    ensures r.Ok? <==> forall i :: 0 <= i < |items| ==> DecodeAgent(items[i]).Ok?
    ensures r.Ok? ==> |r.value| == |items| && forall i :: 0 <= i < |items| ==> DecodeAgent(items[i]) == Ok(r.value[i])
    ensures r.Err? ==> r.error == TypeError
  {
    var results := seq(|items|, i requires 0 <= i < |items| => DecodeAgent(items[i]));
    assert forall i :: 0 <= i < |items| ==> results[i] == DecodeAgent(items[i]);
    Collect(results)
  }

  /** `ApiNotification.from_dict`. */
  function DecodeNotification(py: Builtins, data: Json): (r: Result<ApiNotification, PyError>)
    ensures !data.JObject? ==> r == Err(ValueError(InvalidNotificationFormat))
    ensures r.Ok? ==>
              && data.JObject?
              && r.value.name == GetOr(data.members, "name", JStr(""))
              && r.value.kind == GetOr(data.members, "type", JStr("notify"))
              && Iterate(GetOr(data.members, "arguments", JArray([]))).Ok?
              && DecodeAll(py, Iterate(GetOr(data.members, "arguments", JArray([]))).value) == Ok(r.value.arguments)
              && (r.value.agents.None? <==> !Truthy(Get(data.members, "agents")))
  {
    if !data.JObject? then Err(ValueError(InvalidNotificationFormat))
    else
      var ms := data.members;
      var argItems :- Iterate(GetOr(ms, "arguments", JArray([])));
      var arguments :- DecodeAll(py, argItems);
      var agents :-
        if Truthy(Get(ms, "agents")) then
          var agentItems :- Iterate(Get(ms, "agents"));
          var decoded :- DecodeAgents(agentItems);
          Ok(Some(decoded))
        else Ok(None);
      Ok(ApiNotification(
        GetOr(ms, "name", JStr("")), arguments, GetOr(ms, "type", JStr("notify")),
        Get(ms, "refId"), Get(ms, "protocolVersion"), Get(ms, "created"), Get(ms, "callback"),
        Get(ms, "id"), agents))
  }

  /** `ApiNotification.from_dict` on a dict, case by case: arguments that
      cannot be iterated or agents that cannot be unpacked raise `TypeError`,
      the first argument that fails to decode raises its error, and otherwise
      every field is copied with its default. */
  lemma DecodeNotificationCases(py: Builtins, data: Json)
    requires data.JObject?
    ensures var ms := data.members;
            var args, agents := Iterate(GetOr(ms, "arguments", JArray([]))), Get(ms, "agents");
            var r := DecodeNotification(py, data);
            && (args.Err? ==> r == Err(TypeError))
            && (args.Ok? && DecodeAll(py, args.value).Err? ==> r == Err(DecodeAll(py, args.value).error))
            && ((args.Ok? && DecodeAll(py, args.value).Ok? && Truthy(agents)
                 && !(Iterate(agents).Ok? && DecodeAgents(Iterate(agents).value).Ok?)) ==> r == Err(TypeError))
            && ((args.Ok? && DecodeAll(py, args.value).Ok?
                 && (!Truthy(agents) || (Iterate(agents).Ok? && DecodeAgents(Iterate(agents).value).Ok?))) ==>
                  r == Ok(ApiNotification(
                         GetOr(ms, "name", JStr("")), DecodeAll(py, args.value).value, GetOr(ms, "type", JStr("notify")),
                         Get(ms, "refId"), Get(ms, "protocolVersion"), Get(ms, "created"), Get(ms, "callback"), Get(ms, "id"),
                         if Truthy(agents) then Some(DecodeAgents(Iterate(agents).value).value) else None)))
  {
  }

  /** `name.endswith(suffix)`; a name that is not a string has no `endswith`. */
  function NameEndsWith(n: ApiNotification, suffix: string): (r: Result<bool, PyError>)
    ensures r.Err? <==> !n.name.JStr?
    ensures r.Err? ==> r.error == AttributeError
    ensures r.Ok? ==> r.value == EndsWith(n.name.s, suffix)
  {
    if n.name.JStr? then Ok(EndsWith(n.name.s, suffix)) else Err(AttributeError)
  }

  function IsRequestSubmission(n: ApiNotification): Result<bool, PyError> {
    NameEndsWith(n, RequestSubmittedSuffix)
  }

  function IsRequestFulfilled(n: ApiNotification): Result<bool, PyError> {
    NameEndsWith(n, RequestFulfilledSuffix)
  }

  /** `NotificationContent[RequestContent]`. */
  datatype Request = Request(ref: Json, text: string)

  /** `NotificationContent[ResponseContent]`. */
  datatype Response = Response(ref: Json, title: string, contents: string)

  /** The argument-shape conditions `get_request` checks after the name. */
  predicate RequestShape(py: Builtins, args: seq<ApiValue>) {
    && |args| >= 2
    && GetReference(args[0]).Some? && Truthy(GetReference(args[0]).value)
    && GetText(py, args[1]).Some? && GetText(py, args[1]).value != ""
  }

  /** `get_request`. */
  function GetRequest(py: Builtins, n: ApiNotification): (r: Result<Option<Request>, PyError>)
    ensures r.Err? <==> !n.name.JStr?
    ensures r.Ok? ==>
              (r.value.Some? <==> EndsWith(n.name.s, RequestSubmittedSuffix) && RequestShape(py, n.arguments))
    ensures r.Ok? && r.value.Some? ==>
              r.value.value == Request(GetReference(n.arguments[0]).value, GetText(py, n.arguments[1]).value)
  {
    var submitted :- IsRequestSubmission(n);
    if !submitted || |n.arguments| < 2 then Ok(None)
    else
      var ref := GetReference(n.arguments[0]);
      var text := GetText(py, n.arguments[1]);
      if ref.None? || !Truthy(ref.value) || text.None? || text.value == "" then Ok(None)
      else Ok(Some(Request(ref.value, text.value)))
  }

  /** Python truthiness of a decoded payload. A coerced number never stands
      under the `struct` tag (see `WellFormed`); it is taken as true. */
  predicate PayloadTruthy(p: Payload) {
    match p
    case Raw(j) => Truthy(j)
    case Fields(fs) => fs != []
    case Number(_) => true
  }

  /** A decoded field is a dataclass instance (always true); a raw one follows
      Python truthiness. */
  predicate FieldTruthy(f: Field) {
    match f
    case Tagged(_) => true
    case Untagged(j) => Truthy(j)
  }

  /** The field of `key` in a struct's fields, in declaration order. */
  function FieldOf(fs: seq<(string, Field)>, key: string): (r: Option<Field>)
    ensures r.None? <==> forall i :: 0 <= i < |fs| ==> fs[i].0 != key
    ensures r.Some? ==> exists i :: 0 <= i < |fs| && fs[i] == (key, r.value)
  {
    if fs == [] then None
    else if fs[0].0 == key then Some(fs[0].1)
    else
      var r := FieldOf(fs[1..], key);
      assert r.Some? ==> exists i :: 0 <= i < |fs| && fs[i] == (key, r.value) by {
        if r.Some? {
          var i :| 0 <= i < |fs[1..]| && fs[1..][i] == (key, r.value);
          assert fs[i + 1] == (key, r.value);
        }
      }
      assert r.None? ==> forall i :: 0 <= i < |fs| ==> fs[i].0 != key by {
        if r.None? {
          forall i | 0 <= i < |fs| ensures fs[i].0 != key {
            if i > 0 { assert fs[1..][i - 1] == fs[i]; }
          }
        }
      }
      r
  }

  /** Whether a `get_struct` result is a dict, the only kind of value with `get`. */
  predicate IsDict(p: Payload) {
    p.Fields? || (p.Raw? && p.json.JObject?)
  }

  /** `ticket.get(key)` on a dict: the field stored under `key`, if any. */
  function DictGet(p: Payload, key: string): (r: Option<Field>)
    requires IsDict(p)
    ensures p.Fields? ==> r == FieldOf(p.fields, key)
    ensures p.Raw? ==> (r.Some? <==> HasKey(p.json.members, key))
    ensures p.Raw? && HasKey(p.json.members, key) ==> r == Some(Untagged(Get(p.json.members, key)))
  {
    match p
    case Fields(fs) => FieldOf(fs, key)
    case Raw(j) => if HasKey(j.members, key) then Some(Untagged(Get(j.members, key))) else None
  }

  /** `v.get_text() or ''`: the text, or the empty string when `v` is not text. */
  function TextOr(py: Builtins, v: ApiValue): (r: string)
    ensures v.nplType != JStr("text") ==> r == ""
    ensures GetText(py, v).Some? ==> r == GetText(py, v).value
    ensures GetText(py, v).None? ==> r == ""
  {
    match GetText(py, v)
    case Some(s) => s
    case None => ""
  }

  /** `field.get_text() or ''` on a struct field; a raw field has no `get_text`. */
  function TextOrEmpty(py: Builtins, f: Field): (r: Result<string, PyError>)
    ensures r.Err? <==> f.Untagged?
    ensures r.Err? ==> r.error == AttributeError
    ensures f.Tagged? ==> r == Ok(TextOr(py, f.decoded))
  {
    match f
    case Tagged(v) => Ok(TextOr(py, v))
    case Untagged(_) => Err(AttributeError)
  }

  /** `get_response`. */
  function GetResponse(py: Builtins, n: ApiNotification): (r: Result<Option<Response>, PyError>)
    ensures !n.name.JStr? ==> r == Err(AttributeError)
    ensures n.name.JStr? && !EndsWith(n.name.s, RequestFulfilledSuffix) ==> r == Ok(None)
    ensures |n.arguments| < 2 ==> r.Err? || r == Ok(None)
    ensures r.Ok? && r.value.Some? ==>
              && n.name.JStr? && EndsWith(n.name.s, RequestFulfilledSuffix)
              && |n.arguments| >= 2
              && GetReference(n.arguments[0]) == Some(r.value.value.ref) && Truthy(r.value.value.ref)
              && GetStruct(n.arguments[1]).Some? && PayloadTruthy(GetStruct(n.arguments[1]).value)
              && IsDict(GetStruct(n.arguments[1]).value)
              && var ticket := GetStruct(n.arguments[1]).value;
                 && DictGet(ticket, "title").Some? && DictGet(ticket, "title").value.Tagged?
                 && DictGet(ticket, "contents").Some? && DictGet(ticket, "contents").value.Tagged?
                 && r.value.value.title == TextOr(py, DictGet(ticket, "title").value.decoded)
                 && r.value.value.contents == TextOr(py, DictGet(ticket, "contents").value.decoded)
    ensures r.Err? ==> r.error == AttributeError
  {
    var fulfilled :- IsRequestFulfilled(n);
    if !fulfilled || |n.arguments| < 2 then Ok(None)
    else
      var ref := GetReference(n.arguments[0]);
      var ticket := GetStruct(n.arguments[1]);
      if ref.None? || !Truthy(ref.value) || ticket.None? || !PayloadTruthy(ticket.value) then Ok(None)
      else
        if !IsDict(ticket.value) then Err(AttributeError)
        else
          var title := DictGet(ticket.value, "title");
          var contents := DictGet(ticket.value, "contents");
          if title.None? || !FieldTruthy(title.value) || contents.None? || !FieldTruthy(contents.value) then Ok(None)
          else
            var titleText :- TextOrEmpty(py, title.value);
            var contentsText :- TextOrEmpty(py, contents.value);
            Ok(Some(Response(ref.value, titleText, contentsText)))
  }

  /** `get_response` case by case, for a fulfilled notification: too few
      arguments, a falsy reference or ticket, or a falsy title or contents
      give `None`; a ticket that is not a dict, or a title or contents that
      were not decoded, raise `AttributeError`; otherwise the response holds
      the reference and the texts of the title and contents. */
  lemma GetResponseCases(py: Builtins, n: ApiNotification)
    requires n.name.JStr? && EndsWith(n.name.s, RequestFulfilledSuffix)
    ensures |n.arguments| < 2 ==> GetResponse(py, n) == Ok(None)
    ensures |n.arguments| >= 2 ==>
              var r, ref, ticket := GetResponse(py, n), GetReference(n.arguments[0]), GetStruct(n.arguments[1]);
              && (ref.None? || !Truthy(ref.value) || ticket.None? || !PayloadTruthy(ticket.value) ==> r == Ok(None))
              && (ref.Some? && Truthy(ref.value) && ticket.Some? && PayloadTruthy(ticket.value) ==>
                    && (!IsDict(ticket.value) ==> r == Err(AttributeError))
                    && (IsDict(ticket.value) ==>
                          var title, contents := DictGet(ticket.value, "title"), DictGet(ticket.value, "contents");
                          && (title.None? || !FieldTruthy(title.value) || contents.None? || !FieldTruthy(contents.value) ==>
                                r == Ok(None))
                          && (title.Some? && FieldTruthy(title.value) && contents.Some? && FieldTruthy(contents.value) ==>
                                && (title.value.Untagged? || contents.value.Untagged? ==> r == Err(AttributeError))
                                && (title.value.Tagged? && contents.value.Tagged? ==>
                                      r == Ok(Some(Response(ref.value, TextOr(py, title.value.decoded),
                                                            TextOr(py, contents.value.decoded))))))))
  {
  }

  datatype ApiNotificationPackage = ApiNotificationPackage(
    payloadType: Json,
    notification: Option<ApiNotification>,
    id: Json)

  /** `ApiNotificationPackage.from_dict`. */
  function DecodePackage(py: Builtins, data: Json): (r: Result<ApiNotificationPackage, PyError>)
    ensures !data.JObject? ==> r == Err(ValueError(InvalidPackageFormat))
    ensures r.Ok? ==>
              && data.JObject?
              && r.value.payloadType == GetOr(data.members, "payloadType", JStr(""))
              && r.value.id == Get(data.members, "id")
              && (r.value.notification.None? <==> !Truthy(Get(data.members, "notification")))
              && (r.value.notification.Some? ==>
                    DecodeNotification(py, Get(data.members, "notification")) == Ok(r.value.notification.value))
    ensures data.JObject? && Truthy(Get(data.members, "notification")) ==>
              (r.Err? <==> DecodeNotification(py, Get(data.members, "notification")).Err?)
  {
    if !data.JObject? then Err(ValueError(InvalidPackageFormat))
    else
      var ms := data.members;
      var notificationData := Get(ms, "notification");
      var notification :-
        if Truthy(notificationData) then
          var decoded :- DecodeNotification(py, notificationData);
          Ok(Some(decoded))
        else Ok(None);
      Ok(ApiNotificationPackage(GetOr(ms, "payloadType", JStr("")), notification, Get(ms, "id")))
  }

  /** `ApiNotificationPackage.from_dict` on a dict: a falsy or absent
      notification is left `None`, a truthy one is decoded, and its error, if
      any, is raised. */
  lemma DecodePackageCases(py: Builtins, data: Json)
    requires data.JObject?
    ensures var ms := data.members;
            var notification, r := Get(ms, "notification"), DecodePackage(py, data);
            var payloadType, id := GetOr(ms, "payloadType", JStr("")), Get(ms, "id");
            && (!Truthy(notification) ==> r == Ok(ApiNotificationPackage(payloadType, None, id)))
            && (Truthy(notification) && DecodeNotification(py, notification).Ok? ==>
                  r == Ok(ApiNotificationPackage(payloadType, Some(DecodeNotification(py, notification).value), id)))
            && (Truthy(notification) && DecodeNotification(py, notification).Err? ==>
                  r == Err(DecodeNotification(py, notification).error))
  {
  }

  predicate IsNotification(p: ApiNotificationPackage) {
    p.payloadType == JStr("notify")
  }

  /** `is_notification` on a decoded package: it holds iff the package's
      `payloadType` entry is the string `notify`; a package without that entry
      never is one. */
  lemma IsNotificationOf(py: Builtins, data: Json)
    requires DecodePackage(py, data).Ok?
    ensures IsNotification(DecodePackage(py, data).value) <==> GetOr(data.members, "payloadType", JStr("")) == JStr("notify")
    ensures !HasKey(data.members, "payloadType") ==> !IsNotification(DecodePackage(py, data).value)
  {
  }
}
