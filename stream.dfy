/** The line framing of the server-sent event stream the clients subscribe to
    (python/client/stream.py): `parse_sse` and the loop of `consume_sse` over
    already-decoded lines. */
module Stream {
  import opened Json

  /** The position of the first `:` in `line`. */
  function FirstColon(line: string): (i: nat)
    requires ':' in line
    ensures i < |line| && line[i] == ':' && ':' !in line[..i]
  {
    if line[0] == ':' then 0
    else
      assert ':' in line[1..] by {
        var k :| 0 <= k < |line| && line[k] == ':';
        assert line[1..][k - 1] == ':';
      }
      var j := FirstColon(line[1..]);
      assert line[..j + 1] == [line[0]] + line[1..][..j];
      j + 1
  }

  /** `parse_sse`: the field before the first colon and the value after it, with
      one leading space removed; `None` for an empty line or one without colon. */
  function ParseSse(line: string): (r: Option<(string, string)>)
    ensures r.None? <==> line == [] || ':' !in line
    ensures r.Some? ==>
              && ':' !in r.value.0
              && (|| line == r.value.0 + ": " + r.value.1
                  || (line == r.value.0 + ":" + r.value.1 && (r.value.1 == [] || r.value.1[0] != ' ')))
  {
    if line == [] || ':' !in line then None
    else
      var i := FirstColon(line);
      var field, raw := line[..i], line[i + 1..];
      assert line == field + ":" + raw;
      if raw != [] && raw[0] == ' ' then
        assert line == field + ": " + raw[1..];
        Some((field, raw[1..]))
      else Some((field, raw))
  }

  /** Writing a field and a value as `field: value` and parsing the line gives
      them back, whatever colons the value holds. */
  lemma ParseFormatted(field: string, value: string)
    requires ':' !in field
    ensures ParseSse(field + ": " + value) == Some((field, value))
  {
    var line := field + ": " + value;
    assert line[|field|] == ':';
    var i := FirstColon(line);
    assert line[..i] == field;
    assert line[i + 1..] == " " + value;
  }

  /** The same without the separating space, for a value that does not start
      with one. */
  lemma ParseCompact(field: string, value: string)
    requires ':' !in field && (value == [] || value[0] != ' ')
    ensures ParseSse(field + ":" + value) == Some((field, value))
  {
    var line := field + ":" + value;
    assert line[|field|] == ':';
    var i := FirstColon(line);
    assert line[..i] == field;
    assert line[i + 1..] == value;
  }

  /** A `ServerSentEvent` as a value: the last `event` and `data` seen. */
  datatype Event = Event(event: Option<string>, data: Option<string>)

  const Fresh := Event(None, None)

  /** The value of `name` a single line sets, if any. */
  function FieldValue(line: string, name: string): Option<string> {
    match ParseSse(line)
    case Some((f, v)) => if f == name then Some(v) else None
    case None => None
  }

  /** What a non-blank line does to the event being built: `event` and `data`
      lines overwrite their field, every other line is ignored. */
  function Step(st: Event, line: string): Event {
    match ParseSse(line)
    case Some((f, v)) =>
      if f == "event" then st.(event := Some(v))
      else if f == "data" then st.(data := Some(v))
      else st
    case None => st
  }

  /** Whether a blank line passes the event to the callback: its data is
      non-empty and its type is not `tick`. */
  predicate Dispatches(st: Event) {
    st.data.Some? && st.data.value != "" && st.event != Some("tick")
  }

  /** The payloads handed to the callback while reading `lines` from state `st`. */
  function Run(st: Event, lines: seq<string>): seq<string>
    decreases |lines|
  {
    if lines == [] then []
    else if lines[0] == [] then
      (if Dispatches(st) then [st.data.value] else []) + Run(Fresh, lines[1..])
    else Run(Step(st, lines[0]), lines[1..])
  }

  function Dispatched(lines: seq<string>): seq<string> {
    Run(Fresh, lines)
  }

  /** `ServerSentEvent`, whose fields the loop sets in place. */
  class ServerSentEvent {
    var event: Option<string>
    var data: Option<string>

    constructor()
      ensures event == None && data == None
    {
      event := None;
      data := None;
    }

    function Value(): Event
      reads this
    {
      Event(event, data)
    }
  }

  /** The loop of `consume_sse` over the lines of the response, with the
      callback's invocations returned in order. */
  method ConsumeSse(lines: seq<string>) returns (payloads: seq<string>)
    ensures payloads == Dispatched(lines)
  {
    payloads := [];
    var current := new ServerSentEvent();
    var i := 0;
    while i < |lines|
      invariant 0 <= i <= |lines|
      invariant fresh(current)
      invariant Dispatched(lines) == payloads + Run(current.Value(), lines[i..])
    {
      var line := lines[i];
      assert lines[i..] == [line] + lines[i + 1..];
      i := i + 1;
      if line == [] {
        if current.data.Some? && current.data.value != "" && current.event != Some("tick") {
          payloads := payloads + [current.data.value];
        }
        current := new ServerSentEvent();
        continue;
      }
      var parsed := ParseSse(line);
      if parsed.Some? {
        var (field, value) := parsed.value;
        if field == "event" {
          current.event := Some(value);
        } else if field == "data" {
          current.data := Some(value);
        }
      }
    }
  }

  /** The value the last line of `block` that sets `name` gives it: a later
      line overrides an earlier one. */
  function LastValue(block: seq<string>, name: string): (r: Option<string>)
    ensures r.None? <==> forall i :: 0 <= i < |block| ==> FieldValue(block[i], name).None?
    ensures r.Some? ==>
              exists i :: 0 <= i < |block| && FieldValue(block[i], name) == r
                          && forall j :: i < j < |block| ==> FieldValue(block[j], name).None?
  {
    if block == [] then None
    else
      var rest := LastValue(block[1..], name);
      if rest.Some? then
        ghost var i :| 0 <= i < |block[1..]| && FieldValue(block[1..][i], name) == rest
                       && forall j :: i < j < |block[1..]| ==> FieldValue(block[1..][j], name).None?;
        assert FieldValue(block[i + 1], name) == rest;
        assert forall j :: i + 1 < j < |block| ==> FieldValue(block[j], name).None? by {
          forall j | i + 1 < j < |block| ensures FieldValue(block[j], name).None? {
            assert block[1..][j - 1] == block[j];
          }
        }
        rest
      else
        assert forall i :: 1 <= i < |block| ==> FieldValue(block[i], name).None? by {
          forall i | 1 <= i < |block| ensures FieldValue(block[i], name).None? {
            assert block[1..][i - 1] == block[i];
          }
        }
        FieldValue(block[0], name)
  }

  /** The callback payload of one complete event block, by the last values of
      its fields. */
  function BlockPayload(block: seq<string>): seq<string> {
    var data, event := LastValue(block, "data"), LastValue(block, "event");
    if data.Some? && data.value != "" && event != Some("tick") then [data.value] else []
  }

  predicate NoBlank(lines: seq<string>) {
    forall i :: 0 <= i < |lines| ==> lines[i] != []
  }

  /** The position of the first blank line. */
  function FirstBlank(lines: seq<string>): (k: nat)
    requires !NoBlank(lines)
    ensures k < |lines| && lines[k] == [] && NoBlank(lines[..k])
  {
    if lines[0] == [] then 0
    else
      assert !NoBlank(lines[1..]) by {
        var k :| 0 <= k < |lines| && lines[k] == [];
        assert lines[1..][k - 1] == [];
      }
      var j := FirstBlank(lines[1..]);
      assert lines[..j + 1] == [lines[0]] + lines[1..][..j];
      j + 1
  }

  /** Reference framing: the stream cut at its blank lines into blocks, each
      complete block contributing its payload; the block after the last blank
      line contributes nothing. */
  function Framed(lines: seq<string>): seq<string>
    decreases |lines|
  {
    if NoBlank(lines) then []
    else
      var k := FirstBlank(lines);
      BlockPayload(lines[..k]) + Framed(lines[k + 1..])
  }

  function Override(old_: Option<string>, new_: Option<string>): Option<string> {
    if new_.Some? then new_ else old_
  }

  /** The event after reading a block of non-blank lines. */
  function Fold(st: Event, block: seq<string>): Event
    decreases |block|
  {
    if block == [] then st else Fold(Step(st, block[0]), block[1..])
  }

  lemma {:induction false} FoldLastValue(st: Event, block: seq<string>)
    ensures Fold(st, block) ==
            Event(Override(st.event, LastValue(block, "event")), Override(st.data, LastValue(block, "data")))
    decreases |block|
  {
    if block != [] {
      FoldLastValue(Step(st, block[0]), block[1..]);
    }
  }

  lemma {:induction false} RunThroughBlock(st: Event, block: seq<string>, rest: seq<string>)
    requires NoBlank(block)
    ensures Run(st, block + rest) == Run(Fold(st, block), rest)
    decreases |block|
  {
    if block == [] {
      assert block + rest == rest;
    } else {
      assert (block + rest)[0] == block[0] && block[0] != [];
      assert (block + rest)[1..] == block[1..] + rest;
      assert NoBlank(block[1..]) by {
        forall i | 0 <= i < |block| - 1 ensures block[1..][i] != [] {
          assert block[1..][i] == block[i + 1];
        }
      }
      RunThroughBlock(Step(st, block[0]), block[1..], rest);
    }
  }

  /** The loop delivers exactly the reference framing's payloads. */
  lemma {:induction false} DispatchedIsFramed(lines: seq<string>)
    ensures Dispatched(lines) == Framed(lines)
    decreases |lines|
  {
    if NoBlank(lines) {
      RunThroughBlock(Fresh, lines, []);
      assert lines + [] == lines;
    } else {
      var k := FirstBlank(lines);
      var block, rest := lines[..k], lines[k + 1..];
      assert lines == block + ([lines[k]] + rest);
      RunThroughBlock(Fresh, block, [lines[k]] + rest);
      FoldLastValue(Fresh, block);
      assert ([lines[k]] + rest)[1..] == rest;
      DispatchedIsFramed(rest);
    }
  }

  /** Lines after the last blank line never reach the callback. */
  lemma {:induction false} TrailingNotDispatched(st: Event, lines: seq<string>, tail: seq<string>)
    requires NoBlank(tail)
    ensures Run(st, lines + tail) == Run(st, lines)
    decreases |lines|
  {
    if lines == [] {
      RunThroughBlock(st, tail, []);
      assert tail + [] == tail && lines + tail == tail;
    } else {
      assert (lines + tail)[1..] == lines[1..] + tail;
      if lines[0] == [] {
        TrailingNotDispatched(Fresh, lines[1..], tail);
      } else {
        TrailingNotDispatched(Step(st, lines[0]), lines[1..], tail);
      }
    }
  }

  /** After a blank line nothing of the earlier events is left: the stream
      splits there into two independent streams, delivered in order. */
  lemma {:induction false} SplitAtBlank(st: Event, pre: seq<string>, rest: seq<string>)
    requires pre != [] && pre[|pre| - 1] == []
    ensures Run(st, pre + rest) == Run(st, pre) + Dispatched(rest)
    decreases |pre|
  {
    assert (pre + rest)[1..] == pre[1..] + rest;
    if |pre| == 1 {
      assert pre[1..] == [];
    } else if pre[0] == [] {
      SplitAtBlank(Fresh, pre[1..], rest);
    } else {
      SplitAtBlank(Step(st, pre[0]), pre[1..], rest);
    }
  }

  function BlankCount(lines: seq<string>): nat {
    if lines == [] then 0 else (if lines[0] == [] then 1 else 0) + BlankCount(lines[1..])
  }

  /** At most one payload per blank line. */
  lemma {:induction false} AtMostOnePerBlank(st: Event, lines: seq<string>)
    ensures |Run(st, lines)| <= BlankCount(lines)
    decreases |lines|
  {
    if lines != [] {
      if lines[0] == [] {
        AtMostOnePerBlank(Fresh, lines[1..]);
      } else {
        AtMostOnePerBlank(Step(st, lines[0]), lines[1..]);
      }
    }
  }

  /** One complete event followed by the rest of the stream: the event's
      payload by the last values of its fields, then the rest as if the stream
      started there. */
  lemma OneEvent(block: seq<string>, rest: seq<string>)
    requires NoBlank(block)
    ensures Dispatched(block + [[]] + rest) == BlockPayload(block) + Dispatched(rest)
  {
    assert block + [[]] + rest == block + ([[]] + rest);
    RunThroughBlock(Fresh, block, [[]] + rest);
    FoldLastValue(Fresh, block);
    assert ([[]] + rest)[1..] == rest;
  }
}
