/** studio/util/sse.rs: the text frames of the server-sent-events stream
    that reports training progress, as the "Server-sent events" section of
    the WHATWG HTML Standard describes them: lines of `field: value`, an
    event ended by a blank line, and comment lines starting with `:`. */
module Sse {
  import opened Text

  /** `format_sse_event`: an `event` line, a `data` line and the blank line
      that dispatches the event. */
  function FormatEvent(name: string, data: string): (r: string)
    ensures StartsWith(r, "event: ") && EndsWith(r, "\n\n")
    ensures |r| == |name| + |data| + 16
  {
    "event: " + name + "\ndata: " + data + "\n\n"
  }

  /** `format_sse_keepalive`: a comment line, which clients ignore, and a
      blank line. */
  const KeepAlive: string := ": ping\n\n"

  /** How a client reads one line of the stream: the field name up to the
      first `:`, and the value after it with one leading space dropped; a
      line without `:` is a field with an empty value. */
  function FieldOf(line: string): (r: (string, string))
    ensures ':' !in r.0
  {
    var kv := SplitOnce(line, ':');
    if kv.1.None? then (line, "")
    else if |kv.1.value| > 0 && kv.1.value[0] == ' ' then (kv.0, kv.1.value[1..])
    else (kv.0, kv.1.value)
  }

  /** A comment line: one that starts with `:`. */
  predicate IsComment(line: string)
  {
    |line| > 0 && line[0] == ':'
  }

  /** A line `field: value` reads back as that field and value, whatever the
      value holds, colons included. */
  lemma {:induction false} FieldOfLine(field: string, value: string)
    requires ':' !in field
    ensures FieldOf(field + ": " + value) == (field, value)
  {
    var line := field + ": " + value;
    assert line == field + [':'] + ([' '] + value);
    var kv := SplitOnce(line, ':');
    assert kv.0 + [':'] + kv.1.value == field + [':'] + ([' '] + value);
    FindOne(line, ':');
    forall j | 0 <= j < |field| ensures line[j] == field[j] { }
    FindAt(line, ':', |field|);
    assert kv.1.value == [' '] + value;
  }

  /** The lines of a formatted event, for a name and data without line
      breaks: the two fields, the blank line, and the empty rest. */
  lemma {:induction false} FormatEventLines(name: string, data: string)
    requires '\n' !in name && '\n' !in data
    ensures Split(FormatEvent(name, data), "\n") == ["event: " + name, "data: " + data, "", ""]
  {
    var ev := "event: " + name;
    var da := "data: " + data;
    assert '\n' !in ev && '\n' !in da;
    var empty: string := [];
    assert FormatEvent(name, data) == ev + ['\n'] + (da + ['\n'] + (empty + ['\n'] + empty));
    SplitAfter(ev, '\n', da + ['\n'] + (empty + ['\n'] + empty));
    SplitAfter(da, '\n', empty + ['\n'] + empty);
    SplitAroundOne(empty, '\n', empty);
  }

  /** A client reading a formatted event sees exactly one event, with the
      given name and data: its first line is the `event` field, the second
      the `data` field, and the first blank line comes right after them. */
  lemma {:induction false} FormatEventReadsBack(name: string, data: string)
    requires '\n' !in name && '\n' !in data
    ensures var lines := Split(FormatEvent(name, data), "\n");
      |lines| == 4 && FieldOf(lines[0]) == ("event", name) && FieldOf(lines[1]) == ("data", data)
      && lines[2] == "" && lines[0] != "" && lines[1] != ""
  {
    FormatEventLines(name, data);
    var lines := Split(FormatEvent(name, data), "\n");
    assert lines[0] == "event" + ": " + name;
    assert lines[1] == "data" + ": " + data;
    FieldOfLine("event", name);
    FieldOfLine("data", data);
  }

  /** The keep-alive is one comment line and a blank line, so a client
      dispatches nothing for it. */
  lemma KeepAliveLines()
    ensures Split(KeepAlive, "\n") == [": ping", "", ""]
    ensures IsComment(": ping") && EndsWith(KeepAlive, "\n\n")
  {
    var empty: string := [];
    assert KeepAlive == ": ping" + ['\n'] + (empty + ['\n'] + empty);
    SplitAfter(": ping", '\n', empty + ['\n'] + empty);
    SplitAroundOne(empty, '\n', empty);
  }

  /** An HTTP response header. */
  datatype Header = Header(name: string, value: string)

  /** `sse_headers`: the event-stream content type, and no caching or
      buffering of the open connection. */
  function SseHeaders(): (r: seq<Header>)
    ensures |r| == 4 && r[0] == Header("Content-Type", "text/event-stream")
    ensures forall i, j :: 0 <= i < j < |r| ==> r[i].name != r[j].name
  {
    [Header("Content-Type", "text/event-stream"), Header("Cache-Control", "no-cache"),
     Header("Connection", "keep-alive"), Header("X-Accel-Buffering", "no")]
  }
}
