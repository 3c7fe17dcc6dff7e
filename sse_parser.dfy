/** The client's Server-Sent Events consumer in `SendTaskAndSubscribeAsync`
    and `ResubscribeAsync`: a line-by-line state machine that keeps the
    current event name and a data buffer, yields a typed update at each
    blank line that completes a named event with data, and stops after a
    final status update. Deserialising the data is an abstract decoder that
    may fail. */
module SseParser {
  import opened Wrappers
  import opened Models
  import opened Text
  import Sse

  /** How a `data:` value is cleaned: `SendTaskAndSubscribeAsync` trims both
      ends, `ResubscribeAsync` only the start. */
  datatype TrimMode = TrimBoth | TrimLeading

  function DataValue(mode: TrimMode, rest: string): string {
    match mode
    case TrimBoth => Trim(rest)
    case TrimLeading => TrimStart(rest)
  }

  /** `JsonSerializer.Deserialize` for the two known event types: `None`
      stands both for a JSON `null` and for a `JsonException`, which the
      consumer swallows alike. */
  datatype Decoders = Decoders(
    status: string -> Option<TaskStatusUpdateEvent>,
    artifact: string -> Option<TaskArtifactUpdateEvent>)

  /** The consumer's variables between lines: `eventName` and the text of
      `dataBuilder`. */
  datatype ParserState = ParserState(eventName: Option<string>, data: string)

  const Initial: ParserState := ParserState(None, "")

  const StatusEventName: string := "TaskStatusUpdateEvent"
  const ArtifactEventName: string := "TaskArtifactUpdateEvent"

  /** A status update with `Final` set ends the stream. */
  predicate IsFinal(e: UpdateEvent) {
    e.StatusUpdate? && e.statusEvent.final
  }

  /** The update a blank line completes: only when a name was seen and data
      was collected, and only for the two known names whose data decodes. */
  function Completed(st: ParserState, dec: Decoders): (r: Option<UpdateEvent>)
    ensures r.Some? ==> st.eventName.Some? && st.data != []
    ensures r.Some? ==>
      (st.eventName.value == StatusEventName && r.value.StatusUpdate? && dec.status(st.data) == Some(r.value.statusEvent))
      || (st.eventName.value == ArtifactEventName && r.value.ArtifactUpdate? && dec.artifact(st.data) == Some(r.value.artifactEvent))
    ensures st.eventName.Some? && st.data != [] && st.eventName.value == StatusEventName && dec.status(st.data).Some? ==> r.Some?
    ensures st.eventName.Some? && st.data != [] && st.eventName.value == ArtifactEventName && dec.artifact(st.data).Some? ==> r.Some?
  {
    if st.eventName.None? || st.data == [] then None
    else if st.eventName.value == StatusEventName then
      match dec.status(st.data)
      case None => None
      case Some(ev) => Some(UpdateEvent.StatusUpdate(ev))
    else if st.eventName.value == ArtifactEventName then
      match dec.artifact(st.data)
      case None => None
      case Some(ev) => Some(UpdateEvent.ArtifactUpdate(ev))
    else None
  }

  /** A line that is not blank: `event:` replaces the name, `data:` appends
      the cleaned value and a newline, anything else changes nothing. */
  function FieldLine(st: ParserState, line: string, mode: TrimMode): ParserState {
    if StartsWith(line, "event:") then ParserState(Some(Trim(line[|"event:"|..])), st.data)
    else if StartsWith(line, "data:") then ParserState(st.eventName, st.data + DataValue(mode, line[|"data:"|..]) + NewLine)
    else st
  }

  /** The state after a line: every blank or white-space line resets it. */
  function NextState(st: ParserState, line: string, mode: TrimMode): ParserState {
    if IsBlank(line) then Initial else FieldLine(st, line, mode)
  }

  /** The updates yielded while reading `lines` from state `st`: every one is
      of a known type, and only the last can be final, since the consumer
      stops right after yielding a final status update. */
  function Parse(lines: seq<string>, st: ParserState, mode: TrimMode, dec: Decoders): (r: seq<UpdateEvent>)
    ensures forall i | 0 <= i < |r| :: !r[i].OtherUpdate?
    ensures forall i | 0 <= i < |r| - 1 :: !IsFinal(r[i])
    ensures |r| <= |lines|
    decreases |lines|
  {
    if lines == [] then []
    else if IsBlank(lines[0]) then
      match Completed(st, dec)
      case None => Parse(lines[1..], Initial, mode, dec)
      case Some(e) => if IsFinal(e) then [e] else [e] + Parse(lines[1..], Initial, mode, dec)
    else Parse(lines[1..], FieldLine(st, lines[0], mode), mode, dec)
  }

  /** Whether reading `lines` from `st` stops early at a final update. */
  predicate Stops(lines: seq<string>, st: ParserState, mode: TrimMode, dec: Decoders)
    decreases |lines|
  {
    if lines == [] then false
    else if IsBlank(lines[0]) then
      match Completed(st, dec)
      case None => Stops(lines[1..], Initial, mode, dec)
      case Some(e) => IsFinal(e) || Stops(lines[1..], Initial, mode, dec)
    else Stops(lines[1..], FieldLine(st, lines[0], mode), mode, dec)
  }

  /** The state after reading all of `lines`. */
  function StateAfter(lines: seq<string>, st: ParserState, mode: TrimMode): ParserState
    decreases |lines|
  {
    if lines == [] then st else StateAfter(lines[1..], NextState(st, lines[0], mode), mode)
  }

  /** Reading proceeds in pieces: unless the first piece ends the stream,
      the updates of `a + b` are those of `a` followed by those of `b` read
      from the state `a` leaves. */
  lemma {:induction false} ParseAppend(a: seq<string>, b: seq<string>, st: ParserState, mode: TrimMode, dec: Decoders)
    requires !Stops(a, st, mode, dec)
    ensures Parse(a + b, st, mode, dec) == Parse(a, st, mode, dec) + Parse(b, StateAfter(a, st, mode), mode, dec)
    decreases |a|
  {
    if a == [] {
      assert a + b == b;
    } else {
      SplitFirst(a, b);
      ParseAppend(a[1..], b, NextState(st, a[0], mode), mode, dec);
    }
  }

  /** A final update ends the stream: nothing after the lines that yield it
      is read. */
  lemma {:induction false} StopIgnoresRest(a: seq<string>, b: seq<string>, st: ParserState, mode: TrimMode, dec: Decoders)
    requires Stops(a, st, mode, dec)
    ensures Parse(a + b, st, mode, dec) == Parse(a, st, mode, dec)
    decreases |a|
  {
    SplitFirst(a, b);
    if IsBlank(a[0]) {
      var c := Completed(st, dec);
      if c.None? || !IsFinal(c.value) {
        StopIgnoresRest(a[1..], b, Initial, mode, dec);
      }
    } else {
      StopIgnoresRest(a[1..], b, FieldLine(st, a[0], mode), mode, dec);
    }
  }

  /** A sequence of updates whose last one is final. */
  predicate EndsFinal(r: seq<UpdateEvent>) {
    |r| > 0 && IsFinal(r[|r| - 1])
  }

  /** An update put in front keeps the last one last. */
  lemma ConsEndsFinal(x: UpdateEvent, t: seq<UpdateEvent>)
    requires EndsFinal(t)
    ensures EndsFinal([x] + t)
  {
    assert ([x] + t)[|t|] == t[|t| - 1];
  }

  /** Lines that stop the stream yield, as their last update, the final
      one. */
  lemma {:induction false} StopEndsFinal(a: seq<string>, st: ParserState, mode: TrimMode, dec: Decoders)
    requires Stops(a, st, mode, dec)
    ensures EndsFinal(Parse(a, st, mode, dec))
    decreases |a|
  {
    var r := Parse(a, st, mode, dec);
    if IsBlank(a[0]) {
      var c := Completed(st, dec);
      if c.Some? && IsFinal(c.value) {
        assert r == [c.value];
      } else {
        var tail := Parse(a[1..], Initial, mode, dec);
        StopEndsFinal(a[1..], Initial, mode, dec);
        if c.Some? {
          assert r == [c.value] + tail;
          ConsEndsFinal(c.value, tail);
        } else {
          assert r == tail;
        }
      }
    } else {
      StopEndsFinal(a[1..], FieldLine(st, a[0], mode), mode, dec);
      assert r == Parse(a[1..], FieldLine(st, a[0], mode), mode, dec);
    }
  }

  /** Updates are yielded only at blank lines: lines with no blank one among
      them yield nothing and only move the state. */
  lemma {:induction false} NoBlankLineNoUpdates(lines: seq<string>, st: ParserState, mode: TrimMode, dec: Decoders)
    requires forall i | 0 <= i < |lines| :: !IsBlank(lines[i])
    ensures Parse(lines, st, mode, dec) == [] && !Stops(lines, st, mode, dec)
    decreases |lines|
  {
    if lines != [] {
      NoBlankLineNoUpdates(lines[1..], FieldLine(st, lines[0], mode), mode, dec);
    }
  }

  /** A blank line forgets the name and the data, whatever came before. */
  lemma BlankLineResets(lines: seq<string>, blank: string, st: ParserState, mode: TrimMode)
    requires IsBlank(blank)
    ensures StateAfter(lines + [blank], st, mode) == Initial
  {
    StateAfterAppend(lines, [blank], st, mode);
  }

  lemma {:induction false} StateAfterAppend(a: seq<string>, b: seq<string>, st: ParserState, mode: TrimMode)
    ensures StateAfter(a + b, st, mode) == StateAfter(b, StateAfter(a, st, mode), mode)
    decreases |a|
  {
    if a == [] {
      assert a + b == b;
    } else {
      SplitFirst(a, b);
      StateAfterAppend(a[1..], b, NextState(st, a[0], mode), mode);
    }
  }

  /** Of two `event:` lines the last one wins, and the data collected so far
      is kept. */
  lemma LastEventNameWins(st: ParserState, first: string, second: string, mode: TrimMode)
    ensures StateAfter(["event:" + first, "event:" + second], st, mode) == ParserState(Some(Trim(second)), st.data)
  {
    var l1, l2 := "event:" + first, "event:" + second;
    assert StartsWith(l1, "event:") && l1[|"event:"|..] == first;
    assert StartsWith(l2, "event:") && l2[|"event:"|..] == second;
    assert !IsBlank(l1) by { assert l1[0] == 'e'; }
    assert !IsBlank(l2) by { assert l2[0] == 'e'; }
    var s1 := NextState(st, l1, mode);
    assert s1 == ParserState(Some(Trim(first)), st.data);
    var s2 := NextState(s1, l2, mode);
    assert s2 == ParserState(Some(Trim(second)), st.data);
    var none: seq<string> := [];
    assert [l1, l2][1..] == [l2];
    assert [l2][1..] == none;
    assert StateAfter([l2], s1, mode) == StateAfter(none, s2, mode);
  }

  /** An event whose name is neither known type is dropped at its blank line
      without ending the stream: reading continues as if it were absent. */
  lemma UnknownEventDropped(name: string, data: string, blank: string, rest: seq<string>, mode: TrimMode, dec: Decoders)
    requires IsBlank(blank) && name != StatusEventName && name != ArtifactEventName
    ensures Parse([blank] + rest, ParserState(Some(name), data), mode, dec) == Parse(rest, Initial, mode, dec)
  {
    FirstOfCons(blank, rest);
  }

  // ---------------------------------------------------------------------
  // The frames the server writes, read back
  // ---------------------------------------------------------------------

  /** The lines `Sse.DataLines` writes for the lines of a JSON text. */
  function DataFieldLines(jsonLines: seq<string>): (r: seq<string>)
    ensures |r| == |jsonLines|
  {
    if jsonLines == [] then [] else ["data: " + jsonLines[0]] + DataFieldLines(jsonLines[1..])
  }

  /** The data buffer built from the server's `data: <line>` lines. */
  function Collected(jsonLines: seq<string>, mode: TrimMode): string {
    if jsonLines == [] then "" else DataValue(mode, " " + jsonLines[0]) + NewLine + Collected(jsonLines[1..], mode)
  }

  lemma DataFieldLineShape(line: string)
    ensures !IsBlank("data: " + line)
    ensures !StartsWith("data: " + line, "event:")
    ensures StartsWith("data: " + line, "data:") && ("data: " + line)[|"data:"|..] == " " + line
    ensures NoLineBreak(line) ==> NoLineBreak("data: " + line)
  {
    var f := "data: " + line;
    assert f[0] == 'd';
    assert f[..5] == "data:";
    assert f[5..] == " " + line;
    if NoLineBreak(line) {
      forall k | 0 <= k < |f| ensures !IsLineBreak(f[k]) {
        if k >= 6 { assert f[k] == line[k - 6]; }
      }
    }
  }

  /** The text `Sse.DataLines` writes is read back one data line each. */
  lemma {:induction false} DataLinesRead(jsonLines: seq<string>, tail: string)
    requires forall i | 0 <= i < |jsonLines| :: NoLineBreak(jsonLines[i])
    ensures SplitLines(Sse.DataLines(jsonLines) + tail) == DataFieldLines(jsonLines) + SplitLines(tail)
    decreases |jsonLines|
  {
    if jsonLines == [] {
      assert Sse.DataLines(jsonLines) + tail == tail;
    } else {
      var first := "data: " + jsonLines[0];
      var more := Sse.DataLines(jsonLines[1..]) + tail;
      RegroupLast(first, "\n", Sse.DataLines(jsonLines[1..]), tail);
      DataFieldLineShape(jsonLines[0]);
      SplitLinesOfTerminated(first, more);
      DataLinesRead(jsonLines[1..], tail);
      Assoc3([first], DataFieldLines(jsonLines[1..]), SplitLines(tail));
    }
  }

  /** Reading the server's data lines appends each JSON line, cleaned of the
      blank the server writes after `data:` (and, when trimming both ends,
      of its own surrounding white space), followed by a newline. */
  lemma {:induction false} DataLinesCollect(jsonLines: seq<string>, name: Option<string>, data: string, mode: TrimMode)
    ensures StateAfter(DataFieldLines(jsonLines), ParserState(name, data), mode)
      == ParserState(name, data + Collected(jsonLines, mode))
    decreases |jsonLines|
  {
    if jsonLines != [] {
      var next := data + DataValue(mode, " " + jsonLines[0]) + NewLine;
      DataLineStep(jsonLines, name, data, mode);
      DataLinesCollect(jsonLines[1..], name, next, mode);
      CollectedStep(jsonLines, data, mode);
    }
  }

  lemma DataLineStep(jsonLines: seq<string>, name: Option<string>, data: string, mode: TrimMode)
    requires jsonLines != []
    ensures StateAfter(DataFieldLines(jsonLines), ParserState(name, data), mode)
      == StateAfter(DataFieldLines(jsonLines[1..]), ParserState(name, data + DataValue(mode, " " + jsonLines[0]) + NewLine), mode)
  {
    var lines := DataFieldLines(jsonLines);
    assert lines[0] == "data: " + jsonLines[0] && lines[1..] == DataFieldLines(jsonLines[1..]);
    DataFieldLineShape(jsonLines[0]);
  }

  lemma CollectedStep(jsonLines: seq<string>, data: string, mode: TrimMode)
    requires jsonLines != []
    ensures data + DataValue(mode, " " + jsonLines[0]) + NewLine + Collected(jsonLines[1..], mode) == data + Collected(jsonLines, mode)
  {
    RegroupTail(data, DataValue(mode, " " + jsonLines[0]), NewLine, Collected(jsonLines[1..], mode));
  }

  lemma NoBlankDataLines(jsonLines: seq<string>)
    ensures forall i | 0 <= i < |DataFieldLines(jsonLines)| :: !IsBlank(DataFieldLines(jsonLines)[i])
    decreases |jsonLines|
  {
    if jsonLines != [] {
      DataFieldLineShape(jsonLines[0]);
      NoBlankDataLines(jsonLines[1..]);
      var r := DataFieldLines(jsonLines);
      assert forall i | 1 <= i < |r| :: r[i] == DataFieldLines(jsonLines[1..])[i - 1];
    }
  }

  lemma NameLineShape(name: string)
    ensures !IsBlank("event: " + name)
    ensures NoLineBreak(name) ==> NoLineBreak("event: " + name)
    ensures NextState(Initial, "event: " + name, TrimBoth) == ParserState(Some(Trim(name)), "")
    ensures NextState(Initial, "event: " + name, TrimLeading) == ParserState(Some(Trim(name)), "")
  {
    NameLineText(name);
    NameLineNoBreak(name);
    TrimsSkipLeadingSpace(name);
  }

  lemma NameLineText(name: string)
    ensures !IsBlank("event: " + name)
    ensures StartsWith("event: " + name, "event:") && ("event: " + name)[|"event:"|..] == " " + name
  {
    var head := "event: " + name;
    assert head[0] == 'e';
    assert head[..6] == "event:";
    assert head[6..] == " " + name;
  }

  lemma NameLineNoBreak(name: string)
    ensures NoLineBreak(name) ==> NoLineBreak("event: " + name)
  {
    var head := "event: " + name;
    if NoLineBreak(name) {
      forall k | 0 <= k < |head| ensures !IsLineBreak(head[k]) {
        if k >= 7 { assert head[k] == name[k - 7]; }
      }
    }
  }

  /** The lines of a framed event: its name line, its data lines, the blank
      line, then the lines of whatever follows. */
  lemma FrameLines(name: string, json: string, rest: string)
    requires NoLineBreak(name)
    ensures SplitLines(Sse.EventFrame(name, json) + rest)
      == ["event: " + name] + DataFieldLines(SplitLines(json)) + [""] + SplitLines(rest)
  {
    var jsonLines := SplitLines(json);
    var head := "event: " + name;
    var afterHead := Sse.DataLines(jsonLines) + ("\n" + rest);
    var d := DataFieldLines(jsonLines);
    var l := SplitLines(rest);
    FrameText(name, json, rest);
    HeadLineRead(name, afterHead);
    assert SplitLines(Sse.EventFrame(name, json) + rest) == [head] + SplitLines(afterHead);
    DataLinesRead(jsonLines, "\n" + rest);
    BlankLineRead(rest);
    assert SplitLines(afterHead) == d + ([""] + l);
    Regroup(head, d, "", l);
  }

  lemma SplitFirst<T>(a: seq<T>, b: seq<T>)
    requires a != []
    ensures (a + b)[0] == a[0] && (a + b)[1..] == a[1..] + b
  {
  }

  lemma FirstOfCons<T>(x: T, l: seq<T>)
    ensures ([x] + l)[0] == x && ([x] + l)[1..] == l
  {
  }

  lemma Regroup<T>(h: T, d: seq<T>, m: T, l: seq<T>)
    ensures [h] + (d + ([m] + l)) == [h] + d + [m] + l
  {
  }

  lemma FrameText(name: string, json: string, rest: string)
    ensures Sse.EventFrame(name, json) + rest == "event: " + name + "\n" + (Sse.DataLines(SplitLines(json)) + ("\n" + rest))
  {
  }

  lemma HeadLineRead(name: string, more: string)
    requires NoLineBreak(name)
    ensures SplitLines("event: " + name + "\n" + more) == ["event: " + name] + SplitLines(more)
  {
    NameLineShape(name);
    SplitLinesOfTerminated("event: " + name, more);
  }

  lemma BlankLineRead(rest: string)
    ensures SplitLines("\n" + rest) == [""] + SplitLines(rest)
  {
    SplitLinesOfTerminated("", rest);
    assert "" + "\n" + rest == "\n" + rest;
  }

  /** The state after the name line and the data lines of a frame. */
  lemma FrameFields(name: string, json: string, mode: TrimMode, dec: Decoders)
    ensures var fields := ["event: " + name] + DataFieldLines(SplitLines(json));
      Parse(fields, Initial, mode, dec) == [] && !Stops(fields, Initial, mode, dec)
      && StateAfter(fields, Initial, mode) == ParserState(Some(Trim(name)), Collected(SplitLines(json), mode))
  {
    var jsonLines := SplitLines(json);
    var fields := ["event: " + name] + DataFieldLines(jsonLines);
    FieldsNotBlank(name, jsonLines);
    NoBlankLineNoUpdates(fields, Initial, mode, dec);
    NameLineStep(name, jsonLines, mode);
    DataLinesCollect(jsonLines, Some(Trim(name)), "", mode);
    assert "" + Collected(jsonLines, mode) == Collected(jsonLines, mode);
  }

  lemma FieldsNotBlank(name: string, jsonLines: seq<string>)
    ensures var fields := ["event: " + name] + DataFieldLines(jsonLines);
      forall i | 0 <= i < |fields| :: !IsBlank(fields[i])
  {
    var fields := ["event: " + name] + DataFieldLines(jsonLines);
    forall i | 0 <= i < |fields| ensures !IsBlank(fields[i]) {
      if i == 0 {
        NameLineShape(name);
      } else {
        assert fields[i] == DataFieldLines(jsonLines)[i - 1];
        NoBlankDataLines(jsonLines);
      }
    }
  }

  lemma NameLineStep(name: string, jsonLines: seq<string>, mode: TrimMode)
    ensures StateAfter(["event: " + name] + DataFieldLines(jsonLines), Initial, mode)
      == StateAfter(DataFieldLines(jsonLines), ParserState(Some(Trim(name)), ""), mode)
  {
    var fields := ["event: " + name] + DataFieldLines(jsonLines);
    assert fields[1..] == DataFieldLines(jsonLines);
    NameLineShape(name);
  }

  /** Framing and parsing agree: an event the server frames (`Sse.EventFrame`)
      and anything after it are read back as the update that the name and the
      collected data decode to, followed, unless that update is final, by
      whatever the rest yields. The name comes back trimmed; the data comes
      back line by line, trimmed and newline-terminated. */
  lemma FrameReadBack(name: string, json: string, rest: string, mode: TrimMode, dec: Decoders)
    requires NoLineBreak(name)
    ensures Parse(SplitLines(Sse.EventFrame(name, json) + rest), Initial, mode, dec)
      == var st := ParserState(Some(Trim(name)), Collected(SplitLines(json), mode));
         match Completed(st, dec)
         case None => Parse(SplitLines(rest), Initial, mode, dec)
         case Some(e) => if IsFinal(e) then [e] else [e] + Parse(SplitLines(rest), Initial, mode, dec)
  {
    var fields := ["event: " + name] + DataFieldLines(SplitLines(json));
    var tail := [""] + SplitLines(rest);
    var st := ParserState(Some(Trim(name)), Collected(SplitLines(json), mode));
    assert SplitLines(Sse.EventFrame(name, json) + rest) == fields + tail by {
      FrameLines(name, json, rest);
    }
    FrameFields(name, json, mode, dec);
    ParseAppend(fields, tail, Initial, mode, dec);
    assert Parse(fields + tail, Initial, mode, dec) == Parse(tail, st, mode, dec);
    FirstOfCons("", SplitLines(rest));
    assert IsBlank(tail[0]);
  }

  /** A compact JSON text (one line, no surrounding white space) framed by
      the server reaches the decoder as that text plus the newline, in both
      trimming modes. */
  lemma CompactFrameReadBack(json: string, mode: TrimMode)
    requires json != [] && NoLineBreak(json)
    requires !IsWhiteSpace(json[0]) && !IsWhiteSpace(json[|json| - 1])
    ensures Collected(SplitLines(json), mode) == json + NewLine
  {
    SplitLinesOfTerminated(json, "");
    assert json + "\n" + "" == json + "\n";
    assert ReadLine(json) == Some((json, |json|));
    assert json[|json|..] == [];
    assert SplitLines(json) == [json];
    TrimsSkipLeadingSpace(json);
    assert TrimStart(json) == json;
    assert TrimEnd(json) == json;
    assert Collected([json], mode) == DataValue(mode, " " + json) + NewLine + Collected([], mode);
  }

  /** The consumer's loop: read a line at a time until the text is used up;
      at a blank line yield the completed update, if any, stop after a final
      one, and reset; otherwise update the name or the data. */
  method ConsumeSse(text: string, mode: TrimMode, dec: Decoders) returns (events: seq<UpdateEvent>)
    ensures events == Parse(SplitLines(text), Initial, mode, dec)
  {
    var rest := text;
    var st := Initial;
    events := [];
    var next := ReadLine(rest);
    while next.Some?
      invariant next == ReadLine(rest)
      invariant events + Parse(SplitLines(rest), st, mode, dec) == Parse(SplitLines(text), Initial, mode, dec)
      decreases |rest|
    {
      var (line, n) := next.value;
      SplitLinesStep(rest, line, n);
      var lines := SplitLines(rest);
      assert lines[0] == line && lines[1..] == SplitLines(rest[n..]);
      if IsBlank(line) {
        var done := Completed(st, dec);
        if done.Some? {
          AppendAssoc(events, done.value, Parse(lines[1..], Initial, mode, dec));
          events := events + [done.value];
          if IsFinal(done.value) {
            return;
          }
        }
        st := Initial;
      } else if StartsWith(line, "event:") {
        st := ParserState(Some(Trim(line[|"event:"|..])), st.data);
      } else if StartsWith(line, "data:") {
        st := ParserState(st.eventName, st.data + DataValue(mode, line[|"data:"|..]) + NewLine);
      }
      rest := rest[n..];
      next := ReadLine(rest);
    }
  }
}
