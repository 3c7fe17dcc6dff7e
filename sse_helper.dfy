/** `SseHelper`: Server-Sent Events framing on an HTTP response. The
    response is modelled by `SseConnection`: the text written to its body,
    its content type and headers, and two fixed facts about the client:
    whether its request is aborted (`RequestAborted`) by the time an event
    is written, and whether writing to it fails. Serialising the
    event to JSON is outside the model: the serialised text is an input. */
module Sse {
  import opened Wrappers
  import opened Models
  import opened Text

  class SseConnection {
    var body: string
    var contentType: Option<string>
    var headers: seq<(string, string)>
    const aborted: bool
    const writeFails: bool

    constructor (aborted: bool, writeFails: bool)
      ensures body == [] && contentType == None && headers == []
      ensures this.aborted == aborted && this.writeFails == writeFails
    {
      body, contentType, headers := [], None, [];
      this.aborted, this.writeFails := aborted, writeFails;
    }

    /** A write reaches the client: the request was not aborted (otherwise
        the write is cancelled) and the stream is not broken. */
    predicate Writable() {
      !aborted && !writeFails
    }
  }

  /** The SSE event name of an update: only the two known event types have
      one. */
  function EventName(e: UpdateEvent): (r: Option<string>)
    ensures r.Some? <==> !e.OtherUpdate?
  {
    match e
    case StatusUpdate(_) => Some("TaskStatusUpdateEvent")
    case ArtifactUpdate(_) => Some("TaskArtifactUpdateEvent")
    case OtherUpdate(_) => None
  }

  /** One `data:` line per line of the JSON text, in order. */
  function DataLines(lines: seq<string>): string {
    if lines == [] then "" else "data: " + lines[0] + "\n" + DataLines(lines[1..])
  }

  lemma {:induction false} DataLinesAppend(lines: seq<string>, line: string)
    ensures DataLines(lines + [line]) == DataLines(lines) + ("data: " + line + "\n")
    decreases |lines|
  {
    var piece := "data: " + line + "\n";
    if lines == [] {
      assert DataLines([line]) == piece + DataLines([]);
    } else {
      var head := "data: " + lines[0] + "\n";
      assert (lines + [line])[1..] == lines[1..] + [line];
      DataLinesAppend(lines[1..], line);
      Assoc3(head, DataLines(lines[1..]), piece);
    }
  }

  /** The text of one event: the event-name line, the data lines, and the
      blank line that ends it. */
  function EventFrame(name: string, json: string): string {
    "event: " + name + "\n" + DataLines(SplitLines(json)) + "\n"
  }

  /** The text of a comment (a keep-alive ping). */
  function CommentFrame(comment: string): string {
    ": " + comment + "\n\n"
  }

  /** What `WriteSseEventAsync` adds to a response: the event's frame when
      the event type is known and the response can be written, and
      nothing otherwise (the cancellation and the write error are both
      swallowed). */
  function EventOutput(conn: SseConnection, e: UpdateEvent, json: string): string {
    if EventName(e).Some? && conn.Writable() then EventFrame(EventName(e).value, json) else ""
  }

  /** A JSON text on one line (the serialiser's compact form) travels as a
      single data line. */
  lemma SingleLineFrame(name: string, json: string)
    requires json != [] && NoLineBreak(json)
    ensures EventFrame(name, json) == "event: " + name + "\n" + "data: " + json + "\n" + "\n"
  {
    SplitLinesOfTerminated(json, "");
    assert json + "\n" + "" == json + "\n";
    assert ReadLine(json) == Some((json, |json|));
    assert json[|json|..] == [];
    assert SplitLines(json) == [json];
    assert DataLines([json]) == "data: " + json + "\n" + DataLines([]);
  }

  /** `WriteSseEventAsync`: the name line, then the JSON's data lines, then
      the blank line. */
  method WriteSseEvent(response: SseConnection, e: UpdateEvent, json: string)
    modifies response`body
    ensures response.body == old(response.body) + EventOutput(response, e, json)
  {
    var name := EventName(e);
    if name.None? || !response.Writable() {
      return;
    }
    response.body := response.body + ("event: " + name.value + "\n");
    WriteDataLines(response, json);
    response.body := response.body + "\n";
  }

  /** The loop of `WriteSseEventAsync`: the JSON read line by line, each
      line written as one `data:` line. */
  method WriteDataLines(response: SseConnection, json: string)
    modifies response`body
    ensures response.body == old(response.body) + DataLines(SplitLines(json))
  {
    var rest := json;
    ghost var done: seq<string> := [];
    var next := ReadLine(rest);
    while next.Some?
      invariant next == ReadLine(rest)
      invariant SplitLines(json) == done + SplitLines(rest)
      invariant response.body == old(response.body) + DataLines(done)
      decreases |rest|
    {
      var (line, n) := next.value;
      SplitLinesStep(rest, line, n);
      response.body := response.body + ("data: " + line + "\n");
      DataLinesAppend(done, line);
      Assoc3(old(response.body), DataLines(done), "data: " + line + "\n");
      AppendAssoc(done, line, SplitLines(rest[n..]));
      done := done + [line];
      rest := rest[n..];
      next := ReadLine(rest);
    }
    assert done + [] == done;
  }

  /** `WriteSseCommentAsync`: the comment frame, or nothing when the
      response cannot be written. */
  method WriteSseComment(response: SseConnection, comment: string)
    modifies response`body
    ensures response.body == old(response.body) + (if response.Writable() then CommentFrame(comment) else "")
  {
    if response.Writable() {
      response.body := response.body + (": " + comment + "\n\n");
    }
  }

  /** `PrepareSseStream`: the event-stream content type and the two
      headers that keep the connection open and uncached. */
  method PrepareSseStream(response: SseConnection)
    modifies response`contentType, response`headers
    ensures response.contentType == Some("text/event-stream")
    ensures response.headers == old(response.headers) + [("Cache-Control", "no-cache"), ("Connection", "keep-alive")]
  {
    response.contentType := Some("text/event-stream");
    response.headers := response.headers + [("Cache-Control", "no-cache")];
    response.headers := response.headers + [("Connection", "keep-alive")];
  }
}
