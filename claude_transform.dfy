/**
 * The stream translator of `streamClaude`: it reads Anthropic's server-sent events line by line and
 * re-emits each text delta as an OpenAI-style `data:` event, followed by a single `data: [DONE]`.
 */
module ClaudeTransform {
  import opened Text

  /** What `JSON.parse` makes of a payload: nothing usable, or an event with its `type` and its
      `delta.text` ("" when absent or empty). */
  datatype ClaudeEvent = Unparsable | Event(kind: string, text: string)

  /** An enqueued output event: a delta with its text, or the final `data: [DONE]`. */
  datatype OutChunk = OutDelta(text: string) | OutDone

  /** The bytes of an output event; `encodeDelta(t)` is the JSON text of `{choices:[{delta:{content:t}}]}`. */
  function Render(c: OutChunk, encodeDelta: string -> string): (r: string)
    ensures StartsWith(r, "data: ") && EndsWith(r, "\n\n")
    ensures c == OutDone ==> r == "data: [DONE]\n\n"
  {
    match c
    case OutDelta(t) => "data: " + encodeDelta(t) + "\n\n"
    case OutDone => "data: [DONE]\n\n"
  }

  datatype LineAction = Skip | Emit(text: string) | Stop

  /** What one line does once trimmed: non-`data: ` lines, `[DONE]` and unparsable payloads are
      dropped; a non-empty text delta is emitted; `message_stop` ends the stream. */
  function LineEffect(raw: string, parse: string -> ClaudeEvent): (r: LineAction)
    ensures r.Emit? ==> r.text != ""
    ensures !StartsWith(Trim(raw), "data: ") ==> r == Skip
  {
    var line := Trim(raw);
    if !StartsWith(line, "data: ") then Skip
    else
      var json := line[6..];
      if json == "[DONE]" then Skip
      else match parse(json)
        case Unparsable => Skip
        case Event(kind, text) =>
          if kind == "content_block_delta" && text != "" then Emit(text)
          else if kind == "message_stop" then Stop
          else Skip
  }

  /** The events for a list of lines: their effects in order up to the first `message_stop`, then
      one `[DONE]`. */
  function Process(lines: seq<string>, parse: string -> ClaudeEvent): (r: seq<OutChunk>)
    ensures |r| >= 1
  {
    if lines == [] then [OutDone]
    else
      var a := LineEffect(lines[0], parse);
      if a.Stop? then [OutDone] else Effect(a) + Process(lines[1..], parse)
  }

  /** The output of one line effect other than `Stop`. */
  function Effect(a: LineAction): seq<OutChunk> {
    if a.Emit? then [OutDelta(a.text)] else []
  }

  /** The events produced for the whole upstream text: those of its complete lines. */
  function ClaudeRef(text: string, parse: string -> ClaudeEvent): seq<OutChunk> {
    Process(CompleteLines(text), parse)
  }

  /** One cut line of `buffer + tail`: its effect replaces the line, and `message_stop` ends everything. */
  lemma LineStep(buffer: string, tail: string, parse: string -> ClaudeEvent, k: int, a: LineAction)
    requires k == IndexOfNewline(buffer) >= 0
    requires a == LineEffect(buffer[..k], parse)
    ensures a.Stop? ==> ClaudeRef(buffer + tail, parse) == [OutDone]
    ensures !a.Stop? ==> ClaudeRef(buffer + tail, parse) == Effect(a) + ClaudeRef(buffer[k + 1..] + tail, parse)
  {
    CompleteLinesStep(buffer, tail);
    var ls := CompleteLines(buffer[k + 1..] + tail);
    assert ([buffer[..k]] + ls)[1..] == ls;
  }

  /** The inner loop: append `chunk` to `buffer`, then cut and handle every complete line; `stopped` when `message_stop`
      was met, in which case `[DONE]` has been enqueued. */
  method DrainLines(buffer: string, chunk: string, ghost tail: string, parse: string -> ClaudeEvent)
    returns (emitted: seq<OutChunk>, left: string, stopped: bool)
    ensures stopped ==> emitted == ClaudeRef(buffer + (chunk + tail), parse)
    ensures !stopped ==> NoNewline(left) && emitted + ClaudeRef(left + tail, parse) == ClaudeRef(buffer + (chunk + tail), parse)
  {
    emitted := [];
    left := buffer + chunk;
    assert buffer + (chunk + tail) == left + tail;
    var k := IndexOfNewline(left);
    while k != -1
      invariant k == IndexOfNewline(left)
      invariant emitted + ClaudeRef(left + tail, parse) == ClaudeRef(buffer + (chunk + tail), parse)
      decreases |left|
    {
      var a := LineEffect(left[..k], parse);
      LineStep(left, tail, parse, k, a);
      if a.Stop? {
        emitted := emitted + [OutDone];
        stopped := true;
        return;
      }
      emitted := emitted + Effect(a);
      left := left[k + 1..];
      k := IndexOfNewline(left);
    }
    stopped := false;
  }

  /** The `pull` loop: chunks are appended to a buffer, every complete line is cut off and handled,
      and `[DONE]` is enqueued on `message_stop` or when the upstream ends. However the text is cut
      into chunks, the output is that of the whole text. */
  method Transform(chunks: seq<string>, parse: string -> ClaudeEvent) returns (out: seq<OutChunk>)
    ensures out == ClaudeRef(Concat(chunks), parse)
  {
    out := [];
    var buffer := "";
    var i := 0;
    assert chunks[0..] == chunks;
    assert buffer + Concat(chunks[0..]) == Concat(chunks);
    while i < |chunks|
      invariant 0 <= i <= |chunks|
      invariant NoNewline(buffer)
      invariant out + ClaudeRef(buffer + Concat(chunks[i..]), parse) == ClaudeRef(Concat(chunks), parse)
    {
      ConcatFrom(chunks, i);
      var emitted, stopped;
      emitted, buffer, stopped := DrainLines(buffer, chunks[i], Concat(chunks[i + 1..]), parse);
      out := out + emitted;
      i := i + 1;
      if stopped {
        return;
      }
    }
    assert buffer + Concat(chunks[i..]) == buffer;
    IndexOfNewlineNone(buffer);
    out := out + [OutDone];
  }

  /** Exactly one `[DONE]` is produced, and it is the last event. */
  lemma {:induction false} DoneLast(lines: seq<string>, parse: string -> ClaudeEvent)
    ensures Process(lines, parse)[|Process(lines, parse)| - 1] == OutDone
  {
    if lines != [] {
      DoneLast(lines[1..], parse);
    }
  }

  /** Every event before the last is a non-empty text delta. */
  lemma {:induction false} DeltasBeforeDone(lines: seq<string>, parse: string -> ClaudeEvent)
    ensures forall i :: 0 <= i < |Process(lines, parse)| - 1 ==>
              Process(lines, parse)[i].OutDelta? && Process(lines, parse)[i].text != ""
  {
    if lines != [] {
      DeltasBeforeDone(lines[1..], parse);
    }
  }

  /** A line carrying a text delta yields exactly that delta, ahead of whatever the rest yields. */
  lemma DeltaLineEmits(line: string, rest: string, parse: string -> ClaudeEvent)
    requires NoNewline(line)
    requires LineEffect(line, parse).Emit?
    ensures ClaudeRef(line + "\n" + rest, parse) == [OutDelta(LineEffect(line, parse).text)] + ClaudeRef(rest, parse)
  {
    CompleteLinesOfLine(line, rest);
  }

  /** After `message_stop` nothing but `[DONE]` follows, whatever comes next. */
  lemma StopLineEnds(line: string, rest: string, parse: string -> ClaudeEvent)
    requires NoNewline(line)
    requires LineEffect(line, parse) == Stop
    ensures ClaudeRef(line + "\n" + rest, parse) == [OutDone]
  {
    CompleteLinesOfLine(line, rest);
  }

  /** Lines that are not data lines, such as `event:` lines and blank separators, are dropped. */
  lemma OtherLineDropped(line: string, rest: string, parse: string -> ClaudeEvent)
    requires NoNewline(line) && !StartsWith(Trim(line), "data: ")
    ensures ClaudeRef(line + "\n" + rest, parse) == ClaudeRef(rest, parse)
  {
    CompleteLinesOfLine(line, rest);
  }

  /** An unterminated last line is discarded: text after the last line feed changes nothing. */
  lemma UnterminatedTailIgnored(text: string, tail: string, parse: string -> ClaudeEvent)
    requires text == "" || text[|text| - 1] == '\n'
    requires NoNewline(tail)
    ensures ClaudeRef(text + tail, parse) == ClaudeRef(text, parse)
  {
    CompleteLinesTail(text, tail);
  }
}
