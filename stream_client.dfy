/**
 * The client's consumer of the generation stream, `streamNovelGeneration`: the error paths of the
 * response, the line-buffer loop over the decoded chunks (carriage-return stripping, comment and
 * blank skipping, `data: ` filtering, `[DONE]`, put-back of an unparsable payload), the final flush
 * and the callback protocol. The callbacks are recorded as a sequence of events.
 */
module StreamClient {
  import opened Wrappers
  import opened Text

  /** What `JSON.parse` makes of a payload: nothing, or the text of `choices[0].delta.content`
      ("" when absent or empty). */
  datatype Payload = Unparsable | Parsed(content: string)

  /** One callback call. */
  datatype ClientEvent = Delta(text: string) | Done | Error(message: string)

  /** The body of a non-ok response: not JSON, or JSON with its `error` field ("" when absent). */
  datatype ErrorBody = NotJson | JsonBody(error: string)

  /** The decoded chunks of a response body, and the error that ended the reading early, if any. */
  datatype BodyStream = BodyStream(chunks: seq<string>, failure: Option<string>)

  /** What `fetch` gives: the message of the error it throws, or a response. */
  datatype ClientResponse =
    | FetchThrew(message: string)
    | Got(ok: bool, status: int, errorBody: ErrorBody, body: Option<BodyStream>)

  /** The message passed to `onError` for a non-ok response. */
  function ErrorMessage(status: int, body: ErrorBody): (r: string)
    ensures r != ""
    ensures body == NotJson ==> r == "HTTP " + IntToString(status)
    ensures body.JsonBody? && body.error != "" ==> r == body.error
    ensures body == JsonBody("") ==> r == "请求失败: " + IntToString(status)
  {
    match body
    case NotJson => "HTTP " + IntToString(status)
    case JsonBody(e) => if e != "" then e else "请求失败: " + IntToString(status)
  }

  /** `line.endsWith("\r") ? line.slice(0, -1) : line`. */
  function StripCR(line: string): (r: string)
    ensures EndsWith(line, "\r") ==> r + "\r" == line
    ensures !EndsWith(line, "\r") ==> r == line
  {
    if EndsWith(line, "\r") then line[..|line| - 1] else line
  }

  datatype LineKind = Ignore | Deliver(content: string) | Finish | Stuck

  /** What the filters make of a line whose carriage return is already stripped: comments, blank
      lines and non-data lines are ignored, `[DONE]` finishes, an unparsable payload is stuck, and a
      non-empty content is delivered. */
  function Classify(line: string, parse: string -> Payload): (r: LineKind)
    ensures r.Deliver? ==> r.content != ""
  {
    if StartsWith(line, ":") || Trim(line) == "" then Ignore
    else if !StartsWith(line, "data: ") then Ignore
    else
      var json := Trim(line[6..]);
      if json == "[DONE]" then Finish
      else match parse(json)
        case Unparsable => Stuck
        case Parsed(c) => if c != "" then Deliver(c) else Ignore
  }

  /** Where the main loop stopped: at `[DONE]`, out of complete lines with the unterminated `tail`
      left, or stuck at an unparsable line followed by `rest`. */
  datatype Stop = Finished | Drained(tail: string) | Blocked(rest: string)

  datatype Scan = Scan(delivered: seq<ClientEvent>, stop: Stop)

  function Prepend(events: seq<ClientEvent>, s: Scan): Scan {
    Scan(events + s.delivered, s.stop)
  }

  /** The main loop over a whole text: the complete lines in order, until `[DONE]` or an
      unparsable line. */
  function MainScan(text: string, parse: string -> Payload): Scan
    decreases |text|
  {
    var k := IndexOfNewline(text);
    if k < 0 then Scan([], Drained(text))
    else
      var rest := text[k + 1..];
      match Classify(StripCR(text[..k]), parse)
      case Ignore => MainScan(rest, parse)
      case Deliver(c) => Prepend([Delta(c)], MainScan(rest, parse))
      case Finish => Scan([], Finished)
      case Stuck => Scan([], Blocked(rest))
  }

  /** One piece of the final flush: the same filters, but `[DONE]` and parse errors are skipped. */
  function FlushLine(raw: string, parse: string -> Payload): (r: seq<ClientEvent>)
    ensures |r| <= 1 && (r != [] ==> r[0].Delta? && r[0].text != "")
  {
    if raw == "" then []
    else match Classify(StripCR(raw), parse)
      case Deliver(c) => [Delta(c)]
      case _ => []
  }

  function FlushPieces(pieces: seq<string>, parse: string -> Payload): seq<ClientEvent>
    decreases |pieces|
  {
    if pieces == [] then [] else FlushLine(pieces[0], parse) + FlushPieces(pieces[1..], parse)
  }

  /** What the flush delivers after the main loop stopped without `[DONE]`. */
  function Flushed(stop: Stop, parse: string -> Payload): seq<ClientEvent> {
    match stop
    case Finished => []
    case Drained(tail) => FlushLine(tail, parse)
    case Blocked(rest) => FlushPieces(SplitBy(rest, IsNewline), parse)
  }

  /** The callbacks for a readable body with text `text`: the deltas of the main loop, then `onDone`
      at `[DONE]`; otherwise `onError` when reading failed, or the flushed deltas and `onDone`. */
  function StreamEvents(text: string, failure: Option<string>, parse: string -> Payload): seq<ClientEvent> {
    var sc := MainScan(text, parse);
    sc.delivered +
      (if sc.stop.Finished? then [Done]
       else if failure.Some? then [Error(failure.value)]
       else Flushed(sc.stop, parse) + [Done])
  }

  /** The callbacks of a whole call. */
  function ClientRef(resp: ClientResponse, parse: string -> Payload): seq<ClientEvent> {
    match resp
    case FetchThrew(m) => [Error(m)]
    case Got(ok, status, errorBody, body) =>
      if !ok then [Error(ErrorMessage(status, errorBody))]
      else if body.None? then [Error("无法获取流式响应")]
      else StreamEvents(Concat(body.value.chunks), body.value.failure, parse)
  }

  /** The buffer between chunks: no complete line, or a put-back line that is stuck. */
  predicate Shaped(buffer: string, parse: string -> Payload) {
    NoNewline(buffer) ||
    (IndexOfNewline(buffer) >= 0 && Classify(StripCR(buffer[..IndexOfNewline(buffer)]), parse) == Stuck)
  }

  /** One cut line of `buffer + tail`. */
  lemma ScanStep(buffer: string, tail: string, parse: string -> Payload, k: int, a: LineKind)
    requires k == IndexOfNewline(buffer) >= 0
    requires a == Classify(StripCR(buffer[..k]), parse)
    ensures MainScan(buffer + tail, parse) ==
            match a
            case Ignore => MainScan(buffer[k + 1..] + tail, parse)
            case Deliver(c) => Prepend([Delta(c)], MainScan(buffer[k + 1..] + tail, parse))
            case Finish => Scan([], Finished)
            case Stuck => Scan([], Blocked(buffer[k + 1..] + tail))
  {
    IndexOfNewlineAppend(buffer, tail);
    MainScanAt(buffer + tail, k, buffer[..k], buffer[k + 1..] + tail, parse);
  }

  lemma PrependTwice(a: seq<ClientEvent>, b: seq<ClientEvent>, sc: Scan)
    ensures Prepend(a, Prepend(b, sc)) == Prepend(a + b, sc)
  {
    assert a + (b + sc.delivered) == (a + b) + sc.delivered;
  }

  /** The main loop at its first line feed `k`: `line` before it, `rest` after it. */
  lemma MainScanAt(s: string, k: int, line: string, rest: string, parse: string -> Payload)
    requires k == IndexOfNewline(s) >= 0 && line == s[..k] && rest == s[k + 1..]
    ensures MainScan(s, parse) ==
            match Classify(StripCR(line), parse)
            case Ignore => MainScan(rest, parse)
            case Deliver(c) => Prepend([Delta(c)], MainScan(rest, parse))
            case Finish => Scan([], Finished)
            case Stuck => Scan([], Blocked(rest))
  {
  }

  /** Stripping a carriage return once more leaves a stuck line stuck. */
  lemma StuckStable(line: string, parse: string -> Payload)
    requires Classify(line, parse) == Stuck
    ensures Classify(StripCR(line), parse) == Stuck
  {
    if EndsWith(line, "\r") {
      var m := StripCR(line);
      assert line[..6] == "data: ";
      assert |line| > 6;
      assert m[..6] == line[..6];
      assert m[6..] + "\r" == line[6..];
      TrimSnocWhitespace(m[6..], '\r');
      TrimNotBlank(m);
    }
  }

  /** Putting a stuck line back in front of the rest keeps the buffer's shape and its outcome. */
  lemma PutBack(left: string, tail: string, parse: string -> Payload, k: int)
    requires k == IndexOfNewline(left) >= 0
    requires Classify(StripCR(left[..k]), parse) == Stuck
    ensures Shaped(StripCR(left[..k]) + "\n" + left[k + 1..], parse)
    ensures MainScan(left + tail, parse) == MainScan((StripCR(left[..k]) + "\n" + left[k + 1..]) + tail, parse)
  {
    var line := StripCR(left[..k]);
    var rest := left[k + 1..];
    IndexOfNewlineSplit(left);
    StripCRNoNewline(left[..k]);
    StuckStable(line, parse);
    assert (line + "\n" + rest) + tail == line + "\n" + (rest + tail);
    StuckLine(line, rest, parse);
    StuckLine(line, rest + tail, parse);
    ScanStep(left, tail, parse, k, Stuck);
  }

  lemma StripCRNoNewline(raw: string)
    requires NoNewline(raw)
    ensures NoNewline(StripCR(raw))
  {
    var r := StripCR(raw);
    assert forall i :: 0 <= i < |r| ==> r[i] == raw[i];
  }

  /** A stuck first line blocks the main loop with the rest unread. */
  lemma StuckLine(line: string, rest: string, parse: string -> Payload)
    requires NoNewline(line)
    requires Classify(StripCR(line), parse) == Stuck
    ensures Shaped(line + "\n" + rest, parse)
    ensures MainScan(line + "\n" + rest, parse) == Scan([], Blocked(rest))
  {
    IndexOfNewlineAfterLine(line, rest);
  }

  /** The inner loop: append `chunk`, then cut and classify every complete line; an unparsable one
      is put back in front of the rest and ends the loop. */
  method DrainLines(buffer: string, chunk: string, ghost tail: string, parse: string -> Payload)
    returns (emitted: seq<ClientEvent>, left: string, finished: bool)
    ensures finished ==> MainScan(buffer + (chunk + tail), parse) == Scan(emitted, Finished)
    ensures !finished ==> Shaped(left, parse)
    ensures !finished ==> MainScan(buffer + (chunk + tail), parse) == Prepend(emitted, MainScan(left + tail, parse))
  {
    emitted := [];
    left := buffer + chunk;
    assert buffer + (chunk + tail) == left + tail;
    var k := IndexOfNewline(left);
    while k != -1
      invariant k == IndexOfNewline(left)
      invariant MainScan(buffer + (chunk + tail), parse) == Prepend(emitted, MainScan(left + tail, parse))
      decreases |left|
    {
      var line := left[..k];
      var rest := left[k + 1..];
      line := StripCR(line);
      var a := Classify(line, parse);
      ScanStep(left, tail, parse, k, a);
      if a == Finish {
        finished := true;
        return;
      }
      if a == Stuck {
        PutBack(left, tail, parse, k);
        left := line + "\n" + rest;
        finished := false;
        return;
      }
      if a.Deliver? {
        PrependTwice(emitted, [Delta(a.content)], MainScan(rest + tail, parse));
        emitted := emitted + [Delta(a.content)];
      }
      left := rest;
      k := IndexOfNewline(left);
    }
    finished := false;
  }

  /** The final flush: every piece of the left-over buffer through the flush filters. */
  method Flush(buffer: string, parse: string -> Payload) returns (emitted: seq<ClientEvent>)
    ensures Trim(buffer) != "" ==> emitted == FlushPieces(SplitBy(buffer, IsNewline), parse)
    ensures Trim(buffer) == "" ==> emitted == []
  {
    emitted := [];
    if Trim(buffer) != "" {
      var pieces := SplitBy(buffer, IsNewline);
      var j := 0;
      while j < |pieces|
        invariant 0 <= j <= |pieces|
        invariant emitted + FlushPieces(pieces[j..], parse) == FlushPieces(pieces, parse)
      {
        assert pieces[j..][1..] == pieces[j + 1..];
        emitted := emitted + FlushLine(pieces[j], parse);
        j := j + 1;
      }
      assert pieces[j..] == [];
    }
  }

  /** The reading loop and what follows it. However the text is cut into chunks, the callbacks are
      those of the whole text. */
  method Consume(chunks: seq<string>, failure: Option<string>, parse: string -> Payload)
    returns (events: seq<ClientEvent>)
    ensures events == StreamEvents(Concat(chunks), failure, parse)
  {
    events := [];
    var buffer := "";
    var i := 0;
    assert chunks[0..] == chunks;
    assert buffer + Concat(chunks[0..]) == Concat(chunks);
    while i < |chunks|
      invariant 0 <= i <= |chunks|
      invariant Shaped(buffer, parse)
      invariant MainScan(Concat(chunks), parse) == Prepend(events, MainScan(buffer + Concat(chunks[i..]), parse))
    {
      ConcatFrom(chunks, i);
      var emitted, finished;
      emitted, buffer, finished := DrainLines(buffer, chunks[i], Concat(chunks[i + 1..]), parse);
      events := events + emitted;
      i := i + 1;
      if finished {
        Finishing(Concat(chunks), events, failure, parse);
        events := events + [Done];
        return;
      }
    }
    assert buffer + Concat(chunks[i..]) == buffer;
    Ending(Concat(chunks), events, buffer, failure, parse);
    if failure.Some? {
      events := events + [Error(failure.value)];
      return;
    }
    var flushed := Flush(buffer, parse);
    events := events + flushed + [Done];
  }

  /** The callbacks once the main loop reached `[DONE]`. */
  lemma Finishing(text: string, events: seq<ClientEvent>, failure: Option<string>, parse: string -> Payload)
    requires MainScan(text, parse) == Scan(events, Finished)
    ensures StreamEvents(text, failure, parse) == events + [Done]
  {
  }

  /** The callbacks once the chunks ran out with `buffer` left. */
  lemma Ending(text: string, events: seq<ClientEvent>, buffer: string, failure: Option<string>, parse: string -> Payload)
    requires Shaped(buffer, parse)
    requires MainScan(text, parse) == Prepend(events, MainScan(buffer, parse))
    ensures failure.Some? ==> StreamEvents(text, failure, parse) == events + [Error(failure.value)]
    ensures failure.None? ==>
              StreamEvents(text, failure, parse) ==
              events + (if Trim(buffer) != "" then FlushPieces(SplitBy(buffer, IsNewline), parse) else []) + [Done]
  {
    EndOfStream(buffer, parse);
    assert MainScan(text, parse).delivered == events;
  }

  /** What the main loop and the flush make of the buffer left when the stream ends. */
  lemma EndOfStream(buffer: string, parse: string -> Payload)
    requires Shaped(buffer, parse)
    ensures MainScan(buffer, parse).delivered == [] && !MainScan(buffer, parse).stop.Finished?
    ensures Trim(buffer) != "" ==> FlushPieces(SplitBy(buffer, IsNewline), parse) == Flushed(MainScan(buffer, parse).stop, parse)
    ensures Trim(buffer) == "" ==> Flushed(MainScan(buffer, parse).stop, parse) == []
  {
    if NoNewline(buffer) {
      EndUnterminated(buffer, parse);
    } else {
      EndStuck(buffer, parse);
    }
  }

  lemma EndUnterminated(buffer: string, parse: string -> Payload)
    requires NoNewline(buffer)
    ensures MainScan(buffer, parse) == Scan([], Drained(buffer))
    ensures SplitBy(buffer, IsNewline) == [buffer]
    ensures Trim(buffer) == "" ==> FlushLine(buffer, parse) == []
  {
    IndexOfNewlineNone(buffer);
    assert NoSep(buffer, IsNewline);
    SplitByNoSep(buffer, IsNewline);
    if Trim(buffer) == "" && buffer != "" {
      BlankFlushLine(buffer, parse);
    }
  }

  lemma EndStuck(buffer: string, parse: string -> Payload)
    requires IndexOfNewline(buffer) >= 0
    requires Classify(StripCR(buffer[..IndexOfNewline(buffer)]), parse) == Stuck
    ensures MainScan(buffer, parse) == Scan([], Blocked(buffer[IndexOfNewline(buffer) + 1..]))
    ensures Trim(buffer) != ""
    ensures FlushPieces(SplitBy(buffer, IsNewline), parse) == FlushPieces(SplitBy(buffer[IndexOfNewline(buffer) + 1..], IsNewline), parse)
  {
    var k := IndexOfNewline(buffer);
    StuckScan(buffer, parse, k);
    IndexOfNewlineSplit(buffer);
    StuckStartsWithData(buffer[..k], parse);
    assert buffer[0] == buffer[..k][0];
    TrimNotBlank(buffer);
    StuckFlushed(buffer[..k], buffer[k + 1..], parse);
  }

  lemma StuckScan(buffer: string, parse: string -> Payload, k: int)
    requires k == IndexOfNewline(buffer) >= 0
    requires Classify(StripCR(buffer[..k]), parse) == Stuck
    ensures MainScan(buffer, parse) == Scan([], Blocked(buffer[k + 1..]))
  {
  }

  lemma StuckStartsWithData(line: string, parse: string -> Payload)
    requires Classify(StripCR(line), parse) == Stuck
    ensures line != [] && line[0] == 'd'
  {
    var m := StripCR(line);
    assert m[0] == 'd';
  }

  /** The flush delivers nothing for a stuck line. */
  lemma StuckFlushed(line: string, rest: string, parse: string -> Payload)
    requires NoNewline(line)
    requires Classify(StripCR(line), parse) == Stuck
    ensures FlushPieces(SplitBy(line + "\n" + rest, IsNewline), parse) == FlushPieces(SplitBy(rest, IsNewline), parse)
  {
    assert NoSep(line, IsNewline);
    SplitByAfterWord(line, '\n', rest, IsNewline);
    var ps := [line] + SplitBy(rest, IsNewline);
    assert ps[1..] == SplitBy(rest, IsNewline);
    assert FlushLine(line, parse) == [];
  }

  /** A blank piece delivers nothing. */
  lemma BlankFlushLine(raw: string, parse: string -> Payload)
    requires Trim(raw) == ""
    ensures FlushLine(raw, parse) == []
  {
    if EndsWith(raw, "\r") {
      TrimSnocWhitespace(StripCR(raw), '\r');
    }
  }

  /** `streamNovelGeneration`: the error paths, then the reading loop. */
  method StreamNovel(resp: ClientResponse, parse: string -> Payload) returns (events: seq<ClientEvent>)
    ensures events == ClientRef(resp, parse)
  {
    match resp {
      case FetchThrew(m) =>
        events := [Error(m)];
      case Got(ok, status, errorBody, body) =>
        if !ok {
          events := [Error(ErrorMessage(status, errorBody))];
          return;
        }
        if body.None? {
          events := [Error("无法获取流式响应")];
          return;
        }
        events := Consume(body.value.chunks, body.value.failure, parse);
    }
  }

  // Properties of the callback protocol.

  predicate AllDeltas(events: seq<ClientEvent>) {
    forall i :: 0 <= i < |events| ==> events[i].Delta?
  }

  lemma {:induction false} MainScanDeltas(text: string, parse: string -> Payload)
    ensures AllDeltas(MainScan(text, parse).delivered)
    decreases |text|
  {
    var k := IndexOfNewline(text);
    if k >= 0 {
      var rest := text[k + 1..];
      MainScanDeltas(rest, parse);
      var tail := MainScan(rest, parse).delivered;
      match Classify(StripCR(text[..k]), parse)
      case Deliver(c) =>
        assert MainScan(text, parse).delivered == [Delta(c)] + tail;
      case _ =>
    }
  }

  lemma {:induction false} FlushPiecesDeltas(pieces: seq<string>, parse: string -> Payload)
    ensures AllDeltas(FlushPieces(pieces, parse))
    decreases |pieces|
  {
    if pieces != [] {
      FlushPiecesDeltas(pieces[1..], parse);
    }
  }

  /** Exactly one of `onDone` and `onError` is called, last, after nothing but `onDelta` calls. */
  lemma EndsOnce(resp: ClientResponse, parse: string -> Payload)
    ensures |ClientRef(resp, parse)| >= 1
    ensures ClientRef(resp, parse)[|ClientRef(resp, parse)| - 1].Done? || ClientRef(resp, parse)[|ClientRef(resp, parse)| - 1].Error?
    ensures AllDeltas(ClientRef(resp, parse)[..|ClientRef(resp, parse)| - 1])
  {
    if resp.Got? && resp.ok && resp.body.Some? {
      var text := Concat(resp.body.value.chunks);
      var sc := MainScan(text, parse);
      MainScanDeltas(text, parse);
      if sc.stop.Blocked? {
        FlushPiecesDeltas(SplitBy(sc.stop.rest, IsNewline), parse);
      }
      var r := ClientRef(resp, parse);
      assert r[..|r| - 1] == sc.delivered + (if sc.stop.Finished? || resp.body.value.failure.Some? then [] else Flushed(sc.stop, parse));
    }
  }

  /** A failed request reports only the error. */
  lemma NotOkReportsError(resp: ClientResponse, parse: string -> Payload)
    requires resp.Got? && !resp.ok
    ensures ClientRef(resp, parse) == [Error(ErrorMessage(resp.status, resp.errorBody))]
  {
  }

  /** `[DONE]` ends the stream: nothing after it is delivered, and a later read error is never seen. */
  lemma DoneEndsStream(line: string, rest: string, failure: Option<string>, parse: string -> Payload)
    requires NoNewline(line)
    requires Classify(StripCR(line), parse) == Finish
    ensures StreamEvents(line + "\n" + rest, failure, parse) == [Done]
  {
    IndexOfNewlineAfterLine(line, rest);
  }

  /** A data line with content is delivered before everything that follows it. */
  lemma DeltaLineDelivers(line: string, rest: string, failure: Option<string>, parse: string -> Payload)
    requires NoNewline(line)
    requires Classify(StripCR(line), parse).Deliver?
    ensures StreamEvents(line + "\n" + rest, failure, parse) ==
            [Delta(Classify(StripCR(line), parse).content)] + StreamEvents(rest, failure, parse)
  {
    IndexOfNewlineAfterLine(line, rest);
  }

  /** Comment lines, blank lines and lines other than `data: ` change nothing. */
  lemma IgnoredLineSkipped(line: string, rest: string, failure: Option<string>, parse: string -> Payload)
    requires NoNewline(line)
    requires StartsWith(StripCR(line), ":") || Trim(StripCR(line)) == "" || !StartsWith(StripCR(line), "data: ")
    ensures StreamEvents(line + "\n" + rest, failure, parse) == StreamEvents(rest, failure, parse)
  {
    IndexOfNewlineAfterLine(line, rest);
  }

  /** A line ending in a carriage return is read as the line without it. */
  lemma CarriageReturnIgnored(line: string, rest: string, failure: Option<string>, parse: string -> Payload)
    requires NoNewline(line) && !EndsWith(line, "\r")
    ensures StreamEvents(line + "\r\n" + rest, failure, parse) == StreamEvents(line + "\n" + rest, failure, parse)
  {
    assert line + "\r\n" + rest == (line + "\r") + "\n" + rest;
    CarriageReturnScan(line, rest, parse);
    SameScanSameEvents((line + "\r") + "\n" + rest, line + "\n" + rest, failure, parse);
  }

  lemma CarriageReturnScan(line: string, rest: string, parse: string -> Payload)
    requires NoNewline(line) && !EndsWith(line, "\r")
    ensures MainScan((line + "\r") + "\n" + rest, parse) == MainScan(line + "\n" + rest, parse)
  {
    var withCR := line + "\r";
    assert NoNewline(withCR);
    assert StripCR(withCR) == line;
    IndexOfNewlineAfterLine(withCR, rest);
    IndexOfNewlineAfterLine(line, rest);
  }

  lemma SameScanSameEvents(a: string, b: string, failure: Option<string>, parse: string -> Payload)
    ensures MainScan(a, parse) == MainScan(b, parse) ==> StreamEvents(a, failure, parse) == StreamEvents(b, failure, parse)
  {
  }

  /** An unparsable data line stops the main loop for good: what follows is delivered only by the
      final flush, which skips `[DONE]`, and a read error instead loses all of it. */
  lemma UnparsableLineDefersRest(line: string, rest: string, parse: string -> Payload)
    requires NoNewline(line)
    requires Classify(StripCR(line), parse) == Stuck
    ensures StreamEvents(line + "\n" + rest, None, parse) == FlushPieces(SplitBy(rest, IsNewline), parse) + [Done]
    ensures forall m :: StreamEvents(line + "\n" + rest, Some(m), parse) == [Error(m)]
  {
    IndexOfNewlineAfterLine(line, rest);
  }

  /** The unterminated last line is delivered by the flush. */
  lemma UnterminatedTailFlushed(tail: string, parse: string -> Payload)
    requires NoNewline(tail)
    ensures StreamEvents(tail, None, parse) == FlushLine(tail, parse) + [Done]
  {
    IndexOfNewlineNone(tail);
  }
}
