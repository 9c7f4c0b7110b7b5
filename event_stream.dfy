/**
 * The line-buffered reader of a streamed chat-completions response, shared in substance
 * by the chat model and the completion model.
 *
 * Received text is cut into `\n`-terminated lines; each line is trimmed, and only a
 * line starting with "data: " counts. Its trimmed payload "[DONE]" ends the stream;
 * any other payload is parsed, and a non-empty `choices[0].delta.content` is emitted.
 * There is no blank-line dispatch of events, and text after the last `\n` is never read.
 */
module EventStream {
  import opened Wrappers
  import opened Js

  /** What a parsed payload yields: the value at `choices[0].delta.content`, if any. */
  datatype Event = Event(deltaContent: Option<string>)

  /** `JSON.parse` with the lookup of the delta; None when either throws. */
  type Parser = string -> Option<Event>

  const DataPrefix: string := "data: "
  const DoneMarker: string := "[DONE]"

  // ---------------------------------------------------------------------------
  // The specification, over the whole text received

  /** `s.indexOf("\n")` when there is one. */
  function NewlineIndex(s: string): (i: nat)
    requires '\n' in s
    ensures i < |s| && s[i] == '\n' && '\n' !in s[..i]
  {
    if s[0] == '\n' then 0
    else
      assert s == [s[0]] + s[1..];
      var j := NewlineIndex(s[1..]);
      assert s[..j + 1] == [s[0]] + s[1..][..j];
      j + 1
  }

  lemma NewlineIndexIsFirst(s: string, j: nat)
    requires j < |s| && s[j] == '\n' && '\n' !in s[..j]
    ensures NewlineIndex(s) == j
  {
  }

  /** The complete lines of `text`, without their `\n`. */
  function Lines(text: string): seq<string>
    decreases |text|
  {
    if '\n' !in text then []
    else
      var i := NewlineIndex(text);
      [text[..i]] + Lines(text[i + 1..])
  }

  /** The text after the last `\n`: what stays in the buffer. */
  function Pending(text: string): (r: string)
    ensures '\n' !in r
    decreases |text|
  {
    if '\n' !in text then text else Pending(text[NewlineIndex(text) + 1..])
  }

  /** Cutting lines does not care where the text was split: the lines of `a + b` are those
      of `a`, then those of the unfinished rest of `a` followed by `b`. */
  lemma {:induction false} LinesAppend(a: string, b: string)
    ensures Lines(a + b) == Lines(a) + Lines(Pending(a) + b)
    ensures Pending(a + b) == Pending(Pending(a) + b)
    decreases |a|
  {
    if '\n' in a {
      var i := NewlineIndex(a);
      assert (a + b)[..i] == a[..i];
      NewlineIndexIsFirst(a + b, i);
      assert (a + b)[i + 1..] == a[i + 1..] + b;
      LinesAppend(a[i + 1..], b);
    } else {
      assert Pending(a) == a;
    }
  }

  /** What one line is, after trimming. */
  datatype LineKind = Ignored | Done | Data(payload: string)

  function Classify(line: string): (r: LineKind)
    ensures r.Ignored? <==> !StartsWith(Trim(line), DataPrefix)
    ensures !r.Ignored? ==> (r.Done? <==> Trim(Trim(line)[|DataPrefix|..]) == DoneMarker)
    ensures r.Data? ==> r.payload == Trim(Trim(line)[|DataPrefix|..])
  {
    var trimmed := Trim(line);
    if !StartsWith(trimmed, DataPrefix) then Ignored
    else
      var payload := Trim(trimmed[|DataPrefix|..]);
      if payload == DoneMarker then Done else Data(payload)
  }

  /** The texts a payload emits: its delta, when it parses and the delta is non-empty. */
  function Emitted(parse: Parser, payload: string): (r: seq<string>)
    ensures r != [] <==>
      parse(payload).Some? && parse(payload).value.deltaContent.Some? && parse(payload).value.deltaContent.value != ""
    ensures r != [] ==> r == [parse(payload).value.deltaContent.value]
    ensures forall t | t in r :: t != ""
  {
    match parse(payload)
    case None => []
    case Some(event) =>
      var content := event.deltaContent.GetOr("");
      if content != "" then [content] else []
  }

  /** The texts emitted so far and whether "[DONE]" was seen. */
  datatype Scan = Scan(texts: seq<string>, done: bool)

  function ScanLines(parse: Parser, lines: seq<string>): Scan
    decreases |lines|
  {
    if lines == [] then Scan([], false)
    else
      match Classify(lines[0])
      case Done => Scan([], true)
      case Ignored => ScanLines(parse, lines[1..])
      case Data(payload) =>
        var rest := ScanLines(parse, lines[1..]);
        Scan(Emitted(parse, payload) + rest.texts, rest.done)
  }

  /** Scanning is left to right, and nothing after "[DONE]" is looked at. */
  lemma {:induction false} ScanLinesAppend(parse: Parser, a: seq<string>, b: seq<string>)
    ensures ScanLines(parse, a + b) ==
      if ScanLines(parse, a).done then ScanLines(parse, a)
      else Scan(ScanLines(parse, a).texts + ScanLines(parse, b).texts, ScanLines(parse, b).done)
    decreases |a|
  {
    if a != [] {
      assert (a + b)[0] == a[0];
      assert (a + b)[1..] == a[1..] + b;
      ScanLinesAppend(parse, a[1..], b);
    } else {
      assert a + b == b;
    }
  }

  /** Scanning one more line, before "[DONE]" was seen. */
  lemma ScanLinesSnoc(parse: Parser, seen: seq<string>, raw: string)
    requires !ScanLines(parse, seen).done
    ensures ScanLines(parse, seen + [raw]) ==
      match Classify(raw)
      case Ignored => ScanLines(parse, seen)
      case Done => Scan(ScanLines(parse, seen).texts, true)
      case Data(payload) => Scan(ScanLines(parse, seen).texts + Emitted(parse, payload), false)
  {
    ScanLinesAppend(parse, seen, [raw]);
    assert [raw][0] == raw && [raw][1..] == [];
    assert ScanLines(parse, seen).texts + [] == ScanLines(parse, seen).texts;
  }

  /** What the parser emits for the whole text received, and whether it stopped. */
  function StreamScan(parse: Parser, text: string): Scan {
    ScanLines(parse, Lines(text))
  }

  lemma StreamScanAppend(parse: Parser, a: string, b: string)
    ensures StreamScan(parse, a + b) ==
      if StreamScan(parse, a).done then StreamScan(parse, a)
      else
        var rest := StreamScan(parse, Pending(a) + b);
        Scan(StreamScan(parse, a).texts + rest.texts, rest.done)
  {
    LinesAppend(a, b);
    ScanLinesAppend(parse, Lines(a), Lines(Pending(a) + b));
  }

  // ---------------------------------------------------------------------------
  // Properties of the specification

  /** Once "[DONE]" has been read, nothing that arrives later is emitted. */
  lemma DoneIsFinal(parse: Parser, a: string, b: string)
    requires StreamScan(parse, a).done
    ensures StreamScan(parse, a + b) == StreamScan(parse, a)
  {
    StreamScanAppend(parse, a, b);
  }

  /** Text after the last newline is never processed. */
  lemma UnterminatedTailIgnored(parse: Parser, text: string, tail: string)
    requires '\n' !in tail
    ensures StreamScan(parse, text + tail) == StreamScan(parse, text)
  {
    LinesAppend(text, tail);
    var rest := Pending(text) + tail;
    assert '\n' !in rest by {
      forall k | 0 <= k < |rest| ensures rest[k] != '\n' {
        if k < |Pending(text)| { assert rest[k] == Pending(text)[k]; } else { assert rest[k] == tail[k - |Pending(text)|]; }
      }
    }
    assert Lines(text) + [] == Lines(text);
  }

  /** Every text the parser yields is non-empty. */
  lemma {:induction false} ScanTextsNonEmpty(parse: Parser, lines: seq<string>)
    ensures forall t | t in ScanLines(parse, lines).texts :: t != ""
    decreases |lines|
  {
    if lines != [] {
      ScanTextsNonEmpty(parse, lines[1..]);
    }
  }

  /** The text read so far ends on a line boundary. */
  predicate AtLineBoundary(text: string) {
    text == [] || text[|text| - 1] == '\n'
  }

  lemma {:induction false} PendingAtBoundary(text: string)
    requires AtLineBoundary(text)
    ensures Pending(text) == []
  {
    if text != [] {
      var front := text[..|text| - 1];
      assert text == front + "\n";
      LinesAppend(front, "\n");
      var last := Pending(front) + "\n";
      NewlineIndexIsFirst(last, |last| - 1);
      assert last[|last| - 1 + 1..] == [];
    }
  }

  /** A line followed by its newline is the first line of what it starts. */
  lemma LinesAfterLine(line: string, after: string)
    requires '\n' !in line
    ensures Lines(line + "\n" + after) == [line] + Lines(after)
  {
    var text := line + "\n" + after;
    NewlineIndexIsFirst(text, |line|);
    assert text[..|line|] == line;
    assert text[|line| + 1..] == after;
  }

  /** Text read up to a line boundary is scanned on its own, and what follows is scanned
      from scratch. */
  lemma ScanAfterBoundary(parse: Parser, before: string, rest: string)
    requires AtLineBoundary(before)
    ensures StreamScan(parse, before + rest) ==
      if StreamScan(parse, before).done then StreamScan(parse, before)
      else Scan(StreamScan(parse, before).texts + StreamScan(parse, rest).texts, StreamScan(parse, rest).done)
  {
    PendingAtBoundary(before);
    StreamScanAppend(parse, before, rest);
    assert Pending(before) + rest == rest;
  }

  /** The scan of a text that starts with a complete line. */
  lemma ScanOfLine(parse: Parser, line: string, after: string)
    requires '\n' !in line
    ensures StreamScan(parse, line + "\n" + after) ==
      match Classify(line)
      case Ignored => StreamScan(parse, after)
      case Done => Scan([], true)
      case Data(payload) =>
        Scan(Emitted(parse, payload) + StreamScan(parse, after).texts, StreamScan(parse, after).done)
  {
    LinesAfterLine(line, after);
    var lines := [line] + Lines(after);
    assert lines[0] == line && lines[1..] == Lines(after);
  }

  /** A complete line that is not a `data: ` line, placed after `before` and before
      `after`, is as good as absent. */
  lemma IgnoredLineEffect(parse: Parser, before: string, line: string, after: string)
    requires AtLineBoundary(before) && '\n' !in line && Classify(line) == Ignored
    ensures StreamScan(parse, before + (line + "\n" + after)) == StreamScan(parse, before + after)
  {
    ScanAfterBoundary(parse, before, line + "\n" + after);
    ScanAfterBoundary(parse, before, after);
    ScanOfLine(parse, line, after);
  }

  /** A "[DONE]" line ends the stream: what was emitted before it is all there is. */
  lemma DoneLineEffect(parse: Parser, before: string, line: string, after: string)
    requires AtLineBoundary(before) && '\n' !in line && Classify(line) == Done
    ensures StreamScan(parse, before + (line + "\n" + after)) == Scan(StreamScan(parse, before).texts, true)
  {
    ScanAfterBoundary(parse, before, line + "\n" + after);
    ScanOfLine(parse, line, after);
  }

  lemma ScanOfDataLine(parse: Parser, line: string, payload: string, after: string)
    requires '\n' !in line && Classify(line) == Data(payload)
    ensures StreamScan(parse, line + "\n" + after) ==
      Scan(Emitted(parse, payload) + StreamScan(parse, after).texts, StreamScan(parse, after).done)
  {
    ScanOfLine(parse, line, after);
  }

  /** A data line read before "[DONE]" emits its delta, if any, in place. */
  lemma DataLineEffect(parse: Parser, before: string, line: string, payload: string, after: string)
    requires AtLineBoundary(before) && '\n' !in line && Classify(line) == Data(payload)
    requires !StreamScan(parse, before).done
    ensures StreamScan(parse, before + (line + "\n" + after)) ==
      Scan(StreamScan(parse, before).texts + Emitted(parse, payload) + StreamScan(parse, after).texts,
           StreamScan(parse, after).done)
  {
    ScanOfDataLine(parse, line, payload, after);
    ScanAfterBoundary(parse, before, line + "\n" + after);
    Associate(StreamScan(parse, before).texts, Emitted(parse, payload), StreamScan(parse, after).texts);
  }

  // ---------------------------------------------------------------------------
  // The parser state the source keeps while a response streams in

  /** The first line of a text that has one, and what follows it. */
  lemma LinesUnfold(s: string)
    requires '\n' in s
    ensures Lines(s) == [s[..NewlineIndex(s)]] + Lines(s[NewlineIndex(s) + 1..])
    ensures Pending(s) == Pending(s[NewlineIndex(s) + 1..])
  {
  }

  /** Cutting the first line off the unread text keeps the lines and the rest of `text`. */
  lemma CutLine(text: string, seen: seq<string>, rest: string)
    requires '\n' in rest
    requires Lines(text) == seen + Lines(rest) && Pending(text) == Pending(rest)
    ensures var i := NewlineIndex(rest);
      Lines(text) == (seen + [rest[..i]]) + Lines(rest[i + 1..]) && Pending(text) == Pending(rest[i + 1..])
  {
    var i := NewlineIndex(rest);
    LinesUnfold(rest);
    Associate(seen, [rest[..i]], Lines(rest[i + 1..]));
  }

  /** The `while (buffer.includes("\n"))` loop: handle every complete
      line of `text` in order, stopping at "[DONE]"; `rest` is what stays in the buffer. */
  method DrainLines(parse: Parser, text: string) returns (texts: seq<string>, rest: string, done: bool)
    ensures ScanLines(parse, Lines(text)) == Scan(texts, done)
    ensures !done ==> rest == Pending(text)
  {
    texts, rest, done := [], text, false;
    ghost var seen: seq<string> := [];
    while '\n' in rest
      invariant Lines(text) == seen + Lines(rest)
      invariant Pending(text) == Pending(rest)
      invariant ScanLines(parse, seen) == Scan(texts, false)
      decreases |rest|
    {
      var newlineIndex := NewlineIndex(rest);
      CutLine(text, seen, rest);
      ghost var raw := rest[..newlineIndex];
      ScanLinesSnoc(parse, seen, raw);
      seen := seen + [raw];
      var line := Trim(rest[..newlineIndex]);
      rest := rest[newlineIndex + 1..];
      if StartsWith(line, DataPrefix) {
        var data := Trim(line[|DataPrefix|..]);
        if data == DoneMarker {
          assert Classify(raw) == Done;
          ScanLinesAppend(parse, seen, Lines(rest));
          done := true;
          return;
        }
        assert Classify(raw) == Data(data);
        match parse(data) {
          case None =>
          case Some(event) =>
            var content := event.deltaContent.GetOr("");
            if content != "" {
              texts := texts + [content];
            }
        }
      } else {
        assert Classify(raw) == Ignored;
      }
    }
    assert seen + Lines(rest) == seen;
  }

  class LineParser {
    const parse: Parser
    /** Received text not yet cut into lines. */
    var buffer: string
    /** "[DONE]" was read: the generator has returned. */
    var done: bool
    /** All text fed so far, and all texts emitted so far. */
    ghost var received: string
    ghost var emitted: seq<string>

    ghost predicate Valid()
      reads this
    {
      && StreamScan(parse, received) == Scan(emitted, done)
      && (!done ==> buffer == Pending(received))
    }

    constructor (parse: Parser)
      ensures Valid() && this.parse == parse
      ensures received == [] && emitted == [] && !done && buffer == []
    {
      this.parse := parse;
      buffer := [];
      done := false;
      received := [];
      emitted := [];
    }

    /** One chunk of the response: append it to the buffer and handle every complete line. */
    method Feed(chunk: string) returns (texts: seq<string>)
      requires Valid()
      modifies this
      ensures Valid()
      ensures received == old(received) + chunk
      ensures emitted == old(emitted) + texts
      ensures old(done) ==> done && texts == []
      ensures !done ==> '\n' !in buffer
    {
      if done {
        DoneIsFinal(parse, received, chunk);
        received := received + chunk;
        texts := [];
        return;
      }
      StreamScanAppend(parse, received, chunk);
      LinesAppend(received, chunk);
      var rest, stop;
      texts, rest, stop := DrainLines(parse, buffer + chunk);
      buffer, done := rest, stop;
      received := received + chunk;
      emitted := emitted + texts;
    }
  }

  /** The generator: feed each chunk of the response in turn until "[DONE]" is read. What it
      yields, and whether it stopped at "[DONE]", depend only on the concatenated text,
      however that text is split into chunks. */
  method StreamResponseChunks(parse: Parser, chunks: seq<string>) returns (texts: seq<string>, done: bool)
    ensures StreamScan(parse, Join(chunks)) == Scan(texts, done)
  {
    var parser := new LineParser(parse);
    texts := [];
    var k := 0;
    while k < |chunks| && !parser.done
      invariant 0 <= k <= |chunks|
      invariant parser.Valid() && parser.parse == parse
      invariant parser.received == Join(chunks[..k])
      invariant parser.emitted == texts
    {
      JoinAppend(chunks[..k], [chunks[k]]);
      assert chunks[..k + 1] == chunks[..k] + [chunks[k]];
      var out := parser.Feed(chunks[k]);
      texts := texts + out;
      k := k + 1;
    }
    done := parser.done;
    JoinAppend(chunks[..k], chunks[k..]);
    assert chunks[..k] + chunks[k..] == chunks;
    if k < |chunks| {
      DoneIsFinal(parse, Join(chunks[..k]), Join(chunks[k..]));
    } else {
      assert chunks[..k] == chunks;
    }
  }

  // ---------------------------------------------------------------------------
  // A streamed reply as the adapters see it

  /** The prefix of the error a failed stream is rethrown with. */
  const StreamErrorPrefix: string := "Error al procesar el stream de NVIDIA Llama4: "

  /** The chunks the server delivered, and the transport error that ended the stream
      instead of its normal end, if any (a request that fails outright delivers none). */
  datatype StreamReply = StreamReply(chunks: seq<string>, failure: Option<string>)

  /** What consuming the generator to its end gives: the yielded texts, or the wrapped
      error. An error after "[DONE]" is never seen, because the generator has returned. */
  function StreamOutcome(parse: Parser, reply: StreamReply): Result<seq<string>, string> {
    var scan := StreamScan(parse, Join(reply.chunks));
    if scan.done || reply.failure.None? then Success(scan.texts)
    else Failure(StreamErrorPrefix + reply.failure.value)
  }

  /** Run the generator over a reply and collect what it yields. */
  method ReadStream(parse: Parser, reply: StreamReply) returns (r: Result<seq<string>, string>)
    ensures r.Success? ==> r.value == StreamScan(parse, Join(reply.chunks)).texts
    ensures r.Failure? <==> !StreamScan(parse, Join(reply.chunks)).done && reply.failure.Some?
    ensures r.Failure? ==> r.error == StreamErrorPrefix + reply.failure.value
  {
    var texts, done := StreamResponseChunks(parse, reply.chunks);
    if !done && reply.failure.Some? {
      return Failure(StreamErrorPrefix + reply.failure.value);
    }
    return Success(texts);
  }

  /** The `for await` loop of `_call`: every streamed text appended in order. Empty texts
      are skipped, which leaves the result unchanged. */
  method ConcatStreamed(texts: seq<string>) returns (responseText: string)
    ensures responseText == Join(texts)
  {
    responseText := "";
    for i := 0 to |texts|
      invariant responseText == Join(texts[..i])
    {
      JoinAppend(texts[..i], [texts[i]]);
      assert texts[..i + 1] == texts[..i] + [texts[i]];
      if texts[i] != "" {
        responseText := responseText + texts[i];
      }
    }
    assert texts[..|texts|] == texts;
  }
}
