/** JSON values as the stream's reader looks into them; the parser of their text is a parameter. */
module Json {
  import opened Wrappers

  datatype Value =
    | Null
    | Bool(b: bool)
    | Number(n: real)
    | Str(s: string)
    | Arr(items: seq<Value>)
    | Obj(fields: map<string, Value>)

  type Reader = string -> Option<Value>

  function Get(v: Value, key: string): Option<Value> {
    if v.Obj? && key in v.fields then Some(v.fields[key]) else None
  }

  /** Indexing: a missing field, or a field of something that is no object, reads as null. */
  function Field(v: Value, key: string): Value {
    var found := Get(v, key);
    if found.Some? then found.value else Null
  }

  function AsStr(v: Value): Option<string> {
    if v.Str? then Some(v.s) else None
  }
}

/** What a stream's body means, said of the whole body at once. */
module StreamMeaning {
  import opened Wrappers
  import opened Json

  datatype Streamed = Event(session: string, event: Value) | Done(reply: Value) | Failed(message: string)

  // ------------------------------------------------------------------ lines

  function FirstBreak(s: string): nat {
    if s == [] || s[0] == '\n' then 0 else 1 + FirstBreak(s[1..])
  }

  lemma {:induction false} FirstBreakIs(s: string)
    ensures FirstBreak(s) <= |s| && '\n' !in s[..FirstBreak(s)]
    ensures FirstBreak(s) < |s| ==> s[FirstBreak(s)] == '\n'
    ensures FirstBreak(s) < |s| <==> '\n' in s
  {
    if s != [] && s[0] != '\n' {
      FirstBreakIs(s[1..]);
      var i := FirstBreak(s[1..]);
      assert s[..1 + i] == [s[0]] + s[1..][..i];
      assert s == [s[0]] + s[1..];
    }
  }

  /** The lines a body completes. */
  function Lines(s: string): seq<string>
    decreases |s|
  {
    var i := FirstBreak(s);
    if i < |s| then [s[..i]] + Lines(s[i + 1..]) else []
  }

  /** The line it leaves unfinished. */
  function Rest(s: string): string
    decreases |s|
  {
    var i := FirstBreak(s);
    if i < |s| then Rest(s[i + 1..]) else s
  }

  lemma LinesUnfold(first: string, rest: string)
    requires '\n' !in first
    ensures Lines(first + "\n" + rest) == [first] + Lines(rest) && Rest(first + "\n" + rest) == Rest(rest)
  {
    hide FirstBreak;
    var s := first + "\n" + rest;
    FirstBreakOf(first, rest);
    assert s[..|first|] == first && s[|first| + 1..] == rest;
  }

  lemma {:induction false} FirstBreakOf(first: string, rest: string)
    requires '\n' !in first
    ensures FirstBreak(first + "\n" + rest) == |first|
  {
    if first != "" {
      assert (first + "\n" + rest)[1..] == first[1..] + "\n" + rest;
      FirstBreakOf(first[1..], rest);
    }
  }

  lemma NoBreakNoLine(s: string)
    requires FirstBreak(s) >= |s|
    ensures Lines(s) == [] && Rest(s) == s
  {
  }

  /** Lines do not care where the body was cut. */
  lemma {:induction false} LinesOfConcat(a: string, b: string)
    ensures Lines(a + b) == Lines(a) + Lines(Rest(a) + b)
    ensures Rest(a + b) == Rest(Rest(a) + b)
    decreases |a|
  {
    hide FirstBreak, Lines, Rest;
    FirstBreakIs(a);
    var i := FirstBreak(a);
    if i < |a| {
      var first, rest := a[..i], a[i + 1..];
      assert a == first + "\n" + rest;
      assert a + b == first + "\n" + (rest + b);
      LinesUnfold(first, rest);
      LinesUnfold(first, rest + b);
      LinesOfConcat(rest, b);
      assert [first] + (Lines(rest) + Lines(Rest(rest) + b)) == [first] + Lines(rest) + Lines(Rest(rest) + b);
    } else {
      NoBreakNoLine(a);
      assert [] + Lines(a + b) == Lines(a + b);
    }
  }

  // ------------------------------------------------------------------ blocks

  function StripCr(line: string): string {
    if line != [] && line[|line| - 1] == '\r' then line[..|line| - 1] else line
  }

  function FirstColon(s: string): (i: nat)
    ensures i <= |s|
  {
    if s == [] || s[0] == ':' then 0 else 1 + FirstColon(s[1..])
  }

  /** A line's field name and value; one leading space of the value is dropped. A comment's field has no name. */
  function FieldOf(line: string): (string, string) {
    var i := FirstColon(line);
    if i == |line| then (line, "")
    else
      var value := line[i + 1..];
      (line[..i], if value != [] && value[0] == ' ' then value[1..] else value)
  }

  /** Blocks of lines, each ended by a blank one; `open` is the block begun so far. An unended block is no block. */
  function Blocks(lines: seq<string>, open: seq<string>): seq<seq<string>> {
    if lines == [] then []
    else if StripCr(lines[0]) == "" then [open] + Blocks(lines[1..], [])
    else Blocks(lines[1..], open + [StripCr(lines[0])])
  }

  /** All the values a block gives a field, in order. */
  function Values(block: seq<string>, field: string): seq<string> {
    if block == [] then []
    else
      var (name, value) := FieldOf(block[|block| - 1]);
      Values(block[..|block| - 1], field) + if name == field then [value] else []
  }

  function JoinLines(parts: seq<string>): string {
    if parts == [] then ""
    else if |parts| == 1 then parts[0]
    else parts[0] + "\n" + JoinLines(parts[1..])
  }

  /** The last name given, if any. */
  function NameOf(block: seq<string>): Option<string> {
    var names := Values(block, "event");
    if names == [] then None else Some(names[|names| - 1])
  }

  function FrameOf(parse: Reader, name: Option<string>, data: seq<string>): Option<Streamed> {
    if data == [] then None
    else
      var payload := JoinLines(data);
      var value := parse(payload);
      match name
      case None =>
        if value.None? then None
        else
          var session := AsStr(Field(value.value, "session"));
          Some(Event(if session.Some? then session.value else "?", Field(value.value, "event")))
      case Some("done") => Some(Done(if value.Some? then value.value else Null))
      case Some("error") =>
        var message := if value.Some? then AsStr(Field(value.value, "error")) else None;
        Some(Failed(if message.Some? then message.value else payload))
      case Some(_) => None
  }

  function FramesOf(parse: Reader, blocks: seq<seq<string>>): seq<Streamed> {
    if blocks == [] then []
    else
      var frame := FrameOf(parse, NameOf(blocks[0]), Values(blocks[0], "data"));
      (if frame.Some? then [frame.value] else []) + FramesOf(parse, blocks[1..])
  }

  /** Everything a body says. */
  function Frames(parse: Reader, body: string): seq<Streamed> {
    FramesOf(parse, Blocks(Lines(body), []))
  }

  // ------------------------------------------------------------------ how a run ends

  datatype End = Reply(value: Value) | RunFailed(message: string) | ReadError(error: string) | NoReply

  /** The reply inside its wrapper, where there is one. */
  function Unwrap(payload: Value): Value {
    var inner := Get(payload, "reply");
    if inner.Some? then inner.value else payload
  }

  function FirstFailure(frames: seq<Streamed>): (i: nat)
    ensures i <= |frames|
    ensures forall j :: 0 <= j < i ==> !frames[j].Failed?
    ensures i < |frames| ==> frames[i].Failed?
  {
    if frames == [] || frames[0].Failed? then 0 else 1 + FirstFailure(frames[1..])
  }

  function LastReply(frames: seq<Streamed>): Option<Value> {
    if frames == [] then None
    else if frames[|frames| - 1].Done? then Some(Unwrap(frames[|frames| - 1].reply))
    else LastReply(frames[..|frames| - 1])
  }

  /** The frames the caller is shown, and how the run is reported: first failure, else read error, else last reply. */
  function Outcome(frames: seq<Streamed>, error: Option<string>): (seq<Streamed>, End) {
    var i := FirstFailure(frames);
    if i < |frames| then (frames[..i], RunFailed(frames[i].message))
    else if error.Some? then (frames, ReadError(error.value))
    else (frames, match LastReply(frames) { case Some(value) => Reply(value) case None => NoReply })
  }

  /** What arrived before the connection failed, and how it failed. */
  function Body(chunks: seq<Result<string, string>>): string {
    if chunks == [] || chunks[0].Failure? then "" else chunks[0].value + Body(chunks[1..])
  }

  function Broken(chunks: seq<Result<string, string>>): Option<string> {
    if chunks == [] then None
    else if chunks[0].Failure? then Some(chunks[0].error)
    else Broken(chunks[1..])
  }
}

/** The reader as it runs: line by line, chunk by chunk. */
module EventStream {
  import opened Wrappers
  import opened Json
  import opened StreamMeaning

  datatype Gathered = Gathered(event: Option<string>, data: seq<string>)

  /** What a block begun so far amounts to. */
  function Gather(block: seq<string>): Gathered {
    Gathered(NameOf(block), Values(block, "data"))
  }

  function Feed(g: Gathered, line: string): Gathered {
    var (name, value) := FieldOf(line);
    if name == "event" then g.(event := Some(value))
    else if name == "data" then g.(data := g.data + [value])
    else g
  }

  lemma FeedingGathers(block: seq<string>, line: string)
    ensures Feed(Gather(block), line) == Gather(block + [line])
  {
    assert (block + [line])[..|block|] == block;
  }

  class SseParser {
    var event: Option<string>
    var data: seq<string>
    const parse: Reader

    constructor (parse: Reader)
      ensures this.parse == parse && State() == Gather([])
    {
      this.parse := parse;
      event := None;
      data := [];
    }

    function State(): Gathered
      reads this
    {
      Gathered(event, data)
    }

    /** One line: a blank one completes the block, a comment is skipped, anything else is a field. */
    method ApplyLine(raw: string) returns (frame: Option<Streamed>)
      modifies this
      ensures StripCr(raw) == "" ==> State() == Gather([]) && frame == FrameOf(parse, old(event), old(data))
      ensures StripCr(raw) != "" ==> State() == Feed(old(State()), StripCr(raw)) && frame == None
    {
      var line := StripCr(raw);
      if line == "" {
        frame := FrameOf(parse, event, data);
        event := None;
        data := [];
        return;
      }
      frame := None;
      if line[0] == ':' {
        return;
      }
      var (name, value) := FieldOf(line);
      if name == "event" {
        event := Some(value);
      } else if name == "data" {
        data := data + [value];
      }
    }
  }

  /** The blocks closed by `lines`, and the one they leave open. */
  function OpenBlock(lines: seq<string>, open: seq<string>): seq<string> {
    if lines == [] then open
    else OpenBlock(lines[1..], if StripCr(lines[0]) == "" then [] else open + [StripCr(lines[0])])
  }

  lemma {:induction false} BlocksOfConcat(a: seq<string>, b: seq<string>, open: seq<string>)
    ensures Blocks(a + b, open) == Blocks(a, open) + Blocks(b, OpenBlock(a, open))
    ensures OpenBlock(a + b, open) == OpenBlock(b, OpenBlock(a, open))
  {
    if a == [] {
      assert a + b == b;
    } else {
      assert (a + b)[0] == a[0] && (a + b)[1..] == a[1..] + b;
      BlocksOfConcat(a[1..], b, if StripCr(a[0]) == "" then [] else open + [StripCr(a[0])]);
    }
  }

  lemma {:induction false} FramesOfConcat(parse: Reader, a: seq<seq<string>>, b: seq<seq<string>>)
    ensures FramesOf(parse, a + b) == FramesOf(parse, a) + FramesOf(parse, b)
  {
    hide FrameOf, NameOf, Values;
    if a == [] {
      assert a + b == b;
    } else {
      assert (a + b)[0] == a[0] && (a + b)[1..] == a[1..] + b;
      FramesOfConcat(parse, a[1..], b);
      var frame := FrameOf(parse, NameOf(a[0]), Values(a[0], "data"));
      var head := if frame.Some? then [frame.value] else [];
      assert head + (FramesOf(parse, a[1..]) + FramesOf(parse, b))
          == head + FramesOf(parse, a[1..]) + FramesOf(parse, b);
    }
  }

  function LineFrames(parse: Reader, lines: seq<string>): seq<Streamed> {
    FramesOf(parse, Blocks(lines, []))
  }

  /** One more line adds at most the frame of the block it closes. */
  lemma OneMoreLine(parse: Reader, lines: seq<string>, line: string)
    ensures var open := OpenBlock(lines, []); var frame := FrameOf(parse, NameOf(open), Values(open, "data"));
      && LineFrames(parse, lines + [line]) == LineFrames(parse, lines)
           + (if StripCr(line) == "" && frame.Some? then [frame.value] else [])
      && OpenBlock(lines + [line], []) == if StripCr(line) == "" then [] else open + [StripCr(line)]
  {
    hide FrameOf, NameOf, Values, FramesOf, Blocks, OpenBlock, StripCr;
    var open := OpenBlock(lines, []);
    BlocksOfConcat(lines, [line], []);
    FramesOfConcat(parse, Blocks(lines, []), Blocks([line], open));
    OneLine(line, open);
    OneBlock(parse, open);
  }

  lemma OneLine(line: string, open: seq<string>)
    ensures Blocks([line], open) == if StripCr(line) == "" then [open] else []
    ensures OpenBlock([line], open) == if StripCr(line) == "" then [] else open + [StripCr(line)]
  {
    assert [line][1..] == [];
  }

  lemma OneBlock(parse: Reader, block: seq<string>)
    ensures var frame := FrameOf(parse, NameOf(block), Values(block, "data"));
      FramesOf(parse, [block]) == if frame.Some? then [frame.value] else []
    ensures FramesOf(parse, []) == []
  {
    hide FrameOf, NameOf, Values;
    assert [block][1..] == [];
  }

  lemma MoreLinesMoreFrames(parse: Reader, a: seq<string>, b: seq<string>)
    ensures LineFrames(parse, a) <= LineFrames(parse, a + b)
  {
    BlocksOfConcat(a, b, []);
    FramesOfConcat(parse, Blocks(a, []), Blocks(b, OpenBlock(a, [])));
  }

  lemma {:induction false} BodyOfConcat(a: seq<Result<string, string>>, b: seq<Result<string, string>>)
    requires forall chunk :: chunk in a ==> chunk.Success?
    ensures Body(a + b) == Body(a) + Body(b) && Broken(a + b) == Broken(b)
  {
    if a == [] {
      assert a + b == b;
    } else {
      var rest := a[1..];
      assert (a + b)[0] == a[0] && (a + b)[1..] == rest + b;
      BodyOfConcat(rest, b);
      Regrouped(a[0].value, Body(rest), Body(b));
    }
  }

  lemma Regrouped(a: string, b: string, c: string)
    ensures a + (b + c) == a + b + c
  {
  }

  lemma BodyOneMore(chunks: seq<Result<string, string>>, i: nat)
    requires i <= |chunks| && forall j :: 0 <= j < i ==> chunks[j].Success?
    ensures Body(chunks) == Body(chunks[..i]) + Body(chunks[i..]) && Broken(chunks) == Broken(chunks[i..])
  {
    hide Body, Broken;
    assert chunks == chunks[..i] + chunks[i..];
    BodyOfConcat(chunks[..i], chunks[i..]);
  }

  lemma NoFailureYet(frames: seq<Streamed>, frame: Streamed)
    requires FirstFailure(frames) == |frames|
    ensures FirstFailure(frames + [frame]) == |frames| + if frame.Failed? then 0 else 1
    ensures LastReply(frames + [frame]) == if frame.Done? then Some(Unwrap(frame.reply)) else LastReply(frames)
  {
    var more := frames + [frame];
    assert more[..|frames|] == frames;
    assert forall j :: 0 <= j < |frames| ==> more[j] == frames[j];
    assert more[|frames|] == frame;
  }

  lemma FailureStays(frames: seq<Streamed>, more: seq<Streamed>)
    requires frames <= more && FirstFailure(frames) < |frames|
    ensures FirstFailure(more) == FirstFailure(frames)
    ensures more[..FirstFailure(frames)] == frames[..FirstFailure(frames)]
  {
    assert forall j :: 0 <= j < |frames| ==> more[j] == frames[j];
  }

  /** The reader has read exactly these lines and met no failure. */
  ghost predicate Read(parse: Reader, g: Gathered, handed: seq<Streamed>, outcome: Option<Value>, lines: seq<string>) {
    && g == Gather(OpenBlock(lines, [])) && handed == LineFrames(parse, lines)
    && FirstFailure(handed) == |handed| && outcome == LastReply(handed)
  }

  /** These lines hold a failure, the first after the frames handed on. */
  ghost predicate Failing(parse: Reader, handed: seq<Streamed>, message: string, lines: seq<string>) {
    var frames := LineFrames(parse, lines);
    && |handed| < |frames| && FirstFailure(frames) == |handed|
    && handed == frames[..|handed|] && frames[|handed|] == Failed(message)
  }

  lemma LineIsRead(parse: Reader, g: Gathered, handed: seq<Streamed>, outcome: Option<Value>, lines: seq<string>,
                   line: string, frame: Option<Streamed>, after: Gathered)
    requires Read(parse, g, handed, outcome, lines)
    requires StripCr(line) == "" ==> after == Gather([]) && frame == FrameOf(parse, g.event, g.data)
    requires StripCr(line) != "" ==> after == Feed(g, StripCr(line)) && frame == None
    ensures match frame
      case None => Read(parse, after, handed, outcome, lines + [line])
      case Some(Failed(message)) => Failing(parse, handed, message, lines + [line])
      case Some(Done(reply)) => Read(parse, after, handed + [Done(reply)], Some(Unwrap(reply)), lines + [line])
      case Some(f) => Read(parse, after, handed + [f], outcome, lines + [line])
  {
    OneMoreLine(parse, lines, line);
    FeedingGathers(OpenBlock(lines, []), StripCr(line));
    if frame.Some? {
      NoFailureYet(handed, frame.value);
      assert (handed + [frame.value])[..|handed|] == handed;
    }
  }

  lemma FailingStays(parse: Reader, handed: seq<Streamed>, message: string, lines: seq<string>, more: seq<string>)
    requires Failing(parse, handed, message, lines)
    ensures Failing(parse, handed, message, lines + more)
  {
    MoreLinesMoreFrames(parse, lines, more);
    FailureStays(LineFrames(parse, lines), LineFrames(parse, lines + more));
  }

  /** Take every whole line out of the buffer. */
  method DrainLines(parser: SseParser, buffer: string, before: seq<Streamed>, reply: Option<Value>,
                    ghost lines: seq<string>)
    returns (pending: string, handed: seq<Streamed>, outcome: Option<Value>, failure: Option<string>)
    requires Read(parser.parse, parser.State(), before, reply, lines)
    modifies parser
    ensures failure.None? ==>
      pending == Rest(buffer) && Read(parser.parse, parser.State(), handed, outcome, lines + Lines(buffer))
    ensures failure.Some? ==> Failing(parser.parse, handed, failure.value, lines + Lines(buffer))
  {
    hide Read, Failing;
    pending, handed, outcome, failure := buffer, before, reply, None;
    ghost var done := lines;
    while '\n' in pending
      invariant done + Lines(pending) == lines + Lines(buffer) && Rest(pending) == Rest(buffer)
      invariant Read(parser.parse, parser.State(), handed, outcome, done)
      decreases |pending|
    {
      var newline := FirstBreak(pending);
      FirstBreakIs(pending);
      var line := pending[..newline];
      assert done + Lines(pending) == done + [line] + Lines(pending[newline + 1..]);
      pending := pending[newline + 1..];
      ghost var g := parser.State();
      var frame := parser.ApplyLine(line);
      LineIsRead(parser.parse, g, handed, outcome, done, line, frame, parser.State());
      done := done + [line];
      match frame {
        case None =>
        case Some(Failed(message)) =>
          FailingStays(parser.parse, handed, message, done, Lines(pending));
          failure := Some(message);
          return;
        case Some(Done(payload)) =>
          outcome := Some(Unwrap(payload));
          handed := handed + [Done(payload)];
        case Some(event) =>
          handed := handed + [event];
      }
    }
    FirstBreakIs(pending);
    assert Lines(pending) == [];
    assert done + [] == done;
  }

  /** Read the stream, handing each frame on as it arrives. */
  method ChatStream(parse: Reader, chunks: seq<Result<string, string>>) returns (handed: seq<Streamed>, end: End)
    ensures (handed, end) == Outcome(Frames(parse, Body(chunks)), Broken(chunks))
  {
    hide Lines, Rest, OpenBlock, Blocks, FramesOf, Values, NameOf, FrameOf, FirstFailure;
    var parser := new SseParser(parse);
    var pending := "";
    var outcome: Option<Value> := None;
    handed := [];
    NothingRead(parse);
    for i := 0 to |chunks|
      invariant forall j :: 0 <= j < i ==> chunks[j].Success?
      invariant parser.parse == parse && fresh(parser)
      invariant pending == Rest(Body(chunks[..i]))
      invariant Read(parse, parser.State(), handed, outcome, Lines(Body(chunks[..i])))
    {
      BodyOneMore(chunks, i);
      if chunks[i].Failure? {
        assert Body(chunks[i..]) == "" && Body(chunks[..i]) + "" == Body(chunks[..i]);
        return handed, ReadError(chunks[i].error);
      }
      ghost var was := Body(chunks[..i]);
      OneMoreChunk(chunks, i);
      LinesOfConcat(was, chunks[i].value);
      var failure;
      pending, handed, outcome, failure := DrainLines(parser, pending + chunks[i].value, handed, outcome, Lines(was));
      if failure.Some? {
        BodyOneMore(chunks, i + 1);
        ghost var sofar, later := Body(chunks[..i + 1]), Body(chunks[i + 1..]);
        LinesOfConcat(sofar, later);
        FailingStays(parse, handed, failure.value, Lines(sofar), Lines(Rest(sofar) + later));
        return handed, RunFailed(failure.value);
      }
    }
    assert chunks[..|chunks|] == chunks;
    BodyOneMore(chunks, |chunks|);
    end := match outcome { case Some(value) => Reply(value) case None => NoReply };
  }

  lemma NothingRead(parse: Reader)
    ensures Body([]) == "" && Rest("") == "" && Read(parse, Gather([]), [], None, Lines(""))
  {
    assert Lines("") == [];
  }

  lemma OneMoreChunk(chunks: seq<Result<string, string>>, i: nat)
    requires i < |chunks| && forall j :: 0 <= j <= i ==> chunks[j].Success?
    ensures Body(chunks[..i + 1]) == Body(chunks[..i]) + chunks[i].value
  {
    BodyOneMore(chunks[..i + 1], i);
    assert chunks[..i + 1][..i] == chunks[..i] && chunks[..i + 1][i..] == [chunks[i]];
    assert [chunks[i]][1..] == [];
    assert Body([chunks[i]]) == chunks[i].value + Body([]);
  }
}

/** What a body's text says, block by block: the reader against the writer of the other side. */
module StreamText {
  import opened Wrappers
  import opened Json
  import opened StreamMeaning
  import opened EventStream

  predicate Eol(eol: string) {
    eol == "\n" || eol == "\r\n"
  }

  /** Text that fits on one line whichever way lines end. */
  predicate Plain(s: string) {
    '\n' !in s && (s != "" ==> s[|s| - 1] != '\r')
  }

  function WriteData(data: seq<string>, eol: string): string {
    if data == [] then "" else "data: " + data[0] + eol + WriteData(data[1..], eol)
  }

  /** A block as a server writes it: its name, if it has one, its lines of data, and a blank line. */
  function WriteBlock(name: Option<string>, data: seq<string>, eol: string): string {
    (if name.Some? then "event: " + name.value + eol else "") + WriteData(data, eol) + eol
  }

  // ------------------------------------------------------------------ lines and fields

  lemma LineOpens(line: string, eol: string, tail: string, open: seq<string>)
    requires Plain(line) && Eol(eol)
    ensures var now := Blocks(Lines(tail), if line == "" then [] else open + [line]);
      Blocks(Lines(line + eol + tail), open) == if line == "" then [open] + now else now
  {
    hide Lines, Rest;
    var raw := line + eol[..|eol| - 1];
    assert line + eol + tail == raw + "\n" + tail;
    LinesUnfold(raw, tail);
    assert StripCr(raw) == line;
  }

  lemma {:induction false} FirstColonIs(field: string, value: string)
    requires ':' !in field
    ensures FirstColon(field + ":" + value) == |field|
  {
    if field != "" {
      assert (field + ":" + value)[1..] == field[1..] + ":" + value;
      FirstColonIs(field[1..], value);
    }
  }

  /** A field is written as its name, a colon and one space, and read back whatever its value is. */
  lemma FieldIsRead(field: string, value: string)
    requires ':' !in field
    ensures FieldOf(field + ": " + value) == (field, value)
  {
    var line := field + ": " + value;
    assert line == field + ":" + (" " + value);
    FirstColonIs(field, " " + value);
    assert line[..|field|] == field && line[|field| + 1..] == " " + value;
  }

  lemma EventField(name: string)
    ensures FieldOf("event: " + name) == ("event", name)
    ensures Plain(name) ==> Plain("event: " + name)
  {
    hide FieldOf;
    FieldIsRead("event", name);
    assert "event" + ": " + name == "event: " + name;
  }

  lemma DataField(value: string)
    ensures FieldOf("data: " + value) == ("data", value)
    ensures Plain(value) ==> Plain("data: " + value)
  {
    hide FieldOf;
    FieldIsRead("data", value);
    assert "data" + ": " + value == "data: " + value;
  }

  lemma OneMoreField(block: seq<string>, line: string, field: string)
    ensures Values(block + [line], field)
            == Values(block, field) + if FieldOf(line).0 == field then [FieldOf(line).1] else []
  {
    assert (block + [line])[..|block|] == block;
  }

  /** A comment, and any field but the two that are known, changes nothing in the block it stands in. */
  lemma {:induction false} OtherLinesAreSkipped(before: seq<string>, line: string, after: seq<string>, field: string)
    requires line != field && !(field + ":" <= line)
    ensures Values(before + [line] + after, field) == Values(before + after, field)
  {
    hide FieldOf, Values;
    if after == [] {
      FieldIsWritten(line);
      OneMoreField(before, line, field);
      assert before + [line] + after == before + [line] && before + after == before;
    } else {
      var init, last := after[..|after| - 1], after[|after| - 1];
      OtherLinesAreSkipped(before, line, init, field);
      OneMoreField(before + [line] + init, last, field);
      OneMoreField(before + init, last, field);
      assert after == init + [last];
      assert before + [line] + after == before + [line] + init + [last];
      assert before + after == before + init + [last];
    }
  }

  lemma {:induction false} ColonAt(line: string)
    ensures FirstColon(line) < |line| ==> line[FirstColon(line)] == ':'
  {
    if line != [] && line[0] != ':' {
      ColonAt(line[1..]);
    }
  }

  /** A line begins with the name of its field, and with a colon after it unless the line ends there. */
  lemma FieldIsWritten(line: string)
    ensures FieldOf(line).0 == line || FieldOf(line).0 + ":" <= line
  {
    ColonAt(line);
    var i := FirstColon(line);
    if i < |line| {
      assert line[..i] + ":" == line[..i + 1];
    }
  }

  // ------------------------------------------------------------------ one block

  lemma OneLineWritten(data: seq<string>, eol: string, tail: string)
    requires data != []
    ensures WriteData(data, eol) + tail == "data: " + data[0] + eol + (WriteData(data[1..], eol) + tail)
  {
    Regrouped("data: " + data[0] + eol, WriteData(data[1..], eol), tail);
  }

  lemma OneMore(values: seq<string>, data: seq<string>)
    requires data != []
    ensures values + [data[0]] + data[1..] == values + data
  {
  }

  lemma {:induction false} DataIsRead(data: seq<string>, eol: string, tail: string, open: seq<string>)
    returns (block: seq<string>)
    requires Eol(eol) && forall d :: d in data ==> Plain(d)
    ensures Blocks(Lines(WriteData(data, eol) + tail), open) == Blocks(Lines(tail), block)
    ensures Values(block, "data") == Values(open, "data") + data
    ensures Values(block, "event") == Values(open, "event")
  {
    hide Lines, Blocks, FieldOf, Plain, Values;
    if data == [] {
      block := open;
      assert "" + tail == tail;
    } else {
      hide WriteData;
      var line, later := "data: " + data[0], WriteData(data[1..], eol);
      DataField(data[0]);
      LineOpens(line, eol, later + tail, open);
      OneLineWritten(data, eol, tail);
      OneDataLine(open, data[0]);
      block := DataIsRead(data[1..], eol, tail, open + [line]);
      OneMore(Values(open, "data"), data);
    }
  }

  lemma OneDataLine(open: seq<string>, value: string)
    ensures Values(open + ["data: " + value], "data") == Values(open, "data") + [value]
    ensures Values(open + ["data: " + value], "event") == Values(open, "event")
  {
    DataField(value);
    OneMoreField(open, "data: " + value, "data");
    OneMoreField(open, "data: " + value, "event");
  }

  lemma NameIsRead(name: Option<string>, eol: string, tail: string) returns (open: seq<string>)
    requires Eol(eol) && (name.Some? ==> Plain(name.value))
    ensures Blocks(Lines((if name.Some? then "event: " + name.value + eol else "") + tail), [])
            == Blocks(Lines(tail), open)
    ensures Values(open, "data") == [] && Values(open, "event") == if name.Some? then [name.value] else []
  {
    hide Lines, Blocks, FieldOf;
    if name.None? {
      open := [];
      assert "" + tail == tail;
    } else {
      var line := "event: " + name.value;
      open := [line];
      EventField(name.value);
      LineOpens(line, eol, tail, []);
      OneMoreField([], line, "data");
      OneMoreField([], line, "event");
      assert [] + [line] == open;
    }
  }

  lemma BlockText(name: Option<string>, data: seq<string>, eol: string, rest: string)
    ensures WriteBlock(name, data, eol) + rest
            == (if name.Some? then "event: " + name.value + eol else "") + (WriteData(data, eol) + (eol + rest))
  {
    hide WriteData;
    var head := if name.Some? then "event: " + name.value + eol else "";
    Regrouped(head, WriteData(data, eol), eol + rest);
    Regrouped(head + WriteData(data, eol), eol, rest);
  }

  lemma BlockIsRead(parse: Reader, name: Option<string>, data: seq<string>, eol: string, rest: string)
    requires Eol(eol) && (name.Some? ==> Plain(name.value)) && forall d :: d in data ==> Plain(d)
    ensures var frame := FrameOf(parse, name, data);
      Frames(parse, WriteBlock(name, data, eol) + rest)
      == (if frame.Some? then [frame.value] else []) + Frames(parse, rest)
  {
    hide Lines, Blocks, Values, FrameOf, WriteData;
    var head := if name.Some? then "event: " + name.value + eol else "";
    var tail := WriteData(data, eol) + (eol + rest);
    BlockText(name, data, eol, rest);
    var open := NameIsRead(name, eol, tail);
    var block := DataIsRead(data, eol, eol + rest, open);
    LineOpens("", eol, rest, block);
    assert "" + eol + rest == eol + rest;
    assert [] + data == data;
    var later := Blocks(Lines(rest), []);
    assert ([block] + later)[0] == block && ([block] + later)[1..] == later;
  }

  // ------------------------------------------------------------------ what it says

  /** Lines of data are one payload, which has those lines again. */
  lemma {:induction false} PayloadHasTheLines(data: seq<string>)
    requires data != [] && forall d :: d in data ==> '\n' !in d
    ensures Lines(JoinLines(data) + "\n") == data
  {
    hide Lines, Rest;
    if |data| == 1 {
      assert data[0] + "\n" == data[0] + "\n" + "";
      LinesUnfold(data[0], "");
      NoBreakNoLine("");
    } else {
      PayloadHasTheLines(data[1..]);
      assert JoinLines(data) + "\n" == data[0] + "\n" + (JoinLines(data[1..]) + "\n");
      LinesUnfold(data[0], JoinLines(data[1..]) + "\n");
    }
  }

  /**
   * What each block adds to the frames read, whatever follows it. A finished run's block is its parsed payload; a
   * refused run's is the text of its error field, or the payload itself; an unnamed one is an event of the session it
   * names; one whose name is not known, or without data, adds nothing.
   */
  lemma EveryBlockSays(parse: Reader, name: Option<string>, data: seq<string>, eol: string, rest: string)
    requires Eol(eol) && (name.Some? ==> Plain(name.value)) && forall d :: d in data ==> Plain(d)
    ensures var (frames, later) := (Frames(parse, WriteBlock(name, data, eol) + rest), Frames(parse, rest));
      var payload := JoinLines(data);
      if data == [] then frames == later
      else if name == Some("done") then
        frames == [Done(match parse(payload) { case Some(value) => value case None => Null })] + later
      else if name == Some("error") then
        frames == [Failed(match parse(payload) {
          case Some(Obj(fields)) =>
            if "error" in fields && fields["error"].Str? then fields["error"].s else payload
          case _ => payload
        })] + later
      else if name.Some? then frames == later
      else
        match parse(payload) {
          case Some(Obj(fields)) =>
            frames == [Event(if "session" in fields && fields["session"].Str? then fields["session"].s else "?",
                             if "event" in fields then fields["event"] else Null)] + later
          case Some(_) => frames == [Event("?", Null)] + later
          case None => frames == later
        }
  {
    hide Frames, WriteBlock, Plain, JoinLines;
    BlockIsRead(parse, name, data, eol, rest);
    assert [] + Frames(parse, rest) == Frames(parse, rest);
  }

  /** Two lines of data are joined by one line break. */
  lemma TwoLinesOfData(p: string, q: string)
    ensures JoinLines([p, q]) == p + "\n" + q && JoinLines([p]) == p
  {
    assert [p, q][1..] == [q];
  }

  lemma NothingIsSaid(parse: Reader)
    ensures Frames(parse, "") == []
  {
    assert Lines("") == [];
  }

  /** A run whose only block is its reply ends with that reply, taken out of its wrapper, wherever the text was cut. */
  lemma AFinishedRunIsReported(parse: Reader, payload: string, eol: string, a: string, b: string)
    requires Eol(eol) && Plain(payload) && a + b == WriteBlock(Some("done"), [payload], eol)
    ensures var chunks := [Success(a), Success(b)];
      Outcome(Frames(parse, Body(chunks)), Broken(chunks)).1 == Reply(
        match parse(payload) {
          case Some(Obj(fields)) => if "reply" in fields then fields["reply"] else Obj(fields)
          case Some(value) => value
          case None => Null
        })
  {
    hide Frames, WriteBlock;
    TwoChunks(a, b);
    EveryBlockSays(parse, Some("done"), [payload], eol, "");
    NothingIsSaid(parse);
    TwoLinesOfData(payload, "");
    assert a + b + "" == a + b;
  }

  /** And one whose only block is an error fails with what that says. */
  lemma ARefusedRunIsReported(parse: Reader, payload: string, eol: string, a: string, b: string)
    requires Eol(eol) && Plain(payload) && a + b == WriteBlock(Some("error"), [payload], eol)
    ensures var chunks := [Success(a), Success(b)];
      Outcome(Frames(parse, Body(chunks)), Broken(chunks)) == ([], RunFailed(
        match parse(payload) {
          case Some(Obj(fields)) =>
            if "error" in fields && fields["error"].Str? then fields["error"].s else payload
          case _ => payload
        }))
  {
    hide Frames, WriteBlock;
    TwoChunks(a, b);
    EveryBlockSays(parse, Some("error"), [payload], eol, "");
    NothingIsSaid(parse);
    TwoLinesOfData(payload, "");
    assert a + b + "" == a + b;
  }

  lemma TwoChunks(a: string, b: string)
    ensures Body([Success(a), Success(b)]) == a + b && Broken([Success(a), Success(b)]) == None
  {
    var chunks: seq<Result<string, string>> := [Success(a), Success(b)];
    var last := chunks[1..];
    assert last[0] == Success(b) && last[1..] == [];
    assert Body(last) == b + "" && Broken(last) == None;
  }

  // ------------------------------------------------------------------ how it ends

  predicate FirstFailureIs(frames: seq<Streamed>, i: nat) {
    i < |frames| && frames[i].Failed? && forall j :: 0 <= j < i ==> !frames[j].Failed?
  }

  predicate LastReplyIs(frames: seq<Streamed>, k: nat) {
    k < |frames| && frames[k].Done? && forall j :: k < j < |frames| ==> !frames[j].Done?
  }

  /** The first failure ends the run, with what came before it, whatever came after. */
  lemma AFailureEndsTheRun(frames: seq<Streamed>, error: Option<string>, i: nat)
    requires FirstFailureIs(frames, i)
    ensures Outcome(frames, error) == (frames[..i], RunFailed(frames[i].message))
  {
    assert FirstFailure(frames) == i;
  }

  /** Without a failure a broken connection is what is reported, and every frame was shown. */
  lemma ABrokenConnectionIsReported(frames: seq<Streamed>, error: string)
    requires forall i :: 0 <= i < |frames| ==> !frames[i].Failed?
    ensures Outcome(frames, Some(error)) == (frames, ReadError(error))
  {
  }

  /** Without either it is the last reply that is reported, out of its wrapper where it has one. */
  lemma TheLastReplyIsReported(frames: seq<Streamed>, k: nat)
    requires LastReplyIs(frames, k) && forall i :: 0 <= i < |frames| ==> !frames[i].Failed?
    ensures Outcome(frames, None) == (frames, Reply(
              if frames[k].reply.Obj? && "reply" in frames[k].reply.fields
              then frames[k].reply.fields["reply"] else frames[k].reply))
  {
    LastReplyAt(frames, k);
  }

  /** And with no reply among the frames there is none to report. */
  lemma NoReplyIsReported(frames: seq<Streamed>)
    requires forall i :: 0 <= i < |frames| ==> frames[i].Event?
    ensures Outcome(frames, None) == (frames, NoReply)
  {
    NoReplyAt(frames);
  }

  lemma {:induction false} LastReplyAt(frames: seq<Streamed>, k: nat)
    requires LastReplyIs(frames, k)
    ensures LastReply(frames) == Some(Unwrap(frames[k].reply))
  {
    hide Unwrap;
    if k < |frames| - 1 {
      LastReplyAt(frames[..|frames| - 1], k);
    }
  }

  lemma {:induction false} NoReplyAt(frames: seq<Streamed>)
    requires forall i :: 0 <= i < |frames| ==> frames[i].Event?
    ensures LastReply(frames) == None
  {
    if frames != [] {
      NoReplyAt(frames[..|frames| - 1]);
    }
  }
}
