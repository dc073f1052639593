/**
 The server-sent-event decoder of src/http.rs: bytes arrive in chunks, complete
 lines are drained from a buffer, and each line updates the event being built.

 `Decode` is the meaning of a whole stream, defined line by line without any chunk.
 `DecodeStream` is the source's loop over chunks. Its contract says that every way of
 cutting a stream gives what `Decode` gives, including cuts inside CRLF or inside a
 multi-byte character.
 */
module Sse {
  import opened Common
  import opened Text

  type Byte = b: int | 0 <= b < 256

  const LF: Byte := 10
  const CR: Byte := 13

  /** The configured limits, and the lossy UTF-8 decoding of one line. */
  datatype Config = Config(maxLine: nat, maxEvent: nat, maxStream: nat, lossy: seq<Byte> -> string)

  datatype Frame = Frame(event: Option<string>, id: Option<string>, retry: Option<nat>,
                         comments: seq<string>, data: string)

  datatype Error = LineLimit | EventLimit | StreamLimit | NoFrame(raw: seq<string>)

  /** The event under construction and the text that is not part of any event. */
  datatype Fields = Fields(event: Option<string>, id: Option<string>, retry: Option<nat>,
                           comments: seq<string>, data: seq<string>, raw: seq<string>)

  /** Decoder state between lines: the fields, the bytes spent on the current event
      and the frames yielded so far. */
  datatype State = State(fields: Fields, eventBytes: nat, frames: seq<Frame>)

  const START: State := State(Fields(None, None, None, [], [], []), 0, [])

  datatype Decoded = Decoded(frames: seq<Frame>, end: Result<(), Error>)

  // ---- One line -------------------------------------------------------------------------

  function HandleLine(line: string, f: Fields): (Fields, Option<Frame>) {
    if StartsWith(line, "event:") then (f.(event := Some(Trim(line[6..]))), None)
    else if StartsWith(line, "id:") then (f.(id := Some(TrimStart(line[3..]))), None)
    else if StartsWith(line, "retry:") then
      var millis := ParseU64(Trim(line[6..]));
      (if millis.Some? then f.(retry := millis) else f, None)
    else if StartsWith(line, "data:") then (f.(data := f.data + [TrimStart(line[5..])]), None)
    else if StartsWith(line, ":") then (f.(comments := f.comments + [TrimStart(line[1..])]), None)
    else if IsBlank(line) && f.data != [] then
      (Fields(None, None, None, [], [], f.raw),
       Some(Frame(f.event, f.id, f.retry, f.comments, Join(f.data, "\n"))))
    else if !IsBlank(line) then (f.(raw := f.raw + [line]), None)
    else (f, None)
  }

  function TrimLineEnding(line: seq<Byte>): seq<Byte> {
    var a := if line != [] && line[|line| - 1] == LF then line[..|line| - 1] else line;
    if a != [] && a[|a| - 1] == CR then a[..|a| - 1] else a
  }

  /** The limit checks and the handling of one complete line. */
  function TakeLine(cfg: Config, s: State, line: seq<Byte>): Result<State, Error> {
    if |line| > cfg.maxLine then Err(LineLimit)
    else if s.eventBytes + |line| > cfg.maxEvent then Err(EventLimit)
    else
      var (fields, frame) := HandleLine(cfg.lossy(line), s.fields);
      if frame.Some? then Ok(State(fields, 0, s.frames + [frame.value]))
      else Ok(State(fields, s.eventBytes + |line|, s.frames))
  }

  // ---- The whole stream ------------------------------------------------------------------

  function FirstLf(bytes: seq<Byte>): (i: nat)
    ensures i <= |bytes|
    ensures i < |bytes| ==> bytes[i] == LF
    ensures forall j :: 0 <= j < i ==> bytes[j] != LF
  {
    if bytes == [] || bytes[0] == LF then 0 else 1 + FirstLf(bytes[1..])
  }

  /** The event still under construction is yielded when it has data; a stream that
      yielded nothing is an error. */
  function Close(s: State): Decoded {
    var f := s.fields;
    var frames :=
      if f.data != [] then s.frames + [Frame(f.event, f.id, f.retry, f.comments, Join(f.data, "\n"))]
      else s.frames;
    Decoded(frames, if frames == [] then Err(NoFrame(f.raw)) else Ok(()))
  }

  /** The end of the stream, with `rest` after the last line feed. */
  function Finish(cfg: Config, s: State, rest: seq<Byte>): Decoded {
    if rest == [] then Close(s)
    else
      match TakeLine(cfg, s, rest)
      case Err(e) => Decoded(s.frames, Err(e))
      case Ok(s') => Close(s')
  }

  function DecodeFrom(cfg: Config, s: State, bytes: seq<Byte>): Decoded
    decreases |bytes|
  {
    var i := FirstLf(bytes);
    if i == |bytes| then Finish(cfg, s, bytes)
    else
      match TakeLine(cfg, s, TrimLineEnding(bytes[..i + 1]))
      case Err(e) => Decoded(s.frames, Err(e))
      case Ok(s') => DecodeFrom(cfg, s', bytes[i + 1..])
  }

  function Decode(cfg: Config, bytes: seq<Byte>): Decoded {
    DecodeFrom(cfg, START, bytes)
  }

  function Flatten(chunks: seq<seq<Byte>>): seq<Byte> {
    if chunks == [] then [] else chunks[0] + Flatten(chunks[1..])
  }

  // ---- Facts about the whole-stream meaning ------------------------------------------------

  lemma FirstLfIs(bytes: seq<Byte>, i: nat)
    requires i <= |bytes| && (i < |bytes| ==> bytes[i] == LF)
    requires forall j :: 0 <= j < i ==> bytes[j] != LF
    ensures FirstLf(bytes) == i
  {
  }

  /** A line feed inside the buffer ends the same line whatever arrives later. */
  lemma LineIsStable(buffer: seq<Byte>, later: seq<Byte>)
    requires FirstLf(buffer) < |buffer|
    ensures var i := FirstLf(buffer);
            && FirstLf(buffer + later) == i
            && (buffer + later)[..i + 1] == buffer[..i + 1]
            && (buffer + later)[i + 1..] == buffer[i + 1..] + later
  {
    FirstLfIs(buffer + later, FirstLf(buffer));
  }

  function PendingLength(buffer: seq<Byte>): nat {
    if buffer != [] && buffer[|buffer| - 1] == CR then |buffer| - 1 else |buffer|
  }

  /** Rejecting an over-long unfinished line early is what the whole stream would
      report too: however the line goes on, it stays over the limit. */
  lemma PendingLimitIsFinal(cfg: Config, s: State, buffer: seq<Byte>, later: seq<Byte>)
    requires FirstLf(buffer) == |buffer| && PendingLength(buffer) > cfg.maxLine
    ensures DecodeFrom(cfg, s, buffer + later) == Decoded(s.frames, Err(LineLimit))
  {
    var all := buffer + later;
    var i := FirstLf(all);
    assert forall j :: 0 <= j < |buffer| ==> all[j] == buffer[j];
    assert i >= |buffer|;
    if i < |all| {
      var line := all[..i + 1];
      assert line[..i] == all[..i];
      assert |TrimLineEnding(line)| >= PendingLength(buffer);
    }
  }

  lemma LineKeepsFrames(cfg: Config, s: State, line: seq<Byte>)
    ensures var r := TakeLine(cfg, s, line); r.Ok? ==> s.frames <= r.value.frames
  {
    hide HandleLine;
  }

  lemma FinishKeepsFrames(cfg: Config, s: State, rest: seq<Byte>)
    ensures s.frames <= Finish(cfg, s, rest).frames
  {
    hide TakeLine, Join;
    LineKeepsFrames(cfg, s, rest);
  }

  /** Frames are only ever added, and an error ends the stream. */
  lemma {:induction false} FramesGrow(cfg: Config, s: State, bytes: seq<Byte>)
    ensures s.frames <= DecodeFrom(cfg, s, bytes).frames
    decreases |bytes|
  {
    hide TakeLine, TrimLineEnding, FirstLf, Finish;
    var i := FirstLf(bytes);
    if i == |bytes| {
      FinishKeepsFrames(cfg, s, bytes);
    } else {
      var line := TrimLineEnding(bytes[..i + 1]);
      LineKeepsFrames(cfg, s, line);
      if TakeLine(cfg, s, line).Ok? {
        FramesGrow(cfg, TakeLine(cfg, s, line).value, bytes[i + 1..]);
      }
    }
  }

  // ---- Reading back a written event ----------------------------------------------------------

  function Prefixed(prefix: string, values: seq<string>): seq<string> {
    if values == [] then [] else [prefix + values[0]] + Prefixed(prefix, values[1..])
  }

  /** An event as a server writes it: field values, one entry of `data` per line. */
  datatype Event = Event(event: Option<string>, id: Option<string>, retry: Option<string>,
                         comments: seq<string>, data: seq<string>)
  {
    predicate Writable() {
      && (event.Some? ==> Trim(event.value) == event.value)
      && (id.Some? ==> TrimStart(id.value) == id.value)
      && (retry.Some? ==> ParseU64(Trim(retry.value)).Some?)
      && (forall c :: c in comments ==> TrimStart(c) == c)
      && data != [] && (forall d :: d in data ==> TrimStart(d) == d)
    }

    function Head(): seq<string> {
      (if event.Some? then ["event:" + event.value] else [])
      + (if id.Some? then ["id:" + id.value] else [])
      + (if retry.Some? then ["retry:" + retry.value] else [])
    }

    function Lines(): seq<string> {
      Head() + Prefixed(":", comments) + Prefixed("data:", data) + [""]
    }

    function AsFrame(): Frame {
      Frame(event, id, if retry.Some? then ParseU64(Trim(retry.value)) else None, comments, Join(data, "\n"))
    }
  }

  function HandleLines(lines: seq<string>, f: Fields): (Fields, seq<Frame>) {
    if lines == [] then (f, [])
    else
      var (f1, frame) := HandleLine(lines[0], f);
      var (f2, frames) := HandleLines(lines[1..], f1);
      (f2, if frame.Some? then [frame.value] + frames else frames)
  }

  lemma {:induction false} HandleLinesConcat(a: seq<string>, b: seq<string>, f: Fields)
    ensures var (f1, x) := HandleLines(a, f);
            var (f2, y) := HandleLines(b, f1);
            HandleLines(a + b, f) == (f2, x + y)
  {
    hide HandleLine;
    if a == [] {
      var none: seq<Frame> := [];
      assert a + b == b && none + HandleLines(b, f).1 == HandleLines(b, f).1;
    } else {
      var (f1, frame) := HandleLine(a[0], f);
      HandleLinesConcat(a[1..], b, f1);
      assert (a + b)[1..] == a[1..] + b;
      var (f2, x) := HandleLines(a[1..], f1);
      var y := HandleLines(b, f2).1;
      assert frame.Some? ==> [frame.value] + (x + y) == [frame.value] + x + y;
    }
  }

  lemma {:induction false} HandleComments(values: seq<string>, f: Fields)
    requires forall c :: c in values ==> TrimStart(c) == c
    ensures HandleLines(Prefixed(":", values), f) == (f.(comments := f.comments + values), [])
  {
    hide TrimStart, Trim, ParseU64, Join;
    if values == [] {
      assert f.comments + values == f.comments;
    } else {
      var line := ":" + values[0];
      assert line[0] == ':' && line[1..] == values[0];
      HandleComments(values[1..], f.(comments := f.comments + [values[0]]));
      assert f.comments + [values[0]] + values[1..] == f.comments + values;
    }
  }

  lemma {:induction false} HandleData(values: seq<string>, f: Fields)
    requires forall d :: d in values ==> TrimStart(d) == d
    ensures HandleLines(Prefixed("data:", values), f) == (f.(data := f.data + values), [])
  {
    hide TrimStart, Trim, ParseU64, Join;
    if values == [] {
      assert f.data + values == f.data;
    } else {
      var line := "data:" + values[0];
      assert line[0] == 'd' && line[5..] == values[0] && line[..5] == "data:";
      HandleData(values[1..], f.(data := f.data + [values[0]]));
      assert f.data + [values[0]] + values[1..] == f.data + values;
    }
  }

  lemma HandleField(line: string, name: string, value: string, f: Fields)
    requires line == name + value && name in ["event:", "id:", "retry:"]
    ensures HandleLines([line], f) ==
              (if name == "event:" then f.(event := Some(Trim(value)))
               else if name == "id:" then f.(id := Some(TrimStart(value)))
               else if ParseU64(Trim(value)).Some? then f.(retry := ParseU64(Trim(value)))
               else f, [])
  {
    hide TrimStart, Trim, ParseU64, Join;
    assert line[0] == name[0] && line[|name|..] == value && line[..|name|] == name;
    assert HandleLines([line][1..], HandleLine(line, f).0) == (HandleLine(line, f).0, []);
  }

  lemma HandleNothing(f: Fields)
    ensures HandleLines([], f) == (f, [])
  {
  }

  lemma HandleHead(e: Event, f: Fields)
    requires e.Writable()
    ensures HandleLines(e.Head(), f) ==
              (f.(event := if e.event.Some? then e.event else f.event,
                  id := if e.id.Some? then e.id else f.id,
                  retry := if e.retry.Some? then ParseU64(Trim(e.retry.value)) else f.retry), [])
  {
    hide HandleLines, HandleLine, Trim, TrimStart, ParseU64;
    var a := if e.event.Some? then ["event:" + e.event.value] else [];
    var b := if e.id.Some? then ["id:" + e.id.value] else [];
    var c := if e.retry.Some? then ["retry:" + e.retry.value] else [];
    var f1 := f.(event := if e.event.Some? then e.event else f.event);
    var f2 := f1.(id := if e.id.Some? then e.id else f.id);
    HandleNothing(f);
    HandleNothing(f1);
    HandleNothing(f2);
    if e.event.Some? { HandleField(a[0], "event:", e.event.value, f); }
    if e.id.Some? { HandleField(b[0], "id:", e.id.value, f1); }
    if e.retry.Some? { HandleField(c[0], "retry:", e.retry.value, f2); }
    var none: seq<Frame> := [];
    assert none + none == none;
    HandleLinesConcat(a, b, f);
    HandleLinesConcat(a + b, c, f);
  }

  lemma HandleBlank(f: Fields)
    requires f.data != []
    ensures HandleLines([""], f) ==
              (Fields(None, None, None, [], [], f.raw),
               [Frame(f.event, f.id, f.retry, f.comments, Join(f.data, "\n"))])
  {
    hide Join, ParseU64;
    var f' := Fields(None, None, None, [], [], f.raw);
    assert HandleLines([""][1..], f') == (f', []);
    var frame := Frame(f.event, f.id, f.retry, f.comments, Join(f.data, "\n"));
    var none: seq<Frame> := [];
    assert [frame] + none == [frame];
    assert HandleLine("", f) == (Fields(None, None, None, [], [], f.raw),
                                 Some(Frame(f.event, f.id, f.retry, f.comments, Join(f.data, "\n"))));
  }

  /** Writing an event and reading its lines yields exactly that event, once, and leaves
      nothing of it behind for the next one. */
  lemma WrittenEventIsRead(e: Event, raw: seq<string>)
    requires e.Writable()
    ensures HandleLines(e.Lines(), Fields(None, None, None, [], [], raw)) ==
              (Fields(None, None, None, [], [], raw), [e.AsFrame()])
  {
    hide HandleLines, HandleLine, Trim, TrimStart, ParseU64, Join, Prefixed;
    var f0 := Fields(None, None, None, [], [], raw);
    var h, c, d := e.Head(), Prefixed(":", e.comments), Prefixed("data:", e.data);
    HandleHead(e, f0);
    var f1 := HandleLines(h, f0).0;
    HandleComments(e.comments, f1);
    var f2 := f1.(comments := f1.comments + e.comments);
    HandleData(e.data, f2);
    var f3 := f2.(data := f2.data + e.data);
    HandleLinesConcat(h, c, f0);
    HandleLinesConcat(h + c, d, f0);
    HandleLinesConcat(h + c + d, [""], f0);
    var none: seq<Frame> := [];
    assert none + none == none && none + [e.AsFrame()] == [e.AsFrame()];
    assert f3.comments == e.comments && f3.data == e.data;
    HandleBlank(f3);
  }

  // ---- The source's loop --------------------------------------------------------------------

  /** Take every complete line out of the buffer (lines 388-412). What follows the
      buffer, `later`, decodes as before from the new state. */
  method DrainLines(cfg: Config, s0: State, buffer0: seq<Byte>, ghost later: seq<Byte>)
    returns (s: State, buffer: seq<Byte>, error: Option<Error>)
    ensures error.None? ==>
              && FirstLf(buffer) == |buffer|
              && DecodeFrom(cfg, s, buffer + later) == DecodeFrom(cfg, s0, buffer0 + later)
    ensures error.Some? ==> DecodeFrom(cfg, s0, buffer0 + later) == Decoded(s.frames, Err(error.value))
  {
    hide HandleLine, TrimLineEnding;
    s, buffer, error := s0, buffer0, None;
    while FirstLf(buffer) < |buffer|
      invariant DecodeFrom(cfg, s, buffer + later) == DecodeFrom(cfg, s0, buffer0 + later)
      decreases |buffer|
    {
      var i := FirstLf(buffer);
      LineIsStable(buffer, later);
      var line := TrimLineEnding(buffer[..i + 1]);
      buffer := buffer[i + 1..];
      if |line| > cfg.maxLine {
        return s, buffer, Some(LineLimit);
      }
      if s.eventBytes + |line| > cfg.maxEvent {
        return s, buffer, Some(EventLimit);
      }
      var (fields, frame) := HandleLine(cfg.lossy(line), s.fields);
      if frame.Some? {
        s := State(fields, 0, s.frames + [frame.value]);
      } else {
        s := State(fields, s.eventBytes + |line|, s.frames);
      }
    }
  }

  /** The end of the stream (lines 420-469). */
  method FinishStream(cfg: Config, s0: State, buffer: seq<Byte>)
    returns (frames: seq<Frame>, end: Result<(), Error>)
    ensures Decoded(frames, end) == Finish(cfg, s0, buffer)
  {
    hide HandleLine, Join;
    var s := s0;
    if buffer != [] {
      if |buffer| > cfg.maxLine {
        return s.frames, Err(LineLimit);
      }
      if s.eventBytes + |buffer| > cfg.maxEvent {
        return s.frames, Err(EventLimit);
      }
      var (fields, frame) := HandleLine(cfg.lossy(buffer), s.fields);
      s := s.(fields := fields, frames := if frame.Some? then s.frames + [frame.value] else s.frames);
    }
    frames := s.frames;
    var f := s.fields;
    if f.data != [] {
      frames := frames + [Frame(f.event, f.id, f.retry, f.comments, Join(f.data, "\n"))];
    }
    end := if frames == [] then Err(NoFrame(f.raw)) else Ok(());
  }

  /** Decode a stream delivered in chunks. Within the total limit the chunks do not
      matter; beyond it the decoder stops, having yielded a prefix of the frames. */
  method DecodeStream(cfg: Config, chunks: seq<seq<Byte>>) returns (frames: seq<Frame>, end: Result<(), Error>)
    ensures |Flatten(chunks)| <= cfg.maxStream ==> Decoded(frames, end) == Decode(cfg, Flatten(chunks))
    ensures |Flatten(chunks)| > cfg.maxStream ==>
              && frames <= Decode(cfg, Flatten(chunks)).frames
              && (end == Err(StreamLimit) || Decoded(frames, end) == Decode(cfg, Flatten(chunks)))
  {
    hide TakeLine, Finish, PendingLength;
    var buffer: seq<Byte> := [];
    var s := START;
    var received := 0;
    assert chunks[0..] == chunks && [] + Flatten(chunks) == Flatten(chunks);
    for k := 0 to |chunks|
      invariant FirstLf(buffer) == |buffer|
      invariant received + |Flatten(chunks[k..])| == |Flatten(chunks)| && received <= cfg.maxStream
      invariant DecodeFrom(cfg, s, buffer + Flatten(chunks[k..])) == Decode(cfg, Flatten(chunks))
    {
      var chunk := chunks[k];
      ghost var later := Flatten(chunks[k + 1..]);
      assert chunks[k..][1..] == chunks[k + 1..];
      assert buffer + Flatten(chunks[k..]) == (buffer + chunk) + later;
      if received + |chunk| > cfg.maxStream {
        FramesGrow(cfg, s, buffer + Flatten(chunks[k..]));
        return s.frames, Err(StreamLimit);
      }
      received := received + |chunk|;
      var error;
      s, buffer, error := DrainLines(cfg, s, buffer + chunk, later);
      if error.Some? {
        return s.frames, Err(error.value);
      }
      if PendingLength(buffer) > cfg.maxLine {
        PendingLimitIsFinal(cfg, s, buffer, later);
        return s.frames, Err(LineLimit);
      }
    }
    assert buffer + Flatten(chunks[|chunks|..]) == buffer;
    frames, end := FinishStream(cfg, s, buffer);
  }
}
