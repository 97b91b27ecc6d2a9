/**
 The server-sent event stream across both ends: the frames the server writes
 (internal/events/events.go, the handleEvents loop of internal/api/handlers.go)
 and the incremental frame parser of the browser client (src/api/client.ts).
 */
module Sse {

  import opened Base

  /** An event on the wire: its type and its JSON text. */
  datatype Frame = Frame(kind: string, data: string)

  /** What the server's write loop sends: broker events, metric ticks, and comment heartbeats. */
  datatype Item = Send(frame: Frame) | Heartbeat

  // ---------------------------------------------------------------------
  // Printer
  // ---------------------------------------------------------------------

  function Marshal(e: Frame): string {
    "event: " + e.kind + "\ndata: " + e.data + "\n\n"
  }

  function Print(item: Item): string {
    match item
    case Send(frame) => Marshal(frame)
    case Heartbeat => ": ping\n\n"
  }

  const CONNECTED := ": connected\n\n"

  function Wire(items: seq<Item>): string {
    if items == [] then "" else Print(items[0]) + Wire(items[1..])
  }

  function Frames(items: seq<Item>): seq<Frame> {
    if items == [] then [] else (if items[0].Send? then [items[0].frame] else []) + Frames(items[1..])
  }

  lemma {:induction false} WireStep(w: string, items: seq<Item>, i: nat)
    requires i < |items|
    ensures w + Wire(items[i..]) == (w + Print(items[i])) + Wire(items[i + 1..])
  {
    assert items[i..][1..] == items[i + 1..];
    assert Wire(items[i..]) == Print(items[i]) + Wire(items[i + 1..]);
  }

  /** The handleEvents loop: the connection comment, then one write per item. */
  method WriteStream(items: seq<Item>) returns (w: string)
    ensures w == ": connected\n\n" + Wire(items)
  {
    w := CONNECTED;
    var i := 0;
    while i < |items|
      invariant 0 <= i <= |items|
      invariant w + Wire(items[i..]) == CONNECTED + Wire(items)
    {
      WireStep(w, items, i);
      w := w + Print(items[i]);
      i := i + 1;
    }
  }

  // ---------------------------------------------------------------------
  // Parser
  // ---------------------------------------------------------------------

  predicate GapAt(s: string, i: int) {
    0 <= i && i + 2 <= |s| && s[i] == '\n' && s[i + 1] == '\n'
  }

  /** Position of the first blank-line separator at or after k, or -1. */
  function FindFrom(s: string, k: nat): (i: int)
    ensures i == -1 || (k <= i && GapAt(s, i))
    ensures forall j | k <= j && GapAt(s, j) :: 0 <= i <= j
    decreases |s| - k
  {
    if k + 2 > |s| then -1 else if GapAt(s, k) then k else FindFrom(s, k + 1)
  }

  function FindGap(s: string): (i: int)
    ensures i == -1 || GapAt(s, i)
    ensures forall j | GapAt(s, j) :: 0 <= i <= j
  {
    FindFrom(s, 0)
  }

  function Split(s: string): (lines: seq<string>)
    ensures |lines| > 0
  {
    if s == "" then [""]
    else if s[0] == '\n' then [""] + Split(s[1..])
    else var r := Split(s[1..]); [[s[0]] + r[0]] + r[1..]
  }

  predicate IsSpace(c: char) {
    || '\t' <= c <= '\r' || c == ' ' || c == '\U{A0}' || c == '\U{1680}' || '\U{2000}' <= c <= '\U{200A}'
    || c == '\U{2028}' || c == '\U{2029}' || c == '\U{202F}' || c == '\U{205F}' || c == '\U{3000}' || c == '\U{FEFF}'
  }

  function Trim(s: string): string
    decreases |s|
  {
    if s == "" then ""
    else if IsSpace(s[0]) then Trim(s[1..])
    else if IsSpace(s[|s| - 1]) then Trim(s[..|s| - 1])
    else s
  }

  predicate Trimmed(s: string) {
    s == "" || (!IsSpace(s[0]) && !IsSpace(s[|s| - 1]))
  }

  predicate OneLine(s: string) { '\n' !in s }

  /** One pass over the lines of a frame, carrying the type and the data seen so far. */
  function ReadLines(lines: seq<string>, acc: Frame): Frame {
    if lines == [] then acc else ReadLines(lines[1..], ReadLine(lines[0], acc))
  }

  function ReadLine(line: string, acc: Frame): Frame {
    Frame(if "event:" <= line then Trim(line[6..]) else acc.kind,
          if "data:" <= line then acc.data + Trim(line[5..]) else acc.data)
  }

  /** The callback a frame causes; `json` says which texts JSON.parse accepts. */
  function Emit(json: string -> bool, frame: string): seq<Frame> {
    var f := ReadLines(Split(frame), Frame("message", ""));
    if f.data != "" && json(f.data) then [f] else []
  }

  function Callback(json: string -> bool): string -> seq<Frame> {
    (frame: string) => Emit(json, frame)
  }

  /** The events of the complete frames of a buffer: cut frames off until no separator is left. */
  function Events<T>(emit: string -> seq<T>, buf: string): seq<T>
    decreases |buf|
  {
    var i := FindGap(buf);
    if i < 0 then [] else emit(buf[..i]) + Events(emit, buf[i + 2..])
  }

  /** What then remains in the buffer. */
  function Rest(buf: string): string
    decreases |buf|
  {
    var i := FindGap(buf);
    if i < 0 then buf else Rest(buf[i + 2..])
  }

  lemma {:induction false} OneFrame<T>(emit: string -> seq<T>, before: seq<T>, buf: string)
    requires FindGap(buf) >= 0
    ensures var i := FindGap(buf);
            && before + Events(emit, buf) == (before + emit(buf[..i])) + Events(emit, buf[i + 2..])
            && Rest(buf) == Rest(buf[i + 2..])
  {
    var i := FindGap(buf);
    assert Events(emit, buf) == emit(buf[..i]) + Events(emit, buf[i + 2..]);
  }

  /** What the client makes of a buffer. */
  function Read(json: string -> bool, buf: string): seq<Frame> {
    Events(Callback(json), buf)
  }

  class Client {
    var buf: string
    var emitted: seq<Frame> // the onEvent calls made so far

    constructor ()
      ensures buf == "" && emitted == []
    {
      buf, emitted := "", [];
    }

    /** One iteration of the read loop of subscribeEvents, for one decoded chunk. */
    method Feed(json: string -> bool, chunk: string)
      modifies this
      ensures buf == Rest(old(buf) + chunk)
      ensures emitted == old(emitted) + Read(json, old(buf) + chunk)
    {
      buf := buf + chunk;
      ghost var emit := Callback(json);
      ghost var whole := buf;
      var idx := FindGap(buf);
      while idx >= 0
        invariant idx == FindGap(buf)
        invariant Rest(buf) == Rest(whole)
        invariant emitted + Events(emit, buf) == old(emitted) + Events(emit, whole)
        decreases |buf|
      {
        var frame := buf[..idx];
        var called := ReadFrame(json, frame);
        OneFrame(emit, emitted, buf);
        emitted := emitted + called;
        buf := buf[idx + 2..];
        idx := FindGap(buf);
      }
    }
  }

  /** The outer loop of subscribeEvents, over the chunks a connection delivers. */
  method Subscribe(c: Client, json: string -> bool, chunks: seq<string>)
    modifies c
    ensures c.emitted == old(c.emitted) + FeedAll(Callback(json), old(c.buf), chunks)
    ensures c.buf == RestAll(old(c.buf), chunks)
  {
    var i := 0;
    ghost var emit := Callback(json);
    ghost var start, all := c.emitted, FeedAll(emit, c.buf, chunks);
    while i < |chunks|
      invariant 0 <= i <= |chunks|
      invariant c.emitted + FeedAll(emit, c.buf, chunks[i..]) == start + all
      invariant RestAll(c.buf, chunks[i..]) == RestAll(old(c.buf), chunks)
    {
      ghost var before, b := c.emitted, c.buf;
      FeedOne(emit, before, b, chunks[i..]);
      assert chunks[i..][1..] == chunks[i + 1..] && chunks[i..][0] == chunks[i];
      c.Feed(json, chunks[i]);
      i := i + 1;
    }
  }

  lemma {:induction false} FeedOne<T>(emit: string -> seq<T>, before: seq<T>, buf: string, chunks: seq<string>)
    requires chunks != []
    ensures before + FeedAll(emit, buf, chunks) ==
              (before + Events(emit, buf + chunks[0])) + FeedAll(emit, Rest(buf + chunks[0]), chunks[1..])
    ensures RestAll(buf, chunks) == RestAll(Rest(buf + chunks[0]), chunks[1..])
  {
  }

  /** The body of the loop: the line loop over one frame and the guarded callback. */
  method ReadFrame(json: string -> bool, frame: string) returns (called: seq<Frame>)
    ensures called == Emit(json, frame)
  {
    var kind, data := "message", "";
    var lines := Split(frame);
    var i := 0;
    while i < |lines|
      invariant 0 <= i <= |lines|
      invariant ReadLines(lines[i..], Frame(kind, data)) == ReadLines(lines, Frame("message", ""))
    {
      var line := lines[i];
      assert lines[i..][1..] == lines[i + 1..];
      if "event:" <= line { kind := Trim(line[6..]); }
      if "data:" <= line { data := data + Trim(line[5..]); }
      i := i + 1;
    }
    called := if data != "" && json(data) then [Frame(kind, data)] else [];
  }

  // ---------------------------------------------------------------------
  // Chunking does not matter
  // ---------------------------------------------------------------------

  /** Reading one chunk after another, as the client does: the events, and what stays in the buffer. */
  function FeedAll<T>(emit: string -> seq<T>, buf: string, chunks: seq<string>): seq<T>
    decreases |chunks|
  {
    if chunks == [] then []
    else Events(emit, buf + chunks[0]) + FeedAll(emit, Rest(buf + chunks[0]), chunks[1..])
  }

  function RestAll(buf: string, chunks: seq<string>): string
    decreases |chunks|
  {
    if chunks == [] then buf else RestAll(Rest(buf + chunks[0]), chunks[1..])
  }

  lemma {:induction false} GapStable(a: string, b: string)
    requires FindGap(a) >= 0
    ensures FindGap(a + b) == FindGap(a)
  {
    var i, j := FindGap(a), FindGap(a + b);
    assert GapAt(a + b, i);
    assert GapAt(a, j);
  }

  lemma {:induction false} RestConcat(a: string, b: string)
    ensures Rest(a + b) == Rest(Rest(a) + b)
    decreases |a|
  {
    var i := FindGap(a);
    if i >= 0 {
      GapStable(a, b);
      assert (a + b)[i + 2..] == a[i + 2..] + b;
      RestConcat(a[i + 2..], b);
    }
  }

  lemma {:induction false} EventsConcat<T>(emit: string -> seq<T>, a: string, b: string)
    ensures Events(emit, a + b) == Events(emit, a) + Events(emit, Rest(a) + b)
    decreases |a|
  {
    var i := FindGap(a);
    if i >= 0 {
      GapStable(a, b);
      var c := a[i + 2..];
      assert (a + b)[..i] == a[..i] && (a + b)[i + 2..] == c + b;
      EventsConcat(emit, c, b);
      var x, y, z := emit(a[..i]), Events(emit, c), Events(emit, Rest(c) + b);
      assert x + (y + z) == (x + y) + z;
    }
  }

  lemma {:induction false} RestHasNoGap(a: string)
    ensures FindGap(Rest(a)) < 0
    decreases |a|
  {
    var i := FindGap(a);
    if i >= 0 {
      RestHasNoGap(a[i + 2..]);
    }
  }

  /** On any input at all, what the client keeps depends only on the concatenation of the chunks. */
  lemma {:induction false} LeftoverIgnoresChunking(buf: string, chunks: seq<string>)
    requires FindGap(buf) < 0
    ensures RestAll(buf, chunks) == Rest(buf + Flatten(chunks))
    decreases |chunks|
  {
    if chunks == [] {
      assert buf + Flatten(chunks) == buf;
    } else {
      var a, t := buf + chunks[0], Flatten(chunks[1..]);
      assert buf + Flatten(chunks) == a + t;
      RestHasNoGap(a);
      LeftoverIgnoresChunking(Rest(a), chunks[1..]);
      RestConcat(a, t);
    }
  }

  /** ... and so does what it emits. */
  lemma {:induction false} ChunkingIrrelevant<T>(emit: string -> seq<T>, buf: string, chunks: seq<string>)
    requires FindGap(buf) < 0
    ensures FeedAll(emit, buf, chunks) == Events(emit, buf + Flatten(chunks))
    decreases |chunks|
  {
    if chunks == [] {
      assert buf + Flatten(chunks) == buf;
    } else {
      var a, t := buf + chunks[0], Flatten(chunks[1..]);
      assert buf + Flatten(chunks) == a + t;
      RestHasNoGap(a);
      ChunkingIrrelevant(emit, Rest(a), chunks[1..]);
      EventsConcat(emit, a, t);
    }
  }

  // ---------------------------------------------------------------------
  // The standard's reading of frames and lines
  // ---------------------------------------------------------------------

  /** Position of the first colon of a line; its length when it has none. */
  function Colon(line: string): (i: nat)
    ensures i <= |line| && (i < |line| ==> line[i] == ':')
    ensures forall j | 0 <= j < i :: line[j] != ':'
  {
    if line == "" || line[0] == ':' then 0 else 1 + Colon(line[1..])
  }

  /** Section 9.2.6: what comes before the first colon names the field of a line that has one. */
  predicate IsField(line: string, name: string) { Colon(line) < |line| && line[..Colon(line)] == name }

  /** Its value is the rest, without one leading space. */
  function Value(line: string): string
    requires Colon(line) < |line|
  {
    var v := line[Colon(line) + 1..];
    if v != "" && v[0] == ' ' then v[1..] else v
  }

  lemma {:induction false} ColonAt(line: string, i: nat)
    requires i < |line| && line[i] == ':' && forall j | 0 <= j < i :: line[j] != ':'
    ensures Colon(line) == i
  {
  }

  lemma {:induction false} PrefixIsField(line: string)
    ensures "event:" <= line <==> IsField(line, "event")
    ensures "data:" <= line <==> IsField(line, "data")
  {
    if "event:" <= line { ColonAt(line, 5); }
    if "data:" <= line { ColonAt(line, 4); }
  }

  lemma {:induction false} TrimSkipsSpace(v: string)
    ensures v != "" && v[0] == ' ' ==> Trim(v) == Trim(v[1..])
  {
  }

  /** The type a frame gets: that of its last event line. */
  function KindOf(lines: seq<string>): string {
    if lines == [] then "message"
    else
      var l := lines[|lines| - 1];
      if IsField(l, "event") then Trim(Value(l)) else KindOf(lines[..|lines| - 1])
  }

  /** The data a frame gets: that of its data lines, one after the other. */
  function DataOf(lines: seq<string>): string {
    if lines == [] then ""
    else
      var l := lines[|lines| - 1];
      DataOf(lines[..|lines| - 1]) + if IsField(l, "data") then Trim(Value(l)) else ""
  }

  lemma {:induction false} ReadLineMeans(line: string, acc: Frame)
    ensures ReadLine(line, acc).kind == if IsField(line, "event") then Trim(Value(line)) else acc.kind
    ensures ReadLine(line, acc).data == acc.data + if IsField(line, "data") then Trim(Value(line)) else ""
  {
    PrefixIsField(line);
    if IsField(line, "event") {
      TrimSkipsSpace(line[6..]);
    }
    if IsField(line, "data") {
      TrimSkipsSpace(line[5..]);
    }
    assert acc.data + "" == acc.data;
  }

  lemma {:induction false} ReadLinesSnoc(lines: seq<string>, line: string, acc: Frame)
    ensures ReadLines(lines + [line], acc) == ReadLine(line, ReadLines(lines, acc))
    decreases |lines|
  {
    if lines == [] {
      assert lines + [line] == [line] && [line][1..] == [];
      assert ReadLines([line], acc) == ReadLines([], ReadLine(line, acc));
    } else {
      assert (lines + [line])[1..] == lines[1..] + [line];
      ReadLinesSnoc(lines[1..], line, ReadLine(lines[0], acc));
    }
  }

  /** What the client reads in the lines of a frame, by the standard's names for their fields. */
  lemma {:induction false} ReadLinesMean(lines: seq<string>)
    ensures ReadLines(lines, Frame("message", "")) == Frame(KindOf(lines), DataOf(lines))
  {
    if lines != [] {
      var pre, l := lines[..|lines| - 1], lines[|lines| - 1];
      assert lines == pre + [l];
      ReadLinesMean(pre);
      ReadLinesSnoc(pre, l, Frame("message", ""));
      ReadLineMeans(l, Frame(KindOf(pre), DataOf(pre)));
    }
  }

  /** Trimming takes nothing but space, and from the ends. */
  lemma {:induction false} TrimTakesSpace(s: string) returns (a: string, b: string)
    ensures s == a + Trim(s) + b && (forall c | c in a :: IsSpace(c)) && (forall c | c in b :: IsSpace(c))
    decreases |s|
  {
    a, b := "", "";
    if s != "" && IsSpace(s[0]) {
      a, b := TrimTakesSpace(s[1..]);
      assert s == [s[0]] + s[1..];
      Regroup([s[0]], a, Trim(s), b);
      a := [s[0]] + a;
    } else if s != "" && IsSpace(s[|s| - 1]) {
      a, b := TrimTakesSpace(s[..|s| - 1]);
      assert s == s[..|s| - 1] + [s[|s| - 1]];
      RegroupRight(a, Trim(s), b, [s[|s| - 1]]);
      b := b + [s[|s| - 1]];
    }
  }

  lemma {:induction false} Regroup(c: string, a: string, x: string, b: string)
    ensures c + (a + x + b) == (c + a) + x + b
  {
  }

  lemma {:induction false} RegroupRight(a: string, x: string, b: string, c: string)
    ensures (a + x + b) + c == a + x + (b + c)
  {
  }

  function Joined(frames: seq<string>): string {
    if frames == [] then "" else frames[0] + "\n\n" + Joined(frames[1..])
  }

  /** What all of some frames make the client emit. */
  function EmitAll<T>(emit: string -> seq<T>, frames: seq<string>): seq<T> {
    if frames == [] then [] else emit(frames[0]) + EmitAll(emit, frames[1..])
  }

  /** Any buffer is some complete frames, none with a blank line inside, and a rest; the events are those of the frames in order. */
  lemma {:induction false} BufferIsFrames<T>(emit: string -> seq<T>, buf: string) returns (frames: seq<string>)
    ensures buf == Joined(frames) + Rest(buf) && FindGap(Rest(buf)) < 0
    ensures forall f | f in frames :: FindGap(f) < 0
    ensures Events(emit, buf) == EmitAll(emit, frames)
    decreases |buf|
  {
    RestHasNoGap(buf);
    var i := FindGap(buf);
    if i < 0 {
      frames := [];
    } else {
      var rest := BufferIsFrames(emit, buf[i + 2..]);
      frames := [buf[..i]] + rest;
      assert frames[0] == buf[..i] && frames[1..] == rest;
      CutRebuilds(buf, i);
      Regroup(buf[..i] + "\n\n", Joined(rest), Rest(buf), "");
      CutHasNoGap(buf);
    }
  }

  lemma {:induction false} CutRebuilds(buf: string, i: nat)
    requires GapAt(buf, i)
    ensures buf == buf[..i] + "\n\n" + buf[i + 2..]
  {
  }

  lemma {:induction false} CutHasNoGap(buf: string)
    requires FindGap(buf) >= 0
    ensures FindGap(buf[..FindGap(buf)]) < 0
  {
    var cut := buf[..FindGap(buf)];
    assert forall j | GapAt(cut, j) :: GapAt(buf, j);
  }

  // ---------------------------------------------------------------------
  // Printing and parsing one frame
  // ---------------------------------------------------------------------

  lemma {:induction false} GapAfterBody(body: string, rest: string)
    requires FindGap(body) < 0 && (body == "" || body[|body| - 1] != '\n')
    ensures FindGap(body + "\n\n" + rest) == |body|
  {
    var s := body + "\n\n" + rest;
    assert GapAt(s, |body|);
    var j := FindGap(s);
    if j < |body| {
      assert s[j] == body[j];
      if j + 1 < |body| {
        assert s[j + 1] == body[j + 1];
        assert GapAt(body, j);
      }
    }
  }

  lemma {:induction false} OneLineHasNoGap(s: string)
    requires OneLine(s)
    ensures FindGap(s) < 0
  {
  }

  lemma {:induction false} TwoLinesHaveNoGap(a: string, b: string)
    requires OneLine(a) && OneLine(b) && b != ""
    ensures FindGap(a + "\n" + b) < 0
  {
    var s := a + "\n" + b;
    assert forall k | 0 <= k < |s| :: s[k] == '\n' ==> k == |a|;
    assert !GapAt(s, FindGap(s));
  }

  function JoinLines(lines: seq<string>): string {
    if lines == [] then "" else if |lines| == 1 then lines[0] else lines[0] + "\n" + JoinLines(lines[1..])
  }

  /** The lines of a text, with newlines between them, are the text. */
  lemma {:induction false} SplitRebuilds(s: string)
    ensures JoinLines(Split(s)) == s
  {
    if s != "" {
      var r := Split(s[1..]);
      SplitRebuilds(s[1..]);
      assert s == [s[0]] + s[1..];
      if s[0] == '\n' {
        assert ([""] + r)[1..] == r;
        assert "" + "\n" + JoinLines(r) == "\n" + JoinLines(r);
      } else {
        var l := [s[0]] + r[0];
        assert ([l] + r[1..])[1..] == r[1..];
      }
    }
  }

  lemma {:induction false} SplitOneLine(s: string)
    requires OneLine(s)
    ensures Split(s) == [s]
  {
    if s != "" {
      SplitOneLine(s[1..]);
      assert [s[0]] + s[1..] == s;
    }
  }

  lemma {:induction false} SplitTwoLines(a: string, b: string)
    requires OneLine(a) && OneLine(b)
    ensures Split(a + "\n" + b) == [a, b]
  {
    var s := a + "\n" + b;
    if a == "" {
      assert s[1..] == b;
      SplitOneLine(b);
    } else {
      assert s[1..] == a[1..] + "\n" + b;
      SplitTwoLines(a[1..], b);
      assert [a[0]] + a[1..] == a;
    }
  }

  lemma {:induction false} TrimIsTrimmed(s: string)
    ensures Trimmed(Trim(s)) && (OneLine(s) ==> OneLine(Trim(s)))
    ensures Trimmed(s) <==> Trim(s) == s
    ensures |Trim(s)| <= |s|
    decreases |s|
  {
    if s == "" {
    } else if IsSpace(s[0]) {
      TrimIsTrimmed(s[1..]);
    } else if IsSpace(s[|s| - 1]) {
      TrimIsTrimmed(s[..|s| - 1]);
    }
  }

  function Body(e: Frame): string {
    "event: " + e.kind + "\ndata: " + e.data
  }

  lemma {:induction false} ReadBody(e: Frame)
    requires OneLine(e.kind) && OneLine(e.data)
    ensures ReadLines(Split(Body(e)), Frame("message", "")) == Frame(Trim(e.kind), Trim(e.data))
  {
    var a, b := "event: " + e.kind, "data: " + e.data;
    assert Body(e) == a + "\n" + b;
    SplitTwoLines(a, b);
    assert a[6..] == " " + e.kind && (" " + e.kind)[1..] == e.kind && Trim(" " + e.kind) == Trim(e.kind);
    assert b[5..] == " " + e.data && (" " + e.data)[1..] == e.data && Trim(" " + e.data) == Trim(e.data);
    assert a[0] == 'e' && b[0] == 'd';
    assert "event:" <= a && !("data:" <= a) && "data:" <= b && !("event:" <= b);
    var acc := ReadLine(a, Frame("message", ""));
    assert acc == Frame(Trim(e.kind), "");
    assert ReadLine(b, acc) == Frame(Trim(e.kind), Trim(e.data));
    assert [a, b][1..] == [b];
    assert ReadLines([b], acc) == ReadLines([], ReadLine(b, acc));
  }

  /** On the wire an event is two fields and an empty line, by the standard's reading. */
  lemma {:induction false} MarshalFields(e: Frame)
    requires OneLine(e.kind) && OneLine(e.data)
    ensures exists a, b :: Marshal(e) == a + "\n" + b + "\n\n" && OneLine(a) && OneLine(b)
              && IsField(a, "event") && Value(a) == e.kind && IsField(b, "data") && Value(b) == e.data
  {
    var a, b := "event: " + e.kind, "data: " + e.data;
    ColonAt(a, 5);
    ColonAt(b, 4);
    assert a[6..] == " " + e.kind && b[5..] == " " + e.data;
    assert OneLine(a) && OneLine(b);
    assert Marshal(e) == a + "\n" + b + "\n\n";
  }

  /** A one-line event is cut off the stream whole, whatever follows it. */
  lemma {:induction false} ReadMarshal(json: string -> bool, e: Frame, rest: string)
    requires OneLine(e.kind) && OneLine(e.data)
    ensures var f := Frame(Trim(e.kind), Trim(e.data));
            Read(json, Marshal(e) + rest) == (if f.data != "" && json(f.data) then [f] else []) + Read(json, rest)
    ensures Rest(Marshal(e) + rest) == Rest(rest)
  {
    var body := Body(e);
    assert body == ("event: " + e.kind) + "\n" + ("data: " + e.data);
    TwoLinesHaveNoGap("event: " + e.kind, "data: " + e.data);
    assert body[|body| - 1] != '\n' by {
      if e.data == "" { assert body[|body| - 1] == ' '; } else { assert body[|body| - 1] == e.data[|e.data| - 1]; }
    }
    GapAfterBody(body, rest);
    var s := Marshal(e) + rest;
    assert s == body + "\n\n" + rest;
    assert s[..|body|] == body && s[|body| + 2..] == rest;
    ReadBody(e);
  }

  lemma {:induction false} ReadComment(json: string -> bool, c: string, rest: string)
    requires OneLine(c) && |c| > 0 && c[0] == ':'
    ensures Read(json, c + "\n\n" + rest) == Read(json, rest)
    ensures Rest(c + "\n\n" + rest) == Rest(rest)
  {
    OneLineHasNoGap(c);
    GapAfterBody(c, rest);
    var s := c + "\n\n" + rest;
    assert s[..|c|] == c && s[|c| + 2..] == rest;
    SplitOneLine(c);
    assert ReadLine(c, Frame("message", "")) == Frame("message", "");
    assert ReadLines([c], Frame("message", "")) == ReadLines([], ReadLine(c, Frame("message", "")));
  }

  // ---------------------------------------------------------------------
  // Round trip
  // ---------------------------------------------------------------------

  /** One-line trimmed type, one-line trimmed non-empty payload that parses. */
  predicate Printable(json: string -> bool, e: Frame) {
    OneLine(e.kind) && Trimmed(e.kind) && OneLine(e.data) && Trimmed(e.data) && e.data != "" && json(e.data)
  }

  lemma {:induction false} ReadWire(json: string -> bool, items: seq<Item>)
    requires forall e | e in Frames(items) :: Printable(json, e)
    ensures Read(json, Wire(items)) == Frames(items) && Rest(Wire(items)) == ""
  {
    if items != [] {
      var rest := Wire(items[1..]);
      ReadWire(json, items[1..]);
      match items[0]
      case Send(e) =>
        assert e in Frames(items);
        TrimIsTrimmed(e.kind);
        TrimIsTrimmed(e.data);
        ReadMarshal(json, e, rest);
      case Heartbeat =>
        ReadComment(json, ": ping", rest);
        assert Wire(items) == ": ping" + "\n\n" + rest;
    }
  }

  lemma {:induction false} ReadStream(json: string -> bool, items: seq<Item>, stream: string)
    requires forall e | e in Frames(items) :: Printable(json, e)
    requires stream == CONNECTED + Wire(items)
    ensures Read(json, stream) == Frames(items) && Rest(stream) == ""
  {
    assert stream == ": connected" + "\n\n" + Wire(items);
    ReadComment(json, ": connected", Wire(items));
    ReadWire(json, items);
  }

  /**
   Round trip: however a server stream is cut into chunks, the client emits
   exactly the events sent, in order, and keeps nothing back.
   */
  lemma {:induction false} RoundTrip(json: string -> bool, items: seq<Item>, chunks: seq<string>)
    requires forall e | e in Frames(items) :: Printable(json, e)
    requires Flatten(chunks) == CONNECTED + Wire(items)
    ensures FeedAll(Callback(json), "", chunks) == Frames(items) && RestAll("", chunks) == ""
  {
    var stream := Flatten(chunks);
    ChunkingIrrelevant(Callback(json), "", chunks);
    LeftoverIgnoresChunking("", chunks);
    assert "" + stream == stream;
    ReadStream(json, items, stream);
  }

  ghost predicate CleanFrame(json: string -> bool, e: Frame) {
    OneLine(e.kind) && Trimmed(e.kind) && OneLine(e.data) && e.data != "" && json(e.data)
  }

  lemma {:induction false} SplitGivesLines(s: string)
    ensures forall l | l in Split(s) :: OneLine(l)
  {
    if s != "" {
      SplitGivesLines(s[1..]);
      var r := Split(s[1..]);
      assert r[0] in r && OneLine(r[0]);
      if s[0] != '\n' {
        assert OneLine([s[0]] + r[0]);
        forall l | l in Split(s) ensures OneLine(l) {
          assert l == [s[0]] + r[0] || l in r;
        }
      }
    }
  }

  lemma {:induction false} ReadLinesClean(lines: seq<string>, acc: Frame)
    requires forall l | l in lines :: OneLine(l)
    requires OneLine(acc.kind) && Trimmed(acc.kind) && OneLine(acc.data)
    ensures var f := ReadLines(lines, acc); OneLine(f.kind) && Trimmed(f.kind) && OneLine(f.data)
    decreases |lines|
  {
    if lines != [] {
      var l := lines[0];
      assert l in lines;
      if "event:" <= l { TrimIsTrimmed(l[6..]); }
      if "data:" <= l { TrimIsTrimmed(l[5..]); }
      ReadLinesClean(lines[1..], ReadLine(l, acc));
    }
  }

  lemma {:induction false} EmitClean(json: string -> bool, frame: string)
    ensures forall e | e in Emit(json, frame) :: CleanFrame(json, e)
  {
    SplitGivesLines(frame);
    ReadLinesClean(Split(frame), Frame("message", ""));
  }

  /** Whatever arrives, every emitted event is one line of type and one line of valid data. */
  lemma {:induction false} EmittedAreClean(json: string -> bool, buf: string)
    ensures forall e | e in Read(json, buf) :: CleanFrame(json, e)
    decreases |buf|
  {
    var i := FindGap(buf);
    if i >= 0 {
      EmittedAreClean(json, buf[i + 2..]);
      EmitClean(json, buf[..i]);
      assert Read(json, buf) == Callback(json)(buf[..i]) + Read(json, buf[i + 2..]);
    }
  }

  /** Printability is exactly what an event needs to survive the trip. */
  lemma {:induction false} SurvivesIffPrintable(json: string -> bool, e: Frame)
    ensures Read(json, Marshal(e)) == [e] <==> Printable(json, e)
  {
    TrimIsTrimmed(e.kind);
    TrimIsTrimmed(e.data);
    if Read(json, Marshal(e)) == [e] {
      EmittedAreClean(json, Marshal(e));
      assert e in Read(json, Marshal(e));
    }
    if OneLine(e.kind) && OneLine(e.data) {
      ReadMarshal(json, e, "");
      assert Marshal(e) + "" == Marshal(e);
    }
  }
}
