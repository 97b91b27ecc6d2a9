/**
 Bounded log tails: tailLogs of the adapter engine, which cuts a byte stream
 into lines as it arrives (internal/engine/adapter/adapter.go), and the hub's
 per-worker log (appendLog in internal/swarm/hub.go).
 */
module LogTail {

  import opened Base

  const TAIL := 50
  const WORKER_LOG_CAP := 20

  // ---------------------------------------------------------------------
  // Specification: the complete lines of a stream
  // ---------------------------------------------------------------------

  /** The lines completed while reading s, when `line` has been read of the current one. */
  function LinesFrom(line: string, s: string): seq<string>
    decreases |s|
  {
    if s == "" then []
    else if s[0] == '\n' then [line] + LinesFrom("", s[1..])
    else LinesFrom(line + [s[0]], s[1..])
  }

  /** What has then been read of the next line. */
  function PartialFrom(line: string, s: string): string
    decreases |s|
  {
    if s == "" then line
    else if s[0] == '\n' then PartialFrom("", s[1..])
    else PartialFrom(line + [s[0]], s[1..])
  }

  function CompleteLines(s: string): seq<string> { LinesFrom("", s) }

  function Unlines(lines: seq<string>): string {
    if lines == [] then "" else lines[0] + "\n" + Unlines(lines[1..])
  }

  predicate OneLine(s: string) { '\n' !in s }

  /** The complete lines and the partial one put together are the stream again, and none contains a newline. */
  lemma {:induction false} LinesRebuild(line: string, s: string)
    requires OneLine(line)
    ensures Unlines(LinesFrom(line, s)) + PartialFrom(line, s) == line + s
    ensures OneLine(PartialFrom(line, s)) && forall l | l in LinesFrom(line, s) :: OneLine(l)
    decreases |s|
  {
    if s == "" {
    } else if s[0] == '\n' {
      LinesRebuild("", s[1..]);
      var ls, rest := LinesFrom("", s[1..]), PartialFrom("", s[1..]);
      assert (line + "\n" + Unlines(ls)) + rest == line + "\n" + (Unlines(ls) + rest);
      assert ([line] + LinesFrom("", s[1..]))[1..] == LinesFrom("", s[1..]);
      assert line + s == line + "\n" + s[1..];
    } else {
      LinesRebuild(line + [s[0]], s[1..]);
      assert line + s == (line + [s[0]]) + s[1..];
    }
  }

  /** Nothing else takes a stream apart like that. */
  lemma {:induction false} LinesUnique(lines: seq<string>, rest: string, s: string)
    requires Unlines(lines) + rest == s
    requires OneLine(rest) && forall l | l in lines :: OneLine(l)
    ensures CompleteLines(s) == lines
    decreases |lines|
  {
    if lines == [] {
      NoLine("", rest);
      assert s == rest;
    } else {
      var l := lines[0];
      var more := Unlines(lines[1..]) + rest;
      assert l in lines && forall x | x in lines[1..] :: x in lines;
      assert s == l + ("\n" + more);
      FirstLine("", l, more);
      LinesUnique(lines[1..], rest, more);
      assert "" + l == l;
    }
  }

  lemma {:induction false} NoLine(line: string, s: string)
    requires OneLine(s)
    ensures LinesFrom(line, s) == []
    decreases |s|
  {
    if s != "" {
      NoLine(line + [s[0]], s[1..]);
    }
  }

  lemma {:induction false} FirstLine(line: string, l: string, more: string)
    requires OneLine(l)
    ensures LinesFrom(line, l + ("\n" + more)) == [line + l] + LinesFrom("", more)
    decreases |l|
  {
    var s := l + ("\n" + more);
    if l == "" {
      assert s[0] == '\n' && s[1..] == more && line + l == line;
    } else {
      assert s[0] == l[0] && l[0] in l && s[1..] == l[1..] + ("\n" + more);
      FirstLine(line + [l[0]], l[1..], more);
      assert line + l == (line + [l[0]]) + l[1..];
    }
  }

  // ---------------------------------------------------------------------
  // tailLogs
  // ---------------------------------------------------------------------

  class Engine {
    var logTail: seq<string>

    constructor ()
      ensures logTail == []
    {
      logTail := [];
    }

    /** The read loop over the child's output; `chunks` is what the pipe delivers, read by read. */
    method TailLogs(chunks: seq<string>)
      requires |logTail| <= TAIL
      modifies this
      ensures logTail == LastN(50, old(logTail) + CompleteLines(Flatten(chunks)))
    {
      var line := "";
      ghost var done := ""; // everything read so far
      ghost var start := logTail;
      var i := 0;
      while i < |chunks|
        invariant 0 <= i <= |chunks| && |logTail| <= TAIL
        invariant done + Flatten(chunks[i..]) == Flatten(chunks)
        invariant logTail == LastN(TAIL, start + CompleteLines(done)) && line == PartialFrom("", done)
      {
        assert chunks[i..][1..] == chunks[i + 1..];
        LinesConcat("", done, chunks[i]);
        LastNConcat(TAIL, start + CompleteLines(done), LinesFrom(line, chunks[i]));
        assert start + (CompleteLines(done) + LinesFrom(line, chunks[i])) == (start + CompleteLines(done)) + LinesFrom(line, chunks[i]);
        line := ReadChunk(chunks[i], line);
        done := done + chunks[i];
        i := i + 1;
      }
      assert done == Flatten(chunks);
    }

    /** The byte loop over one read. */
    method ReadChunk(buf: string, partial: string) returns (line: string)
      requires |logTail| <= TAIL
      modifies this
      ensures logTail == LastN(50, old(logTail) + LinesFrom(partial, buf))
      ensures line == PartialFrom(partial, buf)
    {
      line := partial;
      ghost var start := logTail;
      ghost var done: seq<string> := [];
      var n := 0;
      assert buf[0..] == buf;
      while n < |buf|
        invariant 0 <= n <= |buf|
        invariant logTail == LastN(TAIL, start + done)
        invariant done + LinesFrom(line, buf[n..]) == LinesFrom(partial, buf)
        invariant PartialFrom(line, buf[n..]) == PartialFrom(partial, buf)
      {
        assert buf[n..][1..] == buf[n + 1..];
        if buf[n] == '\n' {
          LastNSnoc(TAIL, start + done, line);
          assert start + (done + [line]) == (start + done) + [line];
          assert done + ([line] + LinesFrom("", buf[n + 1..])) == (done + [line]) + LinesFrom("", buf[n + 1..]);
          logTail := logTail + [line];
          if |logTail| > TAIL {
            logTail := logTail[|logTail| - TAIL..];
          }
          done := done + [line];
          line := "";
        } else {
          line := line + [buf[n]];
        }
        n := n + 1;
      }
    }
  }

  lemma {:induction false} LinesConcat(line: string, a: string, b: string)
    ensures LinesFrom(line, a + b) == LinesFrom(line, a) + LinesFrom(PartialFrom(line, a), b)
    ensures PartialFrom(line, a + b) == PartialFrom(PartialFrom(line, a), b)
    decreases |a|
  {
    if a == "" {
      assert a + b == b;
    } else {
      assert (a + b)[0] == a[0] && (a + b)[1..] == a[1..] + b;
      LinesConcat(if a[0] == '\n' then "" else line + [a[0]], a[1..], b);
    }
  }

  // ---------------------------------------------------------------------
  // The hub's worker logs
  // ---------------------------------------------------------------------

  datatype Line = Line(worker: Id, text: string)

  function LogOf(logs: map<Id, seq<string>>, w: Id): seq<string> {
    if w in logs then logs[w] else []
  }

  function Append(logs: map<Id, seq<string>>, l: Line): map<Id, seq<string>> {
    var all := LogOf(logs, l.worker) + [l.text];
    logs[l.worker := if |all| > WORKER_LOG_CAP then all[|all| - WORKER_LOG_CAP..] else all]
  }

  function AppendAll(logs: map<Id, seq<string>>, ls: seq<Line>): map<Id, seq<string>> {
    if ls == [] then logs else Append(AppendAll(logs, ls[..|ls| - 1]), ls[|ls| - 1])
  }

  function TextsOf(ls: seq<Line>, w: Id): seq<string> {
    if ls == [] then []
    else TextsOf(ls[..|ls| - 1], w) + (if ls[|ls| - 1].worker == w then [ls[|ls| - 1].text] else [])
  }

  /** After any interleaving of appends each worker's log is the tail of its own lines. */
  lemma {:induction false} WorkerLogIsTail(ls: seq<Line>, w: Id)
    ensures LogOf(AppendAll(map[], ls), w) == LastN(20, TextsOf(ls, w))
  {
    if ls != [] {
      var pre, l := ls[..|ls| - 1], ls[|ls| - 1];
      WorkerLogIsTail(pre, w);
      if l.worker == w {
        LastNSnoc(WORKER_LOG_CAP, TextsOf(pre, w), l.text);
      }
    }
  }

  class WorkerLogs {
    var logs: map<Id, seq<string>>

    method AppendLog(w: Id, text: string)
      modifies this
      ensures logs == Append(old(logs), Line(w, text))
      ensures LogOf(logs, w) == LastN(20, LogOf(old(logs), w) + [text])
      ensures forall v | v != w :: LogOf(logs, v) == LogOf(old(logs), v)
    {
      var l := if w in logs then logs[w] else [];
      l := l + [text];
      if |l| > WORKER_LOG_CAP {
        l := l[|l| - WORKER_LOG_CAP..];
      }
      logs := logs[w := l];
    }
  }
}
