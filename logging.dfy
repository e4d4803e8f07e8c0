// The queued logger: records, the two line formats, and the producer and consumer sides.

module Logging {
  import opened Levels
  import opened Text
  import opened Messages

  /** An instant as read from the clock; only the time formatter looks inside it. */
  type Time = int

  /** One queued record: when it was logged, its level and its trimmed text. */
  datatype LogMsg = LogMsg(timestamp: Time, level: LogLevel, text: string)

  /** The logger's settings that shape its output. */
  datatype Settings = Settings(level: LogLevel, prefix: string, timeFormat: string)

  /** Which of the logger's two outputs a given writer is bound to (both when they are the same writer). */
  datatype Route = Route(console: bool, file: bool)

  /** The console line: prefix, time stamp, level colour, bracketed level name, reset code, text. */
  function ConsoleLine(prefix: string, stamp: string, t: LogLevel, text: string): string {
    "[" + prefix + "] " + stamp + ": " + Colour(t) + " [" + LevelName(t) + "] " + Reset + " " + text + "\n"
  }

  /** The file line: the same fields without any colour code. */
  function FileLine(prefix: string, stamp: string, t: LogLevel, text: string): string {
    "[" + prefix + "] " + stamp + ": [" + LevelName(t) + "] " + text + "\n"
  }

  lemma {:induction false} NoEscape(s: string)
    requires forall i :: 0 <= i < |s| ==> s[i] != Esc
    ensures Count(Esc, s) == 0
  {
  }

  lemma {:induction false} CodeHasOneEscape(c: string)
    requires IsCode(c)
    ensures Count(Esc, c) == 1
  {
  }

  /** The file line adds no escape character to those in the prefix, stamp and text. */
  lemma {:induction false} FileLineEscapes(prefix: string, stamp: string, t: LogLevel, text: string)
    ensures Count(Esc, FileLine(prefix, stamp, t, text))
         == Count(Esc, prefix) + Count(Esc, stamp) + Count(Esc, text)
  {
    var name := LevelName(t);
    NoEscape(name);
    NoEscape("[");
    NoEscape("] ");
    NoEscape(": [");
    NoEscape("\n");
    var a := "[" + prefix;
    var b := a + "] ";
    var c := b + stamp;
    var d := c + ": [";
    var e := d + name;
    var f := e + "] ";
    var g := f + text;
    CountAppend(Esc, "[", prefix);
    CountAppend(Esc, a, "] ");
    CountAppend(Esc, b, stamp);
    CountAppend(Esc, c, ": [");
    CountAppend(Esc, d, name);
    CountAppend(Esc, e, "] ");
    CountAppend(Esc, f, text);
    CountAppend(Esc, g, "\n");
  }

  /** The console line adds exactly two escape characters: the colour code and the reset code. */
  lemma {:induction false} ConsoleLineEscapes(prefix: string, stamp: string, t: LogLevel, text: string)
    ensures Count(Esc, ConsoleLine(prefix, stamp, t, text))
         == Count(Esc, prefix) + Count(Esc, stamp) + Count(Esc, text) + 2
  {
    var name := LevelName(t);
    var colour := Colour(t);
    NoEscape(name);
    NoEscape("[");
    NoEscape("] ");
    NoEscape(": ");
    NoEscape(" [");
    NoEscape(" ");
    NoEscape("\n");
    CodeHasOneEscape(colour);
    CodeHasOneEscape(Reset);
    var a := "[" + prefix;
    var b := a + "] ";
    var c := b + stamp;
    var d := c + ": ";
    var e := d + colour;
    var f := e + " [";
    var g := f + name;
    var h := g + "] ";
    var i := h + Reset;
    var j := i + " ";
    var k := j + text;
    CountAppend(Esc, "[", prefix);
    CountAppend(Esc, a, "] ");
    CountAppend(Esc, b, stamp);
    CountAppend(Esc, c, ": ");
    CountAppend(Esc, d, colour);
    CountAppend(Esc, e, " [");
    CountAppend(Esc, f, name);
    CountAppend(Esc, g, "] ");
    CountAppend(Esc, h, Reset);
    CountAppend(Esc, i, " ");
    CountAppend(Esc, j, text);
    CountAppend(Esc, k, "\n");
  }

  /** For the same record, the console line carries exactly two escape characters more than the file line. */
  lemma {:induction false} EscapesOnlyOnConsole(prefix: string, stamp: string, t: LogLevel, text: string)
    ensures Count(Esc, ConsoleLine(prefix, stamp, t, text))
         == Count(Esc, FileLine(prefix, stamp, t, text)) + 2
  {
    FileLineEscapes(prefix, stamp, t, text);
    ConsoleLineEscapes(prefix, stamp, t, text);
  }

  /** The lines one writer receives for record `p`, given the formatted time stamp. */
  function Render(p: LogMsg, cfg: Settings, stamp: string, route: Route): seq<string> {
    if Admits(cfg.level, p.level) then
      (if route.console then [ConsoleLine(cfg.prefix, stamp, p.level, p.text)] else [])
      + (if route.file then [FileLine(cfg.prefix, stamp, p.level, p.text)] else [])
    else
      []
  }

  /** The lines one writer receives while the consumer works through the records `q` in order. */
  function RenderAll(q: seq<LogMsg>, cfg: Settings, format: (Time, string) -> string, route: Route): seq<string> {
    if q == [] then []
    else Render(q[0], cfg, format(q[0].timestamp, cfg.timeFormat), route) + RenderAll(q[1..], cfg, format, route)
  }

  /** Reference definition: the records that pass the minimum level, in queue order. */
  function Admitted(q: seq<LogMsg>, min: LogLevel): seq<LogMsg> {
    if q == [] then []
    else (if Admits(min, q[0].level) then [q[0]] else []) + Admitted(q[1..], min)
  }

  /** Processing two batches one after the other writes the first batch's lines, then the second's. */
  lemma {:induction false} RenderAllAppend(q1: seq<LogMsg>, q2: seq<LogMsg>, cfg: Settings,
                                           format: (Time, string) -> string, route: Route)
    ensures RenderAll(q1 + q2, cfg, format, route)
         == RenderAll(q1, cfg, format, route) + RenderAll(q2, cfg, format, route)
    decreases |q1|
  {
    if q1 == [] {
      assert q1 + q2 == q2;
    } else {
      assert (q1 + q2)[1..] == q1[1..] + q2;
      RenderAllAppend(q1[1..], q2, cfg, format, route);
    }
  }

  /** Handling one more record extends a writer's output by that record's lines. */
  lemma {:induction false} RenderAllSnoc(q: seq<LogMsg>, i: nat, cfg: Settings,
                                         format: (Time, string) -> string, route: Route)
    requires i < |q|
    ensures RenderAll(q[..i + 1], cfg, format, route)
         == RenderAll(q[..i], cfg, format, route) + Render(q[i], cfg, format(q[i].timestamp, cfg.timeFormat), route)
  {
    assert q[..i + 1] == q[..i] + [q[i]];
    RenderAllAppend(q[..i], [q[i]], cfg, format, route);
  }

  /** A writer that has received the lines of the first `i` records receives those of record `i` next. */
  lemma {:induction false} ExtendOutput(lines: seq<string>, start: seq<string>, q: seq<LogMsg>, i: nat,
                                        cfg: Settings, format: (Time, string) -> string, route: Route)
    requires i < |q|
    requires lines == start + RenderAll(q[..i], cfg, format, route)
    ensures lines + Render(q[i], cfg, format(q[i].timestamp, cfg.timeFormat), route)
         == start + RenderAll(q[..i + 1], cfg, format, route)
  {
    RenderAllSnoc(q, i, cfg, format, route);
  }

  /** A writer receives exactly the lines of the admitted records, in queue order. */
  lemma {:induction false} RenderAllFilters(q: seq<LogMsg>, cfg: Settings, format: (Time, string) -> string, route: Route)
    ensures RenderAll(q, cfg, format, route) == RenderAll(Admitted(q, cfg.level), cfg, format, route)
    decreases |q|
  {
    if q != [] {
      RenderAllFilters(q[1..], cfg, format, route);
      var head := if Admits(cfg.level, q[0].level) then [q[0]] else [];
      RenderAllAppend(head, Admitted(q[1..], cfg.level), cfg, format, route);
    }
  }

  function Outputs(route: Route): nat {
    (if route.console then 1 else 0) + (if route.file then 1 else 0)
  }

  /** A writer gets one line per admitted record and per output it is bound to, and nothing else. */
  lemma {:induction false} RenderAllCount(q: seq<LogMsg>, cfg: Settings, format: (Time, string) -> string, route: Route)
    ensures |RenderAll(q, cfg, format, route)| == |Admitted(q, cfg.level)| * Outputs(route)
    decreases |q|
  {
    if q != [] {
      RenderAllCount(q[1..], cfg, format, route);
    }
  }

  /** A writer bound to an output stays silent exactly when every record is below the minimum level. */
  lemma {:induction false} RenderAllSilent(q: seq<LogMsg>, cfg: Settings, format: (Time, string) -> string, route: Route)
    requires route.console || route.file
    ensures RenderAll(q, cfg, format, route) == [] <==> forall k :: 0 <= k < |q| ==> q[k].level < cfg.level
  {
    RenderAllCount(q, cfg, format, route);
    AdmittedEmpty(q, cfg.level);
  }

  lemma {:induction false} AdmittedEmpty(q: seq<LogMsg>, min: LogLevel)
    ensures Admitted(q, min) == [] <==> forall k :: 0 <= k < |q| ==> q[k].level < min
    decreases |q|
  {
    if q != [] {
      AdmittedEmpty(q[1..], min);
      assert forall k :: 1 <= k < |q| ==> q[1..][k - 1] == q[k];
    }
  }

  /** Minimum level All passes every record at a named level; minimum level None stops every record up to Fatal. */
  lemma {:induction false} AllAndNoneFilter(q: seq<LogMsg>)
    ensures (forall k :: 0 <= k < |q| ==> q[k].level >= LevelAll) ==> Admitted(q, LevelAll) == q
    ensures (forall k :: 0 <= k < |q| ==> q[k].level <= LevelFatal) ==> Admitted(q, LevelNone) == []
    decreases |q|
  {
    if q != [] {
      AllAndNoneFilter(q[1..]);
      assert q == [q[0]] + q[1..];
      assert forall k :: 1 <= k < |q| ==> q[1..][k - 1] == q[k];
    }
  }

  /** An output writer: the lines written to it so far. */
  class Sink {
    var Lines: seq<string>

    constructor ()
      ensures Lines == []
    {
      Lines := [];
    }
  }

  const DefaultTimeFormat: string := "2006-01-02 15:04:05"
  const DefaultPrefix: string := "lightlog"
  const DefaultLevel: LogLevel := LevelInfo

  /** A logger: its settings, its two optional writers and the queue between producers and the consumer. */
  class Logger {
    var Level: LogLevel
    var ConsoleOut: Sink?
    var FileOut: Sink?
    var queue: seq<LogMsg>
    var Prefix: string
    var TimeFormat: string

    function Current(): Settings
      reads this
    {
      Settings(Level, Prefix, TimeFormat)
    }

    /** The outputs writer `s` is bound to. */
    function RouteOf(s: Sink?): Route
      reads this
    {
      Route(ConsoleOut == s, FileOut == s)
    }

    /** NewLogger: level Info, console to standard output, no file writer, empty queue. */
    constructor (stdout: Sink?)
      ensures Level == DefaultLevel && Prefix == DefaultPrefix && TimeFormat == DefaultTimeFormat
      ensures ConsoleOut == stdout && FileOut == null
      ensures queue == []
    {
      Level := DefaultLevel;
      ConsoleOut := stdout;
      FileOut := null;
      queue := [];
      Prefix := DefaultPrefix;
      TimeFormat := DefaultTimeFormat;
    }

    /** Log: with at least one part, enqueue one record at level `l` stamped `now`; otherwise do nothing. */
    method Log(l: LogLevel, e: seq<string>, now: Time)
      modifies this`queue
      ensures queue == old(queue) + (if |e| > 0 then [LogMsg(now, l, Message(e))] else [])
    {
      if |e| > 0 {
        var text := Compose(e);
        queue := queue + [LogMsg(now, l, text)];
      }
    }

    method Debug(e: seq<string>, now: Time)
      modifies this`queue
      ensures queue == old(queue) + (if |e| > 0 then [LogMsg(now, LevelDebug, Message(e))] else [])
    {
      Log(LevelDebug, e, now);
    }

    method Info(e: seq<string>, now: Time)
      modifies this`queue
      ensures queue == old(queue) + (if |e| > 0 then [LogMsg(now, LevelInfo, Message(e))] else [])
    {
      Log(LevelInfo, e, now);
    }

    method Warn(e: seq<string>, now: Time)
      modifies this`queue
      ensures queue == old(queue) + (if |e| > 0 then [LogMsg(now, LevelWarning, Message(e))] else [])
    {
      Log(LevelWarning, e, now);
    }

    method Error(e: seq<string>, now: Time)
      modifies this`queue
      ensures queue == old(queue) + (if |e| > 0 then [LogMsg(now, LevelError, Message(e))] else [])
    {
      Log(LevelError, e, now);
    }

    method Fatal(e: seq<string>, now: Time)
      modifies this`queue
      ensures queue == old(queue) + (if |e| > 0 then [LogMsg(now, LevelFatal, Message(e))] else [])
    {
      Log(LevelFatal, e, now);
    }

    /**
     * One turn of the consumer loop: take the head record; if it passes the minimum level,
     * write the coloured line to the console writer and the plain line to the file writer,
     * skipping a writer that is null.
     */
    method Consume(format: (Time, string) -> string)
      requires queue != []
      modifies this`queue, ConsoleOut, FileOut
      ensures queue == old(queue)[1..]
      ensures ConsoleOut != null ==> (ConsoleOut.Lines == old(ConsoleOut.Lines)
        + Render(old(queue)[0], Current(), format(old(queue)[0].timestamp, TimeFormat), RouteOf(ConsoleOut)))
      ensures FileOut != null ==> (FileOut.Lines == old(FileOut.Lines)
        + Render(old(queue)[0], Current(), format(old(queue)[0].timestamp, TimeFormat), RouteOf(FileOut)))
    {
      var p := queue[0];
      queue := queue[1..];
      if p.level >= Level {
        var stamp := format(p.timestamp, TimeFormat);
        if ConsoleOut != null {
          ConsoleOut.Lines := ConsoleOut.Lines + [ConsoleLine(Prefix, stamp, p.level, p.text)];
        }
        if FileOut != null {
          FileOut.Lines := FileOut.Lines + [FileLine(Prefix, stamp, p.level, p.text)];
        }
      }
    }

    /** The consumer loop, run until the queue is empty: every record is handled in enqueue order. */
    method LogWriter(format: (Time, string) -> string)
      modifies this`queue, ConsoleOut, FileOut
      ensures queue == []
      ensures ConsoleOut != null ==> (ConsoleOut.Lines == old(ConsoleOut.Lines)
        + RenderAll(old(queue), Current(), format, RouteOf(ConsoleOut)))
      ensures FileOut != null ==> (FileOut.Lines == old(FileOut.Lines)
        + RenderAll(old(queue), Current(), format, RouteOf(FileOut)))
    {
      ghost var q0, cfg := queue, Current();
      ghost var toConsole, toFile := RouteOf(ConsoleOut), RouteOf(FileOut);
      ghost var console0 := if ConsoleOut != null then ConsoleOut.Lines else [];
      ghost var file0 := if FileOut != null then FileOut.Lines else [];
      ghost var i := 0;
      while queue != []
        invariant i <= |q0| && queue == q0[i..]
        invariant ConsoleOut != null ==> ConsoleOut.Lines == console0 + RenderAll(q0[..i], cfg, format, toConsole)
        invariant FileOut != null ==> FileOut.Lines == file0 + RenderAll(q0[..i], cfg, format, toFile)
        decreases |queue|
      {
        ghost var consoleBefore := if ConsoleOut != null then ConsoleOut.Lines else [];
        ghost var fileBefore := if FileOut != null then FileOut.Lines else [];
        assert queue[0] == q0[i];
        Consume(format);
        if ConsoleOut != null {
          ExtendOutput(consoleBefore, console0, q0, i, cfg, format, toConsole);
        }
        if FileOut != null {
          ExtendOutput(fileBefore, file0, q0, i, cfg, format, toFile);
        }
        i := i + 1;
      }
      assert q0[..i] == q0;
    }
  }
}
