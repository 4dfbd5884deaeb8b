/** The adapter that feeds the standard library's log output into a Logger
    (zstdlog/zstdlog.go: Options, newWriter and writer.Write): each line the
    standard logger writes is parsed back into an Entry and logged. */
module Zstdlog {
  import opened Wrappers
  import opened Numbers
  import opened Strs
  import opened Itoa
  import opened Levels
  import opened Flags
  import opened Format
  import opened Contexts
  import opened Sink
  import opened Loggers

  /** Options; a nil Context is None. */
  datatype Options = Options(context: Option<Context>, level: Level)

  /** The writer newWriter builds. */
  datatype StdWriter = StdWriter(ctx: Context, level: Level, dst: Logger)

  /** The standard logger's flags (date, time, microseconds, UTC, long file)
      as the Flags of this package's Writer that produce the same header. */
  const StdlogFlags: Flags := ShowDate | ShowTime | Microseconds | UTC | ShowFile

  /** The timestamp layout handed to time.Parse; it is 27 bytes long. */
  const Layout: string := "2006/01/02 15:04:05.999999 "

  /** The error exits of Write. */
  datatype ParseError = BadTime | NoSeparator | BadLine

  /** newWriter: background context and Info unless the options say
      otherwise; a nil Options leaves both defaults. */
  function NewWriter(dst: Logger, opts: Option<Options>): (w: StdWriter)
    ensures w.dst == dst
    ensures opts.None? ==> w.ctx == Background && w.level == Info
    ensures opts.Some? ==> w.level == opts.value.level
    ensures opts.Some? && opts.value.context.Some? ==> w.ctx == opts.value.context.value
    ensures opts.Some? && opts.value.context.None? ==> w.ctx == Background
  {
    var w := StdWriter(Background, Info, dst);
    if opts.None? then w
    else
      var w := if opts.value.context.Some? then w.(ctx := opts.value.context.value) else w;
      w.(level := opts.value.level)
  }

  // ---- The timestamp

  predicate IsLeap(year: nat) {
    year % 4 == 0 && (year % 100 != 0 || year % 400 == 0)
  }

  /** The number of days in a month of the Gregorian calendar. */
  function DaysIn(month: nat, year: nat): nat
    requires 1 <= month <= 12
  {
    if month == 2 then (if IsLeap(year) then 29 else 28)
    else if month in {4, 6, 9, 11} then 30
    else 31
  }

  /** The field ranges time.Parse enforces. */
  predicate InRange(c: Clock) {
    1 <= c.month <= 12 && 1 <= c.day <= DaysIn(c.month, c.year) &&
    c.hour < 24 && c.minute < 60 && c.second < 60
  }

  /** "YYYY/MM/DD ": the year, month and day, or None. */
  function ParseDate(s: string): Option<(nat, nat, nat)>
    requires |s| == 11
  {
    if AllDigits(s[..4]) && s[4] == '/' && AllDigits(s[5..7]) && s[7] == '/' && AllDigits(s[8..10]) && s[10] == ' '
    then Some((DecimalValue(s[..4]), DecimalValue(s[5..7]), DecimalValue(s[8..10])))
    else None
  }

  /** "HH:MM:SS": the hour, minute and second, or None. */
  function ParseHms(s: string): Option<(nat, nat, nat)>
    requires |s| == 8
  {
    if AllDigits(s[..2]) && s[2] == ':' && AllDigits(s[3..5]) && s[5] == ':' && AllDigits(s[6..8])
    then Some((DecimalValue(s[..2]), DecimalValue(s[3..5]), DecimalValue(s[6..8])))
    else None
  }

  /** "HH:MM:SS.uuuuuu ": the hour, minute, second and microseconds, or None. */
  function ParseClock(s: string): Option<(nat, nat, nat, nat)>
    requires |s| == 16
  {
    var hms := ParseHms(s[..8]);
    if hms.Some? && s[8] == '.' && AllDigits(s[9..15]) && s[15] == ' '
    then Some((hms.value.0, hms.value.1, hms.value.2, DecimalValue(s[9..15])))
    else None
  }

  /** time.Parse with the layout, on its fixed-width rendering: the instant in
      UTC, or None. */
  function ParseStamp(s: string): (r: Option<Clock>)
    requires |s| == |Layout|
    ensures r.Some? ==> InRange(r.value) && r.value.year < 10000 && r.value.nanosecond % 1000 == 0
  {
    var date := ParseDate(s[..11]);
    var clock := ParseClock(s[11..]);
    if date.None? || clock.None? then None
    else
      var (year, month, day) := date.value;
      var (hour, minute, second, micro) := clock.value;
      var c := Clock(year, month, day, hour, minute, second, micro * 1000);
      if InRange(c) && year < 10000 then Some(c) else None
  }

  // ---- The location and the whole line

  /** The file:line part: split at the last ':'; with none, the whole text is
      the file and the line is 0; a line that is not an int is an error; and
      the "???" placeholder becomes an empty file with line 0. */
  function ParseLocation(fileLine: string): Result<(string, Int64), ParseError> {
    var j := LastIndex(fileLine, ':');
    var parsed :=
      if j == -1 then Ok((fileLine, 0))
      else
        var n := Atoi(fileLine[j + 1..]);
        if n.None? then Err(BadLine) else Ok((fileLine[..j], n.value as Int64));
    if parsed.Err? then parsed
    else if parsed.value.0 == "???" then Ok(("", 0))
    else parsed
  }

  /** The Entry that Write builds from one line, given the writer's level and
      the conversion of a UTC instant to the local zone. */
  function ParseEntry(p: string, level: Level, localOf: Clock -> Clock): Result<Entry, ParseError>
    requires |p| >= |Layout|
  {
    var stamp := ParseStamp(p[..|Layout|]);
    if stamp.None? then Err(BadTime)
    else
      var rest := p[|Layout|..];
      var k := Index(rest, ": ");
      if k == -1 then Err(NoSeparator)
      else
        var loc := ParseLocation(rest[..k]);
        if loc.Err? then Err(loc.error)
        else
          var (file, line) := loc.value;
          Ok(Entry(TrimNewline(rest[k + 2..]), Instant(localOf(stamp.value), stamp.value), level, file, line))
  }

  /** What one Write call returns, and the calls it makes on the destination
      logger. */
  datatype WriteResult = WriteResult(n: int, err: Option<ParseError>, calls: seq<Call>)

  /** writer.Write: parse the line; on success log it once with the writer's
      context and report the whole line written, otherwise report the error,
      0 bytes, and log nothing. */
  function Write(w: StdWriter, p: string, localOf: Clock -> Clock): (r: WriteResult)
    requires |p| >= |Layout|
    ensures r.err.None? <==> ParseEntry(p, w.level, localOf).Ok?
    ensures r.err.None? ==> r.n == |p| && r.calls == Loggers.Log(w.dst, w.ctx, ParseEntry(p, w.level, localOf).value)
    ensures r.err.Some? ==> r.n == 0 && r.calls == [] && r.err.value == ParseEntry(p, w.level, localOf).error
  {
    var ent := ParseEntry(p, w.level, localOf);
    if ent.Err? then WriteResult(0, Some(ent.error), [])
    else WriteResult(|p|, None, Loggers.Log(w.dst, w.ctx, ent.value))
  }

  // ---- Round trip

  /** The text never holds ": ". */
  predicate FreeOfSeparator(s: string) {
    forall k :: 0 <= k < |s| - 1 ==> !(s[k] == ':' && s[k + 1] == ' ')
  }

  lemma HasSeparatorAt(s: string, k: int)
    ensures HasAt(s, ": ", k) <==> 0 <= k && k + 2 <= |s| && s[k] == ':' && s[k + 1] == ' '
  {
    if 0 <= k && k + 2 <= |s| && s[k] == ':' && s[k + 1] == ' ' {
      assert s[k..k + 2] == ": ";
    }
  }

  /** A timestamp rendered with four-digit year parses back to the instant,
      truncated to whole microseconds. */
  lemma StampRoundTrip(c: Clock)
    requires InRange(c) && c.year < 10000 && c.nanosecond < 1_000_000_000
    ensures |DateText(c) + ClockText(c, true)| == |Layout|
    ensures ParseStamp(DateText(c) + ClockText(c, true)) == Some(c.(nanosecond := c.nanosecond / 1000 * 1000))
  {
    DateTextLayout(c);
    ClockTextLayout(c);
    HmsTextLayout(c);
    var s := DateText(c) + ClockText(c, true);
    assert s[..11] == DateText(c);
    assert s[11..] == ClockText(c, true);
    assert ParseDate(DateText(c)) == Some((c.year, c.month, c.day));
    assert ParseHms(HmsText(c)) == Some((c.hour, c.minute, c.second));
    assert ParseClock(ClockText(c, true)) == Some((c.hour, c.minute, c.second, c.nanosecond / 1000));
  }

  /** The converse: a rendered timestamp whose fields are out of range, such
      as 2021/02/29 or 24:00:00, is rejected. */
  lemma StampRejects(c: Clock)
    requires !InRange(c) && c.year < 10000 && c.month < 100 && c.day < 100
    requires c.hour < 100 && c.minute < 100 && c.second < 100 && c.nanosecond < 1_000_000_000
    ensures |DateText(c) + ClockText(c, true)| == |Layout|
    ensures ParseStamp(DateText(c) + ClockText(c, true)) == None
  {
    DateTextLayout(c);
    ClockTextLayout(c);
    HmsTextLayout(c);
    var s := DateText(c) + ClockText(c, true);
    assert s[..11] == DateText(c);
    assert s[11..] == ClockText(c, true);
    assert ParseDate(DateText(c)) == Some((c.year, c.month, c.day));
    assert ParseHms(HmsText(c)) == Some((c.hour, c.minute, c.second));
  }

  /** A location without ':' is all file, at line 0. */
  lemma LocationWithoutLine(fileLine: string)
    requires forall k :: 0 <= k < |fileLine| ==> fileLine[k] != ':'
    ensures ParseLocation(fileLine) == if fileLine == "???" then Ok(("", 0)) else Ok((fileLine, 0))
  {
  }

  /** A location rendered as file:line parses back to the file and the line,
      the "???" placeholder to an empty file and line 0. */
  lemma LocationRoundTrip(file: string, line: Nat64)
    ensures ParseLocation(file + ":" + Digits(line)) == if file == "???" then Ok(("", 0)) else Ok((file, line))
  {
    var d := Digits(line);
    var s := file + ":" + d;
    assert s[|file|] == ':';
    forall k | |file| < k < |s|
      ensures s[k] != ':'
    {
      assert s[k] == d[k - |file| - 1];
      assert IsDigit(d[k - |file| - 1]);
    }
    assert LastIndex(s, ':') == |file|;
    assert s[..|file|] == file;
    assert s[|file| + 1..] == d;
    AtoiDigits(line);
  }

  /** The first ": " after a separator-free file and its line number is the
      one that ends the location. */
  lemma SeparatorAfterLocation(file: string, line: Nat64, tail: string)
    requires FreeOfSeparator(file)
    ensures var loc := file + ":" + Digits(line); var s := loc + ": " + tail;
      Index(s, ": ") == |loc| && s[..|loc|] == loc && s[|loc| + 2..] == tail
  {
    var d := Digits(line);
    var loc := file + ":" + d;
    var s := loc + ": " + tail;
    HasSeparatorAt(s, |loc|);
    forall k | 0 <= k < |loc|
      ensures !HasAt(s, ": ", k)
    {
      HasSeparatorAt(s, k);
      if k < |file| - 1 {
        assert s[k] == file[k] && s[k + 1] == file[k + 1];
      } else if k == |file| - 1 {
        assert s[k + 1] == ':';
      } else if k == |file| {
        assert s[k + 1] == d[0] && IsDigit(d[0]);
      } else {
        assert s[k] == d[k - |file| - 1] && IsDigit(d[k - |file| - 1]);
      }
    }
    var r := Index(s, ": ");
    assert r != -1;
    assert s[..|loc|] == loc;
    assert s[|loc| + 2..] == tail;
  }

  /** The header of the standard logger's flags: the UTC date and clock with
      microseconds, then the long file:line. */
  lemma StdlogHeader(t: Instant, level: Level, file: string, line: Int64)
    ensures Header(StdlogFlags, t, level, file, line) ==
      DateText(t.utc) + ClockText(t.utc, true) + (file + ":" + IntText(line, -1) + ": ")
  {
    var f := StdlogFlags;
    assert Has(f, UTC) && Has(f, ShowDate) && Has(f, ShowTime | Microseconds) && Has(f, Microseconds);
    assert Has(f, ShowDate | ShowTime | Microseconds);
    assert Has(f, ShowLevel | ShortFile | ShowFile) && !Has(f, ShowLevel) && !Has(f, ShortFile) && Has(f, ShortFile | ShowFile);
  }

  /** The entry a line of the standard logger's format round-trips to. */
  function Reparsed(e: Entry, level: Level, localOf: Clock -> Clock): Entry {
    var u := e.time.utc.(nanosecond := e.time.utc.nanosecond / 1000 * 1000);
    var (file, line) := if e.file == "" then ("", 0) else (e.file, e.line);
    Entry(TrimNewline(e.msg), Instant(localOf(u), u), level, file, line)
  }

  /** The line a Writer with the standard logger's flags and no prefix
      writes: the UTC timestamp, file:line and ": ", the message less one
      trailing newline, and a newline. */
  lemma StdlogLine(e: Entry, file: string, n: Nat64)
    requires Position(e) == (file, n as Int64)
    ensures LogLine("", StdlogFlags, e) ==
      (DateText(e.time.utc) + ClockText(e.time.utc, true)) + (file + ":" + Digits(n) + ": " + (TrimNewline(e.msg) + "\n"))
  {
    var h := Header(StdlogFlags, e.time, e.level, file, n as Int64);
    var loc := file + ":" + Digits(n) + ": ";
    assert h == (DateText(e.time.utc) + ClockText(e.time.utc, true)) + loc by {
      StdlogHeader(e.time, e.level, file, n as Int64);
      IntTextMeaning(n, -1);
    }
    var m := TrimNewline(e.msg);
    assert Render(e, StdlogFlags) == h + m;
    assert LogLine("", StdlogFlags, e) == "" + (h + m) + "\n";
    Regroup(DateText(e.time.utc) + ClockText(e.time.utc, true), loc, m);
  }

  lemma Regroup(stamp: string, loc: string, m: string)
    ensures (stamp + loc) + m + "\n" == stamp + (loc + (m + "\n"))
  {
  }

  /** A line in that format parses back to its parts; "???" stands for an
      empty file with line 0. */
  lemma ParseLine(c: Clock, file: string, n: Nat64, m: string, level: Level, localOf: Clock -> Clock)
    requires InRange(c) && c.year < 10000 && c.nanosecond < 1_000_000_000
    requires FreeOfSeparator(file)
    ensures var p := (DateText(c) + ClockText(c, true)) + (file + ":" + Digits(n) + ": " + (m + "\n"));
      var u := c.(nanosecond := c.nanosecond / 1000 * 1000);
      |p| >= |Layout| &&
      ParseEntry(p, level, localOf) ==
        Ok(Entry(m, Instant(localOf(u), u), level, if file == "???" then "" else file, if file == "???" then 0 else n))
  {
    var stamp := DateText(c) + ClockText(c, true);
    var loc := file + ":" + Digits(n);
    var rest := loc + ": " + (m + "\n");
    var p := stamp + rest;
    assert |stamp| == |Layout| && p[..|Layout|] == stamp && p[|Layout|..] == rest by {
      StampRoundTrip(c);
    }
    SeparatorAfterLocation(file, n, m + "\n");
    LocationRoundTrip(file, n);
    StampRoundTrip(c);
  }

  /** Round trip: the line a Writer with the standard logger's flags and no
      prefix writes for an entry parses back to the same message (less one
      trailing newline), file and line (an empty file coming back as itself,
      with line 0), and the UTC instant to the microsecond; the level is the
      adapter's. */
  lemma RoundTrip(e: Entry, level: Level, localOf: Clock -> Clock)
    requires InRange(e.time.utc) && e.time.utc.year < 10000 && e.time.utc.nanosecond < 1_000_000_000
    requires e.file != "???" && FreeOfSeparator(e.file) && e.line >= 0
    ensures |LogLine("", StdlogFlags, e)| >= |Layout|
    ensures ParseEntry(LogLine("", StdlogFlags, e), level, localOf) == Ok(Reparsed(e, level, localOf))
  {
    var (file, line) := Position(e);
    var n: Nat64 := line;
    assert FreeOfSeparator(file) by {
      if e.file == "" {
        assert file == "???";
      }
    }
    StdlogLine(e, file, n);
    ParseLine(e.time.utc, file, n, TrimNewline(e.msg), level, localOf);
  }

  /** Through a writer built by newWriter, that line reaches the
      destination once, as the round-tripped entry at the writer's level and
      with its context, and the whole line is reported written. */
  lemma AdapterRoundTrip(dst: Logger, opts: Option<Options>, e: Entry, localOf: Clock -> Clock)
    requires InRange(e.time.utc) && e.time.utc.year < 10000 && e.time.utc.nanosecond < 1_000_000_000
    requires e.file != "???" && FreeOfSeparator(e.file) && e.line >= 0
    ensures |LogLine("", StdlogFlags, e)| >= |Layout|
    ensures var p := LogLine("", StdlogFlags, e); var w := NewWriter(dst, opts);
      Write(w, p, localOf) == WriteResult(|p|, None, Loggers.Log(dst, w.ctx, Reparsed(e, w.level, localOf)))
  {
    RoundTrip(e, NewWriter(dst, opts).level, localOf);
  }

  /** The adapter's test cases, with a capturing destination: default
      options deliver the message at Info with the background context; an
      Error level option delivers it at Error; a context option delivers it
      with that context. */
  lemma AdapterTable(ctx: Context, e: Entry, localOf: Clock -> Clock)
    requires InRange(e.time.utc) && e.time.utc.year < 10000 && e.time.utc.nanosecond < 1_000_000_000
    requires e.file != "???" && FreeOfSeparator(e.file) && e.line >= 0
    requires e.msg == "Hello, World!"
    ensures |LogLine("", StdlogFlags, e)| >= |Layout|
    ensures var r := Write(NewWriter(Capture(1, true), None), LogLine("", StdlogFlags, e), localOf);
      |r.calls| == 1 && r.calls[0].Captured? && r.calls[0].ctx == Background &&
      r.calls[0].e.msg == e.msg && r.calls[0].e.level == Info && r.calls[0].e.file == e.file
    ensures var r := Write(NewWriter(Capture(1, true), Some(Options(None, Error))), LogLine("", StdlogFlags, e), localOf);
      |r.calls| == 1 && r.calls[0].Captured? && r.calls[0].e.msg == e.msg && r.calls[0].e.level == Error
    ensures var r := Write(NewWriter(Capture(1, true), Some(Options(Some(ctx), Info))), LogLine("", StdlogFlags, e), localOf);
      |r.calls| == 1 && r.calls[0].Captured? && r.calls[0].ctx == ctx && r.calls[0].e.msg == e.msg
  {
    assert TrimNewline(e.msg) == e.msg;
    AdapterRoundTrip(Capture(1, true), None, e, localOf);
    AdapterRoundTrip(Capture(1, true), Some(Options(None, Error)), e, localOf);
    AdapterRoundTrip(Capture(1, true), Some(Options(Some(ctx), Info)), e, localOf);
  }
}
