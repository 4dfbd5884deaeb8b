/** The text of a log entry (log.go: Entry, Entry.Append, formatHeader and
    the short-file search). Timestamps arrive already broken down. */
module Format {
  import opened Wrappers
  import opened Numbers
  import opened Strs
  import opened Itoa
  import opened Levels
  import opened Flags

  /** The calendar and clock fields of a time.Time in one time zone
      (t.Date(), t.Clock() and t.Nanosecond()). */
  datatype Clock = Clock(year: nat, month: nat, day: nat, hour: nat, minute: nat, second: nat, nanosecond: nat)

  /** A time.Time seen in its own location and in UTC (t as given, and
      t.UTC()). */
  datatype Instant = Instant(zoned: Clock, utc: Clock)

  /** Entry: a single log record; `file` and `line` are the caller's
      position as runtime.Caller reports it. */
  datatype Entry = Entry(msg: string, time: Instant, level: Level, file: string, line: Int64)

  /** `flag & bits != 0`: some bit of `bits` is set in `flag`. */
  predicate Has(flag: Flags, bits: Flags) {
    flag & bits != 0
  }

  // ---- Pieces of the header

  /** "YYYY/MM/DD ", each field zero-padded. */
  function DateText(c: Clock): string {
    IntText(c.year, 4) + "/" + IntText(c.month, 2) + "/" + IntText(c.day, 2) + " "
  }

  /** "HH:MM:SS", then ".uuuuuu" (nanoseconds / 1000, truncated) when
      `micro`, then " ". */
  function ClockText(c: Clock, micro: bool): string {
    HmsText(c) + (if micro then "." + IntText(c.nanosecond / 1000, 6) else "") + " "
  }

  /** "HH:MM:SS", each field zero-padded. */
  function HmsText(c: Clock): string {
    IntText(c.hour, 2) + ":" + IntText(c.minute, 2) + ":" + IntText(c.second, 2)
  }

  /** The short-file name: the text after the last '/' found at an index of
      at least 1, or the whole name when there is none. */
  function ShortName(file: string): (r: string)
    ensures (r == file && forall k :: 1 <= k < |file| ==> file[k] != '/') ||
            exists k :: 1 <= k < |file| && file[k] == '/' && r == file[k + 1..] &&
                        forall j :: k < j < |file| ==> file[j] != '/'
  {
    var k := LastIndex(file, '/');
    if k >= 1 then file[k + 1..] else file
  }

  /** The short-file loop of formatHeader: scan backwards from the last
      byte down to index 1 and cut after the first '/' met. */
  method CutShortName(file: string) returns (short: string)
    ensures short == ShortName(file)
  {
    short := file;
    var i := |file| - 1;
    while i > 0
      invariant -1 <= i < |file|
      invariant short == file
      invariant forall k :: i < k < |file| ==> file[k] != '/'
    {
      if file[i] == '/' {
        short := file[i + 1..];
        break;
      }
      i := i - 1;
    }
  }

  /** The location segment: level name and/or file:line, then ": ". */
  function LocationText(flag: Flags, level: Level, file: string, line: Int64): string {
    if !Has(flag, ShowLevel | ShortFile | ShowFile) then ""
    else
      var f := if Has(flag, ShortFile) then ShortName(file) else file;
      var body :=
        if Has(flag, ShowLevel) && !Has(flag, ShortFile | ShowFile) then EntryLevel(level)
        else if !Has(flag, ShowLevel) && Has(flag, ShortFile | ShowFile) then f + ":" + IntText(line, -1)
        else EntryLevel(level) + " " + f + ":" + IntText(line, -1);
      body + ": "
  }

  /** formatHeader: the date, the clock (of the UTC view when UTC is set)
      and the location, each only when its flags ask for it. */
  function Header(flag: Flags, t: Instant, level: Level, file: string, line: Int64): string {
    var c := if Has(flag, UTC) then t.utc else t.zoned;
    var date := if Has(flag, ShowDate) then DateText(c) else "";
    var clock := if Has(flag, ShowTime | Microseconds) then ClockText(c, Has(flag, Microseconds)) else "";
    (if Has(flag, ShowDate | ShowTime | Microseconds) then date + clock else "") +
    LocationText(flag, level, file, line)
  }

  /** The message trimming of Entry.Append as written: the condition
      `n == 0 || s[n-1] == '\n'` slices `s[:n-1]` for the empty message,
      which is out of range and panics (None). */
  function StripNewlineAsWritten(msg: string): Option<string> {
    var n := |msg|;
    if n == 0 || msg[n - 1] == '\n' then
      if n - 1 < 0 then None else Some(msg[..n - 1])
    else Some(msg)
  }

  /** The file and line the header shows: "???" and 0 for an unknown file. */
  function Position(ent: Entry): (string, Int64) {
    if ent.file == "" then ("???", 0) else (ent.file, ent.line)
  }

  /** The text Entry.Append adds: the header, with "???" and line 0 standing
      for an unknown file, then the message less one trailing newline. */
  function Render(ent: Entry, flag: Flags): string {
    var (file, line) := Position(ent);
    Header(flag, ent.time, ent.level, file, line) + TrimNewline(ent.msg)
  }

  /** Entry.Append: the buffer followed by the rendered entry. */
  function Append(buf: string, ent: Entry, flag: Flags): (r: string)
    ensures |buf| <= |r| && r[..|buf|] == buf
  {
    buf + Render(ent, flag)
  }

  /** Entry.Append as written, where an empty message panics (None). */
  function AppendAsWritten(buf: string, ent: Entry, flag: Flags): Option<string> {
    var (file, line) := Position(ent);
    var s := StripNewlineAsWritten(ent.msg);
    if s.None? then None else Some(buf + Header(flag, ent.time, ent.level, file, line) + s.value)
  }

  // ---- Properties

  /** As written, only the empty message panics; for every other message the
      written and the intended trimming agree. */
  lemma AppendAsWrittenPanics(buf: string, ent: Entry, flag: Flags)
    ensures AppendAsWritten(buf, ent, flag).None? <==> ent.msg == ""
    ensures ent.msg != "" ==> AppendAsWritten(buf, ent, flag) == Some(Append(buf, ent, flag))
  {
    if ent.msg != "" {
      var (file, line) := Position(ent);
      var h := Header(flag, ent.time, ent.level, file, line);
      assert StripNewlineAsWritten(ent.msg) == Some(TrimNewline(ent.msg));
      assert buf + h + TrimNewline(ent.msg) == buf + (h + TrimNewline(ent.msg));
    }
  }

  /** Exactly one trailing newline is removed: "x\n" renders like "x", but
      "x\n\n" keeps a newline, so the appended text can end in one. */
  lemma StripOneNewline(x: string)
    ensures TrimNewline(x + "\n") == x
    ensures TrimNewline(x + "\n\n") == x + "\n"
    ensures |x| > 0 && x[|x| - 1] != '\n' ==> TrimNewline(x) == x
  {
    assert (x + "\n\n")[..|x| + 1] == x + "\n";
  }

  /** What Append adds never depends on what the buffer held. */
  lemma AppendIgnoresBuffer(buf: string, ent: Entry, flag: Flags)
    ensures Append(buf, ent, flag) == buf + Append("", ent, flag)
  {
    assert "" + Render(ent, flag) == Render(ent, flag);
  }

  /** With no flags there is no header: Append adds the trimmed message. */
  lemma AppendNoFlags(buf: string, ent: Entry)
    ensures Append(buf, ent, 0) == buf + TrimNewline(ent.msg)
  {
    var (file, line) := Position(ent);
    assert Header(0, ent.time, ent.level, file, line) == "";
  }

  /** An entry with no file renders its location as "???" with line 0. */
  lemma AppendUnknownFile(buf: string, ent: Entry, flag: Flags)
    requires ent.file == ""
    ensures Append(buf, ent, flag) == Append(buf, ent.(file := "???", line := 0), flag)
    ensures Has(flag, ShowFile) && !Has(flag, ShowLevel | ShortFile) ==>
      LocationText(flag, ent.level, "???", 0) == "???:0: "
  {
    if Has(flag, ShowFile) && !Has(flag, ShowLevel | ShortFile) {
      assert Has(flag, ShowLevel | ShortFile | ShowFile) by {
        assert flag & ShowFile != 0;
      }
      assert Has(flag, ShortFile | ShowFile);
      assert !Has(flag, ShowLevel) && !Has(flag, ShortFile);
      assert IntText(0, -1) == "0";
    }
  }

  /** The short name is the whole name or a suffix after a '/', and holds no
      '/' in the second case. */
  lemma ShortNameSuffix(file: string)
    ensures var r := ShortName(file);
      |r| <= |file| && r == file[|file| - |r|..]
    ensures var r := ShortName(file);
      r != file ==> forall j :: 0 <= j < |r| ==> r[j] != '/'
  {
    var r := ShortName(file);
    var k := LastIndex(file, '/');
    if k >= 1 {
      forall j | 0 <= j < |r|
        ensures r[j] != '/'
      {
        assert r[j] == file[k + 1 + j];
      }
    }
  }

  /** A date with four-digit year and two-digit month and day is eleven
      bytes: digits with '/' at 4 and 7 and a space at 10, whose digit
      groups read back as the fields. */
  lemma DateTextLayout(c: Clock)
    requires c.year < 10000 && c.month < 100 && c.day < 100
    ensures var s := DateText(c);
      |s| == 11 && s[4] == '/' && s[7] == '/' && s[10] == ' ' &&
      AllDigits(s[..4]) && DecimalValue(s[..4]) == c.year &&
      AllDigits(s[5..7]) && DecimalValue(s[5..7]) == c.month &&
      AllDigits(s[8..10]) && DecimalValue(s[8..10]) == c.day
  {
    assert Pow10(2) == 100 && Pow10(4) == 10000;
    var y, m, d := IntText(c.year, 4), IntText(c.month, 2), IntText(c.day, 2);
    IntTextFixedWidth(c.year, 4);
    IntTextFixedWidth(c.month, 2);
    IntTextFixedWidth(c.day, 2);
    var s := DateText(c);
    assert s[..4] == y by {
      assert forall k :: 0 <= k < 4 ==> s[k] == y[k];
    }
    assert s[5..7] == m by {
      assert s[5] == m[0] && s[6] == m[1];
    }
    assert s[8..10] == d by {
      assert s[8] == d[0] && s[9] == d[1];
    }
  }

  /** "HH:MM:SS" of two-digit fields is eight bytes whose digit groups read
      back as the fields. */
  lemma HmsTextLayout(c: Clock)
    requires c.hour < 100 && c.minute < 100 && c.second < 100
    ensures var s := HmsText(c);
      |s| == 8 && s[2] == ':' && s[5] == ':' &&
      AllDigits(s[..2]) && DecimalValue(s[..2]) == c.hour &&
      AllDigits(s[3..5]) && DecimalValue(s[3..5]) == c.minute &&
      AllDigits(s[6..8]) && DecimalValue(s[6..8]) == c.second
  {
    assert Pow10(2) == 100;
    var h, m, sec := IntText(c.hour, 2), IntText(c.minute, 2), IntText(c.second, 2);
    IntTextFixedWidth(c.hour, 2);
    IntTextFixedWidth(c.minute, 2);
    IntTextFixedWidth(c.second, 2);
    var s := HmsText(c);
    assert s[..2] == h by {
      assert s[0] == h[0] && s[1] == h[1];
    }
    assert s[3..5] == m by {
      assert s[3] == m[0] && s[4] == m[1];
    }
    assert s[6..8] == sec by {
      assert s[6] == sec[0] && s[7] == sec[1];
    }
  }

  /** A clock with microseconds is sixteen bytes "HH:MM:SS.uuuuuu " whose
      digit groups read back as the fields, the last as whole microseconds. */
  lemma ClockTextLayout(c: Clock)
    requires c.hour < 100 && c.minute < 100 && c.second < 100 && c.nanosecond < 1_000_000_000
    ensures var s := ClockText(c, true);
      |s| == 16 && s[..8] == HmsText(c) && s[8] == '.' && s[15] == ' ' &&
      AllDigits(s[9..15]) && DecimalValue(s[9..15]) == c.nanosecond / 1000
  {
    assert Pow10(6) == 1000000;
    var u := IntText(c.nanosecond / 1000, 6);
    IntTextFixedWidth(c.nanosecond / 1000, 6);
    HmsTextLayout(c);
    var hms := HmsText(c);
    var s := ClockText(c, true);
    assert s == hms + ("." + u) + " ";
    assert s[..8] == hms;
    assert s[9..15] == u by {
      assert forall k :: 0 <= k < 6 ==> s[9 + k] == u[k];
    }
  }

  /** Microseconds alone still prints the clock, with its fraction. */
  lemma MicrosecondsAloneShowsClock(t: Instant, level: Level, file: string, line: Int64)
    ensures Header(Microseconds, t, level, file, line) == ClockText(t.zoned, true)
  {
    assert !Has(Microseconds, ShowDate) && Has(Microseconds, ShowTime | Microseconds);
    assert !Has(Microseconds, ShowLevel | ShortFile | ShowFile) && !Has(Microseconds, UTC);
  }

  /** The location segment in each of its three shapes, for every
      combination of the level, short-file and long-file bits (the short file
      overrides the long one). */
  lemma LocationShapes(flag: Flags, level: Level, file: string, line: Int64)
    ensures !Has(flag, ShowLevel | ShortFile | ShowFile) <==> LocationText(flag, level, file, line) == ""
    ensures flag & (ShowLevel | ShortFile | ShowFile) == ShowLevel ==>
      LocationText(flag, level, file, line) == EntryLevel(level) + ": "
    ensures flag & (ShowLevel | ShortFile | ShowFile) == ShowFile ==>
      LocationText(flag, level, file, line) == file + ":" + IntText(line, -1) + ": "
    ensures flag & (ShowLevel | ShortFile | ShowFile) == ShortFile ==>
      LocationText(flag, level, file, line) == ShortName(file) + ":" + IntText(line, -1) + ": "
    ensures flag & (ShowLevel | ShortFile | ShowFile) == ShortFile | ShowFile ==>
      LocationText(flag, level, file, line) == ShortName(file) + ":" + IntText(line, -1) + ": "
    ensures flag & (ShowLevel | ShortFile | ShowFile) == ShowLevel | ShowFile ==>
      LocationText(flag, level, file, line) == EntryLevel(level) + " " + file + ":" + IntText(line, -1) + ": "
    ensures flag & (ShowLevel | ShortFile) == ShowLevel | ShortFile ==>
      LocationText(flag, level, file, line) == EntryLevel(level) + " " + ShortName(file) + ":" + IntText(line, -1) + ": "
  {
  }

  /** The timestamp of writer_test.go's table: 2017-02-17 01:02:03.456789. */
  function TableClock(): Clock {
    Clock(2017, 2, 17, 1, 2, 3, 456789000)
  }

  /** The entry of writer_test.go's table, message with a trailing newline. */
  function TableEntry(): Entry {
    Entry("Hello, World!\n", Instant(TableClock(), TableClock()), Info, "foo/bar.go", 278)
  }

  lemma TableDateText()
    ensures DateText(TableClock()) == "2017/02/17 "
  {
    assert IntText(2017, 4) == "2017";
    assert IntText(2, 2) == "02" && IntText(17, 2) == "17";
  }

  lemma TableClockText()
    ensures ClockText(TableClock(), true) == "01:02:03.456789 "
  {
    assert HmsText(TableClock()) == "01:02:03" by {
      assert IntText(1, 2) == "01" && IntText(2, 2) == "02" && IntText(3, 2) == "03";
    }
    FractionText();
  }

  lemma FractionText()
    ensures IntText(456789, 6) == "456789"
  {
    assert IntText(45, 2) == "45";
    assert IntText(456, 3) == "456";
    assert IntText(4567, 4) == "4567";
    assert IntText(45678, 5) == "45678";
  }

  /** The header of the table's flags without a location: date and clock. */
  lemma TableTimeText(flag: Flags)
    requires flag & (ShowDate | ShowTime | Microseconds | UTC) == ShowDate | ShowTime | Microseconds
    ensures Header(flag, TableEntry().time, Info, "foo/bar.go", 278) ==
      "2017/02/17 " + "01:02:03.456789 " + LocationText(flag, Info, "foo/bar.go", 278)
  {
    TableDateText();
    TableClockText();
    assert Has(flag, ShowDate) && Has(flag, Microseconds) && !Has(flag, UTC);
    assert Has(flag, ShowTime | Microseconds) && Has(flag, ShowDate | ShowTime | Microseconds);
  }

  /** The short location of the table's entry. */
  lemma TableShortLocation()
    ensures LocationText(ShowDate | ShowTime | Microseconds | ShortFile, Info, "foo/bar.go", 278) == "bar.go:278: "
  {
    var flag := ShowDate | ShowTime | Microseconds | ShortFile;
    var file := "foo/bar.go";
    assert ShortName(file) == "bar.go" by {
      assert file[3] == '/' && forall j :: 3 < j < |file| ==> file[j] != '/';
      assert file[4..] == "bar.go";
    }
    assert IntText(278, -1) == "278";
    assert Has(flag, ShortFile) && !Has(flag, ShowLevel) && Has(flag, ShortFile | ShowFile);
    assert Has(flag, ShowLevel | ShortFile | ShowFile);
  }

  /** Table row "short file": 2017/02/17 01:02:03.456789 bar.go:278: Hello, World! */
  lemma ShortFileExample()
    ensures Append("", TableEntry(), ShowDate | ShowTime | Microseconds | ShortFile) ==
      "2017/02/17 " + "01:02:03.456789 " + "bar.go:278: " + "Hello, World!"
  {
    assert TrimNewline("Hello, World!\n") == "Hello, World!";
    TableShortLocation();
    TableTimeText(ShowDate | ShowTime | Microseconds | ShortFile);
  }

  /** Table row "all flags": 2017/02/17 01:02:03.456789 foo/bar.go:278: Hello, World! */
  lemma LongFileExample()
    ensures Append("", TableEntry(), ShowDate | ShowTime | Microseconds | ShowFile) ==
      "2017/02/17 " + "01:02:03.456789 " + "foo/bar.go:278: " + "Hello, World!"
  {
    var flag := ShowDate | ShowTime | Microseconds | ShowFile;
    assert LocationText(flag, Info, "foo/bar.go", 278) == "foo/bar.go:278: " by {
      assert IntText(278, -1) == "278";
      assert !Has(flag, ShortFile) && !Has(flag, ShowLevel) && Has(flag, ShortFile | ShowFile);
      assert Has(flag, ShowLevel | ShortFile | ShowFile);
    }
    assert TrimNewline("Hello, World!\n") == "Hello, World!";
    TableTimeText(flag);
  }
}
