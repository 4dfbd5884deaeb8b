# go-log core in Dafny

A model of the core of `zombiezen.com/go/log`, a small structured-logging
library for Go, with proofs of what its code and tests promise:

- **Entry text** (`log.go`): `Entry.Append` and `formatHeader` build a
  byte-exact line header from a flag bit set. The header has an optional date,
  an optional clock with microseconds, an optional level name and an optional
  short or long `file:line`. The message follows with one trailing newline
  removed. `itoa` (an imperative loop over a 20-byte scratch array) writes
  every number. `Level.String` and `entryLevel` are the level name tables, and
  `Discard` is the no-op logger.
- **Flags and the Writer sink** (`writer.go`): `Flags.String` names the set
  bits. `Writer` is a class whose `Log` resets its reusable buffer and writes
  `prefix + entry + "\n"` in one call to its destination. When that write
  fails, `Log` calls `errFunc`.
- **Loggers that decide and delegate**: `LevelFilter` (`filter.go`), the
  testlog `Logger` (`testlog/testlog.go`) and `Discard`. Each is a case of the
  `Logger` datatype. A `Log` call is modelled by the calls it makes on the leaf
  loggers.
- **The default logger** (`config.go`): a set-once holder. It falls back to a
  stderr `Writer` until the first non-nil `SetDefault`. Every later call
  panics, and so does a nil call.
- **The standard-library adapter** (`zstdlog/zstdlog.go`): `newWriter`'s
  option defaults and `writer.Write`. `Write` parses a line of the standard
  logger back into an `Entry` and sends it on. Its error exits are: bad
  timestamp, no `": "` separator, and bad line number. The model proves the
  round trip. A line written with the adapter's flags (date, time,
  microseconds, UTC, long file) parses back to the entry's message, file and
  line, and to its UTC instant to the microsecond.

The Go code works on bytes. Here strings are `seq<char>`, and each char stands
for one byte. Go's `int` is `Int64` and `Flags` (a `uint`) is `bv64`.
Timestamps arrive already broken down into fields: an `Instant` holds the
fields of a time in its own location (`zoned`, what `t.Date()` and `t.Clock()`
give for `t` as passed) and in UTC.

The modules follow the program's structure:

| Module | What it models |
|---|---|
| `Numbers` | Decimal numerals and `strconv.Atoi` |
| `Strs` | `strings.Index`, `strings.LastIndex` and `strings.TrimSuffix` |
| `Itoa` | `itoa` |
| `Levels` | The level constants and the two name tables |
| `Flags` | The flag constants and `Flags.String` |
| `Format` | `Entry`, `formatHeader` and `Entry.Append` |
| `Contexts` | The part of a `context.Context` the core reads |
| `Sink` | `Writer`, its destination, and `errFunc` |
| `Loggers` | The `Logger` interface, `Discard`, `LevelFilter` and testlog's `Logger` |
| `Config` | `Default`, `SetDefault` and testlog's `Main` |
| `Zstdlog` | The adapter |

Two name mismatches in the source are resolved this way:

- `log.go` reads flag names that the source files never declare: `Ldate`,
  `Ltime`, `Lmicroseconds`, `Llongfile`, `Lshortfile`, `LUTC` and `Llevel`.
  They are read as the `Flags` constants of `writer.go:30-36`: `ShowDate`,
  `ShowTime`, `Microseconds`, `ShowFile`, `ShortFile`, `UTC` and `ShowLevel`.
- `LstdFlags` is read as `StdFlags`. `Append` takes `Flags` where the code says
  `flag int`.

Where the doc comments and the code disagree, the model follows the code:

- **Trailing newline in `Append`.** The comment at `log.go:47-48` says the
  last byte appended is never a newline. The code removes only one newline,
  so a message `"x\n\n"` keeps one (`Format.StripOneNewline`).
- **Newline in `Writer.Log`.** The comment at `writer.go:122-123` says a
  newline is added only when missing. The code always adds one
  (`Sink.LogLineKeepsNewline`).
- **The Microseconds bit's name.** `Flags.String` prints the `Microseconds`
  bit as `ShowMicroseconds`.

## Model

| member | source | states |
|---|---|---|
| Itoa.IntText | log.go:127-141 | definition in the loop's own shape: one digit per round while `i >= 10` or `wid > 1`, then the last digit through Go's wrapping byte conversion |
| Itoa.Itoa | log.go:126-141 | the 20-byte scratch loop appends exactly `IntText(i, wid)` to `buf`; proved with loop invariants |
| Itoa.IntTextMeaning | log.go:126-141 | for `i >= 0` itoa writes decimal digits of value `i`; there are `wid` of them when the numeral is shorter, padded with zeros; there is no padding when `wid <= 1` |
| Itoa.IntTextIsPaddedDigits | log.go:126-141 | for `i >= 0` itoa's output is `wid - len` zeros followed by the canonical numeral; it is never truncated |
| Itoa.IntTextFixedWidth | log.go:75-91 | a field below `10^w` printed with width `w` takes exactly `w` digits that read back as the field |
| Itoa.IntTextFits | log.go:129-131 | for `wid <= 20` the output fits the 20-byte scratch array |
| Levels.LevelStringAsWritten | log.go:165-181 | definition of `Level.String` as written: the four constant names, otherwise `"Level("`, itoa of the level with width -1, and `")"` |
| Levels.LevelString | log.go:165-181 | corrected `Level.String`: the four constant names, otherwise the signed decimal between `"Level("` and `")"` |
| Levels.EntryLevel | log.go:183-196 | definition of `entryLevel`: the four upper-case names, otherwise `"???"` |
| Levels.LevelStringAgrees | log.go:165-181 | for levels `>= 0`, `Level.String` as written equals the corrected table |
| Levels.LevelStringNegativeAsWritten | log.go:176-180 | as written, `Level(-5)` prints `"Level(+)"` and `Level(-250)` prints the same as `Level(6)`; the corrected table prints `"Level(-5)"` |
| Levels.LevelStringParses | log.go:165-181 | a level that is not predefined prints as `"Level(" n ")"`, and `n` parses back to the level |
| Levels.LevelStringInjective | log.go:165-181 | distinct levels get distinct names |
| Levels.EntryLevelNames | log.go:183-196 | `entryLevel` is `"???"` exactly for levels that are not predefined, and for predefined levels it is `Level.String` in upper case |
| Format.ShortName | log.go:97-106 | the short name is the whole name when there is no `'/'` at index 1 or later; otherwise it is the text after the last such `'/'` |
| Format.CutShortName | log.go:97-106 | the backwards scan from the last byte down to index 1 yields `ShortName(file)` |
| Format.ShortNameSuffix | log.go:97-106 | the short name is a suffix of the file name, and when it is not the whole name it holds no `'/'` |
| Format.Position | log.go:50-53 | definition: the entry's file and line, or `"???"` and 0 when the file is empty |
| Format.LocationText | log.go:96-122 | definition: nothing unless a level or file bit is set; the short name when ShortFile is set; level only, `file:line` or `LEVEL file:line`; then `": "`; shapes stated by `Format.LocationShapes` |
| Format.Header | log.go:68-124 | definition of `formatHeader`: the UTC fields when UTC is set, otherwise those of the time as given; the date when ShowDate; the clock when ShowTime or Microseconds, with the fraction when Microseconds; then the location; stated by the layout lemmas and `Format.MicrosecondsAloneShowsClock` |
| Format.Render | log.go:49-61 | definition: the header of the entry's position, then the message with one trailing newline removed |
| Format.AppendAsWritten | log.go:49-61 | definition of `Append` as written: no result (the panic) when the message is empty, otherwise the buffer, header and trimmed message |
| Format.Append | log.go:49-61 | `Append` only extends: the buffer is a prefix of the result |
| Format.AppendAsWrittenPanics | log.go:55-58 | as written, `Append` fails (index out of range) exactly for the empty message; for every other message it equals the corrected `Append` |
| Format.StripOneNewline | log.go:55-59 | exactly one trailing newline is removed: `"x\n"` gives `x` and `"x\n\n"` gives `"x\n"`; a message not ending in a newline is unchanged |
| Format.AppendIgnoresBuffer | log.go:49-61 | what `Append` adds does not depend on the buffer's contents |
| Format.AppendNoFlags | log.go:49-61 | with no flags there is no header: `Append` adds only the trimmed message |
| Format.AppendUnknownFile | log.go:50-53 | an entry with an empty file renders as one with file `"???"` and line 0; with the long-file flag its location is `"???:0: "` |
| Format.DateTextLayout | log.go:73-81 | the date is 11 bytes: a zero-padded 4/2/2-digit year, month and day, with `'/'` at 4 and 7 and a space at 10; its digit groups read back as the fields |
| Format.HmsTextLayout | log.go:83-88 | the clock is 8 bytes `HH:MM:SS` whose digit groups read back as the fields |
| Format.ClockTextLayout | log.go:82-94 | with microseconds the clock is 16 bytes `HH:MM:SS.uuuuuu `; the fraction is the nanoseconds divided by 1000 and truncated, in 6 digits |
| Format.MicrosecondsAloneShowsClock | log.go:72-94 | the Microseconds flag alone still prints the clock with its fraction, of the time in its own location |
| Format.LocationShapes | log.go:96-122 | the location is absent exactly when none of level, short or long file is set; for each of the seven other combinations it is level only, `file:line` or `LEVEL file:line`, with the short name whenever ShortFile is set, followed by `": "` |
| Format.TableDateText | writer_test.go:53-62 | the table's timestamp gives the date `"2017/02/17 "` |
| Format.TableClockText | writer_test.go:53-62 | the table's timestamp gives the clock `"01:02:03.456789 "` |
| Format.FractionText | writer_test.go:53-62 | 456789 microseconds in width 6 is `"456789"` |
| Format.TableTimeText | writer_test.go:53-74 | the table's date and clock flags without UTC give the date and clock of the table's instant, then the location |
| Format.TableShortLocation | writer_test.go:53-62 | the short-file location of `foo/bar.go:278` is `"bar.go:278: "` |
| Format.ShortFileExample | writer_test.go:53-62 | the "short file" row: `2017/02/17 01:02:03.456789 bar.go:278: Hello, World!` |
| Format.LongFileExample | writer_test.go:64-74 | the "all flags" row: `2017/02/17 01:02:03.456789 foo/bar.go:278: Hello, World!` |
| Flags.FlagsStringAsWritten | writer.go:45-96 | definition of `Flags.String` as written: `"0"` for no bits, otherwise the seven conditional names, then the decimal of `f & allFlags` when non-zero |
| Flags.FlagsString | writer.go:45-96 | corrected `Flags.String`: the same, with the decimal of the bits outside `allFlags` |
| Flags.FlagsStringAsWrittenShape | writer.go:45-96 | as written, `Flags.String` of a non-zero value joins the set known names with bars; the decimal of `f & allFlags` follows exactly when a known bit is set; a value with only unknown bits renders as `""` |
| Flags.FlagsStringShape | writer.go:45-96 | corrected, `Flags.String` of a non-zero value joins with bars the set known names in declared order, then the decimal of the unknown bits when there are any |
| Flags.FlagsStringAsWrittenNoStrayBar | writer.go:49-94 | the rendering as written never starts or ends with a bar |
| Flags.FlagsStringNoStrayBar | writer.go:49-94 | the corrected rendering of a non-zero value is non-empty and never starts or ends with a bar |
| Flags.FlagsStringAsWrittenExamples | writer.go:89-94 | as written, the value 3 (ShowDate and ShowTime) renders as the two names and a spurious `3`, bar-separated, and an unknown bit 128 renders as `""`; corrected, 3 renders as the two names only and 128 as `"128"` |
| Flags.KnownNamesPresent | writer.go:41-88 | some known name is listed exactly when a bit of `allFlags` is set |
| Flags.NamesChainJoins | writer.go:50-88 | the seven conditional appends, each adding a bar only after a non-empty buffer, equal the listed names joined with bars |
| Flags.KnownNamesTextJoins | writer.go:50-88 | the names part of `Flags.String` is the known names set in `f`, joined with bars |
| Sink.LogLine | writer.go:127-129 | definition: the prefix, `Append` of the entry, and `'\n'` |
| Sink.LogLineAsWritten | writer.go:127-130 | against `Append` as written, the line `Writer.Log` writes is the same for every non-empty message; for the empty message the code panics before the write |
| Sink.Writer.New | writer.go:118-120 | `New` stores `out`, `prefix`, `flag` and `errFunc` unchanged |
| Sink.Writer.LogEnabled | writer.go:136-137 | a `Writer` is enabled for every entry |
| Sink.Writer.Log | writer.go:124-134 | one write per call: the buffer ends as `prefix + Append(entry) + "\n"`, and exactly that line is appended to the destination's writes; `errFunc` gets `(ctx, err)` exactly when the write fails and `errFunc` is non-nil; nothing else changes |
| Sink.Destination.Write | writer.go:130 | the destination records the bytes it is handed and returns the given outcome |
| Sink.LogLineShape | writer.go:127-129 | a line is the prefix, then `Append` of the entry to an empty buffer, then a final `'\n'` |
| Sink.LogLineKeepsNewline | writer.go:122-129 | the newline is always added, so a message ending in two newlines gives a line ending in two |
| Sink.NoHeaderLine | writer_test.go:22-52 | with no flags, a message with or without one trailing newline gives `prefix + msg + "\n"` |
| Sink.TwoLines | writer.go:124-134 | two `Log` calls each write exactly their own line, whatever the buffer held before; only the failing write reaches `errFunc` |
| Contexts.WithTB | testlog/testlog.go:56-60 | `WithTB` attaches the `TB` and keeps the parent's identity |
| Loggers.LogEnabled | filter.go:29-34 | definition of `LogEnabled` per logger: `Discard` false, `Writer` and testlog true, `LevelFilter` false below the minimum and otherwise its output's answer |
| Loggers.Log | filter.go:20-25 | definition of `Log` per logger as the leaf calls it makes: none for `Discard`, the filter's output at or above the minimum, testlog's TB call or its fallback |
| Loggers.TbText | testlog/testlog.go:39-46 | definition: `"WARN: "` or `"ERROR: "` before the message for exactly Warn and Error, the bare message otherwise |
| Loggers.DiscardNothing | log.go:143-150 | `Discard` is never enabled and logs nothing |
| Loggers.LogAtMostOnce | filter.go:18-25 | every logger makes at most one leaf call per entry and passes the context and the entry on unchanged |
| Loggers.DisabledLogsNothing | log.go:21-22 | when `LogEnabled` is false, `Log` makes no call |
| Loggers.FilterDecides | filter.go:20-34 | below the minimum the filter is disabled and drops the entry without consulting its output; at or above it, `LogEnabled` and `Log` are the output's |
| Loggers.FilterTable | filter_test.go:35-70 | the table: minimum Info enables Info and Error but not Debug; minimum Warn disables Info and passes Warn and Error to the output unchanged |
| Loggers.NestedFilters | filter.go:29-34 | nested filters enable an entry exactly when its level is at least every minimum and the innermost logger enables it; they log what the innermost logger logs, or nothing |
| Loggers.TestLoggerEnabled | testlog/testlog.go:49-52 | testlog's `Logger` is enabled for every entry |
| Loggers.TestLoggerWithTB | testlog/testlog.go:31-46 | with a `TB` there is exactly one `TB.Log` call and the fallback is unused; Warn is prefixed `"WARN: "`, Error `"ERROR: "`, and every other level is unprefixed |
| Loggers.TbTextUnprefixed | testlog/testlog.go:39-46 | matching is by equality: Debug, Info and 15 log the bare message |
| Loggers.TestLoggerWithoutTB | testlog/testlog.go:32-38 | without a `TB` the entry goes unchanged to the fallback, or nowhere when the fallback is nil |
| Config.DefaultLogger.Current | config.go:55-61 | definition of `atomicLogger.logger`: the stored logger, or the fallback while the slot is empty |
| Config.DefaultLogger.Log | config.go:47-49 | definition: the current logger's `Log` |
| Config.DefaultLogger.LogEnabled | config.go:51-53 | definition: the current logger's `LogEnabled` |
| Config.DefaultLogger.constructor | config.go:14-19 | the initial state has an empty slot, an unfired latch, and a fallback `Writer` on stderr with prefix `""`, `StdFlags` and no `errFunc` |
| Config.DefaultLogger.SetDefault | config.go:29-41 | the first call fires the latch; it stores a non-nil logger, or panics with `"log.SetDefaultLogger(nil)"` and stores nothing; every later call panics with `"log.SetDefaultLogger called more than once"` and leaves the slot unchanged |
| Config.TestMain | testlog/testlog.go:24-28 | `Main` stores a testlog `Logger` with the given fallback as the default, or panics if one is already set |
| Config.FallbackInUse | config.go:47-59 | with an empty slot the holder is always enabled and hands each entry to the fallback `Writer` unchanged |
| Config.StoredInUse | config.go:47-61 | once a logger is stored, the holder answers exactly as that logger |
| Config.Lifecycle | config.go:21-41 | a handle taken before `SetDefault` uses the fallback; it follows the stored logger afterwards; a second `SetDefault` panics and replaces nothing |
| Config.NilFirst | config.go:29-41 | a nil `SetDefault` fires the latch, so the fallback stays in use and every later call panics |
| Numbers.Atoi | zstdlog/zstdlog.go:102 | `strconv.Atoi` (an optional sign and at least one digit, by its definition) only ever returns a value that fits an `int` |
| Numbers.AtoiDigits | zstdlog/zstdlog.go:102 | the numeral of a non-negative `int` parses back to it |
| Strs.Index | zstdlog/zstdlog.go:92 | `strings.Index` returns the first position of the separator, or -1 exactly when there is none |
| Strs.LastIndex | zstdlog/zstdlog.go:98 | `strings.LastIndex` returns the last position of the byte, or -1 when there is none |
| Strs.TrimNewline | zstdlog/zstdlog.go:113 | `strings.TrimSuffix(s, "\n")` removes one trailing newline if there is one and otherwise changes nothing |
| Zstdlog.NewWriter | zstdlog/zstdlog.go:66-78 | the context is `opts.Context` if set, else the background; the level is `opts.Level`, or Info when the options are nil |
| Zstdlog.ParseLocation | zstdlog/zstdlog.go:96-110 | definition: split at the last `':'`; no `':'` gives the whole text and line 0; a line that is not an `int` is an error; `"???"` becomes the empty file at line 0 |
| Zstdlog.ParseEntry | zstdlog/zstdlog.go:80-113 | definition of the parse: the 27-byte timestamp, the first `": "` after it, the location, the message less one trailing newline, and the writer's level |
| Zstdlog.ParseStamp | zstdlog/zstdlog.go:81-88 | an accepted timestamp has fields in calendar and clock range, and a whole number of microseconds |
| Zstdlog.Write | zstdlog/zstdlog.go:80-116 | on a parse error `Write` returns 0 and the error and logs nothing; otherwise it logs the parsed entry once through the destination, with the writer's context, and returns `len(p)` |
| Zstdlog.StampRoundTrip | zstdlog/zstdlog.go:81-89 | a valid UTC time rendered by the header parses back to itself, truncated to the microsecond |
| Zstdlog.StampRejects | zstdlog/zstdlog.go:85-88 | a rendered time with a field out of range, such as Feb 29 of a common year or hour 24, is rejected |
| Zstdlog.LocationWithoutLine | zstdlog/zstdlog.go:98-110 | a location without `':'` is all file at line 0, and `"???"` becomes the empty file |
| Zstdlog.LocationRoundTrip | zstdlog/zstdlog.go:98-110 | `file:line` with a non-negative line splits back at its last `':'` into the file and the line; `"???"` becomes the empty file with line 0 |
| Zstdlog.SeparatorAfterLocation | zstdlog/zstdlog.go:91-97 | after a file free of `": "` and its line number, the first `": "` is the one that ends the location |
| Zstdlog.StdlogHeader | zstdlog/zstdlog.go:38-42 | the adapter's flags give the UTC date, the clock with microseconds, and the long `file:line: ` |
| Zstdlog.StdlogLine | log.go:49-124 | with those flags and no prefix, a `Writer` line is the timestamp, `file:line: `, the trimmed message and `"\n"` |
| Zstdlog.ParseLine | zstdlog/zstdlog.go:80-113 | a line in that shape parses to its message, file and line; `"???"` becomes the empty file; the time is the UTC instant to the microsecond, and the level is the writer's |
| Zstdlog.RoundTrip | zstdlog/zstdlog.go:80-115 | the line a `Writer` with the adapter's flags writes parses back to the entry's message (less one trailing newline), file and line, and its UTC time to the microsecond; the file must not be `"???"` and must be free of `": "`, and the line `>= 0`; an empty file is written as `"???"` and comes back empty at line 0 |
| Zstdlog.AdapterRoundTrip | zstdlog/zstdlog.go:66-115 | through a writer built by `newWriter`, that line reaches the destination once, as the round-tripped entry at the writer's level and context, and `Write` reports the whole line written |
| Zstdlog.AdapterTable | zstdlog/zstdlog_test.go:35-107 | the adapter tests with a capturing destination: default options deliver the message at Info with the background context; an Error option delivers it at Error; a context option delivers it with that context |

## Left out

- Concurrency: `Writer.mu`, and the `atomic.Value` and `sync.Once` of the
  default logger. Each operation is one sequential step, and the set-once
  latch keeps only its sequential meaning.
- Calendar and time-zone arithmetic: `t.UTC()`, `t.Date()`, `t.Clock()`,
  `t.Nanosecond()` and `.Local()`. A time arrives as its fields in its own
  location and in UTC.
  The adapter takes the conversion to local time as a parameter (`localOf`).
- Zstdlog.ParseStamp: it accepts only the fixed-width rendering the header
  produces. `time.Parse` with this layout also accepts a one-digit hour, a
  comma before the fraction, and fewer fraction digits or none. Those lines
  are not modelled.
- Sink.Writer.Log: it builds the line with the corrected `Append`. For an
  empty message the code as written panics inside `Append` (`log.go:56-57`)
  before writing, so nothing is written and `errFunc` is not called; the
  model writes the prefix, the header and a newline instead.
  `Sink.LogLineAsWritten` shows the two agree on every other message.
- Zstdlog.RoundTrip and Zstdlog.AdapterRoundTrip: for an empty message they
  describe the corrected `Writer` line; the code as written panics before
  that line exists.
- Zstdlog.ParseEntry requires at least 27 bytes. The Go code panics on a
  shorter line (`ps[:len(layout)]`), and that panic is not modelled.
- Zstdlog.RoundTrip needs a year below 10000 and a non-negative line. A wider
  year does not fit the layout. A negative line would hit itoa's byte
  wrap-around in the header (the same defect as for `Level.String`).
- Clock fields are natural numbers, so negative years are not modelled.
- Real I/O: the `io.Writer` and `os.Stderr`. A destination records its
  writes, and whether a write fails is a parameter (`failure`). Partial
  writes and the byte count are not modelled.
- `context.Context` is reduced to an identity and an optional `TB`. Value
  lookup by key is not modelled.
- Loggers outside the core are represented by `Capture`, a logger known only
  by identity. It is assumed to keep the promise of `log.go:21-22`: it takes
  every entry while enabled and does nothing while disabled, and its answer
  is the same for every entry. `Loggers.DisabledLogsNothing` rests on that
  assumption for its `Capture` leaves. A foreign logger that logs while
  disabled (the `captureLogger` of `format_test.go:56-67` does) or that
  decides per entry is not represented.
- The default-logger holder is not itself a case of `Logger`. A holder
  stored inside another logger, such as `SetDefault(Default())`, is not
  modelled.
- `format.go` and `logutil`: thin wrappers over `fmt`, `runtime.Caller` and
  `time.Now`.
- `zstdlog.New`, `SetOutput`, `SetDefaultOutput` and `zstdlog/default*.go`:
  they configure the standard library's logger, which is foreign code. Its
  line format is taken to be this package's `Writer` with the adapter's
  flags and no prefix (`Zstdlog.StdlogFlags`).
- `Entry.String`: it is `Append` with the standard flags.
- Flags.FlagsString: `int(others)` in the source would turn a value with the
  top bit set negative. The corrected rendering prints the bits as an
  unsigned number instead.

## Findings

| source | as written | input that shows it | evidently intended | confidence | as-written member | corrected member |
|---|---|---|---|---|---|---|
| log.go:56-57 | the trim runs when `n == 0` as well as on a trailing newline, so an empty message slices `s[:-1]` | `Entry{Msg: ""}` | remove a trailing newline only when there is one; an empty message stays empty | high; not executed | Format.AppendAsWrittenPanics | Format.StripOneNewline |
| log.go:176-180 | `itoa(buf, int(l), -1)` on a negative level emits one wrapped byte | `Level(-5).String()` gives `"Level(+)"`; `Level(-250)` prints like `Level(6)` | `"Level(-5)"`, a signed numeral | high; not executed | Levels.LevelStringNegativeAsWritten | Levels.LevelStringParses |
| writer.go:89 | `others := f & allFlags` keeps the known bits | `Flags(3).String()` (ShowDate and ShowTime) ends in a spurious `3`; `Flags(128).String()` gives `""` | `f &^ allFlags`, the bits without a name | high; not executed | Flags.FlagsStringAsWrittenExamples | Flags.FlagsStringShape |
