/** The Writer sink (writer.go: Writer, New, Log, LogEnabled): one line per
    entry, written to an io.Writer in a single Write call. */
module Sink {
  import opened Wrappers
  import opened Flags
  import opened Format
  import opened Contexts

  /** The error an io.Writer returns, by identity. */
  datatype WriteError = WriteError(code: nat)

  /** An io.Writer that records each byte slice it is handed. Whether a write
      fails is decided outside the model and passed in as `failure`. */
  class Destination {
    var writes: seq<string>

    constructor ()
      ensures writes == []
    {
      writes := [];
    }

    method Write(p: string, failure: Option<WriteError>) returns (err: Option<WriteError>)
      modifies this
      ensures writes == old(writes) + [p]
      ensures err == failure
    {
      writes := writes + [p];
      err := failure;
    }
  }

  /** An errFunc: records the context and error of each call. */
  class ErrorHandler {
    var calls: seq<(Context, WriteError)>

    constructor ()
      ensures calls == []
    {
      calls := [];
    }

    method Call(ctx: Context, err: WriteError)
      modifies this
      ensures calls == old(calls) + [(ctx, err)]
    {
      calls := calls + [(ctx, err)];
    }
  }

  /** The line Log writes for `ent`: the prefix, the formatted entry, and a
      newline. */
  function LogLine(prefix: string, flag: Flags, ent: Entry): string {
    Append(prefix, ent, flag) + "\n"
  }

  class Writer {
    const errFunc: ErrorHandler?
    const prefix: string
    const flag: Flags
    const out: Destination
    /** The reusable line buffer. */
    var buf: string

    /** New: a Writer on `out` with the given prefix, flags and errFunc. */
    constructor New(out: Destination, prefix: string, flag: Flags, errFunc: ErrorHandler?)
      ensures this.out == out && this.prefix == prefix && this.flag == flag && this.errFunc == errFunc
      ensures buf == []
    {
      this.out := out;
      this.prefix := prefix;
      this.flag := flag;
      this.errFunc := errFunc;
      buf := [];
    }

    /** LogEnabled: a Writer takes every entry. */
    function LogEnabled(ent: Entry): (r: bool)
      ensures r
    {
      true
    }

    /** Log: reset the buffer, fill it with the line, hand it to `out` in one
        Write, and pass a write error to errFunc when there is one. */
    method Log(ctx: Context, ent: Entry, failure: Option<WriteError>)
      modifies this, out, errFunc
      ensures buf == LogLine(prefix, flag, ent)
      ensures out.writes == old(out.writes) + [LogLine(prefix, flag, ent)]
      ensures errFunc != null ==>
        errFunc.calls == old(errFunc.calls) + (if failure.Some? then [(ctx, failure.value)] else [])
    {
      buf := buf[..0] + prefix;
      buf := Append(buf, ent, flag);
      buf := buf + "\n";
      var err := out.Write(buf, failure);
      if err.Some? && errFunc != null {
        errFunc.Call(ctx, err.value);
      }
    }
  }

  /** Every line ends in exactly the newline Log adds, after the prefix and the
      formatted entry. */
  lemma LogLineShape(prefix: string, flag: Flags, ent: Entry)
    ensures var s := LogLine(prefix, flag, ent);
      |s| > |prefix| && s[..|prefix|] == prefix && s[|s| - 1] == '\n' &&
      s[|prefix|..|s| - 1] == Append("", ent, flag)
  {
    AppendIgnoresBuffer(prefix, ent, flag);
    var s := LogLine(prefix, flag, ent);
    var a := Append("", ent, flag);
    assert s == prefix + a + "\n";
    assert s[|prefix|..|s| - 1] == a;
  }

  /** Log builds its line with the corrected trim. Against the code as
      written the line is the same for every non-empty message; for the
      empty message the code panics inside Append, before any write. */
  lemma LogLineAsWritten(prefix: string, flag: Flags, ent: Entry)
    ensures AppendAsWritten(prefix, ent, flag).None? <==> ent.msg == ""
    ensures ent.msg != "" ==> LogLine(prefix, flag, ent) == AppendAsWritten(prefix, ent, flag).value + "\n"
  {
    AppendAsWrittenPanics(prefix, ent, flag);
  }

  /** The newline is appended whether or not the message already ends in one:
      a message ending in two newlines gives a line ending in two. */
  lemma LogLineKeepsNewline(prefix: string, x: string, ent: Entry)
    requires ent.msg == x + "\n\n"
    ensures LogLine(prefix, 0, ent) == prefix + x + "\n" + "\n"
  {
    StripOneNewline(x);
    AppendNoFlags(prefix, ent);
  }

  /** With no flags the line is the prefix, the message without its one
      trailing newline, and a newline: so "Hello, World!" and
      "Hello, World!\n" both give "Hello, World!\n" (writer_test.go's
      no-header rows). */
  lemma NoHeaderLine(prefix: string, x: string, ent: Entry)
    requires |x| > 0 && x[|x| - 1] != '\n'
    requires ent.msg == x || ent.msg == x + "\n"
    ensures LogLine(prefix, 0, ent) == prefix + x + "\n"
  {
    StripOneNewline(x);
    AppendNoFlags(prefix, ent);
  }

  /** A scenario: each Log writes exactly its own line, whatever the buffer
      held from the previous one, and an error reaches errFunc. */
  method TwoLines(e1: Entry, e2: Entry, failure: WriteError) returns (out: Destination, h: ErrorHandler)
    ensures out.writes == [LogLine("p ", StdFlags, e1), LogLine("p ", StdFlags, e2)]
    ensures h.calls == [(Background, failure)]
  {
    out := new Destination();
    h := new ErrorHandler();
    var w := new Writer.New(out, "p ", StdFlags, h);
    w.Log(Background, e1, None);
    w.Log(Background, e2, Some(failure));
  }
}
