/** The Logger interface and the loggers that only decide and delegate:
    Discard (log.go), LevelFilter (filter.go) and the testlog Logger
    (testlog/testlog.go). A Log call is modelled by the calls it makes on the
    leaf loggers; a leaf Writer then performs Sink.Writer.Log. */
module Loggers {
  import opened Wrappers
  import opened Levels
  import opened Format
  import opened Contexts
  import opened Sink

  datatype Logger =
    | Discard
    | WriterLogger(w: Writer)
      /** Any other Logger, by identity. It is assumed to keep the interface's
          promise (log.go:21-22): while disabled its Log does nothing, while
          enabled it takes the entry; and its answer is the same for every
          entry. */
    | Capture(id: nat, enabled: bool)
    | LevelFilter(min: Level, output: Logger)
      /** testlog.Logger; None stands for a nil Fallback. */
    | TestLogger(fallback: Option<Logger>)

  /** A call that reaches a leaf. */
  datatype Call =
    | WriterLog(w: Writer, ctx: Context, e: Entry)
    | Captured(id: nat, ctx: Context, e: Entry)
    | TbLog(tb: TB, text: string)

  /** Logger.LogEnabled. */
  function LogEnabled(l: Logger, e: Entry): bool {
    match l
    case Discard => false
    case WriterLogger(w) => w.LogEnabled(e)
    case Capture(_, enabled) => enabled
    case LevelFilter(min, output) => if e.level < min then false else LogEnabled(output, e)
    case TestLogger(_) => true
  }

  /** Logger.Log: the calls it makes on the leaf loggers, in order. */
  function Log(l: Logger, ctx: Context, e: Entry): seq<Call> {
    match l
    case Discard => []
    case WriterLogger(w) => [WriterLog(w, ctx, e)]
    case Capture(id, enabled) => if enabled then [Captured(id, ctx, e)] else []
    case LevelFilter(min, output) => if e.level < min then [] else Log(output, ctx, e)
    case TestLogger(fallback) =>
      match ctx.tb
      case None => if fallback.Some? then Log(fallback.value, ctx, e) else []
      case Some(tb) => [TbLog(tb, TbText(e))]
  }

  /** The text testlog hands to TB.Log: "WARN: " or "ERROR: " before the
      message for exactly Warn and Error, the bare message otherwise. */
  function TbText(e: Entry): string {
    if e.level == Warn then "WARN: " + e.msg
    else if e.level == Error then "ERROR: " + e.msg
    else e.msg
  }

  /** The entry and context a call carries on to its leaf. */
  predicate Forwards(c: Call, ctx: Context, e: Entry) {
    match c
    case WriterLog(_, cctx, ce) => cctx == ctx && ce == e
    case Captured(_, cctx, ce) => cctx == ctx && ce == e
    case TbLog(_, _) => true
  }

  // ---- Discard and Writer

  /** Discard is never enabled and logs nothing. */
  lemma DiscardNothing(ctx: Context, e: Entry)
    ensures !LogEnabled(Discard, e) && Log(Discard, ctx, e) == []
  {
  }

  /** A logger makes at most one leaf call per entry, and passes the context
      and the entry on unchanged. */
  lemma {:induction false} LogAtMostOnce(l: Logger, ctx: Context, e: Entry)
    ensures |Log(l, ctx, e)| <= 1
    ensures forall c :: c in Log(l, ctx, e) ==> Forwards(c, ctx, e)
  {
    match l
    case LevelFilter(min, output) =>
      LogAtMostOnce(output, ctx, e);
    case TestLogger(fallback) =>
      if ctx.tb.None? && fallback.Some? {
        LogAtMostOnce(fallback.value, ctx, e);
      }
    case _ =>
  }

  /** The interface's promise: when LogEnabled is false, Log does nothing.
      For the core loggers this is proved; for a Capture leaf it is the
      assumption that leaf stands for. */
  lemma {:induction false} DisabledLogsNothing(l: Logger, ctx: Context, e: Entry)
    requires !LogEnabled(l, e)
    ensures Log(l, ctx, e) == []
  {
    match l
    case LevelFilter(min, output) =>
      if e.level >= min {
        DisabledLogsNothing(output, ctx, e);
      }
    case _ =>
  }

  // ---- LevelFilter

  /** Below the minimum the filter is disabled and drops the entry without
      consulting its output; at or above it, it behaves as its output. */
  lemma FilterDecides(min: Level, output: Logger, ctx: Context, e: Entry)
    ensures e.level < min ==> !LogEnabled(LevelFilter(min, output), e) && Log(LevelFilter(min, output), ctx, e) == []
    ensures e.level >= min ==>
      LogEnabled(LevelFilter(min, output), e) == LogEnabled(output, e) &&
      Log(LevelFilter(min, output), ctx, e) == Log(output, ctx, e)
  {
  }

  /** filter_test.go's table, over a capturing output. */
  lemma FilterTable(ctx: Context, e: Entry)
    ensures e.level == Info ==> LogEnabled(LevelFilter(Info, Capture(1, true)), e)
    ensures e.level == Debug ==> !LogEnabled(LevelFilter(Info, Capture(1, true)), e)
    ensures e.level == Error ==> LogEnabled(LevelFilter(Info, Capture(1, true)), e)
    ensures e.level == Info ==> !LogEnabled(LevelFilter(Warn, Capture(1, true)), e)
    ensures e.level == Warn ==> Log(LevelFilter(Warn, Capture(1, true)), ctx, e) == [Captured(1, ctx, e)]
    ensures e.level == Error ==> Log(LevelFilter(Warn, Capture(1, true)), ctx, e) == [Captured(1, ctx, e)]
  {
  }

  /** The logger under all the filters of a chain. */
  function Innermost(l: Logger): Logger {
    match l
    case LevelFilter(_, output) => Innermost(output)
    case _ => l
  }

  /** The level is at least every minimum along the chain of filters. */
  predicate PassesAll(l: Logger, level: Level) {
    match l
    case LevelFilter(min, output) => level >= min && PassesAll(output, level)
    case _ => true
  }

  /** Nested filters enable an entry exactly when its level passes every
      minimum and the innermost logger enables it; they log exactly what the
      innermost logger would, or nothing. */
  lemma {:induction false} NestedFilters(l: Logger, ctx: Context, e: Entry)
    ensures LogEnabled(l, e) <==> PassesAll(l, e.level) && LogEnabled(Innermost(l), e)
    ensures Log(l, ctx, e) == if PassesAll(l, e.level) then Log(Innermost(l), ctx, e) else []
  {
    match l
    case LevelFilter(min, output) =>
      NestedFilters(output, ctx, e);
    case _ =>
  }

  // ---- testlog.Logger

  /** testlog.Logger is always enabled. */
  lemma TestLoggerEnabled(fallback: Option<Logger>, e: Entry)
    ensures LogEnabled(TestLogger(fallback), e)
  {
  }

  /** With a TB in the context exactly one TB.Log call is made, prefixed by
      level, and the fallback is not used. */
  lemma TestLoggerWithTB(fallback: Option<Logger>, ctx: Context, e: Entry, tb: TB)
    requires ctx.tb == Some(tb)
    ensures Log(TestLogger(fallback), ctx, e) == [TbLog(tb, TbText(e))]
    ensures e.level == Warn ==> TbText(e) == "WARN: " + e.msg
    ensures e.level == Error ==> TbText(e) == "ERROR: " + e.msg
    ensures e.level != Warn && e.level != Error ==> TbText(e) == e.msg
  {
  }

  /** Matching is by equality: Debug, Info and a level between Warn and Error
      such as 15 are logged unprefixed. */
  lemma TbTextUnprefixed(e: Entry)
    requires e.level in {Debug, Info, 15}
    ensures TbText(e) == e.msg
  {
  }

  /** Without a TB the entry goes to the fallback unchanged, or nowhere. */
  lemma TestLoggerWithoutTB(fallback: Option<Logger>, ctx: Context, e: Entry)
    requires ctx.tb.None?
    ensures fallback.Some? ==> Log(TestLogger(fallback), ctx, e) == Log(fallback.value, ctx, e)
    ensures fallback.None? ==> Log(TestLogger(fallback), ctx, e) == []
  {
  }
}
