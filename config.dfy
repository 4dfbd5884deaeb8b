/** The process-wide default logger (config.go: Default, SetDefault and the
    atomicLogger holder), as a sequential set-once slot; and testlog.Main,
    which fills it with a testlog Logger. */
module Config {
  import opened Wrappers
  import opened Flags
  import opened Format
  import opened Contexts
  import opened Sink
  import opened Loggers

  /** How a SetDefault call ends: it stores the logger or panics. */
  datatype Outcome = Stored | Panic(msg: string)

  const NilPanic: string := "log.SetDefaultLogger(nil)"
  const TwicePanic: string := "log.SetDefaultLogger called more than once"

  /** The holder Default() returns: the stored logger slot, the sync.Once
      latch, and the stderr Writer used while the slot is empty. */
  class DefaultLogger {
    var out: Option<Logger>
    var done: bool
    const fallback: Writer

    /** Once a logger is stored the latch has fired. */
    predicate Valid()
      reads this
    {
      out.Some? ==> done
    }

    /** The initial state: an empty slot, an unfired latch, and a fallback
        Writer on stderr with no prefix, StdFlags and no errFunc. */
    constructor (stderr: Destination)
      ensures Valid() && out == None && !done
      ensures fallback.out == stderr && fallback.prefix == "" && fallback.flag == StdFlags && fallback.errFunc == null
    {
      out := None;
      done := false;
      fallback := new Writer.New(stderr, "", StdFlags, null);
    }

    /** atomicLogger.logger: the stored logger, or the fallback while the
        slot is empty. */
    function Current(): Logger
      reads this
    {
      if out.None? then WriterLogger(fallback) else out.value
    }

    /** atomicLogger.LogEnabled: asks the current logger. */
    function LogEnabled(e: Entry): bool
      reads this
    {
      Loggers.LogEnabled(Current(), e)
    }

    /** atomicLogger.Log: hands the entry to the current logger. */
    function Log(ctx: Context, e: Entry): seq<Call>
      reads this
    {
      Loggers.Log(Current(), ctx, e)
    }

    /** SetDefault: the first call runs the latched step, which panics on nil
        and otherwise stores `l`; every call after the latch has fired, the
        panicking one included, panics without touching the slot. */
    method SetDefault(l: Option<Logger>) returns (r: Outcome)
      requires Valid()
      modifies this
      ensures Valid() && done
      ensures old(done) ==> r == Panic(TwicePanic) && out == old(out)
      ensures !old(done) && l.None? ==> r == Panic(NilPanic) && out == old(out)
      ensures !old(done) && l.Some? ==> r == Stored && out == l
    {
      var ok := false;
      if !done {
        done := true;
        if l.None? {
          return Panic(NilPanic);
        }
        out := l;
        ok := true;
      }
      if !ok {
        return Panic(TwicePanic);
      }
      return Stored;
    }
  }

  /** testlog.Main: make a testlog Logger with the given fallback the default. */
  method TestMain(d: DefaultLogger, fallback: Option<Logger>) returns (r: Outcome)
    requires d.Valid()
    modifies d
    ensures d.Valid() && d.done
    ensures old(d.done) ==> r == Panic(TwicePanic) && d.out == old(d.out)
    ensures !old(d.done) ==> r == Stored && d.out == Some(TestLogger(fallback))
  {
    r := d.SetDefault(Some(TestLogger(fallback)));
  }

  /** Until a logger is stored, the holder answers as the fallback Writer:
      always enabled, and each entry goes to that Writer unchanged. */
  lemma FallbackInUse(d: DefaultLogger, ctx: Context, e: Entry)
    requires d.out.None?
    ensures d.LogEnabled(e)
    ensures d.Log(ctx, e) == [WriterLog(d.fallback, ctx, e)]
  {
  }

  /** Once a logger is stored, the holder answers exactly as that logger. */
  lemma StoredInUse(d: DefaultLogger, l: Logger, ctx: Context, e: Entry)
    requires d.out == Some(l)
    ensures d.LogEnabled(e) == Loggers.LogEnabled(l, e)
    ensures d.Log(ctx, e) == Loggers.Log(l, ctx, e)
  {
  }

  /** A program's view of the default logger: a handle taken before
      SetDefault follows the stored logger afterwards; a second SetDefault and
      a nil one panic; neither replaces the stored logger. */
  method Lifecycle(stderr: Destination, l: Logger, ctx: Context, e: Entry)
    returns (before: seq<Call>, first: Outcome, second: Outcome, after: seq<Call>)
    ensures |before| == 1 && before[0].WriterLog? && before[0].ctx == ctx && before[0].e == e
    ensures before[0].w.prefix == "" && before[0].w.flag == StdFlags && before[0].w.out == stderr
    ensures first == Stored && second == Panic(TwicePanic)
    ensures after == Loggers.Log(l, ctx, e)
  {
    var d := new DefaultLogger(stderr);
    var handle := d;
    before := handle.Log(ctx, e);
    first := d.SetDefault(Some(l));
    second := d.SetDefault(Some(Discard));
    after := handle.Log(ctx, e);
  }

  /** A nil SetDefault fires the latch: the fallback stays in use for good and
      every later SetDefault panics. */
  method NilFirst(stderr: Destination, l: Logger, ctx: Context, e: Entry)
    returns (first: Outcome, second: Outcome, after: seq<Call>)
    ensures first == Panic(NilPanic) && second == Panic(TwicePanic)
    ensures |after| == 1 && after[0].WriterLog? && after[0].ctx == ctx && after[0].e == e
    ensures after[0].w.prefix == "" && after[0].w.flag == StdFlags && after[0].w.out == stderr
  {
    var d := new DefaultLogger(stderr);
    first := d.SetDefault(None);
    second := d.SetDefault(Some(l));
    after := d.Log(ctx, e);
  }
}
