/** The part of a context.Context the core looks at: its identity, and the
    testing.TB a test attached to it (testlog.WithTB). */
module Contexts {
  import opened Wrappers

  /** A test's TB, by identity. */
  type TB = nat

  datatype Context = Context(id: nat, tb: Option<TB>)

  /** context.Background(): no values attached. */
  const Background: Context := Context(0, None)

  /** testlog.WithTB: the same context with `tb` attached. */
  function WithTB(parent: Context, tb: TB): (r: Context)
    ensures r.tb == Some(tb) && r.id == parent.id
  {
    parent.(tb := Some(tb))
  }
}
