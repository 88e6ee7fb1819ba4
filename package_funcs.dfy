/**
 * The package-level logging functions of `loggerv2` (package_funcs.go):
 * each resolves the handle from the context and forwards the call to the
 * method of the same severity and style, or drops it.
 */
module PackageFuncs {
  import opened Common
  import opened Carrier
  import opened Emit
  import opened LoggerV2

  /** `getLoggerFromContext`: the handle stored in the context; absent for a nil context or an empty slot. */
  function GetLoggerFromContext(ctx: Context<ZeroLogger>): (r: Option<ZeroLogger>)
    ensures ctx.Nil? ==> r.None?
    ensures ctx.Ctx? ==> r == ctx.logger
  {
    if ctx.Nil? then None else ctx.logger
  }

  /** The handles a context can resolve to: what a dispatched call may write through. */
  function HandleSet(ctx: Context<ZeroLogger>): set<ZeroLogger>
  {
    match GetLoggerFromContext(ctx)
    case Some(h) => {h}
    case None => {}
  }

  /** Attaching a handle is what resolution finds; adding fields never changes it. */
  lemma ResolutionAfterAttach(ctx: Context<ZeroLogger>, h: ZeroLogger, kv: seq<Val>)
    requires ctx.Ctx?
    ensures GetLoggerFromContext(WithLogger(ctx, h)) == Some(h)
    ensures GetLoggerFromContext(Fields.Extended(ctx, kv)) == GetLoggerFromContext(ctx)
  {
  }

  /**
   * `Debug` … `Fatalln`: with no handle the frame is empty, so nothing is
   * written anywhere; with one, the call reaches that handle's method with
   * the same context and arguments, which writes through the handle itself.
   */
  method Dispatch(ctx: Context<ZeroLogger>, call: Call)
    modifies HandleSet(ctx)`emitted
    ensures GetLoggerFromContext(ctx).Some? ==>
              var h := GetLoggerFromContext(ctx).value;
              h.emitted == old(h.emitted) + Emission(h.level, ctx, call)
  {
    var logger := GetLoggerFromContext(ctx);
    if logger.Some? {
      logger.value.Log(ctx, call);
    }
  }
}
