/**
 * The context carrier. A Go `context.Context` is an immutable chain of
 * values; the loggers only ever look up two keys, `loggerKey` and
 * `fieldsKey`, so a carrier is modelled as a record of those two slots.
 * `Nil` stands for a nil context. The type parameter `L` is the handle
 * type of whichever package stores its handle under `loggerKey`.
 */
module Carrier {
  import opened Common

  /** A Go `any` argument: text, or any other dynamic value, identified opaquely. */
  datatype Val = S(s: string) | Other(id: int)

  datatype Context<L> = Nil | Ctx(logger: Option<L>, fields: Option<seq<Val>>)

  /** `context.Background()`: neither slot set. */
  function Background<L>(): Context<L>
  {
    Ctx(None, None)
  }

  /** The `if ctx == nil { ctx = context.Background() }` step of the entry points. */
  function OrBackground<L>(ctx: Context<L>): (r: Context<L>)
    ensures r.Ctx?
    ensures ctx.Ctx? ==> r == ctx
    ensures ctx.Nil? ==> r.logger.None? && r.fields.None?
  {
    if ctx.Nil? then Background() else ctx
  }

  /** `context.WithValue(ctx, loggerKey, h)`; Go panics on a nil parent, so callers substitute `Background` first. */
  function WithLogger<L>(ctx: Context<L>, h: L): (r: Context<L>)
    requires ctx.Ctx?
    ensures r.Ctx? && r.logger == Some(h) && r.fields == ctx.fields
  {
    ctx.(logger := Some(h))
  }

  /**
   * `flattenedFieldsFromContext`: the list under `fieldsKey`, or the empty
   * list for a nil context, a missing slot or an empty list.
   */
  function FlattenedFields<L>(ctx: Context<L>): (flat: seq<Val>)
    ensures flat != [] <==> ctx.Ctx? && ctx.fields.Some? && ctx.fields.value != []
    ensures flat != [] ==> flat == ctx.fields.value
  {
    if ctx.Ctx? && ctx.fields.Some? && |ctx.fields.value| > 0 then ctx.fields.value else []
  }
}
