/**
 * Package `loggerv2` (zerolog_logger.go): no global handle; `New` always
 * builds a fresh handle, and a write is gated by, and written through, the
 * handle the context carries, falling back to the receiver.
 */
module LoggerV2 {
  import opened Common
  import opened Levels
  import opened Carrier
  import opened Emit
  import Fields

  /** `ZeroLogger`, as in package sugarzero, with the level-setting error swallowed. */
  class ZeroLogger {
    var level: Level
    const target: Target
    ghost var emitted: seq<Record>

    constructor (level: Level, target: Target)
      ensures this.level == level && this.target == target && emitted == []
    {
      this.level := level;
      this.target := target;
      emitted := [];
    }

    /** `GetLogLevel`: the lower-case name of the current level, which parses back to it. */
    function GetLogLevel(): (name: string)
      reads this
      ensures ParseLevel(name) == Ok(level)
      ensures LevelNamed(name) == Some(level)
    {
      NameRoundTrip(level);
      Name(level)
    }

    /** `SetLogLevel`: unparsable text is silently ignored; a valid level replaces the current one. */
    method SetLogLevel(text: string)
      modifies this`level
      ensures ParseLevel(text).Err? ==> level == old(level)
      ensures ParseLevel(text).Ok? ==> level == ParseLevel(text).value
      ensures ParseLevel(text).Ok? ==> GetLogLevel() == if text == "" then "info" else ToLower(text)
    {
      var parsed := ParseLevel(text);
      if parsed.Err? {
        return;
      }
      level := parsed.value;
      ParsedName(text);
    }

    /** `loggerFromContext`: the handle the context carries, else the receiver. */
    function LoggerFromContext(ctx: Context<ZeroLogger>): (active: ZeroLogger)
      ensures active == this || (ctx.Ctx? && ctx.logger == Some(active))
      ensures ctx.Ctx? && ctx.logger.Some? ==> active == ctx.logger.value
    {
      if ctx.Ctx? && ctx.logger.Some? then ctx.logger.value else this
    }

    /**
     * `writeArgs` / `writef`, reached through each of the 15 logging methods:
     * the active handle's level gates the call and the record goes to the
     * active handle's writer; no other handle is touched.
     */
    method Log(ctx: Context<ZeroLogger>, call: Call)
      modifies LoggerFromContext(ctx)`emitted
      ensures var active := LoggerFromContext(ctx);
              active.emitted == old(active.emitted) + Emission(active.level, ctx, call)
    {
      var active := LoggerFromContext(ctx);
      if AtLeast(call.severity, active.level) {
        active.emitted := active.emitted + [RecordOf(ctx, call)];
      }
    }
  }

  /** Attaching a handle makes it the active one for every receiver; adding fields never changes which is active. */
  lemma ResolutionAfterAttach(receiver: ZeroLogger, ctx: Context<ZeroLogger>, h: ZeroLogger, kv: seq<Val>)
    requires ctx.Ctx?
    ensures receiver.LoggerFromContext(WithLogger(ctx, h)) == h
    ensures receiver.LoggerFromContext(Fields.Extended(ctx, kv)) == receiver.LoggerFromContext(ctx)
  {
  }

  /**
   * `New`: an invalid level returns the (nil-substituted) context, no handle
   * and the error; otherwise a fresh handle at the parsed level over the
   * selected writer, attached to the returned context.
   */
  method New(ctx: Context<ZeroLogger>, levelText: string, writers: seq<Writer>)
    returns (r: Context<ZeroLogger>, logger: ZeroLogger?, err: Option<LevelError>)
    ensures ParseLevel(levelText).Err? ==>
              r == OrBackground(ctx) && logger == null && err == Some(InvalidLevel(levelText))
    ensures ParseLevel(levelText).Ok? ==>
              && logger != null && fresh(logger)
              && logger.level == ParseLevel(levelText).value
              && logger.target == SelectWriter(writers)
              && logger.emitted == []
              && err == None && r == WithLogger(OrBackground(ctx), logger)
  {
    var base := OrBackground(ctx);
    var parsed := ParseLevel(levelText);
    if parsed.Err? {
      return base, null, Some(parsed.error);
    }
    var writer := SelectWriter(writers);
    var zl := new ZeroLogger(parsed.value, writer);
    r, logger, err := WithLogger(base, zl), zl, None;
  }

  /**
   * A client, using only the contracts above: a handle at "error" drops an
   * info call and writes an error call; unparsable text leaves the level.
   */
  method GatingExample()
  {
    LowerUpperWord("error");
    ParseLevelAccepts("error", Error);
    var ctx, logger, err := New(Nil, "error", [External(1), External(2)]);
    var h: ZeroLogger := logger;
    h.Log(ctx, Call(Info, Plain, [S("hidden")]));
    assert h.emitted == [];
    h.Log(ctx, Call(Error, Plain, [S("shown")]));
    assert |h.emitted| == 1 && LevelField(h.emitted[0].level) == LevelField(Error);
    LowerUpperWord("bogus");
    ParseLevelRejects("bogus");
    h.SetLogLevel("bogus");
    assert h.GetLogLevel() == "error";
  }
}
