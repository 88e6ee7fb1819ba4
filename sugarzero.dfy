/**
 * Package `sugarzero` (sugarzero.go): a handle whose level can change in
 * place, and a process-wide handle created by the first successful `New`
 * and dropped by `Reset`.
 */
module SugarZero {
  import opened Common
  import opened Levels
  import opened Carrier
  import opened Emit
  import Fields

  /** The message of the warning written when a call falls back to the global handle. */
  const FallbackWarning: string := "context does not contain a logger, using fallback logger"

  /**
   * `ZeroLogger`. The zerolog logger inside it is always gated at `level`
   * (both are set together), so one field stands for both. `emitted` is the
   * stream of records the handle has handed to its write target.
   */
  class ZeroLogger {
    var level: Level
    const target: Target
    ghost var emitted: seq<Record>

    constructor (level: Level, target: Target)
      ensures this.level == level && this.target == target && emitted == []
    {
      this.level := level;
      this.target := target;
      emitted := [];
    }

    /** `GetLogLevel`: the lower-case name of the current level, which parses back to it. */
    function GetLogLevel(): (name: string)
      reads this
      ensures ParseLevel(name) == Ok(level)
      ensures LevelNamed(name) == Some(level)
    {
      NameRoundTrip(level);
      Name(level)
    }

    /**
     * `SetLogLevel`: an unparsable text is reported and changes nothing;
     * otherwise the new level is in force and `GetLogLevel` reports its
     * lower-case name.
     */
    method SetLogLevel(text: string) returns (err: Option<LevelError>)
      modifies this`level
      ensures ParseLevel(text).Err? ==> err == Some(InvalidLevel(text)) && level == old(level)
      ensures ParseLevel(text).Ok? ==> err == None && level == ParseLevel(text).value
      ensures ParseLevel(text).Ok? ==> GetLogLevel() == if text == "" then "info" else ToLower(text)
    {
      var parsed := ParseLevel(text);
      if parsed.Err? {
        return Some(parsed.error);
      }
      level := parsed.value;
      ParsedName(text);
      err := None;
    }

    /**
     * `writeArgs` / `writef`, reached through each of the 15 logging
     * methods: below the level nothing is written; otherwise exactly one
     * record at the call's severity, carrying the context's fields.
     */
    method Log(ctx: Context<ZeroLogger>, call: Call)
      modifies this`emitted
      ensures emitted == old(emitted) + Emission(level, ctx, call)
    {
      if AtLeast(call.severity, level) {
        emitted := emitted + [RecordOf(ctx, call)];
      }
    }

    /** `logMissingLoggerWarning`: one WARN record with the fallback message, unless warnings are gated off. */
    method LogMissingLoggerWarning()
      modifies this`emitted
      ensures emitted == old(emitted) + if AtLeast(Warn, level) then [Record(Warn, Text(FallbackWarning), [])] else []
    {
      if AtLeast(Warn, level) {
        emitted := emitted + [Record(Warn, Text(FallbackWarning), [])];
      }
    }
  }

  /** `loggerFromContextValue`: the handle stored in the context, absent for a nil context or an empty slot. */
  function LoggerFromContextValue(ctx: Context<ZeroLogger>): (r: Option<ZeroLogger>)
    ensures r.Some? <==> ctx.Ctx? && ctx.logger.Some?
    ensures ctx.Ctx? ==> r == ctx.logger
  {
    if ctx.Ctx? then ctx.logger else None
  }

  /** Attaching a handle is what resolution finds; adding fields never changes it. */
  lemma ResolutionAfterAttach(ctx: Context<ZeroLogger>, h: ZeroLogger, kv: seq<Val>)
    requires ctx.Ctx?
    ensures LoggerFromContextValue(WithLogger(ctx, h)) == Some(h)
    ensures LoggerFromContextValue(Fields.Extended(ctx, kv)) == LoggerFromContextValue(ctx)
  {
  }

  /** The handles a context can resolve to: what a dispatched call may write through. */
  function HandleSet(ctx: Context<ZeroLogger>): set<ZeroLogger>
  {
    if ctx.Ctx? && ctx.logger.Some? then {ctx.logger.value} else {}
  }

  /** Why `New` failed. */
  datatype InitError = BadLevel(cause: LevelError) | NotInitialized

  /**
   * The package globals `globalLogger` and `configureZerolog`; `configured`
   * records whether the `sync.Once` has run.
   */
  class Globals {
    var globalLogger: ZeroLogger?
    var configured: bool

    /** The once-guard has run exactly when a global handle exists. */
    ghost predicate Valid()
      reads this
    {
      configured <==> globalLogger != null
    }

    /** The state at program start. */
    constructor ()
      ensures Valid() && globalLogger == null
    {
      globalLogger := null;
      configured := false;
    }

    /** `Reset`: forget the global handle and re-arm the once-guard. */
    method Reset()
      modifies this
      ensures Valid() && globalLogger == null
    {
      globalLogger := null;
      configured := false;
    }

    /**
     * `New`. Once a global handle exists it is attached to the context and
     * the requested level and writers are ignored. Otherwise an invalid level
     * is an error and creates nothing; a valid one creates the global handle
     * at that level over the selected writer. "logger not initialized" is
     * never returned.
     */
    method New(ctx: Context<ZeroLogger>, levelText: string, writers: seq<Writer>)
      returns (r: Context<ZeroLogger>, err: Option<InitError>)
      requires Valid()
      modifies this
      ensures Valid()
      ensures err != Some(NotInitialized)
      ensures old(globalLogger) != null ==>
                globalLogger == old(globalLogger) && err == None && r == WithLogger(OrBackground(ctx), globalLogger)
      ensures old(globalLogger) == null && ParseLevel(levelText).Err? ==>
                globalLogger == null && err == Some(BadLevel(InvalidLevel(levelText))) && r == OrBackground(ctx)
      ensures old(globalLogger) == null && ParseLevel(levelText).Ok? ==>
                && globalLogger != null && fresh(globalLogger)
                && globalLogger.level == ParseLevel(levelText).value
                && globalLogger.target == SelectWriter(writers)
                && globalLogger.emitted == []
                && err == None && r == WithLogger(OrBackground(ctx), globalLogger)
    {
      var base := OrBackground(ctx);
      if globalLogger != null {
        var existing: ZeroLogger := globalLogger;
        return WithLogger(base, existing), None;
      }
      var parsed := ParseLevel(levelText);
      if parsed.Err? {
        return base, Some(BadLevel(parsed.error));
      }
      var writer := SelectWriter(writers);
      if !configured {
        globalLogger := new ZeroLogger(parsed.value, writer);
        configured := true;
      }
      if globalLogger == null {
        return base, Some(NotInitialized);
      }
      var created: ZeroLogger := globalLogger;
      r, err := WithLogger(base, created), None;
    }

    /** The global handle, as a set of at most one. */
    function Fallback(): set<ZeroLogger>
      reads this
    {
      if globalLogger == null then {} else {globalLogger}
    }

    /**
     * Package-level logging call (reconstructed from the package's tests; its
     * code is not part of this model): a handle in the context is used;
     * without one the global handle first warns, then writes the call;
     * without either the call is dropped.
     */
    method Dispatch(ctx: Context<ZeroLogger>, call: Call)
      modifies HandleSet(ctx)`emitted, Fallback()`emitted
      ensures LoggerFromContextValue(ctx).Some? ==>
                var h := LoggerFromContextValue(ctx).value;
                h.emitted == old(h.emitted) + Emission(h.level, ctx, call)
      ensures LoggerFromContextValue(ctx).None? && globalLogger != null ==>
                globalLogger.emitted ==
                  old(globalLogger.emitted)
                  + (if AtLeast(Warn, globalLogger.level) then [Record(Warn, Text(FallbackWarning), [])] else [])
                  + Emission(globalLogger.level, ctx, call)
      ensures LoggerFromContextValue(ctx).Some? && globalLogger != null
              && globalLogger != LoggerFromContextValue(ctx).value ==>
                globalLogger.emitted == old(globalLogger.emitted)
      ensures unchanged(this)
    {
      var resolved := LoggerFromContextValue(ctx);
      if resolved.Some? {
        resolved.value.Log(ctx, call);
      } else if globalLogger != null {
        globalLogger.LogMissingLoggerWarning();
        globalLogger.Log(ctx, call);
      }
    }
  }
}
