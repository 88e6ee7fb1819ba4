/**
 * What a handle writes: the write target chosen from the caller's writers,
 * the calls the 15 logging methods make, the level gate, and the records
 * that pass it. A record is the abstract (level, message, fields) triple
 * the encoder turns into one JSON line; timestamps and call sites are not
 * part of it.
 */
module Emit {
  import opened Levels
  import opened Carrier

  /** A write target: standard output or a writer supplied by the caller. */
  datatype Writer = Stdout | External(id: nat)

  /** One writer used directly, or an `io.MultiWriter` over several. */
  datatype Target = Direct(writer: Writer) | FanOut(writers: seq<Writer>)

  /** `selectWriter`: stdout for no writers, the writer itself for one, a fan-out for more. */
  function SelectWriter(writers: seq<Writer>): Target
  {
    if |writers| == 0 then Direct(Stdout)
    else if |writers| == 1 then Direct(writers[0])
    else FanOut(writers)
  }

  /** How many copies of each write reach `w` through target `t`. */
  function Copies(t: Target, w: Writer): nat
  {
    match t
    case Direct(x) => if x == w then 1 else 0
    case FanOut(ws) => multiset(ws)[w]
  }

  /** The selected target reaches each given writer once per time it was given, and stdout only when none was. */
  lemma SelectWriterCopies(writers: seq<Writer>, w: Writer)
    ensures Copies(SelectWriter(writers), w) == if writers == [] then (if w == Stdout then 1 else 0) else multiset(writers)[w]
  {
    if |writers| == 1 {
      assert writers == [writers[0]];
    }
  }

  /** A message as handed to zerolog; rendering by `fmt` is left abstract. */
  datatype Message =
    | Text(text: string)                           // `Msg(text)`
    | Printed(args: seq<Val>)                      // `Msgf("%v", a)` for one argument, `Msg(fmt.Sprint(args...))` for more
    | Printf(format: string, args: seq<Val>)       // `Msgf(format, args...)`

  /** The three styles of logging method: `X`, `Xf` and `Xln`. */
  datatype Style = Plain | Formatted(format: string) | Line

  /** The severities that have logging methods: Debug through Fatal. */
  type Severity = l: Level | l != Trace && l != Panic witness Info

  /** One call of one of the 15 logging methods, e.g. `Infof(ctx, format, args...)`. */
  datatype Call = Call(severity: Severity, style: Style, args: seq<Val>)

  /** One emitted log record; `fields` is the flat list handed to `event.Fields`, empty when none was attached. */
  datatype Record = Record(level: Level, message: Message, fields: seq<Val>)

  /** The message `writeArgs` / `writef` build for a call. */
  function MessageOf(call: Call): Message
  {
    match call.style
    case Formatted(format) => Printf(format, call.args)
    case _ => if call.args == [] then Text("") else Printed(call.args)
  }

  function RecordOf<L>(ctx: Context<L>, call: Call): Record
  {
    Record(call.severity, MessageOf(call), FlattenedFields(ctx))
  }

  /** The records one call emits through a handle whose level is `threshold`. */
  function Emission<L>(threshold: Level, ctx: Context<L>, call: Call): (out: seq<Record>)
    ensures |out| <= 1
    ensures out != [] <==> AtLeast(call.severity, threshold)
    ensures out != [] ==> out[0].level == call.severity && out[0].fields == FlattenedFields(ctx)
  {
    if AtLeast(call.severity, threshold) then [RecordOf(ctx, call)] else []
  }

  /** `Xln` writes the same record as `X`; with no arguments the message is empty text. */
  lemma LineMatchesPlain<L>(threshold: Level, ctx: Context<L>, severity: Severity, args: seq<Val>)
    ensures Emission(threshold, ctx, Call(severity, Line, args)) == Emission(threshold, ctx, Call(severity, Plain, args))
    ensures args == [] ==> MessageOf(Call(severity, Plain, args)) == Text("")
  {
  }

  /** What a writer receives of a stream of records when each write reaches it `copies` times. */
  function Delivered(records: seq<Record>, copies: nat): seq<Record>
    decreases |records|
  {
    if records == [] then []
    else seq(copies, _ => records[0]) + Delivered(records[1..], copies)
  }

  /** Later writes land after earlier ones. */
  lemma {:induction false} DeliveredAppend(a: seq<Record>, b: seq<Record>, copies: nat)
    ensures Delivered(a + b, copies) == Delivered(a, copies) + Delivered(b, copies)
    decreases |a|
  {
    if a == [] {
      assert a + b == b;
    } else {
      assert (a + b)[1..] == a[1..] + b;
      DeliveredAppend(a[1..], b, copies);
    }
  }

  /** A writer reached once receives the records verbatim. */
  lemma {:induction false} DeliveredOnce(records: seq<Record>)
    ensures Delivered(records, 1) == records
    decreases |records|
  {
    if records != [] {
      DeliveredOnce(records[1..]);
      assert seq(1, _ => records[0]) == [records[0]];
    }
  }

  /**
   * Fan-out parity: every writer given once to `selectWriter` receives
   * exactly the records the handle emits, so any two such writers hold
   * identical content.
   */
  lemma FanOutParity(writers: seq<Writer>, records: seq<Record>, w: Writer)
    requires multiset(writers)[w] == 1
    ensures Delivered(records, Copies(SelectWriter(writers), w)) == records
  {
    SelectWriterCopies(writers, w);
    DeliveredOnce(records);
  }
}
