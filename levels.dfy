/**
 * Severities and the textual level names the loggers accept and report.
 * Both Go packages carry the same `parseLevel`; it is modelled once here.
 */
module Levels {
  import opened Common

  /** zerolog's severities, from least to most severe. */
  datatype Level = Trace | Debug | Info | Warn | Error | Fatal | Panic

  /** zerolog's numeric value of each severity; the gate compares these. */
  function Rank(l: Level): int
  {
    match l
    case Trace => -1
    case Debug => 0
    case Info => 1
    case Warn => 2
    case Error => 3
    case Fatal => 4
    case Panic => 5
  }

  /** A record at `severity` passes a handle whose level is `threshold`. */
  predicate AtLeast(severity: Level, threshold: Level)
  {
    Rank(severity) >= Rank(threshold)
  }

  /** The ordering is total and antisymmetric: distinct levels never tie. */
  lemma LevelsTotallyOrdered(a: Level, b: Level)
    ensures AtLeast(a, b) || AtLeast(b, a)
    ensures AtLeast(a, b) && AtLeast(b, a) ==> a == b
  {
  }

  /** The lower-case name `Level.String()` gives, which `GetLogLevel` reports. */
  function Name(l: Level): string
  {
    match l
    case Trace => "trace"
    case Debug => "debug"
    case Info => "info"
    case Warn => "warn"
    case Error => "error"
    case Fatal => "fatal"
    case Panic => "panic"
  }

  /** The inverse of `Name`: the level a lower-case name denotes, if any. */
  function LevelNamed(name: string): (r: Option<Level>)
    ensures r.Some? ==> Name(r.value) == name
    ensures r.None? ==> forall l :: Name(l) != name
  {
    if name == "trace" then Some(Trace)
    else if name == "debug" then Some(Debug)
    else if name == "info" then Some(Info)
    else if name == "warn" then Some(Warn)
    else if name == "error" then Some(Error)
    else if name == "fatal" then Some(Fatal)
    else if name == "panic" then Some(Panic)
    else None
  }

  function LowerChar(c: char): char
  {
    if 'A' <= c <= 'Z' then (c as int + 32) as char else c
  }

  function UpperChar(c: char): char
  {
    if 'a' <= c <= 'z' then (c as int - 32) as char else c
  }

  /** `strings.ToLower`, restricted to ASCII letters. */
  function ToLower(s: string): (r: string)
    ensures |r| == |s|
  {
    seq(|s|, i requires 0 <= i < |s| => LowerChar(s[i]))
  }

  /** `strings.ToUpper`, restricted to ASCII letters. */
  function ToUpper(s: string): (r: string)
    ensures |r| == |s|
  {
    seq(|s|, i requires 0 <= i < |s| => UpperChar(s[i]))
  }

  /** The `level` field of an emitted record: the upper-cased name. */
  function LevelField(l: Level): string
  {
    ToUpper(Name(l))
  }

  /** The error `parseLevel` returns; it names the offending text. */
  datatype LevelError = InvalidLevel(text: string)

  /** The message of a `LevelError`, up to Go's `%q` escaping and the wrapped zerolog error. */
  function ErrorText(e: LevelError): string
  {
    "invalid log level \"" + e.text + "\""
  }

  /**
   * `parseLevel`: the empty text means info; anything else is lower-cased
   * and looked up among the seven names; unknown text is an error.
   */
  function ParseLevel(text: string): Result<Level, LevelError>
  {
    if text == "" then Ok(Info)
    else
      match LevelNamed(ToLower(text))
      case Some(l) => Ok(l)
      case None => Err(InvalidLevel(text))
  }

  lemma ParseEmptyIsInfo()
    ensures ParseLevel("") == Ok(Info)
  {
  }

  /** What `ParseLevel` accepts, both directions. */
  lemma ParseLevelAccepts(text: string, l: Level)
    ensures ParseLevel(text) == Ok(l) <==> (text == "" && l == Info) || (text != "" && ToLower(text) == Name(l))
  {
    if text != "" && ToLower(text) == Name(l) {
      assert LevelNamed(Name(l)) == Some(l);
    }
  }

  /** What `ParseLevel` rejects: exactly the non-empty texts that lower-case to no name; the error carries the text. */
  lemma ParseLevelRejects(text: string)
    ensures ParseLevel(text).Err? <==> text != "" && forall l :: ToLower(text) != Name(l)
    ensures ParseLevel(text).Err? ==> ParseLevel(text).error == InvalidLevel(text)
    ensures ParseLevel(text).Err? ==> ErrorText(ParseLevel(text).error)[..17] == "invalid log level"
  {
  }

  /** Case does not matter: texts that agree after lower-casing parse to the same level. */
  lemma ParseIgnoresCase(a: string, b: string)
    requires ToLower(a) == ToLower(b)
    ensures ParseLevel(a).Ok? <==> ParseLevel(b).Ok?
    ensures ParseLevel(a).Ok? ==> ParseLevel(a) == ParseLevel(b)
  {
    assert a == "" <==> b == "";
  }

  predicate IsLowerWord(s: string)
  {
    forall i :: 0 <= i < |s| ==> 'a' <= s[i] <= 'z'
  }

  lemma LowerUpperWord(s: string)
    requires IsLowerWord(s)
    ensures ToLower(ToUpper(s)) == s
    ensures ToLower(s) == s
  {
  }

  /**
   * Level names round-trip: the name `GetLogLevel` reports and the upper-case
   * name written into records both parse back to the same level.
   */
  lemma NameRoundTrip(l: Level)
    ensures ParseLevel(Name(l)) == Ok(l)
    ensures ParseLevel(LevelField(l)) == Ok(l)
  {
    assert IsLowerWord(Name(l));
    LowerUpperWord(Name(l));
    ParseLevelAccepts(Name(l), l);
    ParseLevelAccepts(LevelField(l), l);
  }

  /** The name reported after a successful parse: "info" for the empty text, else the lower-cased text. */
  lemma ParsedName(text: string)
    requires ParseLevel(text).Ok?
    ensures Name(ParseLevel(text).value) == if text == "" then "info" else ToLower(text)
  {
    ParseLevelAccepts(text, ParseLevel(text).value);
  }
}
