/**
 * The severity levels of the `loglevel` logger that the plugin extends, the
 * upper-casing used to find a method's severity, and JavaScript's `>=` and
 * `Math.min` on severities.
 */
module Levels {
  import opened Wrappers

  /** loglevel's numeric severities: higher is more severe; SILENT is above every real level. */
  const TRACE := 0
  const DEBUG := 1
  const INFO := 2
  const WARN := 3
  const ERROR := 4
  const SILENT := 5

  /** The logger's `levels` table, keyed by upper-case level name. */
  const LevelTable: map<string, int> :=
    map["TRACE" := TRACE, "DEBUG" := DEBUG, "INFO" := INFO,
        "WARN" := WARN, "ERROR" := ERROR, "SILENT" := SILENT]

  /** `toUpperCase` on one character, for the ASCII letters. */
  function UpperChar(c: char): char {
    if 'a' <= c <= 'z' then (c as int - 32) as char else c
  }

  /** `String.prototype.toUpperCase`, restricted to ASCII case mapping. */
  function ToUpper(s: string): (r: string)
    ensures |r| == |s|
    ensures forall i :: 0 <= i < |s| ==>
      if 'a' <= s[i] <= 'z' then r[i] as int == s[i] as int - 32 else r[i] == s[i]
    ensures forall i :: 0 <= i < |r| ==> !('a' <= r[i] <= 'z')
  {
    if s == [] then [] else [UpperChar(s[0])] + ToUpper(s[1..])
  }

  /** Upper-casing twice is upper-casing once. */
  lemma ToUpperIdempotent(s: string)
    ensures ToUpper(ToUpper(s)) == ToUpper(s)
  {
  }

  /**
   * The severity of a logging method, found by its upper-cased name in the
   * level table; `None` is the `undefined` that a missing key yields.
   */
  function LevelOf(methodName: string): (r: Option<int>)
    ensures r.Some? <==> ToUpper(methodName) in LevelTable
    ensures r.Some? ==> r.value == LevelTable[ToUpper(methodName)] && TRACE <= r.value <= SILENT
    ensures r.Some? ==> (r.value == SILENT <==> ToUpper(methodName) == "SILENT")
  {
    var key := ToUpper(methodName);
    if key in LevelTable then Some(LevelTable[key]) else None
  }

  /** The lookup does not depend on the case of the method name. */
  lemma LevelOfIgnoresCase(methodName: string)
    ensures LevelOf(ToUpper(methodName)) == LevelOf(methodName)
  {
    ToUpperIdempotent(methodName);
  }

  /** A method name in lower case finds the severity stored under its upper-case form. */
  lemma {:induction false} LevelOfLowerCase(methodName: string, key: string)
    requires |methodName| == |key|
    requires forall i :: 0 <= i < |key| ==> 'A' <= key[i] <= 'Z' && methodName[i] as int == key[i] as int + 32
    requires key in LevelTable
    ensures LevelOf(methodName) == Some(LevelTable[key])
  {
    assert ToUpper(methodName) == key;
  }

  /** The methods loglevel creates. */
  const LoggingMethods: seq<string> := ["trace", "debug", "info", "warn", "error"]

  /** Each of loglevel's logging methods has a real severity, below SILENT. */
  lemma LevelOfLoggingMethod(methodName: string)
    requires methodName in LoggingMethods
    ensures LevelOf(methodName).Some? && LevelOf(methodName).value < SILENT
  {
    if methodName == "trace" {
      LevelOfLowerCase("trace", "TRACE");
    } else if methodName == "debug" {
      LevelOfLowerCase("debug", "DEBUG");
    } else if methodName == "info" {
      LevelOfLowerCase("info", "INFO");
    } else if methodName == "warn" {
      LevelOfLowerCase("warn", "WARN");
    } else {
      LevelOfLowerCase("error", "ERROR");
    }
  }

  /**
   * JavaScript's `msgLevel >= threshold` where `msgLevel` may be `undefined`:
   * a comparison with `undefined` is false.
   */
  predicate AtLeast(msgLevel: Option<int>, threshold: int): (r: bool)
    ensures msgLevel.None? ==> !r
    ensures msgLevel.Some? ==> (r <==> threshold <= msgLevel.value)
  {
    msgLevel.Some? && msgLevel.value >= threshold
  }

  /** `Math.min` of two severities. */
  function Min(a: int, b: int): (r: int)
    ensures r <= a && r <= b
    ensures r == a || r == b
  {
    if a <= b then a else b
  }

  /**
   * Reaching the lower of two thresholds is reaching either of them, for a
   * defined or an undefined severity alike.
   */
  lemma AtLeastMin(msgLevel: Option<int>, a: int, b: int)
    ensures AtLeast(msgLevel, Min(a, b)) <==> AtLeast(msgLevel, a) || AtLeast(msgLevel, b)
  {
  }
}
