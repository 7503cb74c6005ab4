/** The log levels of the facade and the ASCII case folding used to parse their names. */
module Levels {

  /** The six levels the package exports, named as its constants are. */
  datatype Level = DebugLevel | InfoLevel | WarnLevel | ErrorLevel | PanicLevel | FatalLevel

  /** The integer a level stands for as a zapcore.Level. zap's DPanicLevel (3)
      is not one of the six exported constants, so no level maps to it. */
  function Code(lv: Level): (c: int)
    ensures -1 <= c <= 5 && c != 3
    ensures c == 2 <==> lv == ErrorLevel
    ensures 2 < c <==> lv in {PanicLevel, FatalLevel}
  {
    match lv
    case DebugLevel => -1
    case InfoLevel => 0
    case WarnLevel => 1
    case ErrorLevel => 2
    case PanicLevel => 4
    case FatalLevel => 5
  }

  /** `a` is at least as severe as `b`. */
  predicate AtLeast(a: Level, b: Level) {
    Code(a) >= Code(b)
  }

  /** Severity is the total order Debug < Info < Warn < Error < Panic < Fatal:
      two levels with the same code are the same level, and any two levels are comparable. */
  lemma SeverityIsTotalOrder(a: Level, b: Level)
    ensures Code(DebugLevel) < Code(InfoLevel) < Code(WarnLevel) < Code(ErrorLevel) < Code(PanicLevel) < Code(FatalLevel)
    ensures !AtLeast(DebugLevel, InfoLevel) && !AtLeast(InfoLevel, WarnLevel) && !AtLeast(WarnLevel, ErrorLevel)
    ensures !AtLeast(ErrorLevel, PanicLevel) && !AtLeast(PanicLevel, FatalLevel)
    ensures Code(a) == Code(b) <==> a == b
    ensures AtLeast(a, b) || AtLeast(b, a)
    ensures AtLeast(a, b) && AtLeast(b, a) ==> a == b
  {
  }

  predicate IsAsciiUpper(c: char) {
    'A' <= c <= 'Z'
  }

  /** ASCII lower-casing of one character. */
  function LowerChar(c: char): (d: char)
    ensures !IsAsciiUpper(d)
    ensures !IsAsciiUpper(c) ==> d == c
    ensures IsAsciiUpper(c) ==> 'a' <= d <= 'z' && d as int == c as int + 32
  {
    if IsAsciiUpper(c) then (c as int + 32) as char else c
  }

  /** ASCII lower-casing of a string, character by character. */
  function ToLower(s: string): (r: string)
    ensures |r| == |s|
    ensures forall i :: 0 <= i < |s| ==> r[i] == LowerChar(s[i])
  {
    if s == [] then [] else [LowerChar(s[0])] + ToLower(s[1..])
  }

  /** Lower-casing twice is lower-casing once. */
  lemma ToLowerIdempotent(s: string)
    ensures ToLower(ToLower(s)) == ToLower(s)
  {
    var once := ToLower(s);
    assert forall i :: 0 <= i < |s| ==> ToLower(once)[i] == once[i];
  }

  predicate NoAsciiUpper(name: string) {
    forall i :: 0 <= i < |name| ==> !IsAsciiUpper(name[i])
  }

  /** A string without capitals is its own lower-case form. */
  lemma ToLowerKeepsLowerCase(s: string)
    requires NoAsciiUpper(s)
    ensures ToLower(s) == s
  {
  }

  /** `s` spells the lower-case word `name` with each letter in either case
      ("Warn", "WARN" and "wArN" all spell "warn"). */
  predicate SpellsIgnoringCase(s: string, name: string) {
    |s| == |name| &&
    forall i :: 0 <= i < |s| ==>
      s[i] == name[i] || (IsAsciiUpper(s[i]) && s[i] as int + 32 == name[i] as int)
  }

  /** For a word without capitals, lower-casing a string gives the word exactly
      when the string spells it in some mixture of cases. */
  lemma ToLowerMatchesSpelling(s: string, name: string)
    requires NoAsciiUpper(name)
    ensures ToLower(s) == name <==> SpellsIgnoringCase(s, name)
  {
    if SpellsIgnoringCase(s, name) {
      forall i | 0 <= i < |s| ensures ToLower(s)[i] == name[i] {
        if !IsAsciiUpper(s[i]) {
          assert s[i] == name[i];
        }
      }
    }
  }
}
