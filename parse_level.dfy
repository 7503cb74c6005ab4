/** ParseLevel: level names to levels, case-insensitively, never failing. */
module ParseLevels {
  import opened Wrappers
  import opened Levels
  import opened Emit

  /** What ParseLevel returns, and the calls it makes into the logger on the way. */
  datatype Parsed = Parsed(level: Level, effects: Call)

  /** The format ParseLevel logs an unrecognised name with. */
  const UnknownLevelFormat := "ParseLevel: unknown level: %s"

  /** The lower-case spellings that name a level; "warning" is an alias of "warn". */
  function Spellings(lv: Level): set<string> {
    match lv
    case DebugLevel => {"debug"}
    case InfoLevel => {"info"}
    case WarnLevel => {"warn", "warning"}
    case ErrorLevel => {"error"}
    case PanicLevel => {"panic"}
    case FatalLevel => {"fatal"}
  }

  /** Every spelling is written without capitals, so it survives lower-casing. */
  lemma SpellingsAreLowerCase(lv: Level, name: string)
    requires name in Spellings(lv)
    ensures NoAsciiUpper(name) && ToLower(name) == name
  {
    assert name in {"debug", "info", "warn", "warning", "error", "panic", "fatal"};
    assert NoAsciiUpper(name) by {
      forall i | 0 <= i < |name| ensures !IsAsciiUpper(name[i]) {
      }
    }
    ToLowerKeepsLowerCase(name);
  }

  /** `name` is a spelling of some level. */
  predicate Recognised(name: string) {
    name in {"debug", "info", "warn", "warning", "error", "panic", "fatal"}
  }

  /** The recognised names are exactly the spellings of the six levels. */
  lemma RecognisedIsSomeSpelling(name: string)
    ensures Recognised(name) <==> exists lv :: name in Spellings(lv)
  {
    if Recognised(name) {
      var lv :=
        if name == "debug" then DebugLevel
        else if name == "info" then InfoLevel
        else if name == "warn" || name == "warning" then WarnLevel
        else if name == "error" then ErrorLevel
        else if name == "panic" then PanicLevel
        else FatalLevel;
      assert name in Spellings(lv);
    }
  }

  /** ParseLevel with `ts` as the timestamp its error message would carry. The
      input is compared, after ASCII lower-casing, against each spelling in turn;
      an unknown name is reported through Errorf and Debug is returned. */
  function ParseLevel(ts: string, s: string): (r: Parsed)
    ensures r.effects.outcome == Continue
    ensures r.effects.emitted == [] <==> Recognised(ToLower(s))
  {
    var lower := ToLower(s);
    if lower == "debug" then Parsed(DebugLevel, Call([], Continue))
    else if lower == "info" then Parsed(InfoLevel, Call([], Continue))
    else if lower == "warn" || lower == "warning" then Parsed(WarnLevel, Call([], Continue))
    else if lower == "error" then Parsed(ErrorLevel, Call([], Continue))
    else if lower == "panic" then Parsed(PanicLevel, Call([], Continue))
    else if lower == "fatal" then Parsed(FatalLevel, Call([], Continue))
    else Parsed(DebugLevel, Errorf(ts, UnknownLevelFormat, [Str(s)]))
  }

  /** ParseLevel returns `lv` silently exactly when the lower-cased input is
      one of the spellings of `lv`. */
  lemma ParseLevelRecognises(ts: string, s: string, lv: Level)
    ensures ParseLevel(ts, s) == Parsed(lv, Call([], Continue)) <==> ToLower(s) in Spellings(lv)
  {
  }

  /** Every spelling of every level, in any mixture of letter cases, parses to that level. */
  lemma ParseLevelAnyCase(ts: string, s: string, lv: Level, name: string)
    requires name in Spellings(lv)
    requires SpellsIgnoringCase(s, name)
    ensures ParseLevel(ts, s) == Parsed(lv, Call([], Continue))
  {
    SpellingsAreLowerCase(lv, name);
    ToLowerMatchesSpelling(s, name);
    ParseLevelRecognises(ts, s, lv);
  }

  /** "warning", in any case, parses to WarnLevel, as "warn" does. */
  lemma WarningIsWarn(ts: string, s: string)
    requires SpellsIgnoringCase(s, "warning")
    ensures ParseLevel(ts, s) == ParseLevel(ts, "warn") == Parsed(WarnLevel, Call([], Continue))
  {
    ParseLevelAnyCase(ts, s, WarnLevel, "warning");
    SpellingsAreLowerCase(WarnLevel, "warn");
    ParseLevelRecognises(ts, "warn", WarnLevel);
  }

  /** An unrecognised name gives DebugLevel and exactly one Error-level emission
      reporting the name as given, and ParseLevel still returns normally. */
  lemma ParseLevelUnknown(ts: string, s: string)
    requires !Recognised(ToLower(s))
    ensures ParseLevel(ts, s).level == DebugLevel
    ensures |ParseLevel(ts, s).effects.emitted| == 1
    ensures IsStampedf(ParseLevel(ts, s).effects.emitted[0], ErrorLevel, ts, UnknownLevelFormat, [Str(s)])
    ensures ParseLevel(ts, s).effects.outcome == Continue
  {
  }

  /** The level chosen depends only on the lower-cased input. The whole result
      does too for a recognised name; for an unknown one the error message quotes
      the input exactly as given, so it is the same only for an input without capitals. */
  lemma ParseLevelSeesOnlyLowerCase(ts: string, s: string)
    ensures ParseLevel(ts, s).level == ParseLevel(ts, ToLower(s)).level
    ensures ParseLevel(ts, s).effects.outcome == ParseLevel(ts, ToLower(s)).effects.outcome
    ensures |ParseLevel(ts, s).effects.emitted| == |ParseLevel(ts, ToLower(s)).effects.emitted|
    ensures Recognised(ToLower(s)) || s == ToLower(s)
        <==> ParseLevel(ts, s) == ParseLevel(ts, ToLower(s))
  {
    ToLowerIdempotent(s);
    if !Recognised(ToLower(s)) && ParseLevel(ts, s) == ParseLevel(ts, ToLower(s)) {
      ParseLevelUnknown(ts, s);
      ParseLevelUnknown(ts, ToLower(s));
      StampedfShape(ParseLevel(ts, s).effects.emitted[0], ErrorLevel, ts, UnknownLevelFormat, [Str(s)]);
      StampedfShape(ParseLevel(ts, s).effects.emitted[0], ErrorLevel, ts, UnknownLevelFormat, [Str(ToLower(s))]);
      assert ParseLevel(ts, s).effects.emitted[0].args[1] == Str(s);
    }
  }

  /** The name the package's own test parses for each level. */
  function TestName(lv: Level): (name: string)
    ensures name in Spellings(lv)
  {
    match lv
    case DebugLevel => "debug"
    case InfoLevel => "info"
    case WarnLevel => "warn"
    case ErrorLevel => "error"
    case PanicLevel => "panic"
    case FatalLevel => "fatal"
  }

  /** Each of the six names the package's own test parses gives its level, silently. */
  lemma ParseLevelTestNames(ts: string, lv: Level)
    ensures ParseLevel(ts, TestName(lv)) == Parsed(lv, Call([], Continue))
  {
    SpellingsAreLowerCase(lv, TestName(lv));
    ParseLevelRecognises(ts, TestName(lv), lv);
  }


}
