/** The leveled emitters: each stamps the caller's message with a timestamp and
    forwards one call to the sugared zap logger. The backend is abstract: an
    emission is recorded as the (level, format, args) it receives, and what the
    backend does to the program afterwards as an Outcome. */
module Emit {
  import opened Wrappers
  import opened Levels

  /** A variadic argument: a string, or any other Go value, named by an opaque token. */
  datatype Arg = Str(text: string) | Value(token: int)

  /** One call into the sugared logger. The Xf emitters pass a format
      (sugar.Debugf and friends); Error, Panic and Fatal pass none (sugar.Error and friends). */
  datatype Emission = Emission(level: Level, format: Option<string>, args: seq<Arg>)

  /** What the program does after a call: go on, unwind with a recoverable
      panic, or terminate the process. */
  datatype Outcome = Continue | Unwind | Exit

  /** The emissions a call makes, in order, and how it ends. */
  datatype Call = Call(emitted: seq<Emission>, outcome: Outcome)

  /** A non-nil Go error value. */
  datatype GoError = GoError(message: string)

  /** The caller's own format and arguments. */
  datatype Request = Request(format: string, args: seq<Arg>)

  /** Put in front of the caller's format by every Xf emitter; the `%s` takes the timestamp. */
  const FormatPrefix := "%s - "

  /** Put between the timestamp and the caller's args by Error, Panic and Fatal. */
  const Separator := " - "

  /** What the zap logger does after writing at a level: Panic unwinds, Fatal exits. */
  function OutcomeOf(lv: Level): (o: Outcome)
    ensures o == Unwind <==> lv == PanicLevel
    ensures o == Exit <==> lv == FatalLevel
  {
    match lv
    case PanicLevel => Unwind
    case FatalLevel => Exit
    case _ => Continue
  }

  /** The timestamp at the head of an emission's args, if there is one. */
  function StampOf(e: Emission): Option<string> {
    if |e.args| > 0 && e.args[0].Str? then Some(e.args[0].text) else None
  }

  /** Recovers the caller's format and args from a formatted emission,
      if it carries the Xf decoration. */
  function StripFormatted(e: Emission): Option<Request> {
    if e.format.Some? && |e.format.value| >= |FormatPrefix|
       && e.format.value[..|FormatPrefix|] == FormatPrefix && StampOf(e).Some?
    then Some(Request(e.format.value[|FormatPrefix|..], e.args[1..]))
    else None
  }

  /** Recovers the caller's args from an unformatted emission,
      if it carries the timestamp and separator. */
  function StripPlain(e: Emission): Option<seq<Arg>> {
    if e.format.None? && |e.args| >= 2 && StampOf(e).Some? && e.args[1] == Str(Separator)
    then Some(e.args[2..])
    else None
  }

  /** `e` is the caller's (format, args) at level `lv`, decorated by an Xf emitter with timestamp `ts`. */
  predicate IsStampedf(e: Emission, lv: Level, ts: string, format: string, args: seq<Arg>) {
    e.level == lv && StampOf(e) == Some(ts) && StripFormatted(e) == Some(Request(format, args))
  }

  /** `e` is the caller's args at level `lv`, decorated by Error, Panic or Fatal with timestamp `ts`. */
  predicate IsStamped(e: Emission, lv: Level, ts: string, args: seq<Arg>) {
    e.level == lv && StampOf(e) == Some(ts) && StripPlain(e) == Some(args)
  }

  /** The Xf decoration determines the emission completely: the format gains the
      prefix, the args gain exactly one element, the timestamp, in front, and the
      caller's args follow in their own order. */
  lemma StampedfShape(e: Emission, lv: Level, ts: string, format: string, args: seq<Arg>)
    ensures IsStampedf(e, lv, ts, format, args)
        <==> e == Emission(lv, Some(FormatPrefix + format), [Str(ts)] + args)
  {
    if e == Emission(lv, Some(FormatPrefix + format), [Str(ts)] + args) {
      assert (FormatPrefix + format)[..|FormatPrefix|] == FormatPrefix;
      assert (FormatPrefix + format)[|FormatPrefix|..] == format;
      assert e.args[1..] == args;
    }
    if IsStampedf(e, lv, ts, format, args) {
      var f := e.format.value;
      assert f == f[..|FormatPrefix|] + f[|FormatPrefix|..];
      assert e.args == [e.args[0]] + e.args[1..];
    }
  }

  /** The unformatted decoration determines the emission completely: the args
      gain exactly two elements, the timestamp and the separator, in front. */
  lemma StampedShape(e: Emission, lv: Level, ts: string, args: seq<Arg>)
    ensures IsStamped(e, lv, ts, args)
        <==> e == Emission(lv, None, [Str(ts), Str(Separator)] + args)
  {
    if IsStamped(e, lv, ts, args) {
      assert e.args == [e.args[0], e.args[1]] + e.args[2..];
    }
  }

  /** sugar.Xf at level `lv` with the timestamp put in front. */
  function Stampf(lv: Level, ts: string, format: string, args: seq<Arg>): Call {
    Call([Emission(lv, Some(FormatPrefix + format), [Str(ts)] + args)], OutcomeOf(lv))
  }

  /** sugar.X at level `lv` with the timestamp and separator put in front. */
  function Stamp(lv: Level, ts: string, args: seq<Arg>): Call {
    Call([Emission(lv, None, [Str(ts), Str(Separator)] + args)], OutcomeOf(lv))
  }

  /** One formatted emission at `lv` carrying the caller's request, ending as `lv` demands. */
  predicate ForwardsFormatted(r: Call, lv: Level, ts: string, format: string, args: seq<Arg>) {
    |r.emitted| == 1 && IsStampedf(r.emitted[0], lv, ts, format, args) && r.outcome == OutcomeOf(lv)
  }

  /** One unformatted emission at `lv` carrying the caller's args, ending as `lv` demands. */
  predicate ForwardsPlain(r: Call, lv: Level, ts: string, args: seq<Arg>) {
    |r.emitted| == 1 && IsStamped(r.emitted[0], lv, ts, args) && r.outcome == OutcomeOf(lv)
  }

  function Debugf(ts: string, format: string, args: seq<Arg>): (r: Call)
    ensures ForwardsFormatted(r, DebugLevel, ts, format, args) && r.outcome == Continue
  {
    StampedfShape(Stampf(DebugLevel, ts, format, args).emitted[0], DebugLevel, ts, format, args);
    Stampf(DebugLevel, ts, format, args)
  }

  function Infof(ts: string, format: string, args: seq<Arg>): (r: Call)
    ensures ForwardsFormatted(r, InfoLevel, ts, format, args) && r.outcome == Continue
  {
    StampedfShape(Stampf(InfoLevel, ts, format, args).emitted[0], InfoLevel, ts, format, args);
    Stampf(InfoLevel, ts, format, args)
  }

  function Warnf(ts: string, format: string, args: seq<Arg>): (r: Call)
    ensures ForwardsFormatted(r, WarnLevel, ts, format, args) && r.outcome == Continue
  {
    StampedfShape(Stampf(WarnLevel, ts, format, args).emitted[0], WarnLevel, ts, format, args);
    Stampf(WarnLevel, ts, format, args)
  }

  function Errorf(ts: string, format: string, args: seq<Arg>): (r: Call)
    ensures ForwardsFormatted(r, ErrorLevel, ts, format, args) && r.outcome == Continue
  {
    StampedfShape(Stampf(ErrorLevel, ts, format, args).emitted[0], ErrorLevel, ts, format, args);
    Stampf(ErrorLevel, ts, format, args)
  }

  function Panicf(ts: string, format: string, args: seq<Arg>): (r: Call)
    ensures ForwardsFormatted(r, PanicLevel, ts, format, args) && r.outcome == Unwind
  {
    StampedfShape(Stampf(PanicLevel, ts, format, args).emitted[0], PanicLevel, ts, format, args);
    Stampf(PanicLevel, ts, format, args)
  }

  function Fatalf(ts: string, format: string, args: seq<Arg>): (r: Call)
    ensures ForwardsFormatted(r, FatalLevel, ts, format, args) && r.outcome == Exit
  {
    StampedfShape(Stampf(FatalLevel, ts, format, args).emitted[0], FatalLevel, ts, format, args);
    Stampf(FatalLevel, ts, format, args)
  }

  function Error(ts: string, args: seq<Arg>): (r: Call)
    ensures ForwardsPlain(r, ErrorLevel, ts, args) && r.outcome == Continue
  {
    StampedShape(Stamp(ErrorLevel, ts, args).emitted[0], ErrorLevel, ts, args);
    Stamp(ErrorLevel, ts, args)
  }

  function Panic(ts: string, args: seq<Arg>): (r: Call)
    ensures ForwardsPlain(r, PanicLevel, ts, args) && r.outcome == Unwind
  {
    StampedShape(Stamp(PanicLevel, ts, args).emitted[0], PanicLevel, ts, args);
    Stamp(PanicLevel, ts, args)
  }

  function Fatal(ts: string, args: seq<Arg>): (r: Call)
    ensures ForwardsPlain(r, FatalLevel, ts, args) && r.outcome == Exit
  {
    StampedShape(Stamp(FatalLevel, ts, args).emitted[0], FatalLevel, ts, args);
    Stamp(FatalLevel, ts, args)
  }

  /** Two Error-level emissions, in order: the stack text, then the caller's
      formatted message. Each takes its own reading of the clock. */
  function TraceError(tsStack: string, stack: string, ts: string, format: string, args: seq<Arg>): (r: Call)
    ensures |r.emitted| == 2 && r.outcome == Continue
    ensures IsStamped(r.emitted[0], ErrorLevel, tsStack, [Str(stack)])
    ensures IsStampedf(r.emitted[1], ErrorLevel, ts, format, args)
  {
    var first := Error(tsStack, [Str(stack)]);
    var second := Errorf(ts, format, args);
    Call(first.emitted + second.emitted, second.outcome)
  }

  /** Panics with the caller's args when `err` is non-nil; does nothing otherwise. */
  function PanicIfError(err: Option<GoError>, ts: string, args: seq<Arg>): (r: Call)
    ensures err == None ==> r == Call([], Continue)
    ensures err != None ==> ForwardsPlain(r, PanicLevel, ts, args) && r.outcome == Unwind
  {
    if err != None then Panic(ts, args) else Call([], Continue)
  }

  /** Panics with the caller's format and args when `err` is non-nil; does nothing otherwise. */
  function PanicfIfError(err: Option<GoError>, ts: string, format: string, args: seq<Arg>): (r: Call)
    ensures err == None ==> r == Call([], Continue)
    ensures err != None ==> ForwardsFormatted(r, PanicLevel, ts, format, args) && r.outcome == Unwind
  {
    if err != None then Panicf(ts, format, args) else Call([], Continue)
  }

  /** Exits with the caller's args when `err` is non-nil; does nothing otherwise. */
  function FatalIfError(err: Option<GoError>, ts: string, args: seq<Arg>): (r: Call)
    ensures err == None ==> r == Call([], Continue)
    ensures err != None ==> ForwardsPlain(r, FatalLevel, ts, args) && r.outcome == Exit
  {
    if err != None then Fatal(ts, args) else Call([], Continue)
  }

  /** Exits with the caller's format and args when `err` is non-nil; does nothing otherwise. */
  function FatalfIfError(err: Option<GoError>, ts: string, format: string, args: seq<Arg>): (r: Call)
    ensures err == None ==> r == Call([], Continue)
    ensures err != None ==> ForwardsFormatted(r, FatalLevel, ts, format, args) && r.outcome == Exit
  {
    if err != None then Fatalf(ts, format, args) else Call([], Continue)
  }

  /** The *IfError helpers look only at whether the error is nil: two non-nil
      errors with different messages give the same call, so the error's text
      reaches the log only if the caller passes it in `args`. */
  lemma IfErrorIgnoresErrorText(e1: GoError, e2: GoError, ts: string, format: string, args: seq<Arg>)
    ensures PanicIfError(Some(e1), ts, args) == PanicIfError(Some(e2), ts, args)
    ensures PanicfIfError(Some(e1), ts, format, args) == PanicfIfError(Some(e2), ts, format, args)
    ensures FatalIfError(Some(e1), ts, args) == FatalIfError(Some(e2), ts, args)
    ensures FatalfIfError(Some(e1), ts, format, args) == FatalfIfError(Some(e2), ts, format, args)
  {
  }
}
