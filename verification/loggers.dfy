/** The logger facade (Sources/Logger/Logger.swift): threshold resolution at
    construction, child loggers, gating, layout and routing of emitted lines.

    The process environment, the command-line arguments and the formatted time of
    day are inputs; an emitted line is returned together with the stream it is
    written to, and the calls that end the process return their exit code. */
module Loggers {
  import opened Results
  import opened Styling
  import opened Values
  import opened Levels

  /** A logger's configuration: the least severe level it emits, its tags and
      whether lines carry a timestamp. */
  datatype Logger = Logger(threshold: Level, tags: seq<string>, time: bool)

  /** The process environment; only which names are set matters here. */
  type Environment = map<string, string>

  /** Whether `part` occurs in `s` as a contiguous run. */
  predicate Contains(s: string, part: string)
    decreases |s|
  {
    (|part| <= |s| && s[..|part|] == part) || (|s| > 0 && Contains(s[1..], part))
  }

  predicate DebugEnv(env: Environment)
  {
    "DEBUG" in env || "debug" in env
  }

  predicate VerboseEnv(env: Environment)
  {
    "VERBOSE" in env || "verbose" in env
  }

  predicate InfoEnv(env: Environment)
  {
    "INFO" in env || "info" in env
  }

  /** The last resort: a `/debug/` build path in the first argument means debug, a
      test bundle (`.xctest`) means verbose, anything else, or no such argument,
      means info. */
  function PathHeuristic(argv: seq<string>): Level
  {
    if |argv| >= 2 then
      if Contains(argv[1], "/debug/") then Debug
      else if Contains(argv[1], ".xctest") then Verbose
      else Info
    else Info
  }

  /** The threshold `init` settles on, following the source's checks in order. A
      set `DEBUG`/`debug` variable overrides even an explicit level. */
  function ResolveThreshold(explicit: Option<Level>, env: Environment, argv: seq<string>): Level
  {
    if DebugEnv(env) then Debug
    else if explicit.Some? then explicit.value
    // The source repeats the DEBUG/debug check here; it can no longer match.
    else if DebugEnv(env) then Debug
    else if VerboseEnv(env) then Verbose
    else if "--debug" in argv then Debug
    else if InfoEnv(env) then Info
    else PathHeuristic(argv)
  }

  /** The construction-time signals in priority order, each naming the level it
      selects when it is present. */
  function Signals(explicit: Option<Level>, env: Environment, argv: seq<string>): seq<Option<Level>>
  {
    [ if DebugEnv(env) then Some(Debug) else None,
      explicit,
      if VerboseEnv(env) then Some(Verbose) else None,
      if "--debug" in argv then Some(Debug) else None,
      if InfoEnv(env) then Some(Info) else None ]
  }

  /** The level of the first present signal, or `fallback` when none is present. */
  function FirstPresent(signals: seq<Option<Level>>, fallback: Level): Level
  {
    if |signals| == 0 then fallback
    else if signals[0].Some? then signals[0].value
    else FirstPresent(signals[1..], fallback)
  }

  /** The threshold is the first signal present in the priority order, with the path
      heuristic as the fallback. */
  lemma {:induction false} ThresholdIsFirstSignal(explicit: Option<Level>, env: Environment, argv: seq<string>)
    ensures ResolveThreshold(explicit, env, argv) == FirstPresent(Signals(explicit, env, argv), PathHeuristic(argv))
  {
    var s := Signals(explicit, env, argv);
    var fallback := PathHeuristic(argv);
    assert s[5..] == [];
    assert s[4..][1..] == s[5..];
    assert FirstPresent(s[4..], fallback) == (if InfoEnv(env) then Info else fallback);
    assert s[3..][1..] == s[4..];
    assert FirstPresent(s[3..], fallback) == (if "--debug" in argv then Debug else FirstPresent(s[4..], fallback));
    assert s[2..][1..] == s[3..];
    assert FirstPresent(s[2..], fallback) == (if VerboseEnv(env) then Verbose else FirstPresent(s[3..], fallback));
    assert s[1..][1..] == s[2..];
    assert FirstPresent(s[1..], fallback) == (if explicit.Some? then explicit.value else FirstPresent(s[2..], fallback));
  }

  /** Which inputs lead to each threshold. Warn, error and bug are reached only by
      asking for them explicitly. */
  lemma ThresholdByOutcome(explicit: Option<Level>, env: Environment, argv: seq<string>)
    ensures var t := ResolveThreshold(explicit, env, argv);
            var fallthrough := !VerboseEnv(env) && "--debug" !in argv && !InfoEnv(env) && |argv| >= 2;
            && (t == Debug <==>
                  DebugEnv(env) || explicit == Some(Debug)
                  || (explicit.None? && !VerboseEnv(env) && "--debug" in argv)
                  || (explicit.None? && fallthrough && Contains(argv[1], "/debug/")))
            && (t == Verbose <==>
                  !DebugEnv(env)
                  && (explicit == Some(Verbose)
                      || (explicit.None? && VerboseEnv(env))
                      || (explicit.None? && fallthrough && !Contains(argv[1], "/debug/") && Contains(argv[1], ".xctest"))))
            && (t in {Warn, Error, Bug} <==> !DebugEnv(env) && explicit.Some? && explicit.value in {Warn, Error, Bug})
            && (t in {Warn, Error, Bug} ==> explicit == Some(t))
  {
    if DebugEnv(env) {
    } else if explicit.Some? {
    } else if VerboseEnv(env) {
    } else if "--debug" in argv {
    } else if InfoEnv(env) {
    } else {
      assert ResolveThreshold(explicit, env, argv) == PathHeuristic(argv);
    }
  }

  /** `init(_:time:tags:)`. */
  function Create(explicit: Option<Level>, time: bool, tags: seq<string>, env: Environment, argv: seq<string>): (lg: Logger)
    ensures lg.tags == tags && lg.time == time
    ensures !DebugEnv(env) && explicit.Some? ==> lg.threshold == explicit.value
    ensures DebugEnv(env) ==> lg.threshold == Debug
  {
    Logger(ResolveThreshold(explicit, env, argv), tags, time)
  }

  /** `inDebugMode`: the threshold is at most debug. */
  function InDebugMode(lg: Logger): (b: bool)
    ensures b <==> lg.threshold == Verbose || lg.threshold == Debug
  {
    AtMost(lg.threshold, Debug)
  }

  /** `new(tag)`: a fresh logger built with the parent's level as its explicit level,
      the parent's tags with `tag` appended, and no timestamp. The environment is
      read again, so a set DEBUG variable still forces debug. */
  function New(lg: Logger, tag: string, env: Environment, argv: seq<string>): (child: Logger)
    ensures |child.tags| == |lg.tags| + 1
    ensures child.tags[..|lg.tags|] == lg.tags && child.tags[|lg.tags|] == tag
    ensures !child.time
    ensures child.threshold == (if DebugEnv(env) then Debug else lg.threshold)
  {
    Create(Some(lg.threshold), false, lg.tags + [tag], env, argv)
  }

  /** Under an unchanged environment a child logger keeps its parent's threshold. */
  lemma ChildKeepsThreshold(
    explicit: Option<Level>, time: bool, tags: seq<string>, tag: string,
    env: Environment, argv: seq<string>, childArgv: seq<string>)
    ensures var parent := Create(explicit, time, tags, env, argv);
            New(parent, tag, env, childArgv).threshold == parent.threshold
  {
  }

  datatype Stream = Stdout | Stderr

  /** One line written to one stream; the trailing newline `print` adds is implicit. */
  datatype Emission = Emission(stream: Stream, line: Styled)

  /** The bullet `output` starts every line with, coloured by level. */
  function OutputBullet(level: Level): Styled
  {
    match level
    case Info => Apply(Paint(LightGreen), Plain(Bullet))
    case Warn => Apply(Paint(LightYellow), Plain(Bullet))
    case Error => Apply(Paint(LightRed), Plain(Bullet))
    case Bug => Apply(Paint(Red), Plain(Bullet))
    case Debug => Apply(Paint(LightBlue), Plain(Bullet))
    case Verbose => Apply(Paint(LightCyan), Plain(Bullet))
  }

  /** `output`: nothing below the threshold; otherwise the bullet, a dimmed
      "[HH:mm:ss]" when the logger asks for time, and the message, joined by blanks.
      Only `error` goes to standard error. The logger's tags are not rendered. */
  function Output(lg: Logger, level: Level, message: seq<Value>, clock: string): (e: Option<Emission>)
    ensures e.Some? <==> AtLeast(level, lg.threshold)
    ensures e.Some? ==> (e.value.stream == Stderr <==> level == Error)
  {
    if !AtLeast(level, lg.threshold) then None
    else Some(Emission(if level == Error then Stderr else Stdout, Join(OutputSegments(lg, level, message, clock), " ")))
  }

  /** The pieces of an emitted line: bullet, optional dimmed time, message. */
  function OutputSegments(lg: Logger, level: Level, message: seq<Value>, clock: string): seq<Styled>
  {
    [OutputBullet(level)] + (if lg.time then [Apply(Dim, Plain("[" + clock + "]"))] else []) + [Body(message)]
  }

  /** The visible text of an emitted line: bullet, then the bracketed time if
      requested, then the message items, all separated by single blanks. */
  lemma OutputText(lg: Logger, level: Level, message: seq<Value>, clock: string)
    requires AtLeast(level, lg.threshold)
    ensures TextOf(Output(lg, level, message, clock).value.line)
            == Bullet + ((if lg.time then " [" + clock + "]" else "") + " " + JoinStrings(ItemTexts(message), " "))
  {
    var time := if lg.time then [Apply(Dim, Plain("[" + clock + "]"))] else [];
    var segs := OutputSegments(lg, level, message, clock);
    var timeTexts: seq<string> := if lg.time then ["[" + clock + "]"] else [];
    var body := TextOf(Body(message));
    assert TextOf(Output(lg, level, message, clock).value.line) == JoinStrings(TextsOf(segs), " ") by {
      TextOfJoin(segs, " ");
    }
    assert TextsOf(segs) == [Bullet] + (timeTexts + [body]) by {
      assert segs == [OutputBullet(level)] + time + [Body(message)];
      TextsOfAppend([OutputBullet(level)] + time, [Body(message)]);
      TextsOfAppend([OutputBullet(level)], time);
      TextsOfShort(OutputBullet(level), Body(message));
      TextsOfShort(Apply(Dim, Plain("[" + clock + "]")), Body(message));
    }
    assert JoinStrings(TextsOf(segs), " ") == Bullet + (Prefixed(timeTexts, " ") + " " + body) by {
      JoinWithMiddle(Bullet, timeTexts, body);
    }
    assert Prefixed(timeTexts, " ") == (if lg.time then " [" + clock + "]" else "") by {
      if lg.time {
        assert timeTexts[1..] == [];
      }
    }
    BodyText(message);
  }

  /** The emitted line as styled pieces: the level's bullet and a blank, then the
      dimmed bracketed time and a blank when the logger asks for time, then the body. */
  lemma OutputLayout(lg: Logger, level: Level, message: seq<Value>, clock: string)
    requires AtLeast(level, lg.threshold)
    ensures Output(lg, level, message, clock).value.line
            == Cat(Cat(OutputBullet(level), Plain(" ")),
                   if lg.time then Cat(Cat(Apply(Dim, Plain("[" + clock + "]")), Plain(" ")), Body(message))
                   else Body(message))
  {
    var segs := OutputSegments(lg, level, message, clock);
    assert Output(lg, level, message, clock).value.line == Join(segs, " ");
    if lg.time {
      var time := Apply(Dim, Plain("[" + clock + "]"));
      assert segs == [OutputBullet(level), time, Body(message)];
      assert segs[1..] == [time, Body(message)];
      assert segs[1..][1..] == [Body(message)];
      assert Join(segs[1..], " ") == Cat(Cat(time, Plain(" ")), Body(message));
      assert Join(segs, " ") == Cat(Cat(OutputBullet(level), Plain(" ")), Join(segs[1..], " "));
    } else {
      assert segs == [OutputBullet(level), Body(message)];
      assert Join(segs[1..], " ") == Body(message);
      assert Join(segs, " ") == Cat(Cat(OutputBullet(level), Plain(" ")), Body(message));
    }
  }

  /** Tags never reach an emitted line: two loggers that differ only in their tags
      emit the same thing. */
  lemma OutputIgnoresTags(lg: Logger, tags: seq<string>, level: Level, message: seq<Value>, clock: string)
    ensures Output(lg, level, message, clock) == Output(lg.(tags := tags), level, message, clock)
  {
  }

  /** Lowering the threshold never silences a line: whatever a logger emits, a logger
      with a lower or equal threshold emits too, identically. */
  lemma GatingIsMonotone(lg: Logger, lower: Level, level: Level, message: seq<Value>, clock: string)
    requires AtMost(lower, lg.threshold)
    requires Output(lg, level, message, clock).Some?
    ensures Output(lg.(threshold := lower), level, message, clock) == Output(lg, level, message, clock)
  {
  }

  /** The public logging calls. */
  datatype Call = VerboseCall | DebugCall | InfoCall | WarnCall | ErrorCall | TodoCall | BlinkCall | AbortCall | BugCall

  /** What a call does: the line it emits, if any, and the exit code when it ends
      the process. */
  datatype Outcome = Outcome(emitted: Option<Emission>, exitCode: Option<int>)

  /** The level each call emits at: `todo`, `blink` and `abort` use warn. */
  function CallLevel(call: Call): Level
  {
    match call
    case VerboseCall => Verbose
    case DebugCall => Debug
    case InfoCall => Info
    case WarnCall => Warn
    case ErrorCall => Error
    case TodoCall => Warn
    case BlinkCall => Warn
    case AbortCall => Warn
    case BugCall => Bug
  }

  /** The warning glyph `blink` puts first: blinking, then red. */
  const BlinkGlyph: Styled := Apply(Paint(Red), Apply(Blink, Plain("\U{26A0}")))

  /** Items a call puts before the caller's message. */
  function Leading(call: Call): seq<Value>
  {
    match call
    case TodoCall => [Text(Plain("TODO"))]
    case BlinkCall => [Text(BlinkGlyph)]
    case _ => []
  }

  /** A logging call: `output` at the call's level with its leading items, then for
      `abort` exit status 0 and for `bug` exit status 1, whether or not a line was
      emitted. */
  function Log(lg: Logger, call: Call, message: seq<Value>, clock: string): (o: Outcome)
    ensures o.emitted.Some? <==> AtLeast(CallLevel(call), lg.threshold)
    ensures o.emitted.Some? ==> (o.emitted.value.stream == Stderr <==> call == ErrorCall)
    ensures o.exitCode.Some? <==> call == AbortCall || call == BugCall
    ensures call == AbortCall ==> o.exitCode == Some(0)
    ensures call == BugCall ==> o.exitCode == Some(1)
  {
    var emitted := Output(lg, CallLevel(call), Leading(call) + message, clock);
    var exitCode := if call == AbortCall then Some(0) else if call == BugCall then Some(1) else None;
    Outcome(emitted, exitCode)
  }

  /** What a visible call emits: `output`'s line for the call's leading items followed
      by the caller's message, so its text is the bullet, the optional time and every
      item in order. */
  lemma LogText(lg: Logger, call: Call, message: seq<Value>, clock: string)
    requires AtLeast(CallLevel(call), lg.threshold)
    ensures Log(lg, call, message, clock).emitted == Output(lg, CallLevel(call), Leading(call) + message, clock)
    ensures TextOf(Log(lg, call, message, clock).emitted.value.line)
            == Bullet + ((if lg.time then " [" + clock + "]" else "") + " " + JoinStrings(ItemTexts(Leading(call) + message), " "))
  {
    OutputText(lg, CallLevel(call), Leading(call) + message, clock);
  }

  /** `blink` puts a red, blinking warning sign before the caller's message. */
  lemma BlinkLeadsWithGlyph(lg: Logger, message: seq<Value>, clock: string)
    requires AtLeast(Warn, lg.threshold)
    ensures var lead := if |message| == 0 then BlinkGlyph else Cat(Cat(BlinkGlyph, Plain(" ")), Body(message));
            Log(lg, BlinkCall, message, clock).emitted.value.line
            == Cat(Cat(OutputBullet(Warn), Plain(" ")),
                   if lg.time then Cat(Cat(Apply(Dim, Plain("[" + clock + "]")), Plain(" ")), lead) else lead)
    ensures TextOf(Log(lg, BlinkCall, message, clock).emitted.value.line)
            == Bullet + ((if lg.time then " [" + clock + "]" else "") + " " + ("\U{26A0}" + Prefixed(ItemTexts(message), " ")))
  {
    var items := [Text(BlinkGlyph)] + message;
    OutputLayout(lg, Warn, items, clock);
    BodyCons(Text(BlinkGlyph), message);
    OutputText(lg, Warn, items, clock);
    assert ItemTexts(items) == ["\U{26A0}"] + ItemTexts(message);
    JoinStringsAsPrefixed("\U{26A0}", ItemTexts(message), " ");
  }

  /** `todo` shows "TODO" as the first word of the message. */
  lemma TodoLeadsWithTodo(lg: Logger, message: seq<Value>, clock: string)
    requires AtLeast(Warn, lg.threshold)
    ensures TextOf(Log(lg, TodoCall, message, clock).emitted.value.line)
            == Bullet + ((if lg.time then " [" + clock + "]" else "") + " " + ("TODO" + Prefixed(ItemTexts(message), " ")))
  {
    var items := [Text(Plain("TODO"))] + message;
    OutputText(lg, Warn, items, clock);
    assert ItemTexts(items) == ["TODO"] + ItemTexts(message);
    JoinStringsAsPrefixed("TODO", ItemTexts(message), " ");
  }

  /** A logger asked for info, with a tag, in an environment without DEBUG: a debug
      call emits nothing, an info call writes the bare message to standard output,
      and `bug` writes to standard output and exits with status 1. */
  lemma InfoLoggerScenario()
    ensures var lg := Create(Some(Info), false, ["a"], map[], ["tool"]);
            var x := [Described("x")];
            && Log(lg, DebugCall, x, "12:00:00").emitted.None?
            && Log(lg, InfoCall, x, "12:00:00").emitted.Some?
            && Log(lg, InfoCall, x, "12:00:00").emitted.value.stream == Stdout
            && TextOf(Log(lg, InfoCall, x, "12:00:00").emitted.value.line) == Bullet + " x"
            && Log(lg, BugCall, x, "12:00:00").emitted.value.stream == Stdout
            && Log(lg, BugCall, x, "12:00:00").exitCode == Some(1)
  {
    var lg := Create(Some(Info), false, ["a"], map[], ["tool"]);
    var x := [Described("x")];
    OutputText(lg, Info, x, "12:00:00");
    assert ItemTexts(x) == ["x"];
  }
}
