/** Whole runs of the logger: a fresh 'write' logger, one or two `Write`
    instances over it, and level calls, with what ends up written. The
    concrete runs mirror the repository's unit tests, where every test first
    builds a plain 'trace' logger on one stream and some then build a second
    one over the same logger. */
module Scenarios {
  import opened Text
  import opened Levels
  import opened Templates
  import opened Formatting
  import opened Writer

  lemma LinesSingle(h: Handler, levelName: string, levelNo: int, message: string, asctime: string,
                    codes: map<string, string>)
    ensures Lines([h], levelName, levelNo, message, asctime, codes) == HandlerOutput(h, levelName, levelNo, message, asctime, codes)
  {
    assert [h][..0] == [];
  }

  /** The test set-up: `Write(use_colors=False, log_level='trace', stream=s)`
      over a logger nobody configured before. */
  method SetUp() returns (w: Write, lg: Logger)
    ensures fresh(w) && fresh(lg) && w.logger == lg && w.Valid()
    ensures w.levels == DefaultLevels() && !w.useColors && w.stream == Some(0)
    ensures lg.handlers == [Handler(Given(0), MakeFormatter(DeriveTemplate(false, None, 5), false, None, DefaultLevels()), 0)]
    ensures lg.level == 5 && lg.levelNames == RegisterNames(LibraryLevelNames(), DefaultLevels()) && lg.output == []
  {
    DefaultWellFormed();
    DefaultMaxNameLength();
    lg := new Logger();
    w := new Write(DefaultLevels(), lg, useColors := false, logLevel := "trace", stream := Some(0));
    FindAt(DefaultLevels(), 0);
  }

  /** Under the plain derived template, a handler writes the level's
      registered upper-case name padded to the width, a separator and the
      message, for any table whose names and ranks are distinct. */
  lemma PlainOutput(ls: seq<Level>, m: map<int, string>, i: nat, width: nat, stream: Stream,
                    message: string, asctime: string, codes: map<string, string>)
    requires WellFormed(ls) && DistinctRanks(ls) && i < |ls| && ls[i].rank >= 0
    requires EscapeTable(codes) && KnowsColours(codes, ls)
    ensures Lines([Handler(stream, MakeFormatter(DeriveTemplate(false, None, width), false, None, ls), 0)],
                  LevelNameIn(RegisterNames(m, ls), ls[i].rank), ls[i].rank, message, asctime, codes)
            == [Written(stream, Pad(Upper(ls[i].name), true, width) + " :: " + message)]
  {
    RegisterNamesSpec(m, ls);
    var name := LevelNameIn(RegisterNames(m, ls), ls[i].rank);
    assert name == Upper(ls[i].name);
    var h := Handler(stream, MakeFormatter(DeriveTemplate(false, None, width), false, None, ls), 0);
    LinesSingle(h, name, ls[i].rank, message, asctime, codes);
    PlainFormatLine(width, ls, name, ls[i].rank, message, asctime, codes);
  }

  /** Under any derived template, a handler writes the level's colour code
      (colour mode), the time and a separator (date mode), the level's
      registered upper-case name padded to the width and a separator, the
      reset and white codes (colour mode), then the message. */
  lemma DerivedOutput(ls: seq<Level>, m: map<int, string>, i: nat, useColors: bool, dateFormat: Option<string>,
                      width: nat, stream: Stream, message: string, asctime: string, codes: map<string, string>)
    requires WellFormed(ls) && DistinctRanks(ls) && i < |ls| && ls[i].rank >= 0
    requires EscapeTable(codes) && KnowsColours(codes, ls)
    requires useColors ==> ls[i].color != "" && ls[i].color in codes
    requires useColors ==> forall j :: i < j < |ls| ==> Upper(ls[j].name) != Upper(ls[i].name)
    ensures HandlerOutput(Handler(stream, MakeFormatter(DeriveTemplate(useColors, dateFormat, width), useColors, dateFormat, ls), 0),
                          LevelNameIn(RegisterNames(m, ls), ls[i].rank), ls[i].rank, message, asctime, codes)
            == [Written(stream, (if useColors then codes[ls[i].color] else "")
                                + (if dateFormat.Some? then asctime + " :: " else "")
                                + (Pad(Upper(ls[i].name), true, width) + " :: ")
                                + (if useColors then codes["reset"] + codes["white"] else "")
                                + message)]
  {
    var name := LevelNameIn(RegisterNames(m, ls), ls[i].rank);
    assert name == Upper(ls[i].name) by { RegisterNamesSpec(m, ls); }
    var f := MakeFormatter(DeriveTemplate(useColors, dateFormat, width), useColors, dateFormat, ls);
    var colour := if useColors then codes[ls[i].color] else "";
    LevelColour(ls, i, useColors, dateFormat, width, codes);
    var line := colour + (if dateFormat.Some? then asctime + " :: " else "")
                + (Pad(name, true, width) + " :: ")
                + (if useColors then codes["reset"] + codes["white"] else "") + message;
    assert FormatLine(f, name, ls[i].rank, message, asctime, codes) == Some(line) by {
      DerivedFormatLine(useColors, dateFormat, width, ls, name, ls[i].rank, message, asctime, codes);
    }
    var h := Handler(stream, f, 0);
    assert HandlerOutput(h, name, ls[i].rank, message, asctime, codes) == [Written(stream, line)];
  }

  /** In colour mode the level's colour is the one its own entry names. */
  lemma LevelColour(ls: seq<Level>, i: nat, useColors: bool, dateFormat: Option<string>, width: nat,
                    codes: map<string, string>)
    requires i < |ls|
    requires useColors ==> ls[i].color != "" && ls[i].color in codes
    requires useColors ==> forall j :: i < j < |ls| ==> Upper(ls[j].name) != Upper(ls[i].name)
    ensures useColors ==>
              LogColor(MakeFormatter(DeriveTemplate(useColors, dateFormat, width), useColors, dateFormat, ls),
                       Upper(ls[i].name), codes) == Some(codes[ls[i].color])
  {
    if useColors {
      ColorMapAt(ls, i);
      var f := MakeFormatter(DeriveTemplate(useColors, dateFormat, width), useColors, dateFormat, ls);
      assert f.logColors == ColorMap(ls);
    }
  }

  lemma TraceUpperUnique()
    ensures forall j :: 0 < j < |DefaultLevels()| ==> Upper(DefaultLevels()[j].name) != Upper("trace")
  {
    var ls := DefaultLevels();
    forall j | 0 < j < |ls|
      ensures Upper(ls[j].name) != Upper("trace")
    {
      assert Upper(ls[j].name)[0] == UpperChar(ls[j].name[0]);
      assert Upper("trace")[0] == 'T';
    }
  }

  /** The entry of a registered name, as `log_levels[name]` finds it, and
      the terminate flag its entry point carries. */
  lemma EntryOf(ls: seq<Level>, level: string) returns (i: nat)
    requires WellFormed(ls) && level in Names(ls)
    ensures i < |ls| && ls[i].name == level
    ensures Find(ls, level) == Some(ls[i])
    ensures level in DispatchTable(ls) && DispatchTable(ls)[level] == Terminates(ls[i])
  {
    i :| 0 <= i < |ls| && ls[i].name == level;
    FindAt(ls, i);
    DispatchTableSpec(ls);
  }

  lemma DefaultRanks(i: nat)
    requires i < |DefaultLevels()|
    ensures DefaultLevels()[i].rank >= 5
  {
  }

  /** One level call on the test set-up, for the level declared at index
      `k`: every default level passes the 'trace' threshold and yields its
      upper-cased name padded to five, a separator and the message; only
      'fatal' then exits, with status 1. */
  method PlainCall(k: nat, message: string, asctime: string, codes: map<string, string>)
    returns (out: seq<Written>, outcome: Outcome)
    requires k < |DefaultLevels()|
    requires EscapeTable(codes) && KnowsColours(codes, DefaultLevels())
    ensures out == [Written(Given(0), Pad(Upper(DefaultLevels()[k].name), true, 5) + " :: " + message)]
    ensures outcome == if DefaultLevels()[k].name == "fatal" then Exited(1) else Returned
  {
    var w, lg := SetUp();
    var ls := DefaultLevels();
    var level := ls[k].name;
    assert WellFormed(ls) && DistinctRanks(ls) by { DefaultWellFormed(); }
    var i := EntryOf(ls, level);
    assert i == k;
    DefaultRanks(i);
    DefaultOnlyFatalTerminates(level);
    outcome := w.Emit(level, message, asctime, codes);
    out := lg.output;
    PlainOutput(ls, LibraryLevelNames(), i, 5, Given(0), message, asctime, codes);
  }

  method TestTrace(asctime: string, codes: map<string, string>) returns (out: seq<Written>, outcome: Outcome)
    requires EscapeTable(codes) && KnowsColours(codes, DefaultLevels())
    ensures out == [Written(Given(0), "TRACE :: test trace")]
    ensures outcome == Returned
  {
    out, outcome := PlainCall(0, "test trace", asctime, codes);
    PlainTraceLine();
  }

  lemma PlainTraceLine()
    ensures DefaultLevels()[0].name == "trace"
    ensures Pad(Upper(DefaultLevels()[0].name), true, 5) + " :: " + "test trace" == "TRACE :: test trace"
  {
    assert Upper("trace") == "TRACE";
    assert Pad("TRACE", true, 5) == "TRACE";
  }

  method TestDebug(asctime: string, codes: map<string, string>) returns (out: seq<Written>, outcome: Outcome)
    requires EscapeTable(codes) && KnowsColours(codes, DefaultLevels())
    ensures out == [Written(Given(0), "DEBUG :: test debug")]
    ensures outcome == Returned
  {
    out, outcome := PlainCall(1, "test debug", asctime, codes);
    PlainDebugLine();
  }

  lemma PlainDebugLine()
    ensures DefaultLevels()[1].name == "debug"
    ensures Pad(Upper(DefaultLevels()[1].name), true, 5) + " :: " + "test debug" == "DEBUG :: test debug"
  {
    assert Upper("debug") == "DEBUG";
    assert Pad("DEBUG", true, 5) == "DEBUG";
  }

  method TestInfo(asctime: string, codes: map<string, string>) returns (out: seq<Written>, outcome: Outcome)
    requires EscapeTable(codes) && KnowsColours(codes, DefaultLevels())
    ensures out == [Written(Given(0), "INFO  :: test info")]
    ensures outcome == Returned
  {
    out, outcome := PlainCall(2, "test info", asctime, codes);
    PlainInfoLine();
  }

  lemma PlainInfoLine()
    ensures DefaultLevels()[2].name == "info"
    ensures Pad(Upper(DefaultLevels()[2].name), true, 5) + " :: " + "test info" == "INFO  :: test info"
  {
    assert Upper("info") == "INFO";
    assert Pad("INFO", true, 5) == "INFO ";
  }

  method TestWarn(asctime: string, codes: map<string, string>) returns (out: seq<Written>, outcome: Outcome)
    requires EscapeTable(codes) && KnowsColours(codes, DefaultLevels())
    ensures out == [Written(Given(0), "WARN  :: test warn")]
    ensures outcome == Returned
  {
    out, outcome := PlainCall(3, "test warn", asctime, codes);
    PlainWarnLine();
  }

  lemma PlainWarnLine()
    ensures DefaultLevels()[3].name == "warn"
    ensures Pad(Upper(DefaultLevels()[3].name), true, 5) + " :: " + "test warn" == "WARN  :: test warn"
  {
    assert Upper("warn") == "WARN";
    assert Pad("WARN", true, 5) == "WARN ";
  }

  method TestError(asctime: string, codes: map<string, string>) returns (out: seq<Written>, outcome: Outcome)
    requires EscapeTable(codes) && KnowsColours(codes, DefaultLevels())
    ensures out == [Written(Given(0), "ERROR :: test error")]
    ensures outcome == Returned
  {
    out, outcome := PlainCall(4, "test error", asctime, codes);
    PlainErrorLine();
  }

  lemma PlainErrorLine()
    ensures DefaultLevels()[4].name == "error"
    ensures Pad(Upper(DefaultLevels()[4].name), true, 5) + " :: " + "test error" == "ERROR :: test error"
  {
    assert Upper("error") == "ERROR";
    assert Pad("ERROR", true, 5) == "ERROR";
  }

  /** 'fatal' writes its line and then exits with status 1. */
  method TestFatal(asctime: string, codes: map<string, string>) returns (out: seq<Written>, outcome: Outcome)
    requires EscapeTable(codes) && KnowsColours(codes, DefaultLevels())
    ensures out == [Written(Given(0), "FATAL :: test fatal")]
    ensures outcome == Exited(1)
  {
    out, outcome := PlainCall(5, "test fatal", asctime, codes);
    PlainFatalLine();
  }

  lemma PlainFatalLine()
    ensures DefaultLevels()[5].name == "fatal"
    ensures Pad(Upper(DefaultLevels()[5].name), true, 5) + " :: " + "test fatal" == "FATAL :: test fatal"
  {
    assert Upper("fatal") == "FATAL";
    assert Pad("FATAL", true, 5) == "FATAL";
  }

  method TestHelp(asctime: string, codes: map<string, string>) returns (out: seq<Written>, outcome: Outcome)
    requires EscapeTable(codes) && KnowsColours(codes, DefaultLevels())
    ensures out == [Written(Given(0), "HELP  :: test help")]
    ensures outcome == Returned
  {
    out, outcome := PlainCall(6, "test help", asctime, codes);
    PlainHelpLine();
  }

  lemma PlainHelpLine()
    ensures DefaultLevels()[6].name == "help"
    ensures Pad(Upper(DefaultLevels()[6].name), true, 5) + " :: " + "test help" == "HELP  :: test help"
  {
    assert Upper("help") == "HELP";
    assert Pad("HELP", true, 5) == "HELP ";
  }

  /** A `Write` built over a logger in any state, then one level call: the
      logger ends with the new instance's handler alone, and the call adds
      what that handler makes of the record when its rank is above the
      disable level (0) and reaches the configured level's (or the root's
      while that rank is NOTSET), nothing otherwise; it exits with status 1 exactly when the level's terminate
      flag is set, written or not. */
  method Rerun(lg: Logger, levels: seq<Level>, useColors: bool, logLevel: string, formatString: string,
               dateFormat: Option<string>, stream: Option<nat>,
               level: string, message: string, asctime: string, codes: map<string, string>)
    returns (out: seq<Written>, outcome: Outcome)
    requires WellFormed(levels) && logLevel in Names(levels) && level in Names(levels)
    modifies lg
    ensures lg.handlers == [Handler(StreamOf(stream),
                                    MakeFormatter(ResolveTemplate(formatString, useColors, dateFormat, MaxNameLength(levels)),
                                                  useColors, dateFormat, levels), 0)]
    ensures lg.level == RankOf(levels, logLevel)
    ensures lg.levelNames == RegisterNames(old(lg.levelNames), levels)
    ensures lg.output == old(lg.output) + out
    ensures out == if Enabled(RankOf(levels, level), RankOf(levels, logLevel))
                   then HandlerOutput(lg.handlers[0], LevelNameIn(lg.levelNames, RankOf(levels, level)),
                                      RankOf(levels, level), message, asctime, codes)
                   else []
    ensures outcome == if Terminates(Find(levels, level).value) then Exited(1) else Returned
  {
    var w := new Write(levels, lg, useColors, logLevel, formatString, dateFormat, stream);
    var i := EntryOf(levels, level);
    var before := lg.output;
    outcome := w.Emit(level, message, asctime, codes);
    out := lg.output[|before|..];
    assert lg.output == before + out;
    LinesSingle(lg.handlers[0], LevelNameIn(lg.levelNames, RankOf(levels, level)),
                RankOf(levels, level), message, asctime, codes);
  }

  /** The handler a `Write` built with these settings attaches. */
  function RunHandler(levels: seq<Level>, useColors: bool, formatString: string, dateFormat: Option<string>,
                      stream: Option<nat>): (h: Handler)
    requires WellFormed(levels)
    ensures h.level == 0 && h.stream == StreamOf(stream)
  {
    Handler(StreamOf(stream),
            MakeFormatter(ResolveTemplate(formatString, useColors, dateFormat, MaxNameLength(levels)),
                          useColors, dateFormat, levels), 0)
  }

  /** What one level call writes right after a `Write` with these settings
      was built over a logger nobody configured: the handler's line for the
      record when the logger is enabled for its rank, nothing otherwise. */
  function RunOutput(levels: seq<Level>, useColors: bool, logLevel: string, formatString: string,
                     dateFormat: Option<string>, stream: Option<nat>,
                     level: string, message: string, asctime: string, codes: map<string, string>): (r: seq<Written>)
    requires WellFormed(levels) && logLevel in Names(levels) && level in Names(levels)
    ensures |r| <= 1
  {
    if Enabled(RankOf(levels, level), RankOf(levels, logLevel))
    then HandlerOutput(RunHandler(levels, useColors, formatString, dateFormat, stream),
                       LevelNameIn(RegisterNames(LibraryLevelNames(), levels), RankOf(levels, level)),
                       RankOf(levels, level), message, asctime, codes)
    else []
  }

  /** Any single run over a logger nobody configured. */
  method Run(levels: seq<Level>, useColors: bool, logLevel: string, formatString: string,
             dateFormat: Option<string>, stream: Option<nat>,
             level: string, message: string, asctime: string, codes: map<string, string>)
    returns (out: seq<Written>, outcome: Outcome)
    requires WellFormed(levels) && logLevel in Names(levels) && level in Names(levels)
    ensures out == RunOutput(levels, useColors, logLevel, formatString, dateFormat, stream, level, message, asctime, codes)
    ensures outcome == if Terminates(Find(levels, level).value) then Exited(1) else Returned
  {
    var lg := new Logger();
    out, outcome := Rerun(lg, levels, useColors, logLevel, formatString, dateFormat, stream, level, message, asctime, codes);
  }

  /** For a record the handler can format, a run writes nothing exactly when
      the configured level silences the called one. */
  lemma RunSilentIffSuppressed(levels: seq<Level>, useColors: bool, logLevel: string, formatString: string,
                               dateFormat: Option<string>, stream: Option<nat>,
                               level: string, message: string, asctime: string, codes: map<string, string>)
    requires WellFormed(levels) && logLevel in Names(levels) && level in Names(levels)
    requires FormatLine(RunHandler(levels, useColors, formatString, dateFormat, stream).formatter,
                        LevelNameIn(RegisterNames(LibraryLevelNames(), levels), RankOf(levels, level)),
                        RankOf(levels, level), message, asctime, codes).Some?
    ensures RunOutput(levels, useColors, logLevel, formatString, dateFormat, stream, level, message, asctime, codes) == []
            <==> level in Suppressed(levels, logLevel)
  {
    var k := EntryOf(levels, logLevel);
    var i := EntryOf(levels, level);
    SuppressedSpec(levels, k, i);
  }

  /** Under a derived template the handler formats every record, so a run
      writes nothing exactly when the configured level silences the called
      one. */
  lemma DerivedRunSilentIffSuppressed(levels: seq<Level>, useColors: bool, logLevel: string,
                                      dateFormat: Option<string>, stream: Option<nat>,
                                      level: string, message: string, asctime: string, codes: map<string, string>)
    requires WellFormed(levels) && logLevel in Names(levels) && level in Names(levels)
    requires EscapeTable(codes) && KnowsColours(codes, levels)
    ensures RunOutput(levels, useColors, logLevel, "", dateFormat, stream, level, message, asctime, codes) == []
            <==> level in Suppressed(levels, logLevel)
  {
    DerivedFormatLine(useColors, dateFormat, MaxNameLength(levels), levels,
                      LevelNameIn(RegisterNames(LibraryLevelNames(), levels), RankOf(levels, level)),
                      RankOf(levels, level), message, asctime, codes);
    RunSilentIffSuppressed(levels, useColors, logLevel, "", dateFormat, stream, level, message, asctime, codes);
  }

  /** The default table configured at 'debug': every level call but 'trace'
      writes its line. */
  lemma DefaultDebugRun(useColors: bool, dateFormat: Option<string>, stream: Option<nat>,
                        level: string, message: string, asctime: string, codes: map<string, string>)
    requires level in Names(DefaultLevels())
    requires EscapeTable(codes) && KnowsColours(codes, DefaultLevels())
    ensures "debug" in Names(DefaultLevels())
    ensures RunOutput(DefaultLevels(), useColors, "debug", "", dateFormat, stream, level, message, asctime, codes) == []
            <==> level == "trace"
  {
    DefaultWellFormed();
    DefaultSuppressedByDebug();
    DerivedRunSilentIffSuppressed(DefaultLevels(), useColors, "debug", dateFormat, stream, level, message, asctime, codes);
  }

  /** `fatal` below the threshold: nothing is written, yet the call exits
      with status 1. */
  method FatalWhenSilenced(message: string, asctime: string, codes: map<string, string>)
    returns (out: seq<Written>, outcome: Outcome)
    ensures out == [] && outcome == Exited(1)
  {
    var ls := DefaultLevels();
    assert WellFormed(ls) && "help" in Names(ls) && "fatal" in Names(ls) by { DefaultWellFormed(); DefaultNames(); }
    assert RankOf(ls, "help") == 60 by { FindAt(ls, 6); }
    assert RankOf(ls, "fatal") == 50 && Terminates(Find(ls, "fatal").value) by { FindAt(ls, 5); }
    assert !Enabled(RankOf(ls, "fatal"), RankOf(ls, "help"));
    out, outcome := Run(ls, false, "help", "", None, None, "fatal", message, asctime, codes);
  }

  /** A second instance built at 'debug' over the set-up's logger: a
      'trace' call writes nothing and returns. */
  method TestLogLevel(asctime: string, codes: map<string, string>) returns (out: seq<Written>, outcome: Outcome)
    ensures out == [] && outcome == Returned
  {
    var w, lg := SetUp();
    var ls := DefaultLevels();
    assert WellFormed(ls) && "trace" in Names(ls) && "debug" in Names(ls) by { DefaultWellFormed(); DefaultNames(); }
    assert RankOf(ls, "trace") == 5 && !Terminates(Find(ls, "trace").value) by { FindAt(ls, 0); }
    assert RankOf(ls, "debug") == 10 by { FindAt(ls, 1); }
    out, outcome := Rerun(lg, ls, false, "debug", "", None, Some(0), "trace", "test trace", asctime, codes);
  }

  /** An explicit template of just the message writes exactly the message. */
  method TestFormatString(asctime: string, codes: map<string, string>) returns (out: seq<Written>, outcome: Outcome)
    requires EscapeTable(codes) && KnowsColours(codes, DefaultLevels())
    ensures out == [Written(Given(0), "test trace")] && outcome == Returned
  {
    var w, lg := SetUp();
    var ls := DefaultLevels();
    assert WellFormed(ls) && "trace" in Names(ls) by { DefaultWellFormed(); DefaultNames(); }
    assert RankOf(ls, "trace") == 5 && !Terminates(Find(ls, "trace").value) by { FindAt(ls, 0); }
    var t := "%(message)s";
    out, outcome := Rerun(lg, ls, false, "trace", t, None, Some(0), "trace", "test trace", asctime, codes);
    assert ResolveTemplate(t, false, None, MaxNameLength(ls)) == t;
    MessageLine(t, LevelNameIn(lg.levelNames, 5), "test trace", asctime, codes);
  }

  /** What the handler of the message-only template makes of any record. */
  lemma MessageLine(t: string, levelName: string, message: string, asctime: string, codes: map<string, string>)
    requires t == "%(message)s"
    requires EscapeTable(codes) && KnowsColours(codes, DefaultLevels())
    ensures HandlerOutput(Handler(Given(0), MakeFormatter(t, false, None, DefaultLevels()), 0), levelName, 5,
                          message, asctime, codes)
            == [Written(Given(0), message)]
  {
    MessageOnlyLine(None, false, DefaultLevels(), levelName, 5, message, asctime, codes);
  }

  /** The test set-up, then a second `Write` at 'trace' over the same logger
      with the derived template in any of its variants, then a 'trace' call:
      the one line the second instance's handler writes. */
  method TraceRerun(useColors: bool, dateFormat: Option<string>, message: string, asctime: string,
                    codes: map<string, string>)
    returns (out: seq<Written>, outcome: Outcome)
    requires EscapeTable(codes) && KnowsColours(codes, DefaultLevels())
    ensures "cyan" in codes
    ensures out == [Written(Given(0), (if useColors then codes["cyan"] else "")
                                      + (if dateFormat.Some? then asctime + " :: " else "")
                                      + (Pad(Upper("trace"), true, 5) + " :: ")
                                      + (if useColors then codes["reset"] + codes["white"] else "")
                                      + message)]
    ensures outcome == Returned
  {
    var w, lg := SetUp();
    var ls := DefaultLevels();
    assert WellFormed(ls) && "trace" in Names(ls) by { DefaultWellFormed(); DefaultNames(); }
    assert RankOf(ls, "trace") == 5 && !Terminates(Find(ls, "trace").value) by { FindAt(ls, 0); }
    assert MaxNameLength(ls) == 5 by { DefaultMaxNameLength(); }
    var m := lg.levelNames;
    out, outcome := Rerun(lg, ls, useColors, "trace", "", dateFormat, Some(0), "trace", message, asctime, codes);
    TraceLine(m, useColors, dateFormat, message, asctime, codes);
  }

  /** What the handler of a derived template makes of a 'trace' record. */
  lemma TraceLine(m: map<int, string>, useColors: bool, dateFormat: Option<string>, message: string, asctime: string,
                  codes: map<string, string>)
    requires EscapeTable(codes) && KnowsColours(codes, DefaultLevels())
    ensures "cyan" in codes
    ensures HandlerOutput(Handler(Given(0), MakeFormatter(DeriveTemplate(useColors, dateFormat, 5), useColors, dateFormat, DefaultLevels()), 0),
                          LevelNameIn(RegisterNames(m, DefaultLevels()), 5), 5, message, asctime, codes)
            == [Written(Given(0), (if useColors then codes["cyan"] else "")
                                  + (if dateFormat.Some? then asctime + " :: " else "")
                                  + (Pad(Upper("trace"), true, 5) + " :: ")
                                  + (if useColors then codes["reset"] + codes["white"] else "")
                                  + message)]
  {
    var ls := DefaultLevels();
    assert ls[0].color == "cyan" && ls[0].name == "trace" && ls[0].rank == 5;
    assert WellFormed(ls) && DistinctRanks(ls) by { DefaultWellFormed(); }
    TraceUpperUnique();
    DerivedOutput(ls, m, 0, useColors, dateFormat, 5, Given(0), message, asctime, codes);
  }

  /** With a date format the line starts with the time and a separator,
      then the plain line. */
  method TestDateFormat(date: string, asctime: string, codes: map<string, string>)
    returns (out: seq<Written>, outcome: Outcome)
    requires EscapeTable(codes) && KnowsColours(codes, DefaultLevels())
    ensures out == [Written(Given(0), asctime + " :: " + "TRACE :: test trace")] && outcome == Returned
  {
    out, outcome := TraceRerun(false, Some(date), "test trace", asctime, codes);
    TraceText();
    DatePrefix(asctime, "TRACE :: ", "test trace");
  }

  lemma TraceText()
    ensures Upper("trace") == "TRACE" && Pad("TRACE", true, 5) + " :: " == "TRACE :: "
    ensures "TRACE :: " + "test trace" == "TRACE :: test trace"
  {
    assert Upper("trace") == "TRACE";
  }

  lemma DatePrefix(asctime: string, level: string, message: string)
    ensures "" + (asctime + " :: ") + level + "" + message == asctime + " :: " + (level + message)
  {
  }

  /** In colour mode the line starts with the escape code of the level's
      colour ('cyan' for 'trace') and the message follows the reset and white
      codes. */
  method TestColors(asctime: string, codes: map<string, string>) returns (out: seq<Written>, outcome: Outcome)
    requires EscapeTable(codes) && KnowsColours(codes, DefaultLevels())
    ensures "cyan" in codes
    ensures out == [Written(Given(0), codes["cyan"] + "TRACE :: " + (codes["reset"] + codes["white"]) + "test trace")]
    ensures outcome == Returned
  {
    out, outcome := TraceRerun(true, None, "test trace", asctime, codes);
    assert Upper("trace") == "TRACE";
    assert Pad("TRACE", true, 5) + " :: " == "TRACE :: ";
    assert codes["cyan"] + "" + "TRACE :: " == codes["cyan"] + "TRACE :: ";
  }
}
