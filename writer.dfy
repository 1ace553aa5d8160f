/** The `Write` class and the part of the logging library's state it drives:
    the 'write' logger's handler list, its threshold, the library's
    rank-to-name table, and the lines the handlers have written. */
module Writer {
  import opened Text
  import opened Levels
  import opened Templates
  import opened Formatting

  /** Where a stream handler writes: the process's standard error (what a
      handler built without a stream uses) or a stream the caller passed. */
  datatype Stream = Stderr | Given(id: nat)

  /** `logging.StreamHandler(stream)`: `None` means standard error. */
  function StreamOf(stream: Option<nat>): (s: Stream)
    ensures stream.None? <==> s == Stderr
    ensures stream.Some? ==> s == Given(stream.value)
  {
    match stream
    case None => Stderr
    case Some(id) => Given(id)
  }

  /** A handler: its stream, its formatter and its own threshold, which a
      fresh handler leaves at NOTSET (0). */
  datatype Handler = Handler(stream: Stream, formatter: Formatter, level: int)

  /** One line a handler wrote, and to which stream. */
  datatype Written = Written(stream: Stream, text: string)

  /** How `_setup_logger` ends: normally, or with the KeyError of an unknown
      `log_level`, raised after the new handler is already attached. */
  datatype Status = Done | KeyError(key: string)

  /** How a level call ends: it returns, or the process exits with a status. */
  datatype Outcome = Returned | Exited(status: int)

  /** The library's rank-to-name table before anything is registered. */
  function LibraryLevelNames(): map<int, string>
  {
    map[0 := "NOTSET", 10 := "DEBUG", 20 := "INFO", 30 := "WARNING", 40 := "ERROR", 50 := "CRITICAL"]
  }

  /** `logging.getLevelName(rank)`: the registered name, else "Level <rank>". */
  function LevelNameIn(names: map<int, string>, rank: int): (r: string)
    ensures rank in names ==> r == names[rank]
    ensures rank !in names ==> r == "Level " + IntToString(rank)
  {
    if rank in names then names[rank] else "Level " + IntToString(rank)
  }

  /** The position of the first entry equal to `h`. */
  function FirstIndex(hs: seq<Handler>, h: Handler): (j: nat)
    requires h in hs
    ensures j < |hs| && hs[j] == h && h !in hs[..j]
  {
    if hs[0] == h then 0
    else
      var j := 1 + FirstIndex(hs[1..], h);
      assert hs[..j] == [hs[0]] + hs[1..][..j - 1];
      j
  }

  /** `list.remove(h)` guarded by `h in list`: drops the first equal entry. */
  function RemoveFirst(hs: seq<Handler>, h: Handler): (r: seq<Handler>)
    ensures h !in hs ==> r == hs
    ensures h in hs ==> |r| == |hs| - 1
    ensures h in hs ==> r == hs[..FirstIndex(hs, h)] + hs[FirstIndex(hs, h) + 1..]
  {
    if hs == [] then []
    else if hs[0] == h then hs[1..]
    else
      var rest := RemoveFirst(hs[1..], h);
      assert h in hs ==> [hs[0]] + rest == hs[..FirstIndex(hs, h)] + hs[FirstIndex(hs, h) + 1..] by {
        if h in hs { RemoveFirstTail(hs, h, rest); }
      }
      [hs[0]] + rest
  }

  /** Removing from the tail of a list whose head is kept removes the same
      entry from the whole list. */
  lemma RemoveFirstTail(hs: seq<Handler>, h: Handler, rest: seq<Handler>)
    requires |hs| > 0 && hs[0] != h && h in hs
    requires rest == hs[1..][..FirstIndex(hs[1..], h)] + hs[1..][FirstIndex(hs[1..], h) + 1..]
    ensures [hs[0]] + rest == hs[..FirstIndex(hs, h)] + hs[FirstIndex(hs, h) + 1..]
  {
    var j := FirstIndex(hs[1..], h);
    assert FirstIndex(hs, h) == j + 1;
    assert hs[..j + 1] == [hs[0]] + hs[1..][..j];
    assert hs[j + 2..] == hs[1..][j + 1..];
  }

  /** What one handler writes for a record: nothing below its own threshold
      or when formatting fails, otherwise the formatted line on its stream. */
  function HandlerOutput(h: Handler, levelName: string, levelNo: int, message: string, asctime: string,
                         codes: map<string, string>): (r: seq<Written>)
    ensures |r| <= 1
    ensures |r| == 1 <==> levelNo >= h.level && FormatLine(h.formatter, levelName, levelNo, message, asctime, codes).Some?
    ensures |r| == 1 ==> r[0] == Written(h.stream, FormatLine(h.formatter, levelName, levelNo, message, asctime, codes).value)
  {
    if levelNo < h.level then []
    else
      match FormatLine(h.formatter, levelName, levelNo, message, asctime, codes)
      case None => []
      case Some(t) => [Written(h.stream, t)]
  }

  /** What all handlers write for a record, in the order they were added. */
  function Lines(hs: seq<Handler>, levelName: string, levelNo: int, message: string, asctime: string,
                 codes: map<string, string>): seq<Written>
  {
    if hs == [] then []
    else Lines(hs[..|hs| - 1], levelName, levelNo, message, asctime, codes)
         + HandlerOutput(hs[|hs| - 1], levelName, levelNo, message, asctime, codes)
  }

  lemma LinesStep(hs: seq<Handler>, i: nat, levelName: string, levelNo: int, message: string, asctime: string,
                  codes: map<string, string>)
    requires i < |hs|
    ensures Lines(hs[..i + 1], levelName, levelNo, message, asctime, codes)
            == Lines(hs[..i], levelName, levelNo, message, asctime, codes)
               + HandlerOutput(hs[i], levelName, levelNo, message, asctime, codes)
  {
    assert hs[..i + 1][..i] == hs[..i];
  }

  /** The logger `logging.getLogger('write')` returns: one object shared by
      every `Write` instance. */
  class Logger {
    var handlers: seq<Handler>
    var level: int
    var levelNames: map<int, string>
    var output: seq<Written>

    /** A logger as the library first creates it: no handlers, NOTSET. */
    constructor()
      ensures handlers == [] && level == 0 && levelNames == LibraryLevelNames() && output == []
    {
      handlers := [];
      level := 0;
      levelNames := LibraryLevelNames();
      output := [];
    }

    /** `isEnabledFor`: whether a record of this rank gets past the disable
        level and the threshold, the logger's own level or the root logger's
        while its own is NOTSET. */
    predicate IsEnabledFor(rank: int)
      reads this
    {
      Enabled(rank, level)
    }

    function LevelName(rank: int): string
      reads this
    {
      LevelNameIn(levelNames, rank)
    }

    method RemoveHandler(h: Handler)
      modifies this
      ensures handlers == RemoveFirst(old(handlers), h)
      ensures level == old(level) && levelNames == old(levelNames) && output == old(output)
    {
      if h in handlers {
        handlers := RemoveFirst(handlers, h);
      }
    }

    method AddHandler(h: Handler)
      modifies this
      ensures handlers == if h in old(handlers) then old(handlers) else old(handlers) + [h]
      ensures level == old(level) && levelNames == old(levelNames) && output == old(output)
    {
      if h !in handlers {
        handlers := handlers + [h];
      }
    }

    method SetLevel(rank: int)
      modifies this
      ensures level == rank
      ensures handlers == old(handlers) && levelNames == old(levelNames) && output == old(output)
    {
      level := rank;
    }

    /** `logging.addLevelName`: the rank now shows the given name. */
    method AddLevelName(rank: int, name: string)
      modifies this
      ensures levelNames == old(levelNames)[rank := name]
      ensures handlers == old(handlers) && level == old(level) && output == old(output)
    {
      levelNames := levelNames[rank := name];
    }

    /** `Logger.log(rank, message)`: a record the logger is enabled for goes
        to every handler in turn, each writing its own line. */
    method Log(rank: int, message: string, asctime: string, codes: map<string, string>)
      modifies this
      ensures output == old(output)
                        + (if old(IsEnabledFor(rank))
                           then Lines(handlers, LevelName(rank), rank, message, asctime, codes)
                           else [])
      ensures handlers == old(handlers) && level == old(level) && levelNames == old(levelNames)
    {
      if IsEnabledFor(rank) {
        CallHandlers(LevelName(rank), rank, message, asctime, codes);
      }
    }

    /** Hands one record to every handler in turn, each writing its own line. */
    method CallHandlers(name: string, rank: int, message: string, asctime: string, codes: map<string, string>)
      modifies this
      ensures output == old(output) + Lines(handlers, name, rank, message, asctime, codes)
      ensures handlers == old(handlers) && level == old(level) && levelNames == old(levelNames)
    {
      var hs := handlers;
      var i := 0;
      while i < |hs|
        invariant 0 <= i <= |hs|
        invariant handlers == hs && level == old(level) && levelNames == old(levelNames)
        invariant output == old(output) + Lines(hs[..i], name, rank, message, asctime, codes)
      {
        LinesStep(hs, i, name, rank, message, asctime, codes);
        output := output + HandlerOutput(hs[i], name, rank, message, asctime, codes);
        i := i + 1;
      }
      assert hs[..|hs|] == hs;
    }
  }

  /** A `Write` logger: its settings, the level table it was built with, the
      pad width and the per-level entry points it derived, over the shared
      'write' logger. */
  class Write {
    const logger: Logger
    const levels: seq<Level>
    var useColors: bool
    var logLevel: string
    var formatString: string
    var dateFormat: Option<string>
    var stream: Option<nat>
    var maxLevelLength: nat
    var methods: map<string, bool>

    /** The table is a dictionary with at least one entry, the width is the
        one derived from it, and the entry points are those of the table. */
    ghost predicate Valid()
      reads this
    {
      && WellFormed(levels)
      && maxLevelLength == MaxNameLength(levels)
      && methods == DispatchTable(levels)
    }

    /** `Write(use_colors=True, log_level='info', format_string='',
        date_format=None, stream=None)`, which configures the logger at once. */
    constructor(levels: seq<Level>, logger: Logger, useColors: bool := true, logLevel: string := "info",
                formatString: string := "", dateFormat: Option<string> := None, stream: Option<nat> := None)
      requires WellFormed(levels) && logLevel in Names(levels)
      modifies logger
      ensures Valid()
      ensures this.levels == levels && this.logger == logger
      ensures this.useColors == useColors && this.logLevel == logLevel && this.dateFormat == dateFormat
      ensures this.stream == stream
      ensures this.formatString == ResolveTemplate(formatString, useColors, dateFormat, MaxNameLength(levels))
      ensures logger.handlers == [Handler(StreamOf(stream), MakeFormatter(this.formatString, useColors, dateFormat, levels), 0)]
      ensures logger.level == RankOf(levels, logLevel)
      ensures logger.levelNames == RegisterNames(old(logger.levelNames), levels)
      ensures logger.output == old(logger.output)
    {
      this.levels := levels;
      this.logger := logger;
      this.useColors := useColors;
      this.logLevel := logLevel;
      this.formatString := formatString;
      this.dateFormat := dateFormat;
      this.stream := stream;
      this.maxLevelLength := 0;
      this.methods := map[];
      new;
      var st := RefreshLog();
    }

    /** `update_log_levels`: registers every level's upper-cased name with the
        library, in table order, and derives the pad width. */
    method UpdateLogLevels()
      requires |levels| > 0
      modifies this, logger
      ensures logger.levelNames == RegisterNames(old(logger.levelNames), levels)
      ensures maxLevelLength == MaxNameLength(levels)
      ensures logger.handlers == old(logger.handlers) && logger.level == old(logger.level)
      ensures logger.output == old(logger.output)
      ensures useColors == old(useColors) && logLevel == old(logLevel) && formatString == old(formatString)
      ensures dateFormat == old(dateFormat) && stream == old(stream) && methods == old(methods)
    {
      for i := 0 to |levels|
        invariant logger.levelNames == RegisterNames(old(logger.levelNames), levels[..i])
        invariant logger.handlers == old(logger.handlers) && logger.level == old(logger.level)
        invariant logger.output == old(logger.output)
        invariant useColors == old(useColors) && logLevel == old(logLevel) && formatString == old(formatString)
        invariant dateFormat == old(dateFormat) && stream == old(stream) && methods == old(methods)
      {
        assert levels[..i + 1][..i] == levels[..i];
        logger.AddLevelName(levels[i].rank, Upper(levels[i].name));
      }
      assert levels[..|levels|] == levels;
      maxLevelLength := MaxNameLength(levels);
    }

    /** `_setup_logger`: empties the handler list, settles the template,
        attaches one handler with a formatter over it, then sets the
        threshold, which fails with KeyError for an unknown level name. */
    method SetupLogger() returns (st: Status)
      modifies this, logger
      ensures formatString == ResolveTemplate(old(formatString), useColors, dateFormat, maxLevelLength)
      ensures logger.handlers == [Handler(StreamOf(stream), MakeFormatter(formatString, useColors, dateFormat, levels), 0)]
      ensures st == Done <==> logLevel in Names(levels)
      ensures st == Done ==> logger.level == RankOf(levels, logLevel)
      ensures st.KeyError? ==> st.key == logLevel && logger.level == old(logger.level)
      ensures logger.levelNames == old(logger.levelNames) && logger.output == old(logger.output)
      ensures useColors == old(useColors) && logLevel == old(logLevel) && dateFormat == old(dateFormat)
      ensures stream == old(stream) && maxLevelLength == old(maxLevelLength) && methods == old(methods)
    {
      var snapshot := logger.handlers;
      var i := 0;
      while i < |snapshot|
        modifies logger
        invariant 0 <= i <= |snapshot|
        invariant logger.handlers == snapshot[i..]
        invariant logger.level == old(logger.level) && logger.levelNames == old(logger.levelNames)
        invariant logger.output == old(logger.output)
      {
        logger.RemoveHandler(snapshot[i]);
        i := i + 1;
      }
      formatString := ResolveTemplate(formatString, useColors, dateFormat, maxLevelLength);
      var formatter := MakeFormatter(formatString, useColors, dateFormat, levels);
      logger.AddHandler(Handler(StreamOf(stream), formatter, 0));
      var found := Find(levels, logLevel);
      if found.None? {
        return KeyError(logLevel);
      }
      logger.SetLevel(found.value.rank);
      return Done;
    }

    /** `setup_log_methods`: one entry point per level name, each bound to
        that level's terminate flag. */
    method SetupLogMethods()
      modifies this
      ensures methods == old(methods) + DispatchTable(levels)
      ensures useColors == old(useColors) && logLevel == old(logLevel) && formatString == old(formatString)
      ensures dateFormat == old(dateFormat) && stream == old(stream) && maxLevelLength == old(maxLevelLength)
    {
      for i := 0 to |levels|
        invariant methods == old(methods) + DispatchTable(levels[..i])
        invariant useColors == old(useColors) && logLevel == old(logLevel) && formatString == old(formatString)
        invariant dateFormat == old(dateFormat) && stream == old(stream) && maxLevelLength == old(maxLevelLength)
      {
        assert levels[..i + 1][..i] == levels[..i];
        methods := methods[levels[i].name := Terminates(levels[i])];
      }
      assert levels[..|levels|] == levels;
    }

    /** `refresh_log`: registers the names, rebuilds the logger and rebinds
        the entry points; a KeyError from the logger setup stops it before
        the entry points are rebound, with the new handler already in place. */
    method RefreshLog() returns (st: Status)
      requires WellFormed(levels)
      requires methods == DispatchTable(levels) || (methods == map[] && logLevel in Names(levels))
      modifies this, logger
      ensures Valid()
      ensures maxLevelLength == MaxNameLength(levels)
      ensures formatString == ResolveTemplate(old(formatString), useColors, dateFormat, MaxNameLength(levels))
      ensures logger.levelNames == RegisterNames(old(logger.levelNames), levels)
      ensures logger.handlers == [Handler(StreamOf(stream), MakeFormatter(formatString, useColors, dateFormat, levels), 0)]
      ensures st == Done <==> logLevel in Names(levels)
      ensures st == Done ==> logger.level == RankOf(levels, logLevel)
      ensures st.KeyError? ==> st.key == logLevel && logger.level == old(logger.level) && methods == old(methods)
      ensures logger.output == old(logger.output)
      ensures useColors == old(useColors) && logLevel == old(logLevel) && dateFormat == old(dateFormat)
      ensures stream == old(stream)
    {
      UpdateLogLevels();
      assert methods == old(methods) && logLevel == old(logLevel);
      st := SetupLogger();
      if st.KeyError? {
        assert logLevel !in Names(levels);
        assert methods == DispatchTable(levels);
        return;
      }
      SetupLogMethods();
      assert methods == DispatchTable(levels);
    }

    /** `self.<level>(message)`, that is `_log(level, terminate, message)`:
        logs at the level's rank through the shared logger, then exits with
        status 1 if the level terminates, whether or not a line was written. */
    method Emit(level: string, message: string, asctime: string, codes: map<string, string>) returns (outcome: Outcome)
      requires Valid() && level in methods
      modifies logger
      ensures level in Names(levels)
      ensures logger.output == old(logger.output)
                               + (if old(logger.IsEnabledFor(RankOf(levels, level)))
                                  then Lines(logger.handlers, logger.LevelName(RankOf(levels, level)),
                                             RankOf(levels, level), message, asctime, codes)
                                  else [])
      ensures logger.handlers == old(logger.handlers) && logger.level == old(logger.level)
      ensures logger.levelNames == old(logger.levelNames)
      ensures outcome == if Terminates(Find(levels, level).value) then Exited(1) else Returned
    {
      DispatchTableSpec(levels);
      var terminate := methods[level];
      var entry := Find(levels, level).value;
      var i :| 0 <= i < |levels| && levels[i] == entry;
      logger.Log(entry.rank, message, asctime, codes);
      if terminate {
        return Exited(1);
      }
      return Returned;
    }
  }
}
