# Write: a levelled, coloured logger, modelled in Dafny

`Write` (write.py) is a thin logging front end. It holds a fixed table of seven
levels. Each level has a rank, a colour name and an optional terminate flag:

| level | rank | colour   | terminates |
|-------|------|----------|------------|
| trace | 5    | cyan     | no         |
| debug | 10   | blue     | no         |
| info  | 20   | green    | no         |
| warn  | 30   | yellow   | no         |
| error | 40   | red      | no         |
| fatal | 50   | thin_red | yes        |
| help  | 60   | purple   | no         |

Building a `Write` configures the one shared `logging` logger named 'write'. It
does four things:

- It registers the upper-cased level names with the logging library.
- It computes the pad width: the length of the longest name.
- It removes every handler the logger had and attaches one stream handler. That
  handler's colorlog formatter uses either a template the caller gave or one
  derived from the colour and date settings.
- It sets the logger's threshold to the configured level's rank.

Each level then has an entry point. The entry point logs the message at the
level's rank, then exits the process with status 1 if the level terminates.

The project models this in seven modules:

- `Text`: ASCII upper-casing, `%-Ns` padding, and decimal rendering of the width.
- `PercentFormat`: the subset of `%`-style templates the logger uses
  (`%(key)s`, `%(key)-Ns`, `%%`), with a parser, a renderer, and the lemmas
  that tie them together.
- `Levels`: the level table and what is derived from it. That means lookup, pad
  width, registered names, colour map, entry points, and which levels a
  threshold silences.
- `Templates`: the template `_setup_logger` settles on. The four derived
  variants are built from segments, and a lemma proves they spell the
  f-strings at write.py:49-56. Lemmas give the keys each variant asks for and
  the exact line it produces.
- `Formatting`: colorlog's `ColoredFormatter` as a value, and the line it makes
  of one record.
- `Writer`: two classes.
  - `Logger` is the shared library logger: its handler list, threshold,
    rank-to-name table, and the lines its handlers have written.
  - `Write` is the front end. Its methods update its own fields and the
    logger's in place, as the Python methods do.
- `Scenarios`: whole runs.
  - A generic construct-then-call run over a logger in any state.
  - A run writes nothing exactly when the configured level silences the
    called one, given that the handler can format the record.
  - The repository's unit tests stated as exact outputs: the seven plain lines,
    colours, threshold, explicit template and date prefix.

Escape codes, the time text and the level-call message are parameters. colorlog's
escape table is an opaque `codes` map. The `EscapeTable` predicate constrains it
only as far as the formatter relies on it.

## Model

| member | source | states |
|---|---|---|
| Levels.Find | write.py:77 | `log_levels[name]` finds an entry exactly when the name is in the table, and the entry carries that name |
| Levels.FindAt | write.py:7-15 | with distinct names, looking up an entry's name finds that entry |
| Levels.MaxNameLength | write.py:20 | the width is at least every name's length and equals some name's length |
| Levels.DefaultMaxNameLength | write.py:20 | the default table's width is 5 |
| Levels.AlignedLevelNames | write.py:56 | every upper-cased name, padded to the width, is exactly that wide and starts with the whole name, so no name is cut short |
| Levels.DefaultWellFormed | write.py:7-15 | the default table has distinct names and distinct ranks |
| Levels.DefaultNames | write.py:7-15 | the names of `DefaultLevels` are trace, debug, info, warn, error, fatal and help |
| Levels.DispatchTableSpec | write.py:22-24 | `DispatchTable` has an entry point for exactly the table's names, and each one carries its own level's terminate flag (absent reads as false) |
| Levels.DefaultOnlyFatalTerminates | write.py:8-14 | of the default levels, an entry point terminates if and only if it is 'fatal' |
| Levels.RegisterNamesSpec | write.py:17-19 | after `RegisterNames` every table rank is known, ranks outside the table keep their old names, and each table rank shows its level's upper-cased name |
| Levels.ColorMapKeys | write.py:62 | `ColorMap`'s keys are exactly the upper-cased level names |
| Levels.ColorMapAt | write.py:62 | an upper-cased name that no later entry repeats maps to its own level's colour |
| Levels.Effective | write.py:72 | a logger whose level is set filters at that level, and the threshold it applies is never NOTSET |
| Levels.SuppressedSpec | write.py:72 | a level is silenced by a threshold if and only if its rank is below the rank the logger applies for it (the root's 30 for a NOTSET threshold) or at or below the library's disable level (0) |
| Levels.SuppressedMonotone | write.py:72 | raising a threshold whose rank is not NOTSET never lets a silenced level through again |
| Levels.SuppressedAscending | write.py:72 | in a table ordered by rank, a threshold of positive rank silences exactly the levels declared before it |
| Levels.NotsetThresholdUsesRoot | write.py:72 | a rank-0 threshold filters at the root's 30, so it silences a rank-20 level too |
| Levels.NegativeThresholdDropsZero | write.py:72 | a negative threshold still silences a rank-0 level, which the library's disable level (0) drops |
| Levels.DefaultAscending | write.py:7-15 | the default table is in ascending rank order |
| Levels.DefaultSuppressedByDebug | test_write.py:108-112 | threshold 'debug' silences only 'trace' |
| Levels.DefaultSuppressedByError | write.py:7-15 | threshold 'error' silences exactly trace, debug, info and warn |
| Text.Upper | write.py:19 | upper-casing keeps the length |
| Text.UpperAt | write.py:19 | upper-casing changes each character in place, lower-case ASCII letters to upper case and nothing else |
| Text.Pad | write.py:56 | a padded value is as wide as the width or the value, whichever is larger, so it is never cut short |
| Text.NatToString | write.py:56 | the width written into an f-string is a non-empty run of decimal digits |
| PercentFormat.RenderDefined | write.py:77 | a parsed template renders exactly when the record has every key it names |
| Text.PadLeftAligned | write.py:56 | `%-Ns` keeps the value unchanged at the front, follows it only with spaces, and fills the width whenever the value fits |
| Text.NatToStringRoundTrip | write.py:56 | the width written into a derived template reads back as the same number |
| Templates.ResolveTemplate | write.py:46-56 | a non-empty template is kept verbatim; an empty one is replaced by the derived one, and the result is never empty |
| Templates.ResolveSticky | write.py:26-29 | resolving the stored template again changes nothing, whatever the settings are by then, so a second refresh keeps the first refresh's template |
| Templates.DeriveTemplateText | write.py:46-56 | `DeriveTemplate` gives the f-string of its variant: colour tag, time and separator, `%(levelname)-<width>s :: `, reset and white tags, then `%(message)s` |
| Templates.PlainLiteral | write.py:56 | with the default width the plain template is `%(levelname)-5s :: %(message)s` |
| Templates.DateLiteral | write.py:54 | with the default width the date template is `%(asctime)s :: %(levelname)-5s :: %(message)s` |
| Templates.ColourLiteral | write.py:51 | with the default width the colour template is `%(log_color)s%(levelname)-5s :: %(reset)s%(white)s%(message)s` |
| Templates.ColourDateLiteral | write.py:49 | with the default width the colour and date template is `%(log_color)s%(asctime)s :: %(levelname)-5s :: %(reset)s%(white)s%(message)s` |
| Templates.ParseDerived | write.py:49-56 | every derived template parses |
| Templates.DerivedKeys | write.py:46-56 | a derived template always names levelname and message; it names asctime exactly in the date variants, and log_color, reset and white exactly in the colour variants |
| Templates.DerivedLine | write.py:49-56 | line shape: colour code (colour variants), time and " :: " (date variants), the level name left-justified to the width and " :: ", reset and white codes (colour variants), then the message |
| Formatting.MakeFormatter | write.py:58-68 | the formatter keeps the template and date format; in colour mode its colour table has exactly the upper-cased level names as keys, otherwise it is colorlog's default table |
| Formatting.LogColorSpec | write.py:58-63 | a level name the colour table lacks gets no colour; a known one gets its colour's escape code, and an unknown colour name fails |
| Formatting.ColoredRecordSpec | write.py:58-68 | the wrapped record has the record's attributes, the escape names and `log_color`; escape codes win over attributes, and `log_color` is the level's code unless the escape table has its own |
| Formatting.FormatLineDefined | write.py:58-68 | formatting fails when the level's colour or the template fails; otherwise it succeeds exactly when every key the template names is a record attribute, an escape name or `log_color` |
| Formatting.ColourFound | write.py:58-68 | a formatter built by `_setup_logger` always finds a code for a record's level, given that the escape table knows the level colours |
| Formatting.DerivedFormatLine | write.py:46-68 | formatting under a derived template succeeds and yields the line shape of `DerivedLine`, with the level's own colour code |
| Formatting.PlainFormatLine | write.py:56 | without colours or date, the line is the level name left-justified to the width, " :: ", then the message |
| Formatting.MessageOnlyLine | test_write.py:114-119 | the template '%(message)s' yields exactly the message |
| Writer.StreamOf | write.py:44 | a handler built without a stream writes to standard error, otherwise to exactly the given stream |
| Writer.RemoveFirst | write.py:41-42 | removing a handler that is present drops exactly its first copy, keeping the others in order; an absent one leaves the list alone |
| Writer.LevelNameIn | write.py:19 | the library names a rank by its registration, and an unregistered rank as "Level n" |
| Writer.HandlerOutput | write.py:70-71 | a handler writes at most one line. It writes exactly when the record passes its threshold and formats, and then the formatted text goes to its stream |
| Writer.Logger.constructor | write.py:40 | the 'write' logger starts with no handlers, level NOTSET and the library's standard names |
| Writer.Logger.RemoveHandler | write.py:42 | drops the first copy of the handler; nothing else changes |
| Writer.Logger.AddHandler | write.py:71 | appends the handler unless it is already attached; nothing else changes |
| Writer.Logger.SetLevel | write.py:72 | sets the threshold; nothing else changes |
| Writer.Logger.AddLevelName | write.py:19 | binds the rank to the name; nothing else changes |
| Writer.Logger.Log | write.py:77 | a record the logger is enabled for (rank above the disable level 0 and at or above the effective threshold) appends every handler's line, in handler order; any other record appends nothing |
| Writer.Logger.CallHandlers | write.py:77 | each handler, in turn, appends what it writes for the record |
| Writer.Write.constructor | write.py:31-37 | stores the settings, then refreshes: the instance is consistent, the template is resolved, the logger holds exactly one handler on the chosen stream, its threshold is the configured level's rank, and the names are registered |
| Writer.Write.UpdateLogLevels | write.py:17-20 | registers every upper-cased name in table order and sets the width to the longest name's length; nothing else changes |
| Writer.Write.SetupLogger | write.py:39-74 | the logger ends with exactly one handler, whose formatter uses the resolved template, which is stored back. The threshold becomes the level's rank, or the call ends with KeyError(log_level) and the old threshold when the level is unknown |
| Writer.Write.SetupLogMethods | write.py:22-24 | the entry points become the table's dispatch table |
| Writer.Write.RefreshLog | write.py:26-29 | registers the names, sets the width, installs the single handler and rebinds the entry points. A KeyError leaves the entry points as they were |
| Writer.Write.Emit | write.py:76-79 | logs at the level's rank through the shared logger (a line from each handler when the logger is enabled for that rank, nothing otherwise), then exits with status 1 exactly when the level's terminate flag is set, whether or not a line was written |
| Scenarios.SetUp | test_write.py:14-16 | the test set-up leaves one plain handler on the given stream, threshold 5, the names registered and nothing written |
| Scenarios.PlainOutput | write.py:56 | for any table with distinct names and ranks, the plain handler writes the level's upper-cased name padded to the width, " :: ", then the message |
| Scenarios.DerivedOutput | write.py:46-68 | for any table, a handler over any derived variant writes that variant's line, with the level's own colour code |
| Scenarios.EntryOf | write.py:76-77 | a registered name has an entry, and its entry point carries that entry's terminate flag |
| Scenarios.PlainCall | test_write.py:28-62 | on the test set-up, every default level writes its padded upper-cased name, " :: " and the message; only 'fatal' then exits with status 1 |
| Scenarios.TestTrace | test_write.py:28-31 | 'trace' writes "TRACE :: test trace" |
| Scenarios.TestDebug | test_write.py:33-36 | 'debug' writes "DEBUG :: test debug" |
| Scenarios.TestInfo | test_write.py:38-41 | 'info' writes "INFO  :: test info" |
| Scenarios.TestWarn | test_write.py:43-46 | 'warn' writes "WARN  :: test warn" |
| Scenarios.TestError | test_write.py:48-51 | 'error' writes "ERROR :: test error" |
| Scenarios.TestFatal | test_write.py:53-57 | 'fatal' writes "FATAL :: test fatal" and then exits with status 1 |
| Scenarios.TestHelp | test_write.py:59-62 | 'help' writes "HELP  :: test help" |
| Scenarios.Rerun | write.py:39-42 | a new `Write` over a logger in any state leaves only its own handler. One call then adds that handler's line exactly when its rank is above 0 and reaches the configured threshold, and exits exactly when the level terminates |
| Scenarios.Run | write.py:31-79 | one construction and one call write at most one line, exactly the installed handler's, and only when its rank is above 0 and at or above the threshold; the call exits exactly when its level terminates |
| Scenarios.RunSilentIffSuppressed | write.py:72-77 | for a record the handler can format, a run writes nothing if and only if the configured level silences the called one |
| Scenarios.DerivedRunSilentIffSuppressed | write.py:46-77 | under a derived template every record formats, so a run writes nothing if and only if the configured level silences the called one |
| Scenarios.DefaultDebugRun | test_write.py:108-112 | with the default table at 'debug', a call writes nothing if and only if it is 'trace' |
| Scenarios.FatalWhenSilenced | write.py:76-79 | 'fatal' under threshold 'help' writes nothing and still exits with status 1 |
| Scenarios.TestLogLevel | test_write.py:108-112 | a second instance built at 'debug' over the set-up's logger: a 'trace' call writes nothing and returns |
| Scenarios.TestFormatString | test_write.py:114-119 | after reconfiguring with '%(message)s', a 'trace' call writes exactly "test trace" |
| Scenarios.MessageLine | test_write.py:114-119 | the handler of the message-only template writes exactly the message |
| Scenarios.TraceRerun | test_write.py:100-129 | after reconfiguring at 'trace' with any derived variant, a 'trace' call writes that variant's line with 'cyan' as the colour |
| Scenarios.TraceLine | test_write.py:100-129 | what a derived-template handler writes for a 'trace' record |
| Scenarios.TestDateFormat | test_write.py:121-129 | with a date format, the line is the time, " :: ", then "TRACE :: test trace" |
| Scenarios.TestColors | test_write.py:100-106 | in colour mode the line is the cyan escape code, "TRACE :: ", the reset and white codes, then "test trace" |

## Left out

- The default stream: the code passes `stream=None` to `logging.StreamHandler`,
  which writes to standard error. Some descriptions of the project say standard
  output. The model follows the code (`Writer.StreamOf`).
- Writer.Write.constructor: requires `log_level` to name a level. In Python an
  unknown level raises KeyError out of `__init__` after the handler is attached.
  That error path is modelled on `SetupLogger` and `RefreshLog`, which return
  `KeyError(log_level)`. A constructor cannot return a status.
- Writer.Write.Emit: requires the level to have an entry point. Calling an
  unknown level in Python is an AttributeError before anything is logged.
- Writer.Logger.Log: the effective level is the logger's own or, at NOTSET, the
  root's default of WARNING (30). The disable level is the library's default
  of 0, so records of rank 0 or below are always dropped. Calls to
  `logging.disable`, root-logger handlers, propagation and the library's
  last-resort handler are not modelled.
- Formatting.FormatLine: a record has only the attributes name, levelname,
  levelno, message and asctime. A template that names another `LogRecord`
  attribute (filename, module, funcName, lineno, threadName, process, ...)
  fails to format here, while Python would write the line. The model's
  `format_string` is a string, so passing `format_string=None` is not
  expressible. That value is not `''`, so write.py:46 keeps it and hands
  `None` to `ColoredFormatter`, which then uses colorlog's default format.
- Levels.SuppressedMonotone: requires the lower threshold's rank not to be
  NOTSET (0). From a NOTSET threshold the logger filters at the root's 30,
  so raising it to a rank below 30 lets more levels through.
  `Levels.NotsetThresholdUsesRoot` shows the case.
- Levels.SuppressedAscending: requires the threshold's rank to be positive,
  for the same reason. A negative threshold still silences every level at or
  below zero, because of the library's default disable level of 0.
  `Levels.NegativeThresholdDropsZero` shows the case.
- Text.Upper: upper-cases ASCII letters only. Python's `str.upper` also maps
  other letters and can change the length ('ß' becomes 'SS'). The source
  only upper-cases the ASCII names of write.py:8-14, but lemmas such as
  `Levels.AlignedLevelNames` speak of any table, and for non-ASCII names
  they hold only for this ASCII upper-casing.
- Writer.HandlerOutput: a formatting failure writes nothing. The library's
  `handleError` traceback to standard error is not modelled.
- `%`-formatting covers `%(key)s`, `%(key)-Ns`, `%(key)Ns` and `%%`. Any other
  conversion makes formatting fail. A mapping key ends at the first `)`;
  Python balances nested parentheses, so `%(a(b)c)s` has the key `a(b)c`
  there and fails to parse here.
- Writer.Write.SetupLogger: the model builds the formatter for any template.
  Python's `Formatter` raises ValueError at construction (write.py:59 or 65)
  for a template with no field. The old handlers are already removed by then
  (write.py:41-42) and the new one is not yet added (write.py:71), so Python
  leaves 'write' with no handler at all. The model's "exactly one handler"
  holds in Python only for a template with a field.
- colorlog is reduced to its record wrapping: escape codes override record
  fields, and `log_color` is added unless the table has one. The following are
  not modelled:
  - the escape codes themselves (an opaque map);
  - the trailing reset code colorlog appends to each line;
  - comma-separated colour lists;
  - the NO_COLOR environment variable.
- The newline terminator, `strftime` time formatting (the time text is a
  parameter) and `%`-substitution of extra `*args` into the message are not
  modelled.
- `sys.exit(1)` is modelled as the `Exited(1)` outcome of a call. It does not
  end the process.
- `setattr`/`partial` method synthesis is modelled as a name-to-flag dispatch
  table. The assertLogs tests (test_write.py:64-98) check the logging module's
  own capture format and are not modelled.
