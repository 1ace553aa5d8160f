/** The formatter `_setup_logger` attaches to its handler: colorlog's
    `ColoredFormatter` over the template, with the level colours in colour
    mode and colorlog's own colour table otherwise, and what it makes of one
    log record. */
module Formatting {
  import opened Text
  import opened PercentFormat
  import opened Levels
  import opened Templates

  /** A formatter as the handler holds it: its template, its date format and
      the level-name-to-colour-name table it colours with. */
  datatype Formatter = Formatter(template: string, dateFormat: Option<string>, logColors: map<string, string>)

  /** The colour table colorlog falls back to when no `log_colors` is given;
      it knows the logging library's standard level names only. */
  function DefaultLogColors(): map<string, string>
  {
    map["DEBUG" := "white", "INFO" := "green", "WARNING" := "yellow", "ERROR" := "red", "CRITICAL" := "bold_red"]
  }

  /** The two formatter constructions: in colour mode the table is built from
      the level registry, otherwise none is passed and colorlog's default
      applies. */
  function MakeFormatter(template: string, useColors: bool, dateFormat: Option<string>, levels: seq<Level>): (f: Formatter)
    ensures f.template == template && f.dateFormat == dateFormat
    ensures useColors ==> f.logColors.Keys == UpperNames(levels)
    ensures !useColors ==> f.logColors == DefaultLogColors()
  {
    ColorMapKeys(levels);
    Formatter(template, dateFormat, if useColors then ColorMap(levels) else DefaultLogColors())
  }

  /** The escape sequence for a colour name, looked up in colorlog's escape
      table `codes`; the empty name stands for no colour, an unknown name is
      an error. */
  function ColorCode(colour: string, codes: map<string, string>): Option<string>
  {
    if colour == "" then Some("")
    else if colour in codes then Some(codes[colour])
    else None
  }

  /** The escape sequence for a record's level: the colour the table gives its
      level name, or none when the table does not know the name. */
  function LogColor(f: Formatter, levelName: string, codes: map<string, string>): Option<string>
  {
    ColorCode(if levelName in f.logColors then f.logColors[levelName] else "", codes)
  }

  /** A level name the colour table lacks gets no colour; a known one gets
      its colour's escape code, and a colour name without a code fails. */
  lemma LogColorSpec(f: Formatter, levelName: string, codes: map<string, string>)
    ensures levelName !in f.logColors ==> LogColor(f, levelName, codes) == Some("")
    ensures levelName in f.logColors ==>
              (LogColor(f, levelName, codes).Some? <==> f.logColors[levelName] == "" || f.logColors[levelName] in codes)
    ensures levelName in f.logColors && f.logColors[levelName] in codes && f.logColors[levelName] != "" ==>
              LogColor(f, levelName, codes) == Some(codes[f.logColors[levelName]])
  {
  }

  /** The record attributes this model provides to a template: the logger's
      name, the level name and number, the message and the formatted time.
      A `LogRecord` has more (the caller's file, module and function, the
      thread, the process, ...); they are not modelled. */
  function RecordFields(levelName: string, levelNo: int, message: string, asctime: string): map<string, string>
  {
    map["name" := "write", "levelname" := levelName, "levelno" := IntToString(levelNo),
        "message" := message, "asctime" := asctime]
  }

  /** The names colorlog's wrapped record exposes: the record's attributes,
      overridden by the escape table, where `log_color` is added unless the
      table already has it. */
  function ColoredRecord(fields: map<string, string>, codes: map<string, string>, logColor: string): map<string, string>
  {
    fields + (if "log_color" in codes then codes else codes["log_color" := logColor])
  }

  /** The wrapped record has the record's attributes, the escape names and
      `log_color`; an escape code wins over an attribute of the same name, and
      `log_color` is the level's code unless the table has its own. */
  lemma ColoredRecordSpec(fields: map<string, string>, codes: map<string, string>, logColor: string)
    ensures ColoredRecord(fields, codes, logColor).Keys == fields.Keys + codes.Keys + {"log_color"}
    ensures forall k :: k in codes ==> ColoredRecord(fields, codes, logColor)[k] == codes[k]
    ensures "log_color" !in codes ==> ColoredRecord(fields, codes, logColor)["log_color"] == logColor
    ensures forall k :: k in fields && k !in codes && k != "log_color" ==> ColoredRecord(fields, codes, logColor)[k] == fields[k]
  {
  }

  /** The line the formatter produces for one record, or `None` when
      formatting fails: an unknown colour name, a template this model does not
      parse, or a placeholder naming no attribute. */
  function FormatLine(f: Formatter, levelName: string, levelNo: int, message: string, asctime: string,
                      codes: map<string, string>): Option<string>
  {
    match LogColor(f, levelName, codes)
    case None => None
    case Some(colour) =>
      match ParseFormat(f.template)
      case None => None
      case Some(ps) => Render(ps, ColoredRecord(RecordFields(levelName, levelNo, message, asctime), codes, colour))
  }

  /** Formatting fails when the level's colour or the template fails;
      otherwise it succeeds exactly when every key the template names is a
      record attribute, an escape name or `log_color`. */
  lemma FormatLineDefined(f: Formatter, levelName: string, levelNo: int, message: string, asctime: string,
                          codes: map<string, string>)
    ensures FormatLine(f, levelName, levelNo, message, asctime, codes).Some? ==>
              LogColor(f, levelName, codes).Some? && ParseFormat(f.template).Some?
    ensures LogColor(f, levelName, codes).Some? && ParseFormat(f.template).Some? ==>
              (FormatLine(f, levelName, levelNo, message, asctime, codes).Some?
               <==> Keys(ParseFormat(f.template).value)
                      <= RecordFields(levelName, levelNo, message, asctime).Keys + codes.Keys + {"log_color"})
  {
    var colour := LogColor(f, levelName, codes);
    var parsed := ParseFormat(f.template);
    if colour.Some? && parsed.Some? {
      var fields := RecordFields(levelName, levelNo, message, asctime);
      ColoredRecordSpec(fields, codes, colour.value);
      RenderDefined(parsed.value, ColoredRecord(fields, codes, colour.value));
    }
  }

  /** What colorlog's escape table looks like to the formatter: it has the
      codes every template and default colour names, it has no `log_color`
      entry of its own, and none of its names hides a record attribute. */
  predicate EscapeTable(codes: map<string, string>)
  {
    && "reset" in codes && "white" in codes && "green" in codes && "yellow" in codes
    && "red" in codes && "bold_red" in codes
    && "log_color" !in codes
    && "name" !in codes && "levelname" !in codes && "levelno" !in codes
    && "message" !in codes && "asctime" !in codes
  }

  /** Every colour the level registry names has an escape code. */
  predicate KnowsColours(codes: map<string, string>, levels: seq<Level>)
  {
    forall i :: 0 <= i < |levels| ==> levels[i].color == "" || levels[i].color in codes
  }

  lemma {:induction false} ColorMapValues(levels: seq<Level>, n: string)
    requires n in ColorMap(levels)
    ensures exists i :: 0 <= i < |levels| && ColorMap(levels)[n] == levels[i].color
  {
    var init := levels[..|levels| - 1];
    var last := levels[|levels| - 1];
    if n != Upper(last.name) {
      ColorMapValues(init, n);
      var i :| 0 <= i < |init| && ColorMap(init)[n] == init[i].color;
      assert levels[i] == init[i];
    }
  }

  /** A formatter built by `_setup_logger` always finds the colour of a
      record's level, provided the escape table knows the registry's colours. */
  lemma ColourFound(template: string, useColors: bool, dateFormat: Option<string>, levels: seq<Level>,
                    levelName: string, codes: map<string, string>)
    requires EscapeTable(codes) && KnowsColours(codes, levels)
    ensures LogColor(MakeFormatter(template, useColors, dateFormat, levels), levelName, codes).Some?
  {
    var f := MakeFormatter(template, useColors, dateFormat, levels);
    if useColors && levelName in f.logColors {
      ColorMapValues(levels, levelName);
    }
  }

  /** The line under a derived template, in all four variants: the level's
      colour code (colour mode), the time and a separator (date mode), the
      level name left-justified to the width and a separator, the reset and
      white codes (colour mode), then the message. */
  lemma DerivedFormatLine(useColors: bool, dateFormat: Option<string>, width: nat, levels: seq<Level>,
                          levelName: string, levelNo: int, message: string, asctime: string,
                          codes: map<string, string>)
    requires EscapeTable(codes) && KnowsColours(codes, levels)
    ensures LogColor(MakeFormatter(DeriveTemplate(useColors, dateFormat, width), useColors, dateFormat, levels),
                     levelName, codes).Some?
    ensures FormatLine(MakeFormatter(DeriveTemplate(useColors, dateFormat, width), useColors, dateFormat, levels),
                       levelName, levelNo, message, asctime, codes)
            == Some((if useColors
                     then LogColor(MakeFormatter(DeriveTemplate(useColors, dateFormat, width), useColors, dateFormat, levels),
                                   levelName, codes).value
                     else "")
                    + (if dateFormat.Some? then asctime + " :: " else "")
                    + (Pad(levelName, true, width) + " :: ")
                    + (if useColors then codes["reset"] + codes["white"] else "")
                    + message)
  {
    var t := DeriveTemplate(useColors, dateFormat, width);
    var f := MakeFormatter(t, useColors, dateFormat, levels);
    ColourFound(t, useColors, dateFormat, levels, levelName, codes);
    var colour := LogColor(f, levelName, codes).value;
    var rec := ColoredRecord(RecordFields(levelName, levelNo, message, asctime), codes, colour);
    assert rec["levelname"] == levelName && rec["message"] == message && rec["asctime"] == asctime;
    assert rec["log_color"] == colour && rec["reset"] == codes["reset"] && rec["white"] == codes["white"];
    ParseDerived(useColors, dateFormat, width);
    var gs := DerivedSegments(useColors, dateFormat.Some?, width);
    DerivedLine(useColors, dateFormat.Some?, width, rec);
    RenderAllPieces(gs, rec);
  }

  /** The plain line: without colours and without a date, the level name
      left-justified to the width, a separator, then the message. */
  lemma PlainFormatLine(width: nat, levels: seq<Level>, levelName: string, levelNo: int, message: string,
                        asctime: string, codes: map<string, string>)
    requires EscapeTable(codes) && KnowsColours(codes, levels)
    ensures FormatLine(MakeFormatter(DeriveTemplate(false, None, width), false, None, levels),
                       levelName, levelNo, message, asctime, codes)
            == Some(Pad(levelName, true, width) + " :: " + message)
  {
    DerivedFormatLine(false, None, width, levels, levelName, levelNo, message, asctime, codes);
    DropEmpty(Pad(levelName, true, width) + " :: ", message);
  }

  lemma DropEmpty(a: string, b: string)
    ensures "" + "" + a + "" + b == a + b
  {
  }

  lemma MessageText()
    ensures FieldText("message", false, "") == "%(message)s"
  {
  }

  lemma MessageTemplate(t: string)
    requires t == "%(message)s"
    ensures ParseFormat(t) == Some([Field("message", false, 0)])
  {
    ParsePlaceholder("message", false, "", "");
    assert FieldText("message", false, "") + "" == FieldText("message", false, "");
    MessageText();
    assert DigitsValue("") == 0;
    assert ParseFormat("") == Some([]);
    assert [Field("message", false, 0)] + [] == [Field("message", false, 0)];
  }

  /** A template of just the message placeholder yields exactly the message,
      whatever the level, time and colours. */
  lemma MessageOnlyLine(dateFormat: Option<string>, useColors: bool, levels: seq<Level>, levelName: string,
                        levelNo: int, message: string, asctime: string, codes: map<string, string>)
    requires EscapeTable(codes) && KnowsColours(codes, levels)
    ensures FormatLine(MakeFormatter("%(message)s", useColors, dateFormat, levels),
                       levelName, levelNo, message, asctime, codes) == Some(message)
  {
    var f := MakeFormatter("%(message)s", useColors, dateFormat, levels);
    ColourFound("%(message)s", useColors, dateFormat, levels, levelName, codes);
    var rec := ColoredRecord(RecordFields(levelName, levelNo, message, asctime), codes, LogColor(f, levelName, codes).value);
    MessageTemplate(f.template);
    assert rec["message"] == message;
    RenderField("message", false, 0, rec);
    PadZero(message, false);
  }
}
