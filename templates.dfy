/** How `_setup_logger` chooses the line template, how the formatter it builds
    turns one call into one line, and what those lines look like. */
module Templates {
  import opened Text
  import opened PercentFormat
  import opened Levels

  /** The template `_setup_logger` leaves in `format_string`: a non-empty one is
      kept verbatim, an empty one is replaced by the derived one, which is never
      empty. */
  function ResolveTemplate(formatString: string, useColors: bool, dateFormat: Option<string>, width: nat): (r: string)
    ensures r != ""
    ensures formatString != "" ==> r == formatString
    ensures formatString == "" ==> r == DeriveTemplate(useColors, dateFormat, width)
  {
    if formatString == "" then DeriveTemplate(useColors, dateFormat, width) else formatString
  }

  /** Resolving an already resolved template changes nothing, whatever the
      colour, date and width settings are by then: a second refresh keeps the
      template of the first. */
  lemma ResolveSticky(f: string, c: bool, d: Option<string>, w: nat, c': bool, d': Option<string>, w': nat)
    ensures ResolveTemplate(ResolveTemplate(f, c, d, w), c', d', w') == ResolveTemplate(f, c, d, w)
  {
  }

  // ---------------------------------------------------------------------------
  // Templates as sequences of segments, so that the parser lemmas apply.

  datatype Segment =
    | Literal(s: string)
    | Placeholder(key: string, leftAlign: bool, digits: string)

  function SegmentText(g: Segment): string
  {
    match g
    case Literal(s) => s
    case Placeholder(k, left, ds) => FieldText(k, left, ds)
  }

  function Join(gs: seq<Segment>): string
  {
    if gs == [] then "" else SegmentText(gs[0]) + Join(gs[1..])
  }

  predicate Simple(g: Segment)
  {
    match g
    case Literal(s) => NoPercent(s)
    case Placeholder(k, _, ds) => NoCloseParen(k) && AllDigits(ds)
  }

  function SegmentPieces(g: Segment): seq<Piece>
    requires Simple(g)
  {
    match g
    case Literal(s) => Lits(s)
    case Placeholder(k, left, ds) => [Field(k, left, DigitsValue(ds))]
  }

  function AllPieces(gs: seq<Segment>): seq<Piece>
    requires forall i :: 0 <= i < |gs| ==> Simple(gs[i])
  {
    if gs == [] then [] else SegmentPieces(gs[0]) + AllPieces(gs[1..])
  }

  /** A template made of simple segments parses to their pieces, in order. */
  lemma {:induction false} ParseJoin(gs: seq<Segment>)
    requires forall i :: 0 <= i < |gs| ==> Simple(gs[i])
    ensures ParseFormat(Join(gs)) == Some(AllPieces(gs))
  {
    if gs != [] {
      ParseJoin(gs[1..]);
      match gs[0]
      case Literal(s) => ParseLiteral(s, Join(gs[1..]));
      case Placeholder(k, left, ds) => ParsePlaceholder(k, left, ds, Join(gs[1..]));
    }
  }

  function KeyOf(g: Segment): set<string>
  {
    if g.Placeholder? then {g.key} else {}
  }

  function SegmentKeys(gs: seq<Segment>): set<string>
  {
    if gs == [] then {} else KeyOf(gs[0]) + SegmentKeys(gs[1..])
  }

  /** One segment as it appears in the line. */
  function SegmentLine(g: Segment, rec: map<string, string>): string
    requires Simple(g)
    requires KeyOf(g) <= rec.Keys
  {
    match g
    case Literal(s) => s
    case Placeholder(k, left, ds) => Pad(rec[k], left, DigitsValue(ds))
  }

  function LineOf(gs: seq<Segment>, rec: map<string, string>): string
    requires forall i :: 0 <= i < |gs| ==> Simple(gs[i])
    requires SegmentKeys(gs) <= rec.Keys
  {
    if gs == [] then "" else SegmentLine(gs[0], rec) + LineOf(gs[1..], rec)
  }

  /** Rendering the pieces of simple segments substitutes each placeholder's
      padded field and keeps each text. */
  lemma {:induction false} RenderAllPieces(gs: seq<Segment>, rec: map<string, string>)
    requires forall i :: 0 <= i < |gs| ==> Simple(gs[i])
    requires SegmentKeys(gs) <= rec.Keys
    ensures Render(AllPieces(gs), rec) == Some(LineOf(gs, rec))
  {
    if gs != [] {
      RenderAllPieces(gs[1..], rec);
      match gs[0] {
        case Literal(s) => RenderLits(s, rec);
        case Placeholder(k, left, ds) => RenderField(k, left, DigitsValue(ds), rec);
      }
      RenderAppend(SegmentPieces(gs[0]), AllPieces(gs[1..]), rec);
    }
  }

  function Key(k: string): Segment
  {
    Placeholder(k, false, "")
  }

  /** The segments of the derived template: the colour tag, the date and its
      separator, the padded level name and separator, the reset and message
      colour, then the message. */
  function DerivedSegments(useColors: bool, withDate: bool, width: nat): (gs: seq<Segment>)
    ensures forall i :: 0 <= i < |gs| ==> Simple(gs[i])
  {
    (if useColors then [Key("log_color")] else [])
    + (if withDate then [Key("asctime"), Literal(" :: ")] else [])
    + [Placeholder("levelname", true, NatToString(width)), Literal(" :: ")]
    + (if useColors then [Key("reset"), Key("white")] else [])
    + [Key("message")]
  }

  lemma JoinAppend(a: seq<Segment>, b: seq<Segment>)
    ensures Join(a + b) == Join(a) + Join(b)
  {
    if a == [] {
      assert a + b == b;
    } else {
      assert (a + b)[1..] == a[1..] + b;
      JoinAppend(a[1..], b);
    }
  }

  lemma JoinPair(g: Segment, h: Segment)
    ensures Join([g, h]) == SegmentText(g) + SegmentText(h)
  {
    assert [g, h][1..] == [h];
    assert Join([h]) == SegmentText(h) + Join([]);
  }

  lemma JoinOne(g: Segment)
    ensures Join([g]) == SegmentText(g)
  {
    assert Join([g]) == SegmentText(g) + Join([]);
  }

  /** The template derived when no format string was given: a four-way choice
      over colour and date, with the level name left-justified to `width`. */
  function DeriveTemplate(useColors: bool, dateFormat: Option<string>, width: nat): string
  {
    Join(DerivedSegments(useColors, dateFormat.Some?, width))
  }

  /** The derived template as the four f-strings spell it: the colour tag,
      the time and a separator, the level name left-justified to `width`
      written in decimal and a separator, the reset and white tags, then the
      message, with the colour parts only in colour mode and the time only
      when a date format is given. */
  lemma DeriveTemplateText(useColors: bool, dateFormat: Option<string>, width: nat)
    ensures DeriveTemplate(useColors, dateFormat, width)
         == (if useColors then "%(log_color)s" else "")
            + (if dateFormat.Some? then "%(asctime)s :: " else "")
            + ("%(levelname)-" + NatToString(width) + "s :: ")
            + (if useColors then "%(reset)s%(white)s" else "")
            + "%(message)s"
  {
    var c: seq<Segment> := if useColors then [Key("log_color")] else [];
    var d: seq<Segment> := if dateFormat.Some? then [Key("asctime"), Literal(" :: ")] else [];
    var l := [Placeholder("levelname", true, NatToString(width)), Literal(" :: ")];
    var t: seq<Segment> := if useColors then [Key("reset"), Key("white")] else [];
    var m := [Key("message")];
    assert DeriveTemplate(useColors, dateFormat, width) == Join(c) + Join(d) + Join(l) + Join(t) + Join(m) by {
      assert DerivedSegments(useColors, dateFormat.Some?, width) == c + d + l + t + m;
      JoinFive(c, d, l, t, m);
    }
    ColourTagText(useColors);
    DateText(dateFormat.Some?);
    LevelText(width);
    ResetText(useColors);
    MessageKeyText();
  }

  lemma JoinFive(c: seq<Segment>, d: seq<Segment>, l: seq<Segment>, t: seq<Segment>, m: seq<Segment>)
    ensures Join(c + d + l + t + m) == Join(c) + Join(d) + Join(l) + Join(t) + Join(m)
  {
    JoinAppend(c + d + l + t, m);
    JoinAppend(c + d + l, t);
    JoinAppend(c + d, l);
    JoinAppend(c, d);
  }

  lemma ColourTagText(useColors: bool)
    ensures Join(if useColors then [Key("log_color")] else []) == if useColors then "%(log_color)s" else ""
  {
    if useColors { JoinOne(Key("log_color")); }
  }

  lemma DateText(withDate: bool)
    ensures Join(if withDate then [Key("asctime"), Literal(" :: ")] else []) == if withDate then "%(asctime)s :: " else ""
  {
    if withDate { JoinPair(Key("asctime"), Literal(" :: ")); }
  }

  lemma LevelText(width: nat)
    ensures Join([Placeholder("levelname", true, NatToString(width)), Literal(" :: ")])
         == "%(levelname)-" + NatToString(width) + "s :: "
  {
    JoinPair(Placeholder("levelname", true, NatToString(width)), Literal(" :: "));
  }

  lemma MessageKeyText()
    ensures Join([Key("message")]) == "%(message)s"
  {
    JoinOne(Key("message"));
  }

  lemma ResetText(useColors: bool)
    ensures Join(if useColors then [Key("reset"), Key("white")] else []) == if useColors then "%(reset)s%(white)s" else ""
  {
    if useColors { JoinPair(Key("reset"), Key("white")); }
  }

  /** The width the default table gives, written in decimal. */
  lemma WidthFive()
    ensures NatToString(5) == "5"
  {
  }

  /** write.py's plain template for the default table. */
  lemma PlainLiteral()
    ensures DeriveTemplate(false, None, 5) == "%(levelname)-5s :: %(message)s"
  {
    DeriveTemplateText(false, None, 5);
    WidthFive();
    LevelFive();
    PlainSteps();
  }

  /** write.py's plain template with a date format, for the default table. */
  lemma DateLiteral(dateFormat: string)
    ensures DeriveTemplate(false, Some(dateFormat), 5) == "%(asctime)s :: %(levelname)-5s :: %(message)s"
  {
    DeriveTemplateText(false, Some(dateFormat), 5);
    WidthFive();
    LevelFive();
    DateSteps();
  }

  /** write.py's colour template for the default table. */
  lemma ColourLiteral()
    ensures DeriveTemplate(true, None, 5) == "%(log_color)s%(levelname)-5s :: %(reset)s%(white)s%(message)s"
  {
    DeriveTemplateText(true, None, 5);
    WidthFive();
    LevelFive();
    assert "%(log_color)s" + "" == "%(log_color)s";
    ColourSteps();
  }

  /** write.py's colour template with a date format, for the default table. */
  lemma ColourDateLiteral(dateFormat: string)
    ensures DeriveTemplate(true, Some(dateFormat), 5)
         == "%(log_color)s%(asctime)s :: %(levelname)-5s :: %(reset)s%(white)s%(message)s"
  {
    DeriveTemplateText(true, Some(dateFormat), 5);
    WidthFive();
    LevelFive();
    ColourDateSteps();
  }

  lemma LevelFive()
    ensures "%(levelname)-" + "5" + "s :: " == "%(levelname)-5s :: "
  {
  }

  /** The plain template, one appended part at a time. */
  lemma PlainSteps()
    ensures "" + "" + "%(levelname)-5s :: " + "" == "%(levelname)-5s :: "
    ensures "%(levelname)-5s :: " + "%(message)s" == "%(levelname)-5s :: %(message)s"
  {
  }

  /** The date template, one appended part at a time. */
  lemma DateSteps()
    ensures "" + "%(asctime)s :: " == "%(asctime)s :: "
    ensures "%(asctime)s :: " + "%(levelname)-5s :: " + "" == "%(asctime)s :: %(levelname)-5s :: "
    ensures "%(asctime)s :: %(levelname)-5s :: " + "%(message)s" == "%(asctime)s :: %(levelname)-5s :: %(message)s"
  {
  }

  /** The colour template, one appended part at a time. */
  lemma ColourSteps()
    ensures "%(log_color)s" + "%(levelname)-5s :: " == "%(log_color)s%(levelname)-5s :: "
    ensures "%(log_color)s%(levelname)-5s :: " + "%(reset)s%(white)s"
         == "%(log_color)s%(levelname)-5s :: %(reset)s%(white)s"
    ensures "%(log_color)s%(levelname)-5s :: %(reset)s%(white)s" + "%(message)s"
         == "%(log_color)s%(levelname)-5s :: %(reset)s%(white)s%(message)s"
  {
  }

  /** The colour template with a date, one appended part at a time. */
  lemma ColourDateSteps()
    ensures "%(log_color)s" + "%(asctime)s :: " == "%(log_color)s%(asctime)s :: "
    ensures "%(log_color)s%(asctime)s :: " + "%(levelname)-5s :: " == "%(log_color)s%(asctime)s :: %(levelname)-5s :: "
    ensures "%(log_color)s%(asctime)s :: %(levelname)-5s :: " + "%(reset)s%(white)s"
         == "%(log_color)s%(asctime)s :: %(levelname)-5s :: %(reset)s%(white)s"
    ensures "%(log_color)s%(asctime)s :: %(levelname)-5s :: %(reset)s%(white)s" + "%(message)s"
         == "%(log_color)s%(asctime)s :: %(levelname)-5s :: %(reset)s%(white)s%(message)s"
  {
  }

  /** The pieces of a derived template: exactly its segments' pieces. */
  lemma ParseDerived(c: bool, d: Option<string>, w: nat)
    ensures ParseFormat(DeriveTemplate(c, d, w)).Some?
    ensures ParseFormat(DeriveTemplate(c, d, w)).value == AllPieces(DerivedSegments(c, d.Some?, w))
  {
    ParseJoin(DerivedSegments(c, d.Some?, w));
  }

  lemma {:induction false} SegmentKeysAppend(a: seq<Segment>, b: seq<Segment>)
    ensures SegmentKeys(a + b) == SegmentKeys(a) + SegmentKeys(b)
  {
    if a == [] {
      assert a + b == b;
    } else {
      assert (a + b)[1..] == a[1..] + b;
      SegmentKeysAppend(a[1..], b);
    }
  }

  lemma {:induction false} KeysOfSegments(gs: seq<Segment>)
    requires forall i :: 0 <= i < |gs| ==> Simple(gs[i])
    ensures Keys(AllPieces(gs)) == SegmentKeys(gs)
  {
    if gs != [] {
      KeysOfSegments(gs[1..]);
      KeysAppend(SegmentPieces(gs[0]), AllPieces(gs[1..]));
      match gs[0] {
        case Literal(s) => KeysOfLits(s);
        case Placeholder(k, left, ds) => assert Keys([Field(k, left, DigitsValue(ds))]) == {k};
      }
    }
  }

  lemma SegmentKeysPair(g: Segment, h: Segment)
    ensures SegmentKeys([g, h]) == KeyOf(g) + KeyOf(h)
  {
    assert [g, h][1..] == [h];
    assert [h][1..] == [];
    assert SegmentKeys([h]) == KeyOf(h) + SegmentKeys([]);
    assert SegmentKeys([g, h]) == KeyOf(g) + SegmentKeys([h]);
  }

  lemma DerivedSegmentKeys(c: bool, d: bool, w: nat)
    ensures SegmentKeys(DerivedSegments(c, d, w))
            == {"levelname", "message"}
               + (if c then {"log_color", "reset", "white"} else {})
               + (if d then {"asctime"} else {})
  {
    var colour: seq<Segment> := if c then [Key("log_color")] else [];
    var date: seq<Segment> := if d then [Key("asctime"), Literal(" :: ")] else [];
    var level := [Placeholder("levelname", true, NatToString(w)), Literal(" :: ")];
    var tags: seq<Segment> := if c then [Key("reset"), Key("white")] else [];
    var message := [Key("message")];
    assert DerivedSegments(c, d, w) == colour + date + level + tags + message;
    SegmentKeysAppend(colour + date + level + tags, message);
    SegmentKeysAppend(colour + date + level, tags);
    SegmentKeysAppend(colour + date, level);
    SegmentKeysAppend(colour, date);
    SegmentKeysPair(Key("asctime"), Literal(" :: "));
    SegmentKeysPair(level[0], level[1]);
    SegmentKeysPair(Key("reset"), Key("white"));
    assert SegmentKeys(colour) == if c then {"log_color"} else {};
    assert SegmentKeys(message) == {"message"};
  }

  /** The fields a derived template asks for: the level name and the message
      always, the time exactly in the two date variants, and the colour, reset
      and white tags exactly in the two colour variants. */
  lemma DerivedKeys(c: bool, d: Option<string>, w: nat)
    ensures ParseFormat(DeriveTemplate(c, d, w)).Some?
    ensures Keys(ParseFormat(DeriveTemplate(c, d, w)).value)
            == {"levelname", "message"}
               + (if c then {"log_color", "reset", "white"} else {})
               + (if d.Some? then {"asctime"} else {})
  {
    ParseDerived(c, d, w);
    KeysOfSegments(DerivedSegments(c, d.Some?, w));
    DerivedSegmentKeys(c, d.Some?, w);
  }

  lemma {:induction false} LineOfAppend(a: seq<Segment>, b: seq<Segment>, rec: map<string, string>)
    requires forall i :: 0 <= i < |a| ==> Simple(a[i])
    requires forall i :: 0 <= i < |b| ==> Simple(b[i])
    requires SegmentKeys(a) <= rec.Keys && SegmentKeys(b) <= rec.Keys
    ensures SegmentKeys(a + b) <= rec.Keys
    ensures LineOf(a + b, rec) == LineOf(a, rec) + LineOf(b, rec)
  {
    SegmentKeysAppend(a, b);
    if a == [] {
      assert a + b == b;
    } else {
      assert (a + b)[0] == a[0] && (a + b)[1..] == a[1..] + b;
      LineOfAppend(a[1..], b, rec);
      var h := SegmentLine(a[0], rec);
      assert LineOf(a + b, rec) == h + LineOf(a[1..] + b, rec);
      assert h + (LineOf(a[1..], rec) + LineOf(b, rec)) == (h + LineOf(a[1..], rec)) + LineOf(b, rec);
    }
  }

  lemma LineOfKey(k: string, rec: map<string, string>)
    requires k in rec && NoCloseParen(k)
    ensures AllSimple([Key(k)]) && SegmentKeys([Key(k)]) == {k}
    ensures LineOf([Key(k)], rec) == rec[k]
  {
    assert [Key(k)][1..] == [];
    PadZero(rec[k], false);
  }

  lemma LineOfPair(g: Segment, h: Segment, rec: map<string, string>)
    requires Simple(g) && Simple(h) && KeyOf(g) <= rec.Keys && KeyOf(h) <= rec.Keys
    ensures SegmentKeys([g, h]) <= rec.Keys
    ensures LineOf([g, h], rec) == SegmentLine(g, rec) + SegmentLine(h, rec)
  {
    SegmentKeysPair(g, h);
    assert [g, h][1..] == [h];
    assert [h][1..] == [];
    assert LineOf([h], rec) == SegmentLine(h, rec) + LineOf([], rec);
    assert LineOf([g, h], rec) == SegmentLine(g, rec) + LineOf([h], rec);
  }

  /** The keys a record must hold for a derived template to render. */
  predicate HasDerivedKeys(c: bool, d: bool, rec: map<string, string>)
  {
    "levelname" in rec && "message" in rec
    && (c ==> "log_color" in rec && "reset" in rec && "white" in rec)
    && (d ==> "asctime" in rec)
  }

  lemma ColourPart(c: bool, rec: map<string, string>)
    requires c ==> "log_color" in rec
    ensures AllSimple(if c then [Key("log_color")] else [])
    ensures SegmentKeys(if c then [Key("log_color")] else []) <= rec.Keys
    ensures LineOf(if c then [Key("log_color")] else [], rec) == if c then rec["log_color"] else ""
  {
    if c { LineOfKey("log_color", rec); }
  }

  lemma DatePart(d: bool, rec: map<string, string>)
    requires d ==> "asctime" in rec
    ensures AllSimple(if d then [Key("asctime"), Literal(" :: ")] else [])
    ensures SegmentKeys(if d then [Key("asctime"), Literal(" :: ")] else []) <= rec.Keys
    ensures LineOf(if d then [Key("asctime"), Literal(" :: ")] else [], rec) == if d then rec["asctime"] + " :: " else ""
  {
    if d {
      LineOfPair(Key("asctime"), Literal(" :: "), rec);
      PadZero(rec["asctime"], false);
    }
  }

  lemma LevelPart(w: nat, rec: map<string, string>)
    requires "levelname" in rec
    ensures AllSimple([Placeholder("levelname", true, NatToString(w)), Literal(" :: ")])
    ensures SegmentKeys([Placeholder("levelname", true, NatToString(w)), Literal(" :: ")]) <= rec.Keys
    ensures LineOf([Placeholder("levelname", true, NatToString(w)), Literal(" :: ")], rec)
            == Pad(rec["levelname"], true, w) + " :: "
  {
    LineOfPair(Placeholder("levelname", true, NatToString(w)), Literal(" :: "), rec);
    NatToStringRoundTrip(w);
  }

  lemma TagsPart(c: bool, rec: map<string, string>)
    requires c ==> "reset" in rec && "white" in rec
    ensures AllSimple(if c then [Key("reset"), Key("white")] else [])
    ensures SegmentKeys(if c then [Key("reset"), Key("white")] else []) <= rec.Keys
    ensures LineOf(if c then [Key("reset"), Key("white")] else [], rec) == if c then rec["reset"] + rec["white"] else ""
  {
    if c {
      LineOfPair(Key("reset"), Key("white"), rec);
      PadZero(rec["reset"], false);
      PadZero(rec["white"], false);
    }
  }

  predicate AllSimple(gs: seq<Segment>)
  {
    forall i :: 0 <= i < |gs| ==> Simple(gs[i])
  }

  lemma AllSimpleAppend(a: seq<Segment>, b: seq<Segment>)
    requires AllSimple(a) && AllSimple(b)
    ensures AllSimple(a + b)
  {
    forall i | 0 <= i < |a + b| ensures Simple((a + b)[i]) {
      if i >= |a| { assert (a + b)[i] == b[i - |a|]; }
    }
  }

  lemma LineOfFive(a: seq<Segment>, b: seq<Segment>, c: seq<Segment>, d: seq<Segment>, e: seq<Segment>,
                    rec: map<string, string>)
    requires AllSimple(a) && AllSimple(b) && AllSimple(c) && AllSimple(d) && AllSimple(e)
    requires SegmentKeys(a) <= rec.Keys && SegmentKeys(b) <= rec.Keys && SegmentKeys(c) <= rec.Keys
    requires SegmentKeys(d) <= rec.Keys && SegmentKeys(e) <= rec.Keys
    ensures AllSimple(a + b + c + d + e)
    ensures SegmentKeys(a + b + c + d + e) <= rec.Keys
    ensures LineOf(a + b + c + d + e, rec)
            == LineOf(a, rec) + LineOf(b, rec) + LineOf(c, rec) + LineOf(d, rec) + LineOf(e, rec)
  {
    AllSimpleAppend(a, b);
    AllSimpleAppend(a + b, c);
    AllSimpleAppend(a + b + c, d);
    AllSimpleAppend(a + b + c + d, e);
    LineOfAppend(a, b, rec);
    LineOfAppend(a + b, c, rec);
    LineOfAppend(a + b + c, d, rec);
    LineOfAppend(a + b + c + d, e, rec);
  }

  /** The shape of a line under a derived template: with colours, the level's
      colour code first; with a date, the time and a separator; then the level
      name left-justified to the width, a separator, with colours the reset and
      white codes, and finally the message. */
  lemma DerivedLine(c: bool, d: bool, w: nat, rec: map<string, string>)
    requires HasDerivedKeys(c, d, rec)
    ensures SegmentKeys(DerivedSegments(c, d, w)) <= rec.Keys
    ensures LineOf(DerivedSegments(c, d, w), rec)
            == (if c then rec["log_color"] else "")
               + (if d then rec["asctime"] + " :: " else "")
               + (Pad(rec["levelname"], true, w) + " :: ")
               + (if c then rec["reset"] + rec["white"] else "")
               + rec["message"]
  {
    DerivedSegmentKeys(c, d, w);
    var colour: seq<Segment> := if c then [Key("log_color")] else [];
    var date: seq<Segment> := if d then [Key("asctime"), Literal(" :: ")] else [];
    var level := [Placeholder("levelname", true, NatToString(w)), Literal(" :: ")];
    var tags: seq<Segment> := if c then [Key("reset"), Key("white")] else [];
    var message := [Key("message")];
    assert DerivedSegments(c, d, w) == colour + date + level + tags + message;
    ColourPart(c, rec);
    DatePart(d, rec);
    LevelPart(w, rec);
    TagsPart(c, rec);
    LineOfKey("message", rec);
    LineOfFive(colour, date, level, tags, message, rec);
  }
}
