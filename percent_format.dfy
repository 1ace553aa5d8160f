/** The part of `%`-style formatting that a `logging` formatter applies to the
    logger's template: `%(key)s`, `%(key)-Ns`, `%(key)Ns` and `%%`. A template
    is parsed into pieces, and the pieces are rendered against the fields of
    one log record. Any other conversion is outside this model and parses to
    `None`, as does a key missing from the record when rendering. */
module PercentFormat {
  import opened Text

  datatype Piece =
    | Lit(c: char)                                   // one literal character
    | Field(key: string, leftAlign: bool, width: nat) // a `%(key)[-][width]s` placeholder

  function Prepend(p: seq<Piece>, rest: Option<seq<Piece>>): Option<seq<Piece>>
  {
    if rest.None? then None else Some(p + rest.value)
  }

  /** Index of the first ')' in `s`, if there is one. */
  function CloseParen(s: string): (r: Option<nat>)
    ensures r.Some? ==> r.value < |s| && s[r.value] == ')' &&
                        forall i :: 0 <= i < r.value ==> s[i] != ')'
    ensures r.None? ==> forall i :: 0 <= i < |s| ==> s[i] != ')'
  {
    if s == [] then None
    else if s[0] == ')' then Some(0)
    else match CloseParen(s[1..])
      case None => None
      case Some(k) => Some(k + 1)
  }

  /** Length of the run of decimal digits at the start of `s`. */
  function DigitRun(s: string): (n: nat)
    ensures n <= |s| && AllDigits(s[..n])
    ensures n < |s| ==> !IsDigit(s[n])
  {
    if s == [] || !IsDigit(s[0]) then 0
    else
      var k := DigitRun(s[1..]);
      assert s[..k + 1] == [s[0]] + s[1..][..k];
      k + 1
  }

  /** The rest of a placeholder after its "%(": the key up to the first ')',
      then the conversion. Gives the field and how many characters it used. */
  function Directive(s: string): (r: Option<(Piece, nat)>)
    ensures r.Some? ==> 0 < r.value.1 <= |s|
  {
    match CloseParen(s)
    case None => None
    case Some(k) =>
      match Conversion(s[..k], s[k + 1..])
      case None => None
      case Some((p, used)) => Some((p, k + 1 + used))
  }

  /** What follows the key: an optional '-' flag, an optional width and the
      conversion 's'. */
  function Conversion(key: string, t: string): (r: Option<(Piece, nat)>)
    ensures r.Some? ==> 0 < r.value.1 <= |t|
  {
    var leftAlign := |t| > 0 && t[0] == '-';
    var start := if leftAlign then 1 else 0;
    var afterFlag := t[start..];
    var n := DigitRun(afterFlag);
    if n < |afterFlag| && afterFlag[n] == 's' then
      Some((Field(key, leftAlign, DigitsValue(afterFlag[..n])), start + n + 1))
    else None
  }

  /** The template as pieces, or `None` for a conversion outside this model. */
  function ParseFormat(f: string): Option<seq<Piece>>
    decreases |f|
  {
    if f == [] then Some([])
    else if f[0] != '%' then Prepend([Lit(f[0])], ParseFormat(f[1..]))
    else if |f| >= 2 && f[1] == '%' then Prepend([Lit('%')], ParseFormat(f[2..]))
    else if |f| >= 2 && f[1] == '(' then
      match Directive(f[2..])
      case None => None
      case Some((p, used)) => Prepend([p], ParseFormat(f[2 + used..]))
    else None
  }

  /** The literal characters of `s`, one piece each. */
  function Lits(s: string): (ps: seq<Piece>)
    ensures |ps| == |s|
  {
    if s == [] then [] else [Lit(s[0])] + Lits(s[1..])
  }

  predicate NoPercent(s: string)
  {
    forall i :: 0 <= i < |s| ==> s[i] != '%'
  }

  predicate NoCloseParen(s: string)
  {
    forall i :: 0 <= i < |s| ==> s[i] != ')'
  }

  /** The template text of one placeholder. */
  function FieldText(key: string, leftAlign: bool, digits: string): string
  {
    "%(" + key + ")" + Flag(leftAlign) + digits + "s"
  }

  lemma PrependAssoc(a: seq<Piece>, b: seq<Piece>, rest: Option<seq<Piece>>)
    ensures Prepend(a, Prepend(b, rest)) == Prepend(a + b, rest)
  {
    if rest.Some? {
      assert a + (b + rest.value) == (a + b) + rest.value;
    }
  }

  /** Text without '%' parses to its own characters. */
  lemma {:induction false} ParseLiteral(lit: string, rest: string)
    requires NoPercent(lit)
    ensures ParseFormat(lit + rest) == Prepend(Lits(lit), ParseFormat(rest))
  {
    if lit == [] {
      assert lit + rest == rest;
      assert Lits(lit) == [];
      if ParseFormat(rest).Some? {
        assert [] + ParseFormat(rest).value == ParseFormat(rest).value;
      }
    } else {
      var f := lit + rest;
      assert f[0] == lit[0] && f[1..] == lit[1..] + rest;
      ParseLiteral(lit[1..], rest);
      PrependAssoc([Lit(lit[0])], Lits(lit[1..]), ParseFormat(rest));
    }
  }

  function Flag(leftAlign: bool): string
  {
    if leftAlign then "-" else ""
  }

  lemma {:induction false} CloseParenAfterKey(key: string, tail: string)
    requires NoCloseParen(key)
    ensures CloseParen(key + ")" + tail) == Some(|key|)
  {
    if key != [] {
      assert (key + ")" + tail)[1..] == key[1..] + ")" + tail;
      CloseParenAfterKey(key[1..], tail);
    }
  }

  lemma FlagPrefix(leftAlign: bool, u: string)
    requires |u| > 0 && u[0] != '-'
    ensures var t := Flag(leftAlign) + u;
      (|t| > 0 && t[0] == '-') == leftAlign && t[|Flag(leftAlign)|..] == u
  {
  }

  lemma DigitsThenConversion(digits: string, rest: string)
    requires AllDigits(digits)
    ensures var u := digits + "s" + rest;
      DigitRun(u) == |digits| && u[|digits|] == 's' && u[..|digits|] == digits
  {
    var u := digits + "s" + rest;
    assert u == digits + ("s" + rest);
    DigitRunOfDigits(digits, "s" + rest);
  }

  /** The conversion reads a run of digits and an 's' after the flag. */
  lemma ConversionAfterFlag(key: string, leftAlign: bool, u: string, digits: string)
    requires AllDigits(digits) && |u| > |digits| && u[0] != '-'
    requires DigitRun(u) == |digits| && u[|digits|] == 's' && u[..|digits|] == digits
    ensures Conversion(key, Flag(leftAlign) + u)
         == Some((Field(key, leftAlign, DigitsValue(digits)), |Flag(leftAlign)| + |digits| + 1))
  {
    FlagPrefix(leftAlign, u);
  }

  lemma ConcatAssoc(a: string, b: string, c: string, d: string)
    ensures a + b + c + d == a + (b + c + d)
  {
  }

  lemma ConversionOfPlaceholder(key: string, leftAlign: bool, digits: string, rest: string)
    requires AllDigits(digits)
    ensures Conversion(key, Flag(leftAlign) + digits + "s" + rest)
         == Some((Field(key, leftAlign, DigitsValue(digits)), |Flag(leftAlign)| + |digits| + 1))
  {
    var u := digits + "s" + rest;
    calc {
      Conversion(key, Flag(leftAlign) + digits + "s" + rest);
      { ConcatAssoc(Flag(leftAlign), digits, "s", rest); }
      Conversion(key, Flag(leftAlign) + u);
      { assert u[0] != '-' by {
          if |digits| > 0 { assert u[0] == digits[0]; } else { assert u[0] == 's'; }
        }
        DigitsThenConversion(digits, rest);
        ConversionAfterFlag(key, leftAlign, u, digits); }
      Some((Field(key, leftAlign, DigitsValue(digits)), |Flag(leftAlign)| + |digits| + 1));
    }
  }

  lemma SplitAtKey(key: string, t: string)
    ensures (key + ")" + t)[..|key|] == key && (key + ")" + t)[|key| + 1..] == t
  {
  }

  lemma DirectiveAfterKey(key: string, t: string, p: Piece, used: nat)
    requires NoCloseParen(key) && Conversion(key, t) == Some((p, used))
    ensures Directive(key + ")" + t) == Some((p, |key| + 1 + used))
  {
    CloseParenAfterKey(key, t);
    SplitAtKey(key, t);
  }

  lemma ParseAtDirective(w: string, p: Piece, used: nat)
    requires Directive(w) == Some((p, used))
    ensures ParseFormat("%(" + w) == Prepend([p], ParseFormat(w[used..]))
  {
    var f := "%(" + w;
    assert f[0] == '%' && f[1] == '(' && f[2..] == w;
    assert f[2 + used..] == w[used..];
  }

  lemma PlaceholderText(key: string, leftAlign: bool, digits: string, rest: string)
    ensures FieldText(key, leftAlign, digits) + rest
         == "%(" + (key + ")" + (Flag(leftAlign) + digits + "s" + rest))
    ensures (key + ")" + (Flag(leftAlign) + digits + "s" + rest))[|key| + 1 + (|Flag(leftAlign)| + |digits| + 1)..] == rest
  {
  }

  /** A placeholder parses to one field whose width is the value of its digits. */
  lemma ParsePlaceholder(key: string, leftAlign: bool, digits: string, rest: string)
    requires NoCloseParen(key) && AllDigits(digits)
    ensures ParseFormat(FieldText(key, leftAlign, digits) + rest)
         == Prepend([Field(key, leftAlign, DigitsValue(digits))], ParseFormat(rest))
  {
    var t := Flag(leftAlign) + digits + "s" + rest;
    var p := Field(key, leftAlign, DigitsValue(digits));
    var u := |Flag(leftAlign)| + |digits| + 1;
    ConversionOfPlaceholder(key, leftAlign, digits, rest);
    DirectiveAfterKey(key, t, p, u);
    PlaceholderText(key, leftAlign, digits, rest);
    ParseAtDirective(key + ")" + t, p, |key| + 1 + u);
  }

  lemma {:induction false} DigitRunOfDigits(digits: string, rest: string)
    requires AllDigits(digits)
    requires |rest| > 0 && !IsDigit(rest[0])
    ensures DigitRun(digits + rest) == |digits|
  {
    if digits == [] {
      assert digits + rest == rest;
    } else {
      assert (digits + rest)[1..] == digits[1..] + rest;
      DigitRunOfDigits(digits[1..], rest);
    }
  }

  /** The keys a parsed template looks up in a log record. */
  function Keys(ps: seq<Piece>): set<string>
  {
    if ps == [] then {}
    else (if ps[0].Field? then {ps[0].key} else {}) + Keys(ps[1..])
  }

  lemma {:induction false} KeysAppend(a: seq<Piece>, b: seq<Piece>)
    ensures Keys(a + b) == Keys(a) + Keys(b)
  {
    if a == [] {
      assert a + b == b;
    } else {
      assert (a + b)[1..] == a[1..] + b;
      KeysAppend(a[1..], b);
    }
  }

  lemma {:induction false} KeysOfLits(s: string)
    ensures Keys(Lits(s)) == {}
  {
    if s != [] {
      KeysOfLits(s[1..]);
    }
  }

  /** One piece against the record's fields; a key the record lacks fails
      (the library's KeyError). */
  function RenderPiece(p: Piece, rec: map<string, string>): Option<string>
  {
    match p
    case Lit(c) => Some([c])
    case Field(k, leftAlign, w) => if k in rec then Some(Pad(rec[k], leftAlign, w)) else None
  }

  /** Substitute the record's fields into the pieces; one failing piece fails
      the whole line. */
  function Render(ps: seq<Piece>, rec: map<string, string>): Option<string>
  {
    if ps == [] then Some([])
    else
      var head := RenderPiece(ps[0], rec);
      var tail := Render(ps[1..], rec);
      if head.Some? && tail.Some? then Some(head.value + tail.value) else None
  }

  /** A template renders exactly when the record has every key it names. */
  lemma {:induction false} RenderDefined(ps: seq<Piece>, rec: map<string, string>)
    ensures Render(ps, rec).Some? <==> Keys(ps) <= rec.Keys
  {
    if ps != [] {
      RenderDefined(ps[1..], rec);
    }
  }

  lemma {:induction false} RenderAppend(a: seq<Piece>, b: seq<Piece>, rec: map<string, string>)
    requires Render(a, rec).Some? && Render(b, rec).Some?
    ensures Render(a + b, rec) == Some(Render(a, rec).value + Render(b, rec).value)
  {
    if a == [] {
      assert a + b == b;
      assert Render(a, rec).value + Render(b, rec).value == Render(b, rec).value;
    } else {
      assert (a + b)[0] == a[0] && (a + b)[1..] == a[1..] + b;
      RenderAppend(a[1..], b, rec);
      var h := RenderPiece(a[0], rec).value;
      assert h + (Render(a[1..], rec).value + Render(b, rec).value)
          == (h + Render(a[1..], rec).value) + Render(b, rec).value;
    }
  }

  lemma {:induction false} RenderLits(s: string, rec: map<string, string>)
    ensures Render(Lits(s), rec) == Some(s)
  {
    if s != [] {
      RenderLits(s[1..], rec);
      assert s == [s[0]] + s[1..];
    }
  }

  lemma RenderField(key: string, leftAlign: bool, width: nat, rec: map<string, string>)
    requires key in rec
    ensures Render([Field(key, leftAlign, width)], rec) == Some(Pad(rec[key], leftAlign, width))
  {
    assert [Field(key, leftAlign, width)][1..] == [];
    assert Pad(rec[key], leftAlign, width) + [] == Pad(rec[key], leftAlign, width);
  }
}
