/** The currency parser `clean_currency` (app.py:15-19): a string loses every `$`, `₹` and `,`,
    is stripped of surrounding whitespace and is then read by Python's `float()`; any other
    value passes through unchanged. `float()` is modelled on decimal literals only (an optional
    sign, ASCII digits, at most one point); the exponents, `inf`, `nan`, underscores and
    non-ASCII digits it also accepts are refused by the modelled `float()`. */
module Amounts {
  import opened Values
  import opened Strings

  const Rupee: char := '\U{20B9}'

  /** The characters `clean_currency` deletes: the two currency symbols and the thousands separator. */
  predicate IsCurrencyMark(c: char) {
    c == '$' || c == Rupee || c == ','
  }

  /** `s.replace('$', '').replace('₹', '').replace(',', '')`. */
  function DropMarks(s: string): string {
    Remove(Remove(Remove(s, '$'), Rupee), ',')
  }

  /** The three replacements keep exactly the characters that are not currency marks. */
  lemma DropMarksChars(s: string)
    ensures forall c :: c in DropMarks(s) <==> c in s && !IsCurrencyMark(c)
  {
    RemoveChars(s, '$');
    RemoveChars(Remove(s, '$'), Rupee);
    RemoveChars(Remove(Remove(s, '$'), Rupee), ',');
  }

  /** The text `clean_currency` hands to `float()`. */
  function Residue(s: string): string {
    Strip(DropMarks(s))
  }

  lemma DropMarksConcat(a: string, b: string)
    ensures DropMarks(a + b) == DropMarks(a) + DropMarks(b)
  {
    RemoveConcat(a, b, '$');
    RemoveConcat(Remove(a, '$'), Remove(b, '$'), Rupee);
    RemoveConcat(Remove(Remove(a, '$'), Rupee), Remove(Remove(b, '$'), Rupee), ',');
  }

  /** A currency mark anywhere in the text makes no difference to what is left. */
  lemma DropMarksIgnoresMark(a: string, c: char, b: string)
    requires IsCurrencyMark(c)
    ensures DropMarks(a + [c] + b) == DropMarks(a + b)
  {
    DropMarksConcat(a + [c], b);
    DropMarksConcat(a, [c]);
    DropMarksConcat(a, b);
    assert DropMarks([c]) == [] by {
      assert [c][1..] == [];
      assert Remove([], '$') == [] && Remove([], Rupee) == [] && Remove([], ',') == [];
    }
    assert DropMarks(a) + [] == DropMarks(a);
  }

  /** Dropping the marks twice is dropping them once. */
  lemma DropMarksIdempotent(s: string)
    ensures DropMarks(DropMarks(s)) == DropMarks(s)
  {
    var d := DropMarks(s);
    DropMarksChars(s);
    RemoveAbsent(d, '$');
    RemoveAbsent(d, Rupee);
    RemoveAbsent(d, ',');
  }

  /** Index of the first '.', or `|s|` when there is none. */
  function PointIndex(s: string): (k: nat)
    ensures k <= |s|
    ensures k < |s| ==> s[k] == '.'
    ensures forall i :: 0 <= i < k ==> s[i] != '.'
  {
    if s == [] || s[0] == '.' then 0 else 1 + PointIndex(s[1..])
  }

  /** What the modelled `float()` makes of unsigned text: digits, optionally a point and more digits, and at
      least one digit in all; anything else is refused. */
  function ParseUnsigned(s: string): Option<real> {
    var k := PointIndex(s);
    var whole, frac := s[..k], if k < |s| then s[k + 1..] else [];
    if AllDigits(whole) && AllDigits(frac) && |whole| + |frac| > 0 then
      Some(DigitsValue(whole) as real + DigitsValue(frac) as real / Pow10(|frac|) as real)
    else
      None
  }

  /** What the modelled `float()` makes of stripped text: an optional sign followed by unsigned text. */
  function ParseFloat(s: string): Option<real> {
    if |s| > 0 && (s[0] == '+' || s[0] == '-') then
      match ParseUnsigned(s[1..])
      case None => None
      case Some(v) => Some(if s[0] == '-' then -v else v)
    else
      ParseUnsigned(s)
  }

  datatype Sign = Unsigned | Plus | Minus

  /** A decimal literal: sign, whole digits, an optional point and the fraction digits.
      It is the reference against which `ParseFloat` is proved. */
  datatype Literal = Literal(sign: Sign, whole: string, point: bool, frac: string) {
    predicate Valid() {
      AllDigits(whole) && AllDigits(frac) && (point || frac == []) && |whole| + |frac| > 0
    }

    function Spelling(): string {
      SignText(sign) + whole + (if point then "." else "") + frac
    }

    /** The number the literal denotes: all its digits read as one integer, scaled down by the
        length of the fraction. */
    function Value(): real
      requires Valid()
    {
      DigitsValueConcat(whole, frac);
      var magnitude := DigitsValue(whole + frac) as real / Pow10(|frac|) as real;
      if sign == Minus then -magnitude else magnitude
    }
  }

  /** `l` is a decimal literal spelled `s`. */
  predicate Spells(l: Literal, s: string) {
    l.Valid() && l.Spelling() == s
  }

  function SignText(s: Sign): string {
    match s
    case Unsigned => ""
    case Plus => "+"
    case Minus => "-"
  }

  lemma {:induction false} PointIndexAfterDigits(w: string, rest: string)
    requires AllDigits(w)
    ensures PointIndex(w + rest) == |w| + PointIndex(rest)
    decreases |w|
  {
    if w == [] {
      assert w + rest == rest;
    } else {
      assert (w + rest)[1..] == w[1..] + rest;
      PointIndexAfterDigits(w[1..], rest);
    }
  }

  lemma RealOfLinear(a: nat, p: nat, b: nat)
    ensures ((a * p + b) as real) == (a as real) * (p as real) + (b as real)
  {
  }

  lemma ScaleDown(c: real, a: real, b: real, p: real)
    requires p > 0.0 && c == a * p + b
    ensures c / p == a + b / p
  {
  }

  lemma Rescale(c: nat, a: nat, b: nat, p: nat)
    requires c == a * p + b && p >= 1
    ensures c as real / p as real == a as real + b as real / p as real
  {
    RealOfLinear(a, p, b);
    ScaleDown(c as real, a as real, b as real, p as real);
  }

  /** The unsigned part of a literal's spelling. */
  function Digits(whole: string, point: bool, frac: string): string {
    if point then whole + ("." + frac) else whole
  }

  lemma SplitAtPoint(whole: string, point: bool, frac: string)
    requires AllDigits(whole) && (point || frac == [])
    ensures PointIndex(Digits(whole, point, frac)) == |whole|
    ensures Digits(whole, point, frac)[..|whole|] == whole
    ensures (if |whole| < |Digits(whole, point, frac)| then Digits(whole, point, frac)[|whole| + 1..] else []) == frac
  {
    var u := Digits(whole, point, frac);
    if point {
      PointIndexAfterDigits(whole, "." + frac);
      assert u[|whole| + 1..] == frac;
    } else {
      PointIndexAfterDigits(whole, []);
      assert whole + [] == whole;
    }
  }

  lemma UnsignedReadsLiteral(whole: string, point: bool, frac: string)
    requires Literal(Unsigned, whole, point, frac).Valid()
    ensures ParseUnsigned(Digits(whole, point, frac)) == Some(Literal(Unsigned, whole, point, frac).Value())
  {
    SplitAtPoint(whole, point, frac);
    DigitsValueConcat(whole, frac);
    Rescale(DigitsValue(whole + frac), DigitsValue(whole), DigitsValue(frac), Pow10(|frac|));
  }

  lemma SpellingSplits(l: Literal)
    requires l.point || l.frac == []
    ensures l.Spelling() == SignText(l.sign) + Digits(l.whole, l.point, l.frac)
  {
    if l.point {
      assert l.whole + "." + l.frac == l.whole + ("." + l.frac);
    } else {
      assert l.whole + "" + l.frac == l.whole + l.frac;
    }
  }

  lemma ValueBySign(l: Literal)
    requires l.Valid()
    ensures Literal(Unsigned, l.whole, l.point, l.frac).Valid()
    ensures l.Value() == if l.sign == Minus then -Literal(Unsigned, l.whole, l.point, l.frac).Value()
                         else Literal(Unsigned, l.whole, l.point, l.frac).Value()
  {
  }

  lemma SignedSpelling(l: Literal)
    requires l.point || l.frac == []
    ensures l.sign == Unsigned ==> l.Spelling() == Digits(l.whole, l.point, l.frac)
    ensures l.sign != Unsigned ==> |l.Spelling()| > 0 && l.Spelling()[0] == SignText(l.sign)[0]
                                   && l.Spelling()[1..] == Digits(l.whole, l.point, l.frac)
  {
    SpellingSplits(l);
  }

  lemma ParseFloatOfSigned(s: string, x: real)
    requires |s| > 0 && (s[0] == '+' || s[0] == '-') && ParseUnsigned(s[1..]) == Some(x)
    ensures ParseFloat(s) == Some(if s[0] == '-' then -x else x)
  {
  }

  lemma ParseFloatOfUnsigned(s: string, x: real)
    requires |s| > 0 && s[0] != '+' && s[0] != '-' && ParseUnsigned(s) == Some(x)
    ensures ParseFloat(s) == Some(x)
  {
  }

  lemma DigitsStartUnsigned(whole: string, point: bool, frac: string)
    requires Literal(Unsigned, whole, point, frac).Valid()
    ensures |Digits(whole, point, frac)| > 0
    ensures Digits(whole, point, frac)[0] != '+' && Digits(whole, point, frac)[0] != '-'
  {
    var u := Digits(whole, point, frac);
    if whole != [] {
      assert u[0] == whole[0];
    } else {
      assert u[0] == '.';
    }
  }

  /** The modelled `float()` reads every decimal literal as the number it denotes. */
  lemma ParseFloatReadsLiteral(l: Literal)
    requires l.Valid()
    ensures ParseFloat(l.Spelling()) == Some(l.Value())
  {
    var unsigned := Literal(Unsigned, l.whole, l.point, l.frac);
    UnsignedReadsLiteral(l.whole, l.point, l.frac);
    ValueBySign(l);
    SignedSpelling(l);
    if l.sign == Unsigned {
      DigitsStartUnsigned(l.whole, l.point, l.frac);
      ParseFloatOfUnsigned(l.Spelling(), unsigned.Value());
    } else {
      ParseFloatOfSigned(l.Spelling(), unsigned.Value());
    }
  }

  lemma UnsignedParts(u: string) returns (whole: string, point: bool, frac: string)
    requires ParseUnsigned(u).Some?
    ensures Literal(Unsigned, whole, point, frac).Valid()
    ensures Digits(whole, point, frac) == u
  {
    var k := PointIndex(u);
    point := k < |u|;
    whole := u[..k];
    frac := if point then u[k + 1..] else [];
    if point {
      assert u == whole + ("." + frac);
    }
  }

  lemma SpellingWithSign(sign: Sign, whole: string, point: bool, frac: string)
    requires point || frac == []
    ensures Literal(sign, whole, point, frac).Spelling() == SignText(sign) + Digits(whole, point, frac)
  {
    SpellingSplits(Literal(sign, whole, point, frac));
  }

  /** The modelled `float()` reads nothing but decimal literals. */
  lemma ParseFloatOnlyLiterals(s: string)
    requires ParseFloat(s).Some?
    ensures exists l :: Spells(l, s) && ParseFloat(s) == Some(l.Value())
  {
    var signed := |s| > 0 && (s[0] == '+' || s[0] == '-');
    var sign := if !signed then Unsigned else if s[0] == '-' then Minus else Plus;
    var u := if signed then s[1..] else s;
    assert s == SignText(sign) + u;
    var whole, point, frac := UnsignedParts(u);
    SpellingWithSign(sign, whole, point, frac);
    var l := Literal(sign, whole, point, frac);
    ParseFloatReadsLiteral(l);
    assert Spells(l, s);
  }

  /** `clean_currency(value)`: text is cleaned and read as a number, failing as the modelled `float()` does;
      every other value (a number, a missing value) is returned unchanged. */
  function CleanCurrency(v: Cell): (r: Result<Cell>)
    ensures !v.Text? ==> r == Ok(v)
    ensures v.Text? && r.Ok? ==> r.value.Num?
    ensures r.Err? ==> v.Text? && r.error == InvalidAmount(Residue(v.s))
  {
    match v
    case Text(s) =>
      (match ParseFloat(Residue(s))
       case Some(x) => Ok(Num(x))
       case None => Err(InvalidAmount(Residue(s))))
    case _ => Ok(v)
  }

  /** Text whose residue spells a decimal literal is accepted and becomes that literal's number. */
  lemma CleanCurrencyReadsLiteral(s: string, l: Literal)
    requires Spells(l, Residue(s))
    ensures CleanCurrency(Text(s)) == Ok(Num(l.Value()))
  {
    ParseFloatReadsLiteral(l);
  }

  /** Text whose residue spells no decimal literal is refused by the modelled `float()`, naming
      the text it refused. */
  lemma CleanCurrencyRefusesNonLiteral(s: string)
    requires forall l :: !Spells(l, Residue(s))
    ensures CleanCurrency(Text(s)) == Err(InvalidAmount(Residue(s)))
  {
    if ParseFloat(Residue(s)).Some? {
      ParseFloatOnlyLiterals(Residue(s));
    }
  }

  /** A currency mark inserted anywhere into a textual amount does not change its outcome. */
  lemma CleanCurrencyIgnoresMark(a: string, c: char, b: string)
    requires IsCurrencyMark(c)
    ensures CleanCurrency(Text(a + [c] + b)) == CleanCurrency(Text(a + b))
  {
    DropMarksIgnoresMark(a, c, b);
  }

  /** Cleaning only ever looks at the text without its marks. */
  lemma CleanCurrencyOfDropped(s: string)
    ensures CleanCurrency(Text(s)) == CleanCurrency(Text(DropMarks(s)))
  {
    DropMarksIdempotent(s);
  }

  /** A number, or a missing value, comes out of cleaning as it went in, so cleaning a cleaned
      value changes nothing. */
  lemma CleanCurrencyIdempotent(v: Cell)
    requires CleanCurrency(v).Ok?
    ensures CleanCurrency(CleanCurrency(v).value) == CleanCurrency(v)
  {
  }

  predicate IsLiteralChar(c: char) {
    IsDigit(c) || c == '.' || c == '+' || c == '-'
  }

  lemma SpellingChars(l: Literal)
    requires l.Valid()
    ensures |l.Spelling()| > 0
    ensures forall i :: 0 <= i < |l.Spelling()| ==> IsLiteralChar(l.Spelling()[i])
  {
    SpellingSplits(l);
    var u := Digits(l.whole, l.point, l.frac);
    assert forall i :: 0 <= i < |u| ==> IsLiteralChar(u[i]) by {
      if l.point {
        assert forall i :: 0 <= i < |l.whole| ==> u[i] == l.whole[i];
        assert forall i :: |l.whole| < i < |u| ==> u[i] == l.frac[i - |l.whole| - 1];
      }
    }
  }

  /** Empty text, and text with any character a literal cannot hold, is refused. */
  lemma CleanCurrencyRefusesText(s: string)
    requires Residue(s) == [] || exists i :: 0 <= i < |Residue(s)| && !IsLiteralChar(Residue(s)[i])
    ensures CleanCurrency(Text(s)) == Err(InvalidAmount(Residue(s)))
  {
    forall l | Spells(l, Residue(s))
      ensures false
    {
      SpellingChars(l);
    }
    CleanCurrencyRefusesNonLiteral(s);
  }

  lemma DropMarksKeepsPlainText(s: string)
    requires forall i :: 0 <= i < |s| ==> !IsCurrencyMark(s[i])
    ensures DropMarks(s) == s
  {
    RemoveAbsent(s, '$');
    RemoveAbsent(s, Rupee);
    RemoveAbsent(s, ',');
  }

  /** Text with no marks and no surrounding whitespace is handed to `float()` as it is. */
  lemma ResidueOfPlainText(s: string)
    requires forall i :: 0 <= i < |s| ==> !IsCurrencyMark(s[i])
    requires s == [] || (!IsSpace(s[0]) && !IsSpace(s[|s| - 1]))
    ensures Residue(s) == s
  {
    DropMarksKeepsPlainText(s);
    assert s == [] + s + [];
    StripPadding(s, [], s, []);
  }

  lemma FormattedResidue()
    ensures Residue("$1,200.50") == "1200.50"
  {
    DollarDropped();
    CommaDropped();
    SameResidue("$1,200.50", "1200.50");
    ResidueOfPlainText("1200.50");
  }

  lemma SameResidue(a: string, b: string)
    requires DropMarks(a) == DropMarks(b)
    ensures Residue(a) == Residue(b)
  {
  }

  lemma DollarDropped()
    ensures DropMarks("$1,200.50") == DropMarks("1,200.50")
  {
    MarkDropped([], '$', "1,200.50", "$1,200.50", "1,200.50");
  }

  lemma CommaDropped()
    ensures DropMarks("1,200.50") == DropMarks("1200.50")
  {
    MarkDropped("1", ',', "200.50", "1,200.50", "1200.50");
  }

  /** `DropMarksIgnoresMark` for texts given whole. */
  lemma MarkDropped(a: string, c: char, b: string, s: string, t: string)
    requires IsCurrencyMark(c) && s == a + [c] + b && t == a + b
    ensures DropMarks(s) == DropMarks(t)
  {
    DropMarksIgnoresMark(a, c, b);
  }

  lemma ExampleLiteralValue()
    ensures Spells(Literal(Unsigned, "1200", true, "50"), "1200.50")
    ensures Literal(Unsigned, "1200", true, "50").Value() == 1200.5
  {
    assert DigitsValue("1") == 1 by { assert "1"[..0] == ""; }
    assert DigitsValue("12") == 12 by { assert "12"[..1] == "1"; }
    assert DigitsValue("120") == 120 by { assert "120"[..2] == "12"; }
    assert DigitsValue("1200") == 1200 by { assert "1200"[..3] == "120"; }
    assert DigitsValue("12005") == 12005 by { assert "12005"[..4] == "1200"; }
    assert DigitsValue("120050") == 120050 by { assert "120050"[..5] == "12005"; }
    assert "1200" + "50" == "120050";
  }

  /** `"$1,200.50"` and the number 1200.50 clean to the same amount. */
  lemma FormattedAndPlainAgree()
    ensures CleanCurrency(Text("$1,200.50")) == Ok(Num(1200.5))
    ensures CleanCurrency(Num(1200.5)) == Ok(Num(1200.5))
  {
    FormattedResidue();
    ExampleLiteralValue();
    CleanCurrencyReadsLiteral("$1,200.50", Literal(Unsigned, "1200", true, "50"));
  }

  /** A word with a letter in it is refused. */
  lemma WordRefused(w: string, k: nat)
    requires forall i :: 0 <= i < |w| ==> !IsCurrencyMark(w[i])
    requires |w| > 0 && !IsSpace(w[0]) && !IsSpace(w[|w| - 1])
    requires k < |w| && !IsLiteralChar(w[k])
    ensures CleanCurrency(Text(w)).Err?
  {
    ResidueOfPlainText(w);
    CleanCurrencyRefusesText(w);
  }

  lemma LoneSymbolRefused()
    ensures CleanCurrency(Text("$")).Err?
  {
    assert DropMarks("$") == [] by {
      assert forall x :: x in DropMarks("$") ==> x in "$" && !IsCurrencyMark(x);
    }
    CleanCurrencyRefusesText("$");
  }

  lemma BlankRefused()
    ensures CleanCurrency(Text(" ")).Err?
  {
    DropMarksKeepsPlainText(" ");
    assert " " == " " + [] + [];
    StripPadding(" ", " ", [], []);
    CleanCurrencyRefusesText(" ");
  }

  /** Empty text, a lone symbol, blank text and words are not amounts. */
  lemma NonAmountsRefused()
    ensures CleanCurrency(Text("")).Err?
    ensures CleanCurrency(Text("$")).Err?
    ensures CleanCurrency(Text(" ")).Err?
    ensures CleanCurrency(Text("abc")).Err?
    ensures CleanCurrency(Text("free")).Err?
  {
    EmptyRefused();
    LoneSymbolRefused();
    BlankRefused();
    AbcRefused();
    FreeRefused();
  }

  lemma EmptyRefused()
    ensures CleanCurrency(Text("")).Err?
  {
    CleanCurrencyRefusesText("");
  }

  lemma AbcRefused()
    ensures CleanCurrency(Text("abc")).Err?
  {
    WordRefused("abc", 0);
  }

  lemma FreeRefused()
    ensures CleanCurrency(Text("free")).Err?
  {
    WordRefused("free", 0);
  }
}
