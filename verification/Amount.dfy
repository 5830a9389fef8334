/** The amount field: which inputs are money, and how many poisha they are. */
module Amount {
  import opened Tables
  import opened Numerals

  /** What a request body can hold in the field; Other is any other JSON value. */
  datatype Input = Str(text: string) | Int(value: int) | Bool(flag: bool) | Other

  // --- str.strip ----------------------------------------------------------------

  predicate IsSpace(c: char) {
    || '\t' <= c <= '\r' || '\U{1c}' <= c <= ' ' || c == '\U{85}' || c == '\U{a0}' || c == '\U{1680}'
    || '\U{2000}' <= c <= '\U{200a}' || c == '\U{2028}' || c == '\U{2029}'
    || c == '\U{202f}' || c == '\U{205f}' || c == '\U{3000}'
  }

  predicate AllSpace(s: string) {
    forall k :: 0 <= k < |s| ==> IsSpace(s[k])
  }

  /** No space at either end. */
  predicate Trimmed(s: string) {
    s == "" || (!IsSpace(s[0]) && !IsSpace(s[|s| - 1]))
  }

  function StripLeft(s: string): string {
    if s != "" && IsSpace(s[0]) then StripLeft(s[1..]) else s
  }

  function StripRight(s: string): string {
    if s != "" && IsSpace(s[|s| - 1]) then StripRight(s[..|s| - 1]) else s
  }

  function Strip(s: string): string {
    StripRight(StripLeft(s))
  }

  lemma {:induction false} LeftStripped(pre: string, rest: string)
    requires AllSpace(pre) && (rest == "" || !IsSpace(rest[0]))
    ensures StripLeft(pre + rest) == rest
  {
    if pre == "" {
      assert pre + rest == rest;
    } else {
      LeftStripped(pre[1..], rest);
      assert (pre + rest)[1..] == pre[1..] + rest;
    }
  }

  lemma {:induction false} RightStripped(rest: string, post: string)
    requires AllSpace(post) && (rest == "" || !IsSpace(rest[|rest| - 1]))
    ensures StripRight(rest + post) == rest
  {
    if post == "" {
      assert rest + post == rest;
    } else {
      RightStripped(rest, post[..|post| - 1]);
      assert (rest + post)[..|rest + post| - 1] == rest + post[..|post| - 1];
    }
  }

  lemma {:induction false} AllSpaceStripped(s: string)
    requires AllSpace(s)
    ensures StripLeft(s) == ""
  {
    if s != "" {
      AllSpaceStripped(s[1..]);
    }
  }

  /** Surrounding white space makes no difference. */
  lemma StripSurrounding(pre: string, text: string, post: string)
    requires AllSpace(pre) && AllSpace(post) && Trimmed(text)
    ensures Strip(pre + text + post) == text
  {
    if text == "" {
      AllSpaceStripped(pre + text + post);
    } else {
      assert pre + text + post == pre + (text + post);
      LeftStripped(pre, text + post);
      RightStripped(text, post);
    }
  }

  lemma {:induction false} StripRightEnds(s: string)
    ensures StripRight(s) == "" || !IsSpace(StripRight(s)[|StripRight(s)| - 1])
  {
    if s != "" && IsSpace(s[|s| - 1]) {
      StripRightEnds(s[..|s| - 1]);
    }
  }

  // --- the pattern and the value ------------------------------------------------

  /** Where `$` matches: at the end, or before a final newline. */
  predicate AtEnd(text: string, i: nat) {
    i == |text| || (i + 1 == |text| && text[i] == '\n')
  }

  /** `^[0-9]{1,13}(\.[0-9]{1,2})?$`; a digit run is followed by no digit, so it must be taken whole. */
  predicate Matches(text: string) {
    var w := DigitRun(text);
    1 <= w <= 13 && (AtEnd(text, w) || MatchesFraction(text, w))
  }

  predicate MatchesFraction(text: string, w: nat) {
    && w < |text| && text[w] == '.'
    && (var f := DigitRun(text[w + 1..]); 1 <= f <= 2 && AtEnd(text, w + 1 + f))
  }

  function Whole(text: string): (s: string)
    ensures AllDigits(s)
  {
    text[..DigitRun(text)]
  }

  function Fraction(text: string): (s: string)
    ensures AllDigits(s)
  {
    var w := DigitRun(text);
    if w < |text| && text[w] == '.' then text[w + 1..][..DigitRun(text[w + 1..])] else ""
  }

  /** The exact number of hundredths that a written amount denotes. */
  function Hundredths(whole: string, fraction: string): nat
    requires AllDigits(whole) && AllDigits(fraction)
  {
    Number(whole) * 100 + if |fraction| == 1 then Number(fraction) * 10 else Number(fraction)
  }

  /** The bounds of the field on a decimal with so many digits after the point. */
  predicate FieldAccepts(coefficient: nat, places: nat) {
    && coefficient > 0 && |Show(coefficient)| <= 15 && places <= 2
    && (|Show(coefficient)| > places ==> |Show(coefficient)| - places <= 13)
  }

  function TextOf(v: Input): Option<string> {
    match v
    case Str(s) => Some(s)
    case Int(i) => Some(if i < 0 then "-" + Show(-i) else Show(i))
    case Bool(_) => None
    case Other => None
  }

  /** The amount in poisha, or nothing when the input is refused. */
  function Parse(v: Input): Option<nat> {
    match TextOf(v)
    case None => None
    case Some(s) =>
      var text := Strip(s);
      if !Matches(text) then None
      else if !FieldAccepts(Coefficient(text), |Fraction(text)|) then None
      else Some(Hundredths(Whole(text), Fraction(text)))
  }

  /** All the digits of a matched text, as one number. */
  function Coefficient(text: string): nat {
    Number(Whole(text)) * Power(|Fraction(text)|) + Number(Fraction(text))
  }

  // --- what is accepted ------------------------------------------------------------

  /** 1 to 13 digits, alone or followed by a point and 1 or 2 digits. */
  predicate Plain(text: string, whole: string, fraction: string) {
    && text == whole + (if fraction == "" then "" else "." + fraction)
    && 1 <= |whole| <= 13 && |fraction| <= 2
    && AllDigits(whole) && AllDigits(fraction)
  }

  lemma PlainMatches(text: string, whole: string, fraction: string)
    requires Plain(text, whole, fraction)
    ensures Matches(text) && Whole(text) == whole && Fraction(text) == fraction
  {
    if fraction == "" {
      RunStops(whole, "");
      assert text == whole + "";
    } else {
      RunStops(whole, "." + fraction);
      assert text[|whole| + 1..] == fraction + "";
      RunStops(fraction, "");
    }
  }

  /** After the trim the newline that `$` would tolerate cannot be there. */
  lemma MatchIsPlain(text: string)
    requires Matches(text) && Trimmed(text)
    ensures Plain(text, Whole(text), Fraction(text))
  {
    var w := DigitRun(text);
    assert forall i :: AtEnd(text, i) ==> i == |text|;
    if MatchesFraction(text, w) {
      assert text == text[..w] + "." + text[w + 1..];
    }
  }

  lemma PowersOfTen()
    ensures Power(1) == 10 && Power(2) == 100
    ensures Power(13) == 10_000_000_000_000 && Power(15) == MAX_NUMERIC + 1
  {
    assert Power(5) == 100_000;
    assert Power(10) == 10_000_000_000;
  }

  lemma {:induction false} PowerGrows(a: nat, b: nat)
    requires a <= b
    ensures Power(a) <= Power(b)
  {
    if a < b {
      PowerGrows(a, b - 1);
    }
  }

  /** The digit bounds of the field never refuse what the pattern let through; only zero is left. */
  lemma FieldOnlyRefusesZero(text: string)
    requires Matches(text)
    ensures FieldAccepts(Coefficient(text), |Fraction(text)|) <==> Hundredths(Whole(text), Fraction(text)) > 0
    ensures Hundredths(Whole(text), Fraction(text)) <= MAX_NUMERIC
  {
    var whole, fraction := Whole(text), Fraction(text);
    PowersOfTen();
    NumberBound(whole);
    PowerGrows(|whole|, 13);
    NumberBound(fraction);
    PowerGrows(|whole| + |fraction|, 15);
    CoefficientLength(Number(whole), Number(fraction), |fraction|);
  }

  lemma CoefficientLength(whole: nat, fraction: nat, places: nat)
    requires whole < Power(13) && places <= 2 && fraction < Power(places)
    ensures var c := whole * Power(places) + fraction; |Show(c)| <= 13 + places
  {
    PowersOfTen();
    assert Power(0) == 1 && Power(14) == 100_000_000_000_000;
    ShowLength(whole * Power(places) + fraction, 13 + places);
  }

  lemma {:induction false} StripLeftStarts(s: string)
    ensures StripLeft(s) == "" || !IsSpace(StripLeft(s)[0])
  {
    if s != "" && IsSpace(s[0]) {
      StripLeftStarts(s[1..]);
    }
  }

  lemma {:induction false} StripRightPrefix(s: string)
    ensures StripRight(s) <= s
  {
    if s != "" && IsSpace(s[|s| - 1]) {
      StripRightPrefix(s[..|s| - 1]);
    }
  }

  lemma StripTrims(s: string)
    ensures Trimmed(Strip(s))
  {
    StripLeftStarts(s);
    StripRightEnds(StripLeft(s));
    StripRightPrefix(StripLeft(s));
  }

  /** A string is accepted exactly when, trimmed, it is 1 to 13 ASCII digits with an optional fraction
      of 1 or 2 digits and is not zero; its value is then the exact number of poisha written. */
  lemma AcceptedExactly(s: string)
    ensures Parse(Str(s)).Some? <==>
            exists whole, fraction :: Plain(Strip(s), whole, fraction) && Hundredths(whole, fraction) > 0
    ensures forall whole, fraction :: Plain(Strip(s), whole, fraction) && Hundredths(whole, fraction) > 0 ==>
              Parse(Str(s)) == Some(Hundredths(whole, fraction))
  {
    var text := Strip(s);
    StripTrims(s);
    if Matches(text) {
      MatchIsPlain(text);
      FieldOnlyRefusesZero(text);
    }
    forall whole, fraction | Plain(text, whole, fraction)
      ensures Matches(text) && Whole(text) == whole && Fraction(text) == fraction
    {
      PlainMatches(text, whole, fraction);
    }
  }

  /** Every accepted input is a whole number of poisha that NUMERIC(15,2) can hold. */
  lemma AcceptedFits(v: Input)
    requires Parse(v).Some?
    ensures 1 <= Parse(v).value <= MAX_NUMERIC
  {
    FieldOnlyRefusesZero(Strip(TextOf(v).value));
  }

  function Written(whole: string, fraction: string): string {
    whole + if fraction == "" then "" else "." + fraction
  }

  lemma WrittenTrimmed(whole: string, fraction: string)
    requires whole != "" && AllDigits(whole) && AllDigits(fraction)
    ensures Trimmed(Written(whole, fraction))
  {
    var text := Written(whole, fraction);
    assert text[0] == whole[0];
    assert text[|text| - 1] == if fraction == "" then whole[|whole| - 1] else fraction[|fraction| - 1];
  }

  lemma WrittenParse(pre: string, whole: string, fraction: string, post: string)
    requires Plain(Written(whole, fraction), whole, fraction) && AllSpace(pre) && AllSpace(post)
    requires Hundredths(whole, fraction) > 0
    ensures Parse(Str(pre + Written(whole, fraction) + post)) == Some(Hundredths(whole, fraction))
  {
    WrittenTrimmed(whole, fraction);
    StripSurrounding(pre, Written(whole, fraction), post);
    AcceptedExactly(pre + Written(whole, fraction) + post);
  }

  /** The two-decimal print of a number of poisha. */
  function Print(n: nat): string {
    Show(n / 100) + "." + Pad(n % 100, 2)
  }

  lemma ThirteenDigits(n: nat)
    requires n < 10_000_000_000_000
    ensures 1 <= |Show(n)| <= 13 && Number(Show(n)) == n
  {
    PowersOfTen();
    ShowLength(n, 13);
    ShowNumber(n);
  }

  lemma TwoDigits(n: nat)
    requires n < 100
    ensures Number(Pad(n, 2)) == n
  {
    PowersOfTen();
    PadNumber(n, 2);
  }

  /** Printed and read back, with any white space around it, an amount is unchanged. */
  lemma PrintParse(n: nat, pre: string, post: string)
    requires 1 <= n <= MAX_NUMERIC && AllSpace(pre) && AllSpace(post)
    ensures Parse(Str(pre + Print(n) + post)) == Some(n)
  {
    var whole, fraction := Show(n / 100), Pad(n % 100, 2);
    ThirteenDigits(n / 100);
    TwoDigits(n % 100);
    assert Print(n) == Written(whole, fraction);
    assert Hundredths(whole, fraction) == n;
    WrittenParse(pre, whole, fraction, post);
  }

  lemma UnmatchedIntegers(i: int)
    requires i < 0 || 10_000_000_000_000 <= i
    ensures !Matches(TextOf(Int(i)).value)
  {
    var text := TextOf(Int(i)).value;
    PowersOfTen();
    if i < 0 {
      assert text[0] == '-';
    } else {
      ShowAtLeast(i, 13);
      RunStops(text, "");
      assert text + "" == text;
    }
  }

  lemma MatchedIntegers(i: nat)
    requires i < 10_000_000_000_000
    ensures var text := Show(i); Matches(text) && Hundredths(Whole(text), Fraction(text)) == 100 * i
  {
    ThirteenDigits(i);
    PlainMatches(Show(i), Show(i), "");
  }

  /** An integer is accepted exactly from 1 to 10^13 - 1, as that many whole units. */
  lemma IntegersAccepted(i: int)
    ensures Parse(Int(i)) == if 1 <= i < 10_000_000_000_000 then Some(100 * i) else None
  {
    var text := TextOf(Int(i)).value;
    assert Trimmed(text) && "" + text + "" == text;
    StripSurrounding("", text, "");
    if i < 0 || 10_000_000_000_000 <= i {
      UnmatchedIntegers(i);
    } else {
      MatchedIntegers(i);
      FieldOnlyRefusesZero(text);
    }
  }

  /** Nothing but strings and integers is accepted: no boolean, though the language counts it among the
      integers, no floating-point number, no null. */
  lemma OthersRefused(v: Input)
    requires !v.Str? && !v.Int?
    ensures Parse(v) == None
  {
  }
}
