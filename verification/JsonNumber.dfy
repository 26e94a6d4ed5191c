// Numbers as section 6 of RFC 8259 writes them: the grammar, and a reader that takes the
// longest number at the front of a text.
module JsonNumber {
  import opened Ids

  /** What was read, and the text after it. */
  datatype Parsed<+T> = Parsed(value: T, rest: string)

  predicate IsDigit(c: char) {
    '0' <= c <= '9'
  }

  predicate AllDigits(s: string) {
    forall i :: 0 <= i < |s| ==> IsDigit(s[i])
  }

  predicate StartsWithDigit(s: string) {
    s != "" && IsDigit(s[0])
  }

  // ------------------------------------------------------------ the grammar

  predicate IsMinus(s: string) {
    s == "" || s == "-"
  }

  predicate IsInt(s: string) {
    s == ['0'] || (s != "" && '1' <= s[0] <= '9' && AllDigits(s))
  }

  predicate IsFrac(s: string) {
    s == "" || (|s| > 1 && s[0] == '.' && AllDigits(s[1..]))
  }

  predicate IsE(c: char) {
    c == 'e' || c == 'E'
  }

  predicate IsSign(c: char) {
    c == '+' || c == '-'
  }

  predicate IsExp(s: string) {
    || s == ""
    || (|s| > 1 && IsE(s[0]) && AllDigits(s[1..]))
    || (|s| > 2 && IsE(s[0]) && IsSign(s[1]) && AllDigits(s[2..]))
  }

  ghost predicate IsJsonNumber(text: string) {
    exists minus, whole, frac, exp ::
      IsMinus(minus) && IsInt(whole) && IsFrac(frac) && IsExp(exp) && text == minus + (whole + (frac + exp))
  }

  // ------------------------------------------------------------ the reader

  function TakeDigits(s: string): Parsed<string> {
    if StartsWithDigit(s) then var p := TakeDigits(s[1..]); Parsed([s[0]] + p.value, p.rest)
    else Parsed("", s)
  }

  function ReadMinus(s: string): Parsed<string> {
    if s != "" && s[0] == '-' then Parsed("-", s[1..]) else Parsed("", s)
  }

  function ReadInt(s: string): Option<Parsed<string>> {
    if !StartsWithDigit(s) then None
    else if s[0] == '0' then Some(Parsed(['0'], s[1..]))
    else Some(TakeDigits(s))
  }

  function ReadFrac(s: string): Option<Parsed<string>> {
    if s == "" || s[0] != '.' then Some(Parsed("", s))
    else
      var p := TakeDigits(s[1..]);
      if p.value == "" then None else Some(Parsed([s[0]] + p.value, p.rest))
  }

  function ReadExp(s: string): Option<Parsed<string>> {
    if s == "" || !IsE(s[0]) then Some(Parsed("", s))
    else
      var signed := |s| > 1 && IsSign(s[1]);
      var p := TakeDigits(if signed then s[2..] else s[1..]);
      if p.value == "" then None
      else Some(Parsed((if signed then [s[0], s[1]] else [s[0]]) + p.value, p.rest))
  }

  function ReadNumber(s: string): Option<Parsed<string>> {
    var minus := ReadMinus(s);
    match ReadInt(minus.rest)
    case None => None
    case Some(whole) =>
      match ReadFrac(whole.rest)
      case None => None
      case Some(frac) =>
        match ReadExp(frac.rest)
        case None => None
        case Some(exp) => Some(Parsed(minus.value + (whole.value + (frac.value + exp.value)), exp.rest))
  }

  // ------------------------------------------------------------ what is read is a number

  lemma {:induction false} DigitsSplit(s: string)
    ensures var p := TakeDigits(s); s == p.value + p.rest && AllDigits(p.value) && !StartsWithDigit(p.rest)
  {
    if !StartsWithDigit(s) {
    } else {
      DigitsSplit(s[1..]);
      var p := TakeDigits(s[1..]);
      assert s == [s[0]] + s[1..];
      Prefixed([s[0]], p.value, p.rest);
    }
  }

  lemma Prefixed(a: string, b: string, c: string)
    ensures a + (b + c) == (a + b) + c
    ensures AllDigits(a) && AllDigits(b) ==> AllDigits(a + b)
    ensures (a + b)[|a|..] == b
  {
  }

  lemma IntSplit(s: string)
    requires ReadInt(s).Some?
    ensures var p := ReadInt(s).value; s == p.value + p.rest && IsInt(p.value)
  {
    DigitsSplit(s);
    assert TakeDigits(s).value != "" ==> TakeDigits(s).value[0] == s[0];
  }

  lemma FracSplit(s: string)
    requires ReadFrac(s).Some?
    ensures var p := ReadFrac(s).value; s == p.value + p.rest && IsFrac(p.value)
  {
    if s != "" {
      DigitsSplit(s[1..]);
      assert ReadFrac(s).value.value != "" ==> ReadFrac(s).value.value[1..] == TakeDigits(s[1..]).value;
    }
  }

  lemma ExpSplit(s: string)
    requires ReadExp(s).Some?
    ensures var p := ReadExp(s).value; s == p.value + p.rest && IsExp(p.value)
  {
    var p := ReadExp(s).value;
    if s == "" || !IsE(s[0]) {
    } else if |s| > 1 && IsSign(s[1]) {
      DigitsSplit(s[2..]);
      assert s == [s[0], s[1]] + s[2..];
      Prefixed([s[0], s[1]], TakeDigits(s[2..]).value, p.rest);
    } else {
      DigitsSplit(s[1..]);
      assert s == [s[0]] + s[1..];
      Prefixed([s[0]], TakeDigits(s[1..]).value, p.rest);
    }
  }

  /** The reader reads numbers only, from the front of the text. */
  lemma ReadIsNumber(s: string)
    requires ReadNumber(s).Some?
    ensures var p := ReadNumber(s).value; s == p.value + p.rest && IsJsonNumber(p.value)
  {
    var minus := ReadMinus(s);
    var whole := ReadInt(minus.rest).value;
    var frac := ReadFrac(whole.rest).value;
    IntSplit(minus.rest);
    FracSplit(whole.rest);
    ExpSplit(frac.rest);
    assert s == minus.value + minus.rest;
    var exp := ReadExp(frac.rest).value;
    Regroup(minus.value, whole.value, frac.value, exp.value, exp.rest);
    NumberOf(minus.value, whole.value, frac.value, exp.value);
  }

  lemma NumberOf(minus: string, whole: string, frac: string, exp: string)
    requires IsMinus(minus) && IsInt(whole) && IsFrac(frac) && IsExp(exp)
    ensures IsJsonNumber(minus + (whole + (frac + exp)))
  {
  }

  lemma Regroup(a: string, b: string, c: string, d: string, rest: string)
    ensures a + (b + (c + (d + rest))) == (a + (b + (c + d))) + rest
  {
    assert c + (d + rest) == (c + d) + rest;
    assert b + ((c + d) + rest) == (b + (c + d)) + rest;
  }

  // ------------------------------------------------------------ every number is read

  lemma {:induction false} DigitsAreTaken(d: string, rest: string)
    requires AllDigits(d) && !StartsWithDigit(rest)
    ensures TakeDigits(d + rest) == Parsed(d, rest)
  {
    if d == "" {
      assert d + rest == rest;
    } else {
      assert (d + rest)[1..] == d[1..] + rest;
      DigitsAreTaken(d[1..], rest);
      assert d == [d[0]] + d[1..];
    }
  }

  lemma MinusIsRead(minus: string, rest: string)
    requires IsMinus(minus) && StartsWithDigit(rest)
    ensures ReadMinus(minus + rest) == Parsed(minus, rest)
  {
    if minus == "" {
      assert minus + rest == rest;
    } else {
      assert (minus + rest)[1..] == rest;
    }
  }

  lemma IntIsRead(whole: string, rest: string)
    requires IsInt(whole) && !StartsWithDigit(rest)
    ensures ReadInt(whole + rest) == Some(Parsed(whole, rest))
  {
    if whole == ['0'] {
      assert (whole + rest)[1..] == rest;
    } else {
      DigitsAreTaken(whole, rest);
    }
  }

  lemma FracIsRead(frac: string, rest: string)
    requires IsFrac(frac) && !StartsWithDigit(rest) && (rest != "" ==> rest[0] != '.')
    ensures ReadFrac(frac + rest) == Some(Parsed(frac, rest))
  {
    if frac == "" {
      assert frac + rest == rest;
    } else {
      assert (frac + rest)[1..] == frac[1..] + rest;
      DigitsAreTaken(frac[1..], rest);
      assert frac == [frac[0]] + frac[1..];
    }
  }

  lemma ExpIsRead(exp: string, rest: string)
    requires IsExp(exp) && !StartsWithDigit(rest) && (rest != "" ==> !IsE(rest[0]))
    ensures ReadExp(exp + rest) == Some(Parsed(exp, rest))
  {
    assert exp != "" ==> exp[1..][0] == exp[1];
    if exp == "" {
      assert exp + rest == rest;
    } else if IsSign(exp[1]) {
      assert (exp + rest)[2..] == exp[2..] + rest;
      DigitsAreTaken(exp[2..], rest);
      assert exp == [exp[0], exp[1]] + exp[2..];
    } else {
      assert (exp + rest)[1..] == exp[1..] + rest;
      DigitsAreTaken(exp[1..], rest);
      assert exp == [exp[0]] + exp[1..];
    }
  }

  /** Characters that can appear in a number. */
  predicate IsNumberChar(c: char) {
    IsDigit(c) || IsE(c) || IsSign(c) || c == '.'
  }

  predicate NumberEnds(rest: string) {
    rest == "" || !IsNumberChar(rest[0])
  }

  lemma PartsAreRead(minus: string, whole: string, frac: string, exp: string, rest: string)
    requires IsMinus(minus) && IsInt(whole) && IsFrac(frac) && IsExp(exp) && NumberEnds(rest)
    ensures ReadNumber((minus + (whole + (frac + exp))) + rest)
            == Some(Parsed(minus + (whole + (frac + exp)), rest))
  {
    Regroup(minus, whole, frac, exp, rest);
    ExpIsRead(exp, rest);
    FracIsRead(frac, exp + rest);
    IntIsRead(whole, frac + (exp + rest));
    MinusIsRead(minus, whole + (frac + (exp + rest)));
  }

  /** Every number is read whole, if what follows does not look like more of it. */
  lemma NumberIsRead(text: string, rest: string)
    requires IsJsonNumber(text) && NumberEnds(rest)
    ensures ReadNumber(text + rest) == Some(Parsed(text, rest))
  {
    var minus, whole, frac, exp :|
      IsMinus(minus) && IsInt(whole) && IsFrac(frac) && IsExp(exp) && text == minus + (whole + (frac + exp));
    PartsAreRead(minus, whole, frac, exp, rest);
  }

  lemma NumberChars(text: string)
    requires IsJsonNumber(text)
    ensures text != "" && forall i :: 0 <= i < |text| ==> IsNumberChar(text[i])
  {
    var minus, whole, frac, exp :|
      IsMinus(minus) && IsInt(whole) && IsFrac(frac) && IsExp(exp) && text == minus + (whole + (frac + exp));
    PartChars(minus, whole, frac, exp);
    CharsJoin(frac, exp);
    CharsJoin(whole, frac + exp);
    CharsJoin(minus, whole + (frac + exp));
  }

  predicate NumberCharsOnly(s: string) {
    forall i :: 0 <= i < |s| ==> IsNumberChar(s[i])
  }

  lemma CharsJoin(a: string, b: string)
    requires NumberCharsOnly(a) && NumberCharsOnly(b)
    ensures NumberCharsOnly(a + b)
  {
  }

  lemma PartChars(minus: string, whole: string, frac: string, exp: string)
    requires IsMinus(minus) && IsInt(whole) && IsFrac(frac) && IsExp(exp)
    ensures NumberCharsOnly(minus) && NumberCharsOnly(whole) && NumberCharsOnly(frac) && NumberCharsOnly(exp)
  {
    assert forall i :: 1 <= i < |frac| ==> frac[i] == frac[1..][i - 1];
    assert |exp| > 1 ==> forall i :: 1 <= i < |exp| ==> exp[i] == exp[1..][i - 1];
    assert |exp| > 2 ==> forall i :: 2 <= i < |exp| ==> exp[i] == exp[2..][i - 2];
  }

  /** What can follow a value within a document. */
  predicate IsStop(c: char) {
    c == ',' || c == ']' || c == '}'
  }

  predicate StopsAt(rest: string) {
    rest != "" && IsStop(rest[0])
  }

  predicate NoStops(s: string) {
    forall i :: 0 <= i < |s| ==> !IsStop(s[i])
  }

  lemma StopIsNotEarlier(a: string, afterA: string, b: string, afterB: string)
    requires a + afterA == b + afterB && NoStops(b) && StopsAt(afterA)
    ensures |a| >= |b|
  {
    assert (a + afterA)[|a|] == afterA[0];
    assert forall i :: 0 <= i < |b| ==> (b + afterB)[i] == b[i];
  }

  /** The first stop of a text is at one place. */
  lemma OneFirstStop(a: string, afterA: string, b: string, afterB: string)
    requires a + afterA == b + afterB && NoStops(a) && NoStops(b) && StopsAt(afterA) && StopsAt(afterB)
    ensures a == b
  {
    StopIsNotEarlier(a, afterA, b, afterB);
    StopIsNotEarlier(b, afterB, a, afterA);
    assert (a + afterA)[..|a|] == a;
    assert (b + afterB)[..|b|] == b;
  }

  lemma NumberHasNoStops(text: string)
    requires IsJsonNumber(text)
    ensures NoStops(text)
  {
    NumberChars(text);
  }

  /** A text that is no number is not read up to the stop that follows it: the reader gives
      up, or ends where there is no stop. */
  lemma OthersAreNotRead(text: string, rest: string)
    requires !IsJsonNumber(text) && NoStops(text) && StopsAt(rest)
    ensures var p := ReadNumber(text + rest); p.Some? ==> !StopsAt(p.value.rest)
  {
    if ReadNumber(text + rest).Some? {
      var p := ReadNumber(text + rest).value;
      ReadIsNumber(text + rest);
      NumberHasNoStops(p.value);
      if StopsAt(p.rest) {
        OneFirstStop(p.value, p.rest, text, rest);
      }
    }
  }

  // ------------------------------------------------------------ examples

  lemma AllPartsTogether()
    ensures IsJsonNumber("-" + (['1', '0'] + (['.', '0', '5'] + ['E', '+', '0', '9'])))
    ensures IsJsonNumber("" + (['0'] + ("" + ['e', '-', '3']))) && IsJsonNumber("" + (['7'] + ("" + ['e', '2'])))
  {
    assert ['.', '0', '5'][1..] == ['0', '5'];
    assert ['E', '+', '0', '9'][2..] == ['0', '9'];
    assert ['e', '-', '3'][2..] == ['3'] && ['e', '2'][1..] == ['2'];
    NumberOf("-", ['1', '0'], ['.', '0', '5'], ['E', '+', '0', '9']);
    NumberOf("", ['0'], "", ['e', '-', '3']);
    NumberOf("", ['7'], "", ['e', '2']);
  }

  /** No leading zero or plus, no part without digits. */
  lemma NoNumbers(text: string)
    requires text in {['0', '1'], ['+', '1'], ['-'], ['.', '5'], ['5', '.'], ['1', 'e'], ['1', 'e', '+'], ""}
    ensures !IsJsonNumber(text)
  {
    if IsJsonNumber(text) {
      NumberIsRead(text, "");
      assert text + "" == text;
      NotReadWhole(text);
    }
  }

  lemma NotReadWhole(text: string)
    requires text in {['0', '1'], ['+', '1'], ['-'], ['.', '5'], ['5', '.'], ['1', 'e'], ['1', 'e', '+'], ""}
    ensures ReadNumber(text) != Some(Parsed(text, ""))
  {
    assert |text| == 1 ==> text[1..] == "";
    assert |text| == 2 ==> text[1..] == [text[1]];
    assert |text| == 3 ==> text[1..] == [text[1], text[2]];
    assert |text| > 1 ==> text[2..] == if |text| == 2 then "" else [text[2]];
  }
}
