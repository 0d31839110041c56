/** Scanning the text of a configuration gives the tokens of its settings, whatever the writer's
    options are. */
module ConfigLexing {
  import opened Basics
  import opened Numerals
  import opened ConfigTree
  import opened ConfigWriter
  import opened ConfigScanner
  import opened Text

  // ---- The tokens of settings ------------------------------------------------------------------------

  function ScalarToken(v: Value, default: Format): Token
    requires Scalar(v)
  {
    match v
    case Bool(n) => TBool(if n != 0 then 1 else 0)
    case Int(n, f) => if Effective(f, default) == Hex then THex(n) else TInt(n)
    case Int64(n, f) => if Effective(f, default) == Hex then THex64(n) else TInt64(n)
    case Str(s) => TStr(s)
  }

  function ValueTokens(o: Options, v: Value): seq<Token>
    decreases v, 0
  {
    match v
    case List(elems) => [TListStart] + ElemsTokens(o, elems) + [TListEnd]
    case Array(elems) => [TArrayStart] + ElemsTokens(o, elems) + [TArrayEnd]
    case Group(members) => [TGroupStart] + MembersTokens(o, members) + [TGroupEnd]
    case _ => [ScalarToken(v, o.default)]
  }

  function ElemsTokens(o: Options, elems: seq<Value>): seq<Token>
    decreases elems, 1
  {
    if elems == [] then []
    else ValueTokens(o, elems[0]) + (if |elems| > 1 then [TComma] else []) + ElemsTokens(o, elems[1..])
  }

  function MembersTokens(o: Options, members: seq<Member>): seq<Token>
    decreases members, 1
  {
    if members == [] then []
    else SettingTokens(o, members[0].name, members[0].value) + MembersTokens(o, members[1..])
  }

  function EndTokens(o: Options): seq<Token>
  {
    if o.semicolons then [TSemicolon] else []
  }

  function SettingTokens(o: Options, name: string, v: Value): seq<Token>
    decreases v, 1
  {
    [WordToken(name), TEquals] + ValueTokens(o, v) + EndTokens(o)
  }

  // ---- Pieces of text -------------------------------------------------------------------------------

  /** In front of `rest`, this text is scanned to these tokens. */
  predicate Lexes(text: string, tokens: seq<Token>, rest: string)
  {
    Lex(text + rest) == tokens + Lex(rest)
  }

  lemma {:induction false} Then(a: string, ta: seq<Token>, b: string, tb: seq<Token>, rest: string)
    requires Lexes(a, ta, b + rest) && Lexes(b, tb, rest)
    ensures Lexes(a + b, ta + tb, rest)
  {
    assert (a + b) + rest == a + (b + rest);
    assert (ta + tb) + Lex(rest) == ta + (tb + Lex(rest));
  }

  lemma {:induction false} Nothing(rest: string)
    ensures Lexes("", [], rest)
  {
    assert "" + rest == rest;
  }

  /** The scanner's next match is exactly this text. */
  lemma {:induction false} Matched(text: string, tok: Token, rest: string)
    requires text != "" && Next(text + rest) == Emit(tok, |text|)
    ensures Lexes(text, [tok], rest)
  {
    LexEmits(text + rest, tok, |text|);
    assert (text + rest)[|text|..] == rest;
  }

  lemma {:induction false} Blank(text: string, rest: string)
    requires forall k :: 0 <= k < |text| ==> Ignored(text[k])
    ensures Lexes(text, [], rest)
    decreases |text|
  {
    if text == "" {
      Nothing(rest);
    } else {
      var s := text + rest;
      assert s[0] == text[0];
      LexSkips(s, 1);
      assert s[1..] == text[1..] + rest;
      Blank(text[1..], rest);
    }
  }

  /** What follows a value in a written configuration. */
  predicate Delimited(rest: string)
  {
    rest == "" || rest[0] == ',' || rest[0] == ' ' || rest[0] == ';' || rest[0] == '\n'
  }

  lemma {:induction false} WordFirst(s: string, n: nat)
    requires s != "" && Classify(s[0]) == Word && 1 <= n <= |s| && Span(s[1..], NameChar) == n - 1
    ensures Next(s) == Emit(WordToken(s[..n]), n)
  {
  }

  lemma {:induction false} WordLexes(word: string, rest: string)
    requires ValidName(word) && (rest == "" || !NameChar(rest[0]))
    ensures Lexes(word, [WordToken(word)], rest)
  {
    var s := word + rest;
    assert s[0] == word[0];
    forall k | 0 <= k < |word| - 1
      ensures NameChar(s[1..][k])
    {
      assert s[1..][k] == word[k + 1];
    }
    SpanIs(s[1..], NameChar, |word| - 1);
    assert s[..|word|] == word;
    WordFirst(s, |word|);
    Matched(word, WordToken(word), rest);
  }

  // ---- Numbers ----------------------------------------------------------------------------------------

  lemma {:induction false} DigitsSpan(digits: string, rest: string)
    requires digits != "" && (forall k :: 0 <= k < |digits| ==> IsDigit(digits[k]))
    requires rest == "" || !IsDigit(rest[0])
    ensures Classify((digits + rest)[0]) == Number && SignLen(digits + rest) == 0
    ensures Span(digits + rest, IsDigit) == |digits|
  {
    DigitClass(digits[0]);
    SpanIs(digits + rest, IsDigit, |digits|);
  }

  /** What the number rules see of a sign and decimal digits. */
  lemma {:induction false} DecimalSpan(n: int, rest: string)
    requires rest == "" || !IsDigit(rest[0])
    ensures var s := Decimal(n) + rest;
            && Classify(s[0]) == Number
            && SignLen(s) == (if n < 0 then 1 else 0)
            && Span(s[SignLen(s)..], IsDigit) == |Decimal(n)| - SignLen(s)
            && |Decimal(n)| - SignLen(s) >= 1
  {
    var m: nat := if n < 0 then -n else n;
    var digits := Digits(m, 10);
    DigitsAreDigits(m, 10);
    DigitsSpan(digits, rest);
    if n < 0 {
      assert Decimal(n) == "-" + digits;
      MinusSpan(digits, rest);
    } else {
      assert (digits + rest)[0..] == digits + rest;
    }
  }

  lemma {:induction false} MinusSpan(digits: string, rest: string)
    ensures var s := ("-" + digits) + rest;
            s[0] == '-' && SignLen(s) == 1 && s[1..] == digits + rest && Classify(s[0]) == Number
  {
  }

  lemma {:induction false} DigitClass(c: char)
    requires IsDigit(c)
    ensures Classify(c) == Number && c != '-' && c != '+'
  {
  }

  lemma {:induction false} NotHex(n: int, rest: string)
    requires rest == "" || (!IsDigit(rest[0]) && rest[0] != 'x' && rest[0] != 'X')
    ensures HexLen(Decimal(n) + rest) == 0
  {
    DigitsAreDigits(if n < 0 then -n else n, 10);
    var s := Decimal(n) + rest;
    if n == 0 {
      assert Decimal(n) == "0";
      assert |s| >= 2 ==> s[1] == rest[0];
    }
  }

  predicate AfterInteger(rest: string)
  {
    rest == "" || (!IsDigit(rest[0]) && rest[0] != '.' && rest[0] != 'e' && rest[0] != 'E'
                   && rest[0] != 'x' && rest[0] != 'X')
  }

  lemma {:induction false} NotFloat(s: string)
    requires var rest := s[SignLen(s) + Span(s[SignLen(s)..], IsDigit)..]; AfterInteger(rest)
    ensures FloatLen(s) == 0
  {
  }

  lemma {:induction false} NumberFirst(s: string)
    requires s != "" && Classify(s[0]) == Number
    ensures Next(s) == NumberStep(s)
  {
  }

  /** So decimal digits are neither a hexadecimal number nor a float. */
  lemma {:induction false} DecimalStep(n: int, rest: string)
    requires AfterInteger(rest)
    ensures Next(Decimal(n) + rest) ==
            if SuffixLen(rest) > 0 then Emit(TInt64(ParseInteger64(Decimal(n))), |Decimal(n)| + SuffixLen(rest))
            else Emit(IntegerToken(Decimal(n)), |Decimal(n)|)
  {
    var text := Decimal(n);
    var s := text + rest;
    DecimalSpan(n, rest);
    NotHex(n, rest);
    assert s[|text|..] == rest && s[..|text|] == text;
    NotFloat(s);
    NumberFirst(s);
    PlainNumber(s, |text|);
  }

  lemma {:induction false} PlainNumber(s: string, k: nat)
    requires s != "" && HexLen(s) == 0 && FloatLen(s) == 0
    requires 1 <= k - SignLen(s) == Span(s[SignLen(s)..], IsDigit) && k <= |s|
    ensures NumberStep(s) ==
            if SuffixLen(s[k..]) > 0 then Emit(TInt64(ParseInteger64(s[..k])), k + SuffixLen(s[k..]))
            else Emit(IntegerToken(s[..k]), k)
  {
  }

  lemma {:induction false} PositiveParses(n: nat)
    requires Int64Range(n)
    ensures ParseInteger(Decimal(n)) == Some(n) && ParseInteger64(Decimal(n)) == n
  {
    DigitsValue(n, 10);
    DigitsAreDigits(n, 10);
    DigitClass(Digits(n, 10)[0]);
  }

  /** A minus sign and decimal digits without a leading zero. */
  lemma {:induction false} SignedParses(text: string, digits: string, m: nat)
    requires text != "" && text[0] == '-' && text[1..] == digits && digits != ""
    requires ValueOf(digits, 10) == m && (|digits| > 1 ==> digits[0] != '0') && Int64Range(0 - m)
    ensures ParseInteger(text) == Some(0 - m) && ParseInteger64(text) == 0 - m
  {
  }

  lemma {:induction false} NegativeParses(n: int)
    requires Int64Range(n) && n < 0
    ensures ParseInteger(Decimal(n)) == Some(n) && ParseInteger64(Decimal(n)) == n
  {
    DigitsValue(-n, 10);
    DigitsAreDigits(-n, 10);
    SignedParses(Decimal(n), Digits(-n, 10), -n);
  }

  lemma {:induction false} DecimalParses(n: int)
    requires Int64Range(n)
    ensures ParseInteger(Decimal(n)) == Some(n) && ParseInteger64(Decimal(n)) == n
  {
    if n < 0 {
      NegativeParses(n);
    } else {
      PositiveParses(n);
    }
  }

  lemma {:induction false} IntegerLexes(n: int, rest: string)
    requires Int32Range(n) && Delimited(rest)
    ensures Lexes(Decimal(n), [TInt(n)], rest)
  {
    DecimalStep(n, rest);
    DecimalParses(n);
    Matched(Decimal(n), TInt(n), rest);
  }

  lemma {:induction false} LongSuffix(rest: string)
    requires Delimited(rest)
    ensures SuffixLen("L" + rest) == 1 && AfterInteger("L" + rest)
  {
  }

  lemma {:induction false} Integer64Lexes(n: int, rest: string)
    requires Int64Range(n) && Delimited(rest)
    ensures Lexes(Decimal(n) + "L", [TInt64(n)], rest)
  {
    var text := Decimal(n);
    LongSuffix(rest);
    DecimalStep(n, "L" + rest);
    DecimalParses(n);
    LongMatched(text, TInt64(n), rest);
  }

  lemma {:induction false} LongMatched(text: string, tok: Token, rest: string)
    requires text != "" && Next(text + ("L" + rest)) == Emit(tok, |text| + 1)
    ensures Lexes(text + "L", [tok], rest)
  {
    assert (text + "L") + rest == text + ("L" + rest);
    Matched(text + "L", tok, rest);
  }

  lemma {:induction false} SignedInverse(n: int, modulus: int)
    requires modulus > 0 && modulus % 2 == 0 && -modulus <= 2 * n < modulus
    ensures Signed(if n < 0 then n + modulus else n, modulus) == n
  {
    ModSmall(if n < 0 then n + modulus else n, modulus);
  }

  lemma {:induction false} ModSmall(a: nat, m: nat)
    requires a < m
    ensures a % m == a
  {
  }

  lemma {:induction false} HexStep(m: nat, rest: string)
    requires m < 0x1_0000_0000_0000_0000 && (rest == "" || !IsHexDigit(rest[0]))
    ensures Next("0x" + Digits(m, 16) + rest) ==
            if SuffixLen(rest) > 0 then
              Emit(THex64(Signed(m, 0x1_0000_0000_0000_0000)), 2 + |Digits(m, 16)| + SuffixLen(rest))
            else Emit(THex(Signed(m, 0x1_0000_0000)), 2 + |Digits(m, 16)|)
  {
    var digits := Digits(m, 16);
    var s := "0x" + digits + rest;
    HexSpan(digits, rest) by {
      DigitsAreDigits(m, 16);
    }
    DigitsValue(m, 16);
    NumberFirst(s);
    HexNumber(s, |digits|);
  }

  lemma {:induction false} HexSpan(digits: string, rest: string)
    requires digits != "" && (forall k :: 0 <= k < |digits| ==> IsHexDigit(digits[k]))
    requires rest == "" || !IsHexDigit(rest[0])
    ensures var s := "0x" + digits + rest;
            && Classify(s[0]) == Number && HexLen(s) == |digits|
            && s[2..2 + |digits|] == digits && s[2 + |digits|..] == rest
  {
    var s := "0x" + digits + rest;
    assert s[2..] == digits + rest;
    SpanIs(digits + rest, IsHexDigit, |digits|);
  }

  lemma {:induction false} HexNumber(s: string, h: nat)
    requires s != "" && HexLen(s) == h > 0
    ensures NumberStep(s) ==
            if SuffixLen(s[2 + h..]) > 0 then
              Emit(THex64(Signed(ParseUnsigned(s[2..2 + h]), 0x1_0000_0000_0000_0000)), 2 + h + SuffixLen(s[2 + h..]))
            else Emit(THex(Signed(ParseUnsigned(s[2..2 + h]), 0x1_0000_0000)), 2 + h)
  {
  }

  lemma {:induction false} HexLexes(n: int, rest: string)
    requires Int32Range(n) && Delimited(rest)
    ensures Lexes(HexText(n, 0x1_0000_0000), [THex(n)], rest)
  {
    var m: nat := if n < 0 then n + 0x1_0000_0000 else n;
    HexStep(m, rest);
    SignedInverse(n, 0x1_0000_0000);
    Matched("0x" + Digits(m, 16), THex(n), rest);
  }

  lemma {:induction false} Hex64Lexes(n: int, rest: string)
    requires Int64Range(n) && Delimited(rest)
    ensures Lexes(HexText(n, 0x1_0000_0000_0000_0000) + "L", [THex64(n)], rest)
  {
    var m: nat := if n < 0 then n + 0x1_0000_0000_0000_0000 else n;
    LongSuffix(rest);
    HexStep(m, "L" + rest);
    SignedInverse(n, 0x1_0000_0000_0000_0000);
    LongMatched("0x" + Digits(m, 16), THex64(n), rest);
  }

  // ---- Strings ------------------------------------------------------------------------------------------

  /** Every escape reads back as the character it stands for, whatever comes next. */
  lemma {:induction false} EscapeReads(c: char, rest: string)
    requires 1 <= c as int <= 255
    ensures EscapeChar(c)[0] != '\"'
    ensures rest != "" ==> Unescape(EscapeChar(c) + rest) == (c, |EscapeChar(c)|)
  {
    if c < ' ' && c != '\n' && c != '\r' && c as int != 12 && c != '\t' {
      var hi, lo := c as nat / 16, c as nat % 16;
      assert EscapeChar(c) == ['\\', 'x', DigitChar(hi), DigitChar(lo)];
      assert hi * 16 + lo == c as nat;
    }
  }

  lemma {:induction false} EscapedScan(c: char, tail: string, text: string, n: nat)
    requires 1 <= c as int <= 255 && ScanString(tail) == Some((text, n))
    ensures ScanString(EscapeChar(c) + tail) == Some(([c] + text, |EscapeChar(c)| + n))
  {
    var e := EscapeChar(c);
    EscapeReads(c, tail);
    assert (e + tail)[0] == e[0] && (e + tail)[|e|..] == tail;
  }

  lemma {:induction false} StringEnds(rest: string)
    ensures ScanString("\"" + rest) == Some(("", 1))
  {
  }

  lemma {:induction false} FirstAndRest(s: string)
    requires s != ""
    ensures [s[0]] + s[1..] == s
  {
  }

  lemma {:induction false} EscapeFirst(s: string, rest: string)
    requires s != ""
    ensures EscapeAll(s) + rest == EscapeChar(s[0]) + (EscapeAll(s[1..]) + rest)
    ensures |EscapeAll(s)| == |EscapeChar(s[0])| + |EscapeAll(s[1..])|
  {
    assert (EscapeChar(s[0]) + EscapeAll(s[1..])) + rest == EscapeChar(s[0]) + (EscapeAll(s[1..]) + rest);
  }

  lemma {:induction false} StringGoesOn(s: string, end: string)
    requires s != "" && 1 <= s[0] as int <= 255
    requires ScanString(EscapeAll(s[1..]) + end) == Some((s[1..], |EscapeAll(s[1..])| + 1))
    ensures ScanString(EscapeAll(s) + end) == Some((s, |EscapeAll(s)| + 1))
  {
    EscapedScan(s[0], EscapeAll(s[1..]) + end, s[1..], |EscapeAll(s[1..])| + 1);
    EscapeFirst(s, end);
    FirstAndRest(s);
  }

  lemma {:induction false} StringReads(s: string, rest: string)
    requires Bytes(s)
    ensures ScanString(EscapeAll(s) + ("\"" + rest)) == Some((s, |EscapeAll(s)| + 1))
    decreases |s|
  {
    var end := "\"" + rest;
    if s == "" {
      StringEnds(rest);
      assert "" + end == end;
    } else {
      StringReads(s[1..], rest);
      StringGoesOn(s, end);
    }
  }

  lemma {:induction false} QuoteFirst(s: string, text: string, n: nat)
    requires s != "" && Classify(s[0]) == Quote && ScanString(s[1..]) == Some((text, n))
    ensures Next(s) == Emit(TStr(text), 1 + n)
  {
  }

  lemma {:induction false} StringLexes(s: string, rest: string)
    requires Bytes(s)
    ensures Lexes(Quoted(s), [TStr(s)], rest)
  {
    var text := Quoted(s) + rest;
    assert text[1..] == EscapeAll(s) + ("\"" + rest);
    StringReads(s, rest);
    QuoteFirst(text, s, |EscapeAll(s)| + 1);
    Matched(Quoted(s), TStr(s), rest);
  }

  // ---- Whole values ---------------------------------------------------------------------------------------

  lemma {:induction false} IntLexes(n: int, format: Format, rest: string)
    requires Int32Range(n) && Delimited(rest)
    ensures Lexes(IntText(n, format), [if format == Hex then THex(n) else TInt(n)], rest)
  {
    if format == Hex { HexLexes(n, rest); } else { IntegerLexes(n, rest); }
  }

  lemma {:induction false} Int64Lexes(n: int, format: Format, rest: string)
    requires Int64Range(n) && Delimited(rest)
    ensures Lexes(Int64Text(n, format), [if format == Hex then THex64(n) else TInt64(n)], rest)
  {
    if format == Hex { Hex64Lexes(n, rest); } else { Integer64Lexes(n, rest); }
  }

  lemma {:induction false} BoolWords()
    ensures ValidName("true") && WordToken("true") == TBool(1)
    ensures ValidName("false") && WordToken("false") == TBool(0)
  {
    assert |"false"| != |"true"|;
  }

  lemma {:induction false} BoolLexes(n: int, rest: string)
    requires Delimited(rest)
    ensures Lexes(if n != 0 then "true" else "false", [TBool(if n != 0 then 1 else 0)], rest)
  {
    BoolWords();
    if n != 0 {
      WordLexes("true", rest);
    } else {
      WordLexes("false", rest);
    }
  }

  lemma {:induction false} ScalarLexes(o: Options, v: Value, depth: nat, rest: string)
    requires WellFormed(v) && Scalar(v) && Delimited(rest)
    ensures Lexes(ValueText(o, v, depth), ValueTokens(o, v), rest)
  {
    match v
    case Bool(n) => BoolLexes(n, rest);
    case Int(n, f) => IntLexes(n, Effective(f, o.default), rest);
    case Int64(n, f) => Int64Lexes(n, Effective(f, o.default), rest);
    case Str(s) => StringLexes(s, rest);
  }

  lemma {:induction false} IndentBlank(o: Options, depth: nat, rest: string)
    ensures Lexes(DeepIndent(o, depth), [], rest)
  {
    Blank(DeepIndent(o, depth), rest);
  }

  lemma {:induction false} Punctuation(text: string, tok: Token, rest: string)
    requires |text| == 1 && Classify(text[0]) == Punct(tok)
    ensures Lexes(text, [tok], rest)
  {
    assert (text + rest)[0] == text[0];
    Matched(text, tok, rest);
  }

  lemma {:induction false} OpenLexes(o: Options, depth: nat, rest: string)
    requires depth > 0
    ensures Lexes(OpenText(o, depth), [TGroupStart], rest)
  {
    var lead := if o.braceOnLine then "\n" + DeepIndent(o, depth) else "";
    Blank("\n", rest);
    Punctuation("{", TGroupStart, "\n" + rest);
    Then("{", [TGroupStart], "\n", [], rest);
    assert "{" + "\n" == "{\n" && [TGroupStart] + [] == [TGroupStart];
    Blank(lead, "{\n" + rest);
    Then(lead, [], "{\n", [TGroupStart], rest);
    assert [] + [TGroupStart] == [TGroupStart];
  }

  lemma {:induction false} CloseLexes(o: Options, depth: nat, rest: string)
    requires depth > 0
    ensures Lexes(CloseText(o, depth), [TGroupEnd], rest)
  {
    Punctuation("}", TGroupEnd, rest);
    IndentBlank(o, depth, "}" + rest);
    Then(DeepIndent(o, depth), [], "}", [TGroupEnd], rest);
    assert [] + [TGroupEnd] == [TGroupEnd];
  }

  lemma {:induction false} EndLexes(o: Options, rest: string)
    ensures Lexes(EndText(o), EndTokens(o), rest)
  {
    Blank("\n", rest);
    if o.semicolons {
      Punctuation(";", TSemicolon, "\n" + rest);
      Then(";", [TSemicolon], "\n", [], rest);
      assert ";" + "\n" == ";\n" && [TSemicolon] + [] == [TSemicolon];
    }
  }

  lemma {:induction false} AssignLexes(o: Options, v: Value, rest: string)
    ensures Lexes(AssignText(o, v), [TEquals], rest)
  {
    var sign := if AssignText(o, v) == " : " then ":" else "=";
    Blank(" ", rest);
    Punctuation(sign, TEquals, " " + rest);
    Then(sign, [TEquals], " ", [], rest);
    Blank(" ", (sign + " ") + rest);
    Then(" ", [], sign + " ", [TEquals] + [], rest);
    assert AssignText(o, v) == " " + (sign + " ") && [] + ([TEquals] + []) == [TEquals];
  }

  lemma {:induction false} SeparatorLexes(more: bool, rest: string)
    ensures Lexes(if more then ", " else " ", if more then [TComma] else [], rest)
  {
    Blank(" ", rest);
    if more {
      Punctuation(",", TComma, " " + rest);
      Then(",", [TComma], " ", [], rest);
      assert "," + " " == ", " && [TComma] + [] == [TComma];
    }
  }

  /** Opening and closing brackets around the elements. */
  lemma {:induction false} BracketLexes(open: string, a: Token, body: string, tokens: seq<Token>, close: string,
                                        b: Token, rest: string)
    requires Lexes(open, [a], body + (close + rest)) && Lexes(body, tokens, close + rest) && Lexes(close, [b], rest)
    ensures Lexes(open + body + close, [a] + tokens + [b], rest)
  {
    Then(open, [a], body, tokens, close + rest);
    Then(open + body, [a] + tokens, close, [b], rest);
  }

  lemma {:induction false} SpacedBracket(open: string, a: Token, rest: string)
    requires |open| == 1 && Classify(open[0]) == Punct(a)
    ensures Lexes(open + " ", [a], rest)
  {
    Blank(" ", rest);
    Punctuation(open, a, " " + rest);
    Then(open, [a], " ", [], rest);
    assert [a] + [] == [a];
  }

  lemma {:induction false} ListBrackets(body: string, tokens: seq<Token>, rest: string)
    requires Lexes(body, tokens, ")" + rest)
    ensures Lexes("( " + body + ")", [TListStart] + tokens + [TListEnd], rest)
  {
    SpacedBracket("(", TListStart, body + (")" + rest));
    assert "(" + " " == "( ";
    Punctuation(")", TListEnd, rest);
    BracketLexes("( ", TListStart, body, tokens, ")", TListEnd, rest);
  }

  lemma {:induction false} ArrayBrackets(body: string, tokens: seq<Token>, rest: string)
    requires Lexes(body, tokens, "]" + rest)
    ensures Lexes("[ " + body + "]", [TArrayStart] + tokens + [TArrayEnd], rest)
  {
    SpacedBracket("[", TArrayStart, body + ("]" + rest));
    assert "[" + " " == "[ ";
    Punctuation("]", TArrayEnd, rest);
    BracketLexes("[ ", TArrayStart, body, tokens, "]", TArrayEnd, rest);
  }

  lemma {:induction false} GroupBrackets(o: Options, depth: nat, body: string, tokens: seq<Token>, rest: string)
    requires depth > 0 && Lexes(body, tokens, CloseText(o, depth) + rest)
    ensures Lexes(OpenText(o, depth) + body + CloseText(o, depth), [TGroupStart] + tokens + [TGroupEnd], rest)
  {
    OpenLexes(o, depth, body + (CloseText(o, depth) + rest));
    CloseLexes(o, depth, rest);
    BracketLexes(OpenText(o, depth), TGroupStart, body, tokens, CloseText(o, depth), TGroupEnd, rest);
  }

  lemma {:induction false} ValueLexes(o: Options, v: Value, depth: nat, rest: string)
    requires WellFormed(v) && Delimited(rest) && (v.Group? ==> depth > 0)
    ensures Lexes(ValueText(o, v, depth), ValueTokens(o, v), rest)
    decreases v, 0
  {
    match v
    case List(elems) =>
      ElemsLex(o, elems, depth + 1, ")" + rest);
      ListBrackets(ElemsText(o, elems, depth + 1), ElemsTokens(o, elems), rest);
    case Array(elems) =>
      ElemsLex(o, elems, depth + 1, "]" + rest);
      ArrayBrackets(ElemsText(o, elems, depth + 1), ElemsTokens(o, elems), rest);
    case Group(members) =>
      MembersLex(o, members, depth + 1, CloseText(o, depth) + rest);
      GroupBrackets(o, depth, MembersText(o, members, depth + 1), MembersTokens(o, members), rest);
    case _ => ScalarLexes(o, v, depth, rest);
  }

  lemma {:induction false} ElemsLex(o: Options, elems: seq<Value>, depth: nat, rest: string)
    requires WellFormedAll(elems) && depth > 0
    ensures Lexes(ElemsText(o, elems, depth), ElemsTokens(o, elems), rest)
    decreases elems, 1
  {
    if elems == [] {
      Nothing(rest);
    } else {
      var more := |elems| > 1;
      var sep, tail := if more then ", " else " ", ElemsText(o, elems[1..], depth);
      ElemsLex(o, elems[1..], depth, rest);
      SeparatorLexes(more, tail + rest);
      assert sep + (tail + rest) != "" && (sep + (tail + rest))[0] == sep[0];
      ValueLexes(o, elems[0], depth, sep + (tail + rest));
      Then(ValueText(o, elems[0], depth), ValueTokens(o, elems[0]), sep, if more then [TComma] else [], tail + rest);
      Then(ValueText(o, elems[0], depth) + sep, ValueTokens(o, elems[0]) + (if more then [TComma] else []), tail,
           ElemsTokens(o, elems[1..]), rest);
    }
  }

  lemma {:induction false} MembersLex(o: Options, members: seq<Member>, depth: nat, rest: string)
    requires WellFormedMembers(members) && depth > 0
    ensures Lexes(MembersText(o, members, depth), MembersTokens(o, members), rest)
    decreases members, 1
  {
    if members == [] {
      Nothing(rest);
    } else {
      var m, tail := members[0], MembersText(o, members[1..], depth);
      MembersLex(o, members[1..], depth, rest);
      SettingLexes(o, m.name, m.value, depth, tail + rest);
      Then(SettingText(o, m.name, m.value, depth), SettingTokens(o, m.name, m.value), tail,
           MembersTokens(o, members[1..]), rest);
    }
  }

  lemma {:induction false} NameLexes(o: Options, name: string, v: Value, depth: nat, rest: string)
    requires ValidName(name)
    ensures Lexes(DeepIndent(o, depth) + name + AssignText(o, v), [WordToken(name), TEquals], rest)
  {
    var assign := AssignText(o, v);
    AssignLexes(o, v, rest);
    assert (assign + rest)[0] == ' ';
    WordLexes(name, assign + rest);
    IndentBlank(o, depth, name + (assign + rest));
    Then(DeepIndent(o, depth), [], name, [WordToken(name)], assign + rest);
    Then(DeepIndent(o, depth) + name, [] + [WordToken(name)], assign, [TEquals], rest);
    assert [] + [WordToken(name)] + [TEquals] == [WordToken(name), TEquals];
  }

  lemma {:induction false} SettingLexes(o: Options, name: string, v: Value, depth: nat, rest: string)
    requires ValidName(name) && WellFormed(v) && depth > 0
    ensures Lexes(SettingText(o, name, v, depth), SettingTokens(o, name, v), rest)
    decreases v, 1
  {
    var head, body := DeepIndent(o, depth) + name + AssignText(o, v), ValueText(o, v, depth);
    EndLexes(o, rest);
    assert (EndText(o) + rest)[0] == EndText(o)[0];
    ValueLexes(o, v, depth, EndText(o) + rest);
    NameLexes(o, name, v, depth, body + (EndText(o) + rest));
    Then(head, [WordToken(name), TEquals], body, ValueTokens(o, v), EndText(o) + rest);
    Then(head + body, [WordToken(name), TEquals] + ValueTokens(o, v), EndText(o), EndTokens(o), rest);
  }

  /** Scanning a written configuration gives the tokens of the root's settings. */
  lemma {:induction false} ConfigLexes(o: Options, root: Value)
    requires root.Group? && WellFormed(root)
    ensures Lex(ConfigText(o, root)) == MembersTokens(o, root.members)
  {
    MembersLex(o, root.members, 1, "");
    var text := MembersText(o, root.members, 1);
    assert ConfigText(o, root) == "" + text + "" == text == text + "";
    assert MembersTokens(o, root.members) + [] == MembersTokens(o, root.members);
  }
}
