/** Scanning a configuration text: the longest-match rules and the token actions. */
module ConfigScanner {
  import opened Basics
  import opened Numerals
  import opened ConfigTree
  import opened Text

  datatype Token =
    | TBool(ival: int) | TInt(i: int) | TInt64(l: int) | THex(i: int) | THex64(l: int) | TFloat(text: string)
    | TStr(s: string) | TName(name: string)
    | TEquals | TComma | TSemicolon
    | TGroupStart | TGroupEnd | TArrayStart | TArrayEnd | TListStart | TListEnd
    | TGarbage | TError

  /** What one rule does: consumes some characters, and may return a token. `Stop` is the end of
      the input inside a string, which ends the scan without one. */
  datatype Step = Skip(n: nat) | Emit(tok: Token, n: nat) | Stop

  // ---- Names and booleans --------------------------------------------------------------------------

  /** A word is a boolean when it spells one, as that rule comes first among equally long matches. */
  function WordToken(word: string): Token
  {
    if Spells(word, "true") then TBool(1)
    else if Spells(word, "false") then TBool(0)
    else TName(word)
  }

  // ---- Numbers ---------------------------------------------------------------------------------------

  predicate IsOctal(c: char) { '0' <= c <= '7' }

  /** strtoll with base zero on an optional sign and decimal digits: a leading zero means octal. */
  function ParseInteger(text: string): Option<int>
  {
    var negative := text != "" && text[0] == '-';
    var digits := if text != "" && (text[0] == '-' || text[0] == '+') then text[1..] else text;
    if digits == "" then None
    else if |digits| > 1 && digits[0] == '0' && Span(digits, IsOctal) < |digits| then None
    else
      var magnitude: int := ValueOf(digits, if |digits| > 1 && digits[0] == '0' then 8 else 10);
      var n: int := if negative then -magnitude else magnitude;
      if Int64Range(n) then Some(n) else None
  }

  /** atoll, which saturates. */
  function ParseInteger64(text: string): int
  {
    var negative := text != "" && text[0] == '-';
    var magnitude: int := ValueOf(if text != "" && (text[0] == '-' || text[0] == '+') then text[1..] else text, 10);
    var n: int := if negative then -magnitude else magnitude;
    if n > 0x7FFF_FFFF_FFFF_FFFF then 0x7FFF_FFFF_FFFF_FFFF
    else if n < -0x8000_0000_0000_0000 then -0x8000_0000_0000_0000
    else n
  }

  /** strtoull on hexadecimal digits, which saturates. */
  function ParseUnsigned(digits: string): (n: nat)
    ensures n < 0x1_0000_0000_0000_0000
  {
    var v := ValueOf(digits, 16);
    if v < 0x1_0000_0000_0000_0000 then v else 0xFFFF_FFFF_FFFF_FFFF
  }

  /** Conversion of an unsigned value to a signed integer of the given width. */
  function Signed(n: nat, modulus: nat): int
    requires modulus > 0
  {
    var low := n % modulus;
    if 2 * low < modulus then low else low - modulus
  }

  function IntegerToken(text: string): Token
  {
    match ParseInteger(text)
    case None => TError
    case Some(n) => if Int32Range(n) then TInt(n) else TInt64(n)
  }

  function SignLen(s: string): nat
  {
    if s != "" && (s[0] == '-' || s[0] == '+') then 1 else 0
  }

  /** The length of an exponent, or zero. */
  function ExponentLen(s: string): (n: nat)
    ensures n <= |s|
  {
    if s == "" || (s[0] != 'e' && s[0] != 'E') then 0
    else
      var sign := SignLen(s[1..]);
      var digits := Span(s[1 + sign..], IsDigit);
      if digits == 0 then 0 else 1 + sign + digits
  }

  /** The longest float at the start of the text, or zero. */
  function FloatLen(s: string): (n: nat)
    ensures n <= |s|
  {
    var sign := SignLen(s);
    var whole := Span(s[sign..], IsDigit);
    var rest := s[sign + whole..];
    if rest != "" && rest[0] == '.' then
      var fraction := Span(rest[1..], IsDigit);
      sign + whole + 1 + fraction + ExponentLen(rest[1 + fraction..])
    else if whole > 0 && ExponentLen(rest) > 0 then
      sign + whole + ExponentLen(rest)
    else 0
  }

  /** The `L` or `LL` after an integer. */
  function SuffixLen(s: string): (n: nat)
    ensures n <= |s|
  {
    if s == "" || s[0] != 'L' then 0
    else if |s| > 1 && s[1] == 'L' then 2
    else 1
  }

  /** The number of hexadecimal digits after 0x, or zero. */
  function HexLen(s: string): (n: nat)
    ensures n > 0 ==> 2 + n <= |s|
  {
    if |s| >= 2 && s[0] == '0' && (s[1] == 'x' || s[1] == 'X') then Span(s[2..], IsHexDigit) else 0
  }

  /** The number rules, longest match first. */
  function NumberStep(s: string): (r: Step)
    requires s != ""
    ensures r.Emit? && 1 <= r.n <= |s|
  {
    var sign := SignLen(s);
    var digits := Span(s[sign..], IsDigit);
    var hex := HexLen(s);
    if hex > 0 then
      var suffix := SuffixLen(s[2 + hex..]);
      if suffix > 0 then
        Emit(THex64(Signed(ParseUnsigned(s[2..2 + hex]), 0x1_0000_0000_0000_0000)), 2 + hex + suffix)
      else
        Emit(THex(Signed(ParseUnsigned(s[2..2 + hex]), 0x1_0000_0000)), 2 + hex)
    else if FloatLen(s) > 0 then Emit(TFloat(s[..FloatLen(s)]), FloatLen(s))
    else if digits > 0 then
      var suffix := SuffixLen(s[sign + digits..]);
      if suffix > 0 then Emit(TInt64(ParseInteger64(s[..sign + digits])), sign + digits + suffix)
      else Emit(IntegerToken(s[..sign + digits]), sign + digits)
    else Emit(TGarbage, 1)
  }

  // ---- Strings -----------------------------------------------------------------------------------------

  /** One rule of the string state: the character it appends and how much it consumes. */
  function Unescape(s: string): (r: (char, nat))
    requires s != ""
    ensures 1 <= r.1 <= |s|
  {
    if s[0] != '\\' || |s| == 1 then (s[0], 1)
    else if s[1] == 'n' then ('\n', 2)
    else if s[1] == 'r' then ('\r', 2)
    else if s[1] == 't' then ('\t', 2)
    else if s[1] == 'f' then (12 as char, 2)
    else if s[1] == '\\' || s[1] == '\"' then (s[1], 2)
    else if (s[1] == 'x' || s[1] == 'X') && |s| >= 4 && IsHexDigit(s[2]) && IsHexDigit(s[3]) then
      HexPairRange(s[2], s[3]);
      ((DigitVal(s[2]) * 16 + DigitVal(s[3])) as char, 4)
    else (s[0], 1)
  }

  lemma {:induction false} HexPairRange(a: char, b: char)
    requires IsHexDigit(a) && IsHexDigit(b)
    ensures DigitVal(a) * 16 + DigitVal(b) < 256
  {
  }

  /** The string state from just after the opening quote: the contents and the characters consumed
      including the closing quote, or nothing when the input ends first. */
  function ScanString(s: string): (r: Option<(string, nat)>)
    ensures r.Some? ==> 1 <= r.value.1 <= |s|
    decreases |s|
  {
    if s == "" then None
    else if s[0] == '\"' then Some(("", 1))
    else
      var (c, n) := Unescape(s);
      match ScanString(s[n..])
      case None => None
      case Some((rest, m)) => Some(([c] + rest, n + m))
  }

  /** The character at `k` follows an odd number of backslashes. */
  predicate Escaped(s: string, k: nat)
    requires k <= |s|
  {
    k > 0 && s[k - 1] == '\\' && !Escaped(s, k - 1)
  }

  /** Where a rule ends nothing is escaped, so the rest can be looked at alone. */
  lemma {:induction false} EscapedAfter(s: string, n: nat, k: nat)
    requires n <= k <= |s| && !Escaped(s, n)
    ensures Escaped(s, k) == Escaped(s[n..], k - n)
    decreases k
  {
    if k > n {
      EscapedAfter(s, n, k - 1);
    }
  }

  /** A backslash that starts no escape, with the character after it: two matches. */
  predicate LoneBackslash(s: string)
    requires s != ""
  {
    |s| > 1 && s[0] == '\\' && Unescape(s).1 == 1
  }

  /** How far the scan gets before it can meet a quote again. */
  function Stretch(s: string): (n: nat)
    requires s != ""
    ensures 1 <= n <= |s|
  {
    if LoneBackslash(s) then 2 else Unescape(s).1
  }

  /** A stretch ends unescaped, unless at the end of the input, and passes over escaped quotes only. */
  lemma {:induction false} StretchEnds(s: string)
    requires s != "" && s[0] != '\"'
    ensures Stretch(s) < |s| ==> !Escaped(s, Stretch(s))
    ensures forall k :: 0 <= k < Stretch(s) && s[k] == '\"' ==> Escaped(s, k)
  {
    var n := Stretch(s);
    if n == 2 {
      assert Escaped(s, 1);
    } else if n == 4 {
      assert !Escaped(s, 3);
    }
  }

  lemma {:induction false} ScanStretch(s: string)
    requires s != "" && s[0] != '\"'
    ensures ScanString(s).Some? <==> ScanString(s[Stretch(s)..]).Some?
    ensures ScanString(s).Some? ==> ScanString(s).value.1 == Stretch(s) + ScanString(s[Stretch(s)..]).value.1
  {
    if LoneBackslash(s) {
      assert s[1..][1..] == s[2..];
      assert Unescape(s[1..]).1 == 1;
    }
  }

  lemma {:induction false} RestAlone(s: string, n: nat)
    requires n <= |s| && !Escaped(s, n)
    ensures forall k | n <= k < |s| :: Escaped(s, k) == Escaped(s[n..], k - n) && s[k] == s[n..][k - n]
  {
    forall k | n <= k < |s|
      ensures Escaped(s, k) == Escaped(s[n..], k - n)
    {
      EscapedAfter(s, n, k);
    }
  }

  /** The string ends at its first quote that is not escaped. */
  lemma {:induction false} EndsAtFirstQuote(s: string)
    ensures match ScanString(s)
            case None => forall k :: 0 <= k < |s| && s[k] == '\"' ==> Escaped(s, k)
            case Some((_, n)) => s[n - 1] == '\"' && !Escaped(s, n - 1) &&
                                 forall k :: 0 <= k < n - 1 && s[k] == '\"' ==> Escaped(s, k)
    decreases |s|
  {
    if s != "" && s[0] != '\"' {
      var n := Stretch(s);
      StretchEnds(s);
      ScanStretch(s);
      EndsAtFirstQuote(s[n..]);
      if n < |s| {
        RestAlone(s, n);
      }
    }
  }

  // ---- Comments ----------------------------------------------------------------------------------------

  /** The characters of a block comment after its opening, including the closing. */
  function BlockLen(s: string): (n: nat)
    ensures n <= |s|
  {
    if |s| < 2 then |s|
    else if s[0] == '*' && s[1] == '/' then 2
    else 1 + BlockLen(s[1..])
  }

  /** A line comment must be followed by a newline to match. */
  function LineCommentStep(s: string): (r: Step)
    requires s != ""
    ensures (r.Skip? || r.Emit?) && 1 <= r.n <= |s|
  {
    var n := Span(s, NotNewline);
    if 1 <= n < |s| then Skip(n) else Emit(TGarbage, 1)
  }

  // ---- One step and the whole scan ---------------------------------------------------------------------

  predicate Ignored(c: char) { c == '\n' || c == '\r' || c as int == 12 || c == ' ' || c == '\t' }

  datatype Kind = Ignore | Punct(tok: Token) | Quote | Word | Hash | Slash | Number | Other

  /** The rules a character can start a match of. */
  function Classify(c: char): Kind
  {
    if Ignored(c) then Ignore
    else if c == '=' || c == ':' then Punct(TEquals)
    else if c == ',' then Punct(TComma)
    else if c == ';' then Punct(TSemicolon)
    else if c == '{' then Punct(TGroupStart)
    else if c == '}' then Punct(TGroupEnd)
    else if c == '[' then Punct(TArrayStart)
    else if c == ']' then Punct(TArrayEnd)
    else if c == '(' then Punct(TListStart)
    else if c == ')' then Punct(TListEnd)
    else if c == '\"' then Quote
    else if NameStart(c) then Word
    else if c == '#' then Hash
    else if c == '/' then Slash
    else if IsDigit(c) || c == '-' || c == '+' || c == '.' then Number
    else Other
  }

  function QuoteStep(s: string): (r: Step)
    requires s != ""
    ensures !r.Stop? ==> 1 <= r.n <= |s|
  {
    match ScanString(s[1..])
    case None => Stop
    case Some((text, n)) => Emit(TStr(text), 1 + n)
  }

  function WordStep(s: string): (r: Step)
    requires s != ""
    ensures r.Emit? && 1 <= r.n <= |s|
  {
    var n := 1 + Span(s[1..], NameChar);
    Emit(WordToken(s[..n]), n)
  }

  function SlashStep(s: string): (r: Step)
    requires s != ""
    ensures !r.Stop? && 1 <= r.n <= |s|
  {
    if |s| > 1 && s[1] == '*' then Skip(2 + BlockLen(s[2..]))
    else if |s| > 1 && s[1] == '/' then LineCommentStep(s)
    else Emit(TGarbage, 1)
  }

  function Next(s: string): (r: Step)
    requires s != ""
    ensures !r.Stop? ==> 1 <= r.n <= |s|
  {
    match Classify(s[0])
    case Ignore => Skip(1)
    case Punct(tok) => Emit(tok, 1)
    case Quote => QuoteStep(s)
    case Word => WordStep(s)
    case Hash => LineCommentStep(s)
    case Slash => SlashStep(s)
    case Number => NumberStep(s)
    case Other => Emit(TGarbage, 1)
  }

  function Lex(s: string): seq<Token>
    decreases |s|
  {
    if s == "" then []
    else
      match Next(s)
      case Skip(n) => Lex(s[n..])
      case Emit(tok, n) => [tok] + Lex(s[n..])
      case Stop => []
  }

  lemma {:induction false} LexSkips(s: string, n: nat)
    requires s != "" && Next(s) == Skip(n)
    ensures n <= |s| && Lex(s) == Lex(s[n..])
  {
  }

  lemma {:induction false} LexEmits(s: string, tok: Token, n: nat)
    requires s != "" && Next(s) == Emit(tok, n)
    ensures n <= |s| && Lex(s) == [tok] + Lex(s[n..])
  {
  }

  /** These tokens come before those of the text still to be scanned. */
  predicate Scanned(text: string, tokens: seq<Token>, rest: string)
  {
    tokens + Lex(rest) == Lex(text)
  }

  lemma {:induction false} ScanEnds(text: string, tokens: seq<Token>, rest: string)
    requires Scanned(text, tokens, rest) && Lex(rest) == []
    ensures tokens == Lex(text)
  {
    assert tokens + [] == tokens;
  }

  lemma {:induction false} AfterSkip(text: string, tokens: seq<Token>, rest: string, n: nat)
    requires Scanned(text, tokens, rest) && rest != "" && Next(rest) == Skip(n)
    ensures Scanned(text, tokens, rest[n..])
  {
    LexSkips(rest, n);
  }

  lemma {:induction false} AfterEmit(text: string, tokens: seq<Token>, rest: string, tok: Token, n: nat)
    requires Scanned(text, tokens, rest) && rest != "" && Next(rest) == Emit(tok, n)
    ensures Scanned(text, tokens + [tok], rest[n..])
  {
    LexEmits(rest, tok, n);
    assert tokens + ([tok] + Lex(rest[n..])) == (tokens + [tok]) + Lex(rest[n..]);
  }

  /** The scan loop over the buffer; the end of the input inside a string ends it too. */
  method Scan(text: string) returns (tokens: seq<Token>)
    ensures tokens == Lex(text)
  {
    tokens := [];
    var rest := text;
    while rest != ""
      invariant Scanned(text, tokens, rest)
      decreases |rest|
    {
      match Next(rest)
      case Skip(n) =>
        AfterSkip(text, tokens, rest, n);
        rest := rest[n..];
      case Emit(tok, n) =>
        AfterEmit(text, tokens, rest, tok, n);
        tokens, rest := tokens + [tok], rest[n..];
      case Stop =>
        ScanEnds(text, tokens, rest);
        return;
    }
    ScanEnds(text, tokens, rest);
  }
}
