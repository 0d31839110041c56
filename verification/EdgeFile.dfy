/** The edge file: storing the edge table as lines of text and loading it again. */
module EdgeFile {
  import opened Basics
  import opened Records
  import opened Numerals
  import opened Text
  import opened Iteration

  const UINT128: nat := 0x1_0000_0000_0000_0000_0000_0000_0000_0000

  // ---- 128-bit decimals ----------------------------------------------------------------------------

  function Pow10(k: nat): nat
  {
    if k == 0 then 1 else 10 * Pow10(k - 1)
  }

  lemma {:induction false} DigitsFit(n: nat, k: nat)
    requires k >= 1 && n < Pow10(k)
    ensures |Digits(n, 10)| <= k
    decreases k
  {
    DigitsAreDigits(n, 10);
    if n >= 10 {
      DivMod(n, 10);
      assert k > 1 && n / 10 < Pow10(k - 1);
      DigitsFit(n / 10, k - 1);
    }
  }

  lemma {:induction false} Pow10Steps(k: nat)
    ensures Pow10(k + 4) == 10000 * Pow10(k)
  {
    assert Pow10(k + 4) == 10 * Pow10(k + 3) && Pow10(k + 3) == 10 * Pow10(k + 2);
    assert Pow10(k + 2) == 10 * Pow10(k + 1) && Pow10(k + 1) == 10 * Pow10(k);
  }

  /** A 128-bit number has at most 39 digits, so the printer's buffer is large enough. */
  lemma {:induction false} Uint128Digits(value: nat)
    requires value < UINT128
    ensures |Digits(value, 10)| <= 39
  {
    Pow10Steps(0); Pow10Steps(4); Pow10Steps(8); Pow10Steps(12); Pow10Steps(16);
    Pow10Steps(20); Pow10Steps(24); Pow10Steps(28); Pow10Steps(32);
    assert Pow10(39) == 10 * Pow10(38) && Pow10(38) == 10 * Pow10(37) && Pow10(37) == 10 * Pow10(36);
    DigitsFit(value, 39);
  }

  const BUFFER_SIZE: nat := 128

  lemma {:induction false} LastDigit(n: nat)
    ensures Digits(n, 10) == (if n / 10 == 0 then "" else Digits(n / 10, 10)) + [DigitChar(n % 10)]
  {
    if n >= 10 {
      DivShrinks(n, 10);
    }
  }

  /** The digits still to come, if any, before those stored. */
  predicate Printing(more: bool, tmp: nat, stored: string, value: nat)
  {
    (if more then Digits(tmp, 10) else "") + stored == Digits(value, 10)
  }

  lemma {:induction false} PrintDigit(tmp: nat, stored: string, value: nat)
    requires Printing(true, tmp, stored, value)
    ensures Printing(tmp / 10 != 0, tmp / 10, [DigitChar(tmp % 10)] + stored, value)
  {
    LastDigit(tmp);
    var c := DigitChar(tmp % 10);
    var front := if tmp / 10 != 0 then Digits(tmp / 10, 10) else "";
    assert (front + [c]) + stored == front + ([c] + stored);
  }

  lemma {:induction false} PrintedFits(tmp: nat, stored: string, value: nat)
    requires Printing(true, tmp, stored, value) && value < UINT128
    ensures |stored| < BUFFER_SIZE
  {
    Uint128Digits(value);
  }

  method StoreDigit(buffer: array<char>, d: nat, c: char)
    requires 1 <= d <= buffer.Length
    modifies buffer
    ensures buffer[d - 1..] == [c] + old(buffer[d..])
  {
    buffer[d - 1] := c;
  }

  /** The printer: digits are stored from the end of the buffer backwards, at least one. */
  method Uint128ToString(value: nat) returns (s: string)
    requires value < UINT128
    ensures s == Digits(value, 10)
  {
    var buffer := new char[BUFFER_SIZE];
    var d: nat := BUFFER_SIZE;
    var tmp: nat := value;
    var more := true;
    assert Digits(value, 10) + buffer[d..] == Digits(value, 10);
    while more
      invariant d <= BUFFER_SIZE && buffer.Length == BUFFER_SIZE && Printing(more, tmp, buffer[d..], value)
      decreases more, tmp
    {
      PrintDigit(tmp, buffer[d..], value);
      PrintedFits(tmp, buffer[d..], value);
      StoreDigit(buffer, d, DigitChar(tmp % 10));
      d := d - 1;
      tmp := tmp / 10;
      more := tmp != 0;
    }
    s := buffer[d..];
  }

  /** What the reader computes: every digit counts, anything else is skipped, and the result wraps. */
  function StoInt128(s: string): (n: nat)
    ensures n < UINT128
  {
    if s == "" then 0
    else
      var n := StoInt128(s[..|s| - 1]);
      if IsDigit(s[|s| - 1]) then ((n * 10) % UINT128 + DigitVal(s[|s| - 1])) % UINT128 else n
  }

  method StringToUint128(s: string) returns (res: nat)
    ensures res == StoInt128(s)
  {
    res := 0;
    for i := 0 to |s|
      invariant res == StoInt128(s[..i])
    {
      assert s[..i + 1][..i] == s[..i];
      if IsDigit(s[i]) {
        res := (res * 10) % UINT128;
        res := (res + DigitVal(s[i])) % UINT128;
      }
    }
    assert s[..|s|] == s;
  }

  lemma NoWrap(v: nat, d: nat)
    requires v * 10 + d < UINT128
    ensures ((v * 10) % UINT128 + d) % UINT128 == v * 10 + d
  {
  }

  lemma {:induction false} ReadsDigits(s: string)
    requires (forall k :: 0 <= k < |s| ==> IsDigit(s[k])) && ValueOf(s, 10) < UINT128
    ensures StoInt128(s) == ValueOf(s, 10)
    decreases |s|
  {
    if s != "" {
      var n := |s| - 1;
      var v := ValueOf(s[..n], 10);
      assert ValueOf(s, 10) == v * 10 + DigitVal(s[n]);
      ReadsDigits(s[..n]);
      NoWrap(v, DigitVal(s[n]));
    }
  }

  /** The reader inverts the printer on all 128-bit values, without wrapping. */
  lemma {:induction false} Uint128RoundTrip(value: nat)
    requires value < UINT128
    ensures StoInt128(Digits(value, 10)) == value
  {
    DigitsValue(value, 10);
    DigitsAreDigits(value, 10);
    ReadsDigits(Digits(value, 10));
  }

  // ---- Words and numbers on a line -----------------------------------------------------------------

  predicate IsSpace(c: char) { c == ' ' || 9 <= c as int <= 13 }

  predicate NotSpace(c: char) { !IsSpace(c) }

  /** Extraction of one word from a stream: leading white space is skipped. */
  function ReadWord(s: string): (string, string)
  {
    var from := s[Span(s, IsSpace)..];
    var n := Span(from, NotSpace);
    (from[..n], from[n..])
  }

  predicate Spaceless(s: string)
  {
    forall k :: 0 <= k < |s| ==> NotSpace(s[k])
  }

  lemma {:induction false} WordRead(gap: string, word: string, rest: string)
    requires (forall k :: 0 <= k < |gap| ==> IsSpace(gap[k])) && Spaceless(word)
    requires word == "" ==> rest == ""
    requires rest == "" || IsSpace(rest[0])
    ensures ReadWord(gap + (word + rest)) == (word, rest)
  {
    var s := gap + (word + rest);
    SpanIs(s, IsSpace, |gap|);
    assert s[|gap|..] == word + rest;
    SpanIs(word + rest, NotSpace, |word|);
    assert (word + rest)[..|word|] == word && (word + rest)[|word|..] == rest;
  }

  /** stol: an optional sign and digits, failing when there are none or the value does not fit. */
  function Stol(word: string): Option<int>
  {
    if word != "" && word[0] == '-' then StolDigits(true, word[1..])
    else if word != "" && word[0] == '+' then StolDigits(false, word[1..])
    else StolDigits(false, word)
  }

  function StolDigits(negative: bool, from: string): Option<int>
  {
    var n := Span(from, IsDigit);
    var magnitude: int := ValueOf(from[..n], 10);
    var value := if negative then -magnitude else magnitude;
    if n == 0 || !Int64Range(value) then None else Some(value)
  }

  lemma {:induction false} DigitsSpan(m: nat)
    ensures var digits := Digits(m, 10);
            && IsDigit(digits[0]) && Span(digits, IsDigit) == |digits| && digits[..|digits|] == digits
            && ValueOf(digits, 10) == m
  {
    DigitsValue(m, 10);
    DigitsAreDigits(m, 10);
    SpanIs(Digits(m, 10), IsDigit, |Digits(m, 10)|);
  }

  lemma {:induction false} PositiveReads(m: nat)
    ensures Stol(Digits(m, 10)) == if Int64Range(m) then Some(m) else None
  {
    DigitsSpan(m);
  }

  lemma {:induction false} NegativeReads(m: nat)
    ensures Stol("-" + Digits(m, 10)) == if Int64Range(0 - m) then Some(0 - m) else None
  {
    DigitsSpan(m);
    MinusFirst(Digits(m, 10));
  }

  lemma {:induction false} MinusFirst(digits: string)
    ensures Stol("-" + digits) == StolDigits(true, digits)
  {
    assert ("-" + digits)[1..] == digits;
  }

  /** The decimal text of a number reads back exactly when the number has at most 64 bits. */
  lemma {:induction false} StolReads(n: int)
    ensures Stol(Decimal(n)) == if Int64Range(n) then Some(n) else None
  {
    var text := Decimal(n);
    if n < 0 {
      assert text == "-" + Digits(-n, 10);
      NegativeReads(-n);
    } else {
      assert text == Digits(n, 10);
      PositiveReads(n);
    }
  }

  lemma {:induction false} DecimalSpaceless(n: int)
    ensures Spaceless(Decimal(n)) && Decimal(n) != ""
  {
    DigitsAreDigits(if n < 0 then -n else n, 10);
  }

  // ---- One edge on a line --------------------------------------------------------------------------

  datatype StoredEdge = StoredEdge(eId: int, n1: int, n2: int, relation: EdgeType, seqNum: nat, sess: int, ts: string)

  predicate InRange(e: StoredEdge)
  {
    Int64Range(e.eId) && Int64Range(e.n1) && Int64Range(e.n2) && Int64Range(e.sess) && e.seqNum < UINT128
  }

  /** StoreEdge, without the end of the line. */
  function EdgeLine(e: StoredEdge): string
  {
    Decimal(e.eId) + NodesText(e)
  }

  function NodesText(e: StoredEdge): string
  {
    " " + (Decimal(e.n1) + (" " + (Decimal(e.n2) + (" " + (Decimal(EdgeEnum2Int(e.relation)) + SeqText(e))))))
  }

  function SeqText(e: StoredEdge): string
  {
    " " + (Digits(e.seqNum, 10) + EndText(e))
  }

  function EndText(e: StoredEdge): string
  {
    " " + (Decimal(e.sess) + (" " + e.ts))
  }

  /** The cast from integers to relations; other integers name no relation. */
  function Int2EdgeEnum(n: int): Option<EdgeType>
  {
    if 0 <= n < |EDGE_TYPES| then Some(EDGE_TYPES[n]) else None
  }

  function ReadLong(s: string): Option<(int, string)>
  {
    var (word, rest) := ReadWord(s);
    match Stol(word)
    case None => None
    case Some(n) => Some((n, rest))
  }

  /** One line of KGLoadFromFile; a number that does not parse ends the program. */
  function LoadLine(line: string): Option<StoredEdge>
  {
    match ReadLong(line)
    case None => None
    case Some((eId, rest)) => LoadNodes(eId, rest)
  }

  function LoadNodes(eId: int, s: string): Option<StoredEdge>
  {
    match ReadLong(s)
    case None => None
    case Some((n1, r1)) =>
      match ReadLong(r1)
      case None => None
      case Some((n2, r2)) =>
        match ReadLong(r2)
        case None => None
        case Some((rel, r3)) => LoadSeq(eId, n1, n2, rel, r3)
  }

  function LoadSeq(eId: int, n1: int, n2: int, rel: int, s: string): Option<StoredEdge>
  {
    var (word, rest) := ReadWord(s);
    match Int2EdgeEnum(rel)
    case None => None
    case Some(relation) => LoadEnd(eId, n1, n2, relation, StoInt128(word), rest)
  }

  function LoadEnd(eId: int, n1: int, n2: int, relation: EdgeType, seqNum: nat, s: string): Option<StoredEdge>
  {
    match ReadLong(s)
    case None => None
    case Some((sess, rest)) => Some(StoredEdge(eId, n1, n2, relation, seqNum, sess, ReadWord(rest).0))
  }

  /** A number, preceded by a gap, in front of a space. */
  lemma {:induction false} LongRead(gap: string, n: int, rest: string)
    requires (gap == "" || gap == " ") && Int64Range(n) && (rest == "" || IsSpace(rest[0]))
    ensures ReadLong(gap + (Decimal(n) + rest)) == Some((n, rest))
  {
    DecimalSpaceless(n);
    WordRead(gap, Decimal(n), rest);
    StolReads(n);
  }

  lemma {:induction false} SeqRead(value: nat, rest: string)
    requires value < UINT128 && (rest == "" || IsSpace(rest[0]))
    ensures var (word, r) := ReadWord(" " + (Digits(value, 10) + rest)); StoInt128(word) == value && r == rest
  {
    DigitsAreDigits(value, 10);
    WordRead(" ", Digits(value, 10), rest);
    Uint128RoundTrip(value);
  }

  lemma {:induction false} EndLoads(e: StoredEdge)
    requires InRange(e)
    ensures LoadEnd(e.eId, e.n1, e.n2, e.relation, e.seqNum, EndText(e)) == Some(e.(ts := ReadWord(" " + e.ts).0))
  {
    LongRead(" ", e.sess, " " + e.ts);
  }

  lemma {:induction false} SeqLoads(e: StoredEdge)
    requires InRange(e)
    ensures LoadSeq(e.eId, e.n1, e.n2, EdgeEnum2Int(e.relation), SeqText(e)) ==
            LoadEnd(e.eId, e.n1, e.n2, e.relation, e.seqNum, EndText(e))
  {
    SeqRead(e.seqNum, EndText(e));
  }

  lemma {:induction false} NodesLoad(e: StoredEdge)
    requires InRange(e)
    ensures LoadNodes(e.eId, NodesText(e)) == LoadSeq(e.eId, e.n1, e.n2, EdgeEnum2Int(e.relation), SeqText(e))
  {
    var r2 := " " + (Decimal(EdgeEnum2Int(e.relation)) + SeqText(e));
    LongRead(" ", e.n1, " " + (Decimal(e.n2) + r2));
    LongRead(" ", e.n2, r2);
    LongRead(" ", EdgeEnum2Int(e.relation), SeqText(e));
  }

  /** Loading a stored line gives the edge back except for the timestamp, which is cut at the
      first white space. */
  lemma {:induction false} LineLoads(e: StoredEdge)
    requires InRange(e)
    ensures LoadLine(EdgeLine(e)) == Some(e.(ts := ReadWord(" " + e.ts).0))
  {
    assert "" + EdgeLine(e) == EdgeLine(e);
    LongRead("", e.eId, NodesText(e));
    NodesLoad(e);
    SeqLoads(e);
    EndLoads(e);
  }

  lemma {:induction false} TimestampSurvives(ts: string)
    ensures ReadWord(" " + ts).0 == ts <==> Spaceless(ts)
  {
    if Spaceless(ts) {
      assert " " + (ts + "") == " " + ts;
      WordRead(" ", ts, "");
    }
  }

  /** So an edge survives exactly when its timestamp holds no white space; it may be empty. */
  lemma {:induction false} LineRoundTrip(e: StoredEdge)
    requires InRange(e)
    ensures LoadLine(EdgeLine(e)) == Some(e) <==> Spaceless(e.ts)
  {
    LineLoads(e);
    TimestampSurvives(e.ts);
  }

  // ---- The whole file --------------------------------------------------------------------------------

  function Joined(lines: seq<string>): string
  {
    if lines == [] then "" else lines[0] + ("\n" + Joined(lines[1..]))
  }

  function EdgeLines(es: seq<StoredEdge>): seq<string>
  {
    seq(|es|, i requires 0 <= i < |es| => EdgeLine(es[i]))
  }

  /** The number of edges on the first line, then one line for each. */
  function FileText(es: seq<StoredEdge>): string
  {
    Decimal(|es|) + ("\n" + Joined(EdgeLines(es)))
  }

  /** getline: up to the newline, which is consumed. */
  function GetLine(s: string): (string, string)
  {
    var n := Span(s, NotNewline);
    (s[..n], if n < |s| then s[n + 1..] else "")
  }

  predicate OneLine(s: string)
  {
    forall k :: 0 <= k < |s| ==> NotNewline(s[k])
  }

  lemma {:induction false} LineGot(line: string, rest: string)
    requires OneLine(line)
    ensures GetLine(line + ("\n" + rest)) == (line, rest)
  {
    var s := line + ("\n" + rest);
    SpanIs(s, NotNewline, |line|);
    assert s[..|line|] == line && s[|line| + 1..] == rest;
  }

  /** The next edge of the file, and the rest of the file. */
  function NextEdge(s: string): Option<(StoredEdge, string)>
  {
    var (line, rest) := GetLine(s);
    match LoadLine(line)
    case None => None
    case Some(e) => Some((e, rest))
  }

  /** How the next edge is read: NextEdge, a parameter of the loop. */
  type Reader = string -> Option<(StoredEdge, string)>

  /** The loading loop, and GenKGEdgeTableWhenLoad. */
  function LoadEdges(next: Reader, count: nat, s: string, table: map<int, StoredEdge>): Option<map<int, StoredEdge>>
    decreases count
  {
    if count == 0 then Some(table)
    else
      match next(s)
      case None => None
      case Some((e, rest)) => LoadEdges(next, count - 1, rest, table[e.eId := e])
  }

  function LoadFile(text: string): Option<map<int, StoredEdge>>
  {
    var (line, rest) := GetLine(text);
    match Stol(line)
    case None => None
    case Some(n) => if !Int32Range(n) then None else LoadEdges(NextEdge, if n < 0 then 0 else n, rest, map[])
  }

  lemma {:induction false} OneLineJoin(a: string, b: string)
    requires Spaceless(a) && OneLine(b)
    ensures OneLine(a + b) && OneLine(" " + (a + b))
  {
    forall k | 0 <= k < |a|
      ensures NotNewline(a[k])
    {
      assert NotSpace(a[k]);
    }
  }

  lemma {:induction false} NoNewlines(e: StoredEdge)
    requires Spaceless(e.ts)
    ensures OneLine(EdgeLine(e))
  {
    DecimalSpaceless(e.eId);
    DecimalSpaceless(e.n1);
    DecimalSpaceless(e.n2);
    DecimalSpaceless(EdgeEnum2Int(e.relation));
    DecimalSpaceless(e.seqNum);
    DecimalSpaceless(e.sess);
    assert e.ts + "" == e.ts;
    OneLineJoin(e.ts, "");
    OneLineJoin(Decimal(e.sess), " " + e.ts);
    OneLineJoin(Decimal(e.seqNum), EndText(e));
    OneLineJoin(Decimal(EdgeEnum2Int(e.relation)), SeqText(e));
    OneLineJoin(Decimal(e.n2), " " + (Decimal(EdgeEnum2Int(e.relation)) + SeqText(e)));
    OneLineJoin(Decimal(e.n1), " " + (Decimal(e.n2) + (" " + (Decimal(EdgeEnum2Int(e.relation)) + SeqText(e)))));
    OneLineJoin(Decimal(e.eId), NodesText(e));
  }

  predicate Storable(e: StoredEdge) { InRange(e) && Spaceless(e.ts) }

  function TableOf(es: seq<StoredEdge>, table: map<int, StoredEdge>): map<int, StoredEdge>
  {
    if es == [] then table else TableOf(es[1..], table[es[0].eId := es[0]])
  }

  /** In front of anything, this line is read as this edge. */
  ghost predicate ReadsAs(next: Reader, line: string, e: StoredEdge)
  {
    forall rest :: next(line + ("\n" + rest)) == Some((e, rest))
  }

  lemma {:induction false} StoredReads(e: StoredEdge)
    requires Storable(e)
    ensures ReadsAs(NextEdge, EdgeLine(e), e)
  {
    forall rest
      ensures NextEdge(EdgeLine(e) + ("\n" + rest)) == Some((e, rest))
    {
      NoNewlines(e);
      LineGot(EdgeLine(e), rest);
      LineRoundTrip(e);
    }
  }

  lemma {:induction false} EdgesLoad(next: Reader, lines: seq<string>, es: seq<StoredEdge>, table: map<int, StoredEdge>)
    requires |lines| == |es| && forall i :: 0 <= i < |es| ==> ReadsAs(next, lines[i], es[i])
    ensures LoadEdges(next, |es|, Joined(lines), table) == Some(TableOf(es, table))
    decreases |es|
  {
    if es != [] {
      assert next(Joined(lines)) == Some((es[0], Joined(lines[1..])));
      EdgesLoad(next, lines[1..], es[1..], table[es[0].eId := es[0]]);
    }
  }

  /** The entries of a table in some iteration order. */
  ghost predicate Listing(table: map<int, StoredEdge>, es: seq<StoredEdge>)
  {
    && |es| == |table|
    && (forall i :: 0 <= i < |es| ==> es[i].eId in table && table[es[i].eId] == es[i])
    && (forall k | k in table :: table[k] in es)
  }

  lemma {:induction false} TableOfHas(es: seq<StoredEdge>, start: map<int, StoredEdge>, k: int)
    ensures k in TableOf(es, start) <==> k in start || exists i :: 0 <= i < |es| && es[i].eId == k
    ensures k in TableOf(es, start) ==>
              TableOf(es, start)[k] in es || (k in start && TableOf(es, start)[k] == start[k])
    decreases |es|
  {
    if es != [] {
      TableOfHas(es[1..], start[es[0].eId := es[0]], k);
      if i :| 0 <= i < |es[1..]| && es[1..][i].eId == k {
        assert es[i + 1].eId == k;
      }
      if i :| 0 <= i < |es| && es[i].eId == k {
        assert i > 0 ==> es[1..][i - 1].eId == k;
      }
    }
  }

  lemma {:induction false} ListingGivesTable(table: map<int, StoredEdge>, es: seq<StoredEdge>)
    requires Listing(table, es) && forall k | k in table :: table[k].eId == k
    ensures TableOf(es, map[]) == table
  {
    var t := TableOf(es, map[]);
    forall k: int
      ensures k in t <==> k in table
      ensures k in t ==> t[k] == table[k]
    {
      TableOfHas(es, map[], k);
      TableOfKeyed(es, map[], k);
      if k in table {
        var i :| 0 <= i < |es| && es[i] == table[k];
        assert es[i].eId == k;
      }
    }
  }

  lemma {:induction false} TableOfKeyed(es: seq<StoredEdge>, start: map<int, StoredEdge>, k: int)
    requires forall j | j in start :: start[j].eId == j
    ensures k in TableOf(es, start) ==> TableOf(es, start)[k].eId == k
    decreases |es|
  {
    if es != [] {
      TableOfKeyed(es[1..], start[es[0].eId := es[0]], k);
    }
  }

  lemma {:induction false} WordSpaceless(s: string)
    ensures Spaceless(ReadWord(s).0)
  {
  }

  lemma {:induction false} EndSpaceless(eId: int, n1: int, n2: int, relation: EdgeType, seqNum: nat, s: string)
    ensures var r := LoadEnd(eId, n1, n2, relation, seqNum, s); r.Some? ==> Spaceless(r.value.ts)
  {
    if ReadLong(s).Some? {
      WordSpaceless(ReadLong(s).value.1);
    }
  }

  lemma {:induction false} SeqSpaceless(eId: int, n1: int, n2: int, rel: int, s: string)
    ensures var r := LoadSeq(eId, n1, n2, rel, s); r.Some? ==> Spaceless(r.value.ts)
  {
    if Int2EdgeEnum(rel).Some? {
      var (word, rest) := ReadWord(s);
      EndSpaceless(eId, n1, n2, Int2EdgeEnum(rel).value, StoInt128(word), rest);
    }
  }

  lemma {:induction false} NodesSpaceless(eId: int, s: string)
    ensures var r := LoadNodes(eId, s); r.Some? ==> Spaceless(r.value.ts)
  {
    match ReadLong(s)
    case None =>
    case Some((n1, r1)) =>
      match ReadLong(r1)
      case None =>
      case Some((n2, r2)) =>
        match ReadLong(r2)
        case None =>
        case Some((rel, r3)) => SeqSpaceless(eId, n1, n2, rel, r3);
  }

  /** No timestamp that is loaded holds white space, whatever the line. */
  lemma {:induction false} LoadedSpaceless(s: string)
    ensures NextEdge(s).Some? ==> Spaceless(NextEdge(s).value.0.ts)
  {
    var line := GetLine(s).0;
    if ReadLong(line).Some? {
      NodesSpaceless(ReadLong(line).value.0, ReadLong(line).value.1);
    }
  }

  predicate AllSpaceless(table: map<int, StoredEdge>)
  {
    forall k | k in table :: Spaceless(table[k].ts)
  }

  ghost predicate ReadsSpaceless(next: Reader)
  {
    forall s :: next(s).Some? ==> Spaceless(next(s).value.0.ts)
  }

  lemma {:induction false} LoadedAllSpaceless(next: Reader, count: nat, s: string, start: map<int, StoredEdge>)
    requires AllSpaceless(start) && ReadsSpaceless(next)
    ensures var r := LoadEdges(next, count, s, start); r.Some? ==> AllSpaceless(r.value)
    decreases count
  {
    if count > 0 && next(s).Some? {
      var (e, rest) := next(s).value;
      LoadedAllSpaceless(next, count - 1, rest, start[e.eId := e]);
    }
  }

  lemma {:induction false} NextSpaceless()
    ensures ReadsSpaceless(NextEdge)
  {
    forall s
      ensures NextEdge(s).Some? ==> Spaceless(NextEdge(s).value.0.ts)
    {
      LoadedSpaceless(s);
    }
  }

  /** The file round trip: whatever order the table is stored in, loading the file gives the table
      back exactly when the number of edges has at most 32 bits, sign included, and no timestamp holds
      white space. A newline in one moves all lines after it, but no later line makes up for that. */
  lemma {:induction false} FileRoundTrip(table: map<int, StoredEdge>, es: seq<StoredEdge>)
    requires Listing(table, es) && forall k | k in table :: table[k].eId == k && InRange(table[k])
    ensures LoadFile(FileText(es)) == Some(table) <==> |table| < 0x8000_0000 && AllSpaceless(table)
  {
    HeaderLoads(|es|, Joined(EdgeLines(es)));
    EdgesLoadTable(table, es);
  }

  lemma {:induction false} HeaderLoads(n: nat, rest: string)
    ensures LoadFile(Decimal(n) + ("\n" + rest)) ==
            if n < 0x8000_0000 then LoadEdges(NextEdge, n, rest, map[]) else None
  {
    DecimalSpaceless(n);
    assert Decimal(n) + "" == Decimal(n);
    OneLineJoin(Decimal(n), "");
    LineGot(Decimal(n), rest);
    StolReads(n);
  }

  // ---- Storing and loading ---------------------------------------------------------------------------

  lemma {:induction false} JoinedSnoc(lines: seq<string>, line: string)
    ensures Joined(lines + [line]) == Joined(lines) + (line + "\n")
    decreases |lines|
  {
    if lines == [] {
      assert [] + [line] == [line] && Joined([line][1..]) == "" && "\n" + "" == "\n";
      assert "" + (line + "\n") == line + "\n";
    } else {
      JoinedSnoc(lines[1..], line);
      assert (lines + [line])[1..] == lines[1..] + [line];
      JoinedAssoc(lines[0], Joined(lines[1..]), line + "\n");
    }
  }

  lemma {:induction false} JoinedAssoc(a: string, b: string, c: string)
    ensures a + ("\n" + (b + c)) == (a + ("\n" + b)) + c
  {
  }

  lemma {:induction false} LinesNext(es: seq<StoredEdge>, e: StoredEdge)
    ensures EdgeLines(es + [e]) == EdgeLines(es) + [EdgeLine(e)]
  {
  }

  ghost predicate ListedSoFar(table: map<int, StoredEdge>, todo: set<int>, es: seq<StoredEdge>)
  {
    && todo <= table.Keys && |es| + |todo| == |table.Keys|
    && (forall i :: 0 <= i < |es| ==> es[i].eId in table && table[es[i].eId] == es[i])
    && (forall k | k in table && k !in todo :: table[k] in es)
  }

  lemma {:induction false} ListedNext(table: map<int, StoredEdge>, todo: set<int>, es: seq<StoredEdge>, k: int)
    requires ListedSoFar(table, todo, es) && k in todo && k in table && table[k].eId == k
    ensures ListedSoFar(table, todo - {k}, es + [table[k]])
  {
    forall j | j in table && j !in todo - {k}
      ensures table[j] in es + [table[k]]
    {
      assert j == k || table[j] in es;
    }
  }

  /** Writes the edges of the table in some order. */
  method StoreEdge(table: map<int, StoredEdge>) returns (text: string, ghost es: seq<StoredEdge>)
    requires forall k | k in table :: table[k].eId == k
    ensures Listing(table, es) && text == Joined(EdgeLines(es))
  {
    text, es := "", [];
    var todo := table.Keys;
    while todo != {}
      invariant ListedSoFar(table, todo, es) && text == Joined(EdgeLines(es))
      decreases todo
    {
      var k := Pick(todo);
      ListedNext(table, todo, es, k);
      LinesNext(es, table[k]);
      JoinedSnoc(EdgeLines(es), EdgeLine(table[k]));
      text := text + (EdgeLine(table[k]) + "\n");
      es := es + [table[k]];
      todo := todo - {k};
    }
  }

  /** The loading loop over the lines. */
  method LoadLines(next: Reader, count: nat, s: string) returns (r: Option<map<int, StoredEdge>>)
    ensures r == LoadEdges(next, count, s, map[])
  {
    var table: map<int, StoredEdge> := map[];
    var rest, left := s, count;
    while left > 0
      invariant LoadEdges(next, left, rest, table) == LoadEdges(next, count, s, map[])
      decreases left
    {
      match next(rest)
      case None => return None;
      case Some((e, more)) => table, rest, left := table[e.eId := e], more, left - 1;
    }
    r := Some(table);
  }

  /** Reads the number of edges, then that many lines. */
  method LoadText(text: string) returns (r: Option<map<int, StoredEdge>>)
    ensures r == LoadFile(text)
  {
    var (line, rest) := GetLine(text);
    match Stol(line)
    case None => return None;
    case Some(n) =>
      if !Int32Range(n) {
        return None;
      }
      r := LoadLines(NextEdge, if n < 0 then 0 else n, rest);
  }

  /** Storing and loading again. */
  method StoreAndLoad(table: map<int, StoredEdge>) returns (r: Option<map<int, StoredEdge>>)
    requires forall k | k in table :: table[k].eId == k && InRange(table[k])
    ensures r == Some(table) <==> |table| < 0x8000_0000 && AllSpaceless(table)
  {
    ghost var es;
    var lines;
    lines, es := StoreEdge(table);
    FileRoundTrip(table, es);
    r := LoadText(Decimal(|table|) + ("\n" + lines));
  }

  lemma {:induction false} EdgesLoadTable(table: map<int, StoredEdge>, es: seq<StoredEdge>)
    requires Listing(table, es) && forall k | k in table :: table[k].eId == k && InRange(table[k])
    ensures LoadEdges(NextEdge, |table|, Joined(EdgeLines(es)), map[]) == Some(table) <==> AllSpaceless(table)
  {
    if AllSpaceless(table) {
      SpacelessLoad(table, es);
    } else {
      NextSpaceless();
      LoadedAllSpaceless(NextEdge, |table|, Joined(EdgeLines(es)), map[]);
    }
  }

  lemma {:induction false} SpacelessLoad(table: map<int, StoredEdge>, es: seq<StoredEdge>)
    requires Listing(table, es) && forall k | k in table :: table[k].eId == k && Storable(table[k])
    ensures LoadEdges(NextEdge, |table|, Joined(EdgeLines(es)), map[]) == Some(table)
  {
    forall i | 0 <= i < |es|
      ensures ReadsAs(NextEdge, EdgeLines(es)[i], es[i])
    {
      assert table[es[i].eId] == es[i];
      StoredReads(es[i]);
    }
    EdgesLoad(NextEdge, EdgeLines(es), es, map[]);
    ListingGivesTable(table, es);
  }
}
