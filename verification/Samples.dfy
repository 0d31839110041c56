/** The text formats on examples, character by character: the round trips hold for formats that look
    like this. */
module Samples {
  import opened Basics
  import opened Records
  import opened Numerals
  import opened ConfigTree
  import opened ConfigWriter
  import E = EdgeFile

  /** The fields of an edge in their order, one space between them, the relation by its number. */
  lemma EdgeFields(e: E.StoredEdge, rel: string, seqNum: string)
    requires rel == Decimal(EdgeEnum2Int(e.relation)) && seqNum == Digits(e.seqNum, 10)
    ensures E.EdgeLine(e) ==
            Decimal(e.eId) + (" " + (Decimal(e.n1) + (" " + (Decimal(e.n2) + (" " + (rel +
            (" " + (seqNum + (" " + (Decimal(e.sess) + (" " + e.ts)))))))))))
  {
  }

  lemma OneLineJoined(line: string)
    ensures E.Joined([line]) == line + "\n"
  {
    assert E.Joined([line]) == line + ("\n" + E.Joined([]));
    assert "\n" + "" == "\n";
  }

  /** The number of edges, and a line for each. */
  lemma FileSample(e: E.StoredEdge)
    ensures E.FileText([e]) == "1" + ("\n" + (E.EdgeLine(e) + "\n"))
  {
    var line := E.EdgeLine(e);
    assert E.EdgeLines([e]) == [line];
    OneLineJoined(line);
  }

  const PLAIN := Options(true, false, false, false, 2, Plain)

  lemma BoolSamples()
    ensures ValueText(PLAIN, Bool(1), 1) == "true" && ValueText(PLAIN, Bool(0), 1) == "false"
  {
  }

  lemma IntSamples()
    ensures ValueText(PLAIN, Int(-12, Plain), 1) == "-12" && ValueText(PLAIN, Int(31, Hex), 1) == "0x1F"
    ensures ValueText(PLAIN, Int64(7, Plain), 1) == "7L" && ValueText(PLAIN, Int64(31, Hex), 1) == "0x1FL"
  {
    assert Digits(12, 10) == "12" && Digits(31, 16) == "1F";
  }

  lemma StringSample()
    ensures Quoted("a\"\n") == "\"a\\\"\\n\""
  {
    assert "a\"\n"[1..] == "\"\n" && "\"\n"[1..] == "\n" && "\n"[1..] == "";
    assert EscapeAll("\n") == "\\n";
    assert EscapeAll("\"\n") == "\\\"\\n";
  }

  lemma SettingSample()
    ensures SettingText(PLAIN, "n", Bool(1), 1) == "n = true;\n"
    ensures SettingText(PLAIN, "n", Bool(1), 3) == "    n = true;\n"
  {
    BoolSamples();
    assert Fill(' ', 4) == "    ";
  }

  lemma ElementSamples()
    ensures ValueText(PLAIN, List([Bool(1), Bool(0)]), 1) == "( true, false )"
    ensures ValueText(PLAIN, Array([Bool(1), Bool(0)]), 1) == "[ true, false ]"
  {
    var es := [Bool(1), Bool(0)];
    assert es[1..] == [Bool(0)] && es[1..][1..] == [];
    assert ElemsText(PLAIN, es[1..], 2) == "false ";
    assert ElemsText(PLAIN, es, 2) == "true, false ";
  }

  lemma GroupSample()
    ensures ValueText(PLAIN, Group([Member("n", Bool(1))]), 1) == "{\n  n = true;\n}"
  {
    var ms := [Member("n", Bool(1))];
    assert ms[1..] == [];
    assert Fill(' ', 2) == "  ";
    assert SettingText(PLAIN, "n", Bool(1), 2) == "  n = true;\n";
    assert MembersText(PLAIN, ms, 2) == "  n = true;\n";
  }

  /** Names start with a letter or a star; digits, underscores and dashes may follow. */
  lemma NameSamples()
    ensures ValidName("az*AZ_-09") && ValidName("*")
    ensures !ValidName("") && !ValidName("9a") && !ValidName("_a") && !ValidName("-a")
    ensures !ValidName("a.b") && !ValidName("a b") && !ValidName("a:b")
  {
    assert "a.b"[1] == '.' && "a b"[1] == ' ' && "a:b"[1] == ':';
  }
}
