/** Writing a configuration: the text as a function of the settings, and the stream writer that
    produces it piece by piece. */
module ConfigWriter {
  import opened Basics
  import opened Numerals
  import opened ConfigTree

  datatype Options = Options(semicolons: bool, colonGroups: bool, colonOthers: bool, braceOnLine: bool,
                             tabWidth: nat, default: Format)

  // ---- The text ------------------------------------------------------------------------------------

  /** "0x%X" and "0x%llX" print the two's complement bits. */
  function HexText(n: int, modulus: int): string
    requires -modulus <= n < modulus
  {
    "0x" + Digits(if n < 0 then n + modulus else n, 16)
  }

  function IntText(n: int, format: Format): string
    requires Int32Range(n)
  {
    if format == Hex then HexText(n, 0x1_0000_0000) else Decimal(n)
  }

  function Int64Text(n: int, format: Format): string
    requires Int64Range(n)
  {
    (if format == Hex then HexText(n, 0x1_0000_0000_0000_0000) else Decimal(n)) + "L"
  }

  function EscapeChar(c: char): string
  {
    if c == '\"' || c == '\\' then ['\\', c]
    else if c == '\n' then "\\n"
    else if c == '\r' then "\\r"
    else if c as int == 12 then "\\f"
    else if c == '\t' then "\\t"
    else if c >= ' ' then [c]
    else ['\\', 'x', DigitChar(c as nat / 16), DigitChar(c as nat % 16)]
  }

  function EscapeAll(s: string): string
  {
    if s == "" then "" else EscapeChar(s[0]) + EscapeAll(s[1..])
  }

  function Quoted(s: string): string
  {
    "\"" + EscapeAll(s) + "\""
  }

  function Fill(c: char, n: nat): (s: string)
    ensures |s| == n && forall k :: 0 <= k < n ==> s[k] == c
  {
    seq(n, _ => c)
  }

  /** __config_indent, called for depths above one only. */
  function Indent(depth: nat, w: nat): string
    requires depth > 1
  {
    if w > 0 then Fill(' ', (depth - 1) * w) else Fill('\t', depth - 1)
  }

  function DeepIndent(o: Options, depth: nat): string
  {
    if depth > 1 then Indent(depth, o.tabWidth) else ""
  }

  function AssignText(o: Options, v: Value): string
  {
    var colon := if v.Group? then o.colonGroups else o.colonOthers;
    if colon then " : " else " = "
  }

  function EndText(o: Options): string
  {
    if o.semicolons then ";\n" else "\n"
  }

  function OpenText(o: Options, depth: nat): string
  {
    if depth == 0 then "" else (if o.braceOnLine then "\n" + DeepIndent(o, depth) else "") + "{\n"
  }

  function CloseText(o: Options, depth: nat): string
  {
    DeepIndent(o, depth) + (if depth > 0 then "}" else "")
  }

  function ValueText(o: Options, v: Value, depth: nat): string
    requires WellFormed(v)
    decreases v, 0
  {
    match v
    case Bool(n) => if n != 0 then "true" else "false"
    case Int(n, f) => IntText(n, Effective(f, o.default))
    case Int64(n, f) => Int64Text(n, Effective(f, o.default))
    case Str(s) => Quoted(s)
    case List(elems) => "( " + ElemsText(o, elems, depth + 1) + ")"
    case Array(elems) => "[ " + ElemsText(o, elems, depth + 1) + "]"
    case Group(members) => OpenText(o, depth) + MembersText(o, members, depth + 1) + CloseText(o, depth)
  }

  function ElemsText(o: Options, elems: seq<Value>, depth: nat): string
    requires WellFormedAll(elems)
    decreases elems, 1
  {
    if elems == [] then ""
    else ValueText(o, elems[0], depth) + (if |elems| > 1 then ", " else " ") + ElemsText(o, elems[1..], depth)
  }

  function MembersText(o: Options, members: seq<Member>, depth: nat): string
    requires WellFormedMembers(members)
    decreases members, 1
  {
    if members == [] then ""
    else SettingText(o, members[0].name, members[0].value, depth) + MembersText(o, members[1..], depth)
  }

  /** One named setting, on a line of its own. */
  function SettingText(o: Options, name: string, v: Value, depth: nat): string
    requires WellFormed(v)
    decreases v, 1
  {
    DeepIndent(o, depth) + name + AssignText(o, v) + ValueText(o, v, depth) + EndText(o)
  }

  /** config_write: the root group at depth zero. */
  function ConfigText(o: Options, root: Value): string
    requires WellFormed(root)
  {
    ValueText(o, root, 0)
  }

  // ---- The stream writer -----------------------------------------------------------------------------

  class Writer {
    const o: Options
    var text: string

    constructor (o: Options)
      ensures this.o == o && text == ""
    {
      this.o, text := o, "";
    }

    method Put(s: string)
      modifies this
      ensures text == old(text) + s
    {
      text := text + s;
    }

    method PutIndent(depth: nat)
      requires depth > 1
      modifies this
      ensures text == old(text) + Indent(depth, o.tabWidth)
    {
      if o.tabWidth > 0 {
        Put(Fill(' ', (depth - 1) * o.tabWidth));
      } else {
        for i := 0 to depth - 1
          invariant text == old(text) + Fill('\t', i)
        {
          assert Fill('\t', i + 1) == Fill('\t', i) + "\t";
          assert old(text) + Fill('\t', i) + "\t" == old(text) + (Fill('\t', i) + "\t");
          Put("\t");
        }
      }
    }

    method PutString(s: string)
      modifies this
      ensures text == old(text) + Quoted(s)
    {
      Put("\"");
      for i := 0 to |s|
        invariant text + EscapeAll(s[i..]) == old(text) + "\"" + EscapeAll(s)
      {
        assert s[i..][1..] == s[i + 1..];
        assert text + (EscapeChar(s[i]) + EscapeAll(s[i + 1..])) == (text + EscapeChar(s[i])) + EscapeAll(s[i + 1..]);
        Put(EscapeChar(s[i]));
      }
      assert s[|s|..] == "" && text + "" == text;
      assert old(text) + "\"" + EscapeAll(s) + "\"" == old(text) + Quoted(s);
      Put("\"");
    }

    method WriteValue(v: Value, depth: nat)
      requires WellFormed(v)
      modifies this
      ensures text == old(text) + ValueText(o, v, depth)
      decreases v, 0
    {
      match v
      case Bool(n) => Put(if n != 0 then "true" else "false");
      case Int(n, f) => Put(IntText(n, Effective(f, o.default)));
      case Int64(n, f) => Put(Int64Text(n, Effective(f, o.default)));
      case Str(s) => PutString(s);
      case List(elems) =>
        Put("( ");
        WriteElems(elems, depth + 1);
        Put(")");
        Joined(old(text), "( ", ElemsText(o, elems, depth + 1), ")");
      case Array(elems) =>
        Put("[ ");
        WriteElems(elems, depth + 1);
        Put("]");
        Joined(old(text), "[ ", ElemsText(o, elems, depth + 1), "]");
      case Group(members) => WriteGroup(v, members, depth);
    }

    method WriteGroup(v: Value, members: seq<Member>, depth: nat)
      requires v == Group(members) && WellFormed(v)
      modifies this
      ensures text == old(text) + ValueText(o, v, depth)
      decreases members, 2
    {
      WriteOpen(depth);
      WriteMembers(members, depth + 1);
      WriteClose(depth);
      Joined(old(text), OpenText(o, depth), MembersText(o, members, depth + 1), CloseText(o, depth));
    }

    method WriteOpen(depth: nat)
      modifies this
      ensures text == old(text) + OpenText(o, depth)
    {
      if depth > 0 {
        if o.braceOnLine {
          Put("\n");
          if depth > 1 {
            PutIndent(depth);
          }
        }
        Put("{\n");
        Joined(old(text), "\n", DeepIndent(o, depth), "{\n");
      }
    }

    method WriteClose(depth: nat)
      modifies this
      ensures text == old(text) + CloseText(o, depth)
    {
      if depth > 1 {
        PutIndent(depth);
      }
      if depth > 0 {
        Put("}");
      }
    }

    method WriteElems(elems: seq<Value>, depth: nat)
      requires WellFormedAll(elems)
      modifies this
      ensures text == old(text) + ElemsText(o, elems, depth)
      decreases elems, 1
    {
      var i := 0;
      while i < |elems|
        invariant 0 <= i <= |elems| && WellFormedAll(elems[i..])
        invariant text + ElemsText(o, elems[i..], depth) == old(text) + ElemsText(o, elems, depth)
      {
        ghost var t, rest := text, elems[i..];
        var e := elems[i];
        assert rest[0] == e && rest[1..] == elems[i + 1..];
        WriteValue(e, depth);
        PutSeparator(i + 1 < |elems|);
        Joined(t, ValueText(o, e, depth), if |rest| > 1 then ", " else " ", ElemsText(o, rest[1..], depth));
        i := i + 1;
      }
      assert elems[i..] == [] && text + "" == text;
    }

    method PutSeparator(more: bool)
      modifies this
      ensures text == old(text) + (if more then ", " else " ")
    {
      if more {
        Put(",");
      }
      Put(" ");
      assert "," + " " == ", ";
    }

    method WriteMembers(members: seq<Member>, depth: nat)
      requires WellFormedMembers(members) && depth > 0
      modifies this
      ensures text == old(text) + MembersText(o, members, depth)
      decreases members, 1
    {
      var i := 0;
      while i < |members|
        invariant 0 <= i <= |members| && WellFormedMembers(members[i..])
        invariant text + MembersText(o, members[i..], depth) == old(text) + MembersText(o, members, depth)
      {
        ghost var t, rest := text, members[i..];
        var m := members[i];
        assert rest[0] == m && rest[1..] == members[i + 1..];
        WriteSetting(m.name, m.value, depth);
        Joined(t, SettingText(o, m.name, m.value, depth), "", MembersText(o, rest[1..], depth));
        assert t + SettingText(o, m.name, m.value, depth) + "" == t + SettingText(o, m.name, m.value, depth);
        assert SettingText(o, m.name, m.value, depth) + "" == SettingText(o, m.name, m.value, depth);
        i := i + 1;
      }
      assert members[i..] == [] && text + "" == text;
    }

    /** Indentation, name and sign of assignment. */
    method PutHead(name: string, v: Value, depth: nat)
      requires depth > 0
      modifies this
      ensures text == old(text) + (DeepIndent(o, depth) + name + AssignText(o, v))
    {
      ghost var t := text;
      if depth > 1 {
        PutIndent(depth);
      }
      Put(name);
      Put(AssignText(o, v));
      Joined(t, DeepIndent(o, depth), name, AssignText(o, v));
    }

    method WriteSetting(name: string, v: Value, depth: nat)
      requires WellFormed(v) && depth > 0
      modifies this
      ensures text == old(text) + SettingText(o, name, v, depth)
      decreases v, 1
    {
      ghost var t := text;
      PutHead(name, v, depth);
      WriteValue(v, depth);
      PutEnd();
      Joined(t, DeepIndent(o, depth) + name + AssignText(o, v), ValueText(o, v, depth), EndText(o));
    }

    /** config_write: the root has no name, no braces and no terminator. */
    method WriteConfig(root: Value)
      requires WellFormed(root) && text == ""
      modifies this
      ensures text == ConfigText(o, root)
    {
      WriteValue(root, 0);
    }

    method PutEnd()
      modifies this
      ensures text == old(text) + EndText(o)
    {
      if o.semicolons {
        Put(";");
      }
      Put("\n");
      assert ";" + "\n" == ";\n";
    }

    static lemma Joined(t: string, a: string, b: string, c: string)
      ensures t + a + b + c == t + (a + b + c)
    {
    }
  }
}
