/** Configuration settings as values, and which of them the text format can carry. */
module ConfigTree {
  import opened Basics

  datatype Format = Plain | Hex

  /** A setting without its name. Booleans carry the integer the program stored. */
  datatype Value =
    | Bool(ival: int)
    | Int(i: int, format: Format)
    | Int64(l: int, format: Format)
    | Str(s: string)
    | Group(members: seq<Member>)
    | Array(elems: seq<Value>)
    | List(elems: seq<Value>)

  datatype Member = Member(name: string, value: Value)

  // ---- Names -------------------------------------------------------------------------------------

  predicate IsAlpha(c: char) { 'A' <= c <= 'Z' || 'a' <= c <= 'z' }

  predicate NameStart(c: char) { IsAlpha(c) || c == '*' }

  predicate NameChar(c: char) { NameStart(c) || '0' <= c <= '9' || c == '_' || c == '-' }

  /** __config_validate_name */
  predicate ValidName(name: string)
  {
    name != "" && NameStart(name[0]) && forall k :: 1 <= k < |name| ==> NameChar(name[k])
  }

  predicate PathToken(c: char) { c == ':' || c == '.' || c == '/' }

  /** __config_name_compare: names are compared up to the first path separator. */
  function NameCompare(a: string, b: string): int
    decreases |a|
  {
    var aDone, bDone := a == "" || PathToken(a[0]), b == "" || PathToken(b[0]);
    if aDone && bDone then 0
    else if aDone then -1
    else if bDone then 1
    else if a[0] < b[0] then -1
    else if a[0] > b[0] then 1
    else NameCompare(a[1..], b[1..])
  }

  predicate NoPathTokens(a: string)
  {
    forall k :: 0 <= k < |a| ==> !PathToken(a[k])
  }

  /** For names without separators, which valid names are, it decides equality. */
  lemma {:induction false} NameCompareEqual(a: string, b: string)
    requires NoPathTokens(a) && NoPathTokens(b)
    ensures NameCompare(a, b) == 0 <==> a == b
    decreases |a|
  {
    if a != "" && b != "" && a[0] == b[0] {
      NameCompareEqual(a[1..], b[1..]);
      assert a == [a[0]] + a[1..] && b == [b[0]] + b[1..];
    }
  }

  function Lower(c: char): char
  {
    if 'A' <= c <= 'Z' then c - 'A' + 'a' else c
  }

  /** Spelled like `word`, in any mixture of cases. */
  predicate Spells(name: string, word: string)
  {
    |name| == |word| && forall k :: 0 <= k < |name| ==> Lower(name[k]) == word[k]
  }

  predicate BooleanWord(name: string) { Spells(name, "true") || Spells(name, "false") }

  // ---- What a program can store, and what can be read back ------------------------------------------------------

  predicate Scalar(v: Value) { v.Bool? || v.Int? || v.Int64? || v.Str? }

  /** Scalars of one type: what the elements of an array are. */
  predicate SameType(v: Value, w: Value)
  {
    (v.Bool? && w.Bool?) || (v.Int? && w.Int?) || (v.Int64? && w.Int64?) || (v.Str? && w.Str?)
  }

  predicate Bytes(s: string)
  {
    forall k :: 0 <= k < |s| ==> 1 <= s[k] as int <= 255
  }

  predicate UniqueNames(members: seq<Member>)
  {
    forall i, j :: 0 <= i < j < |members| ==> members[i].name != members[j].name
  }

  predicate Homogeneous(elems: seq<Value>)
  {
    forall i :: 0 <= i < |elems| ==> Scalar(elems[i]) && SameType(elems[0], elems[i])
  }

  /** What the library accepts from a program: valid names, no two alike in a group, values in range. */
  predicate WellFormed(v: Value)
  {
    match v
    case Bool(n) => n == 0 || n == 1
    case Int(n, _) => Int32Range(n)
    case Int64(n, _) => Int64Range(n)
    case Str(s) => Bytes(s)
    case Group(members) => UniqueNames(members) && WellFormedMembers(members)
    case Array(elems) => Homogeneous(elems) && WellFormedAll(elems)
    case List(elems) => WellFormedAll(elems)
  }

  predicate WellFormedAll(elems: seq<Value>)
  {
    elems == [] || (WellFormed(elems[0]) && WellFormedAll(elems[1..]))
  }

  predicate WellFormedMembers(members: seq<Member>)
  {
    members == [] ||
    (ValidName(members[0].name) && WellFormed(members[0].value) && WellFormedMembers(members[1..]))
  }

  /** No setting, at any depth, has a name that spells a boolean. */
  predicate Readable(v: Value)
  {
    match v
    case Group(members) => ReadableMembers(members)
    case Array(elems) => ReadableAll(elems)
    case List(elems) => ReadableAll(elems)
    case _ => true
  }

  predicate ReadableAll(elems: seq<Value>)
  {
    elems == [] || (Readable(elems[0]) && ReadableAll(elems[1..]))
  }

  predicate ReadableMembers(members: seq<Member>)
  {
    members == [] ||
    (!BooleanWord(members[0].name) && Readable(members[0].value) && ReadableMembers(members[1..]))
  }

  // ---- Integer formats ------------------------------------------------------------------------

  /** config_setting_get_format: an unset format means the configuration's default. */
  function Effective(format: Format, default: Format): Format
  {
    if format == Plain then default else format
  }

  /** The same settings with the formats they are written in. */
  function Normalized(v: Value, default: Format): Value
  {
    match v
    case Int(n, f) => Int(n, Effective(f, default))
    case Int64(n, f) => Int64(n, Effective(f, default))
    case Group(members) => Group(NormalizedMembers(members, default))
    case Array(elems) => Array(NormalizedAll(elems, default))
    case List(elems) => List(NormalizedAll(elems, default))
    case _ => v
  }

  function NormalizedAll(elems: seq<Value>, default: Format): (r: seq<Value>)
    ensures |r| == |elems|
  {
    if elems == [] then [] else [Normalized(elems[0], default)] + NormalizedAll(elems[1..], default)
  }

  function NormalizedMembers(members: seq<Member>, default: Format): (r: seq<Member>)
    ensures |r| == |members|
  {
    if members == [] then []
    else [Member(members[0].name, Normalized(members[0].value, default))] + NormalizedMembers(members[1..], default)
  }

  /** Under the default default nothing changes. */
  lemma {:induction false} PlainDefault(v: Value)
    ensures Normalized(v, Plain) == v
    decreases v, 0
  {
    match v
    case Group(members) => PlainDefaultMembers(members);
    case Array(elems) => PlainDefaultAll(elems);
    case List(elems) => PlainDefaultAll(elems);
    case _ =>
  }

  lemma {:induction false} PlainDefaultAll(elems: seq<Value>)
    ensures NormalizedAll(elems, Plain) == elems
    decreases elems, 1
  {
    if elems != [] {
      PlainDefault(elems[0]);
      PlainDefaultAll(elems[1..]);
    }
  }

  lemma {:induction false} PlainDefaultMembers(members: seq<Member>)
    ensures NormalizedMembers(members, Plain) == members
    decreases members, 1
  {
    if members != [] {
      PlainDefault(members[0].value);
      PlainDefaultMembers(members[1..]);
    }
  }
}
