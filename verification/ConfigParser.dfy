/** Parsing a configuration: the grammar, and its actions on the settings under construction. */
module ConfigParser {
  import opened Basics
  import opened Numerals
  import opened ConfigTree
  import opened ConfigScanner

  /** What a setting holds. `Unset` is the type a named setting has until its value is seen. */
  datatype Content = Unset | Leaf(v: Value) | FloatLeaf(text: string) | GroupC | ArrayC | ListC

  /** A setting in memory. Pointers to settings are positions in the pool of settings. */
  datatype Node = Node(name: Option<string>, content: Content, kids: seq<nat>, parent: nat)

  /** The parse context: the aggregate under construction, and the setting whose value comes next. */
  datatype Ctx = Ctx(pool: seq<Node>, parent: nat, setting: Option<nat>)
  {
    predicate Valid()
    {
      && parent < |pool| && (setting.Some? ==> setting.value < |pool|)
      && (forall k :: 0 <= k < |pool| ==> pool[k].parent < |pool|)
      && (forall k, j :: 0 <= k < |pool| && 0 <= j < |pool[k].kids| ==> pool[k].kids[j] < |pool|)
    }

    predicate InArray()
      requires Valid()
    {
      pool[parent].content.ArrayC?
    }

    predicate InList()
      requires Valid()
    {
      pool[parent].content.ListC?
    }
  }

  const START := Ctx([Node(None, GroupC, [], 0)], 0, Some(0))

  // ---- The library functions the actions call ------------------------------------------------------

  predicate Aggregate(content: Content) { content.GroupC? || content.ArrayC? || content.ListC? }

  predicate ScalarContent(content: Content) { content.Leaf? || content.FloatLeaf? }

  predicate SameContentType(a: Content, b: Content)
  {
    (a.FloatLeaf? && b.FloatLeaf?) || (a.Leaf? && b.Leaf? && SameType(a.v, b.v))
  }

  /** config_setting_create */
  function Create(c: Ctx, name: Option<string>, content: Content): (r: Ctx)
    requires c.Valid()
    ensures r.Valid() && |r.pool| == |c.pool| + 1 && r.parent == c.parent && r.setting == c.setting
  {
    var n := |c.pool|;
    var p := c.pool[c.parent];
    Ctx(c.pool[c.parent := p.(kids := p.kids + [n])] + [Node(name, content, [], c.parent)], c.parent, c.setting)
  }

  /** config_setting_get_member on a group, through __config_list_search. */
  predicate HasMember(pool: seq<Node>, kids: seq<nat>, name: string)
    requires forall j :: 0 <= j < |kids| ==> kids[j] < |pool|
  {
    exists j :: 0 <= j < |kids| && pool[kids[j]].name.Some? && NameCompare(name, pool[kids[j]].name.value) == 0
  }

  /** config_setting_add: the new setting is the last one of the pool and of its parent, and the others stay. */
  function Add(c: Ctx, name: Option<string>, content: Content): (r: Option<Ctx>)
    requires c.Valid()
    ensures r.Some? ==> r.value.Valid() && |r.value.pool| == |c.pool| + 1 && r.value.parent == c.parent
    ensures r.Some? ==> r.value.pool[c.parent] == c.pool[c.parent].(kids := c.pool[c.parent].kids + [|c.pool|])
    ensures r.Some? ==> forall k :: 0 <= k < |c.pool| && k != c.parent ==> r.value.pool[k] == c.pool[k]
    ensures r.Some? ==> r.value.pool[|c.pool|] ==
                        Node(if c.InArray() || c.InList() then None else name, content, [], c.parent)
  {
    var parent := c.pool[c.parent];
    var kept := if parent.content.ArrayC? || parent.content.ListC? then None else name;
    if parent.content.ArrayC? && !ScalarContent(content) then None
    else if kept.Some? && !ValidName(kept.value) then None
    else if kept.Some? && parent.content.GroupC? && HasMember(c.pool, parent.kids, kept.value) then None
    else if !Aggregate(parent.content) then None
    else Some(Create(c, kept, content))
  }

  /** config_setting_set_..._elem with index -1: the elements of an array have one type. */
  function AddElem(c: Ctx, content: Content): (r: Option<Ctx>)
    requires c.Valid() && (c.InArray() || c.InList())
    ensures r.Some? ==> r.value.Valid()
  {
    var kids := c.pool[c.parent].kids;
    if c.InArray() && kids != [] && !SameContentType(c.pool[kids[0]].content, content) then None
    else Some(Create(c, None, content))
  }

  /** config_setting_set_...: gives an unset setting its type and value. */
  function SetValue(c: Ctx, content: Content): (r: Ctx)
    requires c.Valid()
    ensures r.Valid()
  {
    if c.setting.Some? && c.pool[c.setting.value].content.Unset? then
      c.(pool := c.pool[c.setting.value := c.pool[c.setting.value].(content := content)])
    else c
  }

  // ---- Actions -----------------------------------------------------------------------------------

  function NameAction(c: Ctx, name: string): (r: Option<Ctx>)
    requires c.Valid()
    ensures r.Some? ==> r.value.Valid()
  {
    match Add(c, Some(name), Unset)
    case None => None
    case Some(d) => Some(d.(setting := Some(|c.pool|)))
  }

  function ScalarAction(c: Ctx, content: Content): (r: Option<Ctx>)
    requires c.Valid()
    ensures r.Some? ==> r.value.Valid()
  {
    if c.InArray() || c.InList() then AddElem(c, content) else Some(SetValue(c, content))
  }

  /** The start of an array, list or group: a new element of the enclosing list, or the setting
      whose name was just seen. */
  function OpenAction(c: Ctx, content: Content): (r: Option<Ctx>)
    requires c.Valid() && Aggregate(content)
    ensures r.Some? ==> r.value.Valid()
  {
    if c.InList() then
      match Add(c, None, content)
      case None => None
      case Some(d) => Some(d.(parent := |c.pool|))
    else if c.setting.Some? then
      var s := c.setting.value;
      Some(Ctx(c.pool[s := c.pool[s].(content := content)], s, None))
    else None
  }

  function CloseAction(c: Ctx): (r: Ctx)
    requires c.Valid()
    ensures r.Valid()
  {
    c.(parent := c.pool[c.parent].parent)
  }

  // ---- The grammar ---------------------------------------------------------------------------------

  datatype Parse = Fail | Done(c: Ctx, rest: seq<Token>)

  predicate StartsScalar(ts: seq<Token>)
  {
    ts != [] && (ts[0].TBool? || ts[0].TInt? || ts[0].TInt64? || ts[0].THex? || ts[0].THex64? || ts[0].TFloat? ||
                 ts[0].TStr?)
  }

  predicate StartsValue(ts: seq<Token>)
  {
    StartsScalar(ts) || (ts != [] && (ts[0].TArrayStart? || ts[0].TListStart? || ts[0].TGroupStart?))
  }

  /** Adjacent strings are one string. */
  function StringRun(ts: seq<Token>): (r: (string, seq<Token>))
    ensures |r.1| <= |ts|
  {
    if ts != [] && ts[0].TStr? then
      var (s, rest) := StringRun(ts[1..]);
      (ts[0].s + s, rest)
    else ("", ts)
  }

  function ScalarOf(t: Token): Content
  {
    match t
    case TBool(n) => Leaf(Bool(n))
    case TInt(n) => Leaf(Int(n, Plain))
    case TInt64(n) => Leaf(Int64(n, Plain))
    case THex(n) => Leaf(Int(n, Hex))
    case THex64(n) => Leaf(Int64(n, Hex))
    case TFloat(text) => FloatLeaf(text)
    case _ => Unset
  }

  function ParseScalar(c: Ctx, ts: seq<Token>): (r: Parse)
    requires c.Valid() && StartsScalar(ts)
    ensures r.Done? ==> r.c.Valid() && |r.rest| < |ts|
  {
    var (content, rest) :=
      if ts[0].TStr? then
        var (s, rest) := StringRun(ts[1..]);
        (Leaf(Str(ts[0].s + s)), rest)
      else (ScalarOf(ts[0]), ts[1..]);
    match ScalarAction(c, content)
    case None => Fail
    case Some(d) => Done(d, rest)
  }

  function Expect(p: Parse, t: Token): (r: Parse)
    requires p.Done? ==> p.c.Valid()
    ensures r.Done? ==> r.c.Valid() && p.Done? && |r.rest| < |p.rest|
  {
    if p.Done? && p.rest != [] && p.rest[0] == t then Done(CloseAction(p.c), p.rest[1..]) else Fail
  }

  function ParseValue(c: Ctx, ts: seq<Token>): (r: Parse)
    requires c.Valid()
    ensures r.Done? ==> r.c.Valid() && |r.rest| < |ts|
    decreases |ts|, 1
  {
    if !StartsValue(ts) then Fail
    else if StartsScalar(ts) then ParseScalar(c, ts)
    else if ts[0] == TArrayStart then
      match OpenAction(c, ArrayC)
      case None => Fail
      case Some(d) => Expect(ParseElems(d, ts[1..], true), TArrayEnd)
    else if ts[0] == TListStart then
      match OpenAction(c, ListC)
      case None => Fail
      case Some(d) => Expect(ParseElems(d, ts[1..], false), TListEnd)
    else
      match OpenAction(c, GroupC)
      case None => Fail
      case Some(d) => Expect(ParseSettings(d, ts[1..]), TGroupEnd)
  }

  /** Optional elements separated by commas; any number of commas may follow an element. */
  function ParseElems(c: Ctx, ts: seq<Token>, simple: bool): (r: Parse)
    requires c.Valid()
    ensures r.Done? ==> r.c.Valid() && |r.rest| <= |ts|
    decreases |ts|, 2
  {
    if if simple then StartsScalar(ts) else StartsValue(ts) then
      match ParseValue(c, ts)
      case Fail => Fail
      case Done(d, rest) => ParseMore(d, rest, simple)
    else Done(c, ts)
  }

  function ParseMore(c: Ctx, ts: seq<Token>, simple: bool): (r: Parse)
    requires c.Valid()
    ensures r.Done? ==> r.c.Valid() && |r.rest| <= |ts|
    decreases |ts|, 0
  {
    if ts == [] || ts[0] != TComma then Done(c, ts)
    else if if simple then StartsScalar(ts[1..]) else StartsValue(ts[1..]) then
      match ParseValue(c, ts[1..])
      case Fail => Fail
      case Done(d, rest) => ParseMore(d, rest, simple)
    else ParseMore(c, ts[1..], simple)
  }

  function ParseSettings(c: Ctx, ts: seq<Token>): (r: Parse)
    requires c.Valid()
    ensures r.Done? ==> r.c.Valid() && |r.rest| <= |ts|
    decreases |ts|, 3
  {
    if ts == [] || !ts[0].TName? then Done(c, ts)
    else
      match ParseSetting(c, ts)
      case Fail => Fail
      case Done(d, rest) => ParseSettings(d, rest)
  }

  function SkipTerminator(ts: seq<Token>): (r: seq<Token>)
    ensures |r| <= |ts|
  {
    if ts != [] && (ts[0] == TSemicolon || ts[0] == TComma) then ts[1..] else ts
  }

  function ParseSetting(c: Ctx, ts: seq<Token>): (r: Parse)
    requires c.Valid() && ts != [] && ts[0].TName?
    ensures r.Done? ==> r.c.Valid() && |r.rest| < |ts|
    decreases |ts|, 2
  {
    match NameAction(c, ts[0].name)
    case None => Fail
    case Some(d) =>
      if |ts| < 2 || ts[1] != TEquals then Fail
      else
        match ParseValue(d, ts[2..])
        case Fail => Fail
        case Done(e, rest) => Done(e, SkipTerminator(rest))
  }

  /** A whole configuration: settings up to the end of the input. */
  function ParseConfig(ts: seq<Token>): Option<Ctx>
  {
    match ParseSettings(START, ts)
    case Fail => None
    case Done(c, rest) => if rest == [] then Some(c) else None
  }

  // ---- Reading the pool back -----------------------------------------------------------------------

  /** The setting at `i`, with everything below it at positions from `lo` on, has this value. */
  predicate Holds(pool: seq<Node>, lo: nat, i: nat, v: Value)
    decreases v, 0
  {
    lo <= i < |pool| &&
    match v
    case Group(members) => pool[i].content == GroupC && HoldsMembers(pool, lo, pool[i].kids, members)
    case Array(elems) => pool[i].content == ArrayC && HoldsAll(pool, lo, pool[i].kids, elems)
    case List(elems) => pool[i].content == ListC && HoldsAll(pool, lo, pool[i].kids, elems)
    case _ => pool[i].content == Leaf(v) && pool[i].kids == []
  }

  predicate HoldsAll(pool: seq<Node>, lo: nat, kids: seq<nat>, elems: seq<Value>)
    decreases elems, 1
  {
    |kids| == |elems| &&
    (elems == [] || (Holds(pool, lo, kids[0], elems[0]) && HoldsAll(pool, lo, kids[1..], elems[1..])))
  }

  predicate HoldsMembers(pool: seq<Node>, lo: nat, kids: seq<nat>, members: seq<Member>)
    decreases members, 1
  {
    |kids| == |members| &&
    (members == [] ||
     (Holds(pool, lo, kids[0], members[0].value) && pool[kids[0]].name == Some(members[0].name)
      && HoldsMembers(pool, lo, kids[1..], members[1..])))
  }
}
