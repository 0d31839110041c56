/** Writing a configuration and reading it back gives the same settings. */
module ConfigRoundTrip {
  import opened Basics
  import opened Numerals
  import opened ConfigTree
  import opened ConfigWriter
  import opened ConfigScanner
  import opened ConfigLexing
  import opened ConfigParser

  // ---- Values in a growing pool --------------------------------------------------------------------

  /** All settings but one are as before; new ones may follow. */
  ghost predicate Kept(p: seq<Node>, q: seq<Node>, except: nat)
  {
    |p| <= |q| && forall k :: 0 <= k < |p| && k != except ==> q[k] == p[k]
  }

  ghost predicate Agrees(p: seq<Node>, q: seq<Node>, lo: nat)
  {
    |p| <= |q| && forall k :: lo <= k < |p| ==> q[k] == p[k]
  }

  lemma {:induction false} HoldsFrame(p: seq<Node>, q: seq<Node>, from: nat, lo: nat, i: nat, v: Value)
    requires Holds(p, from, i, v) && Agrees(p, q, from) && lo <= from
    ensures Holds(q, lo, i, v)
    decreases v, 0
  {
    match v
    case Group(members) => MembersFrame(p, q, from, lo, p[i].kids, members);
    case Array(elems) => AllFrame(p, q, from, lo, p[i].kids, elems);
    case List(elems) => AllFrame(p, q, from, lo, p[i].kids, elems);
    case _ =>
  }

  lemma {:induction false} AllFrame(p: seq<Node>, q: seq<Node>, from: nat, lo: nat, kids: seq<nat>, elems: seq<Value>)
    requires HoldsAll(p, from, kids, elems) && Agrees(p, q, from) && lo <= from
    ensures HoldsAll(q, lo, kids, elems)
    decreases elems, 1
  {
    if elems != [] {
      HoldsFrame(p, q, from, lo, kids[0], elems[0]);
      AllFrame(p, q, from, lo, kids[1..], elems[1..]);
    }
  }

  lemma {:induction false} MembersFrame(p: seq<Node>, q: seq<Node>, from: nat, lo: nat, kids: seq<nat>,
                                        members: seq<Member>)
    requires HoldsMembers(p, from, kids, members) && Agrees(p, q, from) && lo <= from
    ensures HoldsMembers(q, lo, kids, members)
    decreases members, 1
  {
    if members != [] {
      HoldsFrame(p, q, from, lo, kids[0], members[0].value);
      MembersFrame(p, q, from, lo, kids[1..], members[1..]);
    }
  }

  /** A setting in the pool has one value at most. */
  lemma {:induction false} HoldsUnique(p: seq<Node>, lo: nat, i: nat, v: Value, w: Value)
    requires Holds(p, lo, i, v) && Holds(p, lo, i, w)
    ensures v == w
    decreases v, 0
  {
    match v
    case Group(members) => MembersUnique(p, lo, p[i].kids, members, w.members);
    case Array(elems) => AllUnique(p, lo, p[i].kids, elems, w.elems);
    case List(elems) => AllUnique(p, lo, p[i].kids, elems, w.elems);
    case _ =>
  }

  lemma {:induction false} AllUnique(p: seq<Node>, lo: nat, kids: seq<nat>, vs: seq<Value>, ws: seq<Value>)
    requires HoldsAll(p, lo, kids, vs) && HoldsAll(p, lo, kids, ws)
    ensures vs == ws
    decreases vs, 1
  {
    if vs != [] {
      HoldsUnique(p, lo, kids[0], vs[0], ws[0]);
      AllUnique(p, lo, kids[1..], vs[1..], ws[1..]);
      assert vs == [vs[0]] + vs[1..] && ws == [ws[0]] + ws[1..];
    }
  }

  lemma {:induction false} MembersUnique(p: seq<Node>, lo: nat, kids: seq<nat>, vs: seq<Member>, ws: seq<Member>)
    requires HoldsMembers(p, lo, kids, vs) && HoldsMembers(p, lo, kids, ws)
    ensures vs == ws
    decreases vs, 1
  {
    if vs != [] {
      HoldsUnique(p, lo, kids[0], vs[0].value, ws[0].value);
      MembersUnique(p, lo, kids[1..], vs[1..], ws[1..]);
      assert vs == [vs[0]] + vs[1..] && ws == [ws[0]] + ws[1..];
    }
  }

  // ---- Scalars ---------------------------------------------------------------------------------------

  predicate NoString(ts: seq<Token>) { ts == [] || !ts[0].TStr? }

  lemma {:induction false} ScalarReads(v: Value, default: Format, rest: seq<Token>, c: Ctx)
    requires WellFormed(v) && Scalar(v) && NoString(rest) && c.Valid()
    ensures StartsScalar([ScalarToken(v, default)] + rest)
    ensures ParseScalar(c, [ScalarToken(v, default)] + rest) ==
            (match ScalarAction(c, Leaf(Normalized(v, default))) case None => Fail case Some(d) => Done(d, rest))
  {
    var ts := [ScalarToken(v, default)] + rest;
    assert ts[1..] == rest;
    if v.Str? {
      assert StringRun(rest) == ("", rest);
      assert v.s + "" == v.s;
    }
  }

  lemma {:induction false} NormalizedScalar(v: Value, default: Format)
    requires Scalar(v)
    ensures Scalar(Normalized(v, default)) && SameType(v, Normalized(v, default))
  {
  }

  // ---- Elements ----------------------------------------------------------------------------------------

  /** One element was appended to the aggregate under construction. */
  ghost predicate Appended(c: Ctx, d: Ctx, v: Value)
  {
    && c.Valid() && d.Valid() && d.parent == c.parent && Kept(c.pool, d.pool, c.parent)
    && d.pool[c.parent] == c.pool[c.parent].(kids := c.pool[c.parent].kids + [|c.pool|])
    && Holds(d.pool, |c.pool|, |c.pool|, v)
  }

  /** These elements were appended, in order. */
  ghost predicate AppendedAll(c: Ctx, d: Ctx, vs: seq<Value>)
  {
    GrownAt(c, d) && HoldsAll(d.pool, |c.pool|, NewKids(c, d), vs)
  }

  /** The aggregate under construction has more elements; nothing else that was there changed. */
  ghost predicate GrownAt(c: Ctx, d: Ctx)
  {
    && c.Valid() && d.Valid() && d.parent == c.parent && Kept(c.pool, d.pool, c.parent)
    && c.pool[c.parent].kids <= d.pool[c.parent].kids
    && d.pool[c.parent] == c.pool[c.parent].(kids := d.pool[c.parent].kids)
  }

  function NewKids(c: Ctx, d: Ctx): seq<nat>
    requires GrownAt(c, d)
  {
    d.pool[c.parent].kids[|c.pool[c.parent].kids|..]
  }

  lemma {:induction false} AppendedOne(c: Ctx, d: Ctx, v: Value)
    requires Appended(c, d, v)
    ensures AppendedAll(c, d, [v])
  {
    assert NewKids(c, d) == [|c.pool|];
  }

  lemma {:induction false} AppendedMore(c: Ctx, d: Ctx, e: Ctx, v: Value, vs: seq<Value>)
    requires Appended(c, d, v) && AppendedAll(d, e, vs)
    ensures AppendedAll(c, e, [v] + vs)
  {
    var n := |c.pool|;
    HoldsFrame(d.pool, e.pool, n, n, n, v);
    AllFrame(e.pool, e.pool, |d.pool|, n, NewKids(d, e), vs);
    assert NewKids(c, e)[1..] == NewKids(d, e) && ([v] + vs)[1..] == vs;
  }

  /** The aggregate under construction can take such elements: a list, or an array of this type. */
  ghost predicate Takes(c: Ctx, first: Value, elems: seq<Value>)
    requires c.Valid()
  {
    c.InList() ||
    (c.InArray() && Scalar(first) && TypedLike(c, first)
     && forall i :: 0 <= i < |elems| ==> Scalar(elems[i]) && SameType(first, elems[i]))
  }

  ghost predicate TypedLike(c: Ctx, first: Value)
    requires c.Valid()
  {
    var kids := c.pool[c.parent].kids;
    kids != [] ==>
      kids[0] != c.parent && c.pool[kids[0]].content.Leaf? && SameType(c.pool[kids[0]].content.v, first)
  }

  lemma {:induction false} ScalarElem(o: Options, v: Value, c: Ctx, first: Value, rest: seq<Token>) returns (d: Ctx)
    requires WellFormed(v) && Scalar(v) && NoString(rest) && c.Valid() && Takes(c, first, [v])
    ensures ParseValue(c, ValueTokens(o, v) + rest) == Done(d, rest)
    ensures Appended(c, d, Normalized(v, o.default))
  {
    var w := Normalized(v, o.default);
    NormalizedScalar(v, o.default);
    ScalarReads(v, o.default, rest, c);
    assert c.InArray() ==> SameType(first, [v][0]);
    d := Create(c, None, Leaf(w));
  }

  lemma {:induction false} TakesNext(c: Ctx, d: Ctx, v: Value, default: Format, first: Value, elems: seq<Value>)
    requires c.Valid() && elems != [] && v == elems[0] && Takes(c, first, elems) &&
             Appended(c, d, Normalized(v, default))
    ensures Takes(d, first, elems[1..])
  {
    if c.InArray() {
      NormalizedScalar(v, default);
    }
  }

  /** What comes after elements: the closing bracket of a list or array. */
  predicate Closing(ts: seq<Token>) { ts != [] && (ts[0] == TListEnd || ts[0] == TArrayEnd) }

  lemma {:induction false} ValueStarts(o: Options, v: Value, rest: seq<Token>)
    ensures StartsValue(ValueTokens(o, v) + rest) && (Scalar(v) ==> StartsScalar(ValueTokens(o, v) + rest))
  {
  }

  // ---- Settings ------------------------------------------------------------------------------------------

  /** A named setting has just been created and waits for its value. */
  ghost predicate Ready(c: Ctx, s: nat)
  {
    && c.Valid() && c.setting == Some(s) && s + 1 == |c.pool| && c.parent != s
    && c.pool[s].content == Unset && c.pool[s].kids == [] && c.pool[s].parent == c.parent
    && c.pool[c.parent].content == GroupC
  }

  /** Its value was set. */
  ghost predicate Filled(c: Ctx, d: Ctx, s: nat, v: Value)
  {
    && d.Valid() && d.parent == c.parent && s < |c.pool| && Kept(c.pool, d.pool, s)
    && d.pool[s].name == c.pool[s].name && d.pool[s].parent == c.pool[s].parent
    && Holds(d.pool, s, s, v)
  }

  lemma {:induction false} ScalarSetting(o: Options, v: Value, c: Ctx, s: nat, rest: seq<Token>) returns (d: Ctx)
    requires WellFormed(v) && Scalar(v) && NoString(rest) && Ready(c, s)
    ensures ParseValue(c, ValueTokens(o, v) + rest) == Done(d, rest)
    ensures Filled(c, d, s, Normalized(v, o.default))
  {
    ScalarReads(v, o.default, rest, c);
    d := SetValue(c, Leaf(Normalized(v, o.default)));
  }

  /** Named settings were added to the group under construction. */
  ghost predicate AddedAll(c: Ctx, d: Ctx, members: seq<Member>)
  {
    GrownAt(c, d) && HoldsMembers(d.pool, |c.pool|, NewKids(c, d), members)
  }

  lemma {:induction false} AddedNone(c: Ctx)
    requires c.Valid()
    ensures AddedAll(c, c, [])
  {
  }

  /** Creating a setting, giving it its value, and then the others. */
  lemma {:induction false} AddedMore(c: Ctx, d: Ctx, e: Ctx, f: Ctx, name: string, v: Value, members: seq<Member>)
    requires c.Valid() && d == Create(c, Some(name), Unset).(setting := Some(|c.pool|))
    requires Filled(d, e, |c.pool|, v) && AddedAll(e, f, members)
    ensures AddedAll(c, f, [Member(name, v)] + members)
  {
    var n := |c.pool|;
    assert f.pool[n] == e.pool[n] && e.pool[n].name == Some(name);
    HoldsFrame(e.pool, f.pool, n, n, n, v);
    MembersFrame(f.pool, f.pool, |e.pool|, n, NewKids(e, f), members);
    assert e.pool[c.parent].kids == c.pool[c.parent].kids + [n];
    assert NewKids(c, f)[1..] == NewKids(e, f) && ([Member(name, v)] + members)[1..] == members;
  }

  /** No setting of the group has one of these names yet. */
  ghost predicate FreshNames(c: Ctx, members: seq<Member>)
    requires c.Valid()
  {
    forall i, j :: 0 <= i < |members| && 0 <= j < |c.pool[c.parent].kids| ==>
      c.parent != c.pool[c.parent].kids[j] && NameFree(c.pool[c.pool[c.parent].kids[j]].name, members[i].name)
  }

  predicate NameFree(taken: Option<string>, name: string)
  {
    taken.Some? ==> NameCompare(name, taken.value) != 0
  }

  lemma {:induction false} ValidNoPath(name: string)
    requires ValidName(name)
    ensures NoPathTokens(name)
  {
  }

  lemma {:induction false} MemberNames(members: seq<Member>, i: nat)
    requires WellFormedMembers(members) && i < |members|
    ensures ValidName(members[i].name)
  {
    if i > 0 {
      MemberNames(members[1..], i - 1);
    }
  }

  lemma {:induction false} FreshNext(c: Ctx, d: Ctx, e: Ctx, members: seq<Member>, v: Value)
    requires c.Valid() && members != [] && WellFormedMembers(members) && UniqueNames(members) && FreshNames(c, members)
    requires d == Create(c, Some(members[0].name), Unset).(setting := Some(|c.pool|)) && Filled(d, e, |c.pool|, v)
    ensures e.Valid() && FreshNames(e, members[1..])
  {
    var kids := e.pool[e.parent].kids;
    forall i, j | 0 <= i < |members[1..]| && 0 <= j < |kids|
      ensures e.parent != kids[j] && NameFree(e.pool[kids[j]].name, members[1..][i].name)
    {
      if j < |c.pool[c.parent].kids| {
        assert NameFree(c.pool[c.pool[c.parent].kids[j]].name, members[i + 1].name);
      } else {
        MemberNames(members, i + 1);
        ValidNoPath(members[0].name);
        ValidNoPath(members[i + 1].name);
        NameCompareEqual(members[i + 1].name, members[0].name);
      }
    }
  }

  /** What comes after settings: the closing brace, or the end of the input. */
  predicate EndsSettings(ts: seq<Token>) { ts == [] || ts[0] == TGroupEnd }

  lemma {:induction false} TerminatorSkipped(o: Options, members: seq<Member>, rest: seq<Token>)
    requires EndsSettings(rest)
    ensures NoString(EndTokens(o) + (MembersTokens(o, members) + rest))
    ensures SkipTerminator(EndTokens(o) + (MembersTokens(o, members) + rest)) == MembersTokens(o, members) + rest
  {
    var tail := MembersTokens(o, members) + rest;
    SettingsStart(o, members, rest);
    if o.semicolons {
      assert ([TSemicolon] + tail)[1..] == tail;
    } else {
      assert [] + tail == tail;
    }
  }

  lemma {:induction false} SettingsStart(o: Options, members: seq<Member>, rest: seq<Token>)
    requires EndsSettings(rest)
    ensures var tail := MembersTokens(o, members) + rest;
            tail == [] || tail[0] == TGroupEnd || tail[0].TName? || tail[0].TBool?
  {
    if members != [] {
      SettingsSplit(o, members, rest);
    } else {
      assert [] + rest == rest;
    }
  }

  // ---- Aggregates ----------------------------------------------------------------------------------------

  /** The aggregate was begun for this value. */
  ghost predicate Opened(d: Ctx, v: Value)
  {
    && d.Valid() && d.pool[d.parent].kids == []
    && d.pool[d.parent].content == (if v.Group? then GroupC else if v.Array? then ArrayC else ListC)
  }

  /** It was completed and closed. */
  ghost predicate Closed(d: Ctx, e: Ctx, v: Value)
  {
    && d.Valid() && e.Valid() && e.parent == d.pool[d.parent].parent && Kept(d.pool, e.pool, d.parent)
    && e.pool[d.parent].name == d.pool[d.parent].name && e.pool[d.parent].parent == d.pool[d.parent].parent
    && Holds(e.pool, d.parent, d.parent, v)
  }

  lemma {:induction false} ClosedElems(d: Ctx, e: Ctx, v: Value, w: Value)
    requires Opened(d, v) && ((v.List? && w.List?) || (v.Array? && w.Array?)) && AppendedAll(d, e, w.elems)
    ensures Closed(d, CloseAction(e), w)
  {
    AllFrame(e.pool, e.pool, |d.pool|, d.parent, NewKids(d, e), w.elems);
  }

  lemma {:induction false} ClosedMembers(d: Ctx, e: Ctx, v: Value, members: seq<Member>)
    requires Opened(d, v) && v.Group? && AddedAll(d, e, members)
    ensures Closed(d, CloseAction(e), Group(members))
  {
    MembersFrame(e.pool, e.pool, |d.pool|, d.parent, NewKids(d, e), members);
  }

  lemma {:induction false} AppendedNone(c: Ctx)
    requires c.Valid()
    ensures AppendedAll(c, c, [])
  {
  }

  /** The tokens after the opening bracket. */
  function BodyTokens(o: Options, v: Value): seq<Token>
    requires !Scalar(v)
  {
    match v
    case List(elems) => ElemsTokens(o, elems) + [TListEnd]
    case Array(elems) => ElemsTokens(o, elems) + [TArrayEnd]
    case Group(members) => MembersTokens(o, members) + [TGroupEnd]
  }

  function ParseBody(d: Ctx, ts: seq<Token>, v: Value): Parse
    requires d.Valid() && !Scalar(v)
  {
    match v
    case List(_) => Expect(ParseElems(d, ts, false), TListEnd)
    case Array(_) => Expect(ParseElems(d, ts, true), TArrayEnd)
    case Group(_) => Expect(ParseSettings(d, ts), TGroupEnd)
  }

  function KindOf(v: Value): Content
    requires !Scalar(v)
  {
    if v.Group? then GroupC else if v.Array? then ArrayC else ListC
  }

  function OpeningToken(v: Value): Token
    requires !Scalar(v)
  {
    if v.Group? then TGroupStart else if v.Array? then TArrayStart else TListStart
  }

  lemma {:induction false} BracketParses(v: Value, c: Ctx, body: seq<Token>)
    requires !Scalar(v) && c.Valid()
    ensures ParseValue(c, [OpeningToken(v)] + body) ==
            (match OpenAction(c, KindOf(v)) case None => Fail case Some(d) => ParseBody(d, body, v))
  {
    assert ([OpeningToken(v)] + body)[1..] == body;
  }

  lemma {:induction false} Opens(o: Options, v: Value, c: Ctx, rest: seq<Token>)
    requires !Scalar(v) && c.Valid()
    ensures ParseValue(c, ValueTokens(o, v) + rest) ==
            (match OpenAction(c, KindOf(v)) case None => Fail case Some(d) => ParseBody(d, BodyTokens(o, v) + rest, v))
  {
    BracketParses(v, c, BodyTokens(o, v) + rest);
    assert ValueTokens(o, v) + rest == [OpeningToken(v)] + (BodyTokens(o, v) + rest);
  }

  lemma {:induction false} Expected(e: Ctx, t: Token, rest: seq<Token>)
    requires e.Valid()
    ensures Expect(Done(e, [t] + rest), t) == Done(CloseAction(e), rest)
  {
    assert ([t] + rest)[1..] == rest;
  }

  lemma {:induction false} ListBody(o: Options, elems: seq<Value>, d: Ctx, f: Ctx, rest: seq<Token>)
    requires Opened(d, List(elems)) && AppendedAll(d, f, NormalizedAll(elems, o.default))
    requires ParseElems(d, ElemsTokens(o, elems) + ([TListEnd] + rest), false) == Done(f, [TListEnd] + rest)
    ensures ParseBody(d, BodyTokens(o, List(elems)) + rest, List(elems)) == Done(CloseAction(f), rest)
    ensures Closed(d, CloseAction(f), Normalized(List(elems), o.default))
  {
    assert BodyTokens(o, List(elems)) + rest == ElemsTokens(o, elems) + ([TListEnd] + rest);
    Expected(f, TListEnd, rest);
    ClosedElems(d, f, List(elems), Normalized(List(elems), o.default));
  }

  lemma {:induction false} ArrayBody(o: Options, elems: seq<Value>, d: Ctx, f: Ctx, rest: seq<Token>)
    requires Opened(d, Array(elems)) && AppendedAll(d, f, NormalizedAll(elems, o.default))
    requires ParseElems(d, ElemsTokens(o, elems) + ([TArrayEnd] + rest), true) == Done(f, [TArrayEnd] + rest)
    ensures ParseBody(d, BodyTokens(o, Array(elems)) + rest, Array(elems)) == Done(CloseAction(f), rest)
    ensures Closed(d, CloseAction(f), Normalized(Array(elems), o.default))
  {
    assert BodyTokens(o, Array(elems)) + rest == ElemsTokens(o, elems) + ([TArrayEnd] + rest);
    Expected(f, TArrayEnd, rest);
    ClosedElems(d, f, Array(elems), Normalized(Array(elems), o.default));
  }

  lemma {:induction false} GroupBody(o: Options, members: seq<Member>, d: Ctx, f: Ctx, rest: seq<Token>)
    requires Opened(d, Group(members)) && AddedAll(d, f, NormalizedMembers(members, o.default))
    requires ParseSettings(d, MembersTokens(o, members) + ([TGroupEnd] + rest)) == Done(f, [TGroupEnd] + rest)
    ensures ParseBody(d, BodyTokens(o, Group(members)) + rest, Group(members)) == Done(CloseAction(f), rest)
    ensures Closed(d, CloseAction(f), Normalized(Group(members), o.default))
  {
    assert BodyTokens(o, Group(members)) + rest == MembersTokens(o, members) + ([TGroupEnd] + rest);
    Expected(f, TGroupEnd, rest);
    ClosedMembers(d, f, Group(members), NormalizedMembers(members, o.default));
  }

  lemma {:induction false} Body(o: Options, v: Value, d: Ctx, rest: seq<Token>) returns (e: Ctx)
    requires WellFormed(v) && Readable(v) && !Scalar(v) && Opened(d, v)
    ensures ParseBody(d, BodyTokens(o, v) + rest, v) == Done(e, rest)
    ensures Closed(d, e, Normalized(v, o.default))
    decreases v, 0
  {
    match v
    case List(elems) =>
      var f := Elems(o, elems, d, Bool(0), [TListEnd] + rest, false);
      ListBody(o, elems, d, f, rest);
      e := CloseAction(f);
    case Array(elems) =>
      var f := Elems(o, elems, d, if elems == [] then Bool(0) else elems[0], [TArrayEnd] + rest, true);
      ArrayBody(o, elems, d, f, rest);
      e := CloseAction(f);
    case Group(members) =>
      var f := Settings(o, members, d, [TGroupEnd] + rest);
      GroupBody(o, members, d, f, rest);
      e := CloseAction(f);
  }

  lemma {:induction false} ElemParses(o: Options, v: Value, c: Ctx, first: Value, rest: seq<Token>) returns (d: Ctx)
    requires WellFormed(v) && Readable(v) && NoString(rest) && c.Valid() && Takes(c, first, [v])
    ensures ParseValue(c, ValueTokens(o, v) + rest) == Done(d, rest)
    ensures Appended(c, d, Normalized(v, o.default))
    decreases v, 1
  {
    if Scalar(v) {
      d := ScalarElem(o, v, c, first, rest);
    } else {
      assert [v][0] == v && !c.InArray();
      var content := KindOf(v);
      var begun := OpenAction(c, content).value;
      Opens(o, v, c, rest);
      d := Body(o, v, begun, rest);
      ListElemClosed(c, content, begun, d, Normalized(v, o.default));
    }
  }

  lemma {:induction false} ListElemClosed(c: Ctx, content: Content, begun: Ctx, d: Ctx, v: Value)
    requires c.Valid() && c.InList() && Aggregate(content) && OpenAction(c, content) == Some(begun) &&
             Closed(begun, d, v)
    ensures Appended(c, d, v)
  {
    var n := |c.pool|;
    assert begun == Create(c, None, content).(parent := n);
    assert d.pool[c.parent] == begun.pool[c.parent];
  }

  lemma {:induction false} SettingParses(o: Options, v: Value, c: Ctx, s: nat, rest: seq<Token>) returns (d: Ctx)
    requires WellFormed(v) && Readable(v) && NoString(rest) && Ready(c, s)
    ensures ParseValue(c, ValueTokens(o, v) + rest) == Done(d, rest)
    ensures Filled(c, d, s, Normalized(v, o.default))
    decreases v, 1
  {
    if Scalar(v) {
      d := ScalarSetting(o, v, c, s, rest);
    } else {
      var begun := OpenAction(c, KindOf(v)).value;
      Opens(o, v, c, rest);
      d := Body(o, v, begun, rest);
    }
  }

  lemma {:induction false} ElemsSplit(o: Options, elems: seq<Value>, rest: seq<Token>)
    requires elems != []
    ensures ElemsTokens(o, elems) + rest ==
            ValueTokens(o, elems[0]) + ((if |elems| > 1 then [TComma] else []) + (ElemsTokens(o, elems[1..]) + rest))
  {
  }

  lemma {:induction false} MoreEnds(c: Ctx, rest: seq<Token>, simple: bool)
    requires c.Valid() && Closing(rest)
    ensures ParseMore(c, rest, simple) == Done(c, rest)
  {
  }

  lemma {:induction false} MoreGoesOn(c: Ctx, ts: seq<Token>, d: Ctx, r: seq<Token>, simple: bool)
    requires c.Valid() && (if simple then StartsScalar(ts) else StartsValue(ts)) && ParseValue(c, ts) == Done(d, r)
    ensures d.Valid() && ParseMore(c, [TComma] + ts, simple) == ParseMore(d, r, simple)
  {
    assert ([TComma] + ts)[1..] == ts;
  }

  /** The elements from the first on: parsing it, and then what follows. */
  lemma {:induction false} ElemsFrom(o: Options, elems: seq<Value>, c: Ctx, first: Value, rest: seq<Token>,
                                     simple: bool)
    returns (d: Ctx, r: seq<Token>, e: Ctx)
    requires WellFormedAll(elems) && ReadableAll(elems) && elems != [] && Closing(rest) && c.Valid() &&
             Takes(c, first, elems)
    requires simple ==> c.InArray()
    ensures ParseValue(c, ElemsTokens(o, elems) + rest) == Done(d, r) && d.Valid()
    ensures ParseMore(d, r, simple) == Done(e, rest)
    ensures AppendedAll(c, e, NormalizedAll(elems, o.default))
    decreases elems, 2
  {
    var v := elems[0];
    var tail := ElemsTokens(o, elems[1..]) + rest;
    r := (if |elems| > 1 then [TComma] else []) + tail;
    ElemsSplit(o, elems, rest);
    assert c.InArray() ==> Scalar(elems[0]) && SameType(first, elems[0]);
    d := ElemParses(o, v, c, first, r);
    TakesNext(c, d, v, o.default, first, elems);
    if |elems| == 1 {
      assert elems[1..] == [] && r == rest;
      e := d;
      MoreEnds(d, rest, simple);
      AppendedOne(c, d, Normalized(v, o.default));
      assert NormalizedAll(elems, o.default) == [Normalized(v, o.default)];
    } else {
      var d2, r2;
      d2, r2, e := ElemsFrom(o, elems[1..], d, first, rest, simple);
      ElemsStart(o, elems[1..], rest);
      assert simple ==> Scalar(elems[1]);
      MoreGoesOn(d, tail, d2, r2, simple);
      AppendedMore(c, d, e, Normalized(v, o.default), NormalizedAll(elems[1..], o.default));
    }
  }

  lemma {:induction false} ElemsStart(o: Options, elems: seq<Value>, rest: seq<Token>)
    requires elems != []
    ensures StartsValue(ElemsTokens(o, elems) + rest)
    ensures Scalar(elems[0]) ==> StartsScalar(ElemsTokens(o, elems) + rest)
  {
    ElemsSplit(o, elems, rest);
    ValueStarts(o, elems[0], (if |elems| > 1 then [TComma] else []) + (ElemsTokens(o, elems[1..]) + rest));
  }

  lemma {:induction false} Elems(o: Options, elems: seq<Value>, c: Ctx, first: Value, rest: seq<Token>, simple: bool)
    returns (e: Ctx)
    requires WellFormedAll(elems) && ReadableAll(elems) && Closing(rest) && c.Valid() && c.pool[c.parent].kids == []
    requires if simple then c.InArray() && Homogeneous(elems) && (elems != [] ==> first == elems[0]) else c.InList()
    ensures ParseElems(c, ElemsTokens(o, elems) + rest, simple) == Done(e, rest)
    ensures AppendedAll(c, e, NormalizedAll(elems, o.default))
    decreases elems, 3
  {
    if elems == [] {
      assert ElemsTokens(o, elems) + rest == rest;
      e := c;
      AppendedNone(c);
    } else {
      var d, r;
      d, r, e := ElemsFrom(o, elems, c, first, rest, simple);
      ElemsStart(o, elems, rest);
      assert simple ==> Scalar(elems[0]);
    }
  }

  lemma {:induction false} SettingsSplit(o: Options, members: seq<Member>, rest: seq<Token>)
    requires members != []
    ensures MembersTokens(o, members) + rest ==
            [WordToken(members[0].name), TEquals]
            + (ValueTokens(o, members[0].value) + (EndTokens(o) + (MembersTokens(o, members[1..]) + rest)))
  {
    var name, value := [WordToken(members[0].name), TEquals], ValueTokens(o, members[0].value);
    FourParts(name, value, EndTokens(o), MembersTokens(o, members[1..]), rest);
  }

  lemma FourParts(a: seq<Token>, b: seq<Token>, c: seq<Token>, d: seq<Token>, rest: seq<Token>)
    ensures a + b + c + d + rest == a + (b + (c + (d + rest)))
  {
  }

  lemma {:induction false} NameAccepted(c: Ctx, members: seq<Member>)
    requires c.Valid() && c.pool[c.parent].content == GroupC && members != [] && WellFormedMembers(members)
    requires FreshNames(c, members)
    ensures NameAction(c, members[0].name) == Some(Create(c, Some(members[0].name), Unset).(setting := Some(|c.pool|)))
    ensures Ready(Create(c, Some(members[0].name), Unset).(setting := Some(|c.pool|)), |c.pool|)
  {
    var kids := c.pool[c.parent].kids;
    assert forall j :: 0 <= j < |kids| ==> NameFree(c.pool[kids[j]].name, members[0].name);
  }

  lemma {:induction false} SettingsGoOn(c: Ctx, name: string, d: Ctx, ts: seq<Token>, e: Ctx, r: seq<Token>)
    requires c.Valid() && NameAction(c, name) == Some(d) && ParseValue(d, ts) == Done(e, r)
    ensures e.Valid() && ParseSettings(c, [TName(name), TEquals] + ts) == ParseSettings(e, SkipTerminator(r))
  {
    var all := [TName(name), TEquals] + ts;
    assert all[2..] == ts;
    NamedSetting(c, all, d, e, r);
    assert ParseSettings(c, all) == ParseSettings(e, SkipTerminator(r));
  }

  lemma {:induction false} NamedSetting(c: Ctx, ts: seq<Token>, d: Ctx, e: Ctx, r: seq<Token>)
    requires c.Valid() && |ts| >= 2 && ts[0].TName? && ts[1] == TEquals
    requires NameAction(c, ts[0].name) == Some(d) && ParseValue(d, ts[2..]) == Done(e, r)
    ensures e.Valid() && ParseSetting(c, ts) == Done(e, SkipTerminator(r))
  {
  }

  /** Parsing the first setting and going on with the others. */
  lemma {:induction false} FirstSetting(o: Options, members: seq<Member>, c: Ctx, rest: seq<Token>) returns (e: Ctx)
    requires members != [] && WellFormedMembers(members) && UniqueNames(members) && EndsSettings(rest)
    requires !BooleanWord(members[0].name) && Readable(members[0].value)
    requires c.Valid() && c.pool[c.parent].content == GroupC && FreshNames(c, members)
    ensures e.Valid() && e.pool[e.parent].content == GroupC && FreshNames(e, members[1..])
    ensures WellFormedMembers(members[1..]) && UniqueNames(members[1..])
    ensures ParseSettings(c, MembersTokens(o, members) + rest) ==
            ParseSettings(e, MembersTokens(o, members[1..]) + rest)
    ensures Filled(Create(c, Some(members[0].name), Unset).(setting := Some(|c.pool|)), e, |c.pool|,
                   Normalized(members[0].value, o.default))
    decreases members, 2
  {
    var m, n := members[0], |c.pool|;
    var tail := EndTokens(o) + (MembersTokens(o, members[1..]) + rest);
    var d := Create(c, Some(m.name), Unset).(setting := Some(n));
    NameAccepted(c, members);
    TerminatorSkipped(o, members[1..], rest);
    e := SettingParses(o, m.value, d, n, tail);
    SettingsSplit(o, members, rest);
    SettingsGoOn(c, m.name, d, ValueTokens(o, m.value) + tail, e, tail);
    FreshNext(c, d, e, members, Normalized(m.value, o.default));
    TailUnique(members);
    assert e.pool[e.parent].content == GroupC;
  }

  lemma {:induction false} Settings(o: Options, members: seq<Member>, c: Ctx, rest: seq<Token>)
    returns (f: Ctx)
    requires WellFormedMembers(members) && ReadableMembers(members) && UniqueNames(members) && EndsSettings(rest)
    requires c.Valid() && c.pool[c.parent].content == GroupC && FreshNames(c, members)
    ensures ParseSettings(c, MembersTokens(o, members) + rest) == Done(f, rest)
    ensures AddedAll(c, f, NormalizedMembers(members, o.default))
    decreases members, 3
  {
    if members == [] {
      assert MembersTokens(o, members) + rest == rest;
      f := c;
      AddedNone(c);
    } else {
      var m := members[0];
      var d := Create(c, Some(m.name), Unset).(setting := Some(|c.pool|));
      var e := FirstSetting(o, members, c, rest);
      f := Settings(o, members[1..], e, rest);
      AddedMore(c, d, e, f, m.name, Normalized(m.value, o.default), NormalizedMembers(members[1..], o.default));
    }
  }

  lemma {:induction false} TailUnique(members: seq<Member>)
    requires members != [] && WellFormedMembers(members) && UniqueNames(members)
    ensures WellFormedMembers(members[1..]) && UniqueNames(members[1..])
  {
  }

  /** Writing a configuration and reading it back: scanning and parsing succeed, the context is back
      at the root, and the root holds the same settings, names, types, values and integer formats. */
  lemma {:induction false} RoundTrip(o: Options, root: Value) returns (c: Ctx)
    requires root.Group? && WellFormed(root) && Readable(root)
    ensures ParseConfig(Lex(ConfigText(o, root))) == Some(c)
    ensures c.parent == 0 && c.Valid() && Holds(c.pool, 0, 0, Normalized(root, o.default))
    ensures forall v :: Holds(c.pool, 0, 0, v) ==> v == Normalized(root, o.default)
  {
    ConfigLexes(o, root);
    var tokens := MembersTokens(o, root.members);
    c := Settings(o, root.members, START, []);
    assert tokens + [] == tokens;
    MembersFrame(c.pool, c.pool, 1, 0, NewKids(START, c), NormalizedMembers(root.members, o.default));
    forall v | Holds(c.pool, 0, 0, v)
      ensures v == Normalized(root, o.default)
    {
      HoldsUnique(c.pool, 0, 0, v, Normalized(root, o.default));
    }
  }

  // ---- Names that spell a boolean ----------------------------------------------------------------------

  /** Parsing settings fails, or stops in front of a boolean. */
  predicate Stuck(p: Parse)
  {
    p.Fail? || (p.rest != [] && p.rest[0].TBool?)
  }

  lemma {:induction false} ScalarsReadable(elems: seq<Value>)
    requires forall i :: 0 <= i < |elems| ==> Scalar(elems[i])
    ensures ReadableAll(elems)
    decreases elems
  {
    if elems != [] {
      ScalarsReadable(elems[1..]);
    }
  }

  lemma {:induction false} ValueFails(o: Options, v: Value, c: Ctx, rest: seq<Token>)
    requires WellFormed(v) && !Readable(v) && c.Valid()
    requires OpenAction(c, KindOf(v)).Some? ==> Opened(OpenAction(c, KindOf(v)).value, v)
    ensures ParseValue(c, ValueTokens(o, v) + rest) == Fail
    decreases v, 1
  {
    Opens(o, v, c, rest);
    match OpenAction(c, KindOf(v))
    case None =>
    case Some(d) => BodyFails(o, v, d, rest);
  }

  lemma {:induction false} BodyFails(o: Options, v: Value, d: Ctx, rest: seq<Token>)
    requires WellFormed(v) && !Readable(v) && Opened(d, v)
    ensures ParseBody(d, BodyTokens(o, v) + rest, v) == Fail
    decreases v, 0
  {
    match v
    case List(elems) =>
      ElemsFail(o, elems, d, [TListEnd] + rest);
      assert BodyTokens(o, v) + rest == ElemsTokens(o, elems) + ([TListEnd] + rest);
    case Array(elems) => ScalarsReadable(elems);
    case Group(members) =>
      SettingsFail(o, members, d, [TGroupEnd] + rest);
      assert BodyTokens(o, v) + rest == MembersTokens(o, members) + ([TGroupEnd] + rest);
  }

  lemma {:induction false} MoreElems(c: Ctx, ts: seq<Token>)
    requires c.Valid() && StartsValue(ts)
    ensures ParseMore(c, [TComma] + ts, false) == ParseElems(c, ts, false)
  {
    assert ([TComma] + ts)[1..] == ts;
  }

  lemma {:induction false} ElemsFail(o: Options, elems: seq<Value>, c: Ctx, rest: seq<Token>)
    requires WellFormedAll(elems) && !ReadableAll(elems) && Closing(rest) && c.Valid() && c.InList()
    ensures ParseElems(c, ElemsTokens(o, elems) + rest, false) == Fail
    decreases elems, 2
  {
    var v, tail := elems[0], ElemsTokens(o, elems[1..]) + rest;
    var r := (if |elems| > 1 then [TComma] else []) + tail;
    ElemsSplit(o, elems, rest);
    ElemsStart(o, elems, rest);
    if !Readable(v) {
      ValueFails(o, v, c, r);
    } else {
      assert elems[1..] != [];
      var d := ElemParses(o, v, c, v, r);
      ElemsStart(o, elems[1..], rest);
      MoreElems(d, tail);
      ElemsFail(o, elems[1..], d, rest);
    }
  }

  /** The first setting stops the parser. */
  lemma {:induction false} SettingStuck(o: Options, members: seq<Member>, c: Ctx, rest: seq<Token>)
    requires WellFormedMembers(members) && members != [] && c.Valid() && c.pool[c.parent].content == GroupC
    requires FreshNames(c, members) && (BooleanWord(members[0].name) || !Readable(members[0].value))
    ensures Stuck(ParseSettings(c, MembersTokens(o, members) + rest))
    decreases members, 2
  {
    var m := members[0];
    var tail := EndTokens(o) + (MembersTokens(o, members[1..]) + rest);
    SettingsSplit(o, members, rest);
    if !BooleanWord(m.name) {
      NameAccepted(c, members);
      var d := Create(c, Some(m.name), Unset).(setting := Some(|c.pool|));
      ValueFails(o, m.value, d, tail);
      SettingFails(c, [TName(m.name), TEquals] + (ValueTokens(o, m.value) + tail), d);
    }
  }

  lemma {:induction false} SettingFails(c: Ctx, ts: seq<Token>, d: Ctx)
    requires c.Valid() && |ts| >= 2 && ts[0].TName? && ts[1] == TEquals
    requires NameAction(c, ts[0].name) == Some(d) && ParseValue(d, ts[2..]) == Fail
    ensures ParseSettings(c, ts) == Fail
  {
  }

  lemma {:induction false} SettingsFail(o: Options, members: seq<Member>, c: Ctx, rest: seq<Token>)
    requires WellFormedMembers(members) && !ReadableMembers(members) && UniqueNames(members) && EndsSettings(rest)
    requires c.Valid() && c.pool[c.parent].content == GroupC && FreshNames(c, members)
    ensures Stuck(ParseSettings(c, MembersTokens(o, members) + rest))
    decreases members, 3
  {
    var m := members[0];
    if BooleanWord(m.name) || !Readable(m.value) {
      SettingStuck(o, members, c, rest);
    } else {
      var e := FirstSetting(o, members, c, rest);
      SettingsFail(o, members[1..], e, rest);
    }
  }

  /** The library accepts settings named like a boolean but cannot read them back: a stored
      configuration is readable exactly when no name in it, at any depth, spells true or false. */
  lemma {:induction false} NameDecides(o: Options, root: Value)
    requires root.Group? && WellFormed(root)
    ensures ParseConfig(Lex(ConfigText(o, root))).Some? <==> Readable(root)
  {
    if Readable(root) {
      var c := RoundTrip(o, root);
    } else {
      ConfigLexes(o, root);
      SettingsFail(o, root.members, START, []);
      assert MembersTokens(o, root.members) + [] == MembersTokens(o, root.members);
    }
  }
}
