/** Search filters in the string form of section 3 of RFC 1960: their trees, the text of a
    tree, the parser, and which directory entries satisfy them. */
module LdapFilter {
  import opened Text

  /** A character of a value, or the wildcard an unescaped '*' stands for. */
  datatype Symbol = Lit(c: char) | Star

  datatype Filter =
    | And(fs: seq<Filter>)
    | Or(fs: seq<Filter>)
    | Not(f: Filter)
    | Item(attr: string, pattern: seq<Symbol>)

  /** The values an entry has for each attribute, compared character by character. */
  type Entry = map<string, set<string>>

  // ---------------------------------------------------------------------------
  // Meaning
  // ---------------------------------------------------------------------------

  predicate Match(p: seq<Symbol>, v: string) {
    if p == [] then v == ""
    else match p[0]
      case Lit(c) => v != "" && v[0] == c && Match(p[1..], v[1..])
      case Star => exists k | 0 <= k <= |v| :: Match(p[1..], v[k..])
  }

  predicate Satisfies(e: Entry, f: Filter)
    decreases f, 1
  {
    match f
    case And(fs) => forall i | 0 <= i < |fs| :: Satisfies(e, fs[i])
    case Or(fs) => exists i | 0 <= i < |fs| :: Satisfies(e, fs[i])
    case Not(g) => !Satisfies(e, g)
    case Item(attr, p) => attr in e && exists v | v in e[attr] :: Match(p, v)
  }

  function Lits(v: string): (p: seq<Symbol>)
    ensures |p| == |v| && forall i :: 0 <= i < |v| ==> p[i] == Lit(v[i])
  {
    seq(|v|, i requires 0 <= i < |v| => Lit(v[i]))
  }

  predicate Has(e: Entry, attr: string, v: string) {
    attr in e && v in e[attr]
  }

  lemma {:induction false} LitsMatch(t: string, v: string)
    ensures Match(Lits(t), v) <==> v == t
    decreases |t|
  {
    if t != "" && v != "" {
      assert Lits(t)[1..] == Lits(t[1..]);
      LitsMatch(t[1..], v[1..]);
      assert t == [t[0]] + t[1..] && v == [v[0]] + v[1..];
    }
  }

  lemma {:induction false} LitsThen(t: string, p: seq<Symbol>, v: string)
    ensures Match(Lits(t) + p, v) <==> t <= v && Match(p, v[|t|..])
    decreases |t|
  {
    if t == "" {
      assert Lits(t) + p == p && v[0..] == v;
    } else {
      assert (Lits(t) + p)[1..] == Lits(t[1..]) + p && (Lits(t) + p)[0] == Lit(t[0]);
      if v != "" {
        LitsThen(t[1..], p, v[1..]);
        assert v == [v[0]] + v[1..] && t == [t[0]] + t[1..];
        if |t| <= |v| { assert v[1..][|t| - 1..] == v[|t|..]; }
      }
    }
  }

  /** A wildcard stands for any text. */
  lemma StarMatches(a: string, b: string, v: string)
    ensures Match(Lits(a) + ([Star] + Lits(b)), v) <==> exists m :: v == a + m + b
  {
    hide Match, Lits;
    LitsThen(a, [Star] + Lits(b), v);
    if a <= v { StarThen(b, v[|a|..]); }
    MiddlePart(a, b, v);
  }

  lemma MiddlePart(a: string, b: string, v: string)
    ensures (a <= v && exists m :: v[|a|..] == m + b) <==> exists m :: v == a + m + b
  {
    if m :| v == a + m + b {
      assert a + m + b == a + (m + b);
      assert v[|a|..] == m + b;
    }
    if a <= v {
      if m :| v[|a|..] == m + b {
        assert v == a + v[|a|..];
        assert v == a + m + b;
      }
    }
  }

  lemma StarThen(b: string, v: string)
    ensures Match([Star] + Lits(b), v) <==> exists m :: v == m + b
  {
    var p := [Star] + Lits(b);
    assert p[0] == Star && p[1..] == Lits(b);
    forall w ensures Match(Lits(b), w) <==> w == b { LitsMatch(b, w); }
    if k :| 0 <= k <= |v| && v[k..] == b { assert v == v[..k] + b; }
    if m :| v == m + b { assert v[|m|..] == b; }
  }

  /** Some value of the attribute matches the pattern. */
  predicate HasLike(e: Entry, attr: string, p: seq<Symbol>) {
    attr in e && exists v | v in e[attr] :: Match(p, v)
  }

  lemma HasLikeLits(e: Entry, attr: string, v: string)
    ensures HasLike(e, attr, Lits(v)) <==> Has(e, attr, v)
  {
    forall w ensures Match(Lits(v), w) <==> w == v { LitsMatch(v, w); }
  }

  // ---------------------------------------------------------------------------
  // Text
  // ---------------------------------------------------------------------------

  const SPECIAL := "*()\\"

  function SymbolText(s: Symbol): string {
    match s
    case Star => "*"
    case Lit(c) => if c in SPECIAL then ['\\', c] else [c]
  }

  function PatternText(p: seq<Symbol>): string {
    if p == [] then "" else SymbolText(p[0]) + PatternText(p[1..])
  }

  function FilterText(f: Filter): string
    decreases f, 1
  {
    match f
    case And(fs) => "(&" + ListText(fs) + ")"
    case Or(fs) => "(|" + ListText(fs) + ")"
    case Not(g) => "(!" + FilterText(g) + ")"
    case Item(attr, p) => "(" + attr + "=" + PatternText(p) + ")"
  }

  function ListText(fs: seq<Filter>): string
    decreases fs, 0
  {
    if fs == [] then "" else FilterText(fs[0]) + ListText(fs[1..])
  }

  // ---------------------------------------------------------------------------
  // Parser
  // ---------------------------------------------------------------------------

  /** A parsed piece and the text behind it. */
  datatype Parsed<+T> = Bad | Good(value: T, rest: string)

  /** The value of an item, up to its closing parenthesis, which is consumed. */
  function ParsePattern(s: string): (r: Parsed<seq<Symbol>>)
    ensures r.Good? ==> |r.rest| < |s|
  {
    if s == "" || s[0] == '(' then Bad
    else if s[0] == ')' then Good([], s[1..])
    else if s[0] == '\\' then
      if |s| < 2 then Bad
      else
        var r := ParsePattern(s[2..]);
        if r.Bad? then Bad else Good([Lit(s[1])] + r.value, r.rest)
    else
      var r := ParsePattern(s[1..]);
      if r.Bad? then Bad else Good([if s[0] == '*' then Star else Lit(s[0])] + r.value, r.rest)
  }

  /** Characters that cannot stand in an attribute name. */
  const NOT_ATTR := "=()*\\~<>&|!"

  function ParseItem(s: string): (r: Parsed<Filter>)
    ensures r.Good? ==> |r.rest| < |s|
  {
    var k := Find(s, NOT_ATTR);
    if k == 0 || k == |s| || s[k] != '=' then Bad
    else
      var r := ParsePattern(s[k + 1..]);
      if r.Bad? then Bad else Good(Item(s[..k], r.value), r.rest)
  }

  /** Drops the closing parenthesis. */
  function Close<T>(r: Parsed<T>): (q: Parsed<T>)
    ensures q.Good? ==> r.Good? && |q.rest| < |r.rest|
  {
    if r.Good? && r.rest != "" && r.rest[0] == ')' then Good(r.value, r.rest[1..]) else Bad
  }

  function Parse(s: string): (r: Parsed<Filter>)
    ensures r.Good? ==> |r.rest| < |s|
    decreases |s|, 0
  {
    if |s| < 2 || s[0] != '(' then Bad
    else if s[1] == '&' || s[1] == '|' then
      var r := Close(ParseList(s[2..]));
      if r.Bad? || r.value == [] then Bad
      else Good(if s[1] == '&' then And(r.value) else Or(r.value), r.rest)
    else if s[1] == '!' then
      var r := Close(Parse(s[2..]));
      if r.Bad? then Bad else Good(Not(r.value), r.rest)
    else ParseItem(s[1..])
  }

  function ParseList(s: string): (r: Parsed<seq<Filter>>)
    ensures r.Good? ==> |r.rest| <= |s|
    decreases |s|, 1
  {
    if s == "" || s[0] != '(' then Good([], s)
    else
      var r := Parse(s);
      if r.Bad? then Bad
      else
        var q := ParseList(r.rest);
        if q.Bad? then Bad else Good([r.value] + q.value, q.rest)
  }

  /** The filter a whole text denotes. */
  function ParseFilter(s: string): Option<Filter> {
    var r := Parse(s);
    if r.Good? && r.rest == "" then Some(r.value) else None
  }

  // ---------------------------------------------------------------------------
  // The parser reads back every tree
  // ---------------------------------------------------------------------------

  predicate AttrName(a: string) {
    a != "" && forall i :: 0 <= i < |a| ==> a[i] !in NOT_ATTR
  }

  predicate WellFormed(f: Filter) {
    match f
    case And(fs) => fs != [] && forall i | 0 <= i < |fs| :: WellFormed(fs[i])
    case Or(fs) => fs != [] && forall i | 0 <= i < |fs| :: WellFormed(fs[i])
    case Not(g) => WellFormed(g)
    case Item(a, _) => AttrName(a)
  }

  /** The pattern a value spells: '*' is the wildcard, and a backslash makes the character behind
      it an ordinary one.  None if a parenthesis has no backslash or a backslash nothing behind it. */
  function PatternOf(v: string): Option<seq<Symbol>> {
    if v == "" then Some([])
    else if v[0] == '(' || v[0] == ')' then None
    else if v[0] == '\\' then
      if |v| < 2 then None else Prepend(Lit(v[1]), PatternOf(v[2..]))
    else Prepend(if v[0] == '*' then Star else Lit(v[0]), PatternOf(v[1..]))
  }

  function Prepend(s: Symbol, p: Option<seq<Symbol>>): Option<seq<Symbol>> {
    if p.None? then None else Some([s] + p.value)
  }

  /** The value spells a pattern: its parentheses and backslashes are escaped, '*' need not be. */
  predicate Escaped(v: string) {
    PatternOf(v).Some?
  }

  lemma {:induction false} PatternIsRead(v: string, tail: string)
    requires PatternOf(v).Some?
    ensures ParsePattern(v + ")" + tail) == Good(PatternOf(v).value, tail)
    decreases |v|
  {
    var s := v + ")" + tail;
    if v == "" {
      assert s == ")" + tail;
      assert s[1..] == tail;
    } else {
      var k := if v[0] == '\\' then 2 else 1;
      assert s[0] == v[0] && (k == 2 ==> s[1] == v[1]);
      assert s[k..] == v[k..] + ")" + tail;
      PatternIsRead(v[k..], tail);
    }
  }

  lemma SymbolSpelt(s: Symbol, v: string)
    ensures PatternOf(SymbolText(s) + v) == Prepend(s, PatternOf(v))
  {
    var here := SymbolText(s);
    assert (here + v)[|here|..] == v;
  }

  lemma {:induction false} PatternOfText(p: seq<Symbol>)
    ensures PatternOf(PatternText(p)) == Some(p)
  {
    assert PatternOf("") == Some([]);
    hide PatternOf, SymbolText;
    if p != [] {
      PatternOfText(p[1..]);
      SymbolSpelt(p[0], PatternText(p[1..]));
      assert p == [p[0]] + p[1..];
    }
  }

  lemma {:induction false} PatternOfAppend(v: string, w: string)
    requires PatternOf(v).Some? && PatternOf(w).Some?
    ensures PatternOf(v + w) == Some(PatternOf(v).value + PatternOf(w).value)
    decreases |v|
  {
    if v == "" {
      assert v + w == w && [] + PatternOf(w).value == PatternOf(w).value;
    } else {
      var k := if v[0] == '\\' then 2 else 1;
      PatternOfAppend(v[k..], w);
      assert (v + w)[k..] == v[k..] + w && (v + w)[0] == v[0] && (k == 2 ==> (v + w)[1] == v[1]);
      var s := if k == 2 then Lit(v[1]) else if v[0] == '*' then Star else Lit(v[0]);
      Assoc([s], PatternOf(v[k..]).value, PatternOf(w).value);
    }
  }

  /** Whatever follows, the text is read as the filter. */
  ghost predicate Denotes(text: string, f: Filter) {
    text != "" && text[0] == '(' && forall tail :: Parse(text + tail) == Good(f, tail)
  }

  /** Before a closing parenthesis, the text is read as the filters. */
  ghost predicate ListDenotes(text: string, fs: seq<Filter>) {
    forall tail :: tail != "" && tail[0] == ')' ==> ParseList(text + tail) == Good(fs, tail)
  }

  lemma ItemParses(a: string, v: string, tail: string)
    requires AttrName(a) && PatternOf(v).Some?
    ensures ParseItem(a + "=" + (v + ")" + tail)) == Good(Item(a, PatternOf(v).value), tail)
  {
    hide ParsePattern, PatternOf;
    var more := v + ")" + tail;
    var s := a + "=" + more;
    assert s[|a|] == '=' && '=' in NOT_ATTR;
    FindIs(s, NOT_ATTR, |a|);
    assert s[..|a|] == a && s[|a| + 1..] == more;
    PatternIsRead(v, tail);
  }

  lemma ItemDenotes(a: string, v: string)
    requires AttrName(a) && PatternOf(v).Some?
    ensures Denotes("(" + a + "=" + v + ")", Item(a, PatternOf(v).value))
  {
    hide ParseItem, PatternOf;
    forall tail ensures Parse("(" + a + "=" + v + ")" + tail) == Good(Item(a, PatternOf(v).value), tail) {
      var s := a + "=" + (v + ")" + tail);
      var all := "(" + a + "=" + v + ")" + tail;
      assert all == "(" + s && all[1..] == s && all[1] == a[0];
      assert a[0] !in NOT_ATTR;
      ItemParses(a, v, tail);
    }
  }

  lemma NothingDenotes()
    ensures ListDenotes("", [])
  {
    forall tail: string ensures "" + tail == tail {
    }
  }

  lemma FirstDenotes(text: string, f: Filter, list: string, fs: seq<Filter>)
    requires Denotes(text, f) && ListDenotes(list, fs)
    ensures ListDenotes(text + list, [f] + fs)
  {
    hide Parse;
    forall tail | tail != "" && tail[0] == ')' ensures ParseList(text + list + tail) == Good([f] + fs, tail) {
      Assoc(text, list, tail);
      assert (text + (list + tail))[0] == '(';
    }
  }

  /** An operator and a list. */
  lemma ListFilterDenotes(op: char, list: string, fs: seq<Filter>)
    requires op == '&' || op == '|'
    requires ListDenotes(list, fs) && fs != []
    ensures Denotes("(" + [op] + list + ")", if op == '&' then And(fs) else Or(fs))
  {
    hide ParseItem, ParseList;
    forall tail
      ensures Parse("(" + [op] + list + ")" + tail) == Good(if op == '&' then And(fs) else Or(fs), tail)
    {
      var s := "(" + [op] + list + ")" + tail;
      assert s == "(" + [op] + (list + (")" + tail));
      assert s[0] == '(' && s[1] == op && s[2..] == list + (")" + tail);
      assert (")" + tail)[1..] == tail;
    }
  }

  lemma NotDenotes(text: string, f: Filter)
    requires Denotes(text, f)
    ensures Denotes("(!" + text + ")", Not(f))
  {
    hide ParseItem, ParseList;
    forall tail ensures Parse("(!" + text + ")" + tail) == Good(Not(f), tail) {
      var s := "(!" + text + ")" + tail;
      assert s == "(!" + (text + (")" + tail));
      assert s[0] == '(' && s[1] == '!' && s[2..] == text + (")" + tail);
      assert (")" + tail)[1..] == tail;
    }
  }

  lemma {:induction false} TextDenotes(f: Filter)
    requires WellFormed(f)
    ensures Denotes(FilterText(f), f)
    decreases f, 1
  {
    hide Denotes, ListDenotes, AttrName, ListText, PatternText, PatternOf;
    match f {
      case Item(a, p) =>
        PatternOfText(p);
        ItemDenotes(a, PatternText(p));
      case Not(g) =>
        TextDenotes(g);
        NotDenotes(FilterText(g), g);
      case And(fs) =>
        ListTextDenotes(fs);
        ListFilterDenotes('&', ListText(fs), fs);
        assert "(" + ['&'] == "(&";
      case Or(fs) =>
        ListTextDenotes(fs);
        ListFilterDenotes('|', ListText(fs), fs);
        assert "(" + ['|'] == "(|";
    }
  }

  lemma {:induction false} ListTextDenotes(fs: seq<Filter>)
    requires forall i | 0 <= i < |fs| :: WellFormed(fs[i])
    ensures ListDenotes(ListText(fs), fs)
    decreases fs, 0
  {
    hide Denotes, ListDenotes, FilterText, WellFormed;
    if fs == [] {
      NothingDenotes();
    } else {
      TextDenotes(fs[0]);
      ListTextDenotes(fs[1..]);
      FirstDenotes(FilterText(fs[0]), fs[0], ListText(fs[1..]), fs[1..]);
      assert fs == [fs[0]] + fs[1..];
    }
  }

  lemma DenotedIsParsed(text: string, f: Filter)
    requires Denotes(text, f)
    ensures ParseFilter(text) == Some(f)
  {
    hide Parse;
    assert text + "" == text;
    assert Parse(text + "") == Good(f, "");
  }

  /** Round trip of filters. */
  lemma FilterRoundTrip(f: Filter)
    requires WellFormed(f)
    ensures ParseFilter(FilterText(f)) == Some(f)
  {
    hide Denotes, ParseFilter, FilterText;
    TextDenotes(f);
    DenotedIsParsed(FilterText(f), f);
  }

  // ---------------------------------------------------------------------------
  // Values that need no escaping
  // ---------------------------------------------------------------------------

  predicate PlainValue(v: string) {
    forall i :: 0 <= i < |v| ==> v[i] !in SPECIAL
  }

  lemma {:induction false} PatternTextOfLits(v: string)
    ensures |PatternText(Lits(v))| >= |v|
    ensures PlainValue(v) ==> PatternText(Lits(v)) == v
    ensures |PatternText(Lits(v))| == |v| ==> PlainValue(v)
    decreases |v|
  {
    if v != "" {
      assert Lits(v)[1..] == Lits(v[1..]);
      PatternTextOfLits(v[1..]);
      assert v == [v[0]] + v[1..];
    }
  }

  lemma {:induction false} SpeltLength(v: string)
    requires PatternOf(v).Some?
    ensures |PatternOf(v).value| <= |v|
    decreases |v|
  {
    if v != "" { SpeltLength(v[if v[0] == '\\' then 2 else 1..]); }
  }

  /** Exactly these values spell themselves. */
  lemma {:induction false} PlainSpelt(v: string)
    ensures PatternOf(v) == Some(Lits(v)) <==> PlainValue(v)
    decreases |v|
  {
    if v != "" {
      assert Lits(v) == [Lit(v[0])] + Lits(v[1..]);
      assert PlainValue(v) <==> v[0] !in SPECIAL && PlainValue(v[1..]);
      PlainSpelt(v[1..]);
      if v[0] == '\\' {
        if PatternOf(v).Some? { SpeltLength(v[2..]); }
      } else if PatternOf(v) == Some(Lits(v)) {
        assert PatternOf(v).value[1..] == PatternOf(v[1..]).value && Lits(v)[1..] == Lits(v[1..]);
      }
    }
  }

  /** A value without parentheses and backslashes is its characters, with '*' as the wildcard. */
  lemma {:induction false} WildSpelt(v: string)
    requires forall i :: 0 <= i < |v| ==> v[i] !in "()\\"
    ensures PatternOf(v).Some? && |PatternOf(v).value| == |v|
    ensures forall i :: 0 <= i < |v| ==> PatternOf(v).value[i] == if v[i] == '*' then Star else Lit(v[i])
  {
    if v != "" {
      assert v[0] !in "()\\";
      WildSpelt(v[1..]);
      assert forall i :: 0 < i < |v| ==> v[i] == v[1..][i - 1];
    }
  }

  lemma {:induction false} PatternTextAppend(p: seq<Symbol>, q: seq<Symbol>)
    ensures PatternText(p + q) == PatternText(p) + PatternText(q)
    decreases |p|
  {
    if p == [] {
      assert p + q == q;
    } else {
      assert (p + q)[1..] == p[1..] + q;
      PatternTextAppend(p[1..], q);
    }
  }
}
