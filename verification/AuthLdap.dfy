/** Authorization from a directory (auth_ldap.c, auth_ldap.h). */
module AuthLdap {
  import opened Text
  import opened CBuffer
  import opened LdapFilter

  const LDAP_AUTH_FAILURE := 0
  const LDAP_AUTH_SUCCESS := 1

  const LDAP_HOST_FILTER := "(&(|(host=\\*)(host=%s))(uid=%s))"
  const LDAP_SERVICE_FILTER :=
    "(&(|(host=\\*)(host=%s))" + "(|(authorizedService=%s-\\*)" + "(authorizedService=%s-%s))" + "(uid=%s))"

  // ---------------------------------------------------------------------------
  // snprintf
  // ---------------------------------------------------------------------------

  /** The text a format with "%s" conversions produces. */
  function Format(fmt: string, args: seq<string>): string
    decreases |fmt|
  {
    if fmt == "" then ""
    else if |fmt| >= 2 && fmt[0] == '%' && fmt[1] == 's' && args != [] then
      args[0] + Format(fmt[2..], args[1..])
    else [fmt[0]] + Format(fmt[1..], args)
  }

  /** Whatever follows, the format uses up exactly the arguments and produces the text. */
  ghost predicate Fills(fmt: string, args: seq<string>, text: string) {
    forall rest, more :: Format(fmt + rest, args + more) == text + Format(rest, more)
  }

  lemma PlainCharacter(c: char, rest: string, args: seq<string>)
    requires c != '%'
    ensures Format([c] + rest, args) == [c] + Format(rest, args)
  {
    assert ([c] + rest)[1..] == rest;
  }

  lemma {:induction false} LiteralText(piece: string, rest: string, args: seq<string>)
    requires '%' !in piece
    ensures Format(piece + rest, args) == piece + Format(rest, args)
    decreases |piece|
  {
    hide Format;
    if piece == "" {
      assert piece + rest == rest && piece + Format(rest, args) == Format(rest, args);
    } else {
      var c, tail := piece[0], piece[1..];
      LiteralText(tail, rest, args);
      PlainCharacter(c, tail + rest, args);
      assert piece == [c] + tail;
      Assoc([c], tail, rest);
      Assoc([c], tail, Format(rest, args));
    }
  }

  lemma LiteralFills(piece: string)
    requires '%' !in piece
    ensures Fills(piece, [], piece)
  {
    hide Format;
    forall rest, more ensures Format(piece + rest, [] + more) == piece + Format(rest, more) {
      assert [] + more == more;
      LiteralText(piece, rest, more);
    }
  }

  lemma ConversionFills(arg: string)
    ensures Fills("%s", [arg], arg)
  {
    forall rest: string, more: seq<string> ensures Format("%s" + rest, [arg] + more) == arg + Format(rest, more) {
      assert ("%s" + rest)[2..] == rest && ([arg] + more)[1..] == more;
    }
  }

  lemma FillsBoth(f: string, a: seq<string>, v: string, g: string, b: seq<string>, w: string)
    requires Fills(f, a, v) && Fills(g, b, w)
    ensures Fills(f + g, a + b, v + w)
  {
    hide Format;
    forall rest, more ensures Format(f + g + rest, a + b + more) == v + w + Format(rest, more) {
      assert f + g + rest == f + (g + rest) && a + b + more == a + (b + more);
      assert v + w + Format(rest, more) == v + (w + Format(rest, more));
    }
  }

  lemma FillsAll(fmt: string, args: seq<string>, text: string)
    requires Fills(fmt, args, text)
    ensures Format(fmt, args) == text
  {
    assert Format("", []) == "";
    hide Format;
    assert Format(fmt + "", args + []) == text + "";
    assert fmt + "" == fmt && args + [] == args;
  }

  /** `snprintf` into the whole buffer: what does not fit is cut off, with room for the NUL. */
  method SnPrintF(buf: array<char>, fmt: string, args: seq<string>) returns (n: nat)
    requires buf.Length > 0 && NUL !in Format(fmt, args)
    modifies buf
    ensures n == |Format(fmt, args)|
    ensures Str(buf, 0, Format(fmt, args)[..Min(n, buf.Length - 1)])
  {
    var text := Format(fmt, args);
    n := |text|;
    var m := Min(n, buf.Length - 1);
    for i := 0 to m
      invariant forall j :: 0 <= j < i ==> buf[j] == text[j]
    {
      buf[i] := text[i];
    }
    buf[m] := NUL;
  }

  // ---------------------------------------------------------------------------
  // The filters
  // ---------------------------------------------------------------------------

  /** The tree the host filter should be: the user, and the host or a literal star. */
  function HostTree(host: seq<Symbol>, user: seq<Symbol>): Filter {
    And([Or([Item("host", Lits("*")), Item("host", host)]), Item("uid", user)])
  }

  /** With a service tag: also a service for the host or for a literal star. */
  function ServiceTree(host: seq<Symbol>, user: seq<Symbol>, tag: seq<Symbol>): Filter {
    And([Or([Item("host", Lits("*")), Item("host", host)]),
         Or([Item("authorizedService", tag + Lits("-*")), Item("authorizedService", tag + Lits("-") + host)]),
         Item("uid", user)])
  }

  function ItemText(attr: string, v: string): string {
    "(" + attr + "=" + v + ")"
  }

  /** Two values an attribute may have. */
  function EitherText(attr: string, v: string, w: string): string {
    "(|" + ItemText(attr, v) + ItemText(attr, w) + ")"
  }

  /** What `snprintf` makes of the host format. */
  function HostFilterText(host: string, user: string): string {
    "(&" + EitherText("host", "\\*", host) + ItemText("uid", user) + ")"
  }

  function ServiceFilterText(host: string, user: string, tag: string): string {
    "(&" + EitherText("host", "\\*", host)
    + EitherText("authorizedService", tag + "-" + "\\*", tag + "-" + host) + ItemText("uid", user) + ")"
  }

  /** The formats are these texts with a conversion for each value. */
  lemma HostFormatText()
    ensures LDAP_HOST_FILTER == HostFilterText("%s", "%s")
  {
  }

  lemma FirstServiceText()
    ensures "(|" + ItemText("authorizedService", "%s" + "-" + "\\*") == "(|(authorizedService=%s-\\*)"
  {
  }

  lemma LastServiceText()
    ensures ItemText("authorizedService", "%s" + "-" + "%s") + ")" == "(authorizedService=%s-%s))"
  {
  }

  lemma ServiceItemsText()
    ensures EitherText("authorizedService", "%s" + "-" + "\\*", "%s" + "-" + "%s")
            == "(|(authorizedService=%s-\\*)" + "(authorizedService=%s-%s))"
  {
    FirstServiceText();
    LastServiceText();
    hide ItemText;
    Assoc("(|(authorizedService=%s-\\*)", ItemText("authorizedService", "%s" + "-" + "%s"), ")");
  }

  lemma ServiceFormatText()
    ensures LDAP_SERVICE_FILTER == ServiceFilterText("%s", "%s", "%s")
  {
    var service, last := "(|(authorizedService=%s-\\*)", "(authorizedService=%s-%s))";
    ServiceItemsText();
    assert "(&" + EitherText("host", "\\*", "%s") == "(&(|(host=\\*)(host=%s))";
    assert ItemText("uid", "%s") + ")" == "(uid=%s))";
    hide ItemText, EitherText;
    Assoc("(&(|(host=\\*)(host=%s))", service, last);
    Assoc("(&(|(host=\\*)(host=%s))" + (service + last), ItemText("uid", "%s"), ")");
  }

  lemma ItemFills(attr: string, f: string, a: seq<string>, v: string)
    requires '%' !in attr && Fills(f, a, v)
    ensures Fills(ItemText(attr, f), a, ItemText(attr, v))
  {
    hide Fills;
    LiteralFills("(" + attr + "=");
    LiteralFills(")");
    FillsBoth("(" + attr + "=", [], "(" + attr + "=", f, a, v);
    FillsBoth("(" + attr + "=" + f, [] + a, "(" + attr + "=" + v, ")", [], ")");
    assert [] + a + [] == a;
  }

  lemma EitherFills(attr: string, f: string, a: seq<string>, v: string, g: string, b: seq<string>, w: string)
    requires '%' !in attr && Fills(f, a, v) && Fills(g, b, w)
    ensures Fills(EitherText(attr, f, g), a + b, EitherText(attr, v, w))
  {
    hide Fills, ItemText;
    ItemFills(attr, f, a, v);
    ItemFills(attr, g, b, w);
    LiteralFills("(|");
    LiteralFills(")");
    FillsBoth("(|", [], "(|", ItemText(attr, f), a, ItemText(attr, v));
    FillsBoth("(|" + ItemText(attr, f), [] + a, "(|" + ItemText(attr, v), ItemText(attr, g), b, ItemText(attr, w));
    FillsBoth("(|" + ItemText(attr, f) + ItemText(attr, g), [] + a + b,
      "(|" + ItemText(attr, v) + ItemText(attr, w), ")", [], ")");
    assert [] + a + b + [] == a + b;
  }

  /** A conjunction of a list of host values, what is between, and a uid. */
  lemma AndFills(host: string, user: string, g: string, b: seq<string>, w: string)
    requires Fills(g, b, w)
    ensures Format("(&" + EitherText("host", "\\*", "%s") + g + ItemText("uid", "%s") + ")", [host] + b + [user])
            == "(&" + EitherText("host", "\\*", host) + w + ItemText("uid", user) + ")"
  {
    hide Fills, EitherText, ItemText, Format;
    var e, i := EitherText("host", "\\*", "%s"), ItemText("uid", "%s");
    var x, y := EitherText("host", "\\*", host), ItemText("uid", user);
    LiteralFills("(&");
    LiteralFills("\\*");
    LiteralFills(")");
    ConversionFills(host);
    ConversionFills(user);
    EitherFills("host", "\\*", [], "\\*", "%s", [host], host);
    ItemFills("uid", "%s", [user], user);
    assert [] + [host] == [host];
    FillsBoth("(&", [], "(&", e, [host], x);
    FillsBoth("(&" + e, [host], "(&" + x, g, b, w);
    FillsBoth("(&" + e + g, [host] + b, "(&" + x + w, i, [user], y);
    FillsBoth("(&" + e + g + i, [host] + b + [user], "(&" + x + w + y, ")", [], ")");
    assert [host] + b + [user] + [] == [host] + b + [user];
    FillsAll("(&" + e + g + i + ")", [host] + b + [user], "(&" + x + w + y + ")");
  }

  lemma HostFormat(host: string, user: string)
    ensures Format(LDAP_HOST_FILTER, [host, user]) == HostFilterText(host, user)
  {
    hide Format, EitherText, ItemText, Fills;
    HostFormatText();
    LiteralFills("");
    AndFills(host, user, "", [], "");
    assert [host] + [] + [user] == [host, user];
    forall x: string, y: string ensures "(&" + x + "" + y + ")" == "(&" + x + y + ")" {
      assert "(&" + x + "" == "(&" + x;
    }
  }

  lemma ServiceFormat(host: string, user: string, tag: string)
    ensures Format(LDAP_SERVICE_FILTER, [host, tag, tag, host, user]) == ServiceFilterText(host, user, tag)
  {
    hide Format, EitherText, ItemText, Fills;
    ServiceFormatText();
    ServiceFills(tag, host);
    AndFills(host, user, EitherText("authorizedService", "%s" + "-" + "\\*", "%s" + "-" + "%s"), [tag, tag, host],
      EitherText("authorizedService", tag + "-" + "\\*", tag + "-" + host));
    assert [host] + [tag, tag, host] + [user] == [host, tag, tag, host, user];
  }

  lemma ServiceFills(tag: string, host: string)
    ensures Fills(EitherText("authorizedService", "%s" + "-" + "\\*", "%s" + "-" + "%s"), [tag, tag, host],
                  EitherText("authorizedService", tag + "-" + "\\*", tag + "-" + host))
  {
    hide Fills, EitherText;
    ConversionFills(tag);
    ConversionFills(host);
    LiteralFills("-");
    LiteralFills("\\*");
    FillsBoth("%s", [tag], tag, "-", [], "-");
    FillsBoth("%s" + "-", [tag] + [], tag + "-", "\\*", [], "\\*");
    FillsBoth("%s" + "-", [tag] + [], tag + "-", "%s", [host], host);
    assert [tag] + [] + [] == [tag] && [tag] + [] + [host] == [tag, host] && [tag] + [tag, host] == [tag, tag, host];
    EitherFills("authorizedService", "%s" + "-" + "\\*", [tag], tag + "-" + "\\*",
      "%s" + "-" + "%s", [tag, host], tag + "-" + host);
  }

  // ---------------------------------------------------------------------------
  // What the filters mean
  // ---------------------------------------------------------------------------

  lemma StarText()
    ensures PatternText(Lits("*")) == "\\*" && PatternOf("\\*") == Some(Lits("*"))
  {
    assert Lits("*") == [Lit('*')];
    assert PatternText(Lits("*")) == SymbolText(Lit('*')) + PatternText([]);
    PatternOfText(Lits("*"));
  }

  lemma ListTwo(f: Filter, g: Filter)
    ensures ListText([f, g]) == FilterText(f) + FilterText(g)
  {
    hide FilterText;
    assert [f, g][1..] == [g] && [g][1..] == [];
    assert ListText([g]) == FilterText(g) + "";
  }

  lemma ListThree(f: Filter, g: Filter, h: Filter)
    ensures ListText([f, g, h]) == FilterText(f) + FilterText(g) + FilterText(h)
  {
    hide FilterText;
    assert [f, g, h][1..] == [g, h];
    ListTwo(g, h);
  }

  lemma TextOfItem(attr: string, p: seq<Symbol>)
    ensures FilterText(Item(attr, p)) == ItemText(attr, PatternText(p))
  {
  }

  lemma OrText(fs: seq<Filter>)
    ensures FilterText(Or(fs)) == "(|" + ListText(fs) + ")"
  {
  }

  lemma AndText(fs: seq<Filter>)
    ensures FilterText(And(fs)) == "(&" + ListText(fs) + ")"
  {
  }

  lemma TextOfEither(attr: string, p: seq<Symbol>, q: seq<Symbol>)
    ensures FilterText(Or([Item(attr, p), Item(attr, q)])) == EitherText(attr, PatternText(p), PatternText(q))
  {
    hide PatternText, FilterText, ListText, ItemText;
    ListTwo(Item(attr, p), Item(attr, q));
    TextOfItem(attr, p);
    TextOfItem(attr, q);
    OrText([Item(attr, p), Item(attr, q)]);
    Assoc("(|", ItemText(attr, PatternText(p)), ItemText(attr, PatternText(q)));
  }

  lemma HostTreeText(host: seq<Symbol>, user: seq<Symbol>)
    ensures FilterText(HostTree(host, user)) == HostFilterText(PatternText(host), PatternText(user))
  {
    hide PatternText, FilterText, ListText, ItemText, EitherText;
    var either := Or([Item("host", Lits("*")), Item("host", host)]);
    TextOfEither("host", Lits("*"), host);
    StarText();
    ListTwo(either, Item("uid", user));
    TextOfItem("uid", user);
    AndText([either, Item("uid", user)]);
    Assoc("(&", FilterText(either), FilterText(Item("uid", user)));
  }

  lemma DashText()
    ensures PatternText(Lits("-")) == "-" && PatternText(Lits("-*")) == "-" + "\\*"
    ensures PatternOf("-") == Some(Lits("-")) && PatternOf("-" + "\\*") == Some(Lits("-*"))
  {
    hide PatternText, PatternOf;
    StarText();
    assert Lits("-*") == Lits("-") + Lits("*");
    DashAlone();
    PatternTextAppend(Lits("-"), Lits("*"));
    PatternOfAppend("-", "\\*");
  }

  lemma DashAlone()
    ensures PatternText(Lits("-")) == "-" && PatternOf("-") == Some(Lits("-"))
  {
    assert Lits("-") == [Lit('-')];
    assert PatternText(Lits("-")) == SymbolText(Lit('-')) + PatternText([]);
    PatternOfText(Lits("-"));
  }

  lemma ServiceTreeText(host: seq<Symbol>, user: seq<Symbol>, tag: seq<Symbol>)
    ensures FilterText(ServiceTree(host, user, tag)) ==
            ServiceFilterText(PatternText(host), PatternText(user), PatternText(tag))
  {
    hide PatternText, FilterText, ListText, ItemText, EitherText;
    var either := Or([Item("host", Lits("*")), Item("host", host)]);
    var star, named := tag + Lits("-*"), tag + Lits("-") + host;
    var service := Or([Item("authorizedService", star), Item("authorizedService", named)]);
    var uid := Item("uid", user);
    TextOfEither("host", Lits("*"), host);
    StarText();
    DashText();
    PatternTextAppend(tag, Lits("-*"));
    PatternTextAppend(tag, Lits("-"));
    PatternTextAppend(tag + Lits("-"), host);
    Assoc(PatternText(tag), "-", "\\*");
    TextOfEither("authorizedService", star, named);
    ListThree(either, service, uid);
    TextOfItem("uid", user);
    AndText([either, service, uid]);
    Assoc("(&", FilterText(either) + FilterText(service), FilterText(uid));
    Assoc("(&", FilterText(either), FilterText(service));
  }

  /** The built text is the correctly escaped form of the tree with exactly these values, if and
      only if the values need no escaping. */
  lemma HostFilterIsTreeIff(host: string, user: string)
    ensures HostFilterText(host, user) == FilterText(HostTree(Lits(host), Lits(user))) <==>
            PlainValue(host) && PlainValue(user)
  {
    hide FilterText, PatternText, HostTree;
    HostTreeText(Lits(host), Lits(user));
    PatternTextOfLits(host);
    PatternTextOfLits(user);
    HostLength(host, user);
    HostLength(PatternText(Lits(host)), PatternText(Lits(user)));
  }

  lemma ServiceFilterIsTreeIff(host: string, user: string, tag: string)
    ensures ServiceFilterText(host, user, tag) == FilterText(ServiceTree(Lits(host), Lits(user), Lits(tag))) <==>
            PlainValue(host) && PlainValue(user) && PlainValue(tag)
  {
    hide FilterText, PatternText, ServiceTree, HostTree;
    ServiceTreeText(Lits(host), Lits(user), Lits(tag));
    PatternTextOfLits(host);
    PatternTextOfLits(user);
    PatternTextOfLits(tag);
    ServiceLength(host, user, tag);
    ServiceLength(PatternText(Lits(host)), PatternText(Lits(user)), PatternText(Lits(tag)));
  }

  lemma HostLength(h: string, u: string)
    ensures |HostFilterText(h, u)| == |HostFilterText("", "")| + |h| + |u|
  {
  }

  lemma ServiceLength(h: string, u: string, t: string)
    ensures |ServiceFilterText(h, u, t)| == |ServiceFilterText("", "", "")| + 2 * |h| + |u| + 2 * |t|
  {
  }

  lemma LetterNames(a: string)
    requires a != "" && forall i :: 0 <= i < |a| ==> 'A' <= a[i] <= 'Z' || 'a' <= a[i] <= 'z'
    ensures AttrName(a)
  {
  }

  lemma AttrNames()
    ensures AttrName("host") && AttrName("uid") && AttrName("authorizedService")
  {
    LetterNames("host");
    LetterNames("uid");
    LetterNames("authorizedService");
  }

  /** The pattern of a value that spells one. */
  function Spelt(v: string): seq<Symbol>
    requires PatternOf(v).Some?
  {
    PatternOf(v).value
  }

  lemma EitherDenotes(attr: string, v: string, w: string)
    requires AttrName(attr) && PatternOf(v).Some? && PatternOf(w).Some?
    ensures Denotes(EitherText(attr, v, w), Or([Item(attr, Spelt(v)), Item(attr, Spelt(w))]))
  {
    hide PatternOf, Denotes, ListDenotes, AttrName;
    ItemDenotes(attr, v);
    ItemDenotes(attr, w);
    hide ItemText;
    var f, g := Item(attr, Spelt(v)), Item(attr, Spelt(w));
    TwoDenote(ItemText(attr, v), f, ItemText(attr, w), g);
    ListFilterDenotes('|', ItemText(attr, v) + ItemText(attr, w), [f, g]);
    assert "(" + ['|'] == "(|";
    Assoc("(|", ItemText(attr, v), ItemText(attr, w));
  }

  lemma TwoDenote(v: string, f: Filter, w: string, g: Filter)
    requires Denotes(v, f) && Denotes(w, g)
    ensures ListDenotes(v + w, [f, g])
  {
    hide Denotes, ListDenotes;
    NothingDenotes();
    FirstDenotes(w, g, "", []);
    assert w + "" == w && [g] + [] == [g] && [f] + [g] == [f, g];
    FirstDenotes(v, f, w, [g]);
  }

  /** Whenever host and user spell patterns, the host filter is read as the tree of the patterns. */
  lemma HostFilterDenotes(host: string, user: string)
    requires PatternOf(host).Some? && PatternOf(user).Some?
    ensures Denotes(HostFilterText(host, user), HostTree(Spelt(host), Spelt(user)))
  {
    AttrNames();
    StarText();
    hide PatternOf, Denotes, ListDenotes, AttrName, EitherText;
    EitherDenotes("host", "\\*", host);
    ItemDenotes("uid", user);
    hide ItemText;
    var x, y := EitherText("host", "\\*", host), ItemText("uid", user);
    var f, g := Or([Item("host", Lits("*")), Item("host", Spelt(host))]), Item("uid", Spelt(user));
    TwoDenote(x, f, y, g);
    ListFilterDenotes('&', x + y, [f, g]);
    assert "(" + ['&'] == "(&";
    Assoc("(&", x, y);
  }

  lemma ServiceDenotes(host: string, tag: string)
    requires PatternOf(host).Some? && PatternOf(tag).Some?
    ensures Denotes(EitherText("authorizedService", tag + "-" + "\\*", tag + "-" + host),
                    Or([Item("authorizedService", Spelt(tag) + Lits("-*")),
                        Item("authorizedService", Spelt(tag) + Lits("-") + Spelt(host))]))
  {
    AttrNames();
    DashText();
    hide PatternOf, Denotes, AttrName, EitherText;
    PatternOfAppend(tag, "-" + "\\*");
    Assoc(tag, "-", "\\*");
    PatternOfAppend(tag, "-");
    PatternOfAppend(tag + "-", host);
    EitherDenotes("authorizedService", tag + "-" + "\\*", tag + "-" + host);
  }

  lemma ServiceFilterDenotes(host: string, user: string, tag: string)
    requires PatternOf(host).Some? && PatternOf(user).Some? && PatternOf(tag).Some?
    ensures Denotes(ServiceFilterText(host, user, tag), ServiceTree(Spelt(host), Spelt(user), Spelt(tag)))
  {
    AttrNames();
    StarText();
    hide PatternOf, Denotes, ListDenotes, AttrName, EitherText;
    EitherDenotes("host", "\\*", host);
    ServiceDenotes(host, tag);
    ItemDenotes("uid", user);
    hide ItemText;
    var x, z := EitherText("host", "\\*", host), ItemText("uid", user);
    var y := EitherText("authorizedService", tag + "-" + "\\*", tag + "-" + host);
    var tree := ServiceTree(Spelt(host), Spelt(user), Spelt(tag));
    var f, g, h := tree.fs[0], tree.fs[1], tree.fs[2];
    TwoDenote(y, g, z, h);
    FirstDenotes(x, f, y + z, [g, h]);
    assert [f] + [g, h] == [f, g, h];
    ListFilterDenotes('&', x + (y + z), [f, g, h]);
    assert "(" + ['&'] == "(&";
    Assoc("(&", x, y + z);
    Assoc("(&" + x, y, z);
  }

  /** The entry of a user who may use the host: values that match the patterns, or a host that
      is a star. */
  predicate MayUse(e: Entry, host: seq<Symbol>, user: seq<Symbol>) {
    HasLike(e, "uid", user) && (Has(e, "host", "*") || HasLike(e, "host", host))
  }

  /** ... and may use it in proxy mode through the bastion the tag names. */
  predicate MayProxy(e: Entry, host: seq<Symbol>, user: seq<Symbol>, tag: seq<Symbol>) {
    && MayUse(e, host, user)
    && (HasLike(e, "authorizedService", tag + Lits("-*"))
        || HasLike(e, "authorizedService", tag + Lits("-") + host))
  }

  lemma EitherMeaning(e: Entry, attr: string, p: seq<Symbol>, q: seq<Symbol>)
    ensures Satisfies(e, Or([Item(attr, p), Item(attr, q)])) <==> HasLike(e, attr, p) || HasLike(e, attr, q)
  {
    var fs := [Item(attr, p), Item(attr, q)];
    assert Satisfies(e, Or(fs)) <==> Satisfies(e, fs[0]) || Satisfies(e, fs[1]);
  }

  lemma AndTwo(e: Entry, f: Filter, g: Filter)
    ensures Satisfies(e, And([f, g])) <==> Satisfies(e, f) && Satisfies(e, g)
  {
    var fs := [f, g];
    assert Satisfies(e, And(fs)) <==> Satisfies(e, fs[0]) && Satisfies(e, fs[1]);
  }

  lemma AndThree(e: Entry, f: Filter, g: Filter, h: Filter)
    ensures Satisfies(e, And([f, g, h])) <==> Satisfies(e, f) && Satisfies(e, g) && Satisfies(e, h)
  {
    var fs := [f, g, h];
    assert Satisfies(e, And(fs)) <==> Satisfies(e, fs[0]) && Satisfies(e, fs[1]) && Satisfies(e, fs[2]);
  }

  lemma ItemMeaning(e: Entry, attr: string, p: seq<Symbol>)
    ensures Satisfies(e, Item(attr, p)) <==> HasLike(e, attr, p)
  {
  }

  /** What an entry must have for a text to select it; a text that is no filter selects none. */
  predicate Selects(text: string, e: Entry) {
    ParseFilter(text).Some? && Satisfies(e, ParseFilter(text).value)
  }

  /** The host filter selects exactly the entries of users like the user that list the host, one
      like it, or a star. */
  lemma HostFilterMeaning(host: string, user: string)
    requires PatternOf(host).Some? && PatternOf(user).Some?
    ensures ParseFilter(HostFilterText(host, user)) == Some(HostTree(Spelt(host), Spelt(user)))
    ensures forall e :: Selects(HostFilterText(host, user), e) <==> MayUse(e, Spelt(host), Spelt(user))
  {
    hide Satisfies, Has, HasLike, ParseFilter, HostFilterText, Denotes, PatternOf;
    HostFilterDenotes(host, user);
    var h, u := Spelt(host), Spelt(user);
    DenotedIsParsed(HostFilterText(host, user), HostTree(h, u));
    forall e ensures Satisfies(e, HostTree(h, u)) <==> MayUse(e, h, u) {
      EitherMeaning(e, "host", Lits("*"), h);
      HasLikeLits(e, "host", "*");
      ItemMeaning(e, "uid", u);
      AndTwo(e, Or([Item("host", Lits("*")), Item("host", h)]), Item("uid", u));
    }
  }

  lemma ServiceFilterMeaning(host: string, user: string, tag: string)
    requires PatternOf(host).Some? && PatternOf(user).Some? && PatternOf(tag).Some?
    ensures ParseFilter(ServiceFilterText(host, user, tag))
            == Some(ServiceTree(Spelt(host), Spelt(user), Spelt(tag)))
    ensures forall e :: Selects(ServiceFilterText(host, user, tag), e)
                        <==> MayProxy(e, Spelt(host), Spelt(user), Spelt(tag))
  {
    hide Satisfies, Has, HasLike, ParseFilter, ServiceFilterText, Denotes, PatternOf;
    ServiceFilterDenotes(host, user, tag);
    var h, u, t := Spelt(host), Spelt(user), Spelt(tag);
    DenotedIsParsed(ServiceFilterText(host, user, tag), ServiceTree(h, u, t));
    forall e ensures Satisfies(e, ServiceTree(h, u, t)) <==> MayProxy(e, h, u, t) {
      var star, named := t + Lits("-*"), t + Lits("-") + h;
      EitherMeaning(e, "host", Lits("*"), h);
      HasLikeLits(e, "host", "*");
      EitherMeaning(e, "authorizedService", star, named);
      ItemMeaning(e, "uid", u);
      AndThree(e, Or([Item("host", Lits("*")), Item("host", h)]),
        Or([Item("authorizedService", star), Item("authorizedService", named)]), Item("uid", u));
    }
  }

  /** Values that need no escaping spell themselves, and then the entry must have just them. */
  lemma PlainMeaning(e: Entry, host: string, user: string, tag: string)
    requires PlainValue(host) && PlainValue(user) && PlainValue(tag)
    ensures PatternOf(host).Some? && PatternOf(user).Some? && PatternOf(tag).Some?
    ensures MayUse(e, Spelt(host), Spelt(user)) <==>
            Has(e, "uid", user) && (Has(e, "host", "*") || Has(e, "host", host))
    ensures MayProxy(e, Spelt(host), Spelt(user), Spelt(tag)) <==>
      && MayUse(e, Spelt(host), Spelt(user))
      && (Has(e, "authorizedService", tag + "-*") || Has(e, "authorizedService", tag + "-" + host))
  {
    hide Has, HasLike, PatternOf, PlainValue;
    PlainSpelt(host);
    PlainSpelt(user);
    PlainSpelt(tag);
    HasLikeLits(e, "uid", user);
    HasLikeLits(e, "host", host);
    assert Lits(tag) + Lits("-*") == Lits(tag + "-*");
    assert Lits(tag) + Lits("-") + Lits(host) == Lits(tag + "-" + host);
    HasLikeLits(e, "authorizedService", tag + "-*");
    HasLikeLits(e, "authorizedService", tag + "-" + host);
  }

  /** The user "*" is every user: the text is not the escaped filter for that name, and it selects
      every entry with any uid that lists the host or a star. */
  lemma StarIsEveryUser(host: string)
    requires PlainValue(host)
    ensures HostFilterText(host, "*") != FilterText(HostTree(Lits(host), Lits("*")))
    ensures forall e :: Selects(HostFilterText(host, "*"), e) <==>
                        "uid" in e && e["uid"] != {} && (Has(e, "host", "*") || Has(e, "host", host))
  {
    hide HostFilterText, FilterText, HostTree, Selects, PatternOf;
    HostFilterIsTreeIff(host, "*");
    assert "*"[0] in SPECIAL;
    PlainSpelt(host);
    WildSpelt("*");
    assert Spelt("*") == [Star];
    HostFilterMeaning(host, "*");
    forall e ensures MayUse(e, Spelt(host), Spelt("*")) <==>
                     "uid" in e && e["uid"] != {} && (Has(e, "host", "*") || Has(e, "host", host))
    {
      HasLikeLits(e, "host", host);
      AnyValue(e, "uid");
    }
  }

  lemma AnyValue(e: Entry, attr: string)
    ensures HasLike(e, attr, [Star]) <==> attr in e && e[attr] != {}
  {
    forall v: string ensures Match([Star], v) {
      assert [Star][1..] == [] && v[|v|..] == "" && Match([], v[|v|..]);
    }
  }

  // ---------------------------------------------------------------------------
  // get_host_filter and get_service_filter
  // ---------------------------------------------------------------------------

  predicate Empty(v: Option<string>) {
    v.None? || v.value == ""
  }

  predicate NoNul(v: string) {
    NUL !in v
  }

  /** `get_host_filter`: the computed size always holds the whole text and its NUL. */
  method GetHostFilter(host: Option<string>, user: Option<string>) returns (filter: array?<char>)
    requires host.Some? ==> NoNul(host.value)
    requires user.Some? ==> NoNul(user.value)
    ensures filter == null <==> Empty(host) || Empty(user)
    ensures filter != null ==> fresh(filter) && Str(filter, 0, HostFilterText(host.value, user.value))
  {
    hide Format;
    if host.None? || host.value == "" {
      return null;
    }
    if user.None? || user.value == "" {
      return null;
    }
    var fmtlen := |host.value| + |user.value| + |LDAP_HOST_FILTER|;
    filter := new char[fmtlen];
    ghost var text := HostFilterText(host.value, user.value);
    HostFormat(host.value, user.value);
    var n := SnPrintF(filter, LDAP_HOST_FILTER, [host.value, user.value]);
    assert n == |text| && n < fmtlen && text[..n] == text;
  }

  /** `get_service_filter`: likewise. */
  method GetServiceFilter(host: Option<string>, user: Option<string>, tag: Option<string>)
    returns (filter: array?<char>)
    requires host.Some? ==> NoNul(host.value)
    requires user.Some? ==> NoNul(user.value)
    requires tag.Some? ==> NoNul(tag.value)
    ensures filter == null <==> Empty(host) || Empty(user) || Empty(tag)
    ensures filter != null ==>
      fresh(filter) && Str(filter, 0, ServiceFilterText(host.value, user.value, tag.value))
  {
    hide Format;
    if host.None? || host.value == "" {
      return null;
    }
    if user.None? || user.value == "" {
      return null;
    }
    if tag.None? || tag.value == "" {
      return null;
    }
    var fmtlen := |host.value| * 2 + |user.value| + |tag.value| * 2 + |LDAP_SERVICE_FILTER|;
    filter := new char[fmtlen];
    ghost var text := ServiceFilterText(host.value, user.value, tag.value);
    ServiceFormat(host.value, user.value, tag.value);
    ServiceLength(host.value, user.value, tag.value);
    ServiceHasNoNul(host.value, user.value, tag.value);
    var n := SnPrintF(filter, LDAP_SERVICE_FILTER, [host.value, tag.value, tag.value, host.value, user.value]);
    assert n == |text| && n < fmtlen && text[..n] == text;
  }

  lemma ServiceHasNoNul(h: string, u: string, t: string)
    requires NoNul(h) && NoNul(u) && NoNul(t)
    ensures NUL !in ServiceFilterText(h, u, t)
  {
  }

  // ---------------------------------------------------------------------------
  // get_auth_ldap
  // ---------------------------------------------------------------------------

  /** What the server lists under the search base, in its order: entries, and references to
      other servers. */
  datatype Item = Object(entry: Entry) | Reference

  /** The LDAP library and the server behind it: the defaults of ldap.conf, whether connecting
      works, whether an answer to the bind and one to the search arrive, and what is listed.
      The code never reads what the answer to the bind says. */
  datatype Directory = Directory(
    defaultUri: Option<string>,
    defaultBase: Option<string>,
    connects: bool,
    answersBind: bool,
    answersSearch: bool,
    items: seq<Item>)

  datatype Message = EntryMessage(entry: Entry) | ReferenceMessage | DoneMessage

  /** The messages a search is answered with: each matching entry and each reference, in the
      server's order, and then that it is done. */
  function Replies(items: seq<Item>, f: Filter): (ms: seq<Message>)
    ensures ms != []
  {
    if items == [] then [DoneMessage]
    else
      var rest := Replies(items[1..], f);
      match items[0]
      case Reference => [ReferenceMessage] + rest
      case Object(e) => if Satisfies(e, f) then [EntryMessage(e)] + rest else rest
  }

  /** The one message that `ldap_result` fetches when it is asked for one at a time, if there is
      any; a text that is no filter is not answered. */
  function FirstReply(d: Directory, text: string): Option<Message> {
    if !d.answersSearch then None
    else
      match ParseFilter(text)
      case None => None
      case Some(f) => Some(Replies(d.items, f)[0])
  }

  /** `ldap_count_entries` on what was fetched. */
  function CountEntries(fetched: Option<Message>): nat {
    if fetched.Some? && fetched.value.EntryMessage? then 1 else 0
  }

  /** The filter for a request, or None when it cannot be built. */
  function RequestText(user: Option<string>, host: Option<string>, tag: Option<string>): Option<string> {
    if Empty(host) || Empty(user) then None
    else if tag.None? then Some(HostFilterText(host.value, user.value))
    else if tag.value == "" then None
    else Some(ServiceFilterText(host.value, user.value, tag.value))
  }

  predicate HasServer(ldapUri: Option<string>, ldapBase: Option<string>, d: Directory) {
    && (ldapUri.Some? || d.defaultUri.Some?)
    && (ldapBase.Some? || d.defaultBase.Some?)
    && d.connects && d.answersBind && d.answersSearch
  }

  /** The decision: the first reply to the search is an entry. */
  predicate LdapGrants(user: Option<string>, host: Option<string>, tag: Option<string>, useLdap: int,
                       ldapUri: Option<string>, ldapBase: Option<string>, d: Directory) {
    || useLdap == 0
    || (&& HasServer(ldapUri, ldapBase, d)
        && RequestText(user, host, tag).Some?
        && CountEntries(FirstReply(d, RequestText(user, host, tag).value)) == 1)
  }

  /** `get_auth_ldap` */
  method GetAuthLdap(user: Option<string>, host: Option<string>, tag: Option<string>, useLdap: int,
                     ldapUri: Option<string>, ldapBase: Option<string>, d: Directory)
    returns (auth: int)
    requires host.Some? ==> NoNul(host.value)
    requires user.Some? ==> NoNul(user.value)
    requires tag.Some? ==> NoNul(tag.value)
    ensures auth == if LdapGrants(user, host, tag, useLdap, ldapUri, ldapBase, d)
                    then LDAP_AUTH_SUCCESS else LDAP_AUTH_FAILURE
  {
    hide HostFilterText, ServiceFilterText, ParseFilter, Replies;
    if useLdap == 0 {
      return LDAP_AUTH_SUCCESS;
    }
    var uri := if ldapUri.Some? then ldapUri else d.defaultUri;
    if uri.None? {
      return LDAP_AUTH_FAILURE;
    }
    var base := if ldapBase.Some? then ldapBase else d.defaultBase;
    if base.None? {
      return LDAP_AUTH_FAILURE;
    }
    var filter: array?<char>;
    if tag.None? {
      filter := GetHostFilter(host, user);
    } else {
      filter := GetServiceFilter(host, user, tag);
    }
    if filter == null {
      return LDAP_AUTH_FAILURE;
    }
    var text := StrDup(filter, 0, RequestText(user, host, tag).value);
    if d.connects {
      if d.answersBind {
        var result := FirstReply(d, text);
        auth := if CountEntries(result) == 1 then LDAP_AUTH_SUCCESS else LDAP_AUTH_FAILURE;
      } else {
        auth := LDAP_AUTH_FAILURE;
      }
    } else {
      auth := LDAP_AUTH_FAILURE;
    }
  }

  /** The i-th item is an entry with the property, and no reference is listed before it. */
  ghost predicate EntryAt(items: seq<Item>, p: Entry -> bool, i: nat) {
    i < |items| && items[i].Object? && p(items[i].entry) && forall j :: 0 <= j < i ==> items[j].Object?
  }

  /** Some entry has the property, and no reference is listed before it. */
  ghost predicate SomeEntry(items: seq<Item>, p: Entry -> bool) {
    exists i: nat :: EntryAt(items, p, i)
  }

  lemma EntryAtFirst(item: Item, rest: seq<Item>, p: Entry -> bool, i: nat)
    ensures EntryAt([item] + rest, p, 0) <==> item.Object? && p(item.entry)
    ensures EntryAt([item] + rest, p, i + 1) <==> item.Object? && EntryAt(rest, p, i)
  {
    var items := [item] + rest;
    assert forall j :: 0 <= j < |rest| ==> rest[j] == items[j + 1];
    assert forall j :: 0 < j < |items| ==> items[j] == rest[j - 1];
  }

  lemma SomeEntryFirst(item: Item, rest: seq<Item>, p: Entry -> bool)
    ensures SomeEntry([item] + rest, p) <==> item.Object? && (p(item.entry) || SomeEntry(rest, p))
  {
    EntryAtFirst(item, rest, p, 0);
    hide EntryAt;
    if i: nat :| EntryAt(rest, p, i) {
      EntryAtFirst(item, rest, p, i);
    }
    if i: nat :| EntryAt([item] + rest, p, i) {
      if i > 0 { EntryAtFirst(item, rest, p, i - 1); }
    }
  }

  /** Other matching entries behind the first do not matter. */
  lemma {:induction false} FirstIsEntryIff(items: seq<Item>, f: Filter)
    ensures Replies(items, f)[0].EntryMessage? <==> SomeEntry(items, e => Satisfies(e, f))
  {
    hide Satisfies;
    if items != [] {
      hide SomeEntry;
      FirstIsEntryIff(items[1..], f);
      SomeEntryFirst(items[0], items[1..], e => Satisfies(e, f));
      assert items == [items[0]] + items[1..];
    }
  }

  lemma SameSelection(items: seq<Item>, p: Entry -> bool, q: Entry -> bool)
    requires forall e :: p(e) ==> q(e)
    ensures SomeEntry(items, p) ==> SomeEntry(items, q)
  {
    if i: nat :| EntryAt(items, p, i) { assert EntryAt(items, q, i); }
  }

  /** Whatever the values: granted exactly when LDAP is off, or there is a server that answers both
      the bind and the search and the built text selects some entry before any reference. */
  lemma LdapMeaning(user: Option<string>, host: Option<string>, tag: Option<string>, useLdap: int,
                    ldapUri: Option<string>, ldapBase: Option<string>, d: Directory)
    ensures LdapGrants(user, host, tag, useLdap, ldapUri, ldapBase, d) <==>
      || useLdap == 0
      || (&& (ldapUri.Some? || d.defaultUri.Some?) && (ldapBase.Some? || d.defaultBase.Some?)
          && d.connects && d.answersBind && d.answersSearch && RequestText(user, host, tag).Some?
          && SomeEntry(d.items, e => Selects(RequestText(user, host, tag).value, e)))
  {
    hide RequestText, ParseFilter, Satisfies, Replies, SomeEntry;
    if RequestText(user, host, tag).Some? {
      var text := RequestText(user, host, tag).value;
      var p := (e: Entry) => Selects(text, e);
      if ParseFilter(text).Some? {
        var f := ParseFilter(text).value;
        FirstIsEntryIff(d.items, f);
        var q := (e: Entry) => Satisfies(e, f);
        SameSelection(d.items, p, q);
        SameSelection(d.items, q, p);
      } else {
        NoEntry(d.items, p);
      }
    }
  }

  lemma NoEntry(items: seq<Item>, p: Entry -> bool)
    requires forall e :: !p(e)
    ensures !SomeEntry(items, p)
  {
  }

  /** For values that spell patterns, without a tag: granted exactly when some entry, before any
      reference, is of a user like the user and lists a host like the host or a star. */
  lemma LdapHostMeaning(user: string, host: string, useLdap: int,
                        ldapUri: Option<string>, ldapBase: Option<string>, d: Directory)
    requires PatternOf(host).Some? && PatternOf(user).Some? && useLdap != 0
    ensures LdapGrants(Some(user), Some(host), None, useLdap, ldapUri, ldapBase, d) <==>
      && user != "" && host != "" && HasServer(ldapUri, ldapBase, d)
      && SomeEntry(d.items, e => MayUse(e, Spelt(host), Spelt(user)))
  {
    hide HostFilterText, Selects, MayUse, PatternOf, SomeEntry, LdapGrants;
    LdapMeaning(Some(user), Some(host), None, useLdap, ldapUri, ldapBase, d);
    HostFilterMeaning(host, user);
    var p := (e: Entry) => Selects(HostFilterText(host, user), e);
    var q := (e: Entry) => MayUse(e, Spelt(host), Spelt(user));
    SameSelection(d.items, p, q);
    SameSelection(d.items, q, p);
  }

  /** With a tag: some such entry that also has the service. */
  lemma LdapServiceMeaning(user: string, host: string, tag: string, useLdap: int,
                           ldapUri: Option<string>, ldapBase: Option<string>, d: Directory)
    requires PatternOf(host).Some? && PatternOf(user).Some? && PatternOf(tag).Some? && useLdap != 0
    ensures LdapGrants(Some(user), Some(host), Some(tag), useLdap, ldapUri, ldapBase, d) <==>
      && user != "" && host != "" && tag != "" && HasServer(ldapUri, ldapBase, d)
      && SomeEntry(d.items, e => MayProxy(e, Spelt(host), Spelt(user), Spelt(tag)))
  {
    hide ServiceFilterText, Selects, MayProxy, PatternOf, SomeEntry, LdapGrants;
    LdapMeaning(Some(user), Some(host), Some(tag), useLdap, ldapUri, ldapBase, d);
    ServiceFilterMeaning(host, user, tag);
    var p := (e: Entry) => Selects(ServiceFilterText(host, user, tag), e);
    var q := (e: Entry) => MayProxy(e, Spelt(host), Spelt(user), Spelt(tag));
    SameSelection(d.items, p, q);
    SameSelection(d.items, q, p);
  }

  // ---------------------------------------------------------------------------
  // Proxy implies bastion
  // ---------------------------------------------------------------------------

  /** Whatever one text selects, the other selects too. */
  ghost predicate Narrower(text: string, other: string) {
    forall e :: Selects(text, e) ==> Selects(other, e)
  }

  /** Whether a request with the tag cannot be granted without being granted without it. */
  ghost predicate TagOnlyNarrows(user: Option<string>, host: Option<string>, tag: string, useLdap: int) {
    || useLdap == 0 || RequestText(user, host, Some(tag)).None?
    || Narrower(RequestText(user, host, Some(tag)).value, RequestText(user, host, None).value)
  }

  lemma NarrowingGrants(user: Option<string>, host: Option<string>, tag: string, useLdap: int,
                        ldapUri: Option<string>, ldapBase: Option<string>, d: Directory)
    requires TagOnlyNarrows(user, host, tag, useLdap)
    requires LdapGrants(user, host, Some(tag), useLdap, ldapUri, ldapBase, d)
    ensures LdapGrants(user, host, None, useLdap, ldapUri, ldapBase, d)
  {
    if useLdap != 0 {
      hide HostFilterText, ServiceFilterText, Selects, SomeEntry, LdapGrants;
      LdapMeaning(user, host, Some(tag), useLdap, ldapUri, ldapBase, d);
      LdapMeaning(user, host, None, useLdap, ldapUri, ldapBase, d);
      var text, other := RequestText(user, host, Some(tag)).value, RequestText(user, host, None).value;
      SameSelection(d.items, e => Selects(text, e), e => Selects(other, e));
    }
  }

  /** A directory with everything the library needs and one entry. */
  function OneEntry(e: Entry): Directory {
    Directory(Some("ldap://localhost"), Some("dc=example"), true, true, true, [Object(e)])
  }

  lemma OneEntryMeaning(user: Option<string>, host: Option<string>, tag: Option<string>, useLdap: int,
                        ldapUri: Option<string>, ldapBase: Option<string>, e: Entry)
    requires useLdap != 0
    ensures LdapGrants(user, host, tag, useLdap, ldapUri, ldapBase, OneEntry(e)) <==>
            RequestText(user, host, tag).Some? && Selects(RequestText(user, host, tag).value, e)
  {
    hide RequestText, Selects, LdapGrants;
    LdapMeaning(user, host, tag, useLdap, ldapUri, ldapBase, OneEntry(e));
    if RequestText(user, host, tag).Some? {
      var p := (e: Entry) => Selects(RequestText(user, host, tag).value, e);
      assert EntryAt([Object(e)], p, 0) <==> p(e);
      assert forall i: nat :: EntryAt([Object(e)], p, i) ==> i == 0;
    }
  }

  /** Who may use a host through the proxy may use it from the bastion, in every directory, if
      and only if the tag only narrows what the filter selects. */
  lemma LdapProxyImpliesBastionIff(user: Option<string>, host: Option<string>, tag: string, useLdap: int,
                                   ldapUri: Option<string>, ldapBase: Option<string>)
    ensures TagOnlyNarrows(user, host, tag, useLdap) <==>
            forall d :: LdapGrants(user, host, Some(tag), useLdap, ldapUri, ldapBase, d) ==>
                        LdapGrants(user, host, None, useLdap, ldapUri, ldapBase, d)
  {
    hide LdapGrants, Selects, HostFilterText, ServiceFilterText;
    if TagOnlyNarrows(user, host, tag, useLdap) {
      forall d | LdapGrants(user, host, Some(tag), useLdap, ldapUri, ldapBase, d)
        ensures LdapGrants(user, host, None, useLdap, ldapUri, ldapBase, d)
      {
        NarrowingGrants(user, host, tag, useLdap, ldapUri, ldapBase, d);
      }
    } else {
      var text, other := RequestText(user, host, Some(tag)).value, RequestText(user, host, None).value;
      var e :| Selects(text, e) && !Selects(other, e);
      OneEntryMeaning(user, host, Some(tag), useLdap, ldapUri, ldapBase, e);
      OneEntryMeaning(user, host, None, useLdap, ldapUri, ldapBase, e);
    }
  }

  /** All escaped values meet the condition. */
  lemma EscapedTagOnlyNarrows(user: Option<string>, host: Option<string>, tag: string, useLdap: int)
    requires (user.Some? ==> Escaped(user.value)) && (host.Some? ==> Escaped(host.value)) && Escaped(tag)
    ensures TagOnlyNarrows(user, host, tag, useLdap)
  {
    hide PatternOf, Selects, HostFilterText, ServiceFilterText, HasLike;
    if RequestText(user, host, Some(tag)).Some? {
      HostFilterMeaning(host.value, user.value);
      ServiceFilterMeaning(host.value, user.value, tag);
    }
  }

  /** So for escaped values proxy implies bastion. */
  lemma LdapProxyImpliesBastion(user: Option<string>, host: Option<string>, tag: string, useLdap: int,
                                ldapUri: Option<string>, ldapBase: Option<string>, d: Directory)
    requires (user.Some? ==> Escaped(user.value)) && (host.Some? ==> Escaped(host.value)) && Escaped(tag)
    requires LdapGrants(user, host, Some(tag), useLdap, ldapUri, ldapBase, d)
    ensures LdapGrants(user, host, None, useLdap, ldapUri, ldapBase, d)
  {
    hide LdapGrants, Escaped, TagOnlyNarrows;
    EscapedTagOnlyNarrows(user, host, tag, useLdap);
    NarrowingGrants(user, host, tag, useLdap, ldapUri, ldapBase, d);
  }

  // A host that is a backslash takes the parenthesis behind it into its value, and a user who is
  // two parentheses makes up for that twice, which is right only with the tag.
  const STRAY_HOST := "\\"
  const STRAY_USER := "))"

  /** A value that ends in a backslash takes the next parenthesis with it. */
  lemma StrayEither(attr: string, v: string, w: string)
    ensures EitherText(attr, v, w + "\\") == "(|" + ItemText(attr, v) + ItemText(attr, w + "\\)")
  {
    var x := "(" + attr + "=";
    assert x + (w + "\\") + ")" + ")" == x + (w + "\\)") + ")";
    Assoc("(|" + ItemText(attr, v), x + (w + "\\") + ")", ")");
  }

  lemma StrayText()
    ensures HostFilterText(STRAY_HOST, STRAY_USER) ==
            "(&" + ("(|" + (ItemText("host", "\\*") + (ItemText("host", "\\)") + ItemText("uid", ""))) + ")")
            + ")" + ")"
    ensures ServiceFilterText(STRAY_HOST, STRAY_USER, "t") ==
            "(&" + ("(|" + (ItemText("host", "\\*") + (ItemText("host", "\\)")
              + ("(|" + (ItemText("authorizedService", "t-\\*")
                         + (ItemText("authorizedService", "t-\\)") + ItemText("uid", ""))) + ")"))) + ")") + ")"
  {
    StrayEither("host", "\\*", "");
    StrayEither("authorizedService", "t-\\*", "t-");
    assert "" + "\\" == STRAY_HOST && "" + "\\)" == "\\)";
    assert "t" + "-" + "\\*" == "t-\\*" && "t" + "-" + STRAY_HOST == "t-" + "\\" && "t-" + "\\)" == "t-\\)";
    assert ItemText("uid", STRAY_USER) + ")" == ItemText("uid", "") + ")))";
    hide EitherText, ItemText;
    StrayGroups(ItemText("host", "\\*"), ItemText("host", "\\)"), ItemText("authorizedService", "t-\\*"),
      ItemText("authorizedService", "t-\\)"), ItemText("uid", ""), ItemText("uid", STRAY_USER));
  }

  lemma StrayGroups(a: string, b: string, c: string, d: string, e: string, f: string)
    requires f + ")" == e + ")))"
    ensures "(&" + ("(|" + a + b) + f + ")" == "(&" + ("(|" + (a + (b + e)) + ")") + ")" + ")"
    ensures "(&" + ("(|" + a + b) + ("(|" + c + d) + f + ")"
            == "(&" + ("(|" + (a + (b + ("(|" + (c + (d + e)) + ")"))) + ")") + ")"
  {
    var x, y := "(&" + ("(|" + a + b), "(|" + c + d;
    Assoc(x, f, ")");
    Assoc(x + y, f, ")");
  }

  lemma StrayPatterns()
    ensures PatternOf("\\)").Some? && PatternOf("t-\\*").Some? && PatternOf("t-\\)").Some? && PatternOf("").Some?
  {
    assert "t-\\*"[2..] == "\\*" && "t-\\)"[2..] == "\\)" && "\\*"[2..] == "" && "\\)"[2..] == "";
    assert "t-\\*"[1..][1..] == "\\*" && "t-\\)"[1..][1..] == "\\)";
  }

  lemma OneMoreDenotes(attr: string, v: string, list: string, fs: seq<Filter>)
    requires AttrName(attr) && PatternOf(v).Some? && ListDenotes(list, fs)
    ensures ListDenotes(ItemText(attr, v) + list, [Item(attr, Spelt(v))] + fs)
  {
    hide Denotes, ListDenotes, PatternOf, AttrName;
    ItemDenotes(attr, v);
    FirstDenotes(ItemText(attr, v), Item(attr, Spelt(v)), list, fs);
  }

  lemma OrListDenotes(list: string, fs: seq<Filter>)
    requires ListDenotes(list, fs) && fs != []
    ensures ListDenotes("(|" + list + ")", [Or(fs)])
  {
    hide Denotes, ListDenotes;
    ListFilterDenotes('|', list, fs);
    assert "(" + ['|'] == "(|";
    NothingDenotes();
    FirstDenotes("(|" + list + ")", Or(fs), "", []);
    assert "(|" + list + ")" + "" == "(|" + list + ")" && [Or(fs)] + [] == [Or(fs)];
  }

  lemma AndListDenotes(list: string, fs: seq<Filter>)
    requires ListDenotes(list, fs) && fs != []
    ensures Denotes("(&" + list + ")", And(fs))
  {
    hide Denotes, ListDenotes;
    ListFilterDenotes('&', list, fs);
    assert "(" + ['&'] == "(&";
  }

  lemma UidDenotes()
    ensures ListDenotes(ItemText("uid", ""), [Item("uid", [])])
  {
    AttrNames();
    NothingDenotes();
    hide Denotes, ListDenotes, AttrName, ItemText;
    OneMoreDenotes("uid", "", "", []);
    assert ItemText("uid", "") + "" == ItemText("uid", "") && [Item("uid", [])] + [] == [Item("uid", [])];
  }

  /** A host list, one item and what follows. */
  function HostsAnd(rest: Filter): Filter {
    And([Or([Item("host", Lits("*")), Item("host", Spelt("\\)")), rest])])
  }

  lemma HostsAndDenotes(list: string, rest: Filter)
    requires ListDenotes(list, [rest]) && PatternOf("\\)").Some?
    ensures Denotes("(&" + ("(|" + (ItemText("host", "\\*") + (ItemText("host", "\\)") + list)) + ")") + ")",
                    HostsAnd(rest))
  {
    AttrNames();
    StarText();
    hide Denotes, ListDenotes, AttrName, ItemText, PatternOf;
    OneMoreDenotes("host", "\\)", list, [rest]);
    var f, g := Item("host", Lits("*")), Item("host", Spelt("\\)"));
    assert [g] + [rest] == [g, rest] && [f] + [g, rest] == [f, g, rest];
    OneMoreDenotes("host", "\\*", ItemText("host", "\\)") + list, [g, rest]);
    OrListDenotes(ItemText("host", "\\*") + (ItemText("host", "\\)") + list), [f, g, rest]);
    AndListDenotes("(|" + (ItemText("host", "\\*") + (ItemText("host", "\\)") + list)) + ")",
                   [Or([f, g, rest])]);
  }

  /** Without the tag one parenthesis is left over. */
  lemma StrayHostFilter()
    ensures ParseFilter(HostFilterText(STRAY_HOST, STRAY_USER)).None?
  {
    StrayText();
    StrayPatterns();
    UidDenotes();
    hide HostFilterText, ItemText, Parse, ListDenotes, PatternOf;
    HostsAndDenotes(ItemText("uid", ""), Item("uid", []));
  }

  /** With it the text is a filter, and one that an entry without the uid satisfies. */
  lemma StrayServiceFilter() returns (rest: Filter)
    ensures ParseFilter(ServiceFilterText(STRAY_HOST, STRAY_USER, "t")) == Some(HostsAnd(rest))
  {
    StrayText();
    StrayPatterns();
    AttrNames();
    UidDenotes();
    hide ServiceFilterText, HostFilterText, ItemText, Denotes, ListDenotes, PatternOf, AttrName, ParseFilter;
    var c, d, e := Item("authorizedService", Spelt("t-\\*")), Item("authorizedService", Spelt("t-\\)")),
                   Item("uid", []);
    var list := ItemText("authorizedService", "t-\\)") + ItemText("uid", "");
    OneMoreDenotes("authorizedService", "t-\\)", ItemText("uid", ""), [e]);
    assert [d] + [e] == [d, e] && [c] + [d, e] == [c, d, e];
    OneMoreDenotes("authorizedService", "t-\\*", list, [d, e]);
    list := ItemText("authorizedService", "t-\\*") + list;
    rest := Or([c, d, e]);
    OrListDenotes(list, [c, d, e]);
    HostsAndDenotes("(|" + list + ")", rest);
    DenotedIsParsed(ServiceFilterText(STRAY_HOST, STRAY_USER, "t"), HostsAnd(rest));
  }

  lemma HostsAndOfStar(e: Entry, rest: Filter)
    requires Has(e, "host", "*")
    ensures Satisfies(e, HostsAnd(rest))
  {
    var fs := HostsAnd(rest).fs[0].fs;
    HasLikeLits(e, "host", "*");
    assert Satisfies(e, fs[0]);
    assert Satisfies(e, Or(fs));
  }

  /** An entry that lists a star and has no uid at all lets this user in with the tag, and not
      without it. */
  lemma StrayProxyOnly(useLdap: int, ldapUri: Option<string>, ldapBase: Option<string>)
    requires useLdap != 0
    ensures var d := OneEntry(map["host" := {"*"}]);
      && LdapGrants(Some(STRAY_USER), Some(STRAY_HOST), Some("t"), useLdap, ldapUri, ldapBase, d)
      && !LdapGrants(Some(STRAY_USER), Some(STRAY_HOST), None, useLdap, ldapUri, ldapBase, d)
    ensures !TagOnlyNarrows(Some(STRAY_USER), Some(STRAY_HOST), "t", useLdap)
  {
    var e: Entry := map["host" := {"*"}];
    assert Has(e, "host", "*");
    hide HostFilterText, ServiceFilterText, ParseFilter, Satisfies, LdapGrants, HostsAnd, Has;
    StrayHostFilter();
    var rest := StrayServiceFilter();
    HostsAndOfStar(e, rest);
    OneEntryMeaning(Some(STRAY_USER), Some(STRAY_HOST), Some("t"), useLdap, ldapUri, ldapBase, e);
    OneEntryMeaning(Some(STRAY_USER), Some(STRAY_HOST), None, useLdap, ldapUri, ldapBase, e);
    LdapProxyImpliesBastionIff(Some(STRAY_USER), Some(STRAY_HOST), "t", useLdap, ldapUri, ldapBase);
  }
}
