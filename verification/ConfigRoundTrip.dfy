/** Writing settings down and loading them back. */
module ConfigRoundTrip {
  import opened Text
  import Delim
  import opened Config
  import opened ConfigProofs

  /** What stands around the words of a line: white space before it, behind the keyword, behind an
      '=' and at the end, and a comment. */
  datatype Layout = Layout(lead: string, sep: string, after: string, pad: string, comment: string)

  const TIGHT := Layout("", " ", "", "", "")

  /** A setting, with or without an '=' and quotes. */
  datatype Entry = Entry(op: OpCode, keyword: string, value: string, equals: bool, quoted: bool, layout: Layout)

  /** The name each option is documented under, in lower case. */
  function Name(op: OpCode): string
    requires op != BadOption
  {
    match op
    case FlagOption(Debug) => "debug"
    case FlagOption(LogToStderr) => "logtostderr"
    case FlagOption(UseLdap) => "useldap"
    case FlagOption(EnableProxy) => "enableproxy"
    case FlagOption(DisableAuthorization) => "disableauthorization"
    case FlagOption(DisableProxyAuthorization) => "disableproxyauthorization"
    case FlagOption(AllowFqdn) => "allowfqdn"
    case StringOption(AuthorizedServiceTag) => "authorizedservicetag"
    case StringOption(ProxyKeyword) => "proxykeyword"
    case StringOption(LdapUri) => "ldapuri"
    case StringOption(LdapBase) => "ldapbase"
    case StringOption(HostsFile) => "hostsfile"
    case StringOption(UsersFile) => "usersfile"
    case StringOption(SshPath) => "sshpath"
    case StringOption(NcPath) => "ncpath"
    case StringOption(NcTimeout) => "nctimeout"
    case StringOption(GeoIpDat) => "geoip"
    case StringOption(GeoIp6Dat) => "geoip6"
  }

  /** Where an option stands in the keyword table. */
  function Place(op: OpCode): (i: nat)
    requires op != BadOption
    ensures i < |KEYWORDS| && KEYWORDS[i].1 == op
  {
    match op
    case StringOption(AuthorizedServiceTag) => 0
    case FlagOption(AllowFqdn) => 1
    case FlagOption(Debug) => 2
    case FlagOption(LogToStderr) => 3
    case FlagOption(UseLdap) => 4
    case StringOption(ProxyKeyword) => 5
    case StringOption(LdapUri) => 6
    case StringOption(LdapBase) => 7
    case StringOption(HostsFile) => 8
    case StringOption(UsersFile) => 9
    case FlagOption(EnableProxy) => 10
    case FlagOption(DisableAuthorization) => 11
    case FlagOption(DisableProxyAuthorization) => 12
    case StringOption(SshPath) => 13
    case StringOption(NcPath) => 14
    case StringOption(NcTimeout) => 15
    case StringOption(GeoIpDat) => 16
    case StringOption(GeoIp6Dat) => 17
  }

  /** No two keywords agree in both length and first letter. */
  function ByShape(length: nat, first: char): OpCode {
    if length == 5 && first == 'd' then FlagOption(Debug)
    else if length == 5 then StringOption(GeoIpDat)
    else if length == 6 && first == 'n' then StringOption(NcPath)
    else if length == 6 then StringOption(GeoIp6Dat)
    else if length == 7 && first == 'u' then FlagOption(UseLdap)
    else if length == 7 && first == 'l' then StringOption(LdapUri)
    else if length == 7 then StringOption(SshPath)
    else if length == 8 then StringOption(LdapBase)
    else if length == 9 && first == 'a' then FlagOption(AllowFqdn)
    else if length == 9 && first == 'h' then StringOption(HostsFile)
    else if length == 9 && first == 'u' then StringOption(UsersFile)
    else if length == 9 then StringOption(NcTimeout)
    else if length == 11 && first == 'l' then FlagOption(LogToStderr)
    else if length == 11 then FlagOption(EnableProxy)
    else if length == 12 then StringOption(ProxyKeyword)
    else if length == 20 && first == 'a' then StringOption(AuthorizedServiceTag)
    else if length == 20 then FlagOption(DisableAuthorization)
    else if length == 25 then FlagOption(DisableProxyAuthorization)
    else BadOption
  }

  lemma ShapeOfName(op: OpCode)
    requires op != BadOption
    ensures Name(op) != "" && ByShape(|Name(op)|, Name(op)[0]) == op && Lower(Name(op)[0]) == Name(op)[0]
  {
  }

  /** A text spells at most one name. */
  lemma NameIsUnique(keyword: string, op: OpCode, other: OpCode)
    requires op != BadOption && other != BadOption
    requires EqualCI(keyword, Name(op)) && EqualCI(keyword, Name(other))
    ensures op == other
  {
    hide Name, ByShape;
    ShapeOfName(op);
    ShapeOfName(other);
    assert Lower(keyword[0]) == Name(op)[0] == Name(other)[0];
  }

  lemma TableNames(i: nat)
    requires i < |KEYWORDS|
    ensures KEYWORDS[i].1 != BadOption && KEYWORDS[i].0 == Name(KEYWORDS[i].1)
  {
  }

  /** Any spelling of a documented name is found in the keyword table. */
  lemma {:induction false} NameIsFound(op: OpCode, keyword: string, i: nat)
    requires op != BadOption && EqualCI(keyword, Name(op)) && i <= Place(op)
    ensures OpcodeFrom(keyword, i) == op
    decreases |KEYWORDS| - i
  {
    hide Name;
    TableNames(i);
    if EqualCI(keyword, KEYWORDS[i].0) {
      NameIsUnique(keyword, op, KEYWORDS[i].1);
    } else {
      NameIsFound(op, keyword, i + 1);
    }
  }

  lemma SpelledIsFound(keyword: string, op: OpCode)
    requires op != BadOption && EqualCI(keyword, Name(op))
    ensures Opcode(keyword) == op
  {
    hide Name, EqualCI;
    NameIsFound(op, keyword, 0);
  }

  /** The options as the documentation and the example file spell them. */
  lemma DocumentedFlags()
    ensures Opcode("allowFQDN") == FlagOption(AllowFqdn) && Opcode("AllowFQDN") == FlagOption(AllowFqdn)
    ensures Opcode("debug") == FlagOption(Debug) && Opcode("enableProxy") == FlagOption(EnableProxy)
    ensures Opcode("useLDAP") == FlagOption(UseLdap)
  {
    hide Opcode;
    SpelledIsFound("allowFQDN", FlagOption(AllowFqdn));
    SpelledIsFound("AllowFQDN", FlagOption(AllowFqdn));
    SpelledIsFound("debug", FlagOption(Debug));
    SpelledIsFound("enableProxy", FlagOption(EnableProxy));
    SpelledIsFound("useLDAP", FlagOption(UseLdap));
  }

  lemma DocumentedLongFlags()
    ensures Opcode("logToStderr") == FlagOption(LogToStderr)
    ensures Opcode("disableAuthorization") == FlagOption(DisableAuthorization)
    ensures Opcode("disableProxyAuthorization") == FlagOption(DisableProxyAuthorization)
  {
    hide Opcode;
    SpelledIsFound("logToStderr", FlagOption(LogToStderr));
    SpelledIsFound("disableAuthorization", FlagOption(DisableAuthorization));
    SpelledIsFound("disableProxyAuthorization", FlagOption(DisableProxyAuthorization));
  }

  lemma DocumentedFiles()
    ensures Opcode("GeoIP") == StringOption(GeoIpDat) && Opcode("GeoIP6") == StringOption(GeoIp6Dat)
    ensures Opcode("sshPath") == StringOption(SshPath) && Opcode("ncPath") == StringOption(NcPath)
  {
    hide Opcode;
    SpelledIsFound("GeoIP", StringOption(GeoIpDat));
    SpelledIsFound("GeoIP6", StringOption(GeoIp6Dat));
    SpelledIsFound("sshPath", StringOption(SshPath));
    SpelledIsFound("ncPath", StringOption(NcPath));
  }

  lemma DocumentedTables()
    ensures Opcode("HostsFile") == StringOption(HostsFile) && Opcode("usersFile") == StringOption(UsersFile)
    ensures Opcode("UsersFile") == StringOption(UsersFile)
  {
    hide Opcode;
    SpelledIsFound("HostsFile", StringOption(HostsFile));
    SpelledIsFound("usersFile", StringOption(UsersFile));
    SpelledIsFound("UsersFile", StringOption(UsersFile));
  }

  lemma DocumentedTexts()
    ensures Opcode("authorizedServiceTag") == StringOption(AuthorizedServiceTag)
    ensures Opcode("proxyKeyword") == StringOption(ProxyKeyword) && Opcode("ncTimeout") == StringOption(NcTimeout)
    ensures Opcode("LDAPuri") == StringOption(LdapUri) && Opcode("LDAPbase") == StringOption(LdapBase)
  {
    hide Opcode;
    SpelledIsFound("authorizedServiceTag", StringOption(AuthorizedServiceTag));
    SpelledIsFound("proxyKeyword", StringOption(ProxyKeyword));
    SpelledIsFound("ncTimeout", StringOption(NcTimeout));
    SpelledIsFound("LDAPuri", StringOption(LdapUri));
    SpelledIsFound("LDAPbase", StringOption(LdapBase));
  }

  /** The case of a keyword does not matter. */
  lemma {:induction false} OpcodeCI(a: string, b: string, i: nat)
    requires EqualCI(a, b) && i <= |KEYWORDS|
    ensures OpcodeFrom(a, i) == OpcodeFrom(b, i)
    decreases |KEYWORDS| - i
  {
    hide EqualCI;
    if i < |KEYWORDS| {
      CaseBlind(a, b, KEYWORDS[i].0);
      OpcodeCI(a, b, i + 1);
    }
  }

  // ---------------------------------------------------------------------------
  // One written line
  // ---------------------------------------------------------------------------

  predicate IsAlnum(c: char) {
    'a' <= c <= 'z' || 'A' <= c <= 'Z' || '0' <= c <= '9'
  }

  predicate Word(w: string) {
    w != "" && forall i :: 0 <= i < |w| ==> IsAlnum(w[i])
  }

  /** A value that needs no quotes. */
  predicate PlainValue(v: string) {
    v != "" && forall i :: 0 <= i < |v| ==> !IsSpace(v[i]) && v[i] !in "\"=#" && v[i] != NUL
  }

  /** A value that may be written between quotes. */
  predicate QuotableValue(v: string) {
    v != "" && Quotable(v)
  }

  predicate Quotable(v: string) {
    forall i :: 0 <= i < |v| ==> v[i] !in "\"#\n" && v[i] != NUL
  }

  /** Blanks, tabs and carriage returns. */
  predicate Gap(s: string) {
    forall i :: 0 <= i < |s| ==> s[i] == ' ' || s[i] == '\t' || s[i] == '\r'
  }

  predicate CleanLayout(l: Layout) {
    && Gap(l.lead) && Gap(l.sep) && Gap(l.after) && Gap(l.pad)
    && (l.comment != "" ==> l.comment[0] == '#') && '\n' !in l.comment && NUL !in l.comment
  }

  /** What a line says between its outer white space and comment. */
  function Core(w: string, l: Layout, equals: bool, x: string): string {
    if equals then w + l.sep + "=" + l.after + x else w + l.sep + x
  }

  function Line(w: string, l: Layout, equals: bool, x: string): string {
    l.lead + Core(w, l, equals, x) + l.pad + l.comment
  }

  /** The value as it stands in the line. */
  function Said(e: Entry): string {
    if e.quoted then "\"" + e.value + "\"" else e.value
  }

  function Row(e: Entry): string {
    Line(e.keyword, e.layout, e.equals, Said(e))
  }

  /** The option takes the value. */
  predicate Takes(op: OpCode, v: string) {
    && (op.FlagOption? ==> v in ["yes", "true", "no", "false"])
    && (op == StringOption(NcTimeout) ==> Atoi(v) > 0)
  }

  /** An entry that can be written: a documented keyword in any case, a value that its option
      allows and that needs no quotes or has them, some space behind the keyword unless there is
      an '=', and room for the whole line in the reader's buffer. */
  predicate Writable(e: Entry) {
    && e.op != BadOption
    && EqualCI(e.keyword, Name(e.op))
    && (if e.quoted then QuotableValue(e.value) else PlainValue(e.value))
    && Takes(e.op, e.value)
    && CleanLayout(e.layout) && (e.equals || e.layout.sep != "")
    && |Row(e)| + 1 < LINE_SIZE
  }

  /** The change an entry stands for. */
  function Meaning(e: Entry): Change
    requires Writable(e)
  {
    match e.op
    case FlagOption(k) => SetFlag(k, if e.value == "yes" || e.value == "true" then 1 else 0)
    case StringOption(k) => SetString(k, e.value)
  }

  lemma FlagNameLetters(k: FlagKey)
    ensures forall c :: c in Name(FlagOption(k)) ==> IsAlnum(c)
  {
  }

  lemma StringNameLetters(k: StringKey)
    ensures forall c :: c in Name(StringOption(k)) ==> IsAlnum(c)
  {
  }

  lemma NameIsWord(op: OpCode)
    requires op != BadOption
    ensures Word(Name(op))
  {
    hide Name;
    match op {
      case FlagOption(k) => FlagNameLetters(k);
      case StringOption(k) => StringNameLetters(k);
    }
    ShapeOfName(op);
    assert forall i :: 0 <= i < |Name(op)| ==> Name(op)[i] in Name(op);
  }

  lemma SpellingIsWord(op: OpCode, keyword: string)
    requires op != BadOption && EqualCI(keyword, Name(op))
    ensures Word(keyword)
  {
    hide Name;
    NameIsWord(op);
    forall i | 0 <= i < |keyword| ensures IsAlnum(keyword[i]) {
      assert IsAlnum(Name(op)[i]) && Lower(keyword[i]) == Lower(Name(op)[i]);
    }
  }

  /** What follows a keyword and a blank: nothing to trim, no comment. */
  predicate Argument(x: string) {
    x != "" && Tidy(x) && NUL !in x && '\n' !in x
  }

  lemma GapIs(s: string)
    requires Gap(s)
    ensures Delim.Blanks(s) && AllSpace(s) && '\n' !in s && NUL !in s && '#' !in s
  {
  }

  lemma WordIsPlain(w: string)
    requires Word(w)
    ensures Delim.Plain(w) && NUL !in w && '\n' !in w
  {
    forall i | 0 <= i < |w| ensures !IsSpace(w[i]) && w[i] !in [' ', '\t', '\r', '\n', '\"', '=', '#', NUL] {
      assert IsAlnum(w[i]);
    }
  }

  lemma RunLacksHash(l: Layout)
    requires CleanLayout(l)
    ensures '#' !in l.sep && '#' !in l.sep + "=" + l.after && Delim.Blanks(l.sep) && Delim.Blanks(l.after)
  {
    GapIs(l.sep);
    GapIs(l.after);
  }

  lemma CoreIsTidy(w: string, l: Layout, equals: bool, x: string)
    requires Delim.Plain(w) && Argument(x) && CleanLayout(l)
    ensures Tidy(Core(w, l, equals, x)) && Core(w, l, equals, x) != ""
  {
    assert w != "";
    hide IsSpace, CleanLayout, Delim.Plain, Tidy, Delim.Blanks;
    RunLacksHash(l);
    if equals {
      var run := l.sep + "=" + l.after;
      Delim.RunIsTidy(w, run, x);
      assert Core(w, l, equals, x) == w + run + x;
    } else {
      Delim.RunIsTidy(w, l.sep, x);
    }
  }

  lemma LineCharacters(w: string, l: Layout, equals: bool, x: string)
    requires Word(w) && Argument(x) && CleanLayout(l)
    ensures NUL !in Line(w, l, equals, x) && '\n' !in Line(w, l, equals, x)
  {
    hide Gap, Word, Tidy;
    WordIsPlain(w);
    GapIs(l.lead);
    GapIs(l.sep);
    GapIs(l.after);
    GapIs(l.pad);
  }

  lemma LineTrimmed(l: Layout, core: string)
    requires CleanLayout(l) && Tidy(core)
    ensures Trimmed(l.lead + core + l.pad + l.comment + "\n") == core
  {
    hide Gap, Tidy, Trimmed, AllSpace;
    GapIs(l.lead);
    GapIs(l.pad);
    RowTrimmed(l.lead, core, l.pad, l.comment);
  }

  /** The keyword is the first token; one '=' behind it is skipped with the space around it. */
  lemma CoreSplits(w: string, l: Layout, equals: bool, x: string)
    requires Delim.Plain(w) && Argument(x) && x[0] != '=' && CleanLayout(l) && (equals || l.sep != "")
    ensures Delim.Split(Core(w, l, equals, x)) == Delim.Piece(Some(w), Some(x))
  {
    ArgumentStart(x);
    hide IsSpace, CleanLayout, Delim.Plain, Tidy, Delim.Blanks, Delim.Split;
    RunLacksHash(l);
    CoreIsTidy(w, l, true, x);
    CoreIsTidy(w, l, false, x);
    Delim.SplitAtRun(w, l.sep, l.after, x);
  }

  lemma ArgumentStart(x: string)
    requires Argument(x) && x[0] != '='
    ensures x[0] !in [' ', '\t', '\r', '\n', '=']
  {
  }

  /** The effect of a line with a word and an argument. */
  lemma LineSays(w: string, l: Layout, equals: bool, x: string)
    requires Word(w) && Argument(x) && x[0] != '=' && CleanLayout(l) && (equals || l.sep != "")
    ensures LineEffect(Line(w, l, equals, x) + "\n") == OptionEffect(Opcode(w), Some(x))
    ensures NUL !in Line(w, l, equals, x) && '\n' !in Line(w, l, equals, x)
  {
    hide OptionEffect, Opcode, Delim.Split, Trimmed, Core, Word, Argument, CleanLayout, Delim.Plain;
    LineCharacters(w, l, equals, x);
    WordIsPlain(w);
    CoreIsTidy(w, l, equals, x);
    CoreSplits(w, l, equals, x);
    LineTrimmed(l, Core(w, l, equals, x));
    TidyIsTrimmed(Core(w, l, equals, x));
  }

  lemma SplitPlainValue(v: string)
    requires PlainValue(v)
    ensures Delim.Split(v) == Delim.Piece(Some(v), None) && Argument(v) && Delim.Plain(v)
  {
    hide Delim.Split, IsSpace;
    ValueIsPlain(v);
    Delim.PlainIsToken(v);
  }

  lemma ValueIsPlain(v: string)
    requires PlainValue(v)
    ensures Delim.Plain(v) && Argument(v)
  {
    forall i | 0 <= i < |v| ensures v[i] !in [' ', '\t', '\r', '\n', '\"', '=', '#', NUL] {
      SpacesAre(v[i]);
      assert v[i] !in "\"=#";
    }
  }

  lemma QuotedIsArgument(v: string)
    requires Quotable(v)
    ensures Argument("\"" + v + "\"")
  {
  }

  lemma ClosingQuote(v: string)
    requires Quotable(v)
    ensures Delim.SplitQuoted(v + "\"", 0) == Delim.Piece(Some(v), Some(""))
  {
    var u := v + "\"";
    forall i | 0 <= i < |v| ensures u[i] !in Delim.QUOTE { assert u[i] == v[i]; }
    assert u[|v|] in Delim.QUOTE;
    FindIs(u, Delim.QUOTE, |v|);
    assert u[0..] == u && u[..|v|] == v && u[|v| + 1..] == "";
  }

  lemma SplitQuotedValue(v: string)
    requires Quotable(v)
    ensures Delim.Split("\"" + v + "\"") == Delim.Piece(Some(v), Some(""))
  {
    hide Delim.SplitQuoted;
    var q := "\"" + v + "\"";
    QuotedIsArgument(v);
    TidyIsTrimmed(q);
    assert q[0] == '\"' && '\"' in Delim.DELIMITERS;
    FindIs(q, Delim.DELIMITERS, 0);
    assert q[..0] + q[1..] == v + "\"";
    ClosingQuote(v);
  }

  lemma EmptyRest(rest: Option<string>)
    requires rest == None || rest == Some("")
    ensures forall c :: Finish(c, rest) == Effect(c, 0)
  {
  }

  lemma YesNoIs(v: string)
    ensures YesNo(v) == if v in ["yes", "true"] then Some(1) else if v in ["no", "false"] then Some(0) else None
  {
  }

  lemma ValueEffect(e: Entry, rest: Option<string>, after: Option<string>)
    requires Writable(e) && (after == None || after == Some(""))
    requires Delim.SplitNext(rest) == Delim.Piece(Some(e.value), after)
    ensures OptionEffect(e.op, rest) == Effect(Meaning(e), 0)
  {
    hide Delim.SplitNext, Row, Atoi, Finish, CleanLayout;
    EmptyRest(after);
    YesNoIs(e.value);
    hide YesNo;
  }

  /** Reading a written line gives its entry's meaning and status 0. */
  lemma RowEffect(e: Entry)
    requires Writable(e)
    ensures FitsLine(Row(e)) && LineEffect(Row(e) + "\n") == Effect(Meaning(e), 0)
  {
    hide Name, OptionEffect, Delim.Split, LineEffect, Atoi, Meaning, CleanLayout, Line, PlainValue, Argument;
    SpellingIsWord(e.op, e.keyword);
    NameIsFound(e.op, e.keyword, 0);
    if e.quoted {
      SplitQuotedValue(e.value);
      QuotedIsArgument(e.value);
      LineSays(e.keyword, e.layout, e.equals, Said(e));
      ValueEffect(e, Some(Said(e)), Some(""));
    } else {
      SplitPlainValue(e.value);
      PlainStart(e.value);
      LineSays(e.keyword, e.layout, e.equals, Said(e));
      ValueEffect(e, Some(Said(e)), None);
    }
  }

  lemma PlainStart(v: string)
    requires PlainValue(v)
    ensures v[0] != '=' && v[0] != '\"'
  {
    assert v[0] !in "\"=#";
  }

  // ---------------------------------------------------------------------------
  // Which lines are refused
  // ---------------------------------------------------------------------------

  /** A keyword the table knows is spelled like the name of its option. */
  lemma {:induction false} FoundIsName(keyword: string, i: nat)
    requires i <= |KEYWORDS|
    ensures var op := OpcodeFrom(keyword, i); op != BadOption ==> EqualCI(keyword, Name(op))
    decreases |KEYWORDS| - i
  {
    hide Name, EqualCI;
    if i < |KEYWORDS| {
      TableNames(i);
      FoundIsName(keyword, i + 1);
    }
  }

  /** A word and a plain value are a good line if and only if the word spells an option that takes
      the value; a word that spells none is an unknown keyword; everything else stops reading. */
  lemma BareLineStatus(w: string, v: string, l: Layout, equals: bool)
    requires Word(w) && PlainValue(v) && CleanLayout(l) && (equals || l.sep != "")
    ensures var status := LineEffect(Line(w, l, equals, v) + "\n").status;
      && (status == 0 <==> exists op :: op != BadOption && EqualCI(w, Name(op)) && Takes(op, v))
      && (status == 1 <==> forall op :: op != BadOption ==> !EqualCI(w, Name(op)))
      && (status == -1 || status == 0 || status == 1)
  {
    hide LineEffect, Name, EqualCI, Atoi, Delim.Split, OpcodeFrom, Line, CleanLayout;
    SplitPlainValue(v);
    PlainStart(v);
    LineSays(w, l, equals, v);
    EmptyRest(None);
    YesNoIs(v);
    hide YesNo, PlainValue, Argument;
    var op := Opcode(w);
    FoundIsName(w, 0);
    forall other | other != BadOption && EqualCI(w, Name(other)) ensures other == op {
      NameIsFound(other, w, 0);
    }
  }

  /** A word alone, or with an argument that is never closed, sets nothing: it stops reading if it
      is a documented keyword, and counts as unknown otherwise. */
  lemma MissingArgument(w: string, l: Layout, equals: bool, x: string)
    requires Word(w) && CleanLayout(l) && (equals || l.sep != "")
    requires '\"' !in x && '#' !in x && '\n' !in x && NUL !in x && Tidy("\"" + x)
    ensures var e := Effect(NoChange, if exists op :: op != BadOption && EqualCI(w, Name(op)) then -1 else 1);
      && LineEffect(l.lead + w + l.pad + l.comment + "\n") == e
      && LineEffect(Line(w, l, equals, "\"" + x) + "\n") == e
  {
    hide LineEffect, Name, EqualCI, OpcodeFrom, CleanLayout, Delim.Split, Line, Trimmed;
    FoundIsName(w, 0);
    if op :| op != BadOption && EqualCI(w, Name(op)) { NameIsFound(op, w, 0); }
    WordAlone(w, l);
    Delim.SplitUnmatched("", x);
    assert "" + ['\"'] + x == "\"" + x;
    LineSays(w, l, equals, "\"" + x);
  }

  lemma WordAlone(w: string, l: Layout)
    requires Word(w) && CleanLayout(l)
    ensures LineEffect(l.lead + w + l.pad + l.comment + "\n") == OptionEffect(Opcode(w), None)
  {
    hide OptionEffect, Opcode, Delim.Split, Trimmed, CleanLayout, Word;
    WordIsPlain(w);
    Delim.PlainIsToken(w);
    LineTrimmed(l, w);
  }

  /** A line with a third word is never good: behind a documented keyword it stops reading. */
  lemma GarbageAtEnd(w: string, v: string, b: string, g: string, l: Layout, equals: bool)
    requires Word(w) && PlainValue(v) && PlainValue(g) && Gap(b) && b != ""
    requires CleanLayout(l) && (equals || l.sep != "")
    ensures LineEffect(Line(w, l, equals, v + b + g) + "\n").status
            == if exists op :: op != BadOption && EqualCI(w, Name(op)) then -1 else 1
  {
    hide LineEffect, Name, EqualCI, OpcodeFrom, CleanLayout, Delim.Split, Line, Atoi, YesNo;
    FoundIsName(w, 0);
    if op :| op != BadOption && EqualCI(w, Name(op)) { NameIsFound(op, w, 0); }
    TwoValues(v, b, g);
    LineSays(w, l, equals, v + b + g);
    SplitPlainValue(g);
  }

  /** Empty quotes are no argument. */
  lemma EmptyArgument(w: string, op: OpCode, l: Layout, equals: bool)
    requires op != BadOption && EqualCI(w, Name(op)) && CleanLayout(l) && (equals || l.sep != "")
    ensures LineEffect(Line(w, l, equals, "\"\"") + "\n") ==
      match op
      case FlagOption(_) => Effect(NoChange, -1)
      case StringOption(k) => Effect(SetString(k, ""), -1)
      case BadOption => Effect(NoChange, 1)
  {
    hide LineEffect, Name, EqualCI, OpcodeFrom, CleanLayout, Delim.Split, Line, Atoi, YesNo;
    SpellingIsWord(op, w);
    NameIsFound(op, w, 0);
    SplitQuotedValue("");
    QuotedIsArgument("");
    assert "\"" + "" + "\"" == "\"\"";
    LineSays(w, l, equals, "\"\"");
  }

  /** What follows the argument is not noticed when it is a quote that is never closed. */
  lemma UnclosedGarbage(op: OpCode, w: string, v: string, b: string, x: string, l: Layout, equals: bool)
    requires op != BadOption && EqualCI(w, Name(op)) && Takes(op, v)
    requires PlainValue(v) && Gap(b) && b != "" && CleanLayout(l) && (equals || l.sep != "")
    requires '\"' !in x && '#' !in x && '\n' !in x && NUL !in x && Tidy("\"" + x)
    ensures LineEffect(Line(w, l, equals, v + b + ("\"" + x)) + "\n").status == 0
  {
    hide LineEffect, Name, EqualCI, OpcodeFrom, CleanLayout, Delim.Split, Line, Atoi, PlainValue, Gap, OptionEffect,
      Takes, Argument, Tidy;
    SpellingIsWord(op, w);
    NameIsFound(op, w, 0);
    QuoteBehind(v, b, x);
    LineSays(w, l, equals, v + b + ("\"" + x));
    assert "" + ['\"'] + x == "\"" + x;
    Delim.SplitUnmatched("", x);
    GoodThen(op, v, Some(v + b + ("\"" + x)), Some("\"" + x));
  }

  /** A good argument is judged by the next token alone. */
  lemma GoodThen(op: OpCode, v: string, rest: Option<string>, after: Option<string>)
    requires op != BadOption && Takes(op, v) && PlainValue(v)
    requires Delim.SplitNext(rest) == Delim.Piece(Some(v), after) && Delim.SplitNext(after).token.None?
    ensures OptionEffect(op, rest).status == 0
  {
    hide Delim.SplitNext, Atoi, PlainValue, YesNo, Finish;
    assert v != "" by { LongerThanNothing(v); }
    YesNoIs(v);
    FinishedGood(after);
  }

  lemma LongerThanNothing(v: string)
    requires PlainValue(v)
    ensures v != ""
  {
  }

  lemma FinishedGood(after: Option<string>)
    requires Delim.SplitNext(after).token.None?
    ensures forall c :: Finish(c, after).status == 0
  {
  }

  lemma QuoteBehind(v: string, b: string, x: string)
    requires PlainValue(v) && Gap(b) && b != "" && '#' !in x && '\n' !in x && NUL !in x && Tidy("\"" + x)
    ensures var t := v + b + ("\"" + x);
      Argument(t) && t[0] != '=' && Delim.Split(t) == Delim.Piece(Some(v), Some("\"" + x))
  {
    SplitPlainValue(v);
    PlainStart(v);
    GapIs(b);
    hide Delim.Split, Gap, PlainValue, Delim.Blanks, Delim.Plain, Tidy, AllSpace;
    Delim.RunIsTidy(v, b, "\"" + x);
    RunCharacters(v, b, "\"" + x);
    Delim.RunIsTidy(v, b + "=", "\"" + x);
    assert v + (b + "=") + ("\"" + x) == v + b + "=" + "" + ("\"" + x);
    Delim.SplitAtRun(v, b, "", "\"" + x);
  }

  /** A keyword whose quote is never closed is passed over. */
  lemma UnclosedKeyword(w: string, x: string, l: Layout)
    requires Word(w) && CleanLayout(l) && '\"' !in x && Tidy(w + "\"" + x)
    ensures LineEffect(l.lead + (w + "\"" + x) + l.pad + l.comment + "\n") == Effect(NoChange, 0)
  {
    hide Delim.Split, Trimmed, CleanLayout, Word, OptionEffect, Delim.Plain;
    WordIsPlain(w);
    Delim.PlainIsUndelimited(w);
    LineTrimmed(l, w + "\"" + x);
    assert w + "\"" + x == w + ['\"'] + x;
    Delim.SplitUnmatched(w, x);
  }

  lemma TwoValues(v: string, b: string, g: string)
    requires PlainValue(v) && PlainValue(g) && Gap(b) && b != ""
    ensures var x := v + b + g;
      Argument(x) && x[0] != '=' && Delim.Split(x) == Delim.Piece(Some(v), Some(g))
  {
    SplitPlainValue(v);
    SplitPlainValue(g);
    PlainStart(v);
    GapIs(b);
    hide Delim.Split, Gap, PlainValue, Delim.Blanks, Delim.Plain, Tidy, AllSpace;
    Delim.RunIsTidy(v, b, g);
    RunCharacters(v, b, g);
    Delim.TwoWords(v, b, "", g);
  }

  lemma RunCharacters(v: string, b: string, g: string)
    requires NUL !in v && NUL !in b && NUL !in g && '\n' !in v && '\n' !in b && '\n' !in g && v != ""
    ensures NUL !in v + b + g && '\n' !in v + b + g && (v + b + g)[0] == v[0]
  {
  }

  // ---------------------------------------------------------------------------
  // A whole file
  // ---------------------------------------------------------------------------

  function Rows(es: seq<Entry>): (rows: seq<string>)
    ensures |rows| == |es| && forall i :: 0 <= i < |es| ==> rows[i] == Row(es[i])
  {
    seq(|es|, i requires 0 <= i < |es| => Row(es[i]))
  }

  lemma WrittenEffects(es: seq<Entry>)
    requires forall i :: 0 <= i < |es| ==> Writable(es[i])
    ensures |Effects(Lines(Written(Rows(es))))| == |es|
    ensures forall i :: 0 <= i < |es| ==> Effects(Lines(Written(Rows(es))))[i] == Effect(Meaning(es[i]), 0)
  {
    hide LineEffect, Row, Lines, Written, Writable, Meaning, FitsLine;
    var rows := Rows(es);
    forall i | 0 <= i < |es| ensures FitsLine(rows[i]) && LineEffect(rows[i] + "\n") == Effect(Meaning(es[i]), 0) {
      RowEffect(es[i]);
    }
    LinesOfWritten(rows);
  }

  /** The value of the first entry for an option. */
  function Lookup(es: seq<Entry>, op: OpCode): (v: Option<string>)
    ensures v.Some? ==> exists i :: 0 <= i < |es| && es[i].op == op && es[i].value == v.value
    ensures v.None? ==> forall i :: 0 <= i < |es| ==> es[i].op != op
  {
    if es == [] then None
    else if es[0].op == op then Some(es[0].value)
    else Lookup(es[1..], op)
  }

  lemma {:induction false} FirstIsLookup(es: seq<Entry>, fx: seq<Effect>, k: FlagKey, j: StringKey)
    requires |fx| == |es|
    requires forall i :: 0 <= i < |es| ==> Writable(es[i]) && fx[i] == Effect(Meaning(es[i]), 0)
    ensures FirstString(fx, j) == Lookup(es, StringOption(j))
    ensures Lookup(es, FlagOption(k)).None? ==> FirstFlag(fx, k) == UNSET
    ensures Lookup(es, FlagOption(k)).Some? ==>
      var v := Lookup(es, FlagOption(k)).value; FirstFlag(fx, k) == if v == "yes" || v == "true" then 1 else 0
  {
    hide Name, Row, Atoi, CleanLayout;
    if es != [] {
      FirstIsLookup(es[1..], fx[1..], k, j);
      assert Writable(es[0]) && fx[0] == Effect(Meaning(es[0]), 0);
    }
  }

  /** What the written entries say a flag is: the first value written, or else off. */
  function WrittenFlag(es: seq<Entry>, k: FlagKey): int {
    match Lookup(es, FlagOption(k))
    case None => 0
    case Some(v) => if v == "yes" || v == "true" then 1 else 0
  }

  function WrittenString(es: seq<Entry>, k: StringKey): Option<string> {
    match Lookup(es, StringOption(k))
    case None => DefaultString(k)
    case Some(v) => Some(v)
  }

  lemma FlagReadBack(es: seq<Entry>, k: FlagKey)
    requires forall i :: 0 <= i < |es| ==> Writable(es[i])
    requires Load(Some(Written(Rows(es)))).Some?
    ensures Load(Some(Written(Rows(es)))).value.Flag(k) == WrittenFlag(es, k)
  {
    hide LineEffect, Written, Rows, Writable, Meaning, Lines, Load, Lookup;
    WrittenEffects(es);
    FirstSettingWins(Written(Rows(es)));
    FirstIsLookup(es, Effects(Lines(Written(Rows(es)))), k, NcPath);
  }

  lemma StringReadBack(es: seq<Entry>, k: StringKey)
    requires forall i :: 0 <= i < |es| ==> Writable(es[i])
    requires Load(Some(Written(Rows(es)))).Some?
    ensures Load(Some(Written(Rows(es)))).value.Str(k) == WrittenString(es, k)
  {
    hide LineEffect, Written, Rows, Writable, Meaning, Lines, Load, Lookup, DefaultString;
    WrittenEffects(es);
    FirstSettingWins(Written(Rows(es)));
    FirstIsLookup(es, Effects(Lines(Written(Rows(es)))), Debug, k);
  }

  /** Settings written in any order, style and case load again, each option with the value
      written for it first, and the options not written with their defaults. */
  lemma ConfigRoundTrip(es: seq<Entry>)
    requires forall i :: 0 <= i < |es| ==> Writable(es[i])
    ensures Load(Some(Written(Rows(es)))).Some?
    ensures forall k :: Load(Some(Written(Rows(es)))).value.Flag(k) == WrittenFlag(es, k)
    ensures forall k :: Load(Some(Written(Rows(es)))).value.Str(k) == WrittenString(es, k)
  {
    hide LineEffect, Written, Rows, Writable, Meaning, Lines, Load, WrittenFlag, WrittenString;
    WrittenEffects(es);
    GoodFileEffects(Written(Rows(es)));
    FirstSettingWins(Written(Rows(es)));
    forall k ensures Load(Some(Written(Rows(es)))).value.Flag(k) == WrittenFlag(es, k) { FlagReadBack(es, k); }
    forall k ensures Load(Some(Written(Rows(es)))).value.Str(k) == WrittenString(es, k) { StringReadBack(es, k); }
  }

  lemma {:induction false} OnlyEntry(es: seq<Entry>, i: nat)
    requires i < |es|
    requires forall j, k :: 0 <= j < k < |es| ==> es[j].op != es[k].op
    ensures Lookup(es, es[i].op) == Some(es[i].value)
  {
    if i > 0 {
      assert es[0].op != es[i].op && es[1..][i - 1] == es[i];
      OnlyEntry(es[1..], i - 1);
    }
  }

  /** When no option is written twice, loading gives every option the value written for it. */
  lemma AssignmentRoundTrip(es: seq<Entry>, i: nat)
    requires i < |es|
    requires forall j :: 0 <= j < |es| ==> Writable(es[j])
    requires forall j, k :: 0 <= j < k < |es| ==> es[j].op != es[k].op
    ensures Load(Some(Written(Rows(es)))).Some?
    ensures var s, e := Load(Some(Written(Rows(es)))).value, es[i];
      match e.op
      case FlagOption(k) => s.Flag(k) == if e.value == "yes" || e.value == "true" then 1 else 0
      case StringOption(k) => s.Str(k) == Some(e.value)
      case BadOption => false
  {
    assert Writable(es[i]) && es[i].op != BadOption;
    hide Load, Written, Rows, Writable, Lookup, WrittenFlag, WrittenString;
    OnlyEntry(es, i);
    ConfigRoundTrip(es);
    match es[i].op {
      case FlagOption(k) => FlagWritten(es, k);
      case StringOption(k) => StringWritten(es, k);
    }
  }

  lemma FlagWritten(es: seq<Entry>, k: FlagKey)
    requires Lookup(es, FlagOption(k)).Some?
    ensures var v := Lookup(es, FlagOption(k)).value; WrittenFlag(es, k) == if v == "yes" || v == "true" then 1 else 0
  {
    hide Lookup;
  }

  lemma StringWritten(es: seq<Entry>, k: StringKey)
    requires Lookup(es, StringOption(k)).Some?
    ensures WrittenString(es, k) == Lookup(es, StringOption(k))
  {
    hide Lookup, DefaultString;
  }

  // ---------------------------------------------------------------------------
  // Blank and comment lines
  // ---------------------------------------------------------------------------

  /** Nothing is asked for by a line with white space and a comment only. */
  lemma NoteEffect(row: string)
    requires IsNote(row)
    ensures LineEffect(row + "\n") == Effect(NoChange, 0)
  {
    hide Trimmed, IsNote;
    NoteIsTrimmed(row);
  }

  lemma {:induction false} WovenEffects(all: seq<string>, rows: seq<string>, k: FlagKey, j: StringKey)
    requires Woven(all, rows)
    ensures AllGood(Effects(Ended(all))) <==> AllGood(Effects(Ended(rows)))
    ensures FirstFlag(Effects(Ended(all)), k) == FirstFlag(Effects(Ended(rows)), k)
    ensures FirstString(Effects(Ended(all)), j) == FirstString(Effects(Ended(rows)), j)
    decreases |all|
  {
    hide LineEffect, IsNote, AllGood;
    if all != [] {
      EndedFirst(all);
      EffectsOfFirst(all[0] + "\n", Ended(all[1..]));
      if IsNote(all[0]) && Woven(all[1..], rows) {
        NoteEffect(all[0]);
        WovenEffects(all[1..], rows, k, j);
        FirstOfEffects(Effect(NoChange, 0), Effects(Ended(all[1..])), k, j);
      } else {
        EndedFirst(rows);
        EffectsOfFirst(rows[0] + "\n", Ended(rows[1..]));
        WovenEffects(all[1..], rows[1..], k, j);
        FirstOfEffects(LineEffect(all[0] + "\n"), Effects(Ended(all[1..])), k, j);
        FirstOfEffects(LineEffect(rows[0] + "\n"), Effects(Ended(rows[1..])), k, j);
      }
    }
  }

  lemma FirstOfEffects(e: Effect, es: seq<Effect>, k: FlagKey, j: StringKey)
    ensures AllGood([e] + es) <==> e.status == 0 && AllGood(es)
    ensures FirstFlag([e] + es, k)
            == if e.change.SetFlag? && e.change.flag == k then e.change.value else FirstFlag(es, k)
    ensures FirstString([e] + es, j)
            == if e.change.SetString? && e.change.key == j then Some(e.change.text) else FirstString(es, j)
  {
    var all := [e] + es;
    assert all[0] == e && all[1..] == es;
    if AllGood(all) {
      forall i | 0 <= i < |es| ensures es[i].status == 0 { assert es[i] == all[i + 1]; }
    }
    if e.status == 0 && AllGood(es) {
      forall i | 0 <= i < |all| ensures all[i].status == 0 { assert all[i] == if i == 0 then e else es[i - 1]; }
    }
  }

  /** Written settings with blank and comment lines anywhere between them load as the settings
      alone do. */
  lemma NotedRoundTrip(all: seq<string>, es: seq<Entry>)
    requires forall i :: 0 <= i < |es| ==> Writable(es[i])
    requires Woven(all, Rows(es)) && forall i :: 0 <= i < |all| ==> FitsLine(all[i])
    ensures Load(Some(Written(all))).Some?
    ensures forall k :: Load(Some(Written(all))).value.Flag(k) == WrittenFlag(es, k)
    ensures forall k :: Load(Some(Written(all))).value.Str(k) == WrittenString(es, k)
  {
    hide LineEffect, Written, Rows, Writable, Lines, Load, WrittenFlag, WrittenString, FitsLine, Woven, Effects,
      Flagged, Defaulted, FirstFlag, FirstString, Ended;
    var rows := Rows(es);
    ConfigRoundTrip(es);
    RowsFit(es);
    LinesAreEnded(all);
    LinesAreEnded(rows);
    FirstSettingWins(Written(all));
    FirstSettingWins(Written(rows));
    GoodFileEffects(Written(all));
    GoodFileEffects(Written(rows));
    WovenEffects(all, rows, Debug, NcPath);
    forall k: FlagKey ensures Load(Some(Written(all))).value.Flag(k) == WrittenFlag(es, k) {
      WovenEffects(all, rows, k, NcPath);
    }
    forall k: StringKey ensures Load(Some(Written(all))).value.Str(k) == WrittenString(es, k) {
      WovenEffects(all, rows, Debug, k);
    }
  }

  lemma RowsFit(es: seq<Entry>)
    requires forall i :: 0 <= i < |es| ==> Writable(es[i])
    ensures forall i :: 0 <= i < |es| ==> FitsLine(Rows(es)[i])
  {
    hide Writable, Row, LineEffect, FitsLine, Meaning;
    forall i | 0 <= i < |es| ensures FitsLine(Rows(es)[i]) { RowEffect(es[i]); }
  }

  // ---------------------------------------------------------------------------
  // The fields and their defaults
  // ---------------------------------------------------------------------------

  /** Which field each written option ends up in. */
  lemma LoadedFields(es: seq<Entry>)
    requires forall i :: 0 <= i < |es| ==> Writable(es[i])
    ensures Load(Some(Written(Rows(es)))).Some?
    ensures var s := Load(Some(Written(Rows(es)))).value;
      && s.debug == WrittenFlag(es, Debug) && s.logToStderr == WrittenFlag(es, LogToStderr)
      && s.useLdap == WrittenFlag(es, UseLdap) && s.enableProxy == WrittenFlag(es, EnableProxy)
      && s.disableAuthorization == WrittenFlag(es, DisableAuthorization)
      && s.disableProxyAuthorization == WrittenFlag(es, DisableProxyAuthorization)
      && s.allowFqdn == WrittenFlag(es, AllowFqdn)
    ensures var s := Load(Some(Written(Rows(es)))).value;
      && s.authorizedServiceTag == WrittenString(es, AuthorizedServiceTag)
      && s.proxyKeyword == WrittenString(es, ProxyKeyword)
      && s.ldapUri == WrittenString(es, LdapUri) && s.ldapBase == WrittenString(es, LdapBase)
      && s.hostsFile == WrittenString(es, HostsFile) && s.usersFile == WrittenString(es, UsersFile)
      && s.sshPath == WrittenString(es, SshPath) && s.ncPath == WrittenString(es, NcPath)
      && s.ncTimeout == WrittenString(es, NcTimeout)
      && s.geoIpDat == WrittenString(es, GeoIpDat) && s.geoIp6Dat == WrittenString(es, GeoIp6Dat)
  {
    hide Load, Written, Rows, Writable, WrittenFlag, WrittenString;
    ConfigRoundTrip(es);
    var s := Load(Some(Written(Rows(es)))).value;
    FlagFields(s);
    StringFields(s);
  }

  lemma FlagFields(s: Settings)
    ensures s.debug == s.Flag(Debug) && s.logToStderr == s.Flag(LogToStderr) && s.useLdap == s.Flag(UseLdap)
    ensures s.enableProxy == s.Flag(EnableProxy) && s.disableAuthorization == s.Flag(DisableAuthorization)
    ensures s.disableProxyAuthorization == s.Flag(DisableProxyAuthorization) && s.allowFqdn == s.Flag(AllowFqdn)
  {
  }

  lemma StringFields(s: Settings)
    ensures s.authorizedServiceTag == s.Str(AuthorizedServiceTag) && s.proxyKeyword == s.Str(ProxyKeyword)
    ensures s.ldapUri == s.Str(LdapUri) && s.ldapBase == s.Str(LdapBase) && s.hostsFile == s.Str(HostsFile)
    ensures s.usersFile == s.Str(UsersFile) && s.sshPath == s.Str(SshPath) && s.ncPath == s.Str(NcPath)
    ensures s.ncTimeout == s.Str(NcTimeout) && s.geoIpDat == s.Str(GeoIpDat) && s.geoIp6Dat == s.Str(GeoIp6Dat)
  {
  }

  /** The settings of an empty file. */
  lemma EmptyFile()
    ensures var s := Load(Some(""));
      && s.Some? && (forall k :: s.value.Flag(k) == 0) && s.value.authType == AUTH_TYPE_LOCAL
      && s.value.authorizedServiceTag == Some("proxy") && s.value.proxyKeyword == Some("direct")
      && s.value.ldapUri == None && s.value.ldapBase == None
      && s.value.hostsFile == Some("/etc/stonesh/hosts.lst") && s.value.usersFile == Some("/etc/stonesh/users.lst")
      && s.value.sshPath == Some("/usr/bin/ssh") && s.value.ncPath == Some("/bin/nc")
      && s.value.ncTimeout == Some("1") && s.value.geoIpDat == Some("/usr/share/GeoIP/GeoIP.dat")
      && s.value.geoIp6Dat == Some("/usr/share/GeoIP/GeoIPv6.dat")
  {
    assert Lines("") == [] && Process(NOTHING_SET, []) == NOTHING_SET && BadLines([]) == 0;
    hide Lines, LineEffect, Process, BadLines;
    assert Effects([]) == [];
    assert Load(Some("")) == Some(FillDefaults(NOTHING_SET));
    hide Load;
  }

  /** `useLDAP`, as it is documented, below a comment and an empty line, with a tab and a comment. */
  const LDAP_ENTRY := Entry(FlagOption(UseLdap), "useLDAP", "yes", false, false, Layout("", "\t", "", " ", "# on"))

  lemma DocumentedSpelling()
    ensures Load(Some(Written(["# note", "", "useLDAP\tyes # on"]))).Some?
    ensures Load(Some(Written(["# note", "", "useLDAP\tyes # on"]))).value.useLdap == 1
    ensures Load(Some(Written(["# note", "", "useLDAP\tyes # on"]))).value.authType == AUTH_TYPE_LDAP
  {
    var es, all := [LDAP_ENTRY], ["# note", "", "useLDAP\tyes # on"];
    LdapEntryIsWritable();
    NotesAround();
    assert WrittenFlag(es, UseLdap) == 1 && WrittenFlag(es, DisableAuthorization) == 0;
    hide Writable, Load, Written, FitsLine, Woven, WrittenFlag, WrittenString, Rows;
    NotedRoundTrip(all, es);
    FlagFields(Load(Some(Written(all))).value);
    LoadedAuthType(Written(all));
  }

  lemma LdapEntryIsWritable()
    ensures Writable(LDAP_ENTRY) && Row(LDAP_ENTRY) == "useLDAP\tyes # on"
  {
    EqualCIIff("useLDAP", "useldap");
  }

  lemma NotesAround()
    ensures Woven(["# note", "", "useLDAP\tyes # on"], Rows([LDAP_ENTRY]))
    ensures forall i :: 0 <= i < 3 ==> FitsLine(["# note", "", "useLDAP\tyes # on"][i])
  {
    LdapEntryIsWritable();
    hide Writable, Row;
    CommentIsNote("# note");
    CommentIsNote("");
    NotesBefore("# note", "", "useLDAP\tyes # on");
    assert Rows([LDAP_ENTRY]) == ["useLDAP\tyes # on"];
  }

  lemma NotesBefore(note: string, other: string, row: string)
    requires IsNote(note) && IsNote(other)
    ensures Woven([note, other, row], [row])
  {
    hide IsNote;
    assert [row][1..] == [] && Woven([], []) && Woven([row], [row]);
    assert [other, row][1..] == [row] && Woven([other, row], [row]);
    assert [note, other, row][1..] == [other, row];
  }

  // ---------------------------------------------------------------------------
  // Timeouts
  // ---------------------------------------------------------------------------

  /** Decimal notation. */
  function Decimal(n: nat): (v: string)
    ensures v != "" && forall i :: 0 <= i < |v| ==> '0' <= v[i] <= '9'
  {
    (if n < 10 then "" else Decimal(n / 10)) + ['0' + (n % 10) as char]
  }

  lemma {:induction false} DigitsAppend(v: string, acc: nat, c: char)
    requires (forall i :: 0 <= i < |v| ==> '0' <= v[i] <= '9') && '0' <= c <= '9'
    ensures Digits(v + [c], acc) == 10 * Digits(v, acc) + (c - '0') as nat
  {
    if v == "" {
      assert v + [c] == [c] && [c][1..] == "";
      assert Digits("", 10 * acc + (c - '0') as nat) == 10 * acc + (c - '0') as nat;
    } else {
      assert (v + [c])[1..] == v[1..] + [c];
      DigitsAppend(v[1..], 10 * acc + (v[0] - '0') as nat, c);
    }
  }

  lemma {:induction false} DigitsOfDecimal(n: nat)
    ensures Digits(Decimal(n), 0) == n
  {
    var c := '0' + (n % 10) as char;
    if n < 10 {
      assert "" + [c] == [c];
      DigitsAppend("", 0, c);
    } else {
      DigitsOfDecimal(n / 10);
      DigitsAppend(Decimal(n / 10), 0, c);
    }
  }

  lemma {:induction false} DigitsStop(v: string, tail: string, acc: nat)
    requires forall i :: 0 <= i < |v| ==> '0' <= v[i] <= '9'
    requires tail == "" || !('0' <= tail[0] <= '9')
    ensures Digits(v + tail, acc) == Digits(v, acc)
    decreases |v|
  {
    if v == "" {
      assert v + tail == tail;
    } else {
      assert (v + tail)[1..] == v[1..] + tail;
      DigitsStop(v[1..], tail, 10 * acc + (v[0] - '0') as nat);
    }
  }

  lemma AtoiSkips(left: string, v: string)
    requires AllSpace(left) && v != "" && !IsSpace(v[0])
    ensures Atoi(left + v) == Number(v)
  {
    hide StripLeft, Number;
    StripLeftPadded(left, v);
  }

  lemma NumberSigned(v: string)
    ensures Number("+" + v) == ToInt(Digits(v, 0)) && Number("-" + v) == ToInt(0 - Digits(v, 0))
  {
    hide Digits, ToInt;
    assert ("+" + v)[1..] == v && ("-" + v)[1..] == v;
  }

  /** What `atoi` makes of a number in decimal: white space before it and a sign are allowed, and
      whatever follows its digits is ignored. */
  lemma AtoiIs(left: string, n: nat, tail: string)
    requires AllSpace(left) && n < 0x8000_0000 && (tail == "" || !('0' <= tail[0] <= '9'))
    ensures Atoi(left + (Decimal(n) + tail)) == n
    ensures Atoi(left + ("+" + (Decimal(n) + tail))) == n
    ensures Atoi(left + ("-" + (Decimal(n) + tail))) == 0 - n
  {
    var v := Decimal(n);
    DigitsOfDecimal(n);
    DigitsStop(v, tail, 0);
    hide Decimal, Atoi, Digits;
    assert (v + tail)[0] == v[0];
    NumberSigned(v + tail);
    assert Number(v + tail) == n;
    hide Number;
    AtoiSkips(left, v + tail);
    AtoiSkips(left, "+" + (v + tail));
    AtoiSkips(left, "-" + (v + tail));
  }

  /** A number beyond an int is cut to 32 bits, and one beyond a long gives -1. */
  lemma AtoiOverflow(n: nat)
    ensures n <= 0x7fff_ffff_ffff_ffff ==> Atoi(Decimal(n)) == (n + 0x8000_0000) % 0x1_0000_0000 - 0x8000_0000
    ensures n > 0x7fff_ffff_ffff_ffff ==> Atoi(Decimal(n)) == -1
  {
    var v := Decimal(n);
    DigitsOfDecimal(n);
    NewlineIsSpace();
    hide Decimal, Atoi, Digits;
    AtoiSkips("", v);
    assert "" + v == v;
    assert Number(v) == ToInt(n);
  }

  /** A text that does not begin with a number counts as 0. */
  lemma AtoiOfOther(v: string)
    requires v == "" || !(IsSpace(v[0]) || '0' <= v[0] <= '9' || v[0] == '-' || v[0] == '+')
    ensures Atoi(v) == 0
  {
    StripLeftIs(v, 0);
  }

  /** A timeout that is not positive is refused. */
  lemma TimeoutRefused(w: string, v: string, l: Layout)
    requires EqualCI(w, "nctimeout") && PlainValue(v) && Atoi(v) <= 0 && CleanLayout(l) && l.sep != ""
    ensures LineEffect(Line(w, l, false, v) + "\n") == Effect(SetString(NcTimeout, v), -1)
  {
    hide LineEffect, CleanLayout, Line, Atoi, OpcodeFrom, Delim.Split, EqualCI, PlainValue, Argument;
    SpellingIsWord(StringOption(NcTimeout), w);
    NameIsFound(StringOption(NcTimeout), w, 0);
    SplitPlainValue(v);
    PlainStart(v);
    LineSays(w, l, false, v);
  }

  /** ... as every negative number is. */
  lemma NegativeTimeout(n: nat)
    requires n < 0x8000_0000
    ensures LineEffect("nctimeout -" + Decimal(n) + "\n") == Effect(SetString(NcTimeout, "-" + Decimal(n)), -1)
  {
    hide LineEffect, Atoi, Decimal;
    var v := "-" + Decimal(n);
    AtoiIs("", n, "");
    assert "" + ("-" + (Decimal(n) + "")) == v;
    NumberIsPlain(v);
    hide PlainValue;
    TimeoutRefused("nctimeout", v, TIGHT);
    assert Line("nctimeout", TIGHT, false, v) == "nctimeout -" + Decimal(n);
  }

  lemma NumberIsPlain(v: string)
    requires v != "" && forall i :: 0 <= i < |v| ==> '0' <= v[i] <= '9' || v[i] == '-'
    ensures PlainValue(v)
  {
  }

  /** Every positive int in decimal is an acceptable timeout, and stands for itself. */
  lemma TimeoutRoundTrip(n: nat)
    requires 0 < n < 0x8000_0000
    ensures Atoi(Decimal(n)) == n
  {
    hide Decimal, Atoi;
    AtoiIs("", n, "");
    assert "" + (Decimal(n) + "") == Decimal(n);
  }
}
