/** Writing a hosts table down and looking names up in it. */
module HostsTable {
  import opened Text
  import opened Hosts

  /** A row `host`, `host:port` or `host:port:countries`. */
  datatype Row =
    | HostOnly(name: string)
    | WithPort(name: string, port: string)
    | WithCountries(name: string, port: string, countries: string)

  /** A field that can be written; only the name must not be empty. */
  predicate CleanField(v: string) {
    Tidy(v) && forall i :: 0 <= i < |v| ==> v[i] !in ":\n" && v[i] != NUL
  }

  function RowText(r: Row): string {
    match r
    case HostOnly(n) => n
    case WithPort(n, p) => n + ":" + p
    case WithCountries(n, p, c) => n + ":" + (p + ":" + c)
  }

  function RowTexts(t: seq<Row>): (ts: seq<string>)
    ensures |ts| == |t| && forall i :: 0 <= i < |t| ==> ts[i] == RowText(t[i])
  {
    seq(|t|, i requires 0 <= i < |t| => RowText(t[i]))
  }

  predicate CleanRow(r: Row) {
    && r.name != "" && CleanField(r.name)
    && (r.HostOnly? || CleanField(r.port))
    && (r.WithCountries? ==> CleanField(r.countries))
    && |RowText(r)| + 1 < LINE_SIZE
  }

  /** What a row says about its host. */
  function Meaning(r: Row): Host {
    Host(r.name,
         if r.HostOnly? || r.port == "" then "22" else r.port,
         if r.WithCountries? then r.countries else "")
  }

  /** First match in the association list. */
  function FindRow(t: seq<Row>, name: string): Option<Host> {
    if t == [] then None
    else if t[0].name == name then Some(Meaning(t[0]))
    else FindRow(t[1..], name)
  }

  lemma RecordedClean(v: string, default: string)
    requires Tidy(v) && Tidy(default)
    ensures Recorded(Some(v), default) == if v == "" then default else v
    ensures Recorded(None, default) == default
  {
    hide Trimmed, Tidy;
    TidyIsTrimmed(v);
    TidyIsTrimmed(default);
  }

  lemma NoColon(v: string)
    requires CleanField(v)
    ensures ':' !in v && NUL !in v && '\n' !in v && '#' !in v
  {
  }

  lemma JoinedFields(a: string, b: string)
    requires a != "" && CleanField(a)
    requires Tidy(b) && NUL !in b && '\n' !in b
    ensures Tidy(a + ":" + b) && NUL !in a + ":" + b && '\n' !in a + ":" + b
  {
  }

  /** The same without asking for a first field: port and countries. */
  lemma JoinedTail(p: string, c: string)
    requires CleanField(p) && CleanField(c)
    ensures Tidy(p + ":" + c) && NUL !in p + ":" + c && '\n' !in p + ":" + c
  {
  }

  lemma TextIsTidy(r: Row)
    requires CleanRow(r)
    ensures Tidy(RowText(r)) && FitsLine(RowText(r)) && RowText(r) != ""
  {
    hide Tidy, CleanField;
    NoColon(r.name);
    match r {
      case HostOnly(n) => CleanIsTidy(n);
      case WithPort(n, p) => CleanIsTidy(p); NoColon(p); JoinedFields(n, p);
      case WithCountries(n, p, c) => JoinedTail(p, c); JoinedFields(n, p + ":" + c);
    }
  }

  lemma CleanIsTidy(v: string)
    requires CleanField(v)
    ensures Tidy(v)
  {
  }

  /** The fields the lookup finds in a row. */
  lemma FieldsOfRow(r: Row)
    requires CleanRow(r)
    ensures SepHead(RowText(r), ':') == r.name
    ensures HostOf(r.name, SepTail(RowText(r), ':')) == Meaning(r)
  {
    hide Recorded, SepHead, SepTail, Tidy, CleanField;
    TidyDefaults();
    NoColon(r.name);
    match r {
      case HostOnly(n) =>
        SepNone(n, ':');
        RecordedClean("", "22");
        RecordedClean("", "");
      case WithPort(n, p) =>
        NoColon(p);
        CleanIsTidy(p);
        SepHere(n, ':', p);
        SepNone(p, ':');
        RecordedClean(p, "22");
        RecordedClean("", "");
      case WithCountries(n, p, c) =>
        NoColon(p);
        NoColon(c);
        CleanIsTidy(p);
        CleanIsTidy(c);
        SepHere(n, ':', p + ":" + c);
        SepHere(p, ':', c);
        SepNone(c, ':');
        RecordedClean(p, "22");
        RecordedClean(c, "");
    }
  }

  lemma TidyDefaults()
    ensures Tidy("22") && Tidy("")
  {
  }

  lemma RowIsRead(r: Row, name: string)
    requires CleanRow(r)
    ensures FitsLine(RowText(r))
    ensures LineHost(RowText(r) + "\n", name) == if r.name == name then Some(Meaning(r)) else None
  {
    hide CleanRow, Meaning, HostOf, Trimmed, SepHead, SepTail, RowText;
    TextIsTidy(r);
    TrimmedPadded("", RowText(r), "\n", "");
    assert "" + RowText(r) + "\n" + "" == RowText(r) + "\n";
    FieldsOfRow(r);
  }

  lemma {:induction false} LinesFind(t: seq<Row>, lines: seq<string>, name: string)
    requires |lines| == |t|
    requires forall i :: 0 <= i < |t| ==>
      LineHost(lines[i], name) == if t[i].name == name then Some(Meaning(t[i])) else None
    ensures FirstHost(lines, name) == FindRow(t, name)
  {
    hide LineHost, Meaning;
    if t != [] {
      LinesFind(t[1..], lines[1..], name);
    }
  }

  /** Round trip: for every name, looking it up in a written table is first match in the table. */
  lemma HostsRoundTrip(t: seq<Row>, name: string)
    requires forall i :: 0 <= i < |t| ==> CleanRow(t[i])
    ensures Lookup(Some(Written(RowTexts(t))), name) == FindRow(t, name)
  {
    hide LineHost, CleanRow, Meaning, RowText, FitsLine, Lines, Written;
    var rows := RowTexts(t);
    forall i | 0 <= i < |t|
      ensures FitsLine(rows[i])
      ensures LineHost(rows[i] + "\n", name) == if t[i].name == name then Some(Meaning(t[i])) else None
    {
      RowIsRead(t[i], name);
    }
    LinesOfWritten(rows);
    LinesFind(t, Lines(Written(rows)), name);
  }

  // ---------------------------------------------------------------------------
  // Tables laid out freely
  // ---------------------------------------------------------------------------

  /** How a row may stand in the file: outer space, space around the port and the countries,
      further fields, which are ignored, and a comment. */
  datatype Layout = Layout(left: string, l1: string, r1: string, l2: string, r2: string, more: string,
                           right: string, comment: string)

  /** What stands between the outer space.  The name has no space around it. */
  function CoreText(r: Row, l: Layout): string {
    match r
    case HostOnly(n) => n
    case WithPort(n, p) => n + ":" + (l.l1 + p + l.r1)
    case WithCountries(n, p, c) => n + ":" + (l.l1 + p + l.r1 + ":" + (l.l2 + c + l.r2 + l.more))
  }

  ghost predicate LaidOut(row: string, r: Row, l: Layout) {
    && AllSpace(l.left) && AllSpace(l.l1) && AllSpace(l.r1) && AllSpace(l.l2) && AllSpace(l.r2)
    && AllSpace(l.right) && (l.comment == "" || l.comment[0] == '#') && (l.more == "" || l.more[0] == ':')
    && (r.HostOnly? || r.port != "" || l.l1 + l.r1 == "")
    && Tidy(CoreText(r, l)) && CoreText(r, l) != ""
    && row == l.left + CoreText(r, l) + l.right + l.comment
  }

  /** The fields of a row, apart from the room it needs. */
  predicate CleanFields(r: Row) {
    && r.name != "" && CleanField(r.name)
    && (r.HostOnly? || CleanField(r.port))
    && (r.WithCountries? ==> CleanField(r.countries))
  }

  /** A field is recorded without the space around it. */
  lemma RecordedPadded(left: string, v: string, right: string, default: string)
    requires Tidy(v) && Tidy(default) && AllSpace(left) && AllSpace(right) && (v != "" || left + right == "")
    ensures Recorded(Some(left + v + right), default) == if v == "" then default else v
    ensures Recorded(None, default) == default
  {
    hide Trimmed, Tidy, AllSpace;
    TidyIsTrimmed(default);
    TrimmedPadded(left, v, right, "");
    assert left + v + right + "" == left + v + right;
    if v != "" { assert left + v + right != ""; } else { assert left + v + right == ""; }
  }

  lemma PortFields(r: Row, l: Layout, row: string)
    requires CleanFields(r) && LaidOut(row, r, l) && r.WithPort?
    ensures SepHead(CoreText(r, l), ':') == r.name
    ensures HostOf(r.name, SepTail(CoreText(r, l), ':')) == Meaning(r)
  {
    var port := l.l1 + r.port + l.r1;
    FieldLacks(l.l1, r.port, l.r1);
    NoColon(r.name);
    TidyDefaults();
    CleanIsTidy(r.port);
    hide Recorded, SepHead, SepTail, Tidy, CleanField, AllSpace;
    assert CoreText(r, l) == r.name + [':'] + port;
    SepHere(r.name, ':', port);
    SepNone(port, ':');
    RecordedPadded(l.l1, r.port, l.r1, "22");
    RecordedClean("", "");
  }

  lemma FieldLacks(left: string, v: string, right: string)
    requires AllSpace(left) && AllSpace(right) && CleanField(v)
    ensures ':' !in left + v + right
  {
    SpaceLacks(left);
    SpaceLacks(right);
    NoColon(v);
    hide AllSpace, CleanField;
  }

  lemma CountryFields(r: Row, l: Layout, row: string)
    requires CleanFields(r) && LaidOut(row, r, l) && r.WithCountries?
    ensures SepHead(CoreText(r, l), ':') == r.name
    ensures HostOf(r.name, SepTail(CoreText(r, l), ':')) == Meaning(r)
  {
    var port, countries := l.l1 + r.port + l.r1, l.l2 + r.countries + l.r2;
    FieldLacks(l.l1, r.port, l.r1);
    FieldLacks(l.l2, r.countries, l.r2);
    NoColon(r.name);
    TidyDefaults();
    CleanIsTidy(r.port);
    CleanIsTidy(r.countries);
    hide SepHead, SepTail, Tidy, CleanField, AllSpace, Trimmed;
    var rest := port + [':'] + (countries + l.more);
    assert CoreText(r, l) == r.name + [':'] + rest;
    SepHere(r.name, ':', rest);
    SepHere(port, ':', countries + l.more);
    FieldEnds(countries, ':', l.more);
    RecordedPadded(l.l1, r.port, l.r1, "22");
    CountriesRecorded(l.l2, r.countries, l.r2);
  }

  /** Space alone counts as no countries. */
  lemma CountriesRecorded(left: string, v: string, right: string)
    requires Tidy(v) && AllSpace(left) && AllSpace(right)
    ensures Recorded(Some(left + v + right), "") == v
  {
    hide Trimmed, Tidy, AllSpace;
    TrimmedPadded(left, v, right, "");
    assert left + v + right + "" == left + v + right;
  }

  /** But as a port it is recorded as it is, trimmed: only a field without any character gets the
      default. */
  lemma BlankPort(s: string)
    requires AllSpace(s) && s != ""
    ensures Recorded(Some(s), "22") == ""
  {
    NewlineIsSpace();
    TrimmedPadded(s, "", "", "");
    assert s + "" + "" + "" == s;
  }

  /** Layout is no matter: such a line is read as the row. */
  lemma LaidOutIsRead(row: string, r: Row, l: Layout, name: string)
    requires CleanFields(r) && LaidOut(row, r, l)
    ensures LineHost(row + "\n", name) == if r.name == name then Some(Meaning(r)) else None
  {
    match r {
      case HostOnly(n) => NameOnly(n);
      case WithPort(_, _) => PortFields(r, l, row);
      case WithCountries(_, _, _) => CountryFields(r, l, row);
    }
    hide Tidy, Trimmed, AllSpace, SepHead, SepTail, HostOf, CleanFields;
    RowTrimmed(l.left, CoreText(r, l), l.right, l.comment);
  }

  lemma NameOnly(n: string)
    requires n != "" && CleanField(n)
    ensures SepHead(n, ':') == n && HostOf(n, SepTail(n, ':')) == Host(n, "22", "")
  {
    hide Recorded, Tidy;
    NoColon(n);
    TidyDefaults();
    SepNone(n, ':');
    RecordedClean("", "22");
    RecordedClean("", "");
  }

  lemma FirstHostFirst(line: string, lines: seq<string>, name: string)
    ensures FirstHost([line] + lines, name)
            == if LineHost(line, name).Some? then LineHost(line, name) else FirstHost(lines, name)
  {
    hide LineHost;
    assert ([line] + lines)[1..] == lines;
  }

  lemma NoteHasNoHost(row: string, name: string)
    requires IsNote(row)
    ensures LineHost(row + "\n", name) == None
  {
    hide IsNote, Trimmed;
    NoteIsTrimmed(row);
  }

  lemma {:induction false} WovenHosts(all: seq<string>, rows: seq<string>, name: string)
    requires Woven(all, rows)
    ensures FirstHost(Ended(all), name) == FirstHost(Ended(rows), name)
    decreases |all|
  {
    hide LineHost, IsNote, FirstHost;
    if all != [] {
      EndedFirst(all);
      FirstHostFirst(all[0] + "\n", Ended(all[1..]), name);
      if IsNote(all[0]) && Woven(all[1..], rows) {
        NoteHasNoHost(all[0], name);
        WovenHosts(all[1..], rows, name);
      } else {
        EndedFirst(rows);
        FirstHostFirst(rows[0] + "\n", Ended(rows[1..]), name);
        WovenHosts(all[1..], rows[1..], name);
      }
    }
  }

  /** A hosts file whose rows are laid out freely, with blank and comment lines anywhere between
      them, is the table of its rows. */
  lemma LaidOutRoundTrip(all: seq<string>, rows: seq<string>, t: seq<Row>, ls: seq<Layout>, name: string)
    requires |rows| == |t| == |ls|
    requires Woven(all, rows) && forall i :: 0 <= i < |all| ==> FitsLine(all[i])
    requires forall i :: 0 <= i < |t| ==> CleanFields(t[i]) && LaidOut(rows[i], t[i], ls[i])
    ensures Lookup(Some(Written(all)), name) == FindRow(t, name)
  {
    hide LineHost, CleanFields, Meaning, FitsLine, Lines, Written, LaidOut, Woven;
    LinesAreEnded(all);
    WovenHosts(all, rows, name);
    forall i | 0 <= i < |t|
      ensures LineHost(Ended(rows)[i], name) == if t[i].name == name then Some(Meaning(t[i])) else None
    {
      LaidOutIsRead(rows[i], t[i], ls[i], name);
    }
    LinesFind(t, Ended(rows), name);
  }
}
