/** What the users file means as a table: composition of files, writing a table down and
    looking it up, and the prefix rule. */
module UsersTable {
  import opened Text
  import opened AuthLocal

  // ---------------------------------------------------------------------------
  // Files made of parts
  // ---------------------------------------------------------------------------

  /** The decision of two files in a row is the disjunction of their decisions. */
  lemma GrantsDistribute(a: string, b: string, user: string, host: string, proxy: int)
    requires a == "" || a[|a| - 1] == '\n'
    ensures FileGrants(a + b, user, host, proxy) <==>
            FileGrants(a, user, host, proxy) || FileGrants(b, user, host, proxy)
  {
    hide LinesGrant, Lines, Trimmed;
    LinesAppend(a, b);
    LinesGrantAppend(Lines(a), Lines(b), Trimmed(user), Trimmed(host), proxy);
  }

  /** Only which lines there are matters: adding lines revokes nothing. */
  lemma LinesAreMonotone(a: string, b: string, user: string, host: string, proxy: int)
    requires forall l :: l in Lines(a) ==> l in Lines(b)
    requires FileGrants(a, user, host, proxy)
    ensures FileGrants(b, user, host, proxy)
  {
    hide LineGrants, Lines, Trimmed;
    var u, h := Trimmed(user), Trimmed(host);
    var i :| 0 <= i < |Lines(a)| && LineGrants(Lines(a)[i], u, h, proxy);
    assert Lines(a)[i] in Lines(a);
    var j :| 0 <= j < |Lines(b)| && Lines(b)[j] == Lines(a)[i];
    assert LineGrants(Lines(b)[j], u, h, proxy);
  }

  /** Neither the order of the lines nor how often each occurs matters. */
  lemma OrderIsIrrelevant(a: string, b: string, user: string, host: string, proxy: int)
    requires forall l :: l in Lines(a) <==> l in Lines(b)
    ensures FileGrants(a, user, host, proxy) <==> FileGrants(b, user, host, proxy)
  {
    hide FileGrants, Lines;
    if FileGrants(a, user, host, proxy) { LinesAreMonotone(a, b, user, host, proxy); }
    if FileGrants(b, user, host, proxy) { LinesAreMonotone(b, a, user, host, proxy); }
  }

  // ---------------------------------------------------------------------------
  // Tables
  // ---------------------------------------------------------------------------

  datatype Entry = Entry(host: string, proxied: bool)

  datatype UserRow = UserRow(user: string, entries: seq<Entry>)

  predicate CleanName(n: string) {
    && n != "" && Tidy(n)
    && forall i :: 0 <= i < |n| ==> n[i] !in ":,\n" && n[i] != NUL
  }

  function EntryText(e: Entry): string {
    if e.proxied then e.host + "+" else e.host
  }

  function EntryTexts(es: seq<Entry>): (ts: seq<string>)
    ensures |ts| == |es| && forall i :: 0 <= i < |es| ==> ts[i] == EntryText(es[i])
  {
    seq(|es|, i requires 0 <= i < |es| => EntryText(es[i]))
  }

  function RowText(r: UserRow): string {
    r.user + ":" + Joined(EntryTexts(r.entries), ',')
  }

  function RowTexts(t: seq<UserRow>): (ts: seq<string>)
    ensures |ts| == |t| && forall i :: 0 <= i < |t| ==> ts[i] == RowText(t[i])
  {
    seq(|t|, i requires 0 <= i < |t| => RowText(t[i]))
  }

  /** The users file for a table. */
  function TableText(t: seq<UserRow>): string {
    Written(RowTexts(t))
  }

  predicate CleanEntry(e: Entry) {
    CleanName(e.host) && e.host[|e.host| - 1] != '+'
  }

  predicate CleanRow(r: UserRow) {
    && CleanName(r.user)
    && (forall i :: 0 <= i < |r.entries| ==> CleanEntry(r.entries[i]))
    && |RowText(r)| + 1 < LINE_SIZE
  }

  /** No host twice in a row, whatever the case. */
  predicate HostsOnce(r: UserRow) {
    forall i, j :: 0 <= i < j < |r.entries| ==> !EqualCI(r.entries[i].host, r.entries[j].host)
  }

  // ---------------------------------------------------------------------------
  // The table rule the code implements
  // ---------------------------------------------------------------------------

  /** The first entry that extends the host decides. */
  predicate EntriesGrant(es: seq<Entry>, host: string, proxy: int) {
    es != [] &&
    if PrefixCI(host, es[0].host) then es[0].proxied || proxy != 1
    else EntriesGrant(es[1..], host, proxy)
  }

  predicate RowGrants(r: UserRow, user: string, host: string, proxy: int) {
    PrefixCI(user, r.user) && EntriesGrant(r.entries, host, proxy)
  }

  lemma EntryTextIsTidy(e: Entry)
    requires CleanEntry(e)
    ensures EntryText(e) != "" && Tidy(EntryText(e))
    ensures forall i :: 0 <= i < |EntryText(e)| ==> EntryText(e)[i] !in ":,\n" && EntryText(e)[i] != NUL
    ensures EntryName(EntryText(e)) == e.host && EntryPlus(EntryText(e)) == e.proxied
  {
  }

  lemma {:induction false} TextsGrant(es: seq<Entry>, host: string, proxy: int)
    requires forall i :: 0 <= i < |es| ==> CleanEntry(es[i])
    ensures ListGrants(EntryTexts(es), host, proxy) == EntriesGrant(es, host, proxy)
  {
    hide Trimmed, EntryName, EntryPlus, PrefixCI, EntryText, Tidy;
    if es != [] {
      EntryTextIsTidy(es[0]);
      TidyIsTrimmed(EntryText(es[0]));
      assert EntryTexts(es)[1..] == EntryTexts(es[1..]);
      TextsGrant(es[1..], host, proxy);
    }
  }

  /** Characters and ends of joined clean texts. */
  lemma {:induction false} JoinedIsClean(ts: seq<string>)
    requires forall i :: 0 <= i < |ts| ==> ts[i] != "" && Tidy(ts[i])
    requires forall i, j :: 0 <= i < |ts| && 0 <= j < |ts[i]| ==> ts[i][j] !in ":,\n" && ts[i][j] != NUL
    ensures var v := Joined(ts, ',');
      && (forall i :: 0 <= i < |v| ==> v[i] !in ":\n#" && v[i] != NUL)
      && (ts != [] ==> v != "" && !IsSpace(v[|v| - 1]))
    decreases |ts|
  {
    if |ts| == 1 {
    } else if |ts| > 1 {
      var tail := Joined(ts[1..], ',');
      JoinedIsClean(ts[1..]);
      var v := ts[0] + [','] + tail;
      forall i | 0 <= i < |v| ensures v[i] !in ":\n#" && v[i] != NUL {
        if i < |ts[0]| {
          assert v[i] == ts[0][i] && v[i] in ts[0];
        } else if i > |ts[0]| {
          assert v[i] == tail[i - |ts[0]| - 1];
        }
      }
      assert v[|v| - 1] == tail[|tail| - 1];
    }
  }

  lemma RowHosts(r: UserRow)
    requires CleanRow(r)
    ensures var v := Joined(EntryTexts(r.entries), ',');
      && (forall i :: 0 <= i < |v| ==> v[i] !in ":\n#" && v[i] != NUL)
      && (r.entries != [] ==> v != "" && !IsSpace(v[|v| - 1]))
      && (r.entries == [] ==> v == "")
      && Tokens(v, ",") == EntryTexts(r.entries)
  {
    hide EntryText, Tokens, CleanEntry, Tidy;
    var ts := EntryTexts(r.entries);
    forall i | 0 <= i < |ts|
      ensures ts[i] != "" && Tidy(ts[i]) && ',' !in ts[i]
      ensures forall j :: 0 <= j < |ts[i]| ==> ts[i][j] !in ":,\n" && ts[i][j] != NUL
    {
      EntryTextIsTidy(r.entries[i]);
      assert ',' in ":,\n";
    }
    JoinedIsClean(ts);
    TokensOfJoined(ts, ',');
  }

  lemma RowIsTidy(r: UserRow)
    requires CleanRow(r)
    ensures Tidy(RowText(r)) && FitsLine(RowText(r)) && ':' !in r.user
  {
    hide CleanEntry, Tokens, Joined, EntryText;
    RowHosts(r);
    var v := Joined(EntryTexts(r.entries), ',');
    var row := RowText(r);
    forall i | 0 <= i < |row| ensures row[i] !in "\n#" && row[i] != NUL {
      if i < |r.user| {
        assert row[i] == r.user[i] && r.user[i] in r.user;
      } else if i > |r.user| {
        assert row[i] == v[i - |r.user| - 1];
      }
    }
    assert forall i :: 0 <= i < |row| ==> row[i] !in "\n#";
    assert row[0] == r.user[0];
    assert v != "" ==> row[|row| - 1] == v[|v| - 1];
    assert ':' in ":,\n";
  }

  /** The code reads a written row as the row. */
  lemma RowIsRead(r: UserRow, user: string, host: string, proxy: int)
    requires CleanRow(r)
    ensures FitsLine(RowText(r))
    ensures LineGrants(RowText(r) + "\n", user, host, proxy) <==> RowGrants(r, user, host, proxy)
  {
    hide Tokens, ListGrants, EntriesGrant, PrefixCI, Trimmed, EntryTexts, Tidy, Joined, FitsLine;
    var row := RowText(r);
    var v := Joined(EntryTexts(r.entries), ',');
    RowIsTidy(r);
    RowHosts(r);
    TrimmedPadded("", row, "\n", "");
    assert "" + row + "\n" + "" == row + "\n";
    SepHere(r.user, ':', v);
    assert row == r.user + [':'] + v;
    TidyIsTrimmed(r.user);
    assert ':' in ":\n#";
    SepNone(v, ':');
    TextsGrant(r.entries, host, proxy);
  }

  /** For every query, a written table decides as its rows do: the user and the host are
      granted by a row they can be extended to, whose first extending entry allows it. */
  lemma TableIsRead(t: seq<UserRow>, user: string, host: string, proxy: int)
    requires forall i :: 0 <= i < |t| ==> CleanRow(t[i])
    ensures FileGrants(TableText(t), user, host, proxy) <==>
            exists i :: 0 <= i < |t| && RowGrants(t[i], Trimmed(user), Trimmed(host), proxy)
  {
    hide LineGrants, RowGrants, RowText, CleanRow, FitsLine, Trimmed, Lines, Written;
    var u, h := Trimmed(user), Trimmed(host);
    var rows := RowTexts(t);
    forall i | 0 <= i < |t|
      ensures FitsLine(rows[i])
      ensures LineGrants(rows[i] + "\n", u, h, proxy) <==> RowGrants(t[i], u, h, proxy)
    {
      RowIsRead(t[i], u, h, proxy);
    }
    LinesOfWritten(rows);
    var lines := Lines(Written(rows));
    if LinesGrant(lines, u, h, proxy) {
      var i :| 0 <= i < |lines| && LineGrants(lines[i], u, h, proxy);
      assert lines[i] == rows[i] + "\n" && RowGrants(t[i], u, h, proxy);
    }
    if i :| 0 <= i < |t| && RowGrants(t[i], u, h, proxy) {
      assert lines[i] == rows[i] + "\n" && LineGrants(lines[i], u, h, proxy);
    }
  }

  // ---------------------------------------------------------------------------
  // Tables laid out freely
  // ---------------------------------------------------------------------------

  /** The entries with white space around each. */
  ghost predicate Padded(ps: seq<string>, es: seq<Entry>, ls: seq<string>, rs: seq<string>) {
    && |ps| == |ls| == |rs| == |es|
    && forall i :: 0 <= i < |es| ==>
         AllSpace(ls[i]) && AllSpace(rs[i]) && ps[i] == ls[i] + EntryText(es[i]) + rs[i]
  }

  /** How a row may stand in the file: outer space, space behind the user and around the entries,
      further fields, which are ignored, and a comment. */
  datatype Layout = Layout(left: string, mid: string, ls: seq<string>, rs: seq<string>, more: string,
                           right: string, comment: string)

  /** What stands between the outer space. */
  function CoreText(r: UserRow, l: Layout, ps: seq<string>): string {
    r.user + l.mid + ":" + (Joined(ps, ',') + l.more)
  }

  ghost predicate LaidOut(row: string, r: UserRow, l: Layout, ps: seq<string>) {
    && AllSpace(l.left) && AllSpace(l.mid) && AllSpace(l.right) && (l.comment == "" || l.comment[0] == '#')
    && (l.more == "" || l.more[0] == ':') && Padded(ps, r.entries, l.ls, l.rs)
    && Tidy(CoreText(r, l, ps))
    && row == l.left + CoreText(r, l, ps) + l.right + l.comment
  }

  lemma {:induction false} PaddedGrant(ps: seq<string>, es: seq<Entry>, ls: seq<string>, rs: seq<string>,
                                       host: string, proxy: int)
    requires Padded(ps, es, ls, rs) && forall i :: 0 <= i < |es| ==> CleanEntry(es[i])
    ensures ListGrants(ps, host, proxy) == EntriesGrant(es, host, proxy)
  {
    hide Trimmed, EntryName, EntryPlus, PrefixCI, EntryText, Tidy, AllSpace;
    if es != [] {
      EntryTextIsTidy(es[0]);
      TrimmedPadded(ls[0], EntryText(es[0]), rs[0], "");
      assert ls[0] + EntryText(es[0]) + rs[0] + "" == ps[0];
      PaddedGrant(ps[1..], es[1..], ls[1..], rs[1..], host, proxy);
    }
  }

  lemma PaddedCharacters(ps: seq<string>, es: seq<Entry>, ls: seq<string>, rs: seq<string>)
    requires Padded(ps, es, ls, rs) && forall i :: 0 <= i < |es| ==> CleanEntry(es[i])
    ensures forall i :: 0 <= i < |ps| ==> ps[i] != "" && ',' !in ps[i] && ':' !in ps[i]
  {
    hide Tidy, EntryText, EntryName, EntryPlus, AllSpace, CleanEntry;
    forall i | 0 <= i < |ps| ensures ps[i] != "" && ',' !in ps[i] && ':' !in ps[i] {
      SpaceLacks(ls[i]);
      SpaceLacks(rs[i]);
      EntryTextIsTidy(es[i]);
      EntryLacks(es[i]);
    }
  }

  lemma EntryLacks(e: Entry)
    requires CleanEntry(e)
    ensures ',' !in EntryText(e) && ':' !in EntryText(e)
  {
    hide Tidy;
    assert ',' in ":,\n" && ':' in ":,\n";
  }

  lemma NameLacks(n: string)
    requires CleanName(n)
    ensures ':' !in n
  {
    assert ':' in ":,\n";
  }

  /** Layout is no matter: such a line is read as the row. */
  lemma LaidOutIsRead(row: string, r: UserRow, l: Layout, ps: seq<string>, user: string, host: string, proxy: int)
    requires CleanName(r.user) && forall i :: 0 <= i < |r.entries| ==> CleanEntry(r.entries[i])
    requires LaidOut(row, r, l, ps)
    ensures LineGrants(row + "\n", user, host, proxy) <==> RowGrants(r, user, host, proxy)
  {
    PaddedCharacters(ps, r.entries, l.ls, l.rs);
    JoinedLacks(ps, ',', ':');
    TokensOfJoined(ps, ',');
    PaddedGrant(ps, r.entries, l.ls, l.rs, host, proxy);
    NameLacks(r.user);
    assert Tidy(r.user);
    hide Tokens, ListGrants, EntriesGrant, PrefixCI, Trimmed, Tidy, Joined, AllSpace, CleanName, CleanEntry, Padded,
      SepHead, SepTail;
    CoreFields(r.user, l.mid, Joined(ps, ','), l.more);
    RowTrimmed(l.left, CoreText(r, l, ps), l.right, l.comment);
  }

  lemma CoreFields(user: string, mid: string, hosts: string, more: string)
    requires ':' !in user && ':' !in hosts && (more == "" || more[0] == ':') && Tidy(user) && AllSpace(mid)
    ensures var core := user + mid + ":" + (hosts + more);
      && Trimmed(SepHead(core, ':')) == user
      && SepTail(core, ':') == Some(hosts + more) && SepHead(hosts + more, ':') == hosts
  {
    NewlineIsSpace();
    hide Trimmed, Tidy, AllSpace, SepHead, SepTail;
    SpaceLacks(mid);
    assert user + mid + ":" + (hosts + more) == user + mid + [':'] + (hosts + more);
    SepHere(user + mid, ':', hosts + more);
    TrimmedPadded("", user, mid, "");
    assert "" + user + mid + "" == user + mid;
    FieldEnds(hosts, ':', more);
  }

  lemma NoteGrantsNothing(row: string, user: string, host: string, proxy: int)
    requires IsNote(row)
    ensures !LineGrants(row + "\n", user, host, proxy)
  {
    hide IsNote, Trimmed, PrefixCI;
    NoteIsTrimmed(row);
  }

  lemma {:induction false} WovenGrant(all: seq<string>, rows: seq<string>, user: string, host: string, proxy: int)
    requires Woven(all, rows)
    ensures LinesGrant(Ended(all), user, host, proxy) <==> LinesGrant(Ended(rows), user, host, proxy)
    decreases |all|
  {
    hide LineGrants, IsNote, LinesGrant;
    if all != [] {
      EndedFirst(all);
      LinesGrantFirst(all[0] + "\n", Ended(all[1..]), user, host, proxy);
      if IsNote(all[0]) && Woven(all[1..], rows) {
        NoteGrantsNothing(all[0], user, host, proxy);
        WovenGrant(all[1..], rows, user, host, proxy);
      } else {
        EndedFirst(rows);
        LinesGrantFirst(rows[0] + "\n", Ended(rows[1..]), user, host, proxy);
        WovenGrant(all[1..], rows[1..], user, host, proxy);
      }
    }
  }

  /** A table whose rows are laid out freely, with blank and comment lines anywhere between them,
      decides as its rows do. */
  lemma LaidOutTableIsRead(all: seq<string>, rows: seq<string>, t: seq<UserRow>, ls: seq<Layout>,
                           pss: seq<seq<string>>, user: string, host: string, proxy: int)
    requires |rows| == |t| == |ls| == |pss|
    requires Woven(all, rows) && forall i :: 0 <= i < |all| ==> FitsLine(all[i])
    requires forall i :: 0 <= i < |t| ==>
      && CleanName(t[i].user) && (forall j :: 0 <= j < |t[i].entries| ==> CleanEntry(t[i].entries[j]))
      && LaidOut(rows[i], t[i], ls[i], pss[i])
    ensures FileGrants(Written(all), user, host, proxy) <==>
            exists i :: 0 <= i < |t| && RowGrants(t[i], Trimmed(user), Trimmed(host), proxy)
  {
    hide LineGrants, RowGrants, CleanName, CleanEntry, FitsLine, Trimmed, Lines, Written, LaidOut, Woven;
    var u, h := Trimmed(user), Trimmed(host);
    LinesAreEnded(all);
    WovenGrant(all, rows, u, h, proxy);
    forall i | 0 <= i < |t| ensures LineGrants(Ended(rows)[i], u, h, proxy) <==> RowGrants(t[i], u, h, proxy) {
      LaidOutIsRead(rows[i], t[i], ls[i], pss[i], u, h, proxy);
    }
  }

  // ---------------------------------------------------------------------------
  // The case of letters
  // ---------------------------------------------------------------------------

  lemma {:induction false} ListCI(entries: seq<string>, host: string, other: string, proxy: int)
    requires EqualCI(host, other)
    ensures ListGrants(entries, host, proxy) == ListGrants(entries, other, proxy)
  {
    hide EqualCI, PrefixCI, Trimmed, EntryName, EntryPlus;
    if entries != [] {
      CaseBlind(host, other, EntryName(Trimmed(entries[0])));
      ListCI(entries[1..], host, other, proxy);
    }
  }

  /** The case of the user and the host does not matter. */
  lemma FileGrantsCI(f: string, user: string, host: string, user2: string, host2: string, proxy: int)
    requires EqualCI(user, user2) && EqualCI(host, host2)
    ensures FileGrants(f, user, host, proxy) <==> FileGrants(f, user2, host2, proxy)
  {
    hide Trimmed, EqualCI, PrefixCI, ListGrants, Lines, SepHead, SepTail, Tokens;
    var u, h, u2, h2 := Trimmed(user), Trimmed(host), Trimmed(user2), Trimmed(host2);
    TrimmedCI(user, user2);
    TrimmedCI(host, host2);
    forall line: string ensures LineGrants(line, u, h, proxy) == LineGrants(line, u2, h2, proxy) {
      var t := Trimmed(line);
      CaseBlind(u, u2, Trimmed(SepHead(t, ':')));
      if SepTail(t, ':').Some? { ListCI(Tokens(SepHead(SepTail(t, ':').value, ':'), ","), h, h2, proxy); }
    }
    hide LineGrants;
  }

  // ---------------------------------------------------------------------------
  // The lookup the file's documentation describes
  // ---------------------------------------------------------------------------

  /** The pair is listed, with the mark when a proxied session is asked for. */
  ghost predicate Listed(t: seq<UserRow>, user: string, host: string, proxy: int) {
    exists i, j :: 0 <= i < |t| && 0 <= j < |t[i].entries|
      && EqualCI(user, t[i].user) && EqualCI(host, t[i].entries[j].host)
      && (t[i].entries[j].proxied || proxy != 1)
  }

  /** Some listed pair extends the user and the host. */
  ghost predicate Extended(t: seq<UserRow>, user: string, host: string) {
    exists i, j :: 0 <= i < |t| && 0 <= j < |t[i].entries|
      && PrefixCI(user, t[i].user) && PrefixCI(host, t[i].entries[j].host)
  }

  /** No name of the table properly extends the user or the host. */
  ghost predicate NoProperPrefix(t: seq<UserRow>, user: string, host: string) {
    forall i :: 0 <= i < |t| ==>
      && !ProperPrefixCI(user, t[i].user)
      && forall j :: 0 <= j < |t[i].entries| ==> !ProperPrefixCI(host, t[i].entries[j].host)
  }

  /** Without proper prefixes and repeated hosts, the first extending entry is the listed one. */
  lemma {:induction false} EntriesGrantExactly(es: seq<Entry>, host: string, proxy: int)
    requires forall j :: 0 <= j < |es| ==> !ProperPrefixCI(host, es[j].host)
    requires forall i, j :: 0 <= i < j < |es| ==> !EqualCI(es[i].host, es[j].host)
    ensures EntriesGrant(es, host, proxy) <==>
            exists j :: 0 <= j < |es| && EqualCI(host, es[j].host) && (es[j].proxied || proxy != 1)
  {
    if es != [] {
      var rest := es[1..];
      EntriesGrantExactly(rest, host, proxy);
      assert forall j :: 0 <= j < |rest| ==> rest[j] == es[j + 1];
      assert forall j :: 0 < j < |es| ==> es[j] == rest[j - 1];
      if PrefixCI(host, es[0].host) {
        assert EqualCI(host, es[0].host);
        forall j | 0 < j < |es| ensures !EqualCI(host, es[j].host) {
          if EqualCI(host, es[j].host) { EqualCITransitive(es[0].host, host, es[j].host); }
        }
      }
    }
  }

  lemma EqualCITransitive(a: string, b: string, c: string)
    requires EqualCI(b, a) && EqualCI(b, c)
    ensures EqualCI(a, c)
  {
  }

  /** Round trip: writing a table and asking for a user and a host that no listed name properly
      extends is the documented lookup, with the mark required for a proxied session. */
  lemma UsersRoundTrip(t: seq<UserRow>, user: string, host: string, proxy: int)
    requires forall i :: 0 <= i < |t| ==> CleanRow(t[i]) && HostsOnce(t[i])
    requires NoProperPrefix(t, Trimmed(user), Trimmed(host))
    ensures FileGrants(TableText(t), user, host, proxy) <==> Listed(t, Trimmed(user), Trimmed(host), proxy)
  {
    hide FileGrants, CleanRow, Trimmed, TableText, EntriesGrant;
    TableIsRead(t, user, host, proxy);
    var u, h := Trimmed(user), Trimmed(host);
    forall i | 0 <= i < |t|
      ensures RowGrants(t[i], u, h, proxy) <==>
        EqualCI(u, t[i].user) &&
        exists j :: 0 <= j < |t[i].entries| && EqualCI(h, t[i].entries[j].host)
                    && (t[i].entries[j].proxied || proxy != 1)
    {
      EntriesGrantExactly(t[i].entries, h, proxy);
    }
  }

  // ---------------------------------------------------------------------------
  // Where the code departs from that lookup
  // ---------------------------------------------------------------------------

  /** Entry k is the first that extends the host. */
  ghost predicate FirstExtending(es: seq<Entry>, host: string, k: nat) {
    k < |es| && PrefixCI(host, es[k].host) && forall j :: 0 <= j < k ==> !PrefixCI(host, es[j].host)
  }

  lemma FirstExtendingFirst(e: Entry, es: seq<Entry>, host: string, k: nat)
    ensures FirstExtending([e] + es, host, 0) <==> PrefixCI(host, e.host)
    ensures FirstExtending([e] + es, host, k + 1) <==> !PrefixCI(host, e.host) && FirstExtending(es, host, k)
  {
    hide PrefixCI;
    var all := [e] + es;
    assert forall j :: 0 <= j < |es| ==> es[j] == all[j + 1];
    assert forall j :: 0 < j < |all| ==> all[j] == es[j - 1];
  }

  /** The first extending entry decides, and by its mark alone. */
  lemma {:induction false} EntriesGrantIff(es: seq<Entry>, host: string, proxy: int)
    ensures EntriesGrant(es, host, proxy) <==>
            exists k: nat :: FirstExtending(es, host, k) && (es[k].proxied || proxy != 1)
  {
    hide PrefixCI;
    if es != [] {
      var e, rest := es[0], es[1..];
      assert es == [e] + rest;
      EntriesGrantIff(rest, host, proxy);
      FirstExtendingFirst(e, rest, host, 0);
      hide FirstExtending;
      if k: nat :| FirstExtending(rest, host, k) && (rest[k].proxied || proxy != 1) {
        FirstExtendingFirst(e, rest, host, k);
        assert es[k + 1] == rest[k];
      }
      if k: nat :| FirstExtending(es, host, k) && (es[k].proxied || proxy != 1) {
        if k > 0 {
          FirstExtendingFirst(e, rest, host, k - 1);
          assert rest[k - 1] == es[k];
        }
      }
    }
  }

  lemma {:induction false} FirstExtendingExists(es: seq<Entry>, host: string, j: nat)
    returns (k: nat)
    requires j < |es| && PrefixCI(host, es[j].host)
    ensures FirstExtending(es, host, k) && k <= j
  {
    if i: nat :| i < j && PrefixCI(host, es[i].host) {
      k := FirstExtendingExists(es, host, i);
    } else {
      k := j;
    }
  }

  /** Some row extends the user, and its first entry that extends the host allows the session. */
  ghost predicate FirstAllows(t: seq<UserRow>, user: string, host: string, proxy: int) {
    exists i, k: nat :: 0 <= i < |t| && PrefixCI(user, t[i].user) && FirstExtending(t[i].entries, host, k)
      && (t[i].entries[k].proxied || proxy != 1)
  }

  /** The decision of a written table, in every mode. */
  lemma TableGrantsIff(t: seq<UserRow>, user: string, host: string, proxy: int)
    requires forall i :: 0 <= i < |t| ==> CleanRow(t[i])
    ensures FileGrants(TableText(t), user, host, proxy) <==> FirstAllows(t, Trimmed(user), Trimmed(host), proxy)
  {
    hide FileGrants, CleanRow, Trimmed, TableText, EntriesGrant, PrefixCI;
    TableIsRead(t, user, host, proxy);
    var u, h := Trimmed(user), Trimmed(host);
    forall i | 0 <= i < |t|
      ensures RowGrants(t[i], u, h, proxy) <==>
        PrefixCI(u, t[i].user) &&
        exists k: nat :: FirstExtending(t[i].entries, h, k) && (t[i].entries[k].proxied || proxy != 1)
    {
      EntriesGrantIff(t[i].entries, h, proxy);
    }
  }

  /** For a query that no listed name properly extends, the rule is exact lookup. */
  lemma FirstAllowsIsListed(t: seq<UserRow>, user: string, host: string, proxy: int)
    requires forall i :: 0 <= i < |t| ==> CleanRow(t[i]) && HostsOnce(t[i])
    requires NoProperPrefix(t, Trimmed(user), Trimmed(host))
    ensures FirstAllows(t, Trimmed(user), Trimmed(host), proxy) <==> Listed(t, Trimmed(user), Trimmed(host), proxy)
  {
    hide FileGrants, CleanRow, HostsOnce, Trimmed, TableText, NoProperPrefix, Listed, FirstAllows;
    UsersRoundTrip(t, user, host, proxy);
    TableGrantsIff(t, user, host, proxy);
  }

  /** Not listed, though some row's first extending entry allows it. */
  ghost predicate WronglyGranted(t: seq<UserRow>, user: string, host: string, proxy: int) {
    !Listed(t, user, host, proxy) && FirstAllows(t, user, host, proxy)
  }

  /** Listed, though in every row that extends the user the first entry that extends the host is
      without the mark that is asked for. */
  ghost predicate WronglyDenied(t: seq<UserRow>, user: string, host: string, proxy: int) {
    Listed(t, user, host, proxy) && proxy == 1 &&
    forall i, k: nat :: 0 <= i < |t| && PrefixCI(user, t[i].user) && FirstExtending(t[i].entries, host, k) ==>
      !t[i].entries[k].proxied
  }

  /** In every mode the file departs from the documented lookup in exactly two ways. */
  lemma AgreesWithLookupIff(t: seq<UserRow>, user: string, host: string, proxy: int)
    requires forall i :: 0 <= i < |t| ==> CleanRow(t[i])
    ensures var u, h := Trimmed(user), Trimmed(host);
      && (FileGrants(TableText(t), user, host, proxy) && !Listed(t, u, h, proxy) <==> WronglyGranted(t, u, h, proxy))
      && (!FileGrants(TableText(t), user, host, proxy) && Listed(t, u, h, proxy) <==> WronglyDenied(t, u, h, proxy))
      && ((FileGrants(TableText(t), user, host, proxy) <==> Listed(t, u, h, proxy)) <==>
          !WronglyGranted(t, u, h, proxy) && !WronglyDenied(t, u, h, proxy))
  {
    hide FileGrants, CleanRow, Trimmed, TableText, FirstExtending, PrefixCI, EqualCI;
    TableGrantsIff(t, user, host, proxy);
    if proxy != 1 && Listed(t, Trimmed(user), Trimmed(host), proxy) {
      ListedIsExtended(t, Trimmed(user), Trimmed(host), proxy);
      BastionGrantsExtended(t, Trimmed(user), Trimmed(host), proxy);
    }
  }

  lemma ListedIsExtended(t: seq<UserRow>, user: string, host: string, proxy: int)
    requires Listed(t, user, host, proxy)
    ensures Extended(t, user, host)
  {
    var i, j :| 0 <= i < |t| && 0 <= j < |t[i].entries|
      && EqualCI(user, t[i].user) && EqualCI(host, t[i].entries[j].host);
    assert PrefixCI(user, t[i].user) && PrefixCI(host, t[i].entries[j].host);
  }

  /** Outside proxy mode whatever extends to a listed pair is granted, so a pair is granted
      without being listed if and only if it extends to a listed one. */
  lemma BastionGrantsExtended(t: seq<UserRow>, user: string, host: string, proxy: int)
    requires proxy != 1
    ensures FirstAllows(t, user, host, proxy) <==> Extended(t, user, host)
    ensures WronglyGranted(t, user, host, proxy) <==> !Listed(t, user, host, proxy) && Extended(t, user, host)
  {
    hide PrefixCI, Listed;
    if Extended(t, user, host) {
      var i, j :| 0 <= i < |t| && 0 <= j < |t[i].entries|
                  && PrefixCI(user, t[i].user) && PrefixCI(host, t[i].entries[j].host);
      var k := FirstExtendingExists(t[i].entries, host, j);
    }
  }

  /** What stands behind a wrongful denial: in a row that lists the pair, an unmarked entry before
      it has a name that properly extends the host. */
  lemma DeniedIsShadowed(t: seq<UserRow>, user: string, host: string, proxy: int)
    requires forall i :: 0 <= i < |t| ==> HostsOnce(t[i])
    requires WronglyDenied(t, user, host, proxy)
    ensures exists i, j, k ::
      && 0 <= i < |t| && 0 <= k < j < |t[i].entries|
      && EqualCI(user, t[i].user) && EqualCI(host, t[i].entries[j].host) && t[i].entries[j].proxied
      && ProperPrefixCI(host, t[i].entries[k].host) && !t[i].entries[k].proxied
  {
    var i, j :| 0 <= i < |t| && 0 <= j < |t[i].entries|
      && EqualCI(user, t[i].user) && EqualCI(host, t[i].entries[j].host) && t[i].entries[j].proxied;
    var es := t[i].entries;
    var k := FirstExtendingExists(es, host, j);
    assert PrefixCI(user, t[i].user) && !es[k].proxied;
    assert HostsOnce(t[i]);
    if EqualCI(host, es[k].host) { EqualCITransitive(es[k].host, host, es[j].host); }
  }

  /** What stands behind a wrongful grant: a name that properly extends the user or the host. */
  lemma GrantedIsExtension(t: seq<UserRow>, user: string, host: string, proxy: int)
    requires WronglyGranted(t, user, host, proxy)
    ensures exists i, k ::
      && 0 <= i < |t| && 0 <= k < |t[i].entries|
      && PrefixCI(user, t[i].user) && PrefixCI(host, t[i].entries[k].host)
      && (t[i].entries[k].proxied || proxy != 1)
      && (ProperPrefixCI(user, t[i].user) || ProperPrefixCI(host, t[i].entries[k].host))
  {
    var i, k: nat :| 0 <= i < |t| && PrefixCI(user, t[i].user) && FirstExtending(t[i].entries, host, k)
                     && (t[i].entries[k].proxied || proxy != 1);
    assert !(EqualCI(user, t[i].user) && EqualCI(host, t[i].entries[k].host));
  }

  // ---------------------------------------------------------------------------
  // Concrete queries
  // ---------------------------------------------------------------------------

  /** alice and one host. */
  function AliceRow(host: string): UserRow {
    UserRow("alice", [Entry(host, false)])
  }

  lemma AliceRowIsClean(host: string)
    requires CleanEntry(Entry(host, false)) && |host| < 1000
    ensures CleanRow(AliceRow(host)) && HostsOnce(AliceRow(host))
  {
  }

  /** A user "al" is let in to "web1" by the row of "alice". */
  lemma PrefixIsGranted()
    ensures CleanRow(AliceRow("web1")) && !Listed([AliceRow("web1")], "al", "web1", 0)
    ensures FileGrants(TableText([AliceRow("web1")]), "al", "web1", 0)
  {
    hide FileGrants, TableText, Trimmed, CleanRow;
    AliceRowIsClean("web1");
    TidyIsTrimmed("al");
    TidyIsTrimmed("web1");
    TableGrantsIff([AliceRow("web1")], "al", "web1", 0);
    BastionGrantsExtended([AliceRow("web1")], "al", "web1", 0);
    var t := [AliceRow("web1")];
    assert PrefixCI("al", t[0].user) && PrefixCI("web1", t[0].entries[0].host) && |t| == 1;
    assert Extended(t, "al", "web1");
  }

  /** "Alice" may go to "WEB1" by the row of "alice" for "web1". */
  lemma CaseIsIgnored()
    ensures FileGrants(TableText([AliceRow("web1")]), "Alice", "WEB1", 0)
  {
    hide FileGrants, TableText, Trimmed, CleanRow, FirstAllows;
    AliceRowIsClean("web1");
    TidyIsTrimmed("alice");
    TidyIsTrimmed("web1");
    var t := [AliceRow("web1")];
    TableGrantsIff(t, "alice", "web1", 0);
    BastionGrantsExtended(t, "alice", "web1", 0);
    assert PrefixCI("alice", t[0].user) && PrefixCI("web1", t[0].entries[0].host) && |t| == 1;
    assert Extended(t, "alice", "web1");
    OtherCases();
    hide EqualCI, PrefixCI;
    FileGrantsCI(TableText(t), "alice", "web1", "Alice", "WEB1", 0);
  }

  lemma OtherCases()
    ensures EqualCI("alice", "Alice") && EqualCI("web1", "WEB1")
  {
    EqualCIIff("alice", "Alice");
    EqualCIIff("web1", "WEB1");
  }

  const SHADOW_ROW := UserRow("alice", [Entry("web10", false), Entry("web1", true)])

  /** A proxied session to "web1" is refused although the entry "web1+" is there, because "web10"
      stands before it. */
  lemma MarkIsShadowed()
    ensures CleanRow(SHADOW_ROW) && HostsOnce(SHADOW_ROW) && Listed([SHADOW_ROW], "alice", "web1", 1)
    ensures !FileGrants(TableText([SHADOW_ROW]), "alice", "web1", 1)
  {
    ShadowRowIsClean();
    hide FileGrants, TableText, Trimmed, CleanRow;
    TidyIsTrimmed("alice");
    TidyIsTrimmed("web1");
    TableGrantsIff([SHADOW_ROW], "alice", "web1", 1);
    var es := SHADOW_ROW.entries;
    assert EqualCI("alice", [SHADOW_ROW][0].user) && EqualCI("web1", es[1].host) && es[1].proxied;
    assert FirstExtending(es, "web1", 0);
  }

  lemma ShadowRowIsClean()
    ensures CleanRow(SHADOW_ROW) && HostsOnce(SHADOW_ROW)
  {
    var es := SHADOW_ROW.entries;
    assert CleanEntry(es[0]) && CleanEntry(es[1]) && CleanName("alice");
    hide CleanEntry, CleanName;
    assert EntryText(es[0]) == "web10" && EntryText(es[1]) == "web1+";
    hide EntryText;
    assert EntryTexts(es) == ["web10", "web1+"];
    hide EntryTexts;
    assert Joined(["web10", "web1+"], ',') == "web10" + [','] + Joined(["web1+"], ',');
  }
}
