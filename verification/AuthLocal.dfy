/** Authorization from the users file (auth_local.c). */
module AuthLocal {
  import opened Text
  import opened CBuffer

  const AUTH_LOCAL_FAILURE := 0
  const AUTH_LOCAL_SUCCESS := 1

  // ---------------------------------------------------------------------------
  // What a users file grants
  // ---------------------------------------------------------------------------

  /** Whether a trimmed host entry carries the proxy mark. */
  predicate EntryPlus(e: string) {
    e != "" && e[|e| - 1] == '+'
  }

  /** The host a trimmed entry names. */
  function EntryName(e: string): string {
    if EntryPlus(e) then e[..|e| - 1] else e
  }

  /** The first entry that extends the host decides. */
  predicate ListGrants(entries: seq<string>, host: string, proxy: int) {
    entries != [] &&
    var e := Trimmed(entries[0]);
    if PrefixCI(host, EntryName(e)) then EntryPlus(e) || proxy != 1
    else ListGrants(entries[1..], host, proxy)
  }

  /** The decision of the second field of a line, if there is one. */
  predicate HostsGrant(rest: Option<string>, host: string, proxy: int) {
    rest.Some? && ListGrants(Tokens(SepHead(rest.value, ':'), ","), host, proxy)
  }

  predicate LineGrants(line: string, user: string, host: string, proxy: int) {
    var t := Trimmed(line);
    PrefixCI(user, Trimmed(SepHead(t, ':'))) && HostsGrant(SepTail(t, ':'), host, proxy)
  }

  ghost predicate LinesGrant(lines: seq<string>, user: string, host: string, proxy: int) {
    exists i :: 0 <= i < |lines| && LineGrants(lines[i], user, host, proxy)
  }

  /** The decision of a users file for a user and a host given with any surrounding space. */
  ghost predicate FileGrants(f: string, user: string, host: string, proxy: int) {
    LinesGrant(Lines(f), Trimmed(user), Trimmed(host), proxy)
  }

  lemma LinesGrantAppend(x: seq<string>, y: seq<string>, user: string, host: string, proxy: int)
    ensures LinesGrant(x + y, user, host, proxy) <==>
            LinesGrant(x, user, host, proxy) || LinesGrant(y, user, host, proxy)
  {
    hide LineGrants;
    if i :| 0 <= i < |x| && LineGrants(x[i], user, host, proxy) {
      assert (x + y)[i] == x[i];
    }
    if i :| 0 <= i < |y| && LineGrants(y[i], user, host, proxy) {
      assert (x + y)[|x| + i] == y[i];
    }
    if i :| 0 <= i < |x + y| && LineGrants((x + y)[i], user, host, proxy) {
      assert if i < |x| then (x + y)[i] == x[i] else (x + y)[i] == y[i - |x|];
    }
  }

  lemma LinesGrantFirst(line: string, lines: seq<string>, user: string, host: string, proxy: int)
    ensures LinesGrant([line] + lines, user, host, proxy) <==>
            LineGrants(line, user, host, proxy) || LinesGrant(lines, user, host, proxy)
  {
    hide LineGrants;
    LinesGrantAppend([line], lines, user, host, proxy);
    if LineGrants(line, user, host, proxy) { assert LineGrants([line][0], user, host, proxy); }
  }

  // ---------------------------------------------------------------------------
  // get_auth_file
  // ---------------------------------------------------------------------------

  /** Trims the entry at p and takes a final '+' off.  An entry that trims to nothing is looked
      at one byte before its start, which must be readable and not a '+'. */
  method TakePlus(line: array<char>, p: nat, ghost t: string) returns (plus: bool)
    requires Str(line, p, t) && p > 0 && line[p - 1] != '+'
    modifies line
    ensures Str(line, p, EntryName(Trimmed(t))) && plus == EntryPlus(Trimmed(t))
    ensures OnlyIn(line, p, p + |t|)
  {
    hide Trimmed;
    Trim(line, p, t);
    ghost var e := Trimmed(t);
    var n := StrLen(line, p, e);
    if n > 0 { StrChar(line, p, e, n - 1); }
    plus := line[p + n - 1] == '+';
    if plus {
      CutAt(line, p, n - 1, e);
    }
  }

  /** Where the `strtok` walk over a host list stands: at the first token of `from`, with the
      byte before it no '+', and the rest behind it untouched. */
  ghost predicate AtEntry(line: array<char>, hostname: Option<nat>, save: nat, from: string)
    reads line
  {
    && (hostname.None? <==> Skip(from, ",") == "")
    && (hostname.Some? ==>
          && 0 < hostname.value < line.Length && line[hostname.value - 1] != '+'
          && Str(line, hostname.value, FirstToken(from, ","))
          && Str(line, save, AfterToken(from, ","))
          && hostname.value + |FirstToken(from, ",")| <= save
          && (AfterToken(from, ",") != "" ==>
                hostname.value + |FirstToken(from, ",")| < save && line[save - 1] == NUL))
  }

  /** A `strtok` step of the walk. */
  method NextEntry(line: array<char>, p: nat, ghost from: string)
    returns (hostname: Option<nat>, save: nat)
    requires Str(line, p, from) && p > 0 && (from != "" ==> line[p - 1] == NUL)
    modifies line
    ensures AtEntry(line, hostname, save, from)
  {
    ghost var b := Span(from, ",");
    if 0 < b { StrChar(line, p, from, b - 1); }
    hostname, save := StrTok(line, p, ",", from);
    if hostname.Some? {
      StrChar(line, hostname.value, FirstToken(from, ","), |FirstToken(from, ",")|);
    }
  }

  /** What the first token of a list decides, and what it leaves to the rest. */
  lemma ListStep(from: string, host: string, proxy: int)
    requires Skip(from, ",") != ""
    ensures ListGrants(Tokens(from, ","), host, proxy) ==
      (var e := Trimmed(FirstToken(from, ","));
       if PrefixCI(host, EntryName(e)) then EntryPlus(e) || proxy != 1
       else ListGrants(Tokens(AfterToken(from, ","), ","), host, proxy))
  {
  }

  /** The `strtok` walk over the host list at p.  It starts with can_proxy 0, and leaves it 0
      unless access is granted. */
  method ScanHosts(line: array<char>, p: nat, host: array<char>, proxy: int, canProxyIn: int,
                   ghost v: string, ghost h: string)
    returns (auth: int, canProxy: int)
    requires line != host && Str(line, p, v) && Str(host, 0, h)
    requires p > 0 && line[p - 1] == NUL
    requires canProxyIn == 0
    modifies line
    ensures auth == if ListGrants(Tokens(v, ","), h, proxy) then AUTH_LOCAL_SUCCESS else AUTH_LOCAL_FAILURE
    ensures auth == AUTH_LOCAL_FAILURE ==> canProxy == 0
  {
    hide Trimmed, Tokens, Skip, FirstToken, AfterToken, EntryName, EntryPlus, PrefixCI, ListGrants;
    auth, canProxy := AUTH_LOCAL_FAILURE, canProxyIn;
    var hostname, save := NextEntry(line, p, v);
    ghost var from := v;
    while auth == AUTH_LOCAL_FAILURE && hostname.Some?
      invariant auth == AUTH_LOCAL_FAILURE && canProxy == 0
      invariant ListGrants(Tokens(from, ","), h, proxy) == ListGrants(Tokens(v, ","), h, proxy)
      invariant AtEntry(line, hostname, save, from)
      invariant Str(host, 0, h)
      decreases |from|
    {
      ListStep(from, h, proxy);
      ghost var t, r := FirstToken(from, ","), AfterToken(from, ",");
      var plus := TakePlus(line, hostname.value, t);
      if plus {
        canProxy := 1;
      }
      var same := StartsWithCI(host, 0, line, hostname.value, h, EntryName(Trimmed(t)));
      if same {
        if canProxy == 0 && proxy == 1 {
          auth := AUTH_LOCAL_FAILURE;
        } else {
          auth := AUTH_LOCAL_SUCCESS;
        }
        return;
      }
      AfterTokenShrinks(from, ",");
      hostname, save := NextEntry(line, save, r);
      from := r;
      canProxy := 0;
    }
    NoEntryLeft(from, h, proxy);
  }

  lemma NoEntryLeft(from: string, host: string, proxy: int)
    requires Skip(from, ",") == ""
    ensures !ListGrants(Tokens(from, ","), host, proxy)
  {
  }

  /** The second `strsep` and the walk over what it returns. */
  method CheckHosts(line: array<char>, lineptr: Option<nat>, host: array<char>, proxy: int, canProxyIn: int,
                    ghost rest: Option<string>, ghost h: string)
    returns (auth: int, canProxy: int)
    requires line != host && Str(host, 0, h)
    requires lineptr.Some? <==> rest.Some?
    requires lineptr.Some? ==>
      Str(line, lineptr.value, rest.value) && lineptr.value > 0 && line[lineptr.value - 1] == NUL
    requires canProxyIn == 0
    modifies line
    ensures auth == if HostsGrant(rest, h, proxy) then AUTH_LOCAL_SUCCESS else AUTH_LOCAL_FAILURE
    ensures auth == AUTH_LOCAL_FAILURE ==> canProxy == 0
  {
    hide ListGrants, Tokens, SepHead, SepTail;
    auth, canProxy := AUTH_LOCAL_FAILURE, canProxyIn;
    var hosts, _ := StrSep(line, lineptr, ':', if rest.Some? then rest.value else "");
    if hosts.Some? {
      auth, canProxy := ScanHosts(line, hosts.value, host, proxy, canProxy, SepHead(rest.value, ':'), h);
    }
  }

  /** Trims the line, takes its first field off and trims that in place. */
  method TakeUserName(line: array<char>, ghost v: string) returns (lineptr: Option<nat>)
    requires Str(line, 0, v)
    modifies line
    ensures var t := Trimmed(v);
      && Str(line, 0, Trimmed(SepHead(t, ':')))
      && (lineptr.Some? <==> SepTail(t, ':').Some?)
      && (lineptr.Some? ==>
            && Str(line, lineptr.value, SepTail(t, ':').value)
            && lineptr.value > 0 && line[lineptr.value - 1] == NUL)
  {
    hide Trimmed, SepHead, SepTail;
    Trim(line, 0, v);
    ghost var t := Trimmed(v);
    var username, next := StrSep(line, Some(0), ':', t);
    ghost var name := SepHead(t, ':');
    StrChar(line, 0, name, |name|);
    Trim(line, 0, name);
    lineptr := next;
  }

  /** What one line of the file does to the state of the reading loop. */
  method CheckLine(line: array<char>, user: array<char>, host: array<char>, proxy: int, canProxyIn: int,
                   ghost v: string, ghost u: string, ghost h: string)
    returns (auth: int, canProxy: int)
    requires line != user && line != host
    requires Str(line, 0, v) && Str(user, 0, u) && Str(host, 0, h)
    requires canProxyIn == 0
    modifies line
    ensures auth == if LineGrants(v, u, h, proxy) then AUTH_LOCAL_SUCCESS else AUTH_LOCAL_FAILURE
    ensures auth == AUTH_LOCAL_FAILURE ==> canProxy == 0
  {
    auth, canProxy := AUTH_LOCAL_FAILURE, canProxyIn;
    StrChar(line, 0, v, 0);
    if line[0] != NUL {
      hide PrefixCI, Trimmed, SepHead, SepTail, HostsGrant;
      var lineptr := TakeUserName(line, v);
      ghost var t := Trimmed(v);
      var same := StartsWithCI(user, 0, line, 0, u, Trimmed(SepHead(t, ':')));
      if same {
        auth, canProxy := CheckHosts(line, lineptr, host, proxy, canProxy, SepTail(t, ':'), h);
      }
    } else {
      EmptyLineGrantsNothing(u, h, proxy);
    }
  }

  lemma EmptyLineGrantsNothing(user: string, host: string, proxy: int)
    ensures !LineGrants("", user, host, proxy)
  {
  }

  /** The text of a file, or None if its name is NULL or it cannot be opened. */
  function Contents(files: map<string, string>, name: Option<string>): Option<string> {
    if name.Some? && name.value in files then Some(files[name.value]) else None
  }

  /** The reading loop: it goes on while nothing granted access, and each turn starts with
      can_proxy 0. */
  method ReadUsers(f: string, user: array<char>, host: array<char>, proxy: int,
                   ghost u: string, ghost h: string)
    returns (auth: int)
    requires Str(user, 0, u) && Str(host, 0, h)
    ensures auth == if LinesGrant(Lines(f), u, h, proxy) then AUTH_LOCAL_SUCCESS else AUTH_LOCAL_FAILURE
  {
    hide LineGrants, LinesGrant;
    var line := new char[LINE_SIZE + 1];
    var canProxy := 0;
    auth := AUTH_LOCAL_FAILURE;
    var pos := 0;
    while auth == AUTH_LOCAL_FAILURE
      invariant pos <= |f| && fresh(line)
      invariant auth == AUTH_LOCAL_FAILURE || auth == AUTH_LOCAL_SUCCESS
      invariant auth == AUTH_LOCAL_FAILURE ==> canProxy == 0
      invariant LinesGrant(Lines(f), u, h, proxy) <==>
                auth == AUTH_LOCAL_SUCCESS || LinesGrant(Lines(f[pos..]), u, h, proxy)
      decreases |f| - pos
    {
      var next := Fgets(f, pos, line);
      if next.None? {
        break;
      }
      ghost var text := CText(f[pos..next.value]);
      LinesOfRest(f, pos, next.value);
      LinesGrantFirst(text, Lines(f[next.value..]), u, h, proxy);
      auth, canProxy := CheckLine(line, user, host, proxy, canProxy, text, u, h);
      pos := next.value;
    }
    NoLinesGrant(u, h, proxy);
  }

  lemma NoLinesGrant(user: string, host: string, proxy: int)
    ensures !LinesGrant([], user, host, proxy)
  {
  }

  /** `get_auth_file`.  It trims the caller's user and host in place once the file is open. */
  method GetAuthFile(user: array?<char>, host: array?<char>, file: Option<string>, proxy: int,
                     files: map<string, string>, ghost u: string, ghost h: string)
    returns (auth: int)
    requires user != null ==> Str(user, 0, u)
    requires host != null ==> Str(host, 0, h)
    requires user != null ==> user != host
    modifies if user != null then {user} else {}, if host != null then {host} else {}
    ensures user != null && host != null && Contents(files, file).Some? ==>
      && Str(user, 0, Trimmed(u)) && Str(host, 0, Trimmed(h))
      && OnlyIn(user, 0, |u|) && OnlyIn(host, 0, |h|)
      && auth == if FileGrants(Contents(files, file).value, u, h, proxy)
                 then AUTH_LOCAL_SUCCESS else AUTH_LOCAL_FAILURE
    ensures user == null || host == null || Contents(files, file).None? ==>
      && auth == AUTH_LOCAL_FAILURE
      && (user != null ==> user[..] == old(user[..]))
      && (host != null ==> host[..] == old(host[..]))
  {
    hide Trimmed, LinesGrant;
    if user == null || host == null || file.None? {
      return AUTH_LOCAL_FAILURE;
    }
    if file.value !in files {
      return AUTH_LOCAL_FAILURE;
    }
    Trim(user, 0, u);
    Trim(host, 0, h);
    auth := ReadUsers(files[file.value], user, host, proxy, Trimmed(u), Trimmed(h));
  }
}
