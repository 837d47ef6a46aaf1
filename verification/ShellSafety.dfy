/** Safety over every run of the shell: what stands behind an execvp, which mode is asked for,
    and runs over written tables. */
module ShellSafety {
  import opened Text
  import opened Config
  import ConfigProofs
  import ConfigRoundTrip
  import opened AuthLocal
  import opened AuthLdap
  import opened Auth
  import opened Shell
  import GeoIp
  import Hosts
  import HostsTable
  import UsersTable
  import opened LdapFilter

  // ---------------------------------------------------------------------------
  // Exec safety
  // ---------------------------------------------------------------------------

  /** Settings s were loaded, the request r was made and its host is listed as h. */
  ghost predicate Reached(env: Environment, s: Settings, r: Request, h: Hosts.Host) {
    && Load(ConfigOf(env)) == Some(s)
    && RequestOf(env, s) == Ask(r)
    && Hosts.Lookup(Contents(env.files, s.hostsFile), r.name) == Some(h)
  }

  /** The user is authorized and the client's country is allowed. */
  ghost predicate Authorized(env: Environment, s: Settings, r: Request, h: Hosts.Host) {
    UserAuth(env, s, r) == AUTH_SUCCESS && CountryAllowed(env, s, h.countries)
  }

  /** ... and an interactive session has a terminal. */
  ghost predicate Cleared(env: Environment, s: Settings, r: Request, h: Hosts.Host) {
    Authorized(env, s, r, h) && (r.proxy || env.tty || r.args.Some?)
  }

  lemma LoadedIsSound(env: Environment, s: Settings)
    requires Load(ConfigOf(env)) == Some(s)
    ensures ConfigProofs.Sound(s)
  {
    hide Load;
    LoadedNeedsFile(ConfigOf(env));
    ConfigProofs.LoadedSettings(ConfigOf(env).value);
  }

  /** auth_user's answer must be AUTH_SUCCESS itself: no other non-zero value occurs. */
  lemma AuthIsZeroOrOne(env: Environment, s: Settings, r: Request)
    requires Load(ConfigOf(env)) == Some(s)
    ensures UserAuth(env, s, r) in {AUTH_FAILURE, AUTH_SUCCESS}
  {
    hide Load, AuthDecision, ConfigProofs.Sound;
    LoadedIsSound(env, s);
    LoadedNeverErrs(s, env.user, r.name, r.mode, env.files, env.directory);
  }

  /** A reached request is executed if and only if it is cleared, and then with this vector. */
  lemma ReachedOutcome(env: Environment, s: Settings, r: Request, h: Hosts.Host)
    requires Reached(env, s, r, h)
    ensures Decide(env).Executed? <==> Cleared(env, s, r, h)
    ensures Decide(env).Executed? ==> Decide(env).argv == Vector(s, r, Target(env, s, r), h.port)
    ensures Decide(env) == Stopped(EXIT_SUCCESS) <==> !Authorized(env, s, r, h)
    ensures h.name == r.name
  {
    hide Load, RequestOf, Hosts.Lookup, UserAuth, GeoIp.Allowed, RemoteHost, Vector, Target;
    AuthIsZeroOrOne(env, s, r);
    Hosts.AnswerName(Contents(env.files, s.hostsFile), r.name);
  }

  /** execvp is reached exactly in the runs that have loaded settings, a request for a listed
      host, and clearance. */
  lemma ExecSafety(env: Environment)
    ensures Decide(env).Executed? <==> exists s, r, h :: Reached(env, s, r, h) && Cleared(env, s, r, h)
  {
    hide Load, RequestOf, Hosts.Lookup, Serve, Cleared;
    if Decide(env).Executed? {
      var s := Load(ConfigOf(env)).value;
      var r := RequestOf(env, s).r;
      var h := Hosts.Lookup(Contents(env.files, s.hostsFile), r.name).value;
      assert Reached(env, s, r, h);
      ReachedOutcome(env, s, r, h);
    }
    if s, r, h :| Reached(env, s, r, h) && Cleared(env, s, r, h) {
      ReachedOutcome(env, s, r, h);
    }
  }

  /** A run ends with the status of success exactly when a listed host was asked for and the user
      is not authorized for it or the country not allowed. */
  lemma DeniedIff(env: Environment)
    ensures Decide(env) == Stopped(EXIT_SUCCESS) <==>
            exists s, r, h :: Reached(env, s, r, h) && !Authorized(env, s, r, h)
  {
    hide Load, RequestOf, Hosts.Lookup, Serve, Authorized;
    if Decide(env) == Stopped(EXIT_SUCCESS) {
      var s := Load(ConfigOf(env)).value;
      var r := RequestOf(env, s).r;
      var h := Hosts.Lookup(Contents(env.files, s.hostsFile), r.name).value;
      assert Reached(env, s, r, h);
      ReachedOutcome(env, s, r, h);
    }
    if s, r, h :| Reached(env, s, r, h) && !Authorized(env, s, r, h) {
      ReachedOutcome(env, s, r, h);
    }
  }

  /** A run ends with the status of failure exactly when the configuration does not load, the proxy
      keyword stands alone, the host is not listed, or an authorized interactive session has no
      terminal. */
  lemma FailureIff(env: Environment)
    ensures Decide(env) == Stopped(1) <==>
      || Load(ConfigOf(env)).None?
      || (exists s :: Load(ConfigOf(env)) == Some(s) && RequestOf(env, s) == Refusal)
      || (exists s, r :: Load(ConfigOf(env)) == Some(s) && RequestOf(env, s) == Ask(r)
                         && Hosts.Lookup(Contents(env.files, s.hostsFile), r.name).None?)
      || (exists s, r, h :: Reached(env, s, r, h) && Authorized(env, s, r, h)
                            && !r.proxy && !env.tty && r.args.None?)
  {
    hide Load, RequestOf, Hosts.Lookup, Authorized, UserAuth, CountryAllowed, Vector, Target;
    if Load(ConfigOf(env)).Some? {
      var s := Load(ConfigOf(env)).value;
      if RequestOf(env, s).Ask? {
        var r := RequestOf(env, s).r;
        var listed := Hosts.Lookup(Contents(env.files, s.hostsFile), r.name);
        if listed.Some? {
          assert Reached(env, s, r, listed.value);
          ReachedOutcome(env, s, r, listed.value);
        }
      }
    }
  }

  /** The vector of an executed request, string by string. */
  lemma ExecutedVector(env: Environment, s: Settings, r: Request, h: Hosts.Host)
    requires Reached(env, s, r, h) && Cleared(env, s, r, h)
    ensures s.sshPath.Some? && s.ncPath.Some? && s.ncTimeout.Some?
    ensures var trims := s.authType == AUTH_TYPE_LOCAL && s.usersFile.Some? && s.usersFile.value in env.files;
      var host := if trims then Trimmed(r.name) else r.name;
      Decide(env) == Executed(
        if r.proxy then [s.ncPath.value, "-w", s.ncTimeout.value, host, h.port]
        else [s.sshPath.value, "-p", h.port, "-q", host, "--"] + (if r.args.Some? then [r.args.value] else []))
  {
    hide Load, RequestOf, Hosts.Lookup, ConfigProofs.Sound, Trimmed, CountryAllowed, Decide, AuthDecision;
    LoadedIsSound(env, s);
    PathsAreSet(s);
    ReachedOutcome(env, s, r, h);
    GrantedIsNotRefused(s, env.user, r.name, r.mode, env.files, env.directory);
  }

  lemma PathsAreSet(s: Settings)
    requires ConfigProofs.Sound(s)
    ensures s.sshPath.Some? && s.ncPath.Some? && s.ncTimeout.Some?
  {
    hide Atoi;
    assert s.Str(SshPath) == s.sshPath && s.Str(NcPath) == s.ncPath;
  }

  lemma GrantedIsNotRefused(s: Settings, user: string, host: string, mode: int, files: map<string, string>,
                            d: Directory)
    requires AuthDecision(s, user, host, mode, files, d) == AUTH_SUCCESS
    ensures !Refused(s, mode)
  {
  }

  /** A hosts file that cannot be opened lists nobody, and a users file grants nothing to anybody. */
  lemma MissingFiles(env: Environment, s: Settings, r: Request, name: string)
    ensures (s.hostsFile.None? || s.hostsFile.value !in env.files) ==>
      Hosts.Lookup(Contents(env.files, s.hostsFile), name) == None
    ensures s.authType == AUTH_TYPE_LOCAL && (s.usersFile.None? || s.usersFile.value !in env.files) ==>
      UserAuth(env, s, r) == AUTH_FAILURE
  {
  }

  lemma FlagsAreBits(s: Settings)
    requires ConfigProofs.Sound(s)
    ensures 0 <= s.enableProxy <= 1
    ensures s.disableAuthorization == 1 ==> s.authType == AUTH_TYPE_ANY
    ensures s.disableAuthorization == 0 && s.useLdap == 0 ==> s.authType == AUTH_TYPE_LOCAL
    ensures s.disableAuthorization == 0 && s.useLdap == 1 ==> s.authType == AUTH_TYPE_LDAP
  {
    assert 0 <= s.Flag(EnableProxy) <= 1;
  }

  /** What clearance rests on, down to the lines of the files and the entries of the directory. */
  lemma ClearanceMeans(env: Environment, s: Settings, r: Request, h: Hosts.Host)
    requires Reached(env, s, r, h) && Cleared(env, s, r, h)
    ensures s.hostsFile.Some? && s.hostsFile.value in env.files
    ensures exists i :: 0 <= i < |Lines(env.files[s.hostsFile.value])| &&
                        Hosts.LineHost(Lines(env.files[s.hostsFile.value])[i], r.name).Some?
    ensures r.mode == AUTH_PROXY ==> s.enableProxy == 1
    ensures s.disableAuthorization == 0 && s.useLdap == 0 ==>
      LocalGrants(s, env.user, r.name, r.mode, env.files)
    ensures s.disableAuthorization == 0 && s.useLdap == 1 ==>
      DirectoryGrants(s, env.user, r.name, r.mode, env.directory)
  {
    hide Load, RequestOf, LocalGrants, DirectoryGrants, CountryAllowed, Hosts.FirstHost, Hosts.LineHost,
      ConfigProofs.Sound, ConfigOf, Lines;
    LoadedIsSound(env, s);
    FlagsAreBits(s);
    Hosts.AnswerIff(Lines(env.files[s.hostsFile.value]), r.name);
  }

  // ---------------------------------------------------------------------------
  // The country check
  // ---------------------------------------------------------------------------

  /** The check is made exactly when SSH_CLIENT holds something besides blanks: a variable that
      is set but blank counts as a local connection. */
  lemma CheckedIff(env: Environment)
    ensures RemoteHost(env).Some? <==>
            env.sshClient.Some? && exists i :: 0 <= i < |env.sshClient.value| && env.sshClient.value[i] != ' '
  {
  }

  /** So a set but blank variable lets every list of countries pass. */
  lemma BlankClientUnchecked(env: Environment, s: Settings, countries: string)
    requires env.sshClient == Some(" ")
    ensures CountryAllowed(env, s, countries)
  {
  }

  /** The client's address is what stands between the first blanks of SSH_CLIENT. */
  lemma RemoteHostIs(env: Environment, lead: string, word: string, tail: string)
    requires env.sshClient == Some(lead + word + tail) && word != "" && ' ' !in word
    requires (forall i :: 0 <= i < |lead| ==> lead[i] == ' ') && (tail == "" || tail[0] == ' ')
    ensures RemoteHost(env) == Some(word)
  {
    var v := lead + word + tail;
    SpanIs(v, " ", |lead|);
    assert v[|lead|..] == word + tail;
    FindIs(word + tail, " ", |word|);
    assert (word + tail)[..|word|] == word;
  }

  /** The country rule of a run: for a list written with commas, an IPv4 client is looked up in the
      file GeoIP names, an IPv6 client in that of GeoIP6. */
  lemma CountryRule(env: Environment, s: Settings, lead: string, word: string, tail: string,
                    pieces: seq<string>, codes: seq<string>, ls: seq<string>, rs: seq<string>)
    requires env.sshClient == Some(lead + word + tail) && word != "" && ' ' !in word
    requires (forall i :: 0 <= i < |lead| ==> lead[i] == ' ') && (tail == "" || tail[0] == ' ')
    requires |pieces| == |codes| == |ls| == |rs| && codes != []
    requires forall i :: 0 <= i < |codes| ==>
      && codes[i] != "" && Tidy(codes[i]) && ',' !in codes[i] && AllSpace(ls[i]) && AllSpace(rs[i])
      && pieces[i] == ls[i] + codes[i] + rs[i]
    requires s.geoIpDat.Some? && s.geoIp6Dat.Some?
    ensures CountryAllowed(env, s, Joined(pieces, ',')) <==>
      match env.world.family(word)
      case Inet => env.world.isLocal(word) || GeoIp.InCodes(codes, env.world.country(word, s.geoIpDat.value))
      case Inet6 => env.world.isLocal6(word) || GeoIp.InCodes(codes, env.world.country6(word, s.geoIp6Dat.value))
      case OtherFamily => false
  {
    hide GeoIp.Allowed, Joined, Tidy, AllSpace, RemoteHost, GeoIp.InCodes;
    RemoteHostIs(env, lead, word, tail);
    GeoIp.AllowedMeans(env.world, word, pieces, codes, ls, rs, s.geoIpDat.value, s.geoIp6Dat.value);
  }

  /** A host without a list of countries is open to every client. */
  lemma NoCountries(env: Environment, s: Settings)
    ensures CountryAllowed(env, s, "")
  {
  }

  // ---------------------------------------------------------------------------
  // The request
  // ---------------------------------------------------------------------------

  predicate OnlyBlanks(b: string) {
    forall i :: 0 <= i < |b| ==> b[i] == ' '
  }

  /** A word behind blanks, at the end or before a blank. */
  lemma WordIs(b: string, w: string, rest: string)
    requires OnlyBlanks(b) && w != "" && ' ' !in w
    ensures Skip(b + w, " ") != "" && FirstToken(b + w, " ") == w && AfterToken(b + w, " ") == ""
    ensures Skip(b + w + " " + rest, " ") != "" && FirstToken(b + w + " " + rest, " ") == w
    ensures AfterToken(b + w + " " + rest, " ") == rest
  {
    var v := b + w + " " + rest;
    SpanIs(v, " ", |b|);
    assert v[|b|..] == w + " " + rest;
    FindIs(w + " " + rest, " ", |w|);
    assert (w + " " + rest)[..|w|] == w && (w + " " + rest)[|w| + 1..] == rest;
    LastWordIs(b, w);
  }

  lemma LastWordIs(b: string, w: string)
    requires OnlyBlanks(b) && w != "" && ' ' !in w
    ensures Skip(b + w, " ") == w && FirstToken(b + w, " ") == w && AfterToken(b + w, " ") == ""
  {
    SpanIs(b + w, " ", |b|);
    assert (b + w)[|b|..] == w;
    FindIs(w, " ", |w|);
  }

  lemma BlanksHaveNoWord(b: string)
    requires OnlyBlanks(b)
    ensures Skip(b, " ") == ""
  {
    SpanIs(b, " ", |b|);
  }

  /** How a command string is taken apart: the first word is the host, and all that follows the
      blank behind it is the remote command; behind the keyword the next word is the host, and
      nothing else is kept. */
  lemma CommandIs(b: string, w: string, rest: string, k: string)
    requires OnlyBlanks(b) && w != "" && ' ' !in w
    ensures SplitCommand(b, k) == Blank
    ensures w != k ==> SplitCommand(b + w, k) == Command(w, false, None)
    ensures w != k ==>
      SplitCommand(b + w + " " + rest, k) == Command(w, false, if rest == "" then None else Some(rest))
    ensures w == k ==> SplitCommand(b + w, k) == NoProxyHost
    ensures w == k && OnlyBlanks(rest) ==> SplitCommand(b + w + " " + rest, k) == NoProxyHost
  {
    BlanksHaveNoWord(b);
    BlanksHaveNoWord("");
    if OnlyBlanks(rest) { BlanksHaveNoWord(rest); }
    WordIs(b, w, rest);
    hide Skip, FirstToken, AfterToken;
  }

  lemma ProxiedCommandIs(b: string, k: string, c: string, host: string, tail: string)
    requires OnlyBlanks(b) && OnlyBlanks(c) && k != "" && ' ' !in k && host != "" && ' ' !in host
    ensures SplitCommand(b + k + " " + (c + host), k) == Command(host, true, None)
    ensures SplitCommand(b + k + " " + (c + host + " " + tail), k) == Command(host, true, None)
  {
    WordIs(b, k, c + host);
    WordIs(b, k, c + host + " " + tail);
    WordIs(c, host, tail);
    hide Skip, FirstToken, AfterToken;
  }

  /** A blank command uses a NULL pointer; the keyword alone ends with the status of failure. */
  lemma NoHostOutcome(env: Environment, s: Settings, b: string, rest: string)
    requires Load(ConfigOf(env)) == Some(s) && OnlyBlanks(b) && OnlyBlanks(rest)
    requires Given(s.proxyKeyword) != "" && ' ' !in Given(s.proxyKeyword)
    ensures env.command == Some(b) ==> Decide(env) == Undefined
    ensures env.command == Some(b + Given(s.proxyKeyword)) ==> Decide(env) == Stopped(1)
    ensures env.command == Some(b + Given(s.proxyKeyword) + " " + rest) ==> Decide(env) == Stopped(1)
  {
    hide Load, SplitCommand;
    CommandIs(b, Given(s.proxyKeyword), rest, Given(s.proxyKeyword));
  }

  lemma FirstWordShown(t: string, rest: string)
    requires t != "" && ' ' !in t
    ensures Shown(t + " " + rest, " ") == t
  {
    SpanIs(t + " " + rest, " ", 0);
    WordIs("", t, rest);
    assert "" + t + " " + rest == t + " " + rest;
    hide Skip, FirstToken, AfterToken;
    assert (t + " " + rest)[..|t|] == t;
  }

  /** The request of a host and a remote command: an ordinary session, asked for as such. */
  lemma RemoteCommandRequest(env: Environment, s: Settings, t: string, rest: string)
    requires t != "" && ' ' !in t && (s.allowFqdn != 0 || '.' !in t) && t != Given(s.proxyKeyword) && rest != ""
    requires env.command == Some(t + " " + rest)
    ensures RequestOf(env, s) == Ask(Request(t, false, Some(rest), AUTH_BASTION))
  {
    hide SplitCommand, Hostname, Shown, Given;
    CommandIs("", t, rest, Given(s.proxyKeyword));
    assert "" + t + " " + rest == t + " " + rest;
    FirstWordShown(t, rest);
    if s.allowFqdn == 0 { PlainHostname(t, ""); }
  }

  /** A cleared remote command is executed by ssh on the listed port with the command as its one
      last argument. */
  lemma RemoteCommandRuns(env: Environment, s: Settings, t: string, rest: string, h: Hosts.Host)
    requires t != "" && ' ' !in t && (s.allowFqdn != 0 || '.' !in t) && t != Given(s.proxyKeyword) && rest != ""
    requires env.command == Some(t + " " + rest) && Load(ConfigOf(env)) == Some(s)
    requires Hosts.Lookup(Contents(env.files, s.hostsFile), t) == Some(h)
    requires Authorized(env, s, Request(t, false, Some(rest), AUTH_BASTION), h)
    ensures s.sshPath.Some?
    ensures var trims := s.authType == AUTH_TYPE_LOCAL && s.usersFile.Some? && s.usersFile.value in env.files;
      Decide(env) == Executed([s.sshPath.value, "-p", h.port, "-q", if trims then Trimmed(t) else t, "--", rest])
  {
    hide Load, RequestOf, Hosts.Lookup, Authorized, Trimmed, Decide;
    var r := Request(t, false, Some(rest), AUTH_BASTION);
    RemoteCommandRequest(env, s, t, rest);
    ExecutedVector(env, s, r, h);
  }

  /** The configuration is read from the file given with -C, or else from this one. */
  lemma ConfigOfRun(env: Environment, name: string)
    requires env.configFile == Some(name) || (env.configFile.None? && name == "/etc/stonesh/stonesh.conf")
    ensures ConfigOf(env) == if name in env.files then Some(env.files[name]) else None
  {
  }

  // ---------------------------------------------------------------------------
  // The mode
  // ---------------------------------------------------------------------------

  /** Characters of a token and what stands before it. */
  lemma TokenParts(v: string, ds: string)
    requires Skip(v, ds) != ""
    ensures FirstToken(v, ds) != ""
    ensures forall i :: 0 <= i < |FirstToken(v, ds)| ==> FirstToken(v, ds)[i] !in ds
    ensures Shown(v, ds) == v[..Span(v, ds)] + FirstToken(v, ds)
    ensures Span(v, ds) > 0 ==> v[0] in ds
  {
    var k, w := Span(v, ds), Skip(v, ds);
    assert w == v[k..] && w[0] == v[k];
    var n := Find(w, ds);
    assert FirstToken(v, ds) == w[..n] && n > 0;
    hide Find, Span, Skip, FirstToken;
    PartsJoin(v, k, n);
  }

  lemma PartsJoin(v: string, k: nat, n: nat)
    requires k + n <= |v|
    ensures v[..k + n] == v[..k] + v[k..][..n]
  {
  }

  /** Cutting at the dot leaves a host alone exactly when it has none. */
  lemma HostnameKeepsIff(h: string)
    requires h != "" && Hostname(h).Some?
    ensures h <= Hostname(h).value <==> '.' !in h
  {
    var t, k := FirstToken(h, "."), Span(h, ".");
    TokenParts(h, ".");
    if '.' !in h {
      SpanIs(h, ".", 0);
      FindIs(h, ".", |h|);
    } else {
      assert !(h <= Hostname(h).value);
    }
  }

  /** The name is the first part without a dot, if and only if the host does not start with a dot. */
  lemma HostnameIsPartIff(h: string)
    requires Hostname(h).Some?
    ensures Hostname(h) == Some(FirstToken(h, ".")) <==> h[0] != '.'
    ensures h[0] != '.' ==> FirstToken(h, ".") == h[..Find(h, ".")]
  {
    TokenParts(h, ".");
    hide FirstToken;
    assert |Hostname(h).value| == |Shown(h, ".")|;
    if Span(h, ".") == 0 {
      assert Shown(h, ".") == "" + FirstToken(h, ".");
      assert FirstToken(h, ".") + "" == FirstToken(h, ".");
    }
  }

  /** The name of a host taken apart: leading dots, the first part, and what follows it.  As many
      of the part's last characters are repeated as there are leading dots. */
  lemma HostnameMeaning(dots: string, t: string, tail: string)
    requires (forall i :: 0 <= i < |dots| ==> dots[i] == '.') && t != "" && '.' !in t
    requires tail == "" || tail[0] == '.'
    ensures Hostname(dots + t + tail) == Some(t + (dots + t)[|t|..])
    ensures Hostname(dots + t + tail) == Some(t) <==> dots == ""
  {
    var h := dots + t + tail;
    SpanIs(h, ".", |dots|);
    assert Skip(h, ".") == t + tail;
    FindIs(t + tail, ".", |t|);
    assert FirstToken(h, ".") == t;
    assert Shown(h, ".") == dots + t;
    hide Skip, FirstToken, AfterToken, Shown;
    assert dots == "" ==> t + (dots + t)[|t|..] == t;
    assert |t + (dots + t)[|t|..]| == |t| + |dots|;
  }

  /** A host that does not start with a dot. */
  lemma PlainHostname(t: string, rest: string)
    requires t != "" && '.' !in t
    ensures Hostname(t) == Some(t) && Hostname(t + "." + rest) == Some(t)
  {
    hide Hostname;
    HostnameMeaning("", t, "");
    HostnameMeaning("", t, "." + rest);
    assert "" + t + "" == t && "" + t + ("." + rest) == t + "." + rest;
  }

  lemma LeadingDotName()
    ensures Hostname(".web") == Some("webb")
  {
    HostnameMeaning(".", "web", "");
    assert "." + "web" + "" == ".web";
    assert "web" + ("." + "web")[3..] == "webb";
  }

  lemma NoHostnameIff(h: string)
    ensures Hostname(h).None? <==> forall i :: 0 <= i < |h| ==> h[i] == '.'
  {
  }

  lemma NoBlankInToken(v: string)
    requires Skip(v, " ") != ""
    ensures ' ' !in FirstToken(v, " ")
  {
  }

  /** The name a host gives has no blank if the host has none. */
  lemma NameHasNoBlank(env: Environment, s: Settings, host: string, proxy: bool, args: Option<string>)
    requires ' ' !in host && AskHost(env, s, host, proxy, args).Ask?
    ensures ' ' !in AskHost(env, s, host, proxy, args).r.name
  {
  }

  /** A command string that starts with a blank starts no name. */
  lemma LeadingBlank(c: string, name: string)
    requires Skip(c, " ") != "" && Span(c, " ") > 0 && ' ' !in name
    ensures !(Shown(c, " ") <= name)
  {
  }

  lemma NoLeadingBlank(c: string)
    requires Skip(c, " ") != "" && Span(c, " ") == 0
    ensures Shown(c, " ") == FirstToken(c, " ")
  {
  }

  /** The mode auth_user is asked for is the kind of session that is started, if and only if: for
      a proxied session, a blank precedes the keyword or the name does not begin with it; for any
      other, no blank precedes the host, and it has no dot or full names are allowed. */
  lemma ModeAgreesIff(env: Environment, s: Settings, r: Request)
    requires env.command.Some? && RequestOf(env, s) == Ask(r)
    ensures var c := env.command.value;
      (r.mode == AUTH_PROXY <==> r.proxy) <==>
        if r.proxy then Span(c, " ") > 0 || !(Given(s.proxyKeyword) <= r.name)
        else Span(c, " ") == 0 && (s.allowFqdn != 0 || '.' !in FirstToken(c, " "))
  {
    hide Skip, FirstToken, AfterToken, Shown, Hostname;
    var c := env.command.value;
    var rest := AfterToken(c, " ");
    var first := FirstToken(c, " ");
    var host := if r.proxy then FirstToken(rest, " ") else first;
    NoBlankInToken(c);
    if r.proxy { NoBlankInToken(rest); }
    NameHasNoBlank(env, s, host, r.proxy, r.args);
    if Span(c, " ") > 0 {
      LeadingBlank(c, r.name);
    } else {
      NoLeadingBlank(c);
      if !r.proxy && s.allowFqdn == 0 {
        TokenParts(c, " ");
        HostnameKeepsIff(first);
      }
    }
  }

  /** So a command that is a host with a dot is authorized as a proxied session, and starts an
      ordinary one. */
  lemma DottedHostMode(env: Environment, s: Settings, t: string, rest: string)
    requires t != "" && '.' !in t && ' ' !in t && ' ' !in rest
    requires env.command == Some(t + "." + rest) && s.allowFqdn == 0
    requires Given(s.proxyKeyword) != t + "." + rest
    ensures RequestOf(env, s) == Ask(Request(t, false, None, AUTH_PROXY))
  {
    hide Hostname, Shown, SplitCommand, Given;
    var c := t + "." + rest;
    PlainHostname(t, rest);
    OneWordCommand(c, Given(s.proxyKeyword));
    assert !(c <= t);
  }

  lemma OneWord(c: string)
    requires c != "" && ' ' !in c
    ensures Skip(c, " ") == c && FirstToken(c, " ") == c && AfterToken(c, " ") == "" && Shown(c, " ") == c
  {
    SpanIs(c, " ", 0);
    FindIs(c, " ", |c|);
  }

  lemma OneWordCommand(c: string, k: string)
    requires c != "" && ' ' !in c && k != c
    ensures SplitCommand(c, k) == Command(c, false, None) && Shown(c, " ") == c
  {
    OneWord(c);
    hide Skip, FirstToken, AfterToken, Shown;
  }

  /** A proxied session is authorized as one if and only if a blank precedes the keyword or the
      name does not begin with the keyword. */
  lemma ProxiedSessionMode(env: Environment, s: Settings, r: Request)
    requires RequestOf(env, s) == Ask(r) && r.proxy
    ensures env.command.Some?
    ensures r.mode == AUTH_PROXY <==> Span(env.command.value, " ") > 0 || !(Given(s.proxyKeyword) <= r.name)
  {
    assert env.command.Some?;
    hide RequestOf;
    ModeAgreesIff(env, s, r);
  }

  lemma KeywordSplit(k: string, host: string)
    requires k != "" && ' ' !in k && host != "" && ' ' !in host
    ensures SplitCommand(k + " " + host, k) == Command(host, true, None)
    ensures Shown(k + " " + host, " ") == k
  {
    TokensHere(k, ' ', host);
    SpanIs(k + " " + host, " ", 0);
    OneWord(host);
    hide Skip, FirstToken, AfterToken;
    assert (k + " " + host)[..|k|] == k;
  }

  /** So the keyword and a host that begins with it is authorized as an ordinary session, and
      starts a proxied one. */
  lemma KeywordHostMode(env: Environment, s: Settings, rest: string)
    requires var k := Given(s.proxyKeyword);
      k != "" && ' ' !in k && ' ' !in rest && env.command == Some(k + " " + (k + rest))
      && (s.allowFqdn != 0 || '.' !in k + rest)
    ensures RequestOf(env, s) == Ask(Request(Given(s.proxyKeyword) + rest, true, None, AUTH_BASTION))
  {
    hide Hostname, Shown, SplitCommand, Given;
    var k := Given(s.proxyKeyword);
    KeywordSplit(k, k + rest);
    if s.allowFqdn == 0 { PlainHostname(k + rest, ""); }
    assert k <= k + rest;
  }

  // ---------------------------------------------------------------------------
  // Runs over written tables
  // ---------------------------------------------------------------------------

  /** The files of the environment are a written configuration and the written hosts table it
      names. */
  ghost predicate Installed(env: Environment, es: seq<ConfigRoundTrip.Entry>, hosts: seq<HostsTable.Row>) {
    && (forall i :: 0 <= i < |es| ==> ConfigRoundTrip.Writable(es[i]))
    && (forall i :: 0 <= i < |hosts| ==> HostsTable.CleanRow(hosts[i]))
    && ConfigOf(env) == Some(Written(ConfigRoundTrip.Rows(es)))
    && Contents(env.files, ConfigRoundTrip.WrittenString(es, HostsFile))
         == Some(Written(HostsTable.RowTexts(hosts)))
  }

  /** ... for local authorization, with the written users table it names. */
  ghost predicate UsersInstalled(env: Environment, es: seq<ConfigRoundTrip.Entry>,
                                 users: seq<UsersTable.UserRow>) {
    && ConfigRoundTrip.WrittenFlag(es, DisableAuthorization) == 0
    && ConfigRoundTrip.WrittenFlag(es, UseLdap) == 0
    && (forall i :: 0 <= i < |users| ==> UsersTable.CleanRow(users[i]))
    && Contents(env.files, ConfigRoundTrip.WrittenString(es, UsersFile)) == Some(UsersTable.TableText(users))
  }

  /** The backend the written settings choose. */
  function WrittenAuthType(es: seq<ConfigRoundTrip.Entry>): int {
    if ConfigRoundTrip.WrittenFlag(es, DisableAuthorization) == 1 then AUTH_TYPE_ANY
    else if ConfigRoundTrip.WrittenFlag(es, UseLdap) == 1 then AUTH_TYPE_LDAP
    else AUTH_TYPE_LOCAL
  }

  /** The settings the written configuration loads to. */
  lemma InstalledSettings(env: Environment, es: seq<ConfigRoundTrip.Entry>, hosts: seq<HostsTable.Row>)
    returns (s: Settings)
    requires Installed(env, es, hosts)
    ensures Load(ConfigOf(env)) == Some(s)
    ensures s.authType == WrittenAuthType(es)
    ensures forall k :: s.Flag(k) == ConfigRoundTrip.WrittenFlag(es, k)
    ensures forall k :: s.Str(k) == ConfigRoundTrip.WrittenString(es, k)
  {
    hide Load, Written, ConfigRoundTrip.Rows, ConfigRoundTrip.Writable, ConfigRoundTrip.WrittenFlag,
      ConfigRoundTrip.WrittenString, HostsTable.CleanRow, ConfigProofs.Sound;
    ConfigRoundTrip.ConfigRoundTrip(es);
    s := Load(ConfigOf(env)).value;
    LoadedIsSound(env, s);
    FlagsAreBits(s);
    BackendFlags(s);
    assert s.Flag(DisableAuthorization) == s.disableAuthorization && s.Flag(UseLdap) == s.useLdap;
  }

  lemma FlagIsBit(s: Settings, k: FlagKey)
    requires ConfigProofs.Sound(s)
    ensures 0 <= s.Flag(k) <= 1
  {
    hide Atoi;
  }

  lemma BackendFlags(s: Settings)
    requires ConfigProofs.Sound(s)
    ensures 0 <= s.disableAuthorization <= 1 && 0 <= s.useLdap <= 1
  {
    hide ConfigProofs.Sound;
    FlagIsBit(s, DisableAuthorization);
    FlagIsBit(s, UseLdap);
  }

  /** What the hosts table, the settings and the session must say, whatever the backend. */
  ghost predicate TablesAllow(env: Environment, es: seq<ConfigRoundTrip.Entry>, hosts: seq<HostsTable.Row>,
                              s: Settings, r: Request) {
    && HostsTable.FindRow(hosts, r.name).Some?
    && (r.mode == AUTH_PROXY ==> ConfigRoundTrip.WrittenFlag(es, EnableProxy) == 1)
    && CountryAllowed(env, s, HostsTable.FindRow(hosts, r.name).value.countries)
    && (r.proxy || env.tty || r.args.Some?)
  }

  /** Whether the written settings ask for the mark. */
  function Mark(es: seq<ConfigRoundTrip.Entry>, mode: int): int {
    if mode == AUTH_PROXY && ConfigRoundTrip.WrittenFlag(es, DisableProxyAuthorization) == 0 then 1 else 0
  }

  /** With written tables, a request is executed if and only if the tables allow it and the backend
      grants it. */
  lemma InstalledOutcome(env: Environment, es: seq<ConfigRoundTrip.Entry>, hosts: seq<HostsTable.Row>,
                         s: Settings, r: Request, granted: bool)
    requires Installed(env, es, hosts)
    requires Load(ConfigOf(env)) == Some(s) && RequestOf(env, s) == Ask(r)
    requires UserAuth(env, s, r) == AUTH_SUCCESS <==>
             granted && (r.mode == AUTH_PROXY ==> ConfigRoundTrip.WrittenFlag(es, EnableProxy) == 1)
    ensures Decide(env).Executed? <==> TablesAllow(env, es, hosts, s, r) && granted
    ensures Decide(env).Executed? ==>
      Decide(env).argv == Vector(s, r, Target(env, s, r), HostsTable.FindRow(hosts, r.name).value.port)
  {
    hide Load, RequestOf, Hosts.Lookup, Installed, UserAuth, CountryAllowed, Target, Vector, Decide, Serve,
      ConfigRoundTrip.WrittenFlag, HostsTable.FindRow;
    InstalledLookup(env, es, hosts, s, r.name);
    if HostsTable.FindRow(hosts, r.name).Some? {
      ReachedOutcome(env, s, r, HostsTable.FindRow(hosts, r.name).value);
    } else {
      UnlistedStops(env, s, r);
    }
  }

  lemma UnlistedStops(env: Environment, s: Settings, r: Request)
    requires Load(ConfigOf(env)) == Some(s) && RequestOf(env, s) == Ask(r)
    requires Hosts.Lookup(Contents(env.files, s.hostsFile), r.name).None?
    ensures Decide(env) == Stopped(EXIT_FAILURE)
  {
  }

  /** The lookup in a written hosts table. */
  lemma InstalledLookup(env: Environment, es: seq<ConfigRoundTrip.Entry>, hosts: seq<HostsTable.Row>,
                        s: Settings, name: string)
    requires Installed(env, es, hosts)
    requires Load(ConfigOf(env)) == Some(s)
    ensures Hosts.Lookup(Contents(env.files, s.hostsFile), name) == HostsTable.FindRow(hosts, name)
  {
    hide Load, Hosts.Lookup, HostsTable.FindRow, Contents, Written, ConfigRoundTrip.WrittenString,
      ConfigRoundTrip.WrittenFlag, ConfigOf, HostsTable.CleanRow;
    var loaded := InstalledSettings(env, es, hosts);
    assert s.Str(HostsFile) == s.hostsFile;
    HostsTable.HostsRoundTrip(hosts, name);
  }

  /** End to end with local authorization: any request is executed if and only if the tables allow
      it and in some row of the users table that extends the user the first entry that extends the
      host is marked where that is asked for.  When no listed name properly extends the user or the
      host, the last condition is that the pair is listed. */
  lemma EndToEnd(env: Environment, es: seq<ConfigRoundTrip.Entry>, hosts: seq<HostsTable.Row>,
                 users: seq<UsersTable.UserRow>, s: Settings, r: Request)
    requires Installed(env, es, hosts) && UsersInstalled(env, es, users)
    requires Load(ConfigOf(env)) == Some(s) && RequestOf(env, s) == Ask(r)
    ensures var user, host := Trimmed(env.user), Trimmed(r.name);
      && (Decide(env).Executed? <==>
          TablesAllow(env, es, hosts, s, r) && UsersTable.FirstAllows(users, user, host, Mark(es, r.mode)))
      && (UsersTable.NoProperPrefix(users, user, host)
          && (forall i :: 0 <= i < |users| ==> UsersTable.HostsOnce(users[i])) ==>
          (Decide(env).Executed? <==>
           TablesAllow(env, es, hosts, s, r) && UsersTable.Listed(users, user, host, Mark(es, r.mode))))
    ensures Decide(env).Executed? ==>
      Decide(env).argv == Vector(s, r, Target(env, s, r), HostsTable.FindRow(hosts, r.name).value.port)
  {
    assert forall i :: 0 <= i < |users| ==> UsersTable.CleanRow(users[i]);
    hide Load, RequestOf, Installed, UsersInstalled, UsersTable.Listed, UsersTable.FirstAllows, UserAuth,
      TablesAllow, Target, Vector, Decide, ConfigRoundTrip.WrittenFlag, Trimmed, UsersTable.NoProperPrefix,
      UsersTable.CleanRow, UsersTable.HostsOnce, Mark, HostsTable.FindRow;
    var user, host, mark := Trimmed(env.user), Trimmed(r.name), Mark(es, r.mode);
    LocalAuth(env, es, hosts, users, s, r);
    InstalledOutcome(env, es, hosts, s, r, UsersTable.FirstAllows(users, user, host, mark));
    if UsersTable.NoProperPrefix(users, user, host)
      && forall i :: 0 <= i < |users| ==> UsersTable.HostsOnce(users[i])
    {
      UsersTable.FirstAllowsIsListed(users, env.user, r.name, mark);
    }
  }

  /** End to end without authorization: the tables alone decide. */
  lemma EndToEndOpen(env: Environment, es: seq<ConfigRoundTrip.Entry>, hosts: seq<HostsTable.Row>, s: Settings,
                     r: Request)
    requires Installed(env, es, hosts) && ConfigRoundTrip.WrittenFlag(es, DisableAuthorization) == 1
    requires Load(ConfigOf(env)) == Some(s) && RequestOf(env, s) == Ask(r)
    ensures Decide(env).Executed? <==> TablesAllow(env, es, hosts, s, r)
  {
    hide Load, RequestOf, Installed, TablesAllow, Decide, ConfigRoundTrip.WrittenFlag, ConfigOf,
      ConfigProofs.Sound, ConfigRoundTrip.WrittenString;
    var loaded := InstalledSettings(env, es, hosts);
    LoadedIsSound(env, s);
    FlagsAreBits(s);
    assert s.Flag(EnableProxy) == s.enableProxy;
    InstalledOutcome(env, es, hosts, s, r, true);
  }

  /** The tag of the written settings. */
  function Tag(es: seq<ConfigRoundTrip.Entry>): string {
    Given(ConfigRoundTrip.WrittenString(es, AuthorizedServiceTag))
  }

  /** Some entry of the directory, before any reference, is of the user and lists the host or a
      star, with the service where the mark is asked for. */
  ghost predicate DirectoryLists(env: Environment, es: seq<ConfigRoundTrip.Entry>, r: Request)
    requires Escaped(env.user) && Escaped(r.name) && Escaped(Tag(es))
  {
    && env.user != "" && r.name != ""
    && HasServer(ConfigRoundTrip.WrittenString(es, LdapUri), ConfigRoundTrip.WrittenString(es, LdapBase),
                 env.directory)
    && if Mark(es, r.mode) == 1 then
         Tag(es) != "" &&
         SomeEntry(env.directory.items, e => MayProxy(e, Spelt(r.name), Spelt(env.user), Spelt(Tag(es))))
       else
         SomeEntry(env.directory.items, e => MayUse(e, Spelt(r.name), Spelt(env.user)))
  }

  /** End to end with a directory, for values whose parentheses and backslashes are escaped. */
  lemma EndToEndLdap(env: Environment, es: seq<ConfigRoundTrip.Entry>, hosts: seq<HostsTable.Row>, s: Settings,
                     r: Request)
    requires Installed(env, es, hosts)
    requires ConfigRoundTrip.WrittenFlag(es, DisableAuthorization) == 0
    requires ConfigRoundTrip.WrittenFlag(es, UseLdap) == 1
    requires Load(ConfigOf(env)) == Some(s) && RequestOf(env, s) == Ask(r)
    requires Escaped(env.user) && Escaped(r.name) && Escaped(Tag(es))
    ensures Decide(env).Executed? <==> TablesAllow(env, es, hosts, s, r) && DirectoryLists(env, es, r)
  {
    hide Load, RequestOf, Installed, TablesAllow, Decide, ConfigRoundTrip.WrittenFlag, UserAuth, DirectoryLists,
      Escaped, Tag;
    DirectoryAuth(env, es, hosts, s, r);
    InstalledOutcome(env, es, hosts, s, r, DirectoryLists(env, es, r));
  }

  /** The decision of a directory under sound settings. */
  lemma DirectoryDecision(s: Settings, user: string, host: string, mode: int, files: map<string, string>,
                          d: Directory)
    requires ConfigProofs.Sound(s) && s.authType == AUTH_TYPE_LDAP && s.authorizedServiceTag.Some?
    ensures AuthDecision(s, user, host, mode, files, d) == AUTH_SUCCESS <==>
      && (mode == AUTH_PROXY ==> s.Flag(EnableProxy) == 1)
      && LdapGrants(Some(user), Some(host),
           if mode == AUTH_PROXY && s.Flag(DisableProxyAuthorization) == 0 then s.authorizedServiceTag else None,
           s.useLdap, s.ldapUri, s.ldapBase, d)
  {
    hide LdapGrants, Contents, Atoi;
    assert 0 <= s.Flag(EnableProxy) <= 1;
  }

  lemma TagIsWritten(es: seq<ConfigRoundTrip.Entry>)
    ensures ConfigRoundTrip.WrittenString(es, AuthorizedServiceTag) == Some(Tag(es))
  {
  }

  /** auth_user over a directory. */
  lemma DirectoryAuth(env: Environment, es: seq<ConfigRoundTrip.Entry>, hosts: seq<HostsTable.Row>, s: Settings,
                      r: Request)
    requires Installed(env, es, hosts)
    requires ConfigRoundTrip.WrittenFlag(es, DisableAuthorization) == 0
    requires ConfigRoundTrip.WrittenFlag(es, UseLdap) == 1
    requires Load(ConfigOf(env)) == Some(s)
    requires Escaped(env.user) && Escaped(r.name) && Escaped(Tag(es))
    ensures UserAuth(env, s, r) == AUTH_SUCCESS <==>
      && DirectoryLists(env, es, r)
      && (r.mode == AUTH_PROXY ==> ConfigRoundTrip.WrittenFlag(es, EnableProxy) == 1)
  {
    TagIsWritten(es);
    hide Load, Installed, AuthDecision, LdapGrants, SomeEntry, HasServer, ConfigOf, ConfigProofs.Sound, PatternOf,
      MayProxy, MayUse, ConfigRoundTrip.WrittenFlag, ConfigRoundTrip.WrittenString, Tag;
    var loaded := InstalledSettings(env, es, hosts);
    LoadedIsSound(env, s);
    assert s.Str(AuthorizedServiceTag) == s.authorizedServiceTag && s.Str(LdapUri) == s.ldapUri;
    assert s.Str(LdapBase) == s.ldapBase && s.Flag(UseLdap) == s.useLdap;
    DirectoryDecision(s, env.user, r.name, r.mode, env.files, env.directory);
    if Mark(es, r.mode) == 1 {
      LdapServiceMeaning(env.user, r.name, Tag(es), s.useLdap, s.ldapUri, s.ldapBase, env.directory);
    } else {
      LdapHostMeaning(env.user, r.name, s.useLdap, s.ldapUri, s.ldapBase, env.directory);
    }
  }

  /** The decision of local authorization under sound settings. */
  lemma LocalDecision(s: Settings, user: string, host: string, mode: int, files: map<string, string>, d: Directory)
    requires ConfigProofs.Sound(s) && s.authType == AUTH_TYPE_LOCAL && Contents(files, s.usersFile).Some?
    ensures AuthDecision(s, user, host, mode, files, d) == AUTH_SUCCESS <==>
      && (mode == AUTH_PROXY ==> s.Flag(EnableProxy) == 1)
      && FileGrants(Contents(files, s.usersFile).value, user, host,
                    if mode == AUTH_PROXY && s.Flag(DisableProxyAuthorization) == 0 then 1 else 0)
  {
    hide FileGrants, Contents, Atoi;
    assert 0 <= s.Flag(EnableProxy) <= 1;
  }

  /** auth_user over a written users table. */
  lemma LocalAuth(env: Environment, es: seq<ConfigRoundTrip.Entry>, hosts: seq<HostsTable.Row>,
                  users: seq<UsersTable.UserRow>, s: Settings, r: Request)
    requires Installed(env, es, hosts) && UsersInstalled(env, es, users)
    requires Load(ConfigOf(env)) == Some(s)
    ensures UserAuth(env, s, r) == AUTH_SUCCESS <==>
      && UsersTable.FirstAllows(users, Trimmed(env.user), Trimmed(r.name), Mark(es, r.mode))
      && (r.mode == AUTH_PROXY ==> ConfigRoundTrip.WrittenFlag(es, EnableProxy) == 1)
  {
    hide Load, FileGrants, UsersTable.FirstAllows, UsersTable.TableText, Trimmed, Installed,
      ConfigRoundTrip.WrittenFlag, ConfigRoundTrip.WrittenString,
      UsersTable.CleanRow, AuthDecision, Contents, ConfigOf, ConfigProofs.Sound, Written;
    var loaded := InstalledSettings(env, es, hosts);
    LoadedIsSound(env, s);
    assert s.Str(UsersFile) == s.usersFile;
    LocalDecision(s, env.user, r.name, r.mode, env.files, env.directory);
    UsersTable.TableGrantsIff(users, env.user, r.name, Mark(es, r.mode));
  }
}
