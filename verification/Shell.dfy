/** One run of the login shell, from reading its configuration to execvp (stonesh.c). */
module Shell {
  import opened Text
  import opened CBuffer
  import opened Config
  import opened ReadConf
  import ConfigProofs
  import opened AuthLocal
  import opened AuthLdap
  import opened Auth
  import Hosts
  import GeoIp
  import CommandLine

  const EXIT_SUCCESS := 0
  const EXIT_FAILURE := 1

  /** Room in the exec vector: sizeof(argv) / sizeof(int) + 10, for 8-byte pointers and 4-byte
      ints. */
  const NEWARGV_SIZE := 8 / 4 + 10

  const DEFAULT_CONFIG_FILE := "/etc/stonesh/stonesh.conf"

  /** All that a run is given: its arguments and what getopt found in them, the user's name,
      SSH_CLIENT, the line the host prompt gets, whether there is a terminal, the files, the
      GeoIP world and the directory. */
  datatype Environment = Environment(
    argv: seq<string>,
    command: Option<string>,
    configFile: Option<string>,
    user: string,
    sshClient: Option<string>,
    prompt: string,
    tty: bool,
    files: map<string, string>,
    world: GeoIp.World,
    directory: Directory)

  /** The texts of an environment are C strings and there is a program name. */
  predicate Proper(env: Environment) {
    && env.argv != [] && CommandLine.NoNuls(env.argv)
    && (env.command.Some? ==> NoNul(env.command.value))
    && NoNul(env.user) && (env.sshClient.Some? ==> NoNul(env.sshClient.value))
    && NoNul(env.prompt) && env.prompt != ""
  }

  /** How a run ends.  Undefined is the use of a NULL pointer: a blank command, or a host of
      dots only. */
  datatype Outcome = Stopped(status: int) | Executed(argv: seq<string>) | Undefined

  // ---------------------------------------------------------------------------
  // The request
  // ---------------------------------------------------------------------------

  datatype Command = Blank | NoProxyHost | Command(host: string, proxy: bool, args: Option<string>)

  /** `[host] [command]` or `[keyword] [host]`. */
  function SplitCommand(c: string, keyword: string): Command {
    if Skip(c, " ") == "" then Blank
    else
      var rest := AfterToken(c, " ");
      if FirstToken(c, " ") == keyword then
        if Skip(rest, " ") == "" then NoProxyHost else Command(FirstToken(rest, " "), true, None)
      else Command(FirstToken(c, " "), false, if rest == "" then None else Some(rest))
  }

  /** What `strtok` leaves at the start of a string: its first token, behind any delimiters. */
  function Shown(c: string, ds: string): string {
    c[..Span(c, ds) + |FirstToken(c, ds)|]
  }

  /** The host up to its first dot.  Leading dots are skipped and the name is copied over the
      start of the buffer without a NUL; None is the NULL that a host of dots only gives. */
  function Hostname(h: string): Option<string> {
    if Skip(h, ".") == "" then None
    else
      var t := FirstToken(h, ".");
      Some(t + Shown(h, ".")[|t|..])
  }

  datatype Request = Request(name: string, proxy: bool, args: Option<string>, mode: int)

  datatype Asked = Crash | Refusal | Ask(r: Request)

  function ModeOf(command: Option<string>, name: string): int {
    if command.None? || Shown(command.value, " ") <= name then AUTH_BASTION else AUTH_PROXY
  }

  function AskHost(env: Environment, s: Settings, host: string, proxy: bool, args: Option<string>): Asked {
    var name := if s.allowFqdn == 0 then Hostname(host) else Some(host);
    if name.None? then Crash else Ask(Request(name.value, proxy, args, ModeOf(env.command, name.value)))
  }

  /** The request a run makes with its settings. */
  function RequestOf(env: Environment, s: Settings): Asked {
    if env.command.None? then AskHost(env, s, env.prompt, false, None)
    else
      match SplitCommand(env.command.value, Given(s.proxyKeyword))
      case Blank => Crash
      case NoProxyHost => Refusal
      case Command(host, proxy, args) => AskHost(env, s, host, proxy, args)
  }

  /** A text that loading has set. */
  function Given(v: Option<string>): string {
    if v.Some? then v.value else ""
  }

  /** The client's address: the first word of SSH_CLIENT, if there is one. */
  function RemoteHost(env: Environment): Option<string> {
    if env.sshClient.None? || Skip(env.sshClient.value, " ") == "" then None
    else Some(FirstToken(env.sshClient.value, " "))
  }

  // ---------------------------------------------------------------------------
  // The decision
  // ---------------------------------------------------------------------------

  function ConfigOf(env: Environment): Option<string> {
    Contents(env.files, Some(if env.configFile.Some? then env.configFile.value else DEFAULT_CONFIG_FILE))
  }

  predicate CountryAllowed(env: Environment, s: Settings, countries: string) {
    RemoteHost(env).None? ||
    GeoIp.Allowed(env.world, RemoteHost(env).value, Some(countries), ",", Given(s.geoIpDat), Given(s.geoIp6Dat))
  }

  ghost function UserAuth(env: Environment, s: Settings, r: Request): int {
    AuthDecision(s, env.user, r.name, r.mode, env.files, env.directory)
  }

  /** The variable auth after the country check, which overwrites any non-zero value. */
  ghost function FinalAuth(env: Environment, s: Settings, r: Request, countries: string): int {
    var auth := UserAuth(env, s, r);
    if auth != 0 && RemoteHost(env).Some? then
      if CountryAllowed(env, s, countries) then 1 else 0
    else auth
  }

  /** The listed name as the exec vector has it: trimmed if the users file was read. */
  function Target(env: Environment, s: Settings, r: Request): string {
    if ReadsUsers(s, r.mode, env.files) then Trimmed(r.name) else r.name
  }

  function Vector(s: Settings, r: Request, target: string, port: string): seq<string> {
    if r.proxy then [Given(s.ncPath), "-w", Given(s.ncTimeout), target, port]
    else [Given(s.sshPath), "-p", port, "-q", target, "--"] + if r.args.Some? then [r.args.value] else []
  }

  /** What becomes of a request for a listed host. */
  ghost function Serve(env: Environment, s: Settings, r: Request, h: Hosts.Host): Outcome {
    if FinalAuth(env, s, r, h.countries) == 0 then Stopped(EXIT_SUCCESS)
    else if !r.proxy && !env.tty && r.args.None? then Stopped(EXIT_FAILURE)
    else Executed(Vector(s, r, Target(env, s, r), h.port))
  }

  ghost function Answer(env: Environment, s: Settings, asked: Asked): Outcome {
    match asked
    case Crash => Undefined
    case Refusal => Stopped(EXIT_FAILURE)
    case Ask(r) =>
      match Hosts.Lookup(Contents(env.files, s.hostsFile), r.name)
      case None => Stopped(EXIT_FAILURE)
      case Some(h) => Serve(env, s, r, h)
  }

  /** The outcome of a run. */
  ghost function Decide(env: Environment): Outcome {
    match Load(ConfigOf(env))
    case None => Stopped(EXIT_FAILURE)
    case Some(s) => Answer(env, s, RequestOf(env, s))
  }

  // ---------------------------------------------------------------------------
  // main
  // ---------------------------------------------------------------------------

  /** The first word of a variable that may be unset. */
  method FirstWord(text: Option<string>) returns (word: Option<string>)
    requires text.Some? ==> NoNul(text.value)
    ensures word == if text.None? || Skip(text.value, " ") == "" then None else Some(FirstToken(text.value, " "))
  {
    hide Skip, FirstToken, AfterToken;
    if text.None? {
      return None;
    }
    var a := FromString(text.value);
    var tok, _ := StrTok(a, 0, " ", text.value);
    if tok.None? {
      return None;
    }
    var w := StrDup(a, tok.value, FirstToken(text.value, " "));
    word := Some(w);
  }

  lemma NoDelimiters(v: string)
    ensures Skip(v, "") == v && FirstToken(v, "") == v
  {
    SpanIs(v, "", 0);
    FindIs(v, "", |v|);
    hide Span, Find;
  }

  /** A first `strtok` on a string, which from then on is its first token with what stood
      before it. */
  method CutFirst(a: array<char>, ds: string, ghost c: string) returns (first: Option<nat>, save: nat)
    requires Str(a, 0, c) && NUL !in ds
    modifies a
    ensures first.None? <==> Skip(c, ds) == ""
    ensures first.Some? ==>
      && Str(a, 0, Shown(c, ds))
      && first.value + |FirstToken(c, ds)| == |Shown(c, ds)|
      && Str(a, first.value, FirstToken(c, ds))
      && Str(a, save, AfterToken(c, ds))
      && |Shown(c, ds)| <= save && (AfterToken(c, ds) != "" ==> |Shown(c, ds)| < save)
  {
    hide Skip, FirstToken, AfterToken, Shown, Find, Span;
    first, save := StrTok(a, 0, ds, c);
    if first.Some? {
      ShownParts(c, ds);
      ghost var shown := Shown(c, ds);
      StrChar(a, first.value, FirstToken(c, ds), |FirstToken(c, ds)|);
      assert forall i :: 0 <= i < |shown| ==> shown[i] == c[i] && a[i] == old(a[i]);
    }
  }

  lemma ShownParts(c: string, ds: string)
    ensures |Shown(c, ds)| == Span(c, ds) + |FirstToken(c, ds)| && Shown(c, ds) <= c
  {
    hide Find, Span;
  }

  /** The split of the command string in its buffer. */
  method SplitCommandLine(a: array<char>, keyword: string, ghost c: string) returns (r: Command)
    requires Str(a, 0, c)
    modifies a
    ensures r == SplitCommand(c, keyword)
    ensures r != Blank ==> Str(a, 0, Shown(c, " "))
    ensures r.Command? ==> NoNul(r.host) && (r.args.Some? ==> NoNul(r.args.value))
  {
    hide Skip, FirstToken, AfterToken, Shown;
    var first: Option<nat>, save: nat := CutFirst(a, " ", c);
    if first.None? {
      return Blank;
    }
    ghost var rest := AfterToken(c, " ");
    var host := StrDup(a, first.value, FirstToken(c, " "));
    Hosts.StrHasNoNul(a, first.value, host);
    if host == keyword {
      var second, _ := StrTok(a, save, " ", rest);
      EmptyHasNoToken(rest);
      if second.None? {
        return NoProxyHost;
      }
      host := StrDup(a, second.value, FirstToken(rest, " "));
      Hosts.StrHasNoNul(a, second.value, host);
      return Command(host, true, None);
    }
    NoDelimiters(rest);
    var args, _ := StrTok(a, save, "", rest);
    if args.None? {
      return Command(host, false, None);
    }
    var text := StrDup(a, args.value, rest);
    Hosts.StrHasNoNul(a, args.value, text);
    return Command(host, false, Some(text));
  }

  lemma EmptyHasNoToken(v: string)
    ensures Skip(v, " ") != "" ==> v != ""
  {
  }

  /** Copies the last n characters of the string w over its first ones, without a NUL. */
  method CopyToFront(a: array<char>, p: nat, n: nat, ghost w: string, ghost t: string)
    requires Str(a, 0, w) && Str(a, p, t) && n == |t| && p + n == |w|
    modifies a
    ensures Str(a, 0, t + w[n..])
  {
    ghost var r := t + w[n..];
    MemMoveDown(a, 0, p, n);
    forall i | 0 <= i < |r| ensures r[i] == a[0 + i] && r[i] != NUL {
      if i < n {
        assert a[i] == old(a[i + p]) && t[i] == old(a[p + i]);
      } else {
        assert r[i] == w[i];
      }
    }
  }

  /** Cuts the host at its first dot and copies the part found to the start of the buffer; false
      when the host is dots only. */
  method KeepHostname(a: array<char>, ghost h: string) returns (ok: bool)
    requires Str(a, 0, h)
    modifies a
    ensures ok == Hostname(h).Some?
    ensures ok ==> Str(a, 0, Hostname(h).value)
  {
    hide Skip, FirstToken, AfterToken, Shown;
    var tok: Option<nat>, save: nat := CutFirst(a, ".", h);
    if tok.None? {
      return false;
    }
    var n := StrLen(a, tok.value, FirstToken(h, "."));
    CopyToFront(a, tok.value, n, Shown(h, "."), FirstToken(h, "."));
    ok := true;
  }

  /** Fills the exec vector; every index stays inside it and it ends in a NULL. */
  method BuildVector(s: Settings, r: Request, target: string, port: string)
    returns (newargv: array<Option<string>>, newargc: nat)
    ensures fresh(newargv) && newargv.Length == 12
    ensures newargc == |Vector(s, r, target, port)| < newargv.Length
    ensures forall i :: 0 <= i < newargc ==> newargv[i] == Some(Vector(s, r, target, port)[i])
    ensures newargv[newargc] == None
  {
    hide Given;
    newargv := new Option<string>[NEWARGV_SIZE](_ => None);
    newargc := 0;
    if r.proxy {
      newargc := Put(newargv, newargc, Given(s.ncPath), []);
      newargc := Put(newargv, newargc, "-w", [Given(s.ncPath)]);
      newargc := Put(newargv, newargc, Given(s.ncTimeout), [Given(s.ncPath), "-w"]);
      newargc := Put(newargv, newargc, target, [Given(s.ncPath), "-w", Given(s.ncTimeout)]);
      newargc := Put(newargv, newargc, port, [Given(s.ncPath), "-w", Given(s.ncTimeout), target]);
      newargv[newargc] := None;
    } else {
      newargc := Put(newargv, newargc, Given(s.sshPath), []);
      newargc := Put(newargv, newargc, "-p", [Given(s.sshPath)]);
      newargc := Put(newargv, newargc, port, [Given(s.sshPath), "-p"]);
      newargc := Put(newargv, newargc, "-q", [Given(s.sshPath), "-p", port]);
      newargc := Put(newargv, newargc, target, [Given(s.sshPath), "-p", port, "-q"]);
      newargc := Put(newargv, newargc, "--", [Given(s.sshPath), "-p", port, "-q", target]);
      newargv[newargc] := None;
      if r.args.Some? {
        newargc := Put(newargv, newargc, r.args.value, [Given(s.sshPath), "-p", port, "-q", target, "--"]);
        newargv[newargc] := None;
      }
    }
  }

  /** Puts one more string behind the strings w. */
  method Put(newargv: array<Option<string>>, n: nat, arg: string, ghost w: seq<string>) returns (newargc: nat)
    requires n < newargv.Length && Begins(newargv, n, w)
    modifies newargv
    ensures newargc == n + 1 && Begins(newargv, newargc, w + [arg])
  {
    newargv[n] := Some(arg);
    newargc := n + 1;
  }

  /** The first n strings of the vector. */
  ghost predicate Begins(newargv: array<Option<string>>, n: nat, w: seq<string>)
    reads newargv
  {
    n == |w| <= newargv.Length && forall i :: 0 <= i < n ==> newargv[i] == Some(w[i])
  }

  /** The strings of a vector before its NULL. */
  method ReadVector(newargv: array<Option<string>>, newargc: nat, ghost w: seq<string>) returns (v: seq<string>)
    requires newargc == |w| <= newargv.Length
    requires forall i :: 0 <= i < newargc ==> newargv[i] == Some(w[i])
    ensures v == w
  {
    v := [];
    for c := 0 to newargc
      invariant v == w[..c]
    {
      v := v + [newargv[c].value];
    }
  }

  /** The vector handed to execvp, and its rendering for the log. */
  method Execute(s: Settings, r: Request, target: string, port: string) returns (outcome: Outcome)
    requires NoNul(target) && NoNul(port) && (r.args.Some? ==> NoNul(r.args.value))
    requires ConfigProofs.Sound(s)
    ensures outcome == Executed(Vector(s, r, target, port))
  {
    hide Vector, ConfigProofs.Sound;
    var newargv, newargc := BuildVector(s, r, target, port);
    var v := ReadVector(newargv, newargc, Vector(s, r, target, port));
    VectorHasNoNuls(s, r, target, port);
    var newcmdline := CommandLine.Concatenate(v);
    outcome := Executed(v);
  }

  lemma VectorHasNoNuls(s: Settings, r: Request, target: string, port: string)
    requires NoNul(target) && NoNul(port) && (r.args.Some? ==> NoNul(r.args.value))
    requires ConfigProofs.Sound(s)
    ensures CommandLine.NoNuls(Vector(s, r, target, port)) && Vector(s, r, target, port) != []
  {
    hide Atoi;
    assert s.Str(NcPath) == s.ncPath && s.Str(NcTimeout) == s.ncTimeout && s.Str(SshPath) == s.sshPath;
  }

  /** The mode auth_user is asked for: a command string that starts the host is a bastion request. */
  method ChooseMode(env: Environment, cval: array?<char>, host: array<char>, ghost name: string)
    returns (mode: int)
    requires cval == null <==> env.command.None?
    requires cval != null ==> Str(cval, 0, Shown(env.command.value, " "))
    requires Str(host, 0, name)
    ensures mode == ModeOf(env.command, name)
  {
    if cval == null {
      return AUTH_BASTION;
    }
    var same := StartsWith(cval, 0, host, 0, Shown(env.command.value, " "), name);
    mode := if same then AUTH_BASTION else AUTH_PROXY;
  }

  /** auth_user and, for a remote client, the check of its country. */
  method Authorize(env: Environment, s: Settings, r: Request, he: Hosts.HostEntry, ghost h: Hosts.Host)
    returns (auth: int)
    requires Proper(env) && ConfigProofs.Sound(s)
    requires he.Holds(h) && h.name == r.name
    modifies he.host, he.countries
    ensures auth == FinalAuth(env, s, r, h.countries)
    ensures he.host != null && Str(he.host, 0, Target(env, s, r))
    ensures he.port != null && Str(he.port, 0, h.port)
  {
    hide Trimmed, AuthDecision, GeoIp.Allowed, ConfigProofs.Sound, ReadsUsers;
    var user := FromString(env.user);
    var rhost := FirstWord(env.sshClient);
    hide Skip, FirstToken;
    TagIsString(s);
    auth := AuthUser(s, user, he.host, r.mode, env.files, env.directory, env.user, h.name);
    if auth != 0 && he.countries != null && rhost.Some? {
      auth := GeoIp.IsFromValidCountry(rhost.value, he.countries, Some(","), env.world,
                                       Given(s.geoIpDat), Given(s.geoIp6Dat), h.countries);
    }
  }

  lemma TagIsString(s: Settings)
    requires ConfigProofs.Sound(s)
    ensures s.authorizedServiceTag.Some? ==> NoNul(s.authorizedServiceTag.value)
  {
    assert s.Str(AuthorizedServiceTag) == s.authorizedServiceTag;
  }

  /** What follows the authorization of a request for a listed host. */
  method ServeHost(env: Environment, s: Settings, r: Request, he: Hosts.HostEntry, ghost h: Hosts.Host)
    returns (outcome: Outcome)
    requires Proper(env) && ConfigProofs.Sound(s) && (r.args.Some? ==> NoNul(r.args.value))
    requires he.Holds(h) && h.name == r.name
    modifies he.host, he.countries
    ensures outcome == Serve(env, s, r, h)
  {
    hide Target, FinalAuth, ConfigProofs.Sound, Vector;
    var auth := Authorize(env, s, r, he, h);
    if auth == 0 {
      return Stopped(EXIT_SUCCESS);
    }
    if !r.proxy && !env.tty && r.args.None? {
      return Stopped(EXIT_FAILURE);
    }
    var target := StrDup(he.host, 0, Target(env, s, r));
    var port := StrDup(he.port, 0, h.port);
    Hosts.StrHasNoNul(he.host, 0, target);
    Hosts.StrHasNoNul(he.port, 0, port);
    outcome := Execute(s, r, target, port);
  }

  /** From the host in options.host on. */
  method Session(env: Environment, o: Options, he: Hosts.HostEntry, cval: array?<char>, proxy: bool,
                 args: Option<string>, ghost host: string)
    returns (outcome: Outcome)
    requires Proper(env) && ConfigProofs.Sound(o.settings) && (args.Some? ==> NoNul(args.value))
    requires o.host != null && o.host != cval && Str(o.host, 0, host)
    requires he.Empty()
    requires cval == null <==> env.command.None?
    requires cval != null ==> Str(cval, 0, Shown(env.command.value, " "))
    modifies o.host, he
    ensures outcome == Answer(env, o.settings, AskHost(env, o.settings, host, proxy, args))
    ensures o.settings == old(o.settings)
  {
    hide Hostname, Hosts.Lookup, Serve, ConfigProofs.Sound, ModeOf, Shown;
    if o.settings.allowFqdn == 0 {
      var ok := KeepHostname(o.host, host);
      if !ok {
        return Undefined;
      }
    }
    ghost var text := if o.settings.allowFqdn == 0 then Hostname(host).value else host;
    var name := StrDup(o.host, 0, text);
    Hosts.StrHasNoNul(o.host, 0, name);
    HostsFileGiven(o.settings);
    var found := he.Get(Some(name), o.settings.hostsFile, env.files, None);
    if !found {
      return Stopped(EXIT_FAILURE);
    }
    var mode := ChooseMode(env, cval, o.host, name);
    ghost var h := Hosts.Lookup(Contents(env.files, o.settings.hostsFile), name).value;
    Hosts.AnswerName(Contents(env.files, o.settings.hostsFile), name);
    outcome := ServeHost(env, o.settings, Request(name, proxy, args, mode), he, h);
  }

  lemma HostsFileGiven(s: Settings)
    requires ConfigProofs.Sound(s)
    ensures s.hostsFile.Some?
  {
    assert s.Str(HostsFile) == s.hostsFile && DefaultString(HostsFile).Some?;
  }

  /** From the loaded options on: the command string is split, and options.host filled from it
      or from the prompt. */
  method Start(env: Environment, o: Options, he: Hosts.HostEntry) returns (outcome: Outcome)
    requires Proper(env) && ConfigProofs.Sound(o.settings) && he.Empty()
    modifies o`host, he
    ensures outcome == Answer(env, o.settings, RequestOf(env, o.settings))
  {
    hide SplitCommand, ConfigProofs.Sound, Shown, AskHost, Hosts.Lookup, Serve;
    if env.command.None? {
      o.host := FromString(env.prompt);
      outcome := Session(env, o, he, null, false, None, env.prompt);
    } else {
      var cval := FromString(env.command.value);
      var c := SplitCommandLine(cval, Given(o.settings.proxyKeyword), env.command.value);
      match c
      case Blank => outcome := Undefined;
      case NoProxyHost => outcome := Stopped(EXIT_FAILURE);
      case Command(host, proxy, args) =>
        o.host := FromString(host);
        outcome := Session(env, o, he, cval, proxy, args, host);
    }
  }

  lemma LoadedNeedsFile(file: Option<string>)
    ensures Load(file).Some? ==> file.Some?
  {
  }

  /** `main` */
  method Run(env: Environment, o: Options, he: Hosts.HostEntry) returns (outcome: Outcome)
    requires Proper(env) && he.Empty()
    modifies o, he
    ensures outcome == Decide(env)
    ensures outcome.Stopped? ==> o.AllStringsNull() && he.Empty()
  {
    hide Load, SplitCommand, ConfigProofs.Sound, Shown, AskHost, Answer;
    var r := o.ReadConfigFile(ConfigOf(env));
    if r == 0 {
      he.Free();
      return Stopped(EXIT_FAILURE);
    }
    LoadedNeedsFile(ConfigOf(env));
    ConfigProofs.LoadedSettings(ConfigOf(env).value);
    var cmdline := CommandLine.Concatenate(env.argv);
    outcome := Start(env, o, he);
    if outcome.Stopped? {
      he.Free();
      o.FreeOptions();
    }
  }
}
