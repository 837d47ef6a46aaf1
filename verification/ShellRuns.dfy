/** Concrete runs of the shell. */
module ShellRuns {
  import opened Text
  import opened Config
  import ConfigRoundTrip
  import opened AuthLocal
  import opened AuthLdap
  import opened Auth
  import opened Shell
  import opened ShellSafety
  import GeoIp
  import Hosts
  import HostsTable
  import UsersTable

  /** Default settings, one host, and alice, who may go there but has no mark; someone runs the
      shell with a command string or answers the prompt. */
  function OneHost(user: string, command: Option<string>, row: HostsTable.Row, world: GeoIp.World,
                   directory: Directory): Environment {
    Environment(["stonesh"], command, None, user, Some("10.0.0.1 50000 22"), row.name, true,
      map["/etc/stonesh/stonesh.conf" := "",
          "/etc/stonesh/hosts.lst" := Written(HostsTable.RowTexts([row])),
          "/etc/stonesh/users.lst" := UsersTable.TableText([UsersTable.AliceRow(row.name)])],
      world, directory)
  }

  predicate Suitable(row: HostsTable.Row) {
    && HostsTable.CleanRow(row) && !row.WithCountries?
    && UsersTable.CleanEntry(UsersTable.Entry(row.name, false)) && |row.name| < 1000
  }

  lemma OneHostIsInstalled(user: string, command: Option<string>, row: HostsTable.Row, world: GeoIp.World,
                           directory: Directory)
    requires Suitable(row)
    ensures Installed(OneHost(user, command, row, world, directory), [], [row])
    ensures UsersInstalled(OneHost(user, command, row, world, directory), [], [UsersTable.AliceRow(row.name)])
  {
    hide UsersTable.TableText, HostsTable.RowTexts, HostsTable.CleanRow;
    UsersTable.AliceRowIsClean(row.name);
    ConfigOfRun(OneHost(user, command, row, world, directory), "/etc/stonesh/stonesh.conf");
    assert Written(ConfigRoundTrip.Rows([])) == "";
  }

  /** The settings that nothing was written for. */
  predicate AllDefault(s: Settings) {
    && s.allowFqdn == 0 && s.enableProxy == 0
    && s.sshPath == Some("/usr/bin/ssh") && s.ncPath == Some("/bin/nc") && s.ncTimeout == Some("1")
    && s.proxyKeyword == Some("direct")
    && s.hostsFile == Some("/etc/stonesh/hosts.lst") && s.usersFile == Some("/etc/stonesh/users.lst")
  }

  lemma OneHostSettings(user: string, command: Option<string>, row: HostsTable.Row, world: GeoIp.World,
                        directory: Directory)
    returns (s: Settings)
    ensures Load(ConfigOf(OneHost(user, command, row, world, directory))) == Some(s)
    ensures s.authType == AUTH_TYPE_LOCAL && AllDefault(s)
  {
    hide Load;
    ConfigOfRun(OneHost(user, command, row, world, directory), "/etc/stonesh/stonesh.conf");
    ConfigRoundTrip.EmptyFile();
    s := Load(Some("")).value;
    assert s.Flag(AllowFqdn) == s.allowFqdn && s.Flag(EnableProxy) == s.enableProxy;
  }

  /** Who is listed for the one host. */
  lemma OneHostIsListed(user: string, row: HostsTable.Row)
    requires Suitable(row) && user in {"alice", "bob"}
    ensures Trimmed(user) == user && Trimmed(row.name) == row.name
    ensures UsersTable.FirstAllows([UsersTable.AliceRow(row.name)], user, row.name, 0) <==> user == "alice"
  {
    hide Trimmed;
    TidyIsTrimmed(user);
    TidyIsTrimmed(row.name);
    var t := [UsersTable.AliceRow(row.name)];
    assert PrefixCI("alice", t[0].user) && UsersTable.FirstExtending(t[0].entries, row.name, 0) && |t| == 1;
    assert !PrefixCI("bob", t[0].user);
  }

  function PortOf(row: HostsTable.Row): string {
    if row.HostOnly? || row.port == "" then "22" else row.port
  }

  lemma OneHostFields(user: string, command: Option<string>, row: HostsTable.Row, world: GeoIp.World,
                      directory: Directory)
    requires Suitable(row)
    ensures var env := OneHost(user, command, row, world, directory);
      env.user == user && env.tty && "/etc/stonesh/users.lst" in env.files
    ensures HostsTable.FindRow([row], row.name) == Some(Hosts.Host(row.name, PortOf(row), ""))
  {
  }

  /** What an ordinary request for the one host ends in. */
  lemma OneHostOutcome(user: string, command: Option<string>, row: HostsTable.Row, world: GeoIp.World,
                       directory: Directory, s: Settings, r: Request)
    requires Suitable(row) && user in {"alice", "bob"}
    requires var env := OneHost(user, command, row, world, directory);
      Load(ConfigOf(env)) == Some(s) && RequestOf(env, s) == Ask(r)
    requires r.name == row.name && r.mode == AUTH_BASTION
    ensures Decide(OneHost(user, command, row, world, directory)) ==
            if user == "bob" then Stopped(0)
            else Executed(
              if r.proxy then ["/bin/nc", "-w", "1", row.name, PortOf(row)]
              else if r.args.None? then ["/usr/bin/ssh", "-p", PortOf(row), "-q", row.name, "--"]
              else ["/usr/bin/ssh", "-p", PortOf(row), "-q", row.name, "--", r.args.value])
  {
    var env := OneHost(user, command, row, world, directory);
    var users := [UsersTable.AliceRow(row.name)];
    hide Load, RequestOf, Installed, UsersInstalled, Trimmed, Decide, OneHost, Suitable, UsersTable.FirstAllows,
      Hosts.Lookup, HostsTable.FindRow, UserAuth, ConfigOf, UsersTable.AliceRow, CountryAllowed, PortOf;
    OneHostIsInstalled(user, command, row, world, directory);
    OneHostIsListed(user, row);
    OneHostFields(user, command, row, world, directory);
    var h := Hosts.Host(row.name, PortOf(row), "");
    var loaded := OneHostSettings(user, command, row, world, directory);
    InstalledLookup(env, [], [row], s, row.name);
    LocalAuth(env, [], [row], users, s, r);
    NoCountries(env, s);
    ReachedOutcome(env, s, r, h);
    if user == "alice" { ExecutedVector(env, s, r, h); }
  }

  lemma PromptRequest(env: Environment, s: Settings)
    requires env.command.None? && env.prompt != "" && '.' !in env.prompt
    ensures RequestOf(env, s) == Ask(Request(env.prompt, false, None, AUTH_BASTION))
  {
    PlainHostname(env.prompt, "");
  }

  lemma RowsAreSuitable()
    ensures Suitable(HostsTable.HostOnly("web1")) && Suitable(HostsTable.HostOnly("direct1"))
    ensures Suitable(HostsTable.WithPort("web1", "2222"))
  {
    HostRowIsSuitable("web1");
    HostRowIsSuitable("direct1");
    PortRowIsSuitable("web1", "2222");
  }

  predicate Letters(v: string) {
    v != "" && |v| < 100 && forall i :: 0 <= i < |v| ==> 'a' <= v[i] <= 'z' || '0' <= v[i] <= '9'
  }

  lemma HostRowIsSuitable(n: string)
    requires Letters(n)
    ensures Suitable(HostsTable.HostOnly(n))
  {
  }

  lemma PortRowIsSuitable(n: string, p: string)
    requires Letters(n) && Letters(p)
    ensures Suitable(HostsTable.WithPort(n, p))
  {
  }

  /** alice answers the prompt: this run ends in an ssh to web1. */
  lemma AliceReachesWeb(world: GeoIp.World, directory: Directory)
    ensures Decide(OneHost("alice", None, HostsTable.HostOnly("web1"), world, directory))
            == Executed(["/usr/bin/ssh", "-p", "22", "-q", "web1", "--"])
  {
    hide Decide, OneHost;
    PromptRun("alice", world, directory);
  }

  /** bob, who is not in the users file, is told nothing by the status: it is that of success. */
  lemma BobIsRefused(world: GeoIp.World, directory: Directory)
    ensures Decide(OneHost("bob", None, HostsTable.HostOnly("web1"), world, directory)) == Stopped(0)
  {
    hide Decide, OneHost;
    PromptRun("bob", world, directory);
  }

  lemma PromptRun(user: string, world: GeoIp.World, directory: Directory)
    requires user in {"alice", "bob"}
    ensures Decide(OneHost(user, None, HostsTable.HostOnly("web1"), world, directory)) ==
            if user == "bob" then Stopped(0) else Executed(["/usr/bin/ssh", "-p", "22", "-q", "web1", "--"])
  {
    var row := HostsTable.HostOnly("web1");
    var env := OneHost(user, None, row, world, directory);
    assert env.command.None? && env.prompt == "web1" && PortOf(row) == "22";
    hide Suitable, Load, Decide, RequestOf, OneHost, ConfigOf, PortOf;
    RowsAreSuitable();
    var s := OneHostSettings(user, None, row, world, directory);
    PromptRequest(env, s);
    OneHostOutcome(user, None, row, world, directory, s, Request("web1", false, None, AUTH_BASTION));
  }

  lemma UptimeRequest(env: Environment, s: Settings)
    requires env.command == Some("web1 uptime -p") && s.proxyKeyword == Some("direct") && s.allowFqdn == 0
    ensures RequestOf(env, s) == Ask(Request("web1", false, Some("uptime -p"), AUTH_BASTION))
  {
    assert "web1" + " " + "uptime -p" == "web1 uptime -p";
    hide RequestOf;
    RemoteCommandRequest(env, s, "web1", "uptime -p");
  }

  lemma UptimeFields(world: GeoIp.World, directory: Directory)
    ensures var row := HostsTable.WithPort("web1", "2222");
      && OneHost("alice", Some("web1 uptime -p"), row, world, directory).command == Some("web1 uptime -p")
      && PortOf(row) == "2222"
  {
  }

  /** alice gives a command: it is the last argument, and the port that of the table. */
  lemma AliceRunsUptime(world: GeoIp.World, directory: Directory)
    ensures Decide(OneHost("alice", Some("web1 uptime -p"), HostsTable.WithPort("web1", "2222"), world, directory))
            == Executed(["/usr/bin/ssh", "-p", "2222", "-q", "web1", "--", "uptime -p"])
  {
    var row, command := HostsTable.WithPort("web1", "2222"), Some("web1 uptime -p");
    var env := OneHost("alice", command, row, world, directory);
    UptimeFields(world, directory);
    hide Suitable, Load, Decide, RequestOf, OneHost, ConfigOf, PortOf;
    RowsAreSuitable();
    var s := OneHostSettings("alice", command, row, world, directory);
    UptimeRequest(env, s);
    OneHostOutcome("alice", command, row, world, directory, s, Request("web1", false, Some("uptime -p"), AUTH_BASTION));
  }

  lemma KeywordRequest(env: Environment, s: Settings)
    requires env.command == Some("direct direct1") && s.proxyKeyword == Some("direct")
    ensures RequestOf(env, s) == Ask(Request("direct1", true, None, AUTH_BASTION))
  {
    assert "direct" + "1" == "direct1" && "direct" + " " + "direct1" == "direct direct1";
    hide RequestOf;
    KeywordHostMode(env, s, "1");
  }

  /** alice has no mark for the host and proxying is off, and still nc is started. */
  lemma KeywordHostIsProxied(world: GeoIp.World, directory: Directory)
    ensures var env := OneHost("alice", Some("direct direct1"), HostsTable.HostOnly("direct1"), world, directory);
      && Load(ConfigOf(env)).Some? && Load(ConfigOf(env)).value.enableProxy == 0
      && Decide(env) == Executed(["/bin/nc", "-w", "1", "direct1", "22"])
  {
    var row, command := HostsTable.HostOnly("direct1"), Some("direct direct1");
    var env := OneHost("alice", command, row, world, directory);
    assert env.command == command && PortOf(row) == "22";
    hide Suitable, Load, Decide, RequestOf, OneHost, ConfigOf, PortOf;
    RowsAreSuitable();
    var s := OneHostSettings("alice", command, row, world, directory);
    KeywordRequest(env, s);
    OneHostOutcome("alice", command, row, world, directory, s, Request("direct1", true, None, AUTH_BASTION));
  }
}
