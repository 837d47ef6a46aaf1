/** What a configuration file means: the effect of one line, the fold over the lines and the
    defaults (readconf.c, readconf.h). */
module Config {
  import opened Text
  import Delim

  datatype FlagKey =
    | Debug | LogToStderr | UseLdap | EnableProxy
    | DisableAuthorization | DisableProxyAuthorization | AllowFqdn

  datatype StringKey =
    | AuthorizedServiceTag | ProxyKeyword | LdapUri | LdapBase | HostsFile | UsersFile
    | SshPath | NcPath | NcTimeout | GeoIpDat | GeoIp6Dat

  datatype OpCode = BadOption | FlagOption(flag: FlagKey) | StringOption(key: StringKey)

  const KEYWORDS: seq<(string, OpCode)> := [
    ("authorizedservicetag", StringOption(AuthorizedServiceTag)),
    ("allowfqdn", FlagOption(AllowFqdn)),
    ("debug", FlagOption(Debug)),
    ("logtostderr", FlagOption(LogToStderr)),
    ("useldap", FlagOption(UseLdap)),
    ("proxykeyword", StringOption(ProxyKeyword)),
    ("ldapuri", StringOption(LdapUri)),
    ("ldapbase", StringOption(LdapBase)),
    ("hostsfile", StringOption(HostsFile)),
    ("usersfile", StringOption(UsersFile)),
    ("enableproxy", FlagOption(EnableProxy)),
    ("disableauthorization", FlagOption(DisableAuthorization)),
    ("disableproxyauthorization", FlagOption(DisableProxyAuthorization)),
    ("sshpath", StringOption(SshPath)),
    ("ncpath", StringOption(NcPath)),
    ("nctimeout", StringOption(NcTimeout)),
    ("geoip", StringOption(GeoIpDat)),
    ("geoip6", StringOption(GeoIp6Dat))
  ]

  const AUTH_TYPE_ANY := 0
  const AUTH_TYPE_LOCAL := 1
  const AUTH_TYPE_LDAP := 2

  const UNSET := -1

  /** The options a file can set, and auth_type, which is derived.  A flag is UNSET, 0 or 1
      and a string is NULL or a text. */
  datatype Settings = Settings(
    debug: int,
    logToStderr: int,
    useLdap: int,
    enableProxy: int,
    disableAuthorization: int,
    disableProxyAuthorization: int,
    allowFqdn: int,
    authType: int,
    authorizedServiceTag: Option<string>,
    proxyKeyword: Option<string>,
    ldapUri: Option<string>,
    ldapBase: Option<string>,
    hostsFile: Option<string>,
    usersFile: Option<string>,
    sshPath: Option<string>,
    ncPath: Option<string>,
    ncTimeout: Option<string>,
    geoIpDat: Option<string>,
    geoIp6Dat: Option<string>)
  {
    function Flag(k: FlagKey): int {
      match k
      case Debug => debug
      case LogToStderr => logToStderr
      case UseLdap => useLdap
      case EnableProxy => enableProxy
      case DisableAuthorization => disableAuthorization
      case DisableProxyAuthorization => disableProxyAuthorization
      case AllowFqdn => allowFqdn
    }

    function Str(k: StringKey): Option<string> {
      match k
      case AuthorizedServiceTag => authorizedServiceTag
      case ProxyKeyword => proxyKeyword
      case LdapUri => ldapUri
      case LdapBase => ldapBase
      case HostsFile => hostsFile
      case UsersFile => usersFile
      case SshPath => sshPath
      case NcPath => ncPath
      case NcTimeout => ncTimeout
      case GeoIpDat => geoIpDat
      case GeoIp6Dat => geoIp6Dat
    }

    function WithFlag(k: FlagKey, v: int): Settings {
      match k
      case Debug => this.(debug := v)
      case LogToStderr => this.(logToStderr := v)
      case UseLdap => this.(useLdap := v)
      case EnableProxy => this.(enableProxy := v)
      case DisableAuthorization => this.(disableAuthorization := v)
      case DisableProxyAuthorization => this.(disableProxyAuthorization := v)
      case AllowFqdn => this.(allowFqdn := v)
    }

    function WithString(k: StringKey, t: string): Settings {
      match k
      case AuthorizedServiceTag => this.(authorizedServiceTag := Some(t))
      case ProxyKeyword => this.(proxyKeyword := Some(t))
      case LdapUri => this.(ldapUri := Some(t))
      case LdapBase => this.(ldapBase := Some(t))
      case HostsFile => this.(hostsFile := Some(t))
      case UsersFile => this.(usersFile := Some(t))
      case SshPath => this.(sshPath := Some(t))
      case NcPath => this.(ncPath := Some(t))
      case NcTimeout => this.(ncTimeout := Some(t))
      case GeoIpDat => this.(geoIpDat := Some(t))
      case GeoIp6Dat => this.(geoIp6Dat := Some(t))
    }
  }

  const NOTHING_SET := Settings(UNSET, UNSET, UNSET, UNSET, UNSET, UNSET, UNSET, UNSET,
                                None, None, None, None, None, None, None, None, None, None, None)

  // ---------------------------------------------------------------------------
  // One line
  // ---------------------------------------------------------------------------

  /** The opcode of the first keyword from i on that cp spells, whatever the case. */
  function OpcodeFrom(cp: string, i: nat): (r: OpCode)
    requires i <= |KEYWORDS|
    decreases |KEYWORDS| - i
  {
    if i == |KEYWORDS| then BadOption
    else if EqualCI(cp, KEYWORDS[i].0) then KEYWORDS[i].1
    else OpcodeFrom(cp, i + 1)
  }

  function Opcode(cp: string): OpCode {
    OpcodeFrom(cp, 0)
  }

  /** `atoi`: strtol saturates a 64-bit long, which is then cut to a 32-bit int. */
  function Atoi(v: string): int {
    Number(StripLeft(v))
  }

  /** The number a text without leading space begins with. */
  function Number(t: string): int {
    var negative := t != "" && t[0] == '-';
    var n: int := Digits(if t != "" && (t[0] == '-' || t[0] == '+') then t[1..] else t, 0);
    ToInt(if negative then 0 - n else n)
  }

  function Digits(v: string, acc: nat): nat {
    if v != "" && '0' <= v[0] <= '9' then Digits(v[1..], 10 * acc + (v[0] - '0') as nat) else acc
  }

  function ToInt(n: int): (r: int)
    ensures -0x8000_0000 <= r < 0x8000_0000
    ensures -0x8000_0000 <= n < 0x8000_0000 ==> r == n
  {
    var long := if n < -0x8000_0000_0000_0000 then -0x8000_0000_0000_0000
                else if n > 0x7fff_ffff_ffff_ffff then 0x7fff_ffff_ffff_ffff
                else n;
    (long + 0x8000_0000) % 0x1_0000_0000 - 0x8000_0000
  }

  datatype Change = NoChange | SetFlag(flag: FlagKey, value: int) | SetString(key: StringKey, text: string)

  /** What a line asks for, and the status the parser returns for it: 0 for a good line,
      1 for an unknown keyword, -1 to stop reading. */
  datatype Effect = Effect(change: Change, status: int)

  predicate Missing(arg: Option<string>) {
    arg.None? || arg.value == ""
  }

  /** A complete setting, provided nothing follows its argument. */
  function Finish(change: Change, rest: Option<string>): Effect {
    Effect(change, if Missing(Delim.SplitNext(rest).token) then 0 else -1)
  }

  /** What a yes/no argument stands for; None for any other text. */
  function YesNo(arg: string): Option<int> {
    if arg == "yes" || arg == "true" then Some(1)
    else if arg == "no" || arg == "false" then Some(0)
    else None
  }

  function FlagEffect(k: FlagKey, rest: Option<string>): Effect {
    var d := Delim.SplitNext(rest);
    if Missing(d.token) then Effect(NoChange, -1)
    else
      match YesNo(d.token.value)
      case None => Effect(SetFlag(k, 0), -1)
      case Some(v) => Finish(SetFlag(k, v), d.rest)
  }

  function StringEffect(k: StringKey, rest: Option<string>): Effect {
    var d := Delim.SplitNext(rest);
    if d.token.None? then Effect(NoChange, -1)
    else if d.token.value == "" || (k == NcTimeout && Atoi(d.token.value) <= 0) then
      Effect(SetString(k, d.token.value), -1)
    else Finish(SetString(k, d.token.value), d.rest)
  }

  function OptionEffect(op: OpCode, rest: Option<string>): Effect {
    match op
    case BadOption => Effect(NoChange, 1)
    case FlagOption(k) => FlagEffect(k, rest)
    case StringOption(k) => StringEffect(k, rest)
  }

  /** The effect of a line.  It depends on the line's text alone. */
  function LineEffect(line: string): Effect {
    var t := Trimmed(line);
    var d := Delim.Split(t);
    if t == "" || d.token.None? then Effect(NoChange, 0)
    else OptionEffect(Opcode(d.token.value), d.rest)
  }

  // ---------------------------------------------------------------------------
  // The whole file
  // ---------------------------------------------------------------------------

  /** A change fills an option that is still unset. */
  function Apply(s: Settings, c: Change): Settings {
    match c
    case NoChange => s
    case SetFlag(k, v) => if s.Flag(k) == UNSET then s.WithFlag(k, v) else s
    case SetString(k, t) => if s.Str(k).None? then s.WithString(k, t) else s
  }

  function Effects(lines: seq<string>): (es: seq<Effect>)
    ensures |es| == |lines| && forall i :: 0 <= i < |es| ==> es[i] == LineEffect(lines[i])
  {
    seq(|lines|, i requires 0 <= i < |lines| => LineEffect(lines[i]))
  }

  lemma EffectsOfFirst(line: string, lines: seq<string>)
    ensures Effects([line] + lines) == [LineEffect(line)] + Effects(lines)
  {
    hide LineEffect;
  }

  /** The settings after the effects were applied in order; one of status -1 is the last. */
  function Process(s: Settings, es: seq<Effect>): Settings
    decreases |es|
  {
    if es == [] then s
    else if es[0].status == -1 then Apply(s, es[0].change)
    else Process(Apply(s, es[0].change), es[1..])
  }

  /** How many bad lines are met before reading stops. */
  function BadLines(es: seq<Effect>): nat {
    if es == [] then 0
    else if es[0].status == -1 then 1
    else (if es[0].status != 0 then 1 else 0) + BadLines(es[1..])
  }

  lemma ProcessFirst(s: Settings, e: Effect, es: seq<Effect>)
    ensures Process(s, [e] + es) ==
            if e.status == -1 then Apply(s, e.change) else Process(Apply(s, e.change), es)
    ensures BadLines([e] + es) ==
            if e.status == -1 then 1 else (if e.status != 0 then 1 else 0) + BadLines(es)
  {
  }

  function DefaultString(k: StringKey): Option<string> {
    match k
    case AuthorizedServiceTag => Some("proxy")
    case ProxyKeyword => Some("direct")
    case LdapUri => None
    case LdapBase => None
    case HostsFile => Some("/etc/stonesh/hosts.lst")
    case UsersFile => Some("/etc/stonesh/users.lst")
    case SshPath => Some("/usr/bin/ssh")
    case NcPath => Some("/bin/nc")
    case NcTimeout => Some("1")
    case GeoIpDat => Some("/usr/share/GeoIP/GeoIP.dat")
    case GeoIp6Dat => Some("/usr/share/GeoIP/GeoIPv6.dat")
  }

  function Flagged(v: int): int { if v == UNSET then 0 else v }

  function Defaulted(v: Option<string>, k: StringKey): Option<string> {
    if v.None? then DefaultString(k) else v
  }

  function AuthTypeOf(s: Settings): int {
    if s.authType != UNSET then s.authType
    else if Flagged(s.disableAuthorization) == 1 then AUTH_TYPE_ANY
    else if Flagged(s.useLdap) == 1 then AUTH_TYPE_LDAP
    else AUTH_TYPE_LOCAL
  }

  function FillDefaults(s: Settings): Settings {
    Settings(
      Flagged(s.debug), Flagged(s.logToStderr), Flagged(s.useLdap), Flagged(s.enableProxy),
      Flagged(s.disableAuthorization), Flagged(s.disableProxyAuthorization), Flagged(s.allowFqdn),
      AuthTypeOf(s),
      Defaulted(s.authorizedServiceTag, AuthorizedServiceTag),
      Defaulted(s.proxyKeyword, ProxyKeyword),
      Defaulted(s.ldapUri, LdapUri),
      Defaulted(s.ldapBase, LdapBase),
      Defaulted(s.hostsFile, HostsFile),
      Defaulted(s.usersFile, UsersFile),
      Defaulted(s.sshPath, SshPath),
      Defaulted(s.ncPath, NcPath),
      Defaulted(s.ncTimeout, NcTimeout),
      Defaulted(s.geoIpDat, GeoIpDat),
      Defaulted(s.geoIp6Dat, GeoIp6Dat))
  }

  /** The settings of a configuration file; None when it cannot be opened or is refused. */
  function Load(file: Option<string>): Option<Settings> {
    if file.None? then None
    else
      var es := Effects(Lines(file.value));
      if BadLines(es) > 0 then None else Some(FillDefaults(Process(NOTHING_SET, es)))
  }
}
