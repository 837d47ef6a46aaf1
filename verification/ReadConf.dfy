/** The options record and the reader that fills it (readconf.c). */
module ReadConf {
  import opened Text
  import opened CBuffer
  import Delim
  import opened Config

  /** `parse_token` */
  method ParseToken(cp: string) returns (op: OpCode)
    ensures op == Opcode(cp)
  {
    var i := 0;
    while i < |KEYWORDS|
      invariant i <= |KEYWORDS| && Opcode(cp) == OpcodeFrom(cp, i)
    {
      if EqualCI(cp, KEYWORDS[i].0) {
        return KEYWORDS[i].1;
      }
      i := i + 1;
    }
    return BadOption;
  }

  /** The string comparisons of the flag branch. */
  method ParseYesNo(arg: string) returns (value: int, bad: bool)
    ensures bad == YesNo(arg).None?
    ensures value == if YesNo(arg).Some? then YesNo(arg).value else 0
  {
    value, bad := 0, false;
    if arg == "yes" || arg == "true" {
      value := 1;
    } else if arg == "no" || arg == "false" {
      value := 0;
    } else {
      bad := true;
    }
  }

  /** The global record: what a file can set, as one value, and the two fields main owns. */
  class Options {
    var settings: Settings
    var host: array?<char>
    var port: Option<string>

    predicate AllStringsNull()
      reads this
    {
      host == null && port.None? && forall k :: settings.Str(k).None?
    }

    /** `free_options` */
    method FreeOptions()
      modifies this
      ensures AllStringsNull()
      ensures forall k :: settings.Flag(k) == old(settings).Flag(k)
      ensures settings.authType == old(settings).authType
    {
      settings := settings.(ldapUri := None, ldapBase := None, ncPath := None, sshPath := None,
                            proxyKeyword := None, hostsFile := None, usersFile := None, ncTimeout := None,
                            authorizedServiceTag := None, geoIpDat := None, geoIp6Dat := None);
      host, port := null, None;
    }

    /** `initialize_options` */
    method InitializeOptions()
      modifies this
      ensures settings == NOTHING_SET && AllStringsNull()
    {
      settings := NOTHING_SET;
      host, port := null, None;
    }

    /** Sets the flag of k if it is still unset. */
    method SetFlagOnce(k: FlagKey, value: int)
      modifies this`settings
      ensures settings == Apply(old(settings), SetFlag(k, value))
    {
      match k
      case Debug => if settings.debug == UNSET { settings := settings.(debug := value); }
      case LogToStderr => if settings.logToStderr == UNSET { settings := settings.(logToStderr := value); }
      case UseLdap => if settings.useLdap == UNSET { settings := settings.(useLdap := value); }
      case EnableProxy => if settings.enableProxy == UNSET { settings := settings.(enableProxy := value); }
      case DisableAuthorization =>
        if settings.disableAuthorization == UNSET { settings := settings.(disableAuthorization := value); }
      case DisableProxyAuthorization =>
        if settings.disableProxyAuthorization == UNSET { settings := settings.(disableProxyAuthorization := value); }
      case AllowFqdn => if settings.allowFqdn == UNSET { settings := settings.(allowFqdn := value); }
    }

    /** Copies the argument into the string of k if that is still NULL. */
    method SetStringOnce(k: StringKey, arg: string)
      modifies this`settings
      ensures settings == Apply(old(settings), SetString(k, arg))
    {
      match k
      case AuthorizedServiceTag =>
        if settings.authorizedServiceTag.None? { settings := settings.(authorizedServiceTag := Some(arg)); }
      case ProxyKeyword => if settings.proxyKeyword.None? { settings := settings.(proxyKeyword := Some(arg)); }
      case LdapUri => if settings.ldapUri.None? { settings := settings.(ldapUri := Some(arg)); }
      case LdapBase => if settings.ldapBase.None? { settings := settings.(ldapBase := Some(arg)); }
      case HostsFile => if settings.hostsFile.None? { settings := settings.(hostsFile := Some(arg)); }
      case UsersFile => if settings.usersFile.None? { settings := settings.(usersFile := Some(arg)); }
      case SshPath => if settings.sshPath.None? { settings := settings.(sshPath := Some(arg)); }
      case NcPath => if settings.ncPath.None? { settings := settings.(ncPath := Some(arg)); }
      case NcTimeout => if settings.ncTimeout.None? { settings := settings.(ncTimeout := Some(arg)); }
      case GeoIpDat => if settings.geoIpDat.None? { settings := settings.(geoIpDat := Some(arg)); }
      case GeoIp6Dat => if settings.geoIp6Dat.None? { settings := settings.(geoIp6Dat := Some(arg)); }
    }

    /** The check for garbage at the end of the line. */
    method CheckEnd(line: array<char>, s: Option<nat>, ghost rest: Option<string>) returns (status: int)
      requires Delim.At(line, s, rest)
      modifies line
      ensures status == Finish(NoChange, rest).status
    {
      var arg, _ := Delim.StrDelim(line, s, rest);
      ghost var d := Delim.SplitNext(rest);
      if arg.Some? { StrChar(line, arg.value, d.token.value, 0); }
      status := if arg.Some? && line[arg.value] != NUL then -1 else 0;
    }

    /** The `parse_flag` branch. */
    method ParseFlag(k: FlagKey, line: array<char>, s: Option<nat>, ghost rest: Option<string>)
      returns (status: int)
      requires Delim.At(line, s, rest)
      modifies this`settings, line
      ensures status == FlagEffect(k, rest).status
      ensures settings == Apply(old(settings), FlagEffect(k, rest).change)
    {
      hide Delim.Split, YesNo;
      var tok, next := Delim.StrDelim(line, s, rest);
      ghost var d := Delim.SplitNext(rest);
      if tok.None? {
        return -1;
      }
      var arg := StrDup(line, tok.value, d.token.value);
      if arg == "" {
        return -1;
      }
      var value, bad := ParseYesNo(arg);
      SetFlagOnce(k, value);
      if bad {
        return -1;
      }
      status := CheckEnd(line, next, d.rest);
    }

    /** The `parse_string` branch, and the one for the timeout. */
    method ParseString(k: StringKey, line: array<char>, s: Option<nat>, ghost rest: Option<string>)
      returns (status: int)
      requires Delim.At(line, s, rest)
      modifies this`settings, line
      ensures status == StringEffect(k, rest).status
      ensures settings == Apply(old(settings), StringEffect(k, rest).change)
    {
      hide Delim.Split, Atoi;
      var tok, next := Delim.StrDelim(line, s, rest);
      ghost var d := Delim.SplitNext(rest);
      if tok.None? {
        return -1;
      }
      var arg := StrDup(line, tok.value, d.token.value);
      SetStringOnce(k, arg);
      if arg == "" || (k == NcTimeout && Atoi(arg) <= 0) {
        return -1;
      }
      status := CheckEnd(line, next, d.rest);
    }

    /** `process_config_line` */
    method ProcessConfigLine(line: array<char>, ghost v: string) returns (status: int)
      requires Str(line, 0, v)
      modifies this`settings, line
      ensures status == LineEffect(v).status
      ensures settings == Apply(old(settings), LineEffect(v).change)
    {
      hide Trimmed, Delim.Split, Opcode, OptionEffect;
      Trim(line, 0, v);
      ghost var t := Trimmed(v);
      StrChar(line, 0, t, 0);
      if line[0] == NUL {
        return 0;
      }
      var tok, s := Delim.StrDelim(line, Some(0), Some(t));
      ghost var d := Delim.Split(t);
      if tok.None? {
        return 0;
      }
      var keyword := StrDup(line, tok.value, d.token.value);
      var opcode := ParseToken(keyword);
      status := ProcessOption(opcode, line, s, d.rest);
    }

    /** The switch over the opcode. */
    method ProcessOption(opcode: OpCode, line: array<char>, s: Option<nat>, ghost rest: Option<string>)
      returns (status: int)
      requires Delim.At(line, s, rest)
      modifies this`settings, line
      ensures status == OptionEffect(opcode, rest).status
      ensures settings == Apply(old(settings), OptionEffect(opcode, rest).change)
    {
      match opcode
      case BadOption => status := 1;
      case FlagOption(k) => status := ParseFlag(k, line, s, rest);
      case StringOption(k) => status := ParseString(k, line, s, rest);
    }

    /** `fill_default_options` */
    method FillDefaultOptions()
      modifies this`settings
      ensures settings == FillDefaults(old(settings))
    {
      FillDefaultFlags();
      FillAccessFlags();
      FillDefaultNames();
      FillDefaultPrograms();
      FillDefaultDatabases();
    }

    method FillDefaultFlags()
      modifies this`settings
      ensures settings == old(settings).(
        debug := Flagged(old(settings).debug),
        logToStderr := Flagged(old(settings).logToStderr),
        enableProxy := Flagged(old(settings).enableProxy),
        allowFqdn := Flagged(old(settings).allowFqdn))
    {
      if settings.debug == UNSET { settings := settings.(debug := 0); }
      if settings.logToStderr == UNSET { settings := settings.(logToStderr := 0); }
      if settings.enableProxy == UNSET { settings := settings.(enableProxy := 0); }
      if settings.allowFqdn == UNSET { settings := settings.(allowFqdn := 0); }
    }

    method FillAccessFlags()
      modifies this`settings
      ensures settings == old(settings).(
        useLdap := Flagged(old(settings).useLdap),
        disableAuthorization := Flagged(old(settings).disableAuthorization),
        disableProxyAuthorization := Flagged(old(settings).disableProxyAuthorization),
        authType := AuthTypeOf(old(settings)))
    {
      if settings.useLdap == UNSET { settings := settings.(useLdap := 0); }
      if settings.disableAuthorization == UNSET { settings := settings.(disableAuthorization := 0); }
      if settings.disableProxyAuthorization == UNSET { settings := settings.(disableProxyAuthorization := 0); }
      if settings.authType == UNSET {
        if settings.disableAuthorization == 1 {
          settings := settings.(authType := AUTH_TYPE_ANY);
        } else if settings.useLdap == 1 {
          settings := settings.(authType := AUTH_TYPE_LDAP);
        } else {
          settings := settings.(authType := AUTH_TYPE_LOCAL);
        }
      }
    }

    method FillDefaultNames()
      modifies this`settings
      ensures settings == old(settings).(
        authorizedServiceTag := Defaulted(old(settings).authorizedServiceTag, AuthorizedServiceTag),
        proxyKeyword := Defaulted(old(settings).proxyKeyword, ProxyKeyword),
        hostsFile := Defaulted(old(settings).hostsFile, HostsFile))
    {
      if settings.authorizedServiceTag.None? { settings := settings.(authorizedServiceTag := Some("proxy")); }
      if settings.proxyKeyword.None? { settings := settings.(proxyKeyword := Some("direct")); }
      if settings.hostsFile.None? { settings := settings.(hostsFile := Some("/etc/stonesh/hosts.lst")); }
    }

    method FillDefaultPrograms()
      modifies this`settings
      ensures settings == old(settings).(
        usersFile := Defaulted(old(settings).usersFile, UsersFile),
        sshPath := Defaulted(old(settings).sshPath, SshPath),
        ncPath := Defaulted(old(settings).ncPath, NcPath))
    {
      if settings.usersFile.None? { settings := settings.(usersFile := Some("/etc/stonesh/users.lst")); }
      if settings.sshPath.None? { settings := settings.(sshPath := Some("/usr/bin/ssh")); }
      if settings.ncPath.None? { settings := settings.(ncPath := Some("/bin/nc")); }
    }

    method FillDefaultDatabases()
      modifies this`settings
      ensures settings == old(settings).(
        ncTimeout := Defaulted(old(settings).ncTimeout, NcTimeout),
        geoIpDat := Defaulted(old(settings).geoIpDat, GeoIpDat),
        geoIp6Dat := Defaulted(old(settings).geoIp6Dat, GeoIp6Dat))
    {
      if settings.ncTimeout.None? { settings := settings.(ncTimeout := Some("1")); }
      if settings.geoIpDat.None? { settings := settings.(geoIpDat := Some("/usr/share/GeoIP/GeoIP.dat")); }
      if settings.geoIp6Dat.None? { settings := settings.(geoIp6Dat := Some("/usr/share/GeoIP/GeoIPv6.dat")); }
    }

    /** `read_config_file`.  The file's contents are None when it cannot be opened. */
    method ReadConfigFile(file: Option<string>) returns (r: int)
      modifies this
      ensures r == if Load(file).Some? then 1 else 0
      ensures Load(file).Some? ==> settings == Load(file).value && host == null
      ensures Load(file).None? ==> AllStringsNull()
    {
      hide Lines, LineEffect, Process, BadLines, FillDefaults, Effects;
      if file.None? {
        FreeOptions();
        return 0;
      }
      InitializeOptions();
      var bad := ReadLines(file.value);
      if bad > 0 {
        FreeOptions();
        return 0;
      }
      FillDefaultOptions();
      return 1;
    }

    /** The reading loop, from freshly initialized options on. */
    method ReadLines(f: string) returns (bad: nat)
      requires settings == NOTHING_SET
      modifies this`settings
      ensures bad == BadLines(Effects(Lines(f)))
      ensures settings == Process(NOTHING_SET, Effects(Lines(f)))
    {
      var line := new char[LINE_SIZE];
      bad := 0;
      var pos := 0;
      while true
        invariant pos <= |f|
        invariant bad + BadLines(Effects(Lines(f[pos..]))) == BadLines(Effects(Lines(f)))
        invariant Process(settings, Effects(Lines(f[pos..]))) == Process(NOTHING_SET, Effects(Lines(f)))
        decreases |f| - pos
      {
        ghost var before := settings;
        var next, err, e := ReadLine(f, pos, line);
        if next.None? {
          break;
        }
        ProcessFirst(before, e, Effects(Lines(f[next.value..])));
        if err != 0 { bad := bad + 1; }
        if err == -1 { break; }
        pos := next.value;
      }
    }

    /** One turn of the reading loop; e is the effect of the line it reads. */
    method ReadLine(f: string, pos: nat, line: array<char>)
      returns (next: Option<nat>, err: int, ghost e: Effect)
      requires pos <= |f| && LINE_SIZE <= line.Length
      modifies this`settings, line
      ensures next.None? ==> settings == old(settings) && Effects(Lines(f[pos..])) == []
      ensures next.Some? ==> pos < next.value <= |f|
      ensures next.Some? ==> Effects(Lines(f[pos..])) == [e] + Effects(Lines(f[next.value..]))
      ensures next.Some? ==> err == e.status && settings == Apply(old(settings), e.change)
    {
      next := Fgets(f, pos, line);
      err, e := 0, Effect(NoChange, 0);
      if next.Some? {
        ghost var text := CText(f[pos..next.value]);
        e := LineEffect(text);
        LinesOfRest(f, pos, next.value);
        EffectsOfFirst(text, Lines(f[next.value..]));
        err := ProcessConfigLine(line, text);
      }
    }
  }
}
