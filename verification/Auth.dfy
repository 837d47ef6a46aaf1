/** The choice of the authorization backend (auth.c) and what holds of every backend. */
module Auth {
  import opened Text
  import opened CBuffer
  import opened Config
  import ConfigProofs
  import opened AuthLocal
  import opened AuthLdap
  import opened ReadConf

  const AUTH_BASTION := 1
  const AUTH_PROXY := 2

  const AUTH_ERROR := -1
  const AUTH_FAILURE := 0
  const AUTH_SUCCESS := 1

  /** Whether the request must carry the proxy mark. */
  predicate NeedsMark(s: Settings, mode: int) {
    mode == AUTH_PROXY && s.disableProxyAuthorization == 0
  }

  predicate Refused(s: Settings, mode: int) {
    s.enableProxy == 0 && mode == AUTH_PROXY
  }

  /** Whether the users file is read, and the user and host trimmed with it. */
  predicate ReadsUsers(s: Settings, mode: int, files: map<string, string>) {
    !Refused(s, mode) && s.authType == AUTH_TYPE_LOCAL && Contents(files, s.usersFile).Some?
  }

  ghost predicate LocalGrants(s: Settings, user: string, host: string, mode: int, files: map<string, string>) {
    Contents(files, s.usersFile).Some? &&
    FileGrants(Contents(files, s.usersFile).value, user, host, if NeedsMark(s, mode) then 1 else 0)
  }

  predicate DirectoryGrants(s: Settings, user: string, host: string, mode: int, d: Directory) {
    LdapGrants(Some(user), Some(host), if NeedsMark(s, mode) then s.authorizedServiceTag else None,
               s.useLdap, s.ldapUri, s.ldapBase, d)
  }

  ghost function AuthDecision(s: Settings, user: string, host: string, mode: int,
                              files: map<string, string>, d: Directory): int
  {
    if Refused(s, mode) then AUTH_FAILURE
    else if s.authType == AUTH_TYPE_ANY then AUTH_SUCCESS
    else if s.authType == AUTH_TYPE_LOCAL then
      if LocalGrants(s, user, host, mode, files) then AUTH_SUCCESS else AUTH_FAILURE
    else if s.authType == AUTH_TYPE_LDAP then
      if DirectoryGrants(s, user, host, mode, d) then AUTH_SUCCESS else AUTH_FAILURE
    else AUTH_ERROR
  }

  /** `auth_user` */
  method AuthUser(s: Settings, user: array<char>, host: array<char>, mode: int,
                  files: map<string, string>, d: Directory, ghost u: string, ghost h: string)
    returns (auth: int)
    requires user != host && Str(user, 0, u) && Str(host, 0, h)
    requires s.authorizedServiceTag.Some? ==> NoNul(s.authorizedServiceTag.value)
    modifies user, host
    ensures auth == AuthDecision(s, u, h, mode, files, d)
    ensures Str(user, 0, if ReadsUsers(s, mode, files) then Trimmed(u) else u)
    ensures Str(host, 0, if ReadsUsers(s, mode, files) then Trimmed(h) else h)
  {
    hide Trimmed, FileGrants, LdapGrants;
    if s.enableProxy == 0 && mode == AUTH_PROXY {
      return AUTH_FAILURE;
    }
    if s.authType == AUTH_TYPE_ANY {
      return AUTH_SUCCESS;
    } else if s.authType == AUTH_TYPE_LOCAL {
      if mode == AUTH_PROXY && s.disableProxyAuthorization == 0 {
        auth := GetAuthFile(user, host, s.usersFile, 1, files, u, h);
      } else {
        auth := GetAuthFile(user, host, s.usersFile, 0, files, u, h);
      }
    } else if s.authType == AUTH_TYPE_LDAP {
      var userText := StrDup(user, 0, u);
      var hostText := StrDup(host, 0, h);
      if mode == AUTH_PROXY && s.disableProxyAuthorization == 0 {
        auth := GetAuthLdap(Some(userText), Some(hostText), s.authorizedServiceTag, s.useLdap, s.ldapUri,
                            s.ldapBase, d);
      } else {
        auth := GetAuthLdap(Some(userText), Some(hostText), None, s.useLdap, s.ldapUri, s.ldapBase, d);
      }
    } else {
      return AUTH_ERROR;
    }
  }

  // ---------------------------------------------------------------------------
  // Proxy implies bastion
  // ---------------------------------------------------------------------------

  lemma {:induction false} ListMonotone(entries: seq<string>, host: string)
    requires ListGrants(entries, host, 1)
    ensures ListGrants(entries, host, 0)
  {
    hide Trimmed, PrefixCI;
    if !PrefixCI(host, EntryName(Trimmed(entries[0]))) {
      ListMonotone(entries[1..], host);
    }
  }

  lemma FileMonotone(f: string, user: string, host: string)
    requires FileGrants(f, user, host, 1)
    ensures FileGrants(f, user, host, 0)
  {
    hide Trimmed, PrefixCI, ListGrants, Tokens, Lines, SepHead, SepTail;
    var lines, u, h := Lines(f), Trimmed(user), Trimmed(host);
    var i :| 0 <= i < |lines| && LineGrants(lines[i], u, h, 1);
    var t := Trimmed(lines[i]);
    ListMonotone(Tokens(SepHead(SepTail(t, ':').value, ':'), ","), h);
    assert LineGrants(lines[i], u, h, 0);
  }

  /** Whether a directory is asked for a proxied session with a tag. */
  predicate AsksWithTag(s: Settings) {
    s.enableProxy != 0 && s.authType == AUTH_TYPE_LDAP && NeedsMark(s, AUTH_PROXY) && s.authorizedServiceTag.Some?
  }

  /** Whoever gets a proxied session gets an ordinary one, whatever the settings and the backend,
      if and only if the tag, where a directory is asked with it, only narrows the filter. */
  lemma ProxyImpliesBastionIff(s: Settings, user: string, host: string)
    ensures (AsksWithTag(s) ==> TagOnlyNarrows(Some(user), Some(host), s.authorizedServiceTag.value, s.useLdap)) <==>
            forall files, d :: AuthDecision(s, user, host, AUTH_PROXY, files, d) == AUTH_SUCCESS ==>
                               AuthDecision(s, user, host, AUTH_BASTION, files, d) == AUTH_SUCCESS
  {
    hide FileGrants, LdapGrants, TagOnlyNarrows;
    if AsksWithTag(s) {
      var tag := s.authorizedServiceTag.value;
      LdapProxyImpliesBastionIff(Some(user), Some(host), tag, s.useLdap, s.ldapUri, s.ldapBase);
      forall files, d
        ensures AuthDecision(s, user, host, AUTH_PROXY, files, d) == AUTH_SUCCESS <==>
                LdapGrants(Some(user), Some(host), Some(tag), s.useLdap, s.ldapUri, s.ldapBase, d)
        ensures AuthDecision(s, user, host, AUTH_BASTION, files, d) == AUTH_SUCCESS <==>
                LdapGrants(Some(user), Some(host), None, s.useLdap, s.ldapUri, s.ldapBase, d)
      {
      }
      hide AuthDecision;
      if !TagOnlyNarrows(Some(user), Some(host), tag, s.useLdap) {
        var d :| LdapGrants(Some(user), Some(host), Some(tag), s.useLdap, s.ldapUri, s.ldapBase, d)
                 && !LdapGrants(Some(user), Some(host), None, s.useLdap, s.ldapUri, s.ldapBase, d);
        assert AuthDecision(s, user, host, AUTH_PROXY, map[], d) == AUTH_SUCCESS;
      }
    } else {
      forall files, d | AuthDecision(s, user, host, AUTH_PROXY, files, d) == AUTH_SUCCESS
        ensures AuthDecision(s, user, host, AUTH_BASTION, files, d) == AUTH_SUCCESS
      {
        if s.authType == AUTH_TYPE_LOCAL && NeedsMark(s, AUTH_PROXY) {
          FileMonotone(Contents(files, s.usersFile).value, user, host);
        }
      }
    }
  }

  /** In particular when the values put into the directory's filters are escaped. */
  lemma ProxyImpliesBastion(s: Settings, user: string, host: string, files: map<string, string>, d: Directory)
    requires AsksWithTag(s) ==>
      LdapFilter.Escaped(user) && LdapFilter.Escaped(host) && LdapFilter.Escaped(s.authorizedServiceTag.value)
    requires AuthDecision(s, user, host, AUTH_PROXY, files, d) == AUTH_SUCCESS
    ensures AuthDecision(s, user, host, AUTH_BASTION, files, d) == AUTH_SUCCESS
  {
    hide AuthDecision, TagOnlyNarrows, LdapFilter.Escaped;
    if AsksWithTag(s) {
      EscapedTagOnlyNarrows(Some(user), Some(host), s.authorizedServiceTag.value, s.useLdap);
    }
    ProxyImpliesBastionIff(s, user, host);
  }

  // ---------------------------------------------------------------------------
  // Loaded settings
  // ---------------------------------------------------------------------------

  /** With settings that were loaded, the decision is never an error, and the directory is never
      asked with LDAP switched off. */
  lemma LoadedNeverErrs(s: Settings, user: string, host: string, mode: int, files: map<string, string>, d: Directory)
    requires ConfigProofs.Sound(s)
    ensures AuthDecision(s, user, host, mode, files, d) in {AUTH_FAILURE, AUTH_SUCCESS}
    ensures s.authType == AUTH_TYPE_LDAP ==> s.useLdap == 1
  {
    hide LocalGrants, DirectoryGrants;
    assert 0 <= s.Flag(DisableAuthorization) <= 1 && 0 <= s.Flag(UseLdap) <= 1;
  }
}
