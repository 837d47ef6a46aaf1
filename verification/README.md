# Stonesh: configuration, policy lookups and the decision to execute

Stonesh is the login shell of a bastion host. It reads a configuration, looks the requested host
up in a table of permitted hosts, asks a users file or an LDAP directory whether the user may go
there, checks the client's country and then replaces itself with `ssh` or `nc`. This project models
that path from the bytes in a line buffer to the vector given to `execvp`.

* **Strings in buffers** (`Text`, `CBuffer`, `Delim`). A buffer is an `array<char>`, a pointer an
  index and NULL is `None`. `Str(a, p, v)` says that the bytes from `p` on hold the C string `v`.
  `trim`, `strdelim`, `strsep`, `strtok`, `fgets` and their helpers are methods that overwrite the
  buffer in place; each is tied to a pure function on `v` and says which bytes it leaves alone, so a
  scan can go on behind a token that was trimmed or cut in the meantime.
* **Configuration** (`Config`, `ReadConf`, `ConfigProofs`, `ConfigRoundTrip`). A line has an effect
  and a status; a file is the fold of its lines. `Options` is the global record.
* **Policy tables** (`AuthLocal`, `UsersTable`, `Hosts`, `HostsTable`, `GeoIp`). The readers are
  loops over the line buffer; beside them stand the tables the files denote, with the round trip
  from a table to its file and back through the code.
* **Directory** (`LdapFilter`, `AuthLdap`). Filters are trees with a text form and a parser following
  section 3 of RFC 1960, and a meaning on directory entries.
* **Decision** (`Auth`, `CommandLine`, `Shell`, `ShellSafety`, `ShellRuns`). `Shell.Run` is `main`;
  `Shell.Decide` is what it computes; `ShellSafety` says what every run satisfies, and `ShellRuns`
  gives single runs.

What the code does that its documentation does not say, and that the lemmas below make exact:

* A user or host in the users file matches when it *extends* the one asked for, ignoring case
  (`auth_local.c:70`, `auth_local.c:84`), and the first host of a row that extends the one asked
  for decides. So "al" is let in by the row of "alice" (`UsersTable.PrefixIsGranted`), and with
  the row `alice:web10,web1+` a proxied session of alice to web1 is refused
  (`UsersTable.MarkIsShadowed`). In every mode the documented lookup is missed in exactly two ways
  (`UsersTable.AgreesWithLookupIff`): a pair that is not listed is granted if and only if a row that
  extends the user has a first extending host that allows it; a listed pair is refused if and only
  if the mark is asked for and no such first host has it. Outside proxy mode only the first can
  happen, for pairs that extend to a listed one (`UsersTable.BastionGrantsExtended`).
* The search in the directory is decided by its first reply message (`auth_ldap.c:303`,
  `auth_ldap.c:308`): further matching entries do not matter, and a reference message that the
  library returns first refuses everybody (`AuthLdap.LdapMeaning`). What the answer to the bind
  says is never read (`auth_ldap.c:292-296`).
* Values are put into the directory's filters as they are (`auth_ldap.c:157`, `auth_ldap.c:211`).
  An unescaped `*` is a wildcard, so the user `*` is every user (`AuthLdap.StarIsEveryUser`).
  A proxied session may be granted where an ordinary one is not: the user `))` and the host `\` with
  the tag `t` (`AuthLdap.StrayProxyOnly`). Over all directories this is excluded if and only if every
  entry that the filter with the tag selects is selected without it (`Auth.ProxyImpliesBastionIff`),
  and that is so for all values whose parentheses and backslashes are escaped
  (`AuthLdap.EscapedTagOnlyNarrows`).
* An SSH_CLIENT that is set but blank counts as a local connection and no country is checked
  (`ShellSafety.CheckedIff`).
* The mode that is authorized and the session that is started can differ, in both directions
  (`ShellSafety.ModeAgreesIff`). A host with a dot asks for proxy authorization although an ordinary
  session follows, unless full names are allowed (`ShellSafety.DottedHostMode`). The proxy keyword
  and a host whose name begins with it ask for ordinary authorization although a proxied session
  follows, even with proxying off (`ShellSafety.ProxiedSessionMode`, `ShellSafety.KeywordHostMode`,
  `ShellRuns.KeywordHostIsProxied`).
* A host that starts with dots gives a name with characters repeated: ".web" gives "webb"
  (`ShellSafety.HostnameIsPartIff`, `ShellSafety.LeadingDotName`).
* A request for a listed host that is not authorized, or comes from a country that is not allowed,
  ends the program with the status of success (`stonesh.c:286-295`, `ShellSafety.DeniedIff`,
  `ShellRuns.BobIsRefused`).
* A quote that is never closed hides what it starts: behind a good setting it is not noticed as
  garbage, and in a keyword it makes the line count as empty (`ConfigRoundTrip.UnclosedGarbage`,
  `ConfigRoundTrip.UnclosedKeyword`).
* A port field of white space only leaves a host with an empty port and not with the default
  (`HostsTable.BlankPort`).
* A host entry that trims to nothing is examined one byte before its start (`auth_local.c:80`); that
  byte is inside the line and never a `+` (`AuthLocal.NextEntry`, `AuthLocal.TakePlus`).

A constant follows the code where the documentation has another: the default of GeoIP6 is
`/usr/share/GeoIP/GeoIPv6.dat`, not the name `stonesh.conf.pod` gives.

## Model

| member | source | states |
|---|---|---|
| CBuffer.Trim | util.c:28-52 | the in-place trim leaves exactly the text with the comment cut and both ends stripped, and writes no byte outside the original string |
| Text.TrimmedFixpoint | util.c:28-52 | trimming is idempotent, and its fixed points are exactly the texts without `#` and outer space |
| Text.TrimmedPadded | util.c:28-52 | a tidy text is recovered whatever space and comment is put around it |
| Text.TrimmedParts | util.c:28-52 | conversely the original is outer space, the result, outer space and a comment |
| Text.SpacesAre | util.c:28-52 | the characters trim takes off are the blank, tab, newline, vertical tab, form feed and carriage return |
| Text.EqualCIIff | readconf.c:346-361 | ignoring case means the same length and at each place the same character or the same letter of a to z in the other case |
| Text.PrefixCIIff | auth_local.c:70-84 | the same for the beginning of a longer text |
| Text.TrimmedCI | auth_local.c:55-57 | texts that differ in case only still do so once trimmed |
| Text.UpperAllIff | util.c:57-70 | upper case turns exactly the letters a to z into A to Z |
| CBuffer.StrToUpper | util.c:57-70 | uppercases the string in place and nothing else |
| CBuffer.StrSep | auth_local.c:66 | `strsep` on the buffer: token, rest, and only the one separator overwritten |
| CBuffer.StrTok | auth_local.c:77 | `strtok` on the buffer: first token and rest of the pure split, only the byte behind the token overwritten |
| Text.TokensOfJoined | auth_local.c:77-94 | a `strtok` walk takes comma-joined parts apart again |
| Text.TokensSkip | auth_local.c:77-92 | empty pieces between separators are skipped |
| CBuffer.Fgets | auth_local.c:60 | reads up to a newline or 1023 characters and leaves the C string of that chunk |
| Text.LineLength | auth_local.c:60 | a chunk ends at the first newline, at 1023 characters or at the end of the file |
| Text.ChunkIs | auth_local.c:60 | a line of up to 1022 characters is one chunk with its newline, of a longer one a chunk is the first 1023 characters |
| Text.LinesAppend | readconf.c:92 | reading restarts cleanly behind a newline, whatever the line lengths |
| Text.LinesOfWritten | readconf.c:92 | written rows are read back as the rows |
| Text.LinesFlatten | readconf.c:92 | the chunks of a file put together are the file |
| Delim.StrDelim | readconf.c:301-341 | the destructive tokenizer returns the token and rest of the pure one, inside the string, the rest behind the token |
| Delim.Split | readconf.c:301-341 | every call on a non-NULL pointer leaves strictly less to read |
| Delim.AllTokens | readconf.c:301-341 | repeated calls end, after at most length + 1 tokens |
| Delim.SplitWhole | readconf.c:312-314 | a text without delimiters is one token and nothing is left |
| Delim.SplitAtBlank | readconf.c:328-338 | a token ended by a blank; one `=` and the blanks around it are skipped |
| Delim.SplitAtEquals | readconf.c:328-338 | a token ended by `=`; a second `=` is not skipped |
| Delim.SplitAtQuote | readconf.c:316-326 | quoted text, blanks and `=` included, is joined to the word before it |
| Delim.SplitUnmatched | readconf.c:316-320 | a quote that is never closed gives NULL and NULL |
| Delim.PlainIsToken | readconf.c:301-341 | a text without blank, tab, carriage return, newline, quote and `=` is one token |
| Delim.SplitAtRun | readconf.c:312-338 | a word ends at any run of those blanks, and one `=` among them is skipped, whatever comes behind |
| Delim.TwoWords | readconf.c:312-338 | two plain words with such a run, or one `=` and such runs, between them are token and rest |
| ReadConf.ParseToken | readconf.c:346-361 | the table loop computes the opcode of the first keyword spelled, ignoring case |
| ConfigRoundTrip.NameIsFound | readconf.c:41-64 | any spelling of a documented name is found as its own option |
| ConfigRoundTrip.OpcodeCI | readconf.c:346-361 | keywords that differ in case only have one opcode |
| ConfigRoundTrip.DocumentedFlags | readconf.c:41-64 | allowFQDN, debug, enableProxy and useLDAP are found as they are documented |
| ConfigRoundTrip.DocumentedLongFlags | readconf.c:41-64 | so are logToStderr, disableAuthorization and disableProxyAuthorization |
| ConfigRoundTrip.DocumentedFiles | readconf.c:41-64 | GeoIP, GeoIP6, sshPath and ncPath |
| ConfigRoundTrip.DocumentedTables | readconf.c:41-64 | HostsFile and usersFile |
| ConfigRoundTrip.DocumentedTexts | readconf.c:41-64 | authorizedServiceTag, proxyKeyword, ncTimeout, LDAPuri and LDAPbase |
| ReadConf.Options.ProcessConfigLine | readconf.c:118-298 | status and change are those of the line's text alone, and a change fills only an unset option |
| ReadConf.Options.InitializeOptions | readconf.c:369-393 | everything unset and every string NULL |
| ReadConf.Options.FreeOptions | readconf.c:395-411 | every string NULL, the flags kept |
| ReadConf.Options.FillDefaultOptions | readconf.c:417-550 | exactly the unset options get their defaults, and auth_type follows from the flags |
| ReadConf.Options.ReadConfigFile | readconf.c:69-116 | returns 1 with the loaded settings, or 0 with every string NULL |
| ConfigProofs.FirstSettingWins | readconf.c:91-115 | a file loads if and only if every line has status 0; then each option has its first occurrence or its default |
| ConfigProofs.LineTexts | readconf.c:118-298 | texts taken from a line are C strings |
| ConfigProofs.LoadedSettings | readconf.c:417-550 | loaded flags are 0 or 1, defaulted strings set and non-empty, the timeout positive, auth_type as the flags say |
| ConfigRoundTrip.RowEffect | readconf.c:118-298 | each layout of a setting, with blanks and tabs around its words, an `=` or not, quotes or not and a comment, is read as that setting with status 0 |
| ConfigRoundTrip.NoteEffect | readconf.c:132-133 | a line of white space and a comment asks for nothing and has status 0 |
| ConfigRoundTrip.BareLineStatus | readconf.c:155-295 | a keyword and a value in any layout are good if and only if the keyword is documented and takes the value (yes, true, no, false for a flag, a positive number for the timeout); 1 if and only if it is unknown; -1 otherwise |
| ConfigRoundTrip.MissingArgument | readconf.c:169-173 | a keyword alone or with an argument that is never closed sets nothing and stops reading, or counts as unknown |
| ConfigRoundTrip.EmptyArgument | readconf.c:169-207 | empty quotes stop reading |
| ConfigRoundTrip.GarbageAtEnd | readconf.c:287-295 | a third word behind a documented keyword stops reading |
| ConfigRoundTrip.UnclosedGarbage | readconf.c:287-295 | but a quote that is never closed behind a good setting is not noticed |
| ConfigRoundTrip.UnclosedKeyword | readconf.c:145-152 | a keyword with a quote that is never closed is passed over |
| ConfigRoundTrip.ConfigRoundTrip | readconf.c:69-116 | settings written in any order, layout and case load to exactly those settings completed with the defaults |
| ConfigRoundTrip.AssignmentRoundTrip | readconf.c:69-116 | when no option is written twice, the loaded settings give every option the value written for it |
| ConfigRoundTrip.NotedRoundTrip | readconf.c:69-116 | blank and comment lines anywhere between written settings change nothing |
| ConfigRoundTrip.LoadedFields | readconf.c:155-295 | each written option ends up in its own field |
| ConfigRoundTrip.EmptyFile | readconf.c:417-550 | the settings of an empty file, value by value |
| ConfigRoundTrip.DocumentedSpelling | readconf.c:69-116 | a concrete file with a comment, an empty line, a tab and `useLDAP` switches LDAP on |
| ConfigRoundTrip.TimeoutRoundTrip | readconf.c:212-215 | every positive int in decimal is a timeout that stands for itself |
| ConfigRoundTrip.AtoiIs | readconf.c:212-215 | space and a sign before a number are read, and what follows its digits is ignored |
| ConfigRoundTrip.AtoiOverflow | readconf.c:212-215 | numbers beyond an int, under the reading of `atoi` named below |
| ConfigRoundTrip.AtoiOfOther | readconf.c:212-215 | a text that does not begin with a number counts as 0 |
| ConfigRoundTrip.TimeoutRefused | readconf.c:212-215 | a timeout that is not positive stops reading |
| ConfigRoundTrip.NegativeTimeout | readconf.c:212-215 | as every negative number does |
| AuthLocal.TakePlus | auth_local.c:79-83 | trims an entry and takes its `+` off in place; an empty entry is looked at one byte before its start, in bounds |
| AuthLocal.ScanHosts | auth_local.c:77-94 | the first entry that extends the host decides; can_proxy is 0 at the start of every entry and 0 again unless access is granted |
| AuthLocal.GetAuthFile | auth_local.c:30-110 | success if and only if some line's user field and host list grant; user and host are left trimmed |
| UsersTable.GrantsDistribute | auth_local.c:60-99 | two files in a row grant what either grants |
| UsersTable.LinesAreMonotone | auth_local.c:60-99 | a file with all the lines of another grants whatever that one grants |
| UsersTable.OrderIsIrrelevant | auth_local.c:60-99 | files with the same set of lines decide alike, whatever the order and the repetitions |
| UsersTable.TableIsRead | auth_local.c:60-99 | for every query, a written table decides as its rows do under the prefix rule |
| UsersTable.LaidOutTableIsRead | auth_local.c:60-99 | the same with space around users and hosts, further fields, comments, and blank and comment lines |
| UsersTable.FileGrantsCI | auth_local.c:70-84 | the case of the user and the host asked for does not matter |
| UsersTable.CaseIsIgnored | auth_local.c:70-84 | "Alice" is let in to "WEB1" by the row of "alice" for "web1" |
| UsersTable.UsersRoundTrip | auth_local.c:60-99 | for a query that is no proper prefix of a listed name, the file decides as exact case-insensitive lookup with the mark for proxy |
| UsersTable.EntriesGrantIff | auth_local.c:77-94 | a host list grants if and only if its first entry that extends the host has the mark or none is asked for |
| UsersTable.TableGrantsIff | auth_local.c:60-99 | for every query and mode, a written table grants if and only if a row that extends the user has such a first entry |
| UsersTable.AgreesWithLookupIff | auth_local.c:60-99 | in every mode, the file grants an unlisted pair, or refuses a listed one, exactly in the two stated cases, and agrees with the lookup exactly outside them |
| UsersTable.BastionGrantsExtended | auth_local.c:70-90 | outside proxy mode the pairs granted are those that extend to a listed one |
| UsersTable.GrantedIsExtension | auth_local.c:70-90 | behind a wrongful grant stands a name that properly extends the user or the host |
| UsersTable.DeniedIsShadowed | auth_local.c:84-90 | behind a wrongful refusal stands an earlier unmarked entry of a listing row that properly extends the host |
| UsersTable.MarkIsShadowed | auth_local.c:84-90 | a concrete pair that is listed with the mark and is refused a proxied session |
| UsersTable.PrefixIsGranted | auth_local.c:70 | a concrete user who is not listed and is let in |
| Hosts.HostEntry.Get | hosts.c:35-126 | the record becomes all NULL or the first exact match, and the answer says which |
| Hosts.HostEntry.Fill | hosts.c:77-104 | the record holds the name, the port field or 22 and the countries field or nothing, trimmed, each in its own buffer |
| Hosts.FirstHostIs | hosts.c:65-115 | the answer is that of the first line whose field before `:` is the name exactly |
| Hosts.AnswerIff | hosts.c:65-115 | there is an answer if and only if a line lists the name, and it bears the name |
| Hosts.RecordIsLastAnswer | hosts.c:50-54 | after any calls the static record is the answer to the last one without NULL arguments, for the name it asked |
| HostsTable.HostsRoundTrip | hosts.c:65-115 | for every name, looking it up in a written table is first match in the table, with port 22 and no countries as defaults |
| HostsTable.LaidOutRoundTrip | hosts.c:65-115 | the same with space around ports and countries, further fields, comments, and blank and comment lines |
| HostsTable.BlankPort | hosts.c:82-88 | a port of white space only is recorded as the empty text and not as 22 |
| GeoIp.IsFromValidCountry | geoip.c:37-107 | 1 if and only if the list is absent or empty, the address is loopback, or some piece trimmed and uppercased is the known country |
| GeoIp.AllowedIff | geoip.c:37-107 | the same rule over the pieces of the list: some piece, trimmed and uppercased, is the known country |
| GeoIp.CountryListRoundTrip | geoip.c:89-104 | a comma list with space around its codes names exactly these codes in upper case |
| GeoIp.AllowedMeans | geoip.c:51-107 | for such a list an IPv4 address is allowed if it is local or its country in the first data file is listed, an IPv6 address likewise with the second, and no other |
| GeoIp.NoListAllows | geoip.c:45-46 | no list or an empty one allows every address |
| AuthLdap.SnPrintF | auth_ldap.c:157 | `snprintf` with `%s` conversions, truncation included |
| AuthLdap.GetHostFilter | auth_ldap.c:124-165 | NULL exactly for a missing value; else the whole filter text and its NUL fit the computed size |
| AuthLdap.GetServiceFilter | auth_ldap.c:172-220 | the same for the service filter |
| LdapFilter.FilterRoundTrip | auth_ldap.h:34-38 | the text of every filter tree parses back to the tree |
| LdapFilter.PlainSpelt | auth_ldap.h:34-38 | a value spells exactly its own characters if and only if it needs no escaping |
| LdapFilter.WildSpelt | auth_ldap.h:34-38 | a value without parentheses and backslashes spells its characters, with `*` as the wildcard |
| LdapFilter.StarMatches | auth_ldap.h:34-38 | a wildcard between two texts matches the values that begin with the one and end with the other |
| AuthLdap.HostFilterIsTreeIff | auth_ldap.h:34 | the built text is the escaped form of the tree with exactly these values if and only if host and user need no escaping |
| AuthLdap.ServiceFilterIsTreeIff | auth_ldap.h:38 | the same with the tag |
| AuthLdap.HostFilterDenotes | auth_ldap.h:34 | for all values that spell patterns, the built text is read as the tree of these patterns, whatever follows it |
| AuthLdap.HostFilterMeaning | auth_ldap.h:34 | the host filter then selects exactly the entries with a uid like the user and a host like the host or a literal star |
| AuthLdap.ServiceFilterMeaning | auth_ldap.h:38 | the service filter also wants the service for a host like the host or for a literal star |
| AuthLdap.PlainMeaning | auth_ldap.h:34-38 | for values that need no escaping these are the entries with just the user, the host or a star, and the service |
| AuthLdap.StarIsEveryUser | auth_ldap.h:34 | the user `*` gives a text that is not the escaped filter and selects every entry with a uid that lists the host or a star |
| AuthLdap.GetAuthLdap | auth_ldap.c:226-342 | success with LDAP off, or when bind and search are answered and the first reply to the search is an entry |
| AuthLdap.LdapMeaning | auth_ldap.c:241-312 | for all values, success means LDAP is off, or there are a URI, a base, a connection and answers to bind and search, and the built text selects some entry listed before any reference |
| AuthLdap.LdapHostMeaning | auth_ldap.c:266-312 | for values that spell patterns, some such entry is of a user like the user and lists a host like the host or a star |
| AuthLdap.LdapServiceMeaning | auth_ldap.c:266-312 | with a tag, some such entry that also has the service |
| AuthLdap.FirstIsEntryIff | auth_ldap.c:301-312 | the first message of a search is an entry if and only if some entry listed before any reference matches |
| AuthLdap.LdapProxyImpliesBastionIff | auth_ldap.c:266-312 | in every directory a proxy request that is granted is granted without the tag, if and only if the tag only narrows what the filter selects |
| AuthLdap.EscapedTagOnlyNarrows | auth_ldap.h:34-38 | the tag only narrows for all values whose parentheses and backslashes are escaped |
| AuthLdap.LdapProxyImpliesBastion | auth_ldap.c:266-312 | so for these values a granted proxy request is granted without the tag |
| AuthLdap.StrayProxyOnly | auth_ldap.c:266-312 | a concrete request that is granted with the tag and not without it |
| Auth.AuthUser | auth.c:30-76 | dispatches to the backend the settings name, with the mode's proxy demand |
| Auth.ProxyImpliesBastionIff | auth.c:30-76 | success for a proxied session implies success for an ordinary one, over all files and directories, if and only if the tag only narrows the filter wherever a directory is asked with it |
| Auth.ProxyImpliesBastion | auth.c:30-76 | the implication holds for every backend when the values put into a directory's filter are escaped |
| Auth.LoadedNeverErrs | auth.c:67-69 | with loaded settings the answer is success or failure, and LDAP is never asked while switched off |
| CommandLine.Concatenate | stonesh.c:152-167 | the quoted concatenation is built in place inside the allocated size |
| CommandLine.QuotedLength | stonesh.c:152-167 | its length is the sum plus 3 for each later argument, and fits with its NUL in the sum plus 4 for each |
| CommandLine.QuotedThree | stonesh.c:152-167 | what three strings are rendered as |
| Shell.SplitCommandLine | stonesh.c:174-191 | the split of the command string, which is left as its first token |
| Shell.KeepHostname | stonesh.c:237-240 | the cut at the first dot, with the copy over the start of the buffer |
| Shell.BuildVector | stonesh.c:306-344 | the exec vector for either kind of session, every index inside it, ended by NULL |
| Shell.Authorize | stonesh.c:260-283 | auth_user's answer, overwritten by the country check for a remote client |
| Shell.Run | stonesh.c:41-385 | the outcome of every run: stopped with a status, or executed with a vector |
| ShellSafety.ExecSafety | stonesh.c:123-368 | execvp is reached if and only if settings loaded, the host is listed, auth_user answered AUTH_SUCCESS, the country is allowed and a terminal or command is there |
| ShellSafety.ReachedOutcome | stonesh.c:249-368 | a reached request is executed if and only if it is cleared, with the listed name and port in the vector, and ends with the status of success if and only if it is not authorized |
| ShellSafety.DeniedIff | stonesh.c:249-295 | a run ends with the status of success if and only if a listed host was asked for and the user is not authorized or the country not allowed |
| ShellSafety.FailureIff | stonesh.c:123-368 | a run ends with status 1 if and only if the configuration does not load, the keyword stands alone, the host is not listed or a terminal is missing |
| ShellSafety.ExecutedVector | stonesh.c:306-368 | the vector of an executed request string by string, with the remote command last |
| ShellSafety.CommandIs | stonesh.c:174-191 | the first word of the command is the host and the rest behind one blank the remote command, kept as it is |
| ShellSafety.ProxiedCommandIs | stonesh.c:176-189 | behind the keyword the next word is the host and nothing else is kept |
| ShellSafety.NoHostOutcome | stonesh.c:174-187 | a blank command uses a NULL pointer, the keyword alone ends with status 1 |
| ShellSafety.RemoteCommandRuns | stonesh.c:174-344 | an authorized `host command` runs ssh on the listed port with the command as its last argument |
| ShellSafety.ConfigOfRun | stonesh.c:116-128 | the configuration file is the one given or the default one |
| ShellSafety.MissingFiles | stonesh.c:249-255 | a hosts file that cannot be opened lists nobody, a users file grants nothing |
| ShellRuns.BobIsRefused | stonesh.c:286-295 | a concrete refused run and its status |
| ShellSafety.AuthIsZeroOrOne | stonesh.c:272-286 | no non-zero answer other than AUTH_SUCCESS occurs |
| ShellSafety.ClearanceMeans | stonesh.c:249-295 | behind an executed request stand a line of the hosts file, enabled proxying if it was asked for in proxy mode, and a grant of the users file or the directory for that mode |
| ShellSafety.CheckedIff | stonesh.c:75-82 | the country is checked if and only if SSH_CLIENT holds more than blanks |
| ShellSafety.BlankClientUnchecked | stonesh.c:75-82 | an SSH_CLIENT of one blank lets every country list pass |
| ShellSafety.RemoteHostIs | stonesh.c:75 | the client's address is the first word of SSH_CLIENT |
| ShellSafety.CountryRule | stonesh.c:272-275 | the country rule of a run in terms of that address, the codes of the host and the two data files |
| ShellSafety.NoHostnameIff | stonesh.c:238 | the cut gives NULL if and only if the host is dots only |
| ShellSafety.DottedHostMode | stonesh.c:264-268 | a host with a dot is asked for as a proxied session while an ordinary one is started |
| ShellSafety.ProxiedSessionMode | stonesh.c:261-269 | a proxied session is authorized as one if and only if a blank precedes the keyword or the name does not begin with it |
| ShellSafety.KeywordHostMode | stonesh.c:264-266 | the keyword and a host that begins with it is asked for as an ordinary session while a proxied one is started |
| ShellRuns.KeywordHostIsProxied | stonesh.c:41-385 | a concrete run that starts nc for a user without the mark while proxying is off |
| ShellSafety.HostnameMeaning | stonesh.c:237-240 | the name of every host that is not dots only, from its leading dots, its first part and what follows |
| ShellSafety.HostnameIsPartIff | stonesh.c:237-240 | the name is the part before the first dot if and only if the host does not start with one |
| ShellSafety.LeadingDotName | stonesh.c:237-240 | ".web" gives "webb" |
| ShellSafety.HostnameKeepsIff | stonesh.c:237-240 | the host still starts the name if and only if it has no dot |
| ShellSafety.ModeAgreesIff | stonesh.c:261-269 | the mode asked for is the session started, if and only if a stated condition on blanks, dots and the keyword holds |
| ShellSafety.EndToEnd | stonesh.c:123-368 | over written configuration, hosts and users tables, any request is executed if and only if the tables allow it under the prefix rule, which is plain listing when no listed name properly extends the user or host |
| ShellSafety.EndToEndOpen | stonesh.c:123-368 | with authorization disabled, the hosts table, the proxy setting, the country and the terminal alone decide |
| ShellSafety.EndToEndLdap | stonesh.c:123-368 | with a directory, any request of escaped values is executed if and only if these allow it and an entry listed before any reference gives the user the host, with the service where the mark is asked for |
| ShellRuns.AliceReachesWeb | stonesh.c:41-385 | a concrete run that answers the prompt, and its vector |
| ShellRuns.AliceRunsUptime | stonesh.c:41-385 | a concrete run with a remote command and a port of its own, and its vector |

## Left out

- Options: the fields a file can set are one record value in the field `settings`; host and port are fields of their own.
- ReadConf.Options.ProcessConfigLine: the active flag is not a parameter, because its only caller sets it to 1; a keyword with an unclosed quote skips the line with status 0, as the check behind the NULL copy intends, and a missing string argument only sets the status; garbage behind the arguments frees a pointer into the line (readconf.c:289), which is taken to do nothing.
- Shell.Run: a blank command and a host of dots only, where the C text uses a NULL pointer, end as Undefined; when the configuration fails or the proxy keyword has no host, the C text looks at a hostent it never set (stonesh.c:60, stonesh.c:376), which is taken as NULL; an unset SSH_CLIENT, where the first strtok is called on NULL (stonesh.c:75), is taken as a local connection; Executed means that execvp was called, and its failure is not modelled.
- Shell.KeepHostname: the overlapping strncpy is taken as a forward copy.
- AuthLocal.TakePlus: the index of an empty entry wraps around in C; it is taken as the byte before the entry.
- Config.Atoi: for numbers outside a 32-bit int, where C leaves `atoi` open, it is a saturating 64-bit strtol cut to an int.
- LdapFilter.Parse: only equality, presence and substring items are parsed, not the ordering and approximate ones, and attribute values are compared character by character, without the matching rules of a schema.
- Auth.ProxyImpliesBastion: for a directory it asks for values whose parentheses and backslashes are escaped; Auth.ProxyImpliesBastionIff has the exact condition for all values.
- ShellSafety.EndToEndLdap: for values that are not escaped only AuthLdap.LdapMeaning says what the built text selects.
- AuthLdap.GetAuthLdap: the server lists its entries and references in one order for all searches; the library is taken to hand references over as messages, while with its referral setting it may follow them itself; a text that is no filter gets no reply; without a URI, a base or a filter the C text frees pointers it never set, which the model ignores.
- UsersTable.UsersRoundTrip: the guard on proper prefixes is sufficient only; for any query UsersTable.TableIsRead gives the decision.
- Logging, usage, version, signals, strtolower and the -l option: output only.
- getopt, getpwuid, getenv, isatty and the host prompt: their results are given in the Environment.
- getaddrinfo, the loopback and private address tests and the GeoIP databases: given as functions.
- The LDAP library and server: given as a Directory; errors of unbinding and memory ownership are not modelled.
- Failing malloc and fclose: allocation succeeds, and a file either opens or does not.
- Characters outside ASCII and other locales.
