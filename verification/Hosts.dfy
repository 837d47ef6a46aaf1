/** The table of permitted hosts and the static record its lookup fills (hosts.c). */
module Hosts {
  import opened Text
  import opened CBuffer
  import opened AuthLocal

  datatype Host = Host(name: string, port: string, countries: string)

  // ---------------------------------------------------------------------------
  // What a hosts file lists
  // ---------------------------------------------------------------------------

  /** A field as it is recorded: the default when it is missing or empty, trimmed. */
  function Recorded(field: Option<string>, default: string): string {
    Trimmed(if field.None? || field.value == "" then default else field.value)
  }

  /** The next field of what `strsep` has left. */
  function NextField(rest: Option<string>): Option<string> {
    if rest.None? then None else Some(SepHead(rest.value, ':'))
  }

  function NextRest(rest: Option<string>): Option<string> {
    if rest.None? then None else SepTail(rest.value, ':')
  }

  function HostOf(name: string, rest: Option<string>): Host {
    Host(name, Recorded(NextField(rest), "22"), Recorded(NextField(NextRest(rest)), ""))
  }

  /** The host of a line, if the line lists that name exactly. */
  function LineHost(line: string, name: string): Option<Host> {
    var t := Trimmed(line);
    if t == "" || SepHead(t, ':') != name then None else Some(HostOf(name, SepTail(t, ':')))
  }

  function FirstHost(lines: seq<string>, name: string): Option<Host> {
    if lines == [] then None
    else if LineHost(lines[0], name).Some? then LineHost(lines[0], name)
    else FirstHost(lines[1..], name)
  }

  function Lookup(file: Option<string>, name: string): Option<Host> {
    if file.None? then None else FirstHost(Lines(file.value), name)
  }

  lemma LineHostName(line: string, name: string)
    ensures LineHost(line, name).Some? ==> LineHost(line, name).value.name == name
  {
  }

  /** The answer is that of the first line listing the name exactly. */
  lemma {:induction false} FirstHostIs(lines: seq<string>, name: string, i: nat)
    requires i < |lines| && LineHost(lines[i], name).Some?
    requires forall j :: 0 <= j < i ==> LineHost(lines[j], name).None?
    ensures FirstHost(lines, name) == LineHost(lines[i], name)
  {
    hide LineHost;
    if i > 0 {
      assert LineHost(lines[0], name).None?;
      FirstHostIs(lines[1..], name, i - 1);
    }
  }

  /** There is an answer exactly when some line lists the name, and it bears that name. */
  lemma {:induction false} AnswerIff(lines: seq<string>, name: string)
    ensures FirstHost(lines, name).Some? <==> exists j :: 0 <= j < |lines| && LineHost(lines[j], name).Some?
    ensures FirstHost(lines, name).Some? ==> FirstHost(lines, name).value.name == name
  {
    hide LineHost;
    if lines != [] {
      var rest := lines[1..];
      AnswerIff(rest, name);
      LineHostName(lines[0], name);
      assert forall j :: 0 <= j < |rest| ==> rest[j] == lines[j + 1];
      assert forall j :: 0 < j < |lines| ==> lines[j] == rest[j - 1];
    }
  }

  // ---------------------------------------------------------------------------
  // Many calls
  // ---------------------------------------------------------------------------

  /** A call of the lookup, with a NULL name or file name as None; `text` is what the file holds
      if it can be opened. */
  datatype Call = Call(name: Option<string>, file: Option<string>, text: Option<string>)

  predicate Given(c: Call) {
    c.name.Some? && c.file.Some?
  }

  /** What a call leaves in the static record: None for all NULL. */
  function AfterCall(record: Option<Host>, c: Call): Option<Host> {
    if Given(c) then Lookup(c.text, c.name.value) else record
  }

  function AfterCalls(record: Option<Host>, calls: seq<Call>): Option<Host>
    decreases |calls|
  {
    if calls == [] then record else AfterCalls(AfterCall(record, calls[0]), calls[1..])
  }

  /** Calls with a NULL argument leave the record alone. */
  lemma {:induction false} NullCallsKeep(record: Option<Host>, calls: seq<Call>)
    requires forall i :: 0 <= i < |calls| ==> !Given(calls[i])
    ensures AfterCalls(record, calls) == record
    decreases |calls|
  {
    hide Lookup;
    if calls != [] { NullCallsKeep(record, calls[1..]); }
  }

  /** However many calls were made before and whatever they asked, the record is the answer to the
      last call without a NULL argument: empty, or for the very name it asked. */
  lemma {:induction false} RecordIsLastAnswer(record: Option<Host>, calls: seq<Call>, i: nat)
    requires i < |calls| && Given(calls[i])
    requires forall j :: i < j < |calls| ==> !Given(calls[j])
    ensures AfterCalls(record, calls) == Lookup(calls[i].text, calls[i].name.value)
    ensures AfterCalls(record, calls).Some? ==> AfterCalls(record, calls).value.name == calls[i].name.value
    decreases |calls|
  {
    hide Lookup;
    var next := AfterCall(record, calls[0]);
    AnswerName(calls[i].text, calls[i].name.value);
    if i > 0 {
      RecordIsLastAnswer(next, calls[1..], i - 1);
    } else {
      NullCallsKeep(next, calls[1..]);
    }
  }

  lemma AnswerName(file: Option<string>, name: string)
    ensures Lookup(file, name).Some? ==> Lookup(file, name).value.name == name
  {
    hide FirstHost;
    if file.Some? { AnswerIff(Lines(file.value), name); }
  }

  // ---------------------------------------------------------------------------
  // gethostentry
  // ---------------------------------------------------------------------------

  /** `strdup` of a field or of its default, trimmed. */
  method Record(line: array<char>, field: Option<nat>, default: string, ghost text: Option<string>)
    returns (r: array<char>)
    requires (field.Some? <==> text.Some?) && (field.Some? ==> Str(line, field.value, text.value))
    requires NUL !in default
    ensures fresh(r) && Str(r, 0, Recorded(text, default))
  {
    hide Trimmed;
    var v := default;
    if field.Some? {
      var t := StrDup(line, field.value, text.value);
      StrHasNoNul(line, field.value, text.value);
      if t != "" { v := t; }
    }
    r := FromString(v);
    Trim(r, 0, v);
  }

  lemma StrHasNoNul(a: array<char>, p: nat, v: string)
    requires Str(a, p, v)
    ensures NUL !in v
  {
  }

  class HostEntry {
    var host: array?<char>
    var port: array?<char>
    var countries: array?<char>

    predicate Empty()
      reads this
    {
      host == null && port == null && countries == null
    }

    /** The record holds h, each field in a buffer of its own. */
    ghost predicate Holds(h: Host)
      reads this, host, port, countries
    {
      && host != null && port != null && countries != null
      && host != port && host != countries && port != countries
      && Str(host, 0, h.name) && Str(port, 0, h.port) && Str(countries, 0, h.countries)
    }

    constructor ()
      ensures Empty()
    {
      host, port, countries := null, null, null;
    }

    /** `HOSTS_FREE` of the three fields. */
    method Free()
      modifies this
      ensures Empty()
    {
      host, port, countries := null, null, null;
    }

    /** The branch for the line that lists the name: fills the record from the rest of it. */
    method Fill(line: array<char>, lineptr: Option<nat>, hostname: string, ghost rest: Option<string>)
      requires lineptr.Some? <==> rest.Some?
      requires lineptr.Some? ==> Str(line, lineptr.value, rest.value)
      requires NUL !in hostname
      modifies this, line
      ensures Holds(HostOf(hostname, rest))
      ensures fresh(host) && fresh(port) && fresh(countries)
    {
      hide Recorded, SepHead, SepTail;
      host := FromString(hostname);
      var field, next := StrSep(line, lineptr, ':', if rest.Some? then rest.value else "");
      port := Record(line, field, "22", NextField(rest));
      ghost var rest' := NextRest(rest);
      field, next := StrSep(line, next, ':', if rest'.Some? then rest'.value else "");
      countries := Record(line, field, "", NextField(rest'));
    }

    /** What one line does: fills the record if it lists the name. */
    method CheckLine(line: array<char>, hostname: string, ghost v: string) returns (found: bool)
      requires Str(line, 0, v) && NUL !in hostname
      modifies this, line
      ensures found == LineHost(v, hostname).Some?
      ensures found ==> Holds(LineHost(v, hostname).value) && fresh(host) && fresh(port) && fresh(countries)
      ensures !found ==> host == old(host) && port == old(port) && countries == old(countries)
    {
      hide Trimmed, SepHead, SepTail, HostOf;
      Trim(line, 0, v);
      ghost var t := Trimmed(v);
      StrChar(line, 0, t, 0);
      if line[0] == NUL {
        return false;
      }
      var field, next := StrSep(line, Some(0), ':', t);
      var name := StrDup(line, 0, SepHead(t, ':'));
      if name != hostname {
        return false;
      }
      Fill(line, next, hostname, SepTail(t, ':'));
      return true;
    }

    /** The record holds what r says. */
    ghost predicate Represents(r: Option<Host>)
      reads this, host, port, countries
    {
      if r.None? then Empty() else Holds(r.value)
    }

    /** `gethostentry`: true for a pointer to the record, false for NULL. */
    method Get(hostname: Option<string>, file: Option<string>, files: map<string, string>,
               ghost before: Option<Host>)
      returns (found: bool)
      requires hostname.Some? ==> NUL !in hostname.value
      requires Represents(before)
      modifies this
      ensures Represents(AfterCall(before, Call(hostname, file, Contents(files, file))))
      ensures hostname.None? || file.None? ==>
        !found && host == old(host) && port == old(port) && countries == old(countries)
      ensures hostname.Some? && file.Some? ==>
        && found == Lookup(Contents(files, file), hostname.value).Some?
        && (found ==> fresh(host) && fresh(port) && fresh(countries))
    {
      hide FirstHost;
      if hostname.None? || file.None? {
        return false;
      }
      Free();
      if file.value !in files {
        return false;
      }
      found := ReadHosts(files[file.value], hostname.value);
    }

    /** The reading loop. */
    method ReadHosts(f: string, name: string) returns (found: bool)
      requires Empty() && NUL !in name
      modifies this
      ensures found == FirstHost(Lines(f), name).Some?
      ensures found ==>
        Holds(FirstHost(Lines(f), name).value) && fresh(host) && fresh(port) && fresh(countries)
      ensures !found ==> Empty()
    {
      hide LineHost;
      var line := new char[LINE_SIZE + 1];
      var pos := 0;
      while true
        invariant pos <= |f| && Empty()
        invariant FirstHost(Lines(f), name) == FirstHost(Lines(f[pos..]), name)
        decreases |f| - pos
      {
        var next := Fgets(f, pos, line);
        if next.None? {
          return false;
        }
        ghost var text := CText(f[pos..next.value]);
        LinesOfRest(f, pos, next.value);
        found := CheckLine(line, name, text);
        if found {
          return;
        }
        assert ([text] + Lines(f[next.value..]))[1..] == Lines(f[next.value..]);
        pos := next.value;
      }
    }
  }
}
