/** Properties of the configuration reader: the first setting wins, a file is taken whole or
    not at all, what is written is read back, and what every loaded configuration satisfies. */
module ConfigProofs {
  import opened Text
  import Delim
  import opened Config

  // ---------------------------------------------------------------------------
  // First setting wins, all or nothing
  // ---------------------------------------------------------------------------

  /** The value the first effect that mentions the flag gives it, or UNSET. */
  function FirstFlag(es: seq<Effect>, k: FlagKey): int {
    if es == [] then UNSET
    else if es[0].change.SetFlag? && es[0].change.flag == k then es[0].change.value
    else FirstFlag(es[1..], k)
  }

  function FirstString(es: seq<Effect>, k: StringKey): Option<string> {
    if es == [] then None
    else if es[0].change.SetString? && es[0].change.key == k then Some(es[0].change.text)
    else FirstString(es[1..], k)
  }

  ghost predicate AllGood(es: seq<Effect>) {
    forall i :: 0 <= i < |es| ==> es[i].status == 0
  }

  lemma ApplyFrame(s: Settings, c: Change)
    ensures forall k ::
      Apply(s, c).Flag(k) == if c.SetFlag? && c.flag == k && s.Flag(k) == UNSET then c.value else s.Flag(k)
    ensures forall k ::
      Apply(s, c).Str(k) == if c.SetString? && c.key == k && s.Str(k).None? then Some(c.text) else s.Str(k)
    ensures Apply(s, c).authType == s.authType
  {
  }

  lemma {:induction false} BadLinesCounts(es: seq<Effect>)
    ensures BadLines(es) == 0 <==> AllGood(es)
  {
    if es != [] {
      var rest := es[1..];
      BadLinesCounts(rest);
      assert forall i :: 0 <= i < |rest| ==> rest[i] == es[i + 1];
      assert AllGood(es) <==> es[0].status == 0 && AllGood(rest) by {
        assert forall i :: 0 < i < |es| ==> es[i] == rest[i - 1];
      }
    }
  }

  lemma {:induction false} ProcessKeepsFirst(s: Settings, es: seq<Effect>)
    requires AllGood(es)
    requires forall i :: 0 <= i < |es| && es[i].change.SetFlag? ==> es[i].change.value != UNSET
    ensures forall k :: Process(s, es).Flag(k) == if s.Flag(k) == UNSET then FirstFlag(es, k) else s.Flag(k)
    ensures forall k :: Process(s, es).Str(k) == if s.Str(k).None? then FirstString(es, k) else s.Str(k)
    ensures Process(s, es).authType == s.authType
    decreases |es|
  {
    if es != [] {
      ApplyFrame(s, es[0].change);
      ProcessKeepsFirst(Apply(s, es[0].change), es[1..]);
    }
  }

  /** The values a line can give: flags 0 or 1, good lines non-empty texts. */
  lemma LineValues(line: string)
    ensures var e := LineEffect(line);
      && (e.change.SetFlag? ==> 0 <= e.change.value <= 1)
      && (e.status == 0 && e.change.SetString? ==> e.change.text != "")
      && (e.status == 0 && e.change.SetString? && e.change.key == NcTimeout ==> Atoi(e.change.text) > 0)
  {
    hide Delim.Split, Delim.SplitNext, Trimmed, Opcode, Atoi;
  }

  lemma LineTexts(line: string)
    requires NUL !in line
    ensures LineEffect(line).change.SetString? ==> NUL !in LineEffect(line).change.text
  {
    hide Delim.Split, Trimmed, Opcode, Atoi;
    TrimmedIsTidy(line);
    var t := Trimmed(line);
    Delim.SplitCharacters(t, NUL);
    var rest := Delim.Split(t).rest;
    if rest.Some? { Delim.SplitCharacters(rest.value, NUL); }
  }

  lemma FileValues(f: string)
    ensures forall i :: 0 <= i < |Effects(Lines(f))| && Effects(Lines(f))[i].change.SetFlag? ==>
      0 <= Effects(Lines(f))[i].change.value <= 1
  {
    var es := Effects(Lines(f));
    forall i | 0 <= i < |es| && es[i].change.SetFlag?
      ensures 0 <= es[i].change.value <= 1
    {
      LineValues(Lines(f)[i]);
    }
  }

  /** Every line has status 0. */
  ghost predicate GoodFile(f: string) {
    forall i :: 0 <= i < |Lines(f)| ==> LineEffect(Lines(f)[i]).status == 0
  }

  lemma GoodFileEffects(f: string)
    ensures GoodFile(f) <==> AllGood(Effects(Lines(f)))
  {
  }

  lemma FilledFlag(s: Settings, k: FlagKey)
    ensures FillDefaults(s).Flag(k) == Flagged(s.Flag(k))
  {
  }

  lemma FilledString(s: Settings, k: StringKey)
    ensures FillDefaults(s).Str(k) == Defaulted(s.Str(k), k)
  {
  }

  /** A file loads exactly when every line of it is good; then every option has the value of
      its first occurrence, or else its default. */
  lemma FirstSettingWins(f: string)
    ensures Load(Some(f)).Some? <==> GoodFile(f)
    ensures Load(Some(f)).Some? ==>
      var s, es := Load(Some(f)).value, Effects(Lines(f));
      && (forall k :: s.Flag(k) == Flagged(FirstFlag(es, k)))
      && (forall k :: s.Str(k) == Defaulted(FirstString(es, k), k))
  {
    hide LineEffect, Lines, GoodFile, FillDefaults, Flagged, Defaulted, AllGood, FirstFlag, FirstString;
    var es := Effects(Lines(f));
    BadLinesCounts(es);
    GoodFileEffects(f);
    if AllGood(es) {
      FileValues(f);
      ProcessKeepsFirst(NOTHING_SET, es);
      var s := Process(NOTHING_SET, es);
      forall k ensures FillDefaults(s).Flag(k) == Flagged(FirstFlag(es, k)) { FilledFlag(s, k); }
      forall k ensures FillDefaults(s).Str(k) == Defaulted(FirstString(es, k), k) { FilledString(s, k); }
    }
  }

  lemma {:induction false} FirstFlagFrom(es: seq<Effect>, k: FlagKey)
    ensures FirstFlag(es, k) == UNSET || exists i :: 0 <= i < |es| && es[i].change == SetFlag(k, FirstFlag(es, k))
  {
    if es != [] {
      var rest := es[1..];
      FirstFlagFrom(rest, k);
      assert forall i :: 0 <= i < |rest| ==> rest[i] == es[i + 1];
    }
  }

  lemma {:induction false} FirstStringFrom(es: seq<Effect>, k: StringKey)
    requires FirstString(es, k).Some?
    ensures exists i :: 0 <= i < |es| && es[i].change == SetString(k, FirstString(es, k).value)
  {
    if !(es[0].change.SetString? && es[0].change.key == k) {
      var rest := es[1..];
      FirstStringFrom(rest, k);
      assert forall i :: 0 <= i < |rest| ==> rest[i] == es[i + 1];
    }
  }

  /** Only 0/1 flags and non-empty C strings, a positive timeout, no text missing that has a
      default, and the auth_type the flags call for. */
  ghost predicate Sound(s: Settings) {
    && (forall k :: 0 <= s.Flag(k) <= 1)
    && (forall k :: DefaultString(k).Some? ==> s.Str(k).Some?)
    && (forall k :: s.Str(k).Some? ==> s.Str(k).value != "" && NUL !in s.Str(k).value)
    && s.ncTimeout.Some? && Atoi(s.ncTimeout.value) > 0
    && (s.disableAuthorization == 1 ==> s.authType == AUTH_TYPE_ANY)
    && (s.disableAuthorization == 0 && s.useLdap == 1 ==> s.authType == AUTH_TYPE_LDAP)
    && (s.disableAuthorization == 0 && s.useLdap == 0 ==> s.authType == AUTH_TYPE_LOCAL)
  }

  lemma LoadedSettings(f: string)
    requires Load(Some(f)).Some?
    ensures Sound(Load(Some(f)).value)
  {
    hide LineEffect, Lines, GoodFile, Atoi, FillDefaults, Load;
    var s := Load(Some(f)).value;
    FirstSettingWins(f);
    forall k ensures 0 <= s.Flag(k) <= 1 { LoadedFlag(f, k); }
    forall k ensures s.Str(k).Some? ==> s.Str(k).value != "" && NUL !in s.Str(k).value { LoadedString(f, k); }
    LoadedString(f, NcTimeout);
    assert s.Str(NcTimeout) == s.ncTimeout;
    LoadedAuthType(f);
  }

  lemma LoadedFlag(f: string, k: FlagKey)
    requires Load(Some(f)).Some?
    ensures 0 <= Load(Some(f)).value.Flag(k) <= 1
  {
    hide LineEffect, Lines, GoodFile;
    FirstSettingWins(f);
    FirstFlagFrom(Effects(Lines(f)), k);
    FileValues(f);
  }

  lemma DefaultTimeout()
    ensures DefaultString(NcTimeout) == Some("1") && Atoi("1") == 1
  {
  }

  lemma LoadedString(f: string, k: StringKey)
    requires Load(Some(f)).Some?
    ensures var v := Load(Some(f)).value.Str(k);
      && (v.Some? ==> v.value != "")
      && (v.Some? ==> NUL !in v.value)
      && (k == NcTimeout ==> v.Some? && Atoi(v.value) > 0)
  {
    hide LineEffect, Lines, GoodFile, Atoi, Load, DefaultString;
    var es := Effects(Lines(f));
    FirstSettingWins(f);
    GoodFileEffects(f);
    DefaultTimeout();
    if FirstString(es, k).Some? {
      FirstStringFrom(es, k);
      var i :| 0 <= i < |es| && es[i].change == SetString(k, FirstString(es, k).value);
      LineValues(Lines(f)[i]);
      LinesAreStrings(f, i);
      LineTexts(Lines(f)[i]);
    } else {
      DefaultIsString(k);
    }
  }

  lemma DefaultIsString(k: StringKey)
    ensures DefaultString(k).Some? ==> DefaultString(k).value != "" && NUL !in DefaultString(k).value
  {
  }

  lemma LoadedAuthType(f: string)
    requires Load(Some(f)).Some?
    ensures var s := Load(Some(f)).value;
      && (s.disableAuthorization == 1 ==> s.authType == AUTH_TYPE_ANY)
      && (s.disableAuthorization != 1 && s.useLdap == 1 ==> s.authType == AUTH_TYPE_LDAP)
      && (s.disableAuthorization != 1 && s.useLdap != 1 ==> s.authType == AUTH_TYPE_LOCAL)
  {
    hide LineEffect, Lines, GoodFile;
    var es := Effects(Lines(f));
    BadLinesCounts(es);
    FileValues(f);
    ProcessKeepsFirst(NOTHING_SET, es);
  }
}
