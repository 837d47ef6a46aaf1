/** The check of the client's country (geoip.c).  The address family, the loopback tests and
    the country databases are given. */
module GeoIp {
  import opened Text
  import opened CBuffer

  datatype Family = Inet | Inet6 | OtherFamily

  /** What the resolver and the GeoIP databases say about addresses; a country is looked up in
      the data file named second. */
  datatype World = World(
    family: string -> Family,
    isLocal: string -> bool,
    isLocal6: string -> bool,
    country: (string, string) -> Option<string>,
    country6: (string, string) -> Option<string>)

  const GEOIP_DELIM := ","

  /** The loopback addresses are always let through. */
  predicate Loopback(w: World, address: string) {
    match w.family(address)
    case Inet => w.isLocal(address)
    case Inet6 => w.isLocal6(address)
    case OtherFamily => false
  }

  function CountryCode(w: World, address: string, dat: string, dat6: string): Option<string> {
    match w.family(address)
    case Inet => w.country(address, dat)
    case Inet6 => w.country6(address, dat6)
    case OtherFamily => None
  }

  /** A piece of the list names the country. */
  predicate Names(piece: string, code: string) {
    UpperAll(Trimmed(piece)) == code
  }

  predicate SomeNames(pieces: seq<string>, code: string) {
    pieces != [] && (Names(pieces[0], code) || SomeNames(pieces[1..], code))
  }

  lemma {:induction false} SomeNamesIff(pieces: seq<string>, code: string)
    ensures SomeNames(pieces, code) <==> exists i :: 0 <= i < |pieces| && Names(pieces[i], code)
  {
    hide Names;
    if pieces != [] {
      var rest := pieces[1..];
      SomeNamesIff(rest, code);
      assert forall i :: 0 <= i < |rest| ==> rest[i] == pieces[i + 1];
      assert forall i :: 0 < i < |pieces| ==> pieces[i] == rest[i - 1];
    }
  }

  /** Whether an address is allowed by a list of countries. */
  predicate Allowed(w: World, address: string, list: Option<string>, delim: string, dat: string, dat6: string) {
    || list.None? || list.value == ""
    || Loopback(w, address)
    || (CountryCode(w, address, dat, dat6).Some?
        && SomeNames(Tokens(list.value, delim), CountryCode(w, address, dat, dat6).value))
  }

  /** Some piece, trimmed and uppercased, is the known country. */
  ghost predicate SomePieceIs(pieces: seq<string>, country: Option<string>) {
    exists i :: 0 <= i < |pieces| && Some(UpperAll(Trimmed(pieces[i]))) == country
  }

  lemma PiecesName(pieces: seq<string>, country: Option<string>)
    ensures country.Some? && SomeNames(pieces, country.value) <==> SomePieceIs(pieces, country)
  {
    hide SomeNames, UpperAll, Trimmed;
    if country.Some? {
      SomeNamesIff(pieces, country.value);
      forall i | 0 <= i < |pieces|
        ensures Names(pieces[i], country.value) <==> Some(UpperAll(Trimmed(pieces[i]))) == country
      {
      }
    }
  }

  /** The rule in terms of the pieces of the list. */
  lemma AllowedIff(w: World, address: string, list: Option<string>, delim: string, dat: string, dat6: string)
    ensures Allowed(w, address, list, delim, dat, dat6) <==>
      || list.None? || list.value == "" || Loopback(w, address)
      || SomePieceIs(Tokens(list.value, delim), CountryCode(w, address, dat, dat6))
  {
    hide Tokens, Loopback, CountryCode, SomePieceIs, SomeNames;
    if list.Some? {
      PiecesName(Tokens(list.value, delim), CountryCode(w, address, dat, dat6));
    }
  }

  /** A list of codes written with commas and space around them names exactly the countries in it,
      whatever the case of its letters. */
  lemma CountryListRoundTrip(pieces: seq<string>, codes: seq<string>, ls: seq<string>, rs: seq<string>, code: string)
    requires |pieces| == |codes| == |ls| == |rs|
    requires forall i :: 0 <= i < |codes| ==>
      && codes[i] != "" && Tidy(codes[i]) && ',' !in codes[i] && AllSpace(ls[i]) && AllSpace(rs[i])
      && pieces[i] == ls[i] + codes[i] + rs[i]
    ensures SomeNames(Tokens(Joined(pieces, ','), ","), code) <==>
            exists i :: 0 <= i < |codes| && Uppercased(codes[i], code)
  {
    hide Tokens, Joined, UpperAll, Trimmed, Tidy, Uppercased, AllSpace;
    forall i | 0 <= i < |codes|
      ensures pieces[i] != "" && ',' !in pieces[i]
      ensures Names(pieces[i], code) <==> Uppercased(codes[i], code)
    {
      TrimmedPadded(ls[i], codes[i], rs[i], "");
      assert ls[i] + codes[i] + rs[i] + "" == pieces[i];
      SpaceLacks(ls[i]);
      SpaceLacks(rs[i]);
      UpperAllIff(codes[i], code);
    }
    TokensOfJoined(pieces, ',');
    SomeNamesIff(pieces, code);
  }

  /** The rule for every address, with the tests and databases it rests on: for a list written with
      commas, an IPv4 address is looked up in the first data file, an IPv6 address in the second,
      and an address of another kind is refused. */
  lemma AllowedMeans(w: World, address: string, pieces: seq<string>, codes: seq<string>, ls: seq<string>,
                     rs: seq<string>, dat: string, dat6: string)
    requires |pieces| == |codes| == |ls| == |rs| && codes != []
    requires forall i :: 0 <= i < |codes| ==>
      && codes[i] != "" && Tidy(codes[i]) && ',' !in codes[i] && AllSpace(ls[i]) && AllSpace(rs[i])
      && pieces[i] == ls[i] + codes[i] + rs[i]
    ensures Allowed(w, address, Some(Joined(pieces, ',')), ",", dat, dat6) <==>
      match w.family(address)
      case Inet => w.isLocal(address) || InCodes(codes, w.country(address, dat))
      case Inet6 => w.isLocal6(address) || InCodes(codes, w.country6(address, dat6))
      case OtherFamily => false
  {
    assert pieces[0] != "" && Joined(pieces, ',') != "";
    hide Tokens, Joined, SomeNames, Uppercased, AllSpace, Tidy, InCodes;
    NamedIffInCodes(pieces, codes, ls, rs, CountryCode(w, address, dat, dat6));
  }

  lemma NamedIffInCodes(pieces: seq<string>, codes: seq<string>, ls: seq<string>, rs: seq<string>,
                        country: Option<string>)
    requires |pieces| == |codes| == |ls| == |rs|
    requires forall i :: 0 <= i < |codes| ==>
      && codes[i] != "" && Tidy(codes[i]) && ',' !in codes[i] && AllSpace(ls[i]) && AllSpace(rs[i])
      && pieces[i] == ls[i] + codes[i] + rs[i]
    ensures country.Some? && SomeNames(Tokens(Joined(pieces, ','), ","), country.value) <==> InCodes(codes, country)
  {
    hide Tokens, Joined, SomeNames, Uppercased, AllSpace, Tidy;
    if country.Some? { CountryListRoundTrip(pieces, codes, ls, rs, country.value); }
  }

  /** The country is known and some code, in upper case, is it. */
  ghost predicate InCodes(codes: seq<string>, country: Option<string>) {
    country.Some? && exists i :: 0 <= i < |codes| && Uppercased(codes[i], country.value)
  }

  /** No list, or an empty one, lets every address pass. */
  lemma NoListAllows(w: World, address: string, delim: string, dat: string, dat6: string)
    ensures Allowed(w, address, None, delim, dat, dat6) && Allowed(w, address, Some(""), delim, dat, dat6)
  {
  }

  /** Trims and uppercases the piece at p, and compares it with the code. */
  method PieceMatches(a: array<char>, p: nat, code: string, ghost t: string) returns (same: bool)
    requires Str(a, p, t)
    modifies a
    ensures same == Names(t, code) && OnlyIn(a, p, p + |t|)
  {
    hide Trimmed, UpperAll;
    Trim(a, p, t);
    StrToUpper(a, p, Trimmed(t));
    var country := StrDup(a, p, UpperAll(Trimmed(t)));
    same := country == code;
  }

  /** The `strtok` walk over the list. */
  method ScanCountries(a: array<char>, delim: string, code: string, ghost v: string) returns (found: bool)
    requires Str(a, 0, v) && NUL !in delim
    modifies a
    ensures found == SomeNames(Tokens(v, delim), code)
  {
    hide Names, Skip, FirstToken, AfterToken;
    var country: Option<nat>, save: nat := StrTok(a, 0, delim, v);
    ghost var from := v;
    while country.Some?
      invariant country.Some? <==> Skip(from, delim) != ""
      invariant country.Some? ==>
        && Str(a, country.value, FirstToken(from, delim))
        && Str(a, save, AfterToken(from, delim))
        && country.value + |FirstToken(from, delim)| <= save
        && (AfterToken(from, delim) != "" ==> country.value + |FirstToken(from, delim)| < save)
      invariant SomeNames(Tokens(v, delim), code) == SomeNames(Tokens(from, delim), code)
      decreases |from|
    {
      ghost var t, r := FirstToken(from, delim), AfterToken(from, delim);
      assert Tokens(from, delim) == [t] + Tokens(r, delim);
      assert Tokens(from, delim)[1..] == Tokens(r, delim);
      found := PieceMatches(a, country.value, code, t);
      if found {
        return;
      }
      AfterTokenShrinks(from, delim);
      country, save := StrTok(a, save, delim, r);
      from := r;
    }
    return false;
  }

  /** `is_from_valid_country`.  The list is cut and uppercased in place. */
  method IsFromValidCountry(address: string, list: array?<char>, delim: Option<string>, w: World,
                            dat: string, dat6: string, ghost v: string)
    returns (r: int)
    requires list != null ==> Str(list, 0, v)
    requires delim.Some? ==> NUL !in delim.value
    modifies if list != null then {list} else {}
    ensures r == if Allowed(w, address, if list == null then None else Some(v),
                            if delim.Some? then delim.value else ",", dat, dat6) then 1 else 0
  {
    hide Tokens, SomeNames;
    if list == null {
      return 1;
    }
    var n := StrLen(list, 0, v);
    if n == 0 {
      return 1;
    }
    var delimiter := if delim.Some? then delim.value else GEOIP_DELIM;
    var code: Option<string>;
    match w.family(address) {
      case Inet =>
        if w.isLocal(address) { return 1; }
        code := w.country(address, dat);
      case Inet6 =>
        if w.isLocal6(address) { return 1; }
        code := w.country6(address, dat6);
      case OtherFamily =>
        code := None;
    }
    if code.None? {
      return 0;
    }
    var found := ScanCountries(list, delimiter, code.value, v);
    r := if found then 1 else 0;
  }
}
