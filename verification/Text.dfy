/** Pure meanings of the C string functions the shell is built from.  A C string is
    modelled by its characters before the terminating NUL. */
module Text {

  datatype Option<+T> = None | Some(value: T)

  const NUL := '\0'

  // ---------------------------------------------------------------------------
  // Characters (the "C" locale, ASCII)
  // ---------------------------------------------------------------------------

  predicate IsSpace(c: char) {
    c == ' ' || '\t' <= c <= '\r'
  }

  function Upper(c: char): char {
    if 'a' <= c <= 'z' then c - 'a' + 'A' else c
  }

  function Lower(c: char): char {
    if 'A' <= c <= 'Z' then c - 'A' + 'a' else c
  }

  function UpperAll(v: string): (r: string)
    ensures |r| == |v| && forall i :: 0 <= i < |v| ==> r[i] == Upper(v[i])
  {
    seq(|v|, i requires 0 <= i < |v| => Upper(v[i]))
  }

  /** What `strcasecmp` finds equal. */
  predicate EqualCI(a: string, b: string) {
    |a| == |b| && forall i :: 0 <= i < |a| ==> Lower(a[i]) == Lower(b[i])
  }

  /** What `strncasecmp` over the length of p finds equal. */
  predicate PrefixCI(p: string, v: string) {
    |p| <= |v| && forall i :: 0 <= i < |p| ==> Lower(p[i]) == Lower(v[i])
  }

  /** v only extends p; the comparison above cannot tell it from p itself. */
  predicate ProperPrefixCI(p: string, v: string) {
    PrefixCI(p, v) && |p| < |v|
  }

  /** The same character, or the same letter of the alphabet in the other case. */
  predicate SameLetter(x: char, y: char) {
    || x == y
    || ('a' <= x <= 'z' && y == x - 'a' + 'A')
    || ('a' <= y <= 'z' && x == y - 'a' + 'A')
  }

  lemma SameLetterIff(x: char, y: char)
    ensures Lower(x) == Lower(y) <==> SameLetter(x, y)
  {
  }

  /** Which texts are equal but for the case of their letters. */
  lemma EqualCIIff(a: string, b: string)
    ensures EqualCI(a, b) <==> |a| == |b| && forall i :: 0 <= i < |a| ==> SameLetter(a[i], b[i])
  {
    hide Lower, SameLetter;
    if |a| == |b| {
      forall i | 0 <= i < |a| ensures Lower(a[i]) == Lower(b[i]) <==> SameLetter(a[i], b[i]) {
        SameLetterIff(a[i], b[i]);
      }
    }
  }

  /** Which texts begin with p but for the case of the letters. */
  lemma PrefixCIIff(p: string, v: string)
    ensures PrefixCI(p, v) <==> |p| <= |v| && forall i :: 0 <= i < |p| ==> SameLetter(p[i], v[i])
  {
    hide Lower, SameLetter;
    if |p| <= |v| {
      forall i | 0 <= i < |p| ensures Lower(p[i]) == Lower(v[i]) <==> SameLetter(p[i], v[i]) {
        SameLetterIff(p[i], v[i]);
      }
    }
  }

  /** Texts that differ in case only compare alike with every other text. */
  lemma CaseBlind(a: string, b: string, v: string)
    requires EqualCI(a, b)
    ensures PrefixCI(a, v) <==> PrefixCI(b, v)
    ensures EqualCI(a, v) <==> EqualCI(b, v)
  {
  }

  /** code is x with its lower-case letters turned into upper-case ones. */
  predicate Uppercased(x: string, code: string) {
    |x| == |code| && forall i :: 0 <= i < |x| ==>
      if 'a' <= x[i] <= 'z' then code[i] == x[i] - 'a' + 'A' else code[i] == x[i]
  }

  lemma UpperAllIff(x: string, code: string)
    ensures UpperAll(x) == code <==> Uppercased(x, code)
  {
    if Uppercased(x, code) {
      assert forall i :: 0 <= i < |x| ==> UpperAll(x)[i] == code[i];
    }
  }

  // ---------------------------------------------------------------------------
  // Scanning
  // ---------------------------------------------------------------------------

  /** `strcspn`: where the first character of `cs` is, or |v|. */
  function Find(v: string, cs: string): (r: nat)
    ensures r <= |v|
    ensures forall i :: 0 <= i < r ==> v[i] !in cs
    ensures r < |v| ==> v[r] in cs
  {
    if v == "" || v[0] in cs then 0 else 1 + Find(v[1..], cs)
  }

  /** `strspn`: how many leading characters are in `cs`. */
  function Span(v: string, cs: string): (r: nat)
    ensures r <= |v|
    ensures forall i :: 0 <= i < r ==> v[i] in cs
    ensures r < |v| ==> v[r] !in cs
  {
    if v == "" || v[0] !in cs then 0 else 1 + Span(v[1..], cs)
  }

  function Skip(v: string, cs: string): (r: string)
    ensures |r| <= |v|
  {
    v[Span(v, cs)..]
  }

  lemma FindIs(v: string, cs: string, k: nat)
    requires k <= |v|
    requires forall i :: 0 <= i < k ==> v[i] !in cs
    requires k < |v| ==> v[k] in cs
    ensures Find(v, cs) == k
  {
  }

  lemma SpanIs(v: string, cs: string, k: nat)
    requires k <= |v|
    requires forall i :: 0 <= i < k ==> v[i] in cs
    requires k < |v| ==> v[k] !in cs
    ensures Span(v, cs) == k
  {
  }

  // ---------------------------------------------------------------------------
  // trim
  // ---------------------------------------------------------------------------

  function CutComment(v: string): string {
    v[..Find(v, "#")]
  }

  function StripRight(v: string): (r: string)
    ensures r <= v
    ensures r != "" ==> !IsSpace(r[|r| - 1])
    ensures forall i :: |r| <= i < |v| ==> IsSpace(v[i])
  {
    if v != "" && IsSpace(v[|v| - 1]) then StripRight(v[..|v| - 1]) else v
  }

  function StripLeft(v: string): (r: string)
    ensures |r| <= |v| && r == v[|v| - |r|..]
    ensures r != "" ==> !IsSpace(r[0])
    ensures forall i :: 0 <= i < |v| - |r| ==> IsSpace(v[i])
  {
    if v != "" && IsSpace(v[0]) then StripLeft(v[1..]) else v
  }

  /** The text left by `trim`: the comment cut, then the ends stripped. */
  function Trimmed(v: string): (r: string)
    ensures |r| <= |v|
  {
    StripLeft(StripRight(CutComment(v)))
  }

  /** The strings `trim` leaves alone. */
  predicate Tidy(v: string) {
    && '#' !in v
    && (v != "" ==> !IsSpace(v[0]) && !IsSpace(v[|v| - 1]))
  }

  /** The characters `trim` takes off the ends. */
  lemma SpacesAre(c: char)
    ensures IsSpace(c) <==> c in [' ', '\t', '\n', '\U{B}', '\U{C}', '\r']
  {
  }

  predicate AllSpace(s: string) {
    forall i :: 0 <= i < |s| ==> IsSpace(s[i])
  }

  lemma StripRightIs(v: string, k: nat)
    requires k <= |v| && (k > 0 ==> !IsSpace(v[k - 1]))
    requires forall i :: k <= i < |v| ==> IsSpace(v[i])
    ensures StripRight(v) == v[..k]
  {
    assert !(|StripRight(v)| < k);
  }

  lemma StripLeftIs(v: string, k: nat)
    requires k <= |v| && (k < |v| ==> !IsSpace(v[k]))
    requires forall i :: 0 <= i < k ==> IsSpace(v[i])
    ensures StripLeft(v) == v[k..]
  {
    assert !(k < |v| - |StripLeft(v)|);
  }

  /** What trimming leaves is a piece of the original, free of comment and outer space. */
  lemma TrimmedIsTidy(v: string)
    ensures Tidy(Trimmed(v))
    ensures forall c :: c in Trimmed(v) ==> c in v
  {
    var cut := CutComment(v);
    var right := StripRight(cut);
    var t := StripLeft(right);
    assert t != "" ==> t[|t| - 1] == right[|right| - 1];
    forall i | 0 <= i < |t|
      ensures t[i] in v && t[i] != '#'
    {
      assert t[i] == cut[|right| - |t| + i] == v[|right| - |t| + i];
    }
  }

  lemma TidyIsTrimmed(v: string)
    requires Tidy(v)
    ensures Trimmed(v) == v
  {
    FindIs(v, "#", |v|);
    assert CutComment(v) == v;
  }

  /** trim's fixed points are exactly the tidy strings. */
  lemma TrimmedFixpoint(v: string)
    ensures Trimmed(v) == v <==> Tidy(v)
    ensures Trimmed(Trimmed(v)) == Trimmed(v)
  {
    TrimmedIsTidy(v);
    TidyIsTrimmed(Trimmed(v));
    if Tidy(v) { TidyIsTrimmed(v); }
  }

  /** A tidy text is what is left of it after outer space and a comment were added. */
  lemma TrimmedPadded(left: string, v: string, right: string, comment: string)
    requires Tidy(v) && (comment == "" || comment[0] == '#')
    requires AllSpace(left) && AllSpace(right)
    ensures Trimmed(left + v + right + comment) == v
  {
    hide StripRight, StripLeft, Find;
    var body := left + v + right;
    var all := body + comment;
    forall i | 0 <= i < |body| ensures all[i] != '#' {
      if |left| <= i < |left| + |v| { assert body[i] == v[i - |left|]; }
    }
    FindIs(all, "#", |body|);
    assert CutComment(all) == body;
    hide CutComment;
    SpacePadded(left, v, right);
  }

  lemma StripRightPadded(v: string, right: string)
    requires (v == "" || !IsSpace(v[|v| - 1])) && AllSpace(right)
    ensures StripRight(v + right) == v
  {
    hide StripRight;
    StripRightIs(v + right, |v|);
    assert (v + right)[..|v|] == v;
  }

  lemma StripLeftPadded(left: string, v: string)
    requires (v == "" || !IsSpace(v[0])) && AllSpace(left)
    ensures StripLeft(left + v) == v
  {
    hide StripLeft;
    StripLeftIs(left + v, |left|);
    assert (left + v)[|left|..] == v;
  }

  lemma OnlySpace(left: string, right: string)
    requires AllSpace(left) && AllSpace(right)
    ensures StripLeft(StripRight(left + right)) == ""
  {
    hide StripRight, IsSpace;
    StripRightPadded("", left + right);
    assert "" + (left + right) == left + right;
  }

  lemma SpacePadded(left: string, v: string, right: string)
    requires Tidy(v) && AllSpace(left) && AllSpace(right)
    ensures StripLeft(StripRight(left + v + right)) == v
  {
    if v == "" {
      assert left + v == left;
      OnlySpace(left, right);
    } else {
      var x := left + v;
      assert x != "" && x[|x| - 1] == v[|v| - 1];
      hide StripRight, StripLeft, IsSpace, AllSpace;
      StripRightPadded(x, right);
      StripLeftPadded(left, v);
    }
  }

  lemma CommentPart(v: string) returns (comment: string)
    ensures v == CutComment(v) + comment && (comment == "" || comment[0] == '#')
  {
    var k := Find(v, "#");
    comment := v[k..];
    Halves(v, k);
  }

  lemma RightPart(v: string) returns (right: string)
    ensures v == StripRight(v) + right && AllSpace(right)
  {
    hide StripRight, IsSpace;
    var n := |StripRight(v)|;
    right := v[n..];
    Halves(v, n);
  }

  lemma LeftPart(v: string) returns (left: string)
    ensures v == left + StripLeft(v) && AllSpace(left)
  {
    hide StripLeft, IsSpace;
    var n := |v| - |StripLeft(v)|;
    left := v[..n];
    Halves(v, n);
  }

  /** Conversely, trimming only takes outer space and a comment off. */
  lemma TrimmedParts(v: string) returns (left: string, right: string, comment: string)
    ensures v == left + Trimmed(v) + right + comment
    ensures comment == "" || comment[0] == '#'
    ensures AllSpace(left) && AllSpace(right)
  {
    hide StripRight, StripLeft, CutComment, AllSpace;
    comment := CommentPart(v);
    right := RightPart(CutComment(v));
    left := LeftPart(StripRight(CutComment(v)));
  }

  lemma StripRightCI(a: string, b: string)
    requires EqualCI(a, b)
    ensures EqualCI(StripRight(a), StripRight(b))
  {
    hide StripRight, EqualCI, PrefixCI;
    SameSpaces(a, b);
    var n := |StripRight(a)|;
    assert StripRight(a) == a[..n];
    assert n > 0 ==> a[n - 1] == StripRight(a)[n - 1];
    StripRightIs(b, n);
    PartsCI(a, b, 0, n);
  }

  lemma StripLeftCI(a: string, b: string)
    requires EqualCI(a, b)
    ensures EqualCI(StripLeft(a), StripLeft(b))
  {
    hide StripLeft, EqualCI, PrefixCI;
    SameSpaces(a, b);
    var n := |a| - |StripLeft(a)|;
    assert n < |a| ==> a[n] == StripLeft(a)[0];
    StripLeftIs(b, n);
    PartsCI(a, b, n, |a|);
  }

  lemma SameSpaces(a: string, b: string)
    requires EqualCI(a, b)
    ensures |a| == |b| && forall i :: 0 <= i < |a| ==> (IsSpace(a[i]) <==> IsSpace(b[i]))
    ensures forall i :: 0 <= i < |a| ==> (a[i] == '#' <==> b[i] == '#')
  {
    forall i | 0 <= i < |a|
      ensures (IsSpace(a[i]) <==> IsSpace(b[i])) && (a[i] == '#' <==> b[i] == '#')
    {
      assert Lower(a[i]) == Lower(b[i]);
    }
  }

  lemma PartsCI(a: string, b: string, i: nat, j: nat)
    requires EqualCI(a, b) && i <= j <= |a|
    ensures EqualCI(a[i..j], b[i..j]) && a[i..|a|] == a[i..] && b[i..|b|] == b[i..] && b[0..j] == b[..j]
  {
  }

  /** Trimming keeps texts that differ in case only so. */
  lemma TrimmedCI(a: string, b: string)
    requires EqualCI(a, b)
    ensures EqualCI(Trimmed(a), Trimmed(b))
  {
    hide StripRight, StripLeft, EqualCI, Find;
    SameSpaces(a, b);
    var k := Find(a, "#");
    FindIs(b, "#", k);
    PartsCI(a, b, 0, k);
    assert a[0..k] == a[..k];
    StripRightCI(CutComment(a), CutComment(b));
    StripLeftCI(StripRight(CutComment(a)), StripRight(CutComment(b)));
  }

  lemma Halves(v: string, n: nat)
    requires n <= |v|
    ensures v == v[..n] + v[n..]
  {
  }

  // ---------------------------------------------------------------------------
  // strsep and strtok
  // ---------------------------------------------------------------------------

  /** The token `strsep` returns. */
  function SepHead(v: string, c: char): string {
    v[..Find(v, [c])]
  }

  /** Where `strsep` leaves its pointer; None is NULL. */
  function SepTail(v: string, c: char): Option<string> {
    var k := Find(v, [c]);
    if k < |v| then Some(v[k + 1..]) else None
  }

  /** The first token `strtok` finds. */
  function FirstToken(v: string, ds: string): string {
    var w := Skip(v, ds);
    w[..Find(w, ds)]
  }

  /** What the next `strtok` call starts from after returning the first token of v. */
  function AfterToken(v: string, ds: string): string {
    var w := Skip(v, ds);
    var e := Find(w, ds);
    if e < |w| then w[e + 1..] else ""
  }

  lemma AfterTokenShrinks(v: string, ds: string)
    requires Skip(v, ds) != ""
    ensures |AfterToken(v, ds)| < |v|
  {
  }

  /** All the tokens of a `strtok` walk. */
  function Tokens(v: string, ds: string): seq<string>
    decreases |v|
  {
    if Skip(v, ds) == "" then [] else [FirstToken(v, ds)] + Tokens(AfterToken(v, ds), ds)
  }

  lemma SepHere(a: string, c: char, b: string)
    requires c !in a
    ensures SepHead(a + [c] + b, c) == a && SepTail(a + [c] + b, c) == Some(b)
  {
    FindIs(a + [c] + b, [c], |a|);
    assert (a + [c] + b)[|a| + 1..] == b;
  }

  lemma SepNone(a: string, c: char)
    requires c !in a
    ensures SepHead(a, c) == a && SepTail(a, c) == None
  {
  }

  /** A field ends at the first separator, or where the text does. */
  lemma FieldEnds(a: string, c: char, more: string)
    requires c !in a && (more == "" || more[0] == c)
    ensures SepHead(a + more, c) == a
  {
    if more == "" {
      assert a + more == a;
      SepNone(a, c);
    } else {
      SepHere(a, c, more[1..]);
      assert a + more == a + [c] + more[1..];
    }
  }

  lemma SpaceLacks(s: string)
    requires AllSpace(s)
    ensures ':' !in s && ',' !in s
  {
  }

  /** Parts with the separator c between them. */
  function Joined(parts: seq<string>, c: char): string {
    if parts == [] then ""
    else if |parts| == 1 then parts[0]
    else parts[0] + [c] + Joined(parts[1..], c)
  }

  lemma TokensHere(p: string, c: char, tail: string)
    requires p != "" && c !in p
    ensures Skip(p + [c] + tail, [c]) != ""
    ensures FirstToken(p + [c] + tail, [c]) == p && AfterToken(p + [c] + tail, [c]) == tail
  {
    var v := p + [c] + tail;
    assert v[0] == p[0] && p[0] !in [c];
    SpanIs(v, [c], 0);
    FindIs(v, [c], |p|);
    assert Skip(v, [c]) == v && v[..|p|] == p && v[|p| + 1..] == tail;
  }

  /** Empty pieces between separators yield no token. */
  lemma TokensSkip(c: char, v: string)
    ensures Tokens([c] + v, [c]) == Tokens(v, [c])
  {
    SkipLeading(c, v);
    hide Skip;
    assert FirstToken([c] + v, [c]) == FirstToken(v, [c]) && AfterToken([c] + v, [c]) == AfterToken(v, [c]);
    hide FirstToken, AfterToken;
  }

  lemma SkipLeading(c: char, v: string)
    ensures Skip([c] + v, [c]) == Skip(v, [c])
  {
  }

  lemma TokensLast(p: string, c: char)
    requires p != "" && c !in p
    ensures Tokens(p, [c]) == [p]
  {
    SpanIs(p, [c], 0);
    FindIs(p, [c], |p|);
    assert Skip(p, [c]) == p && FirstToken(p, [c]) == p && AfterToken(p, [c]) == "";
    assert Skip("", [c]) == "" && Tokens("", [c]) == [];
  }

  lemma {:induction false} JoinedLacks(parts: seq<string>, c: char, x: char)
    requires x != c && forall i :: 0 <= i < |parts| ==> x !in parts[i]
    ensures x !in Joined(parts, c)
    decreases |parts|
  {
    if |parts| > 1 { JoinedLacks(parts[1..], c, x); }
  }

  /** `strtok` takes joined parts apart again. */
  lemma {:induction false} TokensOfJoined(parts: seq<string>, c: char)
    requires forall i :: 0 <= i < |parts| ==> parts[i] != "" && c !in parts[i]
    ensures Tokens(Joined(parts, c), [c]) == parts
    decreases |parts|
  {
    if parts == [] {
      assert Skip("", [c]) == "";
    } else if |parts| == 1 {
      TokensLast(parts[0], c);
    } else {
      var tail := Joined(parts[1..], c);
      TokensOfJoined(parts[1..], c);
      TokensHere(parts[0], c, tail);
      assert Tokens(parts[0] + [c] + tail, [c]) == [parts[0]] + parts[1..] by {
        hide Skip, FirstToken, AfterToken;
      }
    }
  }

  // ---------------------------------------------------------------------------
  // Files, as fgets reads them
  // ---------------------------------------------------------------------------

  /** Size of the buffer handed to fgets; one position is kept for the NUL. */
  const LINE_SIZE: nat := 1024

  function Min(a: nat, b: nat): nat { if a < b then a else b }

  /** How many characters the next fgets call takes. */
  function LineLength(f: string): (n: nat)
    ensures n <= |f| && (f != "" ==> n > 0) && n < LINE_SIZE
    ensures forall i :: 0 <= i < n - 1 ==> f[i] != '\n'
    ensures n < |f| && n + 1 < LINE_SIZE ==> n > 0 && f[n - 1] == '\n'
  {
    var k := Find(f, "\n");
    assert forall i :: 0 <= i < k ==> f[i] !in "\n";
    Min(if k < |f| then k + 1 else k, LINE_SIZE - 1)
  }

  lemma LineLengthIs(f: string, n: nat)
    requires 0 < n <= |f| && n < LINE_SIZE
    requires forall i :: 0 <= i < n - 1 ==> f[i] != '\n'
    requires n == |f| || n + 1 == LINE_SIZE || f[n - 1] == '\n'
    ensures LineLength(f) == n
  {
    hide LineLength;
  }

  /** A line of up to 1022 characters is one chunk with its newline; of a longer one, a chunk is
      the first 1023 characters. */
  lemma ChunkIs(row: string, rest: string)
    requires '\n' !in row
    ensures |row| <= 1022 ==> LineLength(row + "\n" + rest) == |row| + 1
    ensures |row| >= 1023 ==> LineLength(row + rest) == 1023
  {
    if |row| <= 1022 {
      LineLengthIs(row + "\n" + rest, |row| + 1);
    } else {
      LineLengthIs(row + rest, 1023);
    }
  }

  /** The C string that a chunk of a file makes. */
  function CText(chunk: string): string {
    chunk[..Find(chunk, [NUL])]
  }

  /** The C strings a loop over fgets sees. */
  function Lines(f: string): seq<string> {
    if f == "" then [] else [CText(f[..LineLength(f)])] + Lines(f[LineLength(f)..])
  }

  /** One turn of a reading loop, in terms of what is still to be read. */
  lemma LinesOfRest(f: string, pos: nat, next: nat)
    requires pos < |f| && next == pos + LineLength(f[pos..])
    ensures Lines(f[pos..]) == [CText(f[pos..next])] + Lines(f[next..])
  {
    var rest := f[pos..];
    assert rest[..next - pos] == f[pos..next];
    assert rest[next - pos..] == f[next..];
  }

  lemma Assoc<T>(x: seq<T>, y: seq<T>, z: seq<T>)
    ensures x + (y + z) == (x + y) + z
  {
  }

  lemma FirstLineAppend(a: string, b: string)
    requires a != "" && a[|a| - 1] == '\n'
    ensures var n := LineLength(a); Lines(a + b) == [CText(a[..n])] + Lines(a[n..] + b)
  {
    assert a[|a| - 1] in "\n";
    FindIs(a + b, "\n", Find(a, "\n"));
    var n := LineLength(a);
    assert n == LineLength(a + b);
    assert (a + b)[..n] == a[..n];
    assert (a + b)[n..] == a[n..] + b;
  }

  /** Reading stops and restarts cleanly behind a newline, whatever the line lengths. */
  lemma {:induction false} LinesAppend(a: string, b: string)
    requires a == "" || a[|a| - 1] == '\n'
    ensures Lines(a + b) == Lines(a) + Lines(b)
    decreases |a|
  {
    if a == "" {
      assert a + b == b;
    } else {
      var rest := a[LineLength(a)..];
      assert rest != "" ==> rest[|rest| - 1] == a[|a| - 1];
      LinesAppend(rest, b);
      FirstLineAppend(a, b);
      Assoc([CText(a[..LineLength(a)])], Lines(rest), Lines(b));
    }
  }

  function Flatten(parts: seq<string>): string {
    if parts == [] then "" else parts[0] + Flatten(parts[1..])
  }

  /** Nothing of a file without NULs is lost or read twice. */
  lemma {:induction false} LinesFlatten(f: string)
    requires NUL !in f
    ensures Flatten(Lines(f)) == f
    decreases |f|
  {
    if f != "" {
      hide LineLength;
      var n := LineLength(f);
      LinesFlatten(f[n..]);
      WholeText(f[..n]);
      hide CText;
      Halves(f, n);
      assert Lines(f)[1..] == Lines(f[n..]);
    }
  }

  lemma {:induction false} LinesAreStrings(f: string, i: nat)
    requires i < |Lines(f)|
    ensures NUL !in Lines(f)[i]
    decreases |f|
  {
    var n := LineLength(f);
    if i == 0 {
      CTextIsString(f[..n]);
    } else {
      LinesAreStrings(f[n..], i - 1);
    }
  }

  lemma WholeText(chunk: string)
    requires NUL !in chunk
    ensures CText(chunk) == chunk
  {
  }

  lemma CTextIsString(chunk: string)
    ensures NUL !in CText(chunk)
  {
  }

  /** A text that fgets reads back as one line. */
  predicate FitsLine(row: string) {
    '\n' !in row && NUL !in row && |row| + 1 < LINE_SIZE
  }

  function Written(rows: seq<string>): string {
    if rows == [] then "" else rows[0] + "\n" + Written(rows[1..])
  }

  lemma LineOfRow(row: string)
    requires FitsLine(row)
    ensures Lines(row + "\n") == [row + "\n"]
  {
    var f := row + "\n";
    FindIs(f, "\n", |row|);
    FindIs(f, [NUL], |f|);
    assert f[..|f|] == f && f[|f|..] == "";
    assert Lines("") == [];
  }

  /** Writing rows and reading lines are inverse. */
  lemma {:induction false} LinesOfWritten(rows: seq<string>)
    requires forall i :: 0 <= i < |rows| ==> FitsLine(rows[i])
    ensures |Lines(Written(rows))| == |rows|
    ensures forall i :: 0 <= i < |rows| ==> Lines(Written(rows))[i] == rows[i] + "\n"
  {
    assert Lines("") == [];
    hide Lines, FitsLine;
    if rows != [] {
      LineOfRow(rows[0]);
      assert (rows[0] + "\n")[|rows[0]|] == '\n';
      LinesAppend(rows[0] + "\n", Written(rows[1..]));
      LinesOfWritten(rows[1..]);
      var rest := rows[1..];
      forall i | 0 <= i < |rows|
        ensures Lines(Written(rows))[i] == rows[i] + "\n"
      {
        if i > 0 { assert rest[i - 1] == rows[i]; }
      }
    }
  }

  /** The lines of a file whose rows each fit the buffer. */
  function Ended(rows: seq<string>): (lines: seq<string>)
    ensures |lines| == |rows| && forall i :: 0 <= i < |lines| ==> lines[i] == rows[i] + "\n"
  {
    seq(|rows|, i requires 0 <= i < |rows| => rows[i] + "\n")
  }

  lemma LinesAreEnded(rows: seq<string>)
    requires forall i :: 0 <= i < |rows| ==> FitsLine(rows[i])
    ensures Lines(Written(rows)) == Ended(rows)
  {
    hide FitsLine, Lines, Written;
    LinesOfWritten(rows);
  }

  lemma EndedFirst(rows: seq<string>)
    requires rows != []
    ensures Ended(rows) == [rows[0] + "\n"] + Ended(rows[1..])
  {
  }

  /** A line of a file with outer space and a comment around a tidy text. */
  lemma RowTrimmed(left: string, v: string, right: string, comment: string)
    requires Tidy(v) && AllSpace(left) && AllSpace(right) && (comment == "" || comment[0] == '#')
    ensures Trimmed(left + v + right + comment + "\n") == v
  {
    hide Tidy, Trimmed, AllSpace;
    if comment == "" {
      AddNewline(right);
      TrimmedPadded(left, v, right + "\n", "");
      assert left + v + right + comment + "\n" == left + v + (right + "\n") + "";
    } else {
      TrimmedPadded(left, v, right, comment + "\n");
      assert left + v + right + comment + "\n" == left + v + right + (comment + "\n");
    }
  }

  lemma NewlineIsSpace()
    ensures AllSpace("\n") && AllSpace("")
  {
  }

  lemma AddNewline(s: string)
    requires AllSpace(s)
    ensures AllSpace(s + "\n")
  {
  }

  // ---------------------------------------------------------------------------
  // Blank and comment lines
  // ---------------------------------------------------------------------------

  /** White space before k, and at k a comment or the end. */
  predicate NoteAt(row: string, k: nat) {
    && k <= |row| && (k < |row| ==> row[k] == '#')
    && forall i :: 0 <= i < k ==> row[i] in [' ', '\t', '\n', '\U{B}', '\U{C}', '\r']
  }

  /** Nothing but white space and, possibly, a comment behind it. */
  predicate IsNote(row: string) {
    exists k | 0 <= k <= |row| :: NoteAt(row, k)
  }

  lemma CommentIsNote(row: string)
    requires row == "" || row[0] == '#'
    ensures IsNote(row)
  {
    assert NoteAt(row, 0);
  }

  lemma NoteStart(row: string, k: nat)
    requires NoteAt(row, k)
    ensures AllSpace(row[..k]) && (row[k..] == "" || row[k..][0] == '#')
  {
    forall i | 0 <= i < k ensures IsSpace(row[..k][i]) { SpacesAre(row[i]); }
  }

  lemma NoteIsTrimmed(row: string)
    requires IsNote(row)
    ensures Trimmed(row + "\n") == ""
  {
    var k :| 0 <= k <= |row| && NoteAt(row, k);
    var left, comment := row[..k], row[k..];
    NoteStart(row, k);
    NewlineIsSpace();
    assert Tidy("");
    hide Trimmed, AllSpace, NoteAt, Tidy;
    RowTrimmed(left, "", "", comment);
    assert left + "" + "" + comment == row;
  }

  /** The rows in their order, with notes anywhere between them. */
  predicate Woven(all: seq<string>, rows: seq<string>) {
    if all == [] then rows == []
    else (IsNote(all[0]) && Woven(all[1..], rows))
         || (rows != [] && all[0] == rows[0] && Woven(all[1..], rows[1..]))
  }
}
