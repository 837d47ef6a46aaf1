/** The destructive tokenizer of readconf.c and the pure tokenizer it refines. */
module Delim {
  import opened Text
  import opened CBuffer

  const WHITESPACE := " \t\r\n"
  const QUOTE := "\""
  const DELIMITERS := " \t\r\n\"="

  /** What one call hands back: the token and the remaining text; None is NULL. */
  datatype Piece = Piece(token: Option<string>, rest: Option<string>)

  /** One token of v.  A quote opens wherever the first delimiter is one, and its text is
      joined to what stands before it; at most one '=' is skipped. */
  function Split(v: string): (d: Piece)
    ensures d.rest.Some? ==> |d.rest.value| < |v|
  {
    SplitTidy(Trimmed(v))
  }

  function SplitTidy(t: string): (d: Piece)
    ensures d.rest.Some? ==> |d.rest.value| < |t|
  {
    var k := Find(t, DELIMITERS);
    if k == |t| then Piece(Some(t), None)
    else if t[k] == '\"' then SplitQuoted(t[..k] + t[k + 1..], k)
    else SplitPlain(t, k)
  }

  /** u is the text without its opening quote, which stood at k. */
  function SplitQuoted(u: string, k: nat): (d: Piece)
    requires k <= |u|
    ensures d.rest.Some? ==> |d.rest.value| < |u|
  {
    var j := k + Find(u[k..], QUOTE);
    if j == |u| then Piece(None, None)
    else Piece(Some(u[..j]), Some(Skip(u[j + 1..], WHITESPACE)))
  }

  /** The token of t that ends at k, a blank or an '='. */
  function SplitPlain(t: string, k: nat): (d: Piece)
    requires k < |t|
    ensures d.rest.Some? ==> |d.rest.value| < |t|
  {
    var r := Skip(t[k + 1..], WHITESPACE);
    Piece(Some(t[..k]), Some(if t[k] != '=' && r != "" && r[0] == '=' then Skip(r[1..], WHITESPACE) else r))
  }

  /** `strdelim` for a pointer that may be NULL. */
  function SplitNext(s: Option<string>): Piece {
    if s.None? then Piece(None, None) else Split(s.value)
  }

  /** NULL counts 0, a text one more than its length. */
  function Measure(s: Option<string>): nat {
    if s.None? then 0 else 1 + |s.value|
  }

  /** All the tokens repeated calls return; there are at most as many as the measure says. */
  function AllTokens(s: Option<string>): (ts: seq<string>)
    ensures |ts| <= Measure(s)
    decreases Measure(s)
  {
    if s.None? then []
    else
      var d := SplitNext(s);
      (if d.token.Some? then [d.token.value] else []) + AllTokens(d.rest)
  }

  // The five shapes a tidy text can have: w is what stands before its first delimiter.

  predicate Undelimited(w: string) {
    forall i :: 0 <= i < |w| ==> w[i] !in DELIMITERS
  }

  lemma FirstDelimiter(w: string, c: char, x: string)
    requires Undelimited(w) && c in DELIMITERS && Tidy(w + [c] + x)
    ensures Trimmed(w + [c] + x) == w + [c] + x && Find(w + [c] + x, DELIMITERS) == |w|
    ensures (w + [c] + x)[..|w|] == w && (w + [c] + x)[|w|] == c && (w + [c] + x)[|w| + 1..] == x
  {
    TidyIsTrimmed(w + [c] + x);
    FindIs(w + [c] + x, DELIMITERS, |w|);
  }

  lemma SplitWhole(w: string)
    requires Undelimited(w) && Tidy(w)
    ensures Split(w) == Piece(Some(w), None)
  {
    TidyIsTrimmed(w);
    FindIs(w, DELIMITERS, |w|);
  }

  /** Blanks behind an '=' are skipped, a second '=' is not. */
  lemma SplitAtEquals(w: string, x: string)
    requires Undelimited(w) && Tidy(w + ['='] + x)
    ensures Split(w + ['='] + x) == Piece(Some(w), Some(Skip(x, WHITESPACE)))
  {
    hide Trimmed, Find, Tidy;
    FirstDelimiter(w, '=', x);
  }

  /** Blanks are skipped, then one '=' and the blanks behind it. */
  lemma SplitAtBlank(w: string, b: char, x: string)
    requires Undelimited(w) && b in WHITESPACE && Tidy(w + [b] + x)
    ensures var r := Skip(x, WHITESPACE);
      Split(w + [b] + x) ==
      Piece(Some(w), Some(if r != "" && r[0] == '=' then Skip(r[1..], WHITESPACE) else r))
  {
    hide Trimmed, Find, Tidy, Skip;
    FirstDelimiter(w, b, x);
  }

  /** The quoted text is joined to the word before it, whatever it contains. */
  lemma SplitAtQuote(w: string, x: string, y: string)
    requires Undelimited(w) && '\"' !in x && Tidy(w + ['\"'] + (x + QUOTE + y))
    ensures Split(w + ['\"'] + (x + QUOTE + y)) == Piece(Some(w + x), Some(Skip(y, WHITESPACE)))
  {
    hide Trimmed, Tidy, Skip, SplitQuoted, Find, Undelimited;
    FirstDelimiter(w, '\"', x + QUOTE + y);
    QuoteCloses(w, x, y);
  }

  lemma QuoteCloses(w: string, x: string, y: string)
    requires '\"' !in x
    ensures SplitQuoted(w + (x + QUOTE + y), |w|) == Piece(Some(w + x), Some(Skip(y, WHITESPACE)))
  {
    hide Skip;
    var rest := x + QUOTE + y;
    var u := w + rest;
    FindIs(rest, QUOTE, |x|);
    hide Find;
    assert u[|w|..] == rest && Find(u[|w|..], QUOTE) == |x| && |w| + |x| < |u|;
    assert u[..|w| + |x|] == w + x && u[|w| + |x| + 1..] == y;
  }

  lemma SplitUnmatched(w: string, x: string)
    requires Undelimited(w) && '\"' !in x && Tidy(w + ['\"'] + x)
    ensures Split(w + ['\"'] + x) == Piece(None, None)
  {
    hide Trimmed, Tidy;
    FirstDelimiter(w, '\"', x);
    var u := w + x;
    assert u[|w|..] == x;
    FindIs(x, QUOTE, |x|);
    hide Find;
    assert SplitQuoted(u, |w|) == Piece(None, None);
  }

  // ---------------------------------------------------------------------------
  // The characters that end a token
  // ---------------------------------------------------------------------------

  /** Nothing but blanks, tabs, carriage returns and newlines. */
  predicate Blanks(b: string) {
    forall i :: 0 <= i < |b| ==> b[i] == ' ' || b[i] == '\t' || b[i] == '\r' || b[i] == '\n'
  }

  /** A text that is its own token: none of these, no quote and no '='; nothing `trim` takes off. */
  predicate Plain(w: string) {
    && w != "" && Tidy(w)
    && forall i :: 0 <= i < |w| ==> w[i] !in [' ', '\t', '\r', '\n', '\"', '=']
  }

  lemma BlankIff(c: char)
    ensures c in WHITESPACE <==> c == ' ' || c == '\t' || c == '\r' || c == '\n'
    ensures c in DELIMITERS <==> c in [' ', '\t', '\r', '\n', '\"', '=']
  {
  }

  lemma PlainIsUndelimited(w: string)
    requires Plain(w)
    ensures Undelimited(w)
  {
    forall i | 0 <= i < |w| ensures w[i] !in DELIMITERS { BlankIff(w[i]); }
  }

  lemma SkipBlanks(b: string, x: string)
    requires Blanks(b) && (x == "" || x[0] !in [' ', '\t', '\r', '\n'])
    ensures Skip(b + x, WHITESPACE) == x
  {
    forall i | 0 <= i < |b| ensures (b + x)[i] in WHITESPACE { BlankIff(b[i]); }
    if x != "" { BlankIff(x[0]); }
    SpanIs(b + x, WHITESPACE, |b|);
    assert (b + x)[|b|..] == x;
  }

  /** A text of other characters is one token, and nothing is left. */
  lemma PlainIsToken(w: string)
    requires Plain(w)
    ensures Split(w) == Piece(Some(w), None)
  {
    PlainIsUndelimited(w);
    SplitWhole(w);
  }

  /** A word and a run of blanks of either kind; one '=' behind them is skipped with the blanks
      that follow it. */
  lemma SplitAtRun(w: string, b: string, c: string, x: string)
    requires Plain(w) && Blanks(b) && Blanks(c) && Tidy(w + b + x) && Tidy(w + b + "=" + c + x)
    requires x != "" && x[0] !in [' ', '\t', '\r', '\n', '=']
    ensures b != "" ==> Split(w + b + x) == Piece(Some(w), Some(x))
    ensures Split(w + b + "=" + c + x) == Piece(Some(w), Some(x))
  {
    hide Tidy, Split, Skip, Undelimited;
    PlainIsUndelimited(w);
    if b == "" {
      SkipBlanks(c, x);
      assert w + b + "=" + c + x == w + ['='] + (c + x);
      SplitAtEquals(w, c + x);
    } else {
      BlankIff(b[0]);
      var rest := b[1..];
      assert w + b + x == w + [b[0]] + (rest + x);
      SkipBlanks(rest, x);
      SplitAtBlank(w, b[0], rest + x);
      assert w + b + "=" + c + x == w + [b[0]] + (rest + ("=" + c + x));
      SkipBlanks(rest, "=" + c + x);
      SplitAtBlank(w, b[0], rest + ("=" + c + x));
      assert ("=" + c + x)[1..] == c + x;
      SkipBlanks(c, x);
    }
  }

  lemma RunIsTidy(w: string, b: string, v: string)
    requires Plain(w) && v != "" && Tidy(v) && '#' !in b
    ensures Tidy(w + b + v)
  {
    hide IsSpace;
    var t := w + b + v;
    assert t[0] == w[0] && t[|t| - 1] == v[|v| - 1];
  }

  /** Two plain words with blanks between them, or with one '=' and blanks around it. */
  lemma TwoWords(w: string, b: string, c: string, v: string)
    requires Plain(w) && Plain(v) && Blanks(b) && Blanks(c)
    ensures b != "" ==> Split(w + b + v) == Piece(Some(w), Some(v))
    ensures Split(w + b + "=" + c + v) == Piece(Some(w), Some(v))
  {
    hide Split, Tidy;
    RunIsTidy(w, b, v);
    RunIsTidy(w, b + "=" + c, v);
    assert w + (b + "=" + c) + v == w + b + "=" + c + v;
    assert v[0] !in [' ', '\t', '\r', '\n', '='];
    SplitAtRun(w, b, c, v);
  }

  /** Tokens are made of the text's own characters. */
  lemma SplitCharacters(v: string, x: char)
    requires x !in v
    ensures Split(v).token.Some? ==> x !in Split(v).token.value
    ensures Split(v).rest.Some? ==> x !in Split(v).rest.value
  {
    hide Trimmed, SplitQuoted, SplitPlain;
    TrimmedIsTidy(v);
    var t := Trimmed(v);
    var k := Find(t, DELIMITERS);
    if k < |t| {
      QuotedCharacters(t[..k] + t[k + 1..], k, x);
      PlainCharacters(t, k, x);
    }
  }

  lemma PlainCharacters(t: string, k: nat, x: char)
    requires x !in t && k < |t|
    ensures x !in SplitPlain(t, k).token.value && x !in SplitPlain(t, k).rest.value
  {
  }

  lemma QuotedCharacters(u: string, k: nat, x: char)
    requires x !in u && k <= |u|
    ensures SplitQuoted(u, k).token.Some? ==> x !in SplitQuoted(u, k).token.value
    ensures SplitQuoted(u, k).rest.Some? ==> x !in SplitQuoted(u, k).rest.value
  {
  }

  /** Takes the character at k out by moving what follows, NUL included, down by one. */
  method DropChar(a: array<char>, p: nat, k: nat, ghost t: string)
    requires Str(a, p, t) && k < |t|
    modifies a
    ensures Str(a, p, t[..k] + t[k + 1..])
    ensures OnlyIn(a, p + k, p + |t|)
  {
    var n := StrLen(a, p, t);
    MemMoveDown(a, p + k, p + k + 1, n - k);
    ghost var u := t[..k] + t[k + 1..];
    forall i | 0 <= i <= |u|
      ensures a[p + i] == if i < |u| then u[i] else NUL
    {
      if k <= i {
        assert a[p + i] == old(a[p + i + 1]);
        assert i < |u| ==> u[i] == t[i + 1];
      }
    }
  }

  /** Steps over whitespace behind a delimiter. */
  method SkipSpaces(a: array<char>, p: nat, ghost r: string) returns (q: nat)
    requires Str(a, p, r)
    ensures p <= q && q + |Skip(r, WHITESPACE)| == p + |r| && Str(a, q, Skip(r, WHITESPACE))
  {
    var n := StrSpn(a, p, WHITESPACE, r);
    StrSuffix(a, p, r, n);
    q := p + n;
  }

  /** The returned pointers hold the piece d, inside the n characters from p on, and the
      rest lies behind the token's NUL. */
  ghost predicate Returns(a: array<char>, p: nat, n: nat, tok: Option<nat>, next: Option<nat>, d: Piece)
    reads a
  {
    && (tok.Some? <==> d.token.Some?)
    && (next.Some? <==> d.rest.Some?)
    && (tok.Some? ==> tok.value == p && Str(a, p, d.token.value))
    && (next.Some? ==>
          && p <= next.value
          && next.value + |d.rest.value| <= p + n
          && Str(a, next.value, d.rest.value)
          && (tok.Some? ==> p + |d.token.value| < next.value))
  }

  /** The branch for a token that ends in a quoted part; u is the text without the quote. */
  method QuotedToken(a: array<char>, p: nat, k: nat, ghost u: string)
    returns (tok: Option<nat>, next: Option<nat>)
    requires Str(a, p, u) && k <= |u|
    modifies a
    ensures Returns(a, p, |u|, tok, next, SplitQuoted(u, k))
    ensures OnlyIn(a, p + k, p + |u|)
  {
    StrSuffix(a, p, u, k);
    ghost var w := u[k..];
    var n := StrCSpn(a, p + k, QUOTE, w);
    var j := k + n;
    assert |w| == |u| - k && j == k + Find(u[k..], QUOTE) <= |u|;
    StrChar(a, p, u, j);
    if a[p + j] == NUL {
      return None, None;
    }
    ghost var r := u[j + 1..];
    assert SplitQuoted(u, k) == Piece(Some(u[..j]), Some(Skip(r, WHITESPACE)));
    CutAt(a, p, j, u);
    var q := SkipSpaces(a, p + j + 1, r);
    tok, next := Some(p), Some(q);
  }

  /** The branch for a token ended by whitespace or '='. */
  method PlainToken(a: array<char>, p: nat, k: nat, ghost t: string)
    returns (tok: Option<nat>, next: Option<nat>)
    requires Str(a, p, t) && k < |t|
    modifies a
    ensures Returns(a, p, |t|, tok, next, SplitPlain(t, k))
    ensures OnlyIn(a, p + k, p + |t|)
  {
    hide Skip;
    StrChar(a, p, t, k);
    var seen := a[p + k] == '=';
    CutAt(a, p, k, t);
    var q := SkipSpaces(a, p + k + 1, t[k + 1..]);
    ghost var r := Skip(t[k + 1..], WHITESPACE);
    StrChar(a, q, r, 0);
    if a[q] == '=' && !seen {
      StrSuffix(a, q, r, 1);
      q := SkipSpaces(a, q + 1, r[1..]);
    }
    tok, next := Some(p), Some(q);
  }

  /** What `strdelim` does once the text is trimmed. */
  method TokenOfTidy(a: array<char>, p: nat, ghost t: string)
    returns (tok: Option<nat>, next: Option<nat>)
    requires Str(a, p, t)
    modifies a
    ensures Returns(a, p, |t|, tok, next, SplitTidy(t)) && OnlyIn(a, p, p + |t|)
  {
    hide SplitQuoted, SplitPlain;
    var k := StrCSpn(a, p, DELIMITERS, t);
    StrChar(a, p, t, k);
    if a[p + k] == NUL {
      return Some(p), None;
    }
    if a[p + k] == '\"' {
      DropChar(a, p, k, t);
      tok, next := QuotedToken(a, p, k, t[..k] + t[k + 1..]);
    } else {
      tok, next := PlainToken(a, p, k, t);
    }
  }

  /** A pointer into the buffer and the text it points to, both possibly NULL. */
  ghost predicate At(a: array<char>, s: Option<nat>, v: Option<string>)
    reads a
  {
    (s.Some? <==> v.Some?) && (s.Some? ==> Str(a, s.value, v.value))
  }

  /** `strdelim`: returns SplitNext's token and rest, writing only inside the string at s. */
  method StrDelim(a: array<char>, s: Option<nat>, ghost v: Option<string>)
    returns (tok: Option<nat>, next: Option<nat>)
    requires At(a, s, v)
    modifies a
    ensures At(a, tok, SplitNext(v).token) && At(a, next, SplitNext(v).rest)
    ensures s.None? ==> a[..] == old(a[..])
    ensures s.Some? ==>
      && Returns(a, s.value, |v.value|, tok, next, Split(v.value))
      && OnlyIn(a, s.value, s.value + |v.value|)
  {
    if s.None? {
      return None, None;
    }
    Trim(a, s.value, v.value);
    tok, next := TokenOfTidy(a, s.value, Trimmed(v.value));
  }
}
