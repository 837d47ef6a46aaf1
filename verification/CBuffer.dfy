/** C strings inside a mutable buffer, and the library calls that work on them in place.
    A pointer is an index into the buffer and NULL is None.  Every method names the string
    v it is given as a ghost argument and says which bytes it left alone. */
module CBuffer {
  import opened Text

  /** The bytes of a from p on hold the C string v. */
  ghost predicate Str(a: array<char>, p: nat, v: string)
    reads a
  {
    && p + |v| < a.Length
    && (forall i :: 0 <= i < |v| ==> v[i] == a[p + i] && v[i] != NUL)
    && a[p + |v|] == NUL
  }

  /** Only bytes in [lo, hi) may differ from the old state. */
  twostate predicate OnlyIn(a: array<char>, lo: nat, hi: nat)
    reads a
  {
    forall i :: 0 <= i < a.Length && !(lo <= i < hi) ==> a[i] == old(a[i])
  }

  lemma StrChar(a: array<char>, p: nat, v: string, i: nat)
    requires Str(a, p, v) && i <= |v|
    ensures a[p + i] == if i < |v| then v[i] else NUL
    ensures i < |v| ==> v[i] != NUL
  {
  }

  /** A tail of a string is a string. */
  lemma StrSuffix(a: array<char>, p: nat, v: string, k: nat)
    requires Str(a, p, v) && k <= |v|
    ensures Str(a, p + k, v[k..])
  {
  }

  method StrLen(a: array<char>, p: nat, ghost v: string) returns (n: nat)
    requires Str(a, p, v)
    ensures n == |v|
  {
    n := 0;
    StrChar(a, p, v, 0);
    while a[p + n] != NUL
      invariant n <= |v| && a[p + n] == if n < |v| then v[n] else NUL
      decreases |v| - n
    {
      n := n + 1;
      StrChar(a, p, v, n);
    }
    StrChar(a, p, v, n);
  }

  /** `strdup`, and any other reading of a whole string. */
  method StrDup(a: array<char>, p: nat, ghost v: string) returns (r: string)
    requires Str(a, p, v)
    ensures r == v
  {
    var n := StrLen(a, p, v);
    r := a[p..p + n];
  }

  /** A fresh buffer holding v. */
  method FromString(v: string) returns (a: array<char>)
    requires NUL !in v
    ensures fresh(a) && a.Length == |v| + 1 && Str(a, 0, v)
  {
    a := new char[|v| + 1];
    for i := 0 to |v|
      invariant a[..i] == v[..i]
    {
      a[i] := v[i];
    }
    a[|v|] := NUL;
    assert a[0..|v|] == v;
  }

  /** `memmove` to a lower address. */
  method MemMoveDown(a: array<char>, dst: nat, src: nat, n: nat)
    requires dst <= src && src + n <= a.Length
    modifies a
    ensures forall k :: dst <= k < dst + n ==> a[k] == old(a[k + (src - dst)])
    ensures OnlyIn(a, dst, dst + n)
  {
    for i := 0 to n
      invariant forall k :: dst <= k < dst + i ==> a[k] == old(a[k + (src - dst)])
      invariant OnlyIn(a, dst, dst + i)
    {
      a[dst + i] := a[src + i];
    }
  }

  /** `strcspn`: the index of the first character in cs, or the length. */
  method StrCSpn(a: array<char>, p: nat, cs: string, ghost v: string) returns (n: nat)
    requires Str(a, p, v) && NUL !in cs
    ensures n == Find(v, cs)
  {
    n := 0;
    StrChar(a, p, v, 0);
    while a[p + n] != NUL && a[p + n] !in cs
      invariant n <= |v| && a[p + n] == if n < |v| then v[n] else NUL
      invariant forall i :: 0 <= i < n ==> v[i] !in cs
      decreases |v| - n
    {
      n := n + 1;
      StrChar(a, p, v, n);
    }
    StrChar(a, p, v, n);
    FindIs(v, cs, n);
  }

  /** `strspn` */
  method StrSpn(a: array<char>, p: nat, cs: string, ghost v: string) returns (n: nat)
    requires Str(a, p, v) && NUL !in cs
    ensures n == Span(v, cs)
  {
    n := 0;
    StrChar(a, p, v, 0);
    while a[p + n] in cs
      invariant n <= |v| && a[p + n] == if n < |v| then v[n] else NUL
      invariant forall i :: 0 <= i < n ==> v[i] in cs
      decreases |v| - n
    {
      n := n + 1;
      StrChar(a, p, v, n);
    }
    StrChar(a, p, v, n);
    SpanIs(v, cs, n);
  }

  // ---------------------------------------------------------------------------
  // trim (util.c), one method a loop
  // ---------------------------------------------------------------------------

  /** Overwrites everything from the first '#' on with NULs. */
  method CutCommentInPlace(a: array<char>, s: nat, l: nat, ghost v: string)
    requires Str(a, s, v) && l == |v|
    modifies a
    ensures Str(a, s, CutComment(v))
    ensures OnlyIn(a, s, s + |v|)
  {
    ghost var k := Find(v, "#");
    var i, comment := 0, false;
    while i < l
      invariant i <= l
      invariant comment <==> k < i
      invariant forall j :: s <= j < s + l ==> a[j] == if s + k <= j < s + i then NUL else v[j - s]
      invariant OnlyIn(a, s, s + l) && a[s + l] == NUL
    {
      assert (i < k ==> v[i] !in "#") && (i == k ==> v[i] in "#");
      if a[s + i] == '#' { comment := true; }
      if comment { a[s + i] := NUL; }
      i := i + 1;
    }
  }

  /** Overwrites the last character of the string at s with a NUL. */
  method CutLast(a: array<char>, s: nat, l: nat, ghost v: string)
    requires Str(a, s, v) && l + 1 == |v|
    modifies a
    ensures Str(a, s, v[..l]) && OnlyIn(a, s + l, s + l + 1)
  {
    a[s + l] := NUL;
  }

  /** Overwrites trailing space with NULs. */
  method StripRightInPlace(a: array<char>, s: nat, ghost v: string) returns (l: nat)
    requires Str(a, s, v)
    modifies a
    ensures Str(a, s, StripRight(v)) && l == |StripRight(v)|
    ensures OnlyIn(a, s, s + |v|)
  {
    hide StripRight;
    l := StrLen(a, s, v);
    assert v[..l] == v;
    while l > 0 && IsSpace(a[s + l - 1])
      invariant l <= |v| && Str(a, s, v[..l])
      invariant forall i :: l <= i < |v| ==> IsSpace(v[i])
      invariant OnlyIn(a, s, s + |v|)
    {
      StrChar(a, s, v[..l], l - 1);
      l := l - 1;
      CutLast(a, s, l, v[..l + 1]);
      assert v[..l + 1][..l] == v[..l];
    }
    if l > 0 { StrChar(a, s, v[..l], l - 1); }
    StripRightIs(v, l);
  }

  /** Moves the string of length n at p down to s < p, and ends it there. */
  method MoveStringDown(a: array<char>, s: nat, p: nat, n: nat, ghost v: string)
    requires Str(a, p, v) && s < p && n == |v|
    modifies a
    ensures Str(a, s, v)
    ensures OnlyIn(a, s, p + n)
  {
    MemMoveDown(a, s, p, n);
    a[s + n] := NUL;
  }

  /** Steps over leading space: the new start and the length from there. */
  method LeadingSpace(a: array<char>, s: nat, l: nat, ghost v: string) returns (p: nat, n: nat)
    requires Str(a, s, v) && l == |v| && '#' !in v
    ensures s <= p && p + n == s + |v| && StripLeft(v) == v[p - s..]
  {
    hide StripLeft;
    p, n := s, l;
    StrChar(a, s, v, 0);
    while a[p] != NUL && (IsSpace(a[p]) || a[p] == '#')
      invariant s <= p <= s + |v| && n == s + |v| - p
      invariant a[p] == if p < s + |v| then v[p - s] else NUL
      invariant forall i :: 0 <= i < p - s ==> IsSpace(v[i])
      decreases n
    {
      p, n := p + 1, n - 1;
      StrChar(a, s, v, p - s);
    }
    StrChar(a, s, v, p - s);
    StripLeftIs(v, p - s);
  }

  /** Skips leading space and moves the rest down over it. */
  method StripLeftInPlace(a: array<char>, s: nat, l: nat, ghost v: string)
    requires Str(a, s, v) && l == |v| && '#' !in v
    modifies a
    ensures Str(a, s, StripLeft(v))
    ensures OnlyIn(a, s, s + |v|)
  {
    hide StripLeft;
    var p, n := LeadingSpace(a, s, l, v);
    if p != s {
      StrSuffix(a, s, v, p - s);
      MoveStringDown(a, s, p, n, v[p - s..]);
    }
  }

  /** Cuts the comment and both ends of the string at s, inside its own bytes. */
  method Trim(a: array<char>, s: nat, ghost v: string)
    requires Str(a, s, v)
    modifies a
    ensures Str(a, s, Trimmed(v))
    ensures OnlyIn(a, s, s + |v|)
  {
    var l := StrLen(a, s, v);
    if l == 0 {
      return;
    }
    CutCommentInPlace(a, s, l, v);
    ghost var cut := CutComment(v);
    l := StripRightInPlace(a, s, cut);
    StripLeftInPlace(a, s, l, StripRight(cut));
  }

  /** `strtoupper` (util.c) */
  method StrToUpper(a: array<char>, s: nat, ghost v: string)
    requires Str(a, s, v)
    modifies a
    ensures Str(a, s, UpperAll(v))
    ensures OnlyIn(a, s, s + |v|)
  {
    var cp := s;
    StrChar(a, s, v, 0);
    while a[cp] != NUL
      invariant s <= cp <= s + |v| && a[s + |v|] == NUL
      invariant a[cp] == if cp < s + |v| then v[cp - s] else NUL
      invariant forall j :: 0 <= j < |v| ==> a[s + j] == if s + j < cp then Upper(v[j]) else v[j]
      invariant forall j :: 0 <= j < a.Length && !(s <= j < s + |v|) ==> a[j] == old(a[j])
      decreases s + |v| - cp
    {
      a[cp] := Upper(a[cp]);
      cp := cp + 1;
    }
    assert a[s..s + |v|] == UpperAll(v);
  }

  // ---------------------------------------------------------------------------
  // Tokenizers
  // ---------------------------------------------------------------------------

  /** Ends the string at s after k characters; what follows becomes a string of its own. */
  method CutAt(a: array<char>, s: nat, k: nat, ghost v: string)
    requires Str(a, s, v) && k < |v|
    modifies a
    ensures Str(a, s, v[..k]) && Str(a, s + k + 1, v[k + 1..])
    ensures OnlyIn(a, s + k, s + k + 1)
  {
    StrSuffix(a, s, v, k + 1);
    assert a[s..s + k] == a[s..s + |v|][..k];
    a[s + k] := NUL;
    assert a[s..s + k] == v[..k];
    assert a[s + k + 1..s + |v|] == v[k + 1..];
  }

  /** `strsep` with one separator: cuts the token off with a NUL and moves the pointer behind it. */
  method StrSep(a: array<char>, p: Option<nat>, c: char, ghost v: string)
    returns (tok: Option<nat>, next: Option<nat>)
    requires c != NUL
    requires p.Some? ==> Str(a, p.value, v)
    modifies a
    ensures tok == p
    ensures p.None? ==> next.None? && forall i :: 0 <= i < a.Length ==> a[i] == old(a[i])
    ensures p.Some? ==>
      && Str(a, p.value, SepHead(v, c))
      && OnlyIn(a, p.value + |SepHead(v, c)|, p.value + |SepHead(v, c)| + 1)
      && OnlyIn(a, p.value, p.value + |v|)
      && (next.Some? <==> SepTail(v, c).Some?)
      && (next.Some? ==>
            && next.value == p.value + |SepHead(v, c)| + 1
            && next.value + |SepTail(v, c).value| == p.value + |v|
            && Str(a, next.value, SepTail(v, c).value))
  {
    tok, next := p, None;
    if p.Some? {
      var s := p.value;
      var k := StrCSpn(a, s, [c], v);
      StrChar(a, s, v, k);
      if a[s + k] != NUL {
        CutAt(a, s, k, v);
        next := Some(s + k + 1);
      } else {
        assert v[..k] == v;
      }
    }
  }

  /** The end of a `strtok` step: ends the token w starts with and finds where to resume. */
  method EndToken(a: array<char>, q: nat, ds: string, ghost w: string) returns (save: nat)
    requires Str(a, q, w) && NUL !in ds
    modifies a
    ensures var e := Find(w, ds);
      && Str(a, q, w[..e])
      && OnlyIn(a, q + e, q + e + 1)
      && save == (if e < |w| then q + e + 1 else q + e)
      && Str(a, save, if e < |w| then w[e + 1..] else "")
  {
    var e := StrCSpn(a, q, ds, w);
    StrChar(a, q, w, e);
    if a[q + e] == NUL {
      assert w[..e] == w;
      StrSuffix(a, q, w, e);
      save := q + e;
    } else {
      CutAt(a, q, e, w);
      save := q + e + 1;
    }
  }

  /** `strtok`.  The saved position is passed in and out; a later call passes it back. */
  method StrTok(a: array<char>, p: nat, ds: string, ghost v: string)
    returns (tok: Option<nat>, save: nat)
    requires Str(a, p, v) && NUL !in ds
    modifies a
    ensures tok.None? <==> Skip(v, ds) == ""
    ensures tok.None? ==> a[..] == old(a[..])
    ensures tok.Some? ==>
      && tok.value == p + Span(v, ds)
      && Str(a, tok.value, FirstToken(v, ds))
      && Str(a, save, AfterToken(v, ds))
      && save + |AfterToken(v, ds)| == p + |v|
      && tok.value + |FirstToken(v, ds)| <= save <= tok.value + |FirstToken(v, ds)| + 1
      && (AfterToken(v, ds) != "" ==> tok.value + |FirstToken(v, ds)| < save)
      && OnlyIn(a, tok.value + |FirstToken(v, ds)|, tok.value + |FirstToken(v, ds)| + 1)
  {
    hide Find, Span;
    var b := StrSpn(a, p, ds, v);
    ghost var w := Skip(v, ds);
    StrSuffix(a, p, v, b);
    StrChar(a, p, v, b);
    assert w == v[b..] && |w| == |v| - b;
    var q := p + b;
    if a[q] == NUL {
      return None, q;
    }
    tok := Some(q);
    save := EndToken(a, q, ds, w);
  }

  // ---------------------------------------------------------------------------
  // Comparison and input
  // ---------------------------------------------------------------------------

  /** Whether `strncasecmp` over the length of x finds no difference, in two buffers or two places in one. */
  method StartsWithCI(a: array<char>, p: nat, b: array<char>, q: nat, ghost x: string, ghost y: string)
    returns (r: bool)
    requires Str(a, p, x) && Str(b, q, y)
    ensures r == PrefixCI(x, y)
  {
    var n := StrLen(a, p, x);
    var i := 0;
    while i < n
      invariant i <= n && i <= |y|
      invariant forall j :: 0 <= j < i ==> Lower(x[j]) == Lower(y[j])
    {
      StrChar(a, p, x, i);
      StrChar(b, q, y, i);
      if Lower(a[p + i]) != Lower(b[q + i]) {
        return false;
      }
      i := i + 1;
    }
    return true;
  }

  /** Whether `strncmp` over the length of x finds no difference. */
  method StartsWith(a: array<char>, p: nat, b: array<char>, q: nat, ghost x: string, ghost y: string)
    returns (r: bool)
    requires Str(a, p, x) && Str(b, q, y)
    ensures r == (x <= y)
  {
    var n := StrLen(a, p, x);
    var i := 0;
    while i < n
      invariant i <= n && i <= |y|
      invariant x[..i] == y[..i]
    {
      StrChar(a, p, x, i);
      StrChar(b, q, y, i);
      if a[p + i] != b[q + i] {
        assert i < |y| ==> x[i] != y[i];
        return false;
      }
      i := i + 1;
    }
    return true;
  }

  /** `fgets` into a line buffer: None once the file is used up, else the new position. */
  method Fgets(file: string, pos: nat, buf: array<char>) returns (next: Option<nat>)
    requires pos <= |file| && LINE_SIZE <= buf.Length
    modifies buf
    ensures next.None? <==> pos == |file|
    ensures next.Some? ==>
      && next.value == pos + LineLength(file[pos..])
      && Str(buf, 0, CText(file[pos..next.value]))
  {
    if pos == |file| {
      return None;
    }
    hide Find, LineLength, CText;
    var n := 0;
    while n < LINE_SIZE - 1 && pos + n < |file| && (n == 0 || file[pos + n - 1] != '\n')
      invariant n < LINE_SIZE && pos + n <= |file|
      invariant forall i :: pos <= i < pos + n - 1 ==> file[i] != '\n'
      invariant forall i :: 0 <= i < n ==> buf[i] == file[pos + i]
    {
      buf[n] := file[pos + n];
      n := n + 1;
    }
    buf[n] := NUL;
    LineLengthIs(file[pos..], n);
    CTextInPlace(buf, file[pos..pos + n]);
    next := Some(pos + n);
  }

  lemma CTextInPlace(buf: array<char>, chunk: string)
    requires |chunk| < buf.Length && buf[|chunk|] == NUL
    requires forall i :: 0 <= i < |chunk| ==> buf[i] == chunk[i]
    ensures Str(buf, 0, CText(chunk))
  {
    var k := Find(chunk, [NUL]);
    forall i | 0 <= i < k ensures chunk[..k][i] == buf[0 + i] && chunk[..k][i] != NUL {
      assert buf[i] == chunk[i] && chunk[i] !in [NUL];
    }
  }
}
