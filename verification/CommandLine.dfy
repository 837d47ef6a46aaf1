/** The buffers main builds out of argument vectors (stonesh.c). */
module CommandLine {
  import opened Text
  import opened CBuffer

  function TotalLength(args: seq<string>): nat {
    if args == [] then 0 else |args[0]| + TotalLength(args[1..])
  }

  /** The later arguments, each in quotes behind a blank. */
  function QuotedTail(args: seq<string>): string {
    if args == [] then "" else " \"" + args[0] + "\"" + QuotedTail(args[1..])
  }

  /** The rendering of a vector: the program, then its arguments in quotes. */
  function Quoted(args: seq<string>): string
    requires args != []
  {
    args[0] + QuotedTail(args[1..])
  }

  predicate NoNuls(args: seq<string>) {
    forall i :: 0 <= i < |args| ==> NUL !in args[i]
  }

  lemma {:induction false} QuotedTailLength(args: seq<string>)
    ensures |QuotedTail(args)| == TotalLength(args) + 3 * |args|
  {
    if args != [] { QuotedTailLength(args[1..]); }
  }

  /** The rendering and its NUL fit in what is allocated for them, with room to spare. */
  lemma QuotedLength(args: seq<string>)
    requires args != []
    ensures |Quoted(args)| == TotalLength(args) + 3 * (|args| - 1)
    ensures |Quoted(args)| + 1 <= TotalLength(args) + 4 * |args|
  {
  }

  /** What a vector of three strings is rendered as. */
  lemma QuotedThree(a: string, b: string, c: string)
    ensures Quoted([a, b, c]) == a + " \"" + b + "\" \"" + c + "\""
  {
    assert [a, b, c][1..] == [b, c] && [b, c][1..] == [c] && [c][1..] == [];
    assert QuotedTail([c]) == " \"" + c + "\"" + "";
    var x := " \"" + b + "\"";
    assert QuotedTail([b, c]) == x + QuotedTail([c]);
    hide QuotedTail;
    assert a + (x + (" \"" + c + "\"" + "")) == a + " \"" + b + "\" \"" + c + "\"";
  }

  lemma {:induction false} TotalLengthSplit(x: seq<string>, y: seq<string>)
    ensures TotalLength(x + y) == TotalLength(x) + TotalLength(y)
  {
    if x == [] {
      assert x + y == y;
    } else {
      assert (x + y)[1..] == x[1..] + y;
      TotalLengthSplit(x[1..], y);
    }
  }

  lemma {:induction false} QuotedTailLast(args: seq<string>, a: string)
    ensures QuotedTail(args + [a]) == QuotedTail(args) + (" \"" + a + "\"")
  {
    if args == [] {
      assert [] + [a] == [a] && [a][1..] == [];
    } else {
      assert (args + [a])[1..] == args[1..] + [a];
      QuotedTailLast(args[1..], a);
    }
  }

  /** `strncat` of a whole string. */
  method StrCat(a: array<char>, src: string, ghost v: string)
    requires Str(a, 0, v) && NUL !in src && |v| + |src| < a.Length
    modifies a
    ensures Str(a, 0, v + src)
  {
    var n := StrLen(a, 0, v);
    for i := 0 to |src|
      invariant forall j :: 0 <= j < |v| ==> a[j] == v[j]
      invariant forall j :: n <= j < n + i ==> a[j] == src[j - n]
    {
      a[n + i] := src[i];
    }
    a[n + |src|] := NUL;
  }

  /** One argument: ` "`, its text and `"`. */
  method StrCatQuoted(a: array<char>, arg: string, ghost v: string)
    requires Str(a, 0, v) && NUL !in arg && |v| + |arg| + 3 < a.Length
    modifies a
    ensures Str(a, 0, v + (" \"" + arg + "\""))
  {
    StrCat(a, " \"", v);
    StrCat(a, arg, v + " \"");
    StrCat(a, "\"", v + " \"" + arg);
    assert v + " \"" + arg + "\"" == v + (" \"" + arg + "\"");
  }

  method SumLengths(args: seq<string>) returns (n: nat)
    ensures n == TotalLength(args)
  {
    n := 0;
    for c := 0 to |args|
      invariant n == TotalLength(args[..c])
    {
      TotalLengthSplit(args[..c], [args[c]]);
      assert args[..c + 1] == args[..c] + [args[c]] && TotalLength([args[c]]) == |args[c]|;
      n := n + |args[c]|;
    }
    assert args[..|args|] == args;
  }

  /** The concatenation of a vector into a buffer of the computed size. */
  method Concatenate(argv: seq<string>) returns (line: array<char>)
    requires argv != [] && NoNuls(argv)
    ensures fresh(line) && line.Length == TotalLength(argv) + 4 * |argv| && Str(line, 0, Quoted(argv))
  {
    var argvLen := SumLengths(argv);
    line := new char[argvLen + |argv| * 4](_ => NUL);
    QuotedLength(argv);
    StrCat(line, argv[0], "");
    assert "" + argv[0] == argv[0] + QuotedTail(argv[1..1]);
    hide QuotedTail;
    for c := 1 to |argv|
      invariant Str(line, 0, argv[0] + QuotedTail(argv[1..c]))
    {
      PartFits(argv, c);
      ghost var v := argv[0] + QuotedTail(argv[1..c]);
      StrCatQuoted(line, argv[c], v);
      QuotedTailLast(argv[1..c], argv[c]);
      assert argv[1..c] + [argv[c]] == argv[1..c + 1];
      Assoc(argv[0], QuotedTail(argv[1..c]), " \"" + argv[c] + "\"");
    }
    assert argv[1..|argv|] == argv[1..];
  }

  /** While the loop runs, the next argument fits. */
  lemma PartFits(argv: seq<string>, c: nat)
    requires 1 <= c < |argv|
    ensures |argv[0] + QuotedTail(argv[1..c])| + |argv[c]| + 3 < TotalLength(argv) + 4 * |argv|
  {
    assert TotalLength(argv) == |argv[0]| + TotalLength(argv[1..]);
    hide TotalLength, QuotedTail;
    QuotedTailLength(argv[1..c]);
    assert argv[1..][..c - 1] == argv[1..c] && argv[1..][c - 1] == argv[c];
    PartLength(argv[1..], c - 1);
  }

  lemma {:induction false} PartLength(args: seq<string>, c: nat)
    requires c < |args|
    ensures TotalLength(args[..c]) + |args[c]| <= TotalLength(args)
  {
    if c > 0 {
      assert args[1..][c - 1] == args[c] && args[..c][1..] == args[1..][..c - 1];
      PartLength(args[1..], c - 1);
    }
  }
}
