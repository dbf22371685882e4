/** The string helpers of src/utils.cc: `sqlQuote` and `filenameToTitle`. */
module Utils {
  import opened CStrings

  const Quote: char := '\''

  /** The input with every quote doubled and every other character kept, in order. */
  function Doubled(s: string): string {
    if s == [] then []
    else (if s[0] == Quote then [Quote, Quote] else [s[0]]) + Doubled(s[1..])
  }

  /** The inverse of `Doubled`: a doubled quote reads back as one. */
  function Undoubled(t: string): string {
    if t == [] then []
    else if |t| >= 2 && t[0] == Quote && t[1] == Quote then [Quote] + Undoubled(t[2..])
    else [t[0]] + Undoubled(t[1..])
  }

  /** The number of quotes in `s`. */
  function Quotes(s: string): nat {
    if s == [] then 0 else (if s[0] == Quote then 1 else 0) + Quotes(s[1..])
  }

  /** The character vector `sqlQuote` builds: quote, doubled input, quote, terminating NUL. */
  function QuoteBuffer(input: string): string {
    [Quote] + Doubled(input) + [Quote, NUL]
  }

  lemma {:induction false} UndoubledDoubled(s: string)
    ensures Undoubled(Doubled(s)) == s
  {
    if s != [] {
      UndoubledDoubled(s[1..]);
      if s[0] == Quote {
        assert Doubled(s) == [Quote, Quote] + Doubled(s[1..]);
        assert Doubled(s)[2..] == Doubled(s[1..]);
      } else {
        assert Doubled(s) == [s[0]] + Doubled(s[1..]);
        assert Doubled(s)[1..] == Doubled(s[1..]);
      }
    }
  }

  lemma {:induction false} DoubledLength(s: string)
    ensures |Doubled(s)| == |s| + Quotes(s)
  {
    if s != [] {
      DoubledLength(s[1..]);
    }
  }

  lemma {:induction false} DoubledNul(s: string)
    ensures NUL in Doubled(s) <==> NUL in s
  {
    if s != [] {
      DoubledNul(s[1..]);
      assert s == [s[0]] + s[1..];
    }
  }

  lemma {:induction false} DoubledAppend(a: string, b: string)
    ensures Doubled(a + b) == Doubled(a) + Doubled(b)
  {
    if a == [] {
      assert a + b == b;
    } else {
      assert (a + b)[0] == a[0];
      assert (a + b)[1..] == a[1..] + b;
      DoubledAppend(a[1..], b);
    }
  }

  /** `std::string(&out[0])` reads the vector up to its first NUL. */
  lemma {:induction false} CStrUpTo(s: string, n: nat)
    requires n <= |s| && NUL !in s[..n]
    requires n == |s| || s[n] == NUL
    ensures CStr(s) == s[..n]
  {
    if n > 0 {
      assert s[0] == s[..n][0];
      assert s[1..][..n - 1] == s[..n][1..];
      CStrUpTo(s[1..], n - 1);
    }
  }

  /**
   * `sqlQuote`: pushes a quote, each input character (a quote twice), a quote
   * and a NUL into a vector, then reads that vector as a C string.
   */
  method SqlQuote(input: string) returns (r: string)
    ensures r == CStr(QuoteBuffer(input))
  {
    var out: seq<char> := [];
    out := out + [Quote];
    var i := 0;
    while i < |input|
      invariant 0 <= i <= |input|
      invariant out == [Quote] + Doubled(input[..i])
    {
      var x := input[i];
      if x == Quote {
        out := out + [Quote];
      }
      out := out + [x];
      DoubledAppend(input[..i], [x]);
      assert input[..i + 1] == input[..i] + [x];
      i := i + 1;
    }
    assert input[..i] == input;
    out := out + [Quote];
    out := out + [NUL];
    assert out == QuoteBuffer(input);
    var n := 0;
    while n < |out| && out[n] != NUL
      invariant 0 <= n <= |out|
      invariant NUL !in out[..n]
    {
      assert out[..n + 1] == out[..n] + [out[n]];
      n := n + 1;
    }
    CStrUpTo(out, n);
    r := out[..n];
  }

  /** For NUL-free input: quoted, doubled, and of length n + 2 + the number of quotes. */
  lemma SqlQuoteNulFree(input: string)
    requires NUL !in input
    ensures CStr(QuoteBuffer(input)) == [Quote] + Doubled(input) + [Quote]
    ensures |CStr(QuoteBuffer(input))| == |input| + 2 + Quotes(input)
    ensures Undoubled(CStr(QuoteBuffer(input))[1..|CStr(QuoteBuffer(input))| - 1]) == input
  {
    var b := QuoteBuffer(input);
    var q := [Quote] + Doubled(input) + [Quote];
    DoubledNul(input);
    assert b == q + [NUL];
    assert b[..|q|] == q;
    assert NUL !in q;
    CStrUpTo(b, |q|);
    DoubledLength(input);
    assert q[1..|q| - 1] == Doubled(input);
    UndoubledDoubled(input);
  }

  /**
   * An embedded NUL cuts the result: only the input before the first NUL is
   * quoted, and the closing quote is lost.
   */
  lemma SqlQuoteTruncates(input: string, p: nat)
    requires p < |input| && input[p] == NUL && NUL !in input[..p]
    ensures CStr(QuoteBuffer(input)) == [Quote] + Doubled(input[..p])
  {
    var b := QuoteBuffer(input);
    assert input == input[..p] + input[p..];
    DoubledAppend(input[..p], input[p..]);
    assert input[p..][0] == NUL;
    assert Doubled(input[p..]) == [NUL] + Doubled(input[p + 1..]);
    var pre := [Quote] + Doubled(input[..p]);
    assert b == pre + ([NUL] + Doubled(input[p + 1..]) + [Quote, NUL]);
    assert b[..|pre|] == pre;
    assert b[|pre|] == NUL;
    DoubledNul(input[..p]);
    assert NUL !in pre;
    CStrUpTo(b, |pre|);
  }

  /** The characters `filenameToTitle` turns into spaces. */
  const Separators: set<char> := {'.', '_', '(', ')', '[', ']', '{', '}', '\\'}

  function Blank(c: char): (r: char)
    ensures r !in Separators
    ensures c !in Separators ==> r == c
  {
    if c in Separators then ' ' else c
  }

  /**
   * The part of the file name `filenameToTitle` keeps, by `rfind` and
   * `substr` with `size_t` arithmetic (`npos` is -1 here).
   */
  function TitleSource(f: string): string
    requires |f| < SizeRange
  {
    var slash := LastIndexOf(f, '/');
    var dot := LastIndexOf(f, '.');
    if slash == -1 then
      (if dot == -1 then f else Substr(f, 0, dot))
    else if dot == -1 then Substr(f, slash + 1, |f|)
    else Substr(f, slash + 1, WrapSizeT(dot - slash - 1))
  }

  /** Without a slash the kept part is the name up to its last dot, or all of it. */
  lemma TitleWithoutSlash(f: string)
    requires |f| < SizeRange && '/' !in f
    ensures var dot := LastIndexOf(f, '.');
      TitleSource(f) == if dot == -1 then f else f[..dot]
  {
  }

  /** After the last slash, the kept part ends before a later dot. */
  lemma TitleDropsSuffix(f: string)
    requires |f| < SizeRange
    requires LastIndexOf(f, '/') < LastIndexOf(f, '.') && LastIndexOf(f, '/') >= 0
    ensures TitleSource(f) == f[LastIndexOf(f, '/') + 1..LastIndexOf(f, '.')]
  {
  }

  /**
   * A dot before the last slash makes `suffix_dot - fname_start - 1` wrap to a
   * huge length, so everything after the slash is kept.
   */
  lemma TitleWrapKeepsRest(f: string)
    requires |f| < SizeRange
    requires LastIndexOf(f, '/') >= 0 && LastIndexOf(f, '.') < LastIndexOf(f, '/')
    ensures TitleSource(f) == f[LastIndexOf(f, '/') + 1..]
  {
    var slash, dot := LastIndexOf(f, '/'), LastIndexOf(f, '.');
    if dot >= 0 {
      assert WrapSizeT(dot - slash - 1) == dot - slash - 1 + SizeRange;
    }
  }

  /** The kept part never contains a slash. */
  lemma TitleHasNoSlash(f: string)
    requires |f| < SizeRange
    ensures '/' !in TitleSource(f)
  {
    var slash := LastIndexOf(f, '/');
    var t := TitleSource(f);
    var start := if slash == -1 then 0 else slash + 1;
    assert forall i :: 0 <= i < |t| ==> t[i] == f[start + i];
    forall i | 0 <= i < |t|
      ensures t[i] != '/'
    {
      if slash >= 0 {
        assert f[start + i] == f[slash + 1..][i];
      } else {
        assert f[i] in f;
      }
    }
  }

  /**
   * `filenameToTitle`: takes the kept part, then overwrites each separator in
   * place with a space.
   */
  method FilenameToTitle(filename: string) returns (result: string)
    requires |filename| < SizeRange
    ensures |result| == |TitleSource(filename)|
    ensures forall i :: 0 <= i < |result| ==> result[i] == Blank(TitleSource(filename)[i])
    ensures forall i :: 0 <= i < |result| ==> result[i] !in Separators
  {
    var fnameStart := LastIndexOf(filename, '/');
    var suffixDot := LastIndexOf(filename, '.');
    if fnameStart == -1 {
      if suffixDot == -1 {
        result := filename;
      } else {
        result := Substr(filename, 0, suffixDot);
      }
    } else {
      if suffixDot == -1 {
        result := Substr(filename, fnameStart + 1, |filename|);
      } else {
        result := Substr(filename, fnameStart + 1, WrapSizeT(suffixDot - fnameStart - 1));
      }
    }
    ghost var kept := result;
    assert kept == TitleSource(filename);
    var i := 0;
    while i < |result|
      invariant 0 <= i <= |result| == |kept|
      invariant forall k :: 0 <= k < i ==> result[k] == Blank(kept[k])
      invariant forall k :: i <= k < |result| ==> result[k] == kept[k]
    {
      var c := result[i];
      if c in Separators {
        result := result[i := ' '];
      }
      i := i + 1;
    }
  }
}
