/**
 * The C-string and std::string operations the source relies on:
 * truncation at the first NUL (`c_str`, `std::string(const char*)`),
 * `rfind`, `find(...) == 0`, `size_t` wrap-around and `substr` clamping.
 */
module CStrings {
  const NUL: char := '\0'

  /** 2^64: the range of `size_t` on the platforms the source targets. */
  const SizeRange: int := 0x1_0000_0000_0000_0000

  /** Unsigned 64-bit subtraction or addition result, as `size_t` arithmetic wraps. */
  function WrapSizeT(x: int): (r: nat)
    ensures r < SizeRange
    ensures 0 <= x < SizeRange ==> r == x
    ensures -SizeRange <= x < 0 ==> r == x + SizeRange
  {
    x % SizeRange
  }

  /** What a C API sees of a std::string: everything before the first NUL. */
  function CStr(s: string): string {
    if s == [] then []
    else if s[0] == NUL then []
    else [s[0]] + CStr(s[1..])
  }

  /** `c_str` gives the longest NUL-free prefix: it stops at the first NUL or the end. */
  lemma {:induction false} CStrIsNulFreePrefix(s: string)
    ensures var r := CStr(s);
      && |r| <= |s| && r == s[..|r|]
      && NUL !in r
      && (|r| < |s| ==> s[|r|] == NUL)
  {
    if s != [] && s[0] != NUL {
      CStrIsNulFreePrefix(s[1..]);
    }
  }

  lemma {:induction false} CStrOfNulFree(s: string)
    requires NUL !in s
    ensures CStr(s) == s
  {
    if s != [] {
      CStrOfNulFree(s[1..]);
    }
  }

  /** `s.rfind(c)` and `strrchr`: the position of the last `c`, or None for `npos`/null. */
  function LastIndexOf(s: string, c: char): (r: int)
    ensures -1 <= r < |s|
    ensures r >= 0 ==> s[r] == c && c !in s[r + 1..]
    ensures r == -1 <==> c !in s
  {
    if s == [] then -1
    else if s[|s| - 1] == c then |s| - 1
    else
      var init := s[..|s| - 1];
      var k := LastIndexOf(init, c);
      assert s == init + [s[|s| - 1]];
      assert k >= 0 ==> s[k + 1..] == init[k + 1..] + [s[|s| - 1]];
      k
  }

  /** `s.find(prefix) == 0`: the string starts with `prefix`. */
  predicate StartsWith(s: string, prefix: string) {
    |prefix| <= |s| && s[..|prefix|] == prefix
  }

  /** `s.substr(pos, len)`: `len` is clamped to what is left after `pos`. */
  function Substr(s: string, pos: nat, len: nat): (r: string)
    requires pos <= |s|
    ensures |r| == if pos + len <= |s| then len else |s| - pos
    ensures forall i :: 0 <= i < |r| ==> r[i] == s[pos + i]
  {
    if pos + len <= |s| then s[pos..pos + len] else s[pos..]
  }

  /** `s.find(c)`: the position of the first `c`, or -1 for `npos`. */
  function FirstIndexOf(s: string, c: char): (r: int)
    ensures -1 <= r < |s|
    ensures r >= 0 ==> s[r] == c && c !in s[..r]
    ensures r == -1 <==> c !in s
  {
    if s == [] then -1
    else if s[0] == c then 0
    else
      var k := FirstIndexOf(s[1..], c);
      if k == -1 then -1 else k + 1
  }

  lemma {:induction false} FirstIndexOfAfterFree(a: string, b: string, c: char)
    requires c !in a && c in b
    ensures FirstIndexOf(a + b, c) == |a| + FirstIndexOf(b, c)
  {
    if a == [] {
      assert a + b == b;
    } else {
      assert (a + b)[0] == a[0];
      assert (a + b)[1..] == a[1..] + b;
      FirstIndexOfAfterFree(a[1..], b, c);
    }
  }
}
