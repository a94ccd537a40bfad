/** The C library's view of `char` buffers, as the participant uses it:
    a buffer is read as a NUL-terminated string (`strcmp`, `std::string(const char*)`,
    `std::string::c_str()` fed to a C routine), and `strcpy` writes such a string
    into a fixed-size buffer. */
module CStrings {

  /** The terminator of a C string. */
  const NUL: char := '\0'

  /** The characters a C routine reads from `buf`: everything before the first NUL.
      A buffer without any NUL is read whole (a C routine would read past its end). */
  function CString(buf: seq<char>): (s: seq<char>)
    ensures |s| <= |buf| && s == buf[..|s|]
    ensures NUL !in s
    ensures |s| < |buf| ==> buf[|s|] == NUL
  {
    if |buf| == 0 || buf[0] == NUL then [] else [buf[0]] + CString(buf[1..])
  }

  /** The three properties in the contract of CString determine it: a NUL-free prefix
      of `buf` that is followed by a NUL (or is all of `buf`) is what the C routine reads. */
  lemma {:induction false} CStringUnique(buf: seq<char>, s: seq<char>)
    requires |s| <= |buf| && s == buf[..|s|]
    requires NUL !in s
    requires |s| < |buf| ==> buf[|s|] == NUL
    ensures CString(buf) == s
  {
    if |s| > 0 {
      assert s[0] in s;
      assert buf[1..][..|s| - 1] == s[1..];
      assert forall c | c in s[1..] :: c in s;
      CStringUnique(buf[1..], s[1..]);
    }
  }

  /** A string without NUL reads back as itself. */
  lemma {:induction false} CStringOfNulFree(s: seq<char>)
    requires NUL !in s
    ensures CString(s) == s
  {
    CStringUnique(s, s);
  }

  /** The buffer `dst` after `strcpy(dst, src)`: the C string of `src`, its terminator,
      then the bytes of `dst` that were there before. */
  function StrCopied(dst: seq<char>, src: seq<char>): (r: seq<char>)
    requires |CString(src)| < |dst|
    ensures |r| == |dst|
    ensures CString(r) == CString(src)
    ensures r[|CString(src)|] == NUL
    ensures r[|CString(src)| + 1..] == dst[|CString(src)| + 1..]
  {
    var s := CString(src);
    var r := s + [NUL] + dst[|s| + 1..];
    assert r[..|s|] == s;
    CStringUnique(r, s);
    r
  }

  /** A buffer that already holds `src` as its C string is left as it is by a second copy. */
  lemma StrCopiedTwice(dst: seq<char>, src: seq<char>)
    requires |CString(src)| < |dst|
    ensures StrCopied(StrCopied(dst, src), src) == StrCopied(dst, src)
  {
  }

  /** The contents of `char a[n]` initialised from a string literal: the literal's
      characters, then NULs up to the end of the array. */
  function CharArrayInit(literal: seq<char>, n: nat): (r: seq<char>)
    requires NUL !in literal && |literal| < n
    ensures |r| == n
    ensures CString(r) == literal
    ensures forall i | |literal| <= i < n :: r[i] == NUL
  {
    var r := literal + seq(n - |literal|, _ => NUL);
    assert r[..|literal|] == literal;
    CStringUnique(r, literal);
    r
  }

  /** `strcpy(dst, src.c_str())`: copies the characters of `src` up to its first NUL,
      then a NUL, and leaves the rest of `dst` alone. The caller must make room for
      the terminator. */
  method StrCpy(dst: array<char>, src: seq<char>)
    requires |CString(src)| < dst.Length
    modifies dst
    ensures dst[..] == StrCopied(old(dst[..]), src)
  {
    var s := CString(src);
    forall i | 0 <= i < |s| {
      dst[i] := s[i];
    }
    dst[|s|] := NUL;
    assert dst[..] == s + [NUL] + old(dst[..])[|s| + 1..];
  }
}
