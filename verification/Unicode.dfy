/**
 UTF-8 decoding and Unicode white space, as Go's standard library defines them.

 Go strings are byte strings. Throughout this project such a string is a Dafny
 `string` in which every char stands for one byte.
 */
module Unicode {

  /** What one decoding step yields: a code point and the bytes it used. */
  datatype Rune = Rune(code: nat, size: nat)

  const RUNE_ERROR := 0xFFFD

  /** Smallest second byte that may follow leading byte `b`. */
  function SecondMin(b: int): int {
    if b == 0xE0 then 0xA0 else if b == 0xF0 then 0x90 else 0x80
  }

  /** Largest second byte that may follow leading byte `b`. */
  function SecondMax(b: int): int {
    if b == 0xED then 0x9F else if b == 0xF4 then 0x8F else 0xBF
  }

  /** The length announced by a leading byte; 0 when it cannot lead. */
  function Announced(b: int): (n: nat)
    ensures n <= 4
  {
    if 0 <= b < 0x80 then 1
    else if 0xC2 <= b <= 0xDF then 2
    else if 0xE0 <= b <= 0xEF then 3
    else if 0xF0 <= b <= 0xF4 then 4
    else 0
  }

  predicate Continuation(b: int) {
    0x80 <= b <= 0xBF
  }

  /** True when `s` begins with one well-formed encoding of `n` bytes. */
  predicate WellFormed(s: string, n: nat)
  {
    && 1 <= n <= |s|
    && Announced(s[0] as int) == n
    && (n >= 2 ==> SecondMin(s[0] as int) <= s[1] as int <= SecondMax(s[0] as int))
    && (n >= 3 ==> Continuation(s[2] as int))
    && (n >= 4 ==> Continuation(s[3] as int))
  }

  /** utf8.DecodeRuneInString: an ill-formed byte decodes to U+FFFD with size 1,
      and the empty string to U+FFFD with size 0. */
  function DecodeRune(s: string): (r: Rune)
    ensures r.size <= |s| && r.size <= 4
    ensures r.size == 0 <==> s == ""
    ensures r.size > 1 ==> WellFormed(s, r.size) && r.code >= 0x80
    ensures s != "" && s[0] as int < 0x80 ==> r == Rune(s[0] as int, 1)
    ensures s != "" && r.code < 0x80 ==> r == Rune(s[0] as int, 1)
  {
    if s == "" then Rune(RUNE_ERROR, 0)
    else
      var b := s[0] as int;
      var n := Announced(b);
      if n == 1 then Rune(b, 1)
      else if n == 2 && WellFormed(s, 2) then
        Rune((b - 0xC0) * 64 + (s[1] as int - 0x80), 2)
      else if n == 3 && WellFormed(s, 3) then
        Rune((b - 0xE0) * 4096 + (s[1] as int - 0x80) * 64 + (s[2] as int - 0x80), 3)
      else if n == 4 && WellFormed(s, 4) then
        Rune((b - 0xF0) * 262144 + (s[1] as int - 0x80) * 4096
             + (s[2] as int - 0x80) * 64 + (s[3] as int - 0x80), 4)
      else Rune(RUNE_ERROR, 1)
  }

  /** Decoding looks at no more bytes than the leading byte announces, so a
      longer suffix does not change a rune that decoded in full. */
  lemma DecodeIsLocal(s: string, t: string)
    requires DecodeRune(s).size > 1 || (s != "" && (s[0] as int < 0x80 || |s| >= 4))
    ensures DecodeRune(s + t) == DecodeRune(s)
  {
    var n := Announced(s[0] as int);
    assert (s + t)[0] == s[0];
    assert |s| >= 2 ==> (s + t)[1] == s[1];
    assert |s| >= 3 ==> (s + t)[2] == s[2];
    assert |s| >= 4 ==> (s + t)[3] == s[3];
  }

  /** Cutting a string after its first rune does not change that rune. */
  lemma DecodeWithin(s: string, n: nat)
    requires s != "" && DecodeRune(s).size <= n <= |s|
    ensures DecodeRune(s[..n]) == DecodeRune(s)
  {
    var r := DecodeRune(s);
    assert s[..n][0] == s[0];
    assert n >= 2 ==> s[..n][1] == s[1];
    assert n >= 3 ==> s[..n][2] == s[2];
    assert n >= 4 ==> s[..n][3] == s[3];
  }

  /** A rune of more than one byte has no ASCII byte in it. */
  lemma RuneBytesAreHigh(s: string, n: nat)
    requires n > 1 && WellFormed(s, n)
    ensures forall i :: 0 <= i < n ==> s[i] as int >= 0x80
  {
    assert 2 <= n <= 4;
    assert s[1] as int >= 0x80;
  }

  /** unicode.IsSpace. */
  predicate IsSpace(code: nat) {
    || 0x09 <= code <= 0x0D
    || code in {0x20, 0x85, 0xA0, 0x1680, 0x2028, 0x2029, 0x202F, 0x205F, 0x3000}
    || 0x2000 <= code <= 0x200A
  }

  /** utf16.RuneLen of a decoded rune (surrogates never decode). */
  function Utf16Len(code: nat): (n: nat)
    ensures n == 1 || n == 2
  {
    if code < 0x10000 then 1 else 2
  }

  /** utf8.DecodeLastRuneInString, as the number of bytes of the last rune and its code. */
  function DecodeLastRune(s: string): (r: Rune)
    ensures r.size <= |s|
    ensures r.size == 0 <==> s == ""
    ensures s != "" && s[|s| - 1] as int < 0x80 ==> r == Rune(s[|s| - 1] as int, 1)
  {
    if s == "" then Rune(RUNE_ERROR, 0)
    else if s[|s| - 1] as int < 0x80 then Rune(s[|s| - 1] as int, 1)
    else
      var start := LastStart(s, |s| - 1);
      var r := DecodeRune(s[start..]);
      if start + r.size == |s| then r else Rune(RUNE_ERROR, 1)
  }

  /** The nearest byte at or before `i` that can start a rune, at most three back. */
  function LastStart(s: string, i: nat): (k: nat)
    requires i < |s|
    ensures k <= i
  {
    if i == 0 || |s| - i >= 4 || (i < |s| - 1 && !Continuation(s[i] as int)) then i
    else LastStart(s, i - 1)
  }

  /** strings.TrimSpace, left half. */
  function TrimSpaceLeft(s: string): (r: string)
    ensures |r| <= |s| && r == s[|s| - |r|..]
    ensures r != "" ==> !IsSpace(DecodeRune(r).code)
    decreases |s|
  {
    var d := DecodeRune(s);
    if s == "" || !IsSpace(d.code) then s else TrimSpaceLeft(s[d.size..])
  }

  /** strings.TrimSpace, right half. */
  function TrimSpaceRight(s: string): (r: string)
    ensures |r| <= |s| && r == s[..|r|]
    ensures r != "" ==> !IsSpace(DecodeLastRune(r).code)
    decreases |s|
  {
    var d := DecodeLastRune(s);
    if s == "" || !IsSpace(d.code) then s else TrimSpaceRight(s[..|s| - d.size])
  }

  function TrimSpace(s: string): string {
    TrimSpaceRight(TrimSpaceLeft(s))
  }

  predicate PlainAscii(c: char) {
    c as int < 0x80 && !IsSpace(c as int)
  }

  /** A string that begins and ends with ASCII non-space characters is kept. */
  lemma TrimKeepsPlain(s: string)
    requires s != "" && PlainAscii(s[0]) && PlainAscii(s[|s| - 1])
    ensures TrimSpace(s) == s
  {
    hide WellFormed, Announced, LastStart;
    assert DecodeRune(s) == Rune(s[0] as int, 1);
    assert TrimSpaceLeft(s) == s;
    assert DecodeLastRune(s) == Rune(s[|s| - 1] as int, 1);
  }

  lemma TrimDropsBlank(s: string)
    ensures TrimSpace(" " + s) == TrimSpace(s)
  {
    hide WellFormed, Announced, LastStart;
    var t := " " + s;
    assert DecodeRune(t) == Rune(0x20, 1);
    assert t[1..] == s;
  }
}
