/**
 UTF-8 and UTF-16 from the encoders' side, as chapter 3 of the Unicode Standard defines
 the two forms: the decoder is the encoder's inverse, and a rune takes two UTF-16 units
 exactly when it takes four bytes.
 */
module Utf8 {
  import opened Unicode

  /** Every code point but the surrogates. */
  predicate IsScalar(code: nat) {
    code < 0xD800 || 0xE000 <= code <= 0x10FFFF
  }

  function Byte(n: nat): char
    requires n < 256
  {
    n as char
  }

  /** The low six bits of `n` as a continuation byte. */
  function Low6(n: nat): char {
    Byte(0x80 + n % 64)
  }

  /** The UTF-8 form of a scalar value. */
  function Encode(code: nat): (s: string)
    requires IsScalar(code)
    ensures 1 <= |s| <= 4
  {
    if code < 0x80 then [Byte(code)]
    else if code < 0x800 then [Byte(0xC0 + code / 64), Low6(code)]
    else if code < 0x10000 then [Byte(0xE0 + code / 4096), Low6(code / 64), Low6(code)]
    else [Byte(0xF0 + code / 262144), Low6(code / 4096), Low6(code / 64), Low6(code)]
  }

  /** The first rune of `s` is not well-formed and counts as one byte. */
  predicate IllFormed(s: string) {
    s != "" && DecodeRune(s) == Rune(RUNE_ERROR, 1)
  }

  /** Decoding gives back what was encoded, whatever follows. */
  lemma DecodeEncoded(code: nat, t: string)
    requires IsScalar(code)
    ensures DecodeRune(Encode(code) + t) == Rune(code, |Encode(code)|)
  {
    hide DecodeRune, Encode;
    if code < 0x800 {
      DecodeShort(code, t);
    } else if code < 0x10000 {
      DecodeThree(code, t);
    } else {
      DecodeFour(code, t);
    }
  }

  lemma DecodeShort(code: nat, t: string)
    requires code < 0x800
    ensures DecodeRune(Encode(code) + t) == Rune(code, |Encode(code)|)
  {
    var e := Encode(code);
    assert (e + t)[0] == e[0];
    assert |e| >= 2 ==> (e + t)[1] == e[1];
  }

  lemma DecodeThree(code: nat, t: string)
    requires IsScalar(code) && 0x800 <= code < 0x10000
    ensures DecodeRune(Encode(code) + t) == Rune(code, |Encode(code)|)
  {
    var e := Encode(code);
    var s := e + t;
    assert s[0] == e[0] && s[1] == e[1] && s[2] == e[2];
    Sum3(code);
    ThreeWellFormed(code, t);
  }

  lemma Sum3(code: nat)
    ensures code == code / 4096 * 4096 + code / 64 % 64 * 64 + code % 64
  {
    assert code / 4096 == code / 64 / 64;
  }

  lemma ThreeWellFormed(code: nat, t: string)
    requires IsScalar(code) && 0x800 <= code < 0x10000
    ensures WellFormed(Encode(code) + t, 3) && Announced((Encode(code) + t)[0] as int) == 3
  {
    var e := Encode(code);
    var s := e + t;
    assert s[0] == e[0] && s[1] == e[1] && s[2] == e[2];
    if s[0] as int == 0xE0 {
      assert code / 4096 == 0 && code / 64 >= 32;
    } else if s[0] as int == 0xED {
      assert code / 4096 == 13 && code < 0xD800;
    }
  }

  lemma DecodeFour(code: nat, t: string)
    requires 0x10000 <= code <= 0x10FFFF
    ensures DecodeRune(Encode(code) + t) == Rune(code, |Encode(code)|)
  {
    var e := Encode(code);
    var s := e + t;
    assert s[0] == e[0] && s[1] == e[1] && s[2] == e[2] && s[3] == e[3];
    Sum4(code);
    assert WellFormed(s, 4);
  }

  lemma Sum4(code: nat)
    ensures code == code / 262144 * 262144 + code / 4096 % 64 * 4096 + code / 64 % 64 * 64 + code % 64
  {
    assert code / 4096 == code / 64 / 64 && code / 262144 == code / 4096 / 64;
  }

  /** What decodes well was encoded so: the bytes of the rune are its UTF-8 form. */
  lemma EncodeDecoded(s: string)
    requires s != "" && !IllFormed(s)
    ensures var r := DecodeRune(s); IsScalar(r.code) && r.size <= |s| && s[..r.size] == Encode(r.code)
  {
    var r := DecodeRune(s);
    if r.size == 2 {
      TwoBytes(s);
    } else if r.size == 3 {
      ThreeBytes(s);
    } else if r.size == 4 {
      FourBytes(s);
    }
  }

  lemma TwoBytes(s: string)
    requires WellFormed(s, 2)
    ensures var r := DecodeRune(s); r.size == 2 && IsScalar(r.code) && s[..2] == Encode(r.code)
  {
  }

  lemma ThreeBytes(s: string)
    requires WellFormed(s, 3)
    ensures var r := DecodeRune(s); r.size == 3 && IsScalar(r.code) && s[..3] == Encode(r.code)
  {
    var a, b, c := s[0] as int - 0xE0, s[1] as int - 0x80, s[2] as int - 0x80;
    assert 0 <= a < 16 && 0 <= b < 64 && 0 <= c < 64;
    Digits3(a, b, c);
  }

  lemma Digits3(a: nat, b: nat, c: nat)
    requires b < 64 && c < 64
    ensures var n := a * 4096 + b * 64 + c; n / 4096 == a && n / 64 % 64 == b && n % 64 == c
  {
    var n := a * 4096 + b * 64 + c;
    assert n / 64 == a * 64 + b;
  }

  lemma FourBytes(s: string)
    requires WellFormed(s, 4)
    ensures var r := DecodeRune(s); r.size == 4 && 0x10000 <= r.code <= 0x10FFFF && s[..4] == Encode(r.code)
  {
    var a, b, c, d := s[0] as int - 0xF0, s[1] as int - 0x80, s[2] as int - 0x80, s[3] as int - 0x80;
    assert 0 <= a < 5 && 0 <= b < 64 && 0 <= c < 64 && 0 <= d < 64;
    Digits4(a, b, c, d);
  }

  lemma Digits4(a: nat, b: nat, c: nat, d: nat)
    requires b < 64 && c < 64 && d < 64
    ensures var n := a * 262144 + b * 4096 + c * 64 + d;
            n / 262144 == a && n / 4096 % 64 == b && n / 64 % 64 == c && n % 64 == d
  {
    var n := a * 262144 + b * 4096 + c * 64 + d;
    assert n / 64 == a * 4096 + b * 64 + c;
    assert n / 4096 == a * 64 + b;
  }

  /** A byte is ill-formed exactly when no scalar value's form begins there. */
  lemma IllFormedExactly(s: string)
    requires s != ""
    ensures IllFormed(s) <==> forall code: nat :: IsScalar(code) ==> !(Encode(code) <= s)
  {
    hide DecodeRune, Encode;
    if IllFormed(s) {
      forall code: nat | IsScalar(code)
        ensures !(Encode(code) <= s)
      {
        if Encode(code) <= s {
          var e := Encode(code);
          DecodeEncoded(code, s[|e|..]);
          assert e + s[|e|..] == s;
          EncodedIsLong(code);
        }
      }
    } else {
      EncodeDecoded(s);
      assert Encode(DecodeRune(s).code) <= s;
    }
  }

  /** The replacement character itself takes three bytes. */
  lemma EncodedIsLong(code: nat)
    requires IsScalar(code) && code == RUNE_ERROR
    ensures |Encode(code)| == 3
  {
  }

  // --------------------------------------------------------------------- UTF-16

  /** The UTF-16 form of a scalar value: one unit, or a surrogate pair. */
  function Units(code: nat): seq<nat> {
    if code < 0x10000 then [code]
    else [0xD800 + (code - 0x10000) / 0x400, 0xDC00 + (code - 0x10000) % 0x400]
  }

  /** Reading the units back. */
  function FromUnits(units: seq<nat>): nat
    requires |units| == 1 || (|units| == 2 && units[0] >= 0xD800 && units[1] >= 0xDC00)
  {
    if |units| == 1 then units[0]
    else 0x10000 + (units[0] - 0xD800) * 0x400 + (units[1] - 0xDC00)
  }

  lemma UnitsRoundTrip(code: nat)
    requires IsScalar(code)
    ensures |Units(code)| == Utf16Len(code)
    ensures |Units(code)| == 2 ==> 0xD800 <= Units(code)[0] < 0xDC00 <= Units(code)[1] < 0xE000
    ensures FromUnits(Units(code)) == code
  {
  }

  /** A decoded rune counts as two units exactly when it has four bytes. */
  lemma UnitsBySize(s: string)
    requires s != ""
    ensures Utf16Len(DecodeRune(s).code) == if DecodeRune(s).size == 4 then 2 else 1
  {
    if !IllFormed(s) {
      EncodeDecoded(s);
    }
  }
}
