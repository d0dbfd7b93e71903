/**
 What a position is, without decoding rune by rune: the number of line breaks before
 the offset, and the length in UTF-16 of what lies between the last of them and the
 offset.
 */
module PositionUnits {
  import opened Unicode
  import opened Utf8
  import opened Positions

  function Breaks(t: string): nat {
    if t == "" then 0 else (if t[0] == '\n' then 1 else 0) + Breaks(t[1..])
  }

  /** What follows the last line break. */
  function LastLine(t: string): string {
    if '\n' in t then LastLine(t[1..]) else t
  }

  lemma {:induction false} LastLineIsLast(t: string)
    ensures var l := LastLine(t);
            '\n' !in l && |l| <= |t| && t[|t| - |l|..] == l && (|l| < |t| ==> t[|t| - |l| - 1] == '\n')
  {
    if '\n' in t {
      LastLineIsLast(t[1..]);
      var n := |t| - |LastLine(t)|;
      assert t[1..][n - 1..] == t[n..];
      if |LastLine(t)| == |t| - 1 {
        assert t == [t[0]] + LastLine(t);
      }
    }
  }

  /** The UTF-16 form of a text; an ill-formed byte is one replacement character. */
  function Utf16(t: string): seq<nat>
    decreases |t|
  {
    if t == "" then [] else var r := DecodeRune(t); Units(r.code) + Utf16(t[r.size..])
  }

  lemma {:induction false} SkipPlain(t: string, k: nat)
    requires k <= |t| && forall j :: 0 <= j < k ==> t[j] != '\n'
    ensures Breaks(t) == Breaks(t[k..]) && ('\n' in t <==> '\n' in t[k..])
    ensures '\n' in t ==> LastLine(t) == LastLine(t[k..])
  {
    if k > 0 {
      SkipPlain(t[1..], k - 1);
      assert t[1..][k - 1..] == t[k..];
      assert t == [t[0]] + t[1..];
    }
  }

  lemma {:induction false} BreaksNone(t: string)
    ensures Breaks(t) == 0 <==> '\n' !in t
  {
    if t != "" {
      BreaksNone(t[1..]);
      assert t == [t[0]] + t[1..];
    }
  }

  /** The position that is reached from `p` over the text `t`. */
  function Moved(p: Position, t: string): Position {
    Position(p.line + Breaks(t), (if Breaks(t) == 0 then p.character else 0) + |Utf16(LastLine(t))|)
  }

  lemma MovedByBreak(p: Position, t: string)
    requires t != "" && t[0] == '\n'
    ensures Moved(p, t) == Moved(Position(p.line + 1, 0), t[1..])
  {
    hide Utf16;
  }

  lemma MovedByRune(p: Position, t: string)
    requires t != "" && DecodeRune(t).code != '\n' as int
    ensures Moved(p, t) == Moved(After(p, DecodeRune(t)), t[DecodeRune(t).size..])
  {
    var r := DecodeRune(t);
    assert forall j :: 0 <= j < r.size ==> t[j] != '\n' by {
      forall j | 0 <= j < r.size
        ensures t[j] != '\n'
      {
        if j > 0 { NoBreakInside(t, j); } else if r.size > 1 { NoBreakInside(t, 1); }
      }
    }
    hide DecodeRune, Breaks, LastLine;
    SkipPlain(t, r.size);
    BreaksNone(t);
    BreaksNone(t[r.size..]);
    if '\n' !in t {
      LastOfPlain(t);
      LastOfPlain(t[r.size..]);
      LengthOfUnits(r.code);
    }
  }

  lemma LastOfPlain(t: string)
    requires '\n' !in t
    ensures LastLine(t) == t
  {
  }

  lemma LengthOfUnits(code: nat)
    ensures |Units(code)| == Utf16Len(code)
  {
  }

  lemma {:induction false} AdvanceMoves(s: string, i: nat, p: Position, o: nat)
    requires i <= o <= |s|
    ensures Advance(s, i, p, o) == Moved(p, s[i..o])
    decreases o - i
  {
    hide DecodeRune, Moved;
    if i < o {
      var t := s[i..o];
      var r := DecodeRune(t);
      AdvanceMoves(s, i + r.size, After(p, r), o);
      assert t[r.size..] == s[i + r.size..o];
      if r.code == '\n' as int {
        BreakIsOneByte(t);
        MovedByBreak(p, t);
      } else {
        MovedByRune(p, t);
      }
    } else {
      assert s[i..o] == "";
      MovedNowhere(p);
    }
  }

  lemma MovedNowhere(p: Position)
    ensures Moved(p, "") == p
  {
  }

  lemma BreakIsOneByte(t: string)
    requires t != "" && DecodeRune(t).code == '\n' as int
    ensures DecodeRune(t).size == 1 && t[0] == '\n'
  {
  }

  /** Every position that byteOffset resolves, and every position that positionAt gives,
      counts line breaks and UTF-16 units. */
  lemma PositionCounts(s: string, o: nat)
    requires o <= |s|
    ensures PositionAt(s, o) == Position(Breaks(s[..o]), |Utf16(LastLine(s[..o]))|)
    ensures forall q :: Located(s, o, q) ==> q == PositionAt(s, o)
  {
    AdvanceMoves(s, 0, ORIGIN, o);
    assert s[0..o] == s[..o];
    forall q | Located(s, o, q)
      ensures q == PositionAt(s, o)
    {
      AdvanceReaches(s, 0, ORIGIN, o, q);
    }
  }
}
