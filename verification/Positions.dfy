/**
 LSP positions, a line and a count of UTF-16 units, against byte offsets:
 byteOffsetContext and positionAt of internal/lsp/signatures.go.
 */
module Positions {
  import opened Wrappers
  import opened Unicode

  datatype Position = Position(line: int, character: int)

  /** positionBefore of internal/core/types.go. */
  predicate Before(a: Position, b: Position) {
    a.line < b.line || (a.line == b.line && a.character < b.character)
  }

  const ORIGIN := Position(0, 0)

  /** The position after one rune. */
  function After(p: Position, r: Rune): Position {
    if r.code == '\n' as int then Position(p.line + 1, 0)
    else Position(p.line, p.character + Utf16Len(r.code))
  }

  // --------------------------------------------------------------- reference

  /** Decoding rune by rune from offset `i`, which is at position `p`, comes to
      offset `o`, which is at position `q`. */
  predicate Reaches(s: string, i: nat, p: Position, o: nat, q: Position)
    requires i <= |s|
    decreases |s| - i
  {
    if i == o then p == q
    else i < |s| && i < o
         && var r := DecodeRune(s[i..]); Reaches(s, i + r.size, After(p, r), o, q)
  }

  /** `o` lies between two runes and `q` is its position. */
  predicate Located(s: string, o: nat, q: Position) {
    Reaches(s, 0, ORIGIN, o, q)
  }

  ghost predicate Boundary(s: string, o: nat) {
    exists q :: Located(s, o, q)
  }

  // ------------------------------------------------------ what the loops compute

  /** The loop of positionAt: it decodes no further than `o`. */
  function Advance(s: string, i: nat, p: Position, o: nat): Position
    requires i <= o <= |s|
    decreases o - i
  {
    if i == o then p
    else
      var r := DecodeRune(s[i..o]);
      Advance(s, i + r.size, After(p, r), o)
  }

  /** The first loop of byteOffsetContext counts line breaks byte by byte. */
  function LineScan(s: string, line: int, target: int, i: nat): (r: (int, nat))
    requires i <= |s|
    ensures i <= r.1 <= |s|
    decreases |s| - i
  {
    if line < target && i < |s| then
      LineScan(s, if s[i] == '\n' then line + 1 else line, target, i + 1)
    else (line, i)
  }

  /** The second loop counts UTF-16 units rune by rune. */
  function UnitScan(s: string, i: nat, units: int, target: int): (r: (int, nat))
    requires i <= |s|
    ensures i <= r.1 <= |s|
    decreases |s| - i
  {
    if i < |s| && s[i] != '\n' && units < target then
      var r := DecodeRune(s[i..]);
      UnitScan(s, i + r.size, units + Utf16Len(r.code), target)
    else (units, i)
  }

  function ByteOffset(s: string, p: Position): Option<nat> {
    if p.line < 0 || p.character < 0 then None
    else
      var (line, start) := LineScan(s, 0, p.line, 0);
      if line != p.line then None
      else
        var (units, o) := UnitScan(s, start, 0, p.character);
        if units != p.character then None else Some(o)
  }

  function PositionAt(s: string, o: nat): Position
    requires o <= |s|
  {
    Advance(s, 0, ORIGIN, o)
  }

  // ------------------------------------------------------------------ methods

  method FindByteOffset(s: string, p: Position) returns (r: Scan<Option<nat>>)
    ensures r.Done? ==> r.result == ByteOffset(s, p)
  {
    if * { return Cancelled; }
    if p.line < 0 || p.character < 0 {
      return Done(None);
    }
    var line, offset := 0, 0;
    while line < p.line && offset < |s|
      invariant offset <= |s| && LineScan(s, line, p.line, offset) == LineScan(s, 0, p.line, 0)
    {
      if s[offset] == '\n' {
        line := line + 1;
      }
      offset := offset + 1;
      if * { return Cancelled; }
    }
    if line != p.line {
      return Done(None);
    }
    var units := 0;
    ghost var start := offset;
    while offset < |s| && s[offset] != '\n' && units < p.character
      invariant offset <= |s| && UnitScan(s, offset, units, p.character) == UnitScan(s, start, 0, p.character)
      decreases |s| - offset
    {
      var rune := DecodeRune(s[offset..]);
      units := units + Utf16Len(rune.code);
      offset := offset + rune.size;
      if * { return Cancelled; }
    }
    if * { return Cancelled; }
    if units != p.character {
      return Done(None);
    }
    return Done(Some(offset));
  }

  method FindPosition(s: string, o: nat) returns (p: Position)
    requires o <= |s|
    ensures p == PositionAt(s, o)
  {
    p := ORIGIN;
    var i := 0;
    while i < o
      invariant i <= o && Advance(s, i, p, o) == PositionAt(s, o)
      decreases o - i
    {
      var r := DecodeRune(s[i..o]);
      p := After(p, r);
      i := i + r.size;
    }
  }

  // -------------------------------------------------- the reference is an order

  lemma {:induction false} ReachesForward(s: string, i: nat, p: Position, o: nat, q: Position)
    requires i <= |s| && Reaches(s, i, p, o, q)
    ensures i <= o <= |s| && (i < o ==> Before(p, q)) && (i == o ==> p == q) && p.line <= q.line
    decreases |s| - i
  {
    hide DecodeRune;
    if i < o {
      var r := DecodeRune(s[i..]);
      ReachesForward(s, i + r.size, After(p, r), o, q);
    }
  }

  lemma {:induction false} ReachesThrough(s: string, i: nat, p: Position, m: nat, q: Position, o: nat, t: Position)
    requires i <= |s| && Reaches(s, i, p, m, q) && m <= |s| && Reaches(s, m, q, o, t)
    ensures Reaches(s, i, p, o, t)
    decreases |s| - i
  {
    ReachesForward(s, m, q, o, t);
    hide DecodeRune;
    if i != m {
      var r := DecodeRune(s[i..]);
      ReachesForward(s, i + r.size, After(p, r), m, q);
      ReachesThrough(s, i + r.size, After(p, r), m, q, o, t);
    }
  }

  /** Of two offsets reached from one place, the nearer lies on the way. */
  lemma {:induction false} ReachesBetween(s: string, i: nat, p: Position, m: nat, q: Position, o: nat, t: Position)
    requires i <= |s| && Reaches(s, i, p, m, q) && Reaches(s, i, p, o, t) && m <= o
    ensures m <= |s| && Reaches(s, m, q, o, t)
    decreases |s| - i
  {
    hide DecodeRune;
    if i != m {
      var r := DecodeRune(s[i..]);
      ReachesForward(s, i + r.size, After(p, r), m, q);
      ReachesBetween(s, i + r.size, After(p, r), m, q, o, t);
    }
  }

  // ----------------------------------------------- bounded decoding agrees

  lemma {:induction false} AdvanceReaches(s: string, i: nat, p: Position, o: nat, q: Position)
    requires i <= |s| && Reaches(s, i, p, o, q)
    ensures o <= |s| && i <= o && Advance(s, i, p, o) == q
    decreases |s| - i
  {
    hide DecodeRune;
    ReachesForward(s, i, p, o, q);
    if i < o {
      var r := DecodeRune(s[i..]);
      ReachesForward(s, i + r.size, After(p, r), o, q);
      DecodeWithin(s[i..], o - i);
      assert s[i..][..o - i] == s[i..o];
      AdvanceReaches(s, i + r.size, After(p, r), o, q);
    }
  }

  // ------------------------------------------------------------- the two scans

  /** A rune of more than one byte contains no line break. */
  lemma NoBreakInside(s: string, k: nat)
    requires s != "" && 0 < k < DecodeRune(s).size
    ensures s[k] != '\n' && s[0] != '\n'
  {
    assert WellFormed(s, DecodeRune(s).size);
  }

  lemma {:induction false} LineScanSkips(s: string, line: int, target: int, i: nat, k: nat)
    requires i <= k <= |s| && line < target && forall j :: i <= j < k ==> s[j] != '\n'
    ensures LineScan(s, line, target, i) == LineScan(s, line, target, k)
    decreases k - i
  {
    if i < k {
      LineScanSkips(s, line, target, i + 1, k);
    }
  }

  /** Counting line breaks byte by byte is counting them rune by rune. */
  lemma LineScanRune(s: string, line: int, target: int, i: nat)
    requires i < |s| && line < target
    ensures var r := DecodeRune(s[i..]);
            LineScan(s, line, target, i)
            == LineScan(s, if r.code == '\n' as int then line + 1 else line, target, i + r.size)
  {
    var t := s[i..];
    var r := DecodeRune(t);
    assert t[0] == s[i];
    if r.size == 1 {
      assert s[i] == '\n' <==> r.code == '\n' as int;
    } else {
      forall j | i <= j < i + r.size
        ensures s[j] != '\n'
      {
        assert s[j] == t[j - i];
        if j > i { NoBreakInside(t, j - i); } else { NoBreakInside(t, 1); }
      }
      LineScanSkips(s, line, target, i, i + r.size);
    }
  }

  lemma {:induction false} LineScanSound(s: string, i: nat, p: Position, target: int)
    requires i <= |s| && p.line <= target && (p.line == target ==> p.character == 0)
    requires LineScan(s, p.line, target, i).0 == target
    ensures Reaches(s, i, p, LineScan(s, p.line, target, i).1, Position(target, 0))
    decreases |s| - i
  {
    hide DecodeRune;
    if p.line < target {
      LineScanRune(s, p.line, target, i);
      var r := DecodeRune(s[i..]);
      LineScanSound(s, i + r.size, After(p, r), target);
      ReachesForward(s, i + r.size, After(p, r), LineScan(s, p.line, target, i).1, Position(target, 0));
    }
  }

  lemma {:induction false} LineScanComplete(s: string, i: nat, p: Position, o: nat, t: Position)
    requires i <= |s| && p.line <= t.line && (p.line == t.line ==> p.character == 0) && Reaches(s, i, p, o, t)
    ensures LineScan(s, p.line, t.line, i).0 == t.line
    ensures Reaches(s, LineScan(s, p.line, t.line, i).1, Position(t.line, 0), o, t)
    decreases |s| - i
  {
    hide DecodeRune;
    ReachesForward(s, i, p, o, t);
    if p.line < t.line {
      LineScanRune(s, p.line, t.line, i);
      var r := DecodeRune(s[i..]);
      ReachesForward(s, i + r.size, After(p, r), o, t);
      LineScanComplete(s, i + r.size, After(p, r), o, t);
    }
  }

  lemma {:induction false} UnitScanSound(s: string, i: nat, p: Position, target: int)
    requires i <= |s| && UnitScan(s, i, p.character, target).0 == target
    ensures Reaches(s, i, p, UnitScan(s, i, p.character, target).1, Position(p.line, target))
    decreases |s| - i
  {
    if i < |s| && s[i] != '\n' && p.character < target {
      var r := DecodeRune(s[i..]);
      assert r.code != '\n' as int;
      hide DecodeRune;
      UnitScanSound(s, i + r.size, After(p, r), target);
    }
  }

  lemma {:induction false} UnitScanComplete(s: string, i: nat, p: Position, o: nat, t: Position)
    requires i <= |s| && p.line == t.line && Reaches(s, i, p, o, t)
    ensures UnitScan(s, i, p.character, t.character) == (t.character, o)
    decreases |s| - i
  {
    ReachesForward(s, i, p, o, t);
    if i < o {
      var r := DecodeRune(s[i..]);
      assert s[i] == '\n' ==> r.code == '\n' as int;
      hide DecodeRune;
      ReachesForward(s, i + r.size, After(p, r), o, t);
      UnitScanComplete(s, i + r.size, After(p, r), o, t);
    }
  }

  // ------------------------------------------------------------- main results

  /** byteOffset finds `o` for a position exactly when `o` is a boundary with that
      position. */
  lemma ByteOffsetMeaning(s: string, p: Position, o: nat)
    ensures ByteOffset(s, p) == Some(o) <==> Located(s, o, p)
  {
    if ByteOffset(s, p) == Some(o) {
      var start := LineScan(s, 0, p.line, 0).1;
      LineScanSound(s, 0, ORIGIN, p.line);
      UnitScanSound(s, start, Position(p.line, 0), p.character);
      ReachesThrough(s, 0, ORIGIN, start, Position(p.line, 0), o, p);
    }
    if Located(s, o, p) {
      ReachesForward(s, 0, ORIGIN, o, p);
      var start := LineScan(s, 0, p.line, 0).1;
      LineScanComplete(s, 0, ORIGIN, o, p);
      UnitScanComplete(s, start, Position(p.line, 0), o, p);
    }
  }

  /** Converting to an offset and back gives the position again. */
  lemma PositionOfOffset(s: string, p: Position)
    requires ByteOffset(s, p).Some?
    ensures ByteOffset(s, p).value <= |s| && PositionAt(s, ByteOffset(s, p).value) == p
  {
    var o := ByteOffset(s, p).value;
    ByteOffsetMeaning(s, p, o);
    AdvanceReaches(s, 0, ORIGIN, o, p);
  }

  /** And the other way around at every boundary between runes. */
  lemma OffsetOfPosition(s: string, o: nat)
    requires Boundary(s, o)
    ensures o <= |s| && ByteOffset(s, PositionAt(s, o)) == Some(o)
  {
    var q :| Located(s, o, q);
    AdvanceReaches(s, 0, ORIGIN, o, q);
    ByteOffsetMeaning(s, q, o);
  }

  /** Offsets are ordered as positions are. */
  lemma ByteOffsetIsMonotone(s: string, p: Position, q: Position)
    requires ByteOffset(s, p).Some? && ByteOffset(s, q).Some?
    ensures Before(p, q) <==> ByteOffset(s, p).value < ByteOffset(s, q).value
  {
    var a, b := ByteOffset(s, p).value, ByteOffset(s, q).value;
    ByteOffsetMeaning(s, p, a);
    ByteOffsetMeaning(s, q, b);
    if a <= b {
      ReachesBetween(s, 0, ORIGIN, a, p, b, q);
      ReachesForward(s, a, p, b, q);
    } else {
      ReachesBetween(s, 0, ORIGIN, b, q, a, p);
      ReachesForward(s, b, q, a, p);
    }
  }

  /** textInRange: the text between two positions. */
  datatype Slice = Text(text: string) | Unresolved | EndPrecedesStart

  function TextInRange(s: string, start: Position, end: Position): Slice {
    match (ByteOffset(s, start), ByteOffset(s, end))
    case (Some(a), Some(b)) =>
      if b < a then EndPrecedesStart
      else
        ByteOffsetMeaning(s, end, b);
        ReachesForward(s, 0, ORIGIN, b, end);
        Text(s[a..b])
    case _ => Unresolved
  }

  /** A range fails for its order exactly when both ends resolve and Range.Validate
      would have refused it. */
  lemma ValidRangeNeverInverts(s: string, start: Position, end: Position)
    ensures TextInRange(s, start, end).EndPrecedesStart? <==>
              ByteOffset(s, start).Some? && ByteOffset(s, end).Some? && Before(end, start)
  {
    if ByteOffset(s, start).Some? && ByteOffset(s, end).Some? {
      ByteOffsetIsMonotone(s, end, start);
    }
  }
}
