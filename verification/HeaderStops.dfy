/**
 Exactly when declarationBodyOffset of internal/lsp/declaration_headers.go finds a
 body: the code characters that end its search, said in terms of bracket counts and
 the token seen last.
 */
module HeaderStops {
  import opened Wrappers
  import opened Unicode
  import opened Lexical
  import opened Headers

  // ------------------------------------------------------------------- counts

  /** Opening minus closing brackets among the characters at some offsets. */
  function Diff(s: string, offsets: seq<nat>, open: char, close: char): int
    requires Below(offsets, |s|)
  {
    if offsets == [] then 0
    else
      var n := |offsets| - 1;
      var c := s[offsets[n]];
      Diff(s, offsets[..n], open, close) + (if c == open then 1 else if c == close then -1 else 0)
  }

  predicate Balanced(s: string, offsets: seq<nat>)
    requires Below(offsets, |s|)
  {
    Diff(s, offsets, '(', ')') == 0 && Diff(s, offsets, '[', ']') == 0 && Diff(s, offsets, '{', '}') == 0
  }

  /** Angle brackets count outside the other brackets, and an arrow is none. */
  function AngleDiff(s: string, start: nat, offsets: seq<nat>): int
    requires Below(offsets, |s|)
  {
    if offsets == [] then 0
    else
      var n := |offsets| - 1;
      var o, before := offsets[n], offsets[..n];
      AngleDiff(s, start, before)
      + (if !Balanced(s, before) then 0
         else if s[o] == '<' then 1
         else if s[o] == '>' && !(o > start && s[o - 1] == '=') then -1
         else 0)
  }

  /** All four counts are balanced here. */
  predicate Level(s: string, start: nat, offsets: seq<nat>)
    requires Below(offsets, |s|)
  {
    Balanced(s, offsets) && AngleDiff(s, start, offsets) == 0
  }

  predicate NotNegative(s: string, start: nat, offsets: seq<nat>)
    requires Below(offsets, |s|)
  {
    && Diff(s, offsets, '(', ')') >= 0 && Diff(s, offsets, '[', ']') >= 0 && Diff(s, offsets, '{', '}') >= 0
    && AngleDiff(s, start, offsets) >= 0
  }

  /** Code offset number `k` is an opening brace at level. */
  predicate OpensBody(s: string, start: nat, offsets: seq<nat>, k: nat)
    requires k < |offsets| && Below(offsets, |s|)
  {
    s[offsets[k]] == '{' && Level(s, start, offsets[..k])
  }

  // ------------------------------------------------------ the token seen last

  /** `>` as the second half of an arrow. */
  predicate IsArrow(s: string, start: nat, i: nat)
    requires i < |s|
  {
    i > start && s[i - 1] == '='
  }

  /** The token seen last after the character at `i`. Angle brackets inside other
      brackets and white space leave it as it was. */
  function Token(s: string, start: nat, i: nat, end: nat, before: seq<nat>, last: string): string
    requires i < end <= |s| && Below(before, |s|)
  {
    var c := s[i];
    if c in "([{,?:=&|." then [c]
    else if c == '<' then if Balanced(s, before) then "<" else last
    else if c == '>' then if !Balanced(s, before) then last else if IsArrow(s, start, i) then "=>" else "value"
    else if c in ")]};" then "value"
    else if IsSpace(DecodeRune(s[i..end]).code) then last
    else "value"
  }

  function Range(i: nat, n: nat): (r: seq<nat>)
    ensures |r| == n && forall k :: 0 <= k < n ==> r[k] == i + k
  {
    seq(n, k requires 0 <= k < n => i + k)
  }

  /** The token seen last before offset `o`, when at `i` it was `last` and `before` are
      the code offsets so far. A literal counts as a value. */
  function LastFrom(s: string, start: nat, i: nat, end: nat, before: seq<nat>, last: string, o: nat): string
    requires i <= end <= |s| && Below(before, |s|)
    decreases end - i
  {
    if i >= o || i == end then last
    else
      var t := s[i..end];
      var span := SpanOf(t);
      if span.kind != Plain then
        if !span.complete then last
        else LastFrom(s, start, i + span.size, end, before, if span.kind == Literal then "value" else last, o)
      else match KeywordAt(s, i, end, 0)
        case Some(keyword) =>
          LastFrom(s, start, i + |keyword|, end, before + Range(i, |keyword|),
                   if last == "." then "value" else keyword, o)
        case None =>
          LastFrom(s, start, i + DecodeRune(t).size, end, before + [i], Token(s, start, i, end, before, last), o)
  }

  function LastToken(s: string, start: nat, end: nat, o: nat): string
    requires start <= end <= |s|
  {
    LastFrom(s, start, start, end, [], "value", o)
  }

  // ------------------------------------------------------ what ends the search

  /** The character at `o` ends the search: it would make a count negative, it closes
      an angle bracket right after a token that wants more, or it is a semicolon or an
      opening brace at level. */
  predicate StopsAt(s: string, start: nat, before: seq<nat>, o: nat, last: string)
    requires Below(before, |s|) && o < |s|
  {
    || (s[o] == ')' && Diff(s, before, '(', ')') == 0)
    || (s[o] == ']' && Diff(s, before, '[', ']') == 0)
    || (s[o] == '}' && Diff(s, before, '{', '}') == 0)
    || (s[o] == '>' && Balanced(s, before) && !IsArrow(s, start, o)
        && (AngleDiff(s, start, before) == 0 || (last != "," && Incomplete(last))))
    || ((s[o] == ';' || s[o] == '{') && Level(s, start, before))
  }

  /** And it is where a body begins: an opening brace at level after a token that does
      not want more. */
  predicate OpensAt(s: string, start: nat, before: seq<nat>, o: nat, last: string)
    requires Below(before, |s|) && o < |s|
  {
    s[o] == '{' && Level(s, start, before) && !Incomplete(last)
  }

  /** Code offset number `k` ends the search in [start, end). */
  predicate Stops(s: string, start: nat, end: nat, all: seq<nat>, k: nat)
    requires start <= end <= |s| && k < |all| && Below(all, |s|)
  {
    StopsAt(s, start, all[..k], all[k], LastToken(s, start, end, all[k]))
  }

  predicate Opens(s: string, start: nat, end: nat, all: seq<nat>, k: nat)
    requires start <= end <= |s| && k < |all| && Below(all, |s|)
  {
    OpensAt(s, start, all[..k], all[k], LastToken(s, start, end, all[k]))
  }

  /** Nothing from number `n` up to number `k` ends the search. */
  ghost predicate Runs(s: string, start: nat, end: nat, all: seq<nat>, n: nat, k: nat)
    requires start <= end <= |s| && k <= |all| && Below(all, |s|)
  {
    forall j: nat :: n <= j < k ==> !Stops(s, start, end, all, j)
  }

  /** `r` is what the first character from number `n` on that ends the search makes of
      it: found if it opens a body, and nothing otherwise or if there is none. */
  ghost predicate Outcome(s: string, start: nat, end: nat, all: seq<nat>, n: nat, r: Option<nat>)
    requires start <= end <= |s| && n <= |all| && Below(all, |s|)
  {
    match r
    case Some(o) =>
      exists k: nat :: n <= k < |all| && all[k] == o && Opens(s, start, end, all, k) && Runs(s, start, end, all, n, k)
    case None =>
      forall k: nat :: n <= k < |all| && Opens(s, start, end, all, k) ==> !Runs(s, start, end, all, n, k)
  }

  // ----------------------------------------------------------------- one step

  /** The loop's counters are the counts of the offsets passed. */
  predicate Counts(b: BodyState, s: string, start: nat, seen: seq<nat>)
    requires Below(seen, |s|)
  {
    && b.parens == Diff(s, seen, '(', ')') && b.brackets == Diff(s, seen, '[', ']')
    && b.braces == Diff(s, seen, '{', '}') && b.angles == AngleDiff(s, start, seen)
  }

  lemma {:induction false} DiffStep(s: string, seen: seq<nat>, i: nat, open: char, close: char)
    requires i < |s| && Below(seen, |s|)
    ensures Diff(s, seen + [i], open, close)
         == Diff(s, seen, open, close) + if s[i] == open then 1 else if s[i] == close then -1 else 0
  {
    assert (seen + [i])[..|seen|] == seen;
  }

  lemma {:induction false} AngleStep(s: string, start: nat, seen: seq<nat>, i: nat)
    requires i < |s| && Below(seen, |s|)
    ensures AngleDiff(s, start, seen + [i])
         == AngleDiff(s, start, seen)
            + if !Balanced(s, seen) then 0
              else if s[i] == '<' then 1
              else if s[i] == '>' && !IsArrow(s, start, i) then -1
              else 0
  {
    assert (seen + [i])[..|seen|] == seen;
    hide Balanced;
  }

  lemma CountsStep(s: string, start: nat, seen: seq<nat>, i: nat)
    requires i < |s| && Below(seen, |s|)
    ensures Diff(s, seen + [i], '(', ')') == Diff(s, seen, '(', ')')
            + (if s[i] == '(' then 1 else if s[i] == ')' then -1 else 0)
    ensures Diff(s, seen + [i], '[', ']') == Diff(s, seen, '[', ']')
            + (if s[i] == '[' then 1 else if s[i] == ']' then -1 else 0)
    ensures Diff(s, seen + [i], '{', '}') == Diff(s, seen, '{', '}')
            + (if s[i] == '{' then 1 else if s[i] == '}' then -1 else 0)
  {
    hide Diff;
    DiffStep(s, seen, i, '(', ')');
    DiffStep(s, seen, i, '[', ']');
    DiffStep(s, seen, i, '{', '}');
  }

  /** One character of code moves the counts as the switch says. */
  lemma JudgeCounts(b: BodyState, s: string, start: nat, i: nat, end: nat, seen: seq<nat>)
    requires start <= i < end <= |s| && Below(seen, |s|) && Counts(b, s, start, seen)
    ensures Judge(b, s, start, i, end).Continue? ==>
              Counts(Judge(b, s, start, i, end).state, s, start, seen + [i])
  {
    CountsStep(s, start, seen, i);
    AngleStep(s, start, seen, i);
    hide Incomplete, DecodeRune, IsSpace, Diff, AngleDiff;
  }

  /** A letter of a keyword changes no count. */
  lemma LetterCounts(b: BodyState, s: string, start: nat, i: nat, seen: seq<nat>)
    requires i < |s| && Below(seen, |s|) && Counts(b, s, start, seen) && 'a' <= s[i] <= 'z'
    ensures Counts(b, s, start, seen + [i])
  {
    CountsStep(s, start, seen, i);
    AngleStep(s, start, seen, i);
    hide Diff, AngleDiff;
  }

  lemma LetterIsCode(s: string, i: nat, end: nat)
    requires i < end <= |s| && 'a' <= s[i] <= 'z'
    ensures CodeOffsets(s, i, end) == [i] + CodeOffsets(s, i + 1, end)
  {
    hide WellFormed, Announced;
    var t := s[i..end];
    assert t[0] == s[i];
    assert DecodeRune(t) == Rune(s[i] as int, 1);
    assert SpanOf(t).kind == Plain;
  }

  /** The switch of the loop decides as described. */
  lemma JudgeStops(b: BodyState, s: string, start: nat, i: nat, end: nat, seen: seq<nat>)
    requires start <= i < end <= |s| && Below(seen, |s|) && Counts(b, s, start, seen)
    ensures var v := Judge(b, s, start, i, end);
            && (v.Continue? <==> !StopsAt(s, start, seen, i, b.last))
            && (v.BodyHere? <==> OpensAt(s, start, seen, i, b.last))
            && (v.Continue? ==> v.state.last == Token(s, start, i, end, seen, b.last))
  {
    hide Incomplete, DecodeRune, IsSpace, Diff, AngleDiff;
  }

  lemma OpeningStops(s: string, start: nat, end: nat, all: seq<nat>, k: nat)
    requires start <= end <= |s| && k < |all| && Below(all, |s|) && Opens(s, start, end, all, k)
    ensures Stops(s, start, end, all, k)
  {
    hide Diff, AngleDiff, Incomplete, LastToken;
  }

  /** A character that does not end the search leaves the outcome to the rest. */
  lemma OutcomePast(s: string, start: nat, end: nat, all: seq<nat>, n: nat, r: Option<nat>)
    requires start <= end <= |s| && n < |all| && Below(all, |s|)
    requires Outcome(s, start, end, all, n + 1, r) && !Stops(s, start, end, all, n)
    ensures Outcome(s, start, end, all, n, r)
  {
    hide Stops, Opens;
    forall k: nat | n <= k < |all| && Opens(s, start, end, all, k)
      ensures n < k
    {
      OpeningStops(s, start, end, all, k);
    }
    forall k: nat | n < k <= |all|
      ensures Runs(s, start, end, all, n, k) == Runs(s, start, end, all, n + 1, k)
    {
    }
    hide Runs;
    if r.Some? {
      var k: nat :| n + 1 <= k < |all| && all[k] == r.value && Opens(s, start, end, all, k)
                    && Runs(s, start, end, all, n + 1, k);
      assert Runs(s, start, end, all, n, k);
    }
  }

  /** A character that ends the search settles it. */
  lemma OutcomeHere(s: string, start: nat, end: nat, all: seq<nat>, n: nat)
    requires start <= end <= |s| && n < |all| && Below(all, |s|) && Stops(s, start, end, all, n)
    ensures Outcome(s, start, end, all, n, if Opens(s, start, end, all, n) then Some(all[n]) else None)
  {
    hide Stops, Opens;
    assert Runs(s, start, end, all, n, n);
  }

  /** Letters do not end the search. */
  lemma {:induction false} OutcomePastLetters(s: string, start: nat, end: nat, all: seq<nat>, n: nat, m: nat,
                                              r: Option<nat>)
    requires start <= end <= |s| && n <= m <= |all| && Below(all, |s|) && Outcome(s, start, end, all, m, r)
    requires forall k :: n <= k < m ==> 'a' <= s[all[k]] <= 'z'
    ensures Outcome(s, start, end, all, n, r)
    decreases m - n
  {
    if n < m {
      assert !Stops(s, start, end, all, m - 1);
      hide Outcome, Stops;
      OutcomePast(s, start, end, all, m - 1, r);
      OutcomePastLetters(s, start, end, all, n, m - 1, r);
    }
  }

  // ----------------------------------------------------------- the whole search

  /** Where the scan is at `i`: its counts are those of the code offsets so far, and
      from here on it knows the token seen last. */
  ghost predicate At(b: BodyState, s: string, start: nat, i: nat, end: nat, seen: seq<nat>)
    requires start <= i <= end <= |s|
  {
    && Below(seen, |s|) && Counts(b, s, start, seen)
    && forall o: nat :: o >= i ==> LastToken(s, start, end, o) == LastFrom(s, start, i, end, seen, b.last, o)
  }

  lemma AtSpan(b: BodyState, c: BodyState, s: string, start: nat, i: nat, end: nat, seen: seq<nat>)
    requires start <= i < end <= |s| && At(b, s, start, i, end, seen)
    requires SpanOf(s[i..end]).kind != Plain && SpanOf(s[i..end]).complete
    requires c == if SpanOf(s[i..end]).kind == Literal then b.(last := "value") else b
    ensures At(c, s, start, i + SpanOf(s[i..end]).size, end, seen)
    ensures CodeOffsets(s, i, end) == CodeOffsets(s, i + SpanOf(s[i..end]).size, end)
  {
    hide SpanOf, LastToken, Diff, AngleDiff, KeywordAt, Token, DecodeRune;
  }

  lemma AtChar(b: BodyState, c: BodyState, s: string, start: nat, i: nat, end: nat, seen: seq<nat>)
    requires start <= i < end <= |s| && At(b, s, start, i, end, seen)
    requires SpanOf(s[i..end]).kind == Plain && KeywordAt(s, i, end, 0).None?
    requires Counts(c, s, start, seen + [i]) && c.last == Token(s, start, i, end, seen, b.last)
    ensures At(c, s, start, i + DecodeRune(s[i..end]).size, end, seen + [i])
    ensures LastToken(s, start, end, i) == b.last
  {
    hide SpanOf, LastToken, Counts, KeywordAt, Token, DecodeRune;
  }

  lemma RangeSplits(i: nat, n: nat, rest: seq<nat>)
    requires n > 0
    ensures [i] + (Range(i + 1, n - 1) + rest) == Range(i, n) + rest
  {
    hide Range;
    assert Range(i, n) == [i] + Range(i + 1, n - 1);
  }

  lemma {:induction false} LettersAreCode(s: string, i: nat, n: nat, end: nat)
    requires i + n <= end <= |s| && forall k :: i <= k < i + n ==> 'a' <= s[k] <= 'z'
    ensures CodeOffsets(s, i, end) == Range(i, n) + CodeOffsets(s, i + n, end)
    decreases n
  {
    hide CodeOffsets, Range;
    if n == 0 {
      assert Range(i, 0) == [];
    } else {
      LetterIsCode(s, i, end);
      LettersAreCode(s, i + 1, n - 1, end);
      RangeSplits(i, n, CodeOffsets(s, i + n, end));
    }
  }

  lemma {:induction false} LettersCount(b: BodyState, s: string, start: nat, i: nat, n: nat, seen: seq<nat>)
    requires i + n <= |s| && Below(seen, |s|) && Counts(b, s, start, seen)
    requires forall k :: i <= k < i + n ==> 'a' <= s[k] <= 'z'
    ensures Counts(b, s, start, seen + Range(i, n))
    decreases n
  {
    if n == 0 {
      assert seen + Range(i, 0) == seen;
    } else {
      hide Counts, Range;
      LettersCount(b, s, start, i, n - 1, seen);
      LetterCounts(b, s, start, i + n - 1, seen + Range(i, n - 1));
      assert seen + Range(i, n) == seen + Range(i, n - 1) + [i + n - 1];
    }
  }

  lemma KeywordLetters(s: string, i: nat, end: nat, keyword: string)
    requires i <= end <= |s| && KeywordAt(s, i, end, 0) == Some(keyword)
    ensures keyword != "" && i + |keyword| <= end && forall k :: i <= k < i + |keyword| ==> 'a' <= s[k] <= 'z'
  {
    hide KeywordAt, IsKeyword;
    KeywordsAreLong(keyword);
    assert keyword <= s[i..end];
    assert forall k :: i <= k < i + |keyword| ==> s[k] == keyword[k - i];
  }

  lemma AtKeyword(b: BodyState, s: string, start: nat, i: nat, end: nat, seen: seq<nat>, keyword: string)
    requires start <= i < end <= |s| && At(b, s, start, i, end, seen)
    requires SpanOf(s[i..end]).kind == Plain && KeywordAt(s, i, end, 0) == Some(keyword)
    requires keyword != "" && i + |keyword| <= end && forall k :: i <= k < i + |keyword| ==> 'a' <= s[k] <= 'z'
    ensures At(AfterKeyword(b, keyword), s, start, i + |keyword|, end, seen + Range(i, |keyword|))
  {
    hide SpanOf, LastToken, Counts, KeywordAt, Token, DecodeRune, Range;
    LettersCount(b, s, start, i, |keyword|, seen);
    LastNotCounted(b, AfterKeyword(b, keyword), s, start, seen + Range(i, |keyword|));
    forall o: nat | o >= i + |keyword|
      ensures LastFrom(s, start, i, end, seen, b.last, o)
           == LastFrom(s, start, i + |keyword|, end, seen + Range(i, |keyword|), AfterKeyword(b, keyword).last, o)
    {
    }
    hide LastFrom;
  }

  lemma LastNotCounted(b: BodyState, c: BodyState, s: string, start: nat, seen: seq<nat>)
    requires Below(seen, |s|) && Counts(b, s, start, seen) && c == b.(last := c.last)
    ensures Counts(c, s, start, seen)
  {
  }

  /** The search is over when nothing is left to scan. */
  lemma NothingFound(s: string, start: nat, end: nat, seen: seq<nat>)
    requires start <= end <= |s| && Below(seen, |s|)
    ensures Outcome(s, start, end, seen + [], |seen|, None)
  {
  }

  /** One turn of the loop at a span. */
  lemma BodyAtSpan(b: BodyState, s: string, start: nat, i: nat, end: nat)
    requires start <= i < end <= |s| && SpanOf(s[i..end]).kind != Plain
    ensures var span := SpanOf(s[i..end]);
            BodyFrom(b, s, start, i, end)
            == if !span.complete then None
               else BodyFrom(if span.kind == Literal then b.(last := "value") else b, s, start, i + span.size, end)
    ensures !SpanOf(s[i..end]).complete ==> CodeOffsets(s, i, end) == []
  {
    hide SpanOf, KeywordAt, Judge;
  }

  /** One turn of the loop at code. */
  lemma BodyAtCode(b: BodyState, s: string, start: nat, i: nat, end: nat)
    requires start <= i < end <= |s| && SpanOf(s[i..end]).kind == Plain
    ensures match KeywordAt(s, i, end, 0)
            case Some(keyword) =>
              i + |keyword| <= end
              && BodyFrom(b, s, start, i, end) == BodyFrom(AfterKeyword(b, keyword), s, start, i + |keyword|, end)
            case None =>
              BodyFrom(b, s, start, i, end)
              == match Judge(b, s, start, i, end)
                 case Refuse => None
                 case BodyHere => Some(i)
                 case Continue(next) => BodyFrom(next, s, start, i + DecodeRune(s[i..end]).size, end)
    ensures CodeOffsets(s, i, end) == [i] + CodeOffsets(s, i + DecodeRune(s[i..end]).size, end)
  {
    hide SpanOf, KeywordAt, Judge, DecodeRune, AfterKeyword;
  }

  lemma AtBelow(b: BodyState, s: string, start: nat, i: nat, end: nat, seen: seq<nat>)
    requires start <= i <= end <= |s| && At(b, s, start, i, end, seen)
    ensures Below(seen, |s|) && Below(seen + CodeOffsets(s, i, end), |s|)
  {
    hide CodeOffsets, Counts, LastToken, LastFrom;
  }

  lemma BodyAtEnd(b: BodyState, s: string, start: nat, end: nat)
    requires start <= end <= |s|
    ensures BodyFrom(b, s, start, end, end) == None && CodeOffsets(s, end, end) == []
  {
  }

  lemma {:induction false} BodyFromOutcome(b: BodyState, s: string, start: nat, i: nat, end: nat, seen: seq<nat>)
    requires start <= i <= end <= |s| && At(b, s, start, i, end, seen)
    ensures Below(seen + CodeOffsets(s, i, end), |s|)
    ensures Outcome(s, start, end, seen + CodeOffsets(s, i, end), |seen|, BodyFrom(b, s, start, i, end))
    decreases end - i, 1
  {
    hide SpanOf, DecodeRune, KeywordAt, At, Outcome, BodyFrom, CodeOffsets, Below, LastToken;
    AtBelow(b, s, start, i, end, seen);
    NothingFound(s, start, end, seen);
    if i == end {
      BodyAtEnd(b, s, start, end);
    } else {
      var span := SpanOf(s[i..end]);
      if span.kind != Plain {
        BodyAtSpan(b, s, start, i, end);
        if span.complete {
          var c := if span.kind == Literal then b.(last := "value") else b;
          AtSpan(b, c, s, start, i, end, seen);
          BodyFromOutcome(c, s, start, i + span.size, end, seen);
        }
      } else if KeywordAt(s, i, end, 0).Some? {
        BodyFromKeyword(b, s, start, i, end, seen, KeywordAt(s, i, end, 0).value);
      } else {
        BodyFromChar(b, s, start, i, end, seen);
      }
    }
  }

  lemma {:induction false} BodyFromKeyword(b: BodyState, s: string, start: nat, i: nat, end: nat, seen: seq<nat>,
                                           keyword: string)
    requires start <= i < end <= |s| && At(b, s, start, i, end, seen) && SpanOf(s[i..end]).kind == Plain
    requires KeywordAt(s, i, end, 0) == Some(keyword)
    ensures Below(seen + CodeOffsets(s, i, end), |s|)
    ensures Outcome(s, start, end, seen + CodeOffsets(s, i, end), |seen|, BodyFrom(b, s, start, i, end))
    decreases end - i, 0
  {
    hide SpanOf, DecodeRune, KeywordAt, At, Outcome, BodyFrom, CodeOffsets, AfterKeyword;
    BodyAtCode(b, s, start, i, end);
    KeywordLetters(s, i, end, keyword);
    AtKeyword(b, s, start, i, end, seen, keyword);
    LettersAreCode(s, i, |keyword|, end);
    var more, all := seen + Range(i, |keyword|), seen + CodeOffsets(s, i, end);
    BodyFromOutcome(AfterKeyword(b, keyword), s, start, i + |keyword|, end, more);
    assert all == more + CodeOffsets(s, i + |keyword|, end);
    assert forall k :: |seen| <= k < |more| ==> all[k] == i + (k - |seen|);
    OutcomePastLetters(s, start, end, all, |seen|, |more|, BodyFrom(b, s, start, i, end));
  }

  lemma CodeSplits(s: string, seen: seq<nat>, i: nat, end: nat, next: nat)
    requires i < next <= end <= |s| && Below(seen, |s|)
    requires CodeOffsets(s, i, end) == [i] + CodeOffsets(s, next, end)
    ensures var all := seen + CodeOffsets(s, i, end);
            && all == seen + [i] + CodeOffsets(s, next, end) && Below(all, |s|)
            && |all| > |seen| && all[..|seen|] == seen && all[|seen|] == i
  {
    hide CodeOffsets;
  }

  /** A character after which the search goes on, given what the rest finds. */
  lemma CharPasses(b: BodyState, s: string, start: nat, i: nat, end: nat, seen: seq<nat>, all: seq<nat>, next: nat)
    requires start <= i < next <= end <= |s| && Below(all, |s|) && |all| > |seen|
    requires Judge(b, s, start, i, end).Continue?
    requires BodyFrom(b, s, start, i, end) == BodyFrom(Judge(b, s, start, i, end).state, s, start, next, end)
    requires !Stops(s, start, end, all, |seen|)
    requires Outcome(s, start, end, all, |seen| + 1, BodyFrom(Judge(b, s, start, i, end).state, s, start, next, end))
    ensures Outcome(s, start, end, all, |seen|, BodyFrom(b, s, start, i, end))
  {
    hide Outcome, BodyFrom, Judge, Stops, Below;
    OutcomePast(s, start, end, all, |seen|, BodyFrom(b, s, start, i, end));
  }

  lemma {:induction false} BodyFromChar(b: BodyState, s: string, start: nat, i: nat, end: nat, seen: seq<nat>)
    requires start <= i < end <= |s| && At(b, s, start, i, end, seen) && SpanOf(s[i..end]).kind == Plain
    requires KeywordAt(s, i, end, 0).None?
    ensures Below(seen + CodeOffsets(s, i, end), |s|)
    ensures Outcome(s, start, end, seen + CodeOffsets(s, i, end), |seen|, BodyFrom(b, s, start, i, end))
    decreases end - i, 0
  {
    hide SpanOf, DecodeRune, KeywordAt, At, Outcome, BodyFrom, CodeOffsets, Judge, Stops, Opens, Below, LastToken;
    AtBelow(b, s, start, i, end, seen);
    BodyAtCode(b, s, start, i, end);
    var next := i + DecodeRune(s[i..end]).size;
    CodeSplits(s, seen, i, end, next);
    var all := seen + CodeOffsets(s, i, end);
    CharDecides(b, s, start, i, end, seen, all);
    if Judge(b, s, start, i, end).Continue? {
      BodyFromOutcome(Judge(b, s, start, i, end).state, s, start, next, end, seen + [i]);
      CharPasses(b, s, start, i, end, seen, all, next);
    } else {
      OutcomeHere(s, start, end, all, |seen|);
    }
  }

  /** The verdict on one character is the description's. */
  lemma CharDecides(b: BodyState, s: string, start: nat, i: nat, end: nat, seen: seq<nat>, all: seq<nat>)
    requires start <= i < end <= |s| && At(b, s, start, i, end, seen)
    requires SpanOf(s[i..end]).kind == Plain && KeywordAt(s, i, end, 0).None?
    requires |all| > |seen| && all[..|seen|] == seen && all[|seen|] == i && Below(all, |s|)
    ensures var v := Judge(b, s, start, i, end);
            && (v.Continue? <==> !Stops(s, start, end, all, |seen|))
            && (v.BodyHere? <==> Opens(s, start, end, all, |seen|))
            && (v.Continue? ==> At(v.state, s, start, i + DecodeRune(s[i..end]).size, end, seen + [i]))
  {
    var v := Judge(b, s, start, i, end);
    assert Below(seen, |s|) && Counts(b, s, start, seen);
    JudgeStops(b, s, start, i, end, seen);
    JudgeCounts(b, s, start, i, end, seen);
    TokenBefore(b, s, start, i, end, seen);
    hide SpanOf, DecodeRune, KeywordAt, Judge, StopsAt, OpensAt, Counts, Level, At, LastToken, Token;
    if v.Continue? {
      AtChar(b, v.state, s, start, i, end, seen);
    }
  }

  lemma TokenBefore(b: BodyState, s: string, start: nat, i: nat, end: nat, seen: seq<nat>)
    requires start <= i <= end <= |s| && At(b, s, start, i, end, seen)
    ensures LastToken(s, start, end, i) == b.last
  {
    hide LastToken, SpanOf, KeywordAt, Token, DecodeRune, Counts;
  }

  /** The search is decided by the first code character that ends it. If that is an
      opening brace at level after a token that does not want more, its offset is
      found; in every other case, and if no character ends it before the end of the
      range or an unterminated span, nothing is. */
  lemma BodyOutcome(s: string, start: nat, end: nat)
    requires start <= end <= |s|
    ensures Outcome(s, start, end, CodeOffsets(s, start, end), 0, BodyFrom(BODY_START, s, start, start, end))
  {
    assert [] + CodeOffsets(s, start, end) == CodeOffsets(s, start, end);
    BodyFromOutcome(BODY_START, s, start, start, end, []);
  }

  /** As long as nothing ends the search no count is negative. */
  lemma {:induction false} RunsNotNegative(s: string, start: nat, end: nat, all: seq<nat>, k: nat)
    requires start <= end <= |s| && k <= |all| && Below(all, |s|) && Runs(s, start, end, all, 0, k)
    ensures NotNegative(s, start, all[..k])
  {
    if k > 0 {
      RunsNotNegative(s, start, end, all, k - 1);
      assert !Stops(s, start, end, all, k - 1);
      assert all[..k][..k - 1] == all[..k - 1];
      hide LastToken, Incomplete;
    }
  }

  /** The body begins at the first `{` outside comments and literals at which all
      bracket counts are balanced, and on the way there no count was negative. */
  lemma BodyIsFirst(s: string, start: nat, end: nat, o: nat) returns (k: nat)
    requires start <= end <= |s| && BodyFrom(BODY_START, s, start, start, end) == Some(o)
    ensures var all := CodeOffsets(s, start, end);
            && k < |all| && all[k] == o && s[o] == '{' && Level(s, start, all[..k])
            && (forall j :: 0 <= j <= k ==> NotNegative(s, start, all[..j]))
            && (forall j: nat :: j < k ==> !OpensBody(s, start, all, j))
  {
    var all := CodeOffsets(s, start, end);
    BodyOutcome(s, start, end);
    hide CodeOffsets, BodyFrom, LastToken, Incomplete, NotNegative;
    k :| 0 <= k < |all| && all[k] == o && Opens(s, start, end, all, k) && Runs(s, start, end, all, 0, k);
    forall j: nat | j <= k
      ensures NotNegative(s, start, all[..j])
    {
      RunsNotNegative(s, start, end, all, j);
    }
    forall j: nat | j < k
      ensures !OpensBody(s, start, all, j)
    {
      assert !Stops(s, start, end, all, j);
    }
  }
}
