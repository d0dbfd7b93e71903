/**
 Laws that pin down the header scanner: what the normal form of a text is from its
 first token on, when brackets are closed, and what it means to carry a token.
 */
module HeaderLaws {
  import opened Wrappers
  import opened Unicode
  import opened Lexical
  import opened HeaderText
  import opened Headers
  import HeaderStops

  // --------------------------------------------------------------- the normal form

  /** A comment or white space comes first. */
  predicate StartsWithGap(t: string) {
    t != "" && (SpanOf(t).kind == Comment || (SpanOf(t).kind == Plain && IsSpace(DecodeRune(t).code)))
  }

  /** The size of what comes first: a comment, a literal, or one rune. */
  function FirstSize(t: string): (n: nat)
    requires t != ""
    ensures 0 < n <= |t|
  {
    if SpanOf(t).kind == Plain then DecodeRune(t).size else SpanOf(t).size
  }

  /** A header is refused for an unterminated comment or literal and for a literal with a
      line break in it. */
  predicate IsRefused(t: string)
    requires t != ""
  {
    var span := SpanOf(t);
    !span.complete || (span.kind == Literal && HasLineBreak(t[..span.size]))
  }

  lemma FirstToken(t: string)
    requires t != ""
    ensures Next(t).None? <==> IsRefused(t)
    ensures !IsRefused(t) ==>
              Next(t) == Some((if StartsWithGap(t) then Gap else Text(t[..FirstSize(t)]), FirstSize(t)))
  {
    hide SpanOf, DecodeRune;
  }

  /** One unfolding each. */
  lemma ChunksOfGap(tokens: seq<Token>, current: string)
    requires tokens != [] && tokens[0].Gap? && current != ""
    ensures Chunks(tokens, current) == [current] + Chunks(tokens[1..], "")
    ensures Chunks(tokens, "") == Chunks(tokens[1..], "")
  {
    assert [] + Chunks(tokens[1..], "") == Chunks(tokens[1..], "");
  }

  lemma ChunksOfText(tokens: seq<Token>, current: string)
    requires tokens != [] && tokens[0].Text?
    ensures Chunks(tokens, current) == Chunks(tokens[1..], current + tokens[0].text)
    ensures Chunks(tokens, "") == Chunks(tokens[1..], tokens[0].text)
  {
    assert "" + tokens[0].text == tokens[0].text;
  }

  lemma NoChunks(current: string)
    requires current != ""
    ensures JoinBlank(Chunks([], current)) == current && JoinBlank(Chunks([], "")) == ""
  {
  }

  /** What the blank between a run of text and the rest depends on. */
  function Between(tokens: seq<Token>, rest: string): string {
    if rest != "" && tokens != [] && tokens[0].Gap? then " " else ""
  }

  lemma {:induction false} ChunksFrom(tokens: seq<Token>, current: string)
    requires current != "" && NoEmptyText(tokens)
    ensures var rest := JoinBlank(Chunks(tokens, ""));
            JoinBlank(Chunks(tokens, current)) == current + Between(tokens, rest) + rest
    decreases |tokens|
  {
    hide Chunks, JoinBlank;
    if tokens == [] {
      NoChunks(current);
    } else {
      var more := tokens[1..];
      assert NoEmptyText(more);
      var rest := JoinBlank(Chunks(more, ""));
      if tokens[0].Gap? {
        ChunksOfGap(tokens, current);
        GapFirst(more, current);
      } else {
        var x := tokens[0].text;
        ChunksOfText(tokens, current);
        ChunksFrom(more, current + x);
        ChunksFrom(more, x);
        assert current + x + Between(more, rest) + rest == current + "" + (x + Between(more, rest) + rest);
      }
    }
  }

  lemma GapFirst(more: seq<Token>, current: string)
    requires current != "" && NoEmptyText(more)
    ensures var rest := JoinBlank(Chunks(more, ""));
            JoinBlank([current] + Chunks(more, "")) == current + (if rest != "" then " " else "") + rest
  {
    var c := Chunks(more, "");
    assert ([current] + c)[1..] == c;
    ChunksNotEmpty(more, "");
    if c != [] {
      JoinNotEmpty(c);
    }
  }

  lemma {:induction false} ChunksNotEmpty(tokens: seq<Token>, current: string)
    ensures forall i :: 0 <= i < |Chunks(tokens, current)| ==> Chunks(tokens, current)[i] != ""
    decreases |tokens|
  {
    if tokens != [] {
      match tokens[0]
      case Gap => ChunksNotEmpty(tokens[1..], "");
      case Text(x) => ChunksNotEmpty(tokens[1..], current + x);
    }
  }

  lemma JoinNotEmpty(c: seq<string>)
    requires c != [] && c[0] != ""
    ensures JoinBlank(c) != ""
  {
  }

  /** The normal form from the front: what is refused makes the whole text refused, a
      comment or white space at the front is dropped, and anything else is kept as it is,
      with one blank behind it if a gap and more text follow. */
  lemma NormalFromFront(t: string)
    requires t != ""
    ensures Normal("") == Some("")
    ensures IsRefused(t) ==> Normal(t) == None
    ensures !IsRefused(t) ==>
              var n, u := FirstSize(t), t[FirstSize(t)..];
              Normal(t) == if StartsWithGap(t) then Normal(u)
                           else match Normal(u)
                             case None => None
                             case Some(rest) =>
                               Some(t[..n] + (if rest != "" && StartsWithGap(u) then " " else "") + rest)
  {
    FirstToken(t);
    hide FirstSize, StartsWithGap, IsRefused, Next;
    if !IsRefused(t) {
      var n, u := FirstSize(t), t[FirstSize(t)..];
      if Tokens(u).Some? {
        var rest := Tokens(u).value;
        TokensHaveText(u);
        assert Tokens(t) == Some([Next(t).value.0] + rest);
        assert ([Next(t).value.0] + rest)[1..] == rest;
        var tokens := [Next(t).value.0] + rest;
        if StartsWithGap(t) {
          ChunksOfGap(tokens, "x");
        } else {
          ChunksOfText(tokens, "");
          ChunksFrom(rest, t[..n]);
          if rest != [] {
            FirstOfTokens(u);
          }
        }
      }
    }
  }

  lemma FirstOfTokens(u: string)
    requires Tokens(u).Some? && Tokens(u).value != []
    ensures u != "" && (Tokens(u).value[0].Gap? <==> StartsWithGap(u))
  {
    hide StartsWithGap, IsRefused, FirstSize, Next;
    if u != "" {
      FirstToken(u);
    }
  }

  // --------------------------------------------------------------------- brackets

  lemma {:induction false} DiffOfSuffix(s: string, offsets: seq<nat>, k: nat, open: char, close: char)
    requires Below(offsets, |s|) && k < |offsets|
    ensures var n := |offsets| - 1;
            HeaderStops.Diff(s, offsets[k..], open, close)
            == HeaderStops.Diff(s, offsets[..n][k..], open, close)
               + (if s[offsets[n]] == open then 1 else if s[offsets[n]] == close then -1 else 0)
  {
    var n := |offsets| - 1;
    assert offsets[k..][..n - k] == offsets[..n][k..] && offsets[k..][n - k] == offsets[n];
  }

  /** The depth that the search for tokens counts is the largest surplus of opening over
      closing brackets in any last part of what was read: closing brackets that close
      nothing do not count. */
  lemma {:induction false} DepthIsSurplus(s: string, offsets: seq<nat>, open: char, close: char)
    requires Below(offsets, |s|) && open != close
    ensures forall k: nat :: k <= |offsets| ==>
              HeaderStops.Diff(s, offsets[k..], open, close) <= Depth(s, offsets, open, close)
    ensures exists k: nat ::
              k <= |offsets| && HeaderStops.Diff(s, offsets[k..], open, close) == Depth(s, offsets, open, close)
    decreases |offsets|
  {
    var all := |offsets|;
    assert offsets[all..] == [];
    if all > 0 {
      var n := all - 1;
      var before := offsets[..n];
      DepthIsSurplus(s, before, open, close);
      forall k: nat | k <= all
        ensures HeaderStops.Diff(s, offsets[k..], open, close) <= Depth(s, offsets, open, close)
      {
        if k < all {
          DiffOfSuffix(s, offsets, k, open, close);
        }
      }
      var m: nat :| m <= n && HeaderStops.Diff(s, before[m..], open, close) == Depth(s, before, open, close);
      DiffOfSuffix(s, offsets, m, open, close);
      if s[offsets[n]] == close && Depth(s, before, open, close) == 0 {
        assert HeaderStops.Diff(s, offsets[all..], open, close) == Depth(s, offsets, open, close);
      } else {
        assert HeaderStops.Diff(s, offsets[m..], open, close) == Depth(s, offsets, open, close);
      }
    } else {
      assert HeaderStops.Diff(s, offsets[0..], open, close) == Depth(s, offsets, open, close);
    }
  }

  // ----------------------------------------------------------------------- tokens

  predicate IsWord(s: string) {
    s != "" && forall i :: 0 <= i < |s| ==> IsIdentifierByte(s[i])
  }

  /** Where the identifier bytes at `i` end. */
  function WordEnd(s: string, i: nat): (n: nat)
    requires i <= |s|
    ensures i <= n <= |s| && (n < |s| ==> !IsIdentifierByte(s[n]))
    ensures forall j :: i <= j < n ==> IsIdentifierByte(s[j])
    decreases |s| - i
  {
    if i == |s| || !IsIdentifierByte(s[i]) then i else WordEnd(s, i + 1)
  }

  lemma ArrowIsNoWord(word: string)
    requires IsWord(word)
    ensures word != "=>"
  {
    assert IsIdentifierByte(word[0]);
  }

  /** A word is carried at an offset exactly when the identifier that begins there, and is
      not the end of a longer one, is that word. */
  lemma TokenIsWord(s: string, i: nat, word: string)
    requires i <= |s| && IsWord(word)
    ensures HasToken(s, i, |s|, word) <==>
              (i == 0 || !IsIdentifierByte(s[i - 1])) && s[i..WordEnd(s, i)] == word
  {
    ArrowIsNoWord(word);
    hide IsIdentifierByte;
    var n := WordEnd(s, i);
    assert s[i..|s|] == s[i..];
    if HasToken(s, i, |s|, word) {
      var m := i + |word|;
      assert s[i..m] == word;
      assert forall j :: i <= j < m ==> s[j] == word[j - i];
      assert n == m;
    } else if s[i..n] == word {
      assert word <= s[i..];
    }
  }
}
