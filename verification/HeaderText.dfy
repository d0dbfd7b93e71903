/**
 normalizeDeclarationHeader of internal/lsp/declaration_headers.go: a header on
 one line, its comments dropped and its white space reduced to single blanks.
 */
module HeaderText {
  import opened Wrappers
  import opened Unicode
  import opened Lexical

  /** One step of the scan: something that separates, or text that is kept. */
  datatype Token = Gap | Text(text: string)

  predicate HasLineBreak(s: string) {
    exists i :: 0 <= i < |s| && (s[i] == '\r' || s[i] == '\n')
  }

  /** The token a text begins with and its size; none when the header is refused:
      an unterminated span, or a literal that spans lines. */
  function Next(t: string): (r: Option<(Token, nat)>)
    requires t != ""
    ensures r.Some? ==> 0 < r.value.1 <= |t|
    ensures r.Some? && r.value.0.Text? ==> r.value.0.text == t[..r.value.1]
  {
    var span := SpanOf(t);
    match span.kind
    case Comment => if span.complete then Some((Gap, span.size)) else None
    case Literal =>
      if !span.complete || HasLineBreak(t[..span.size]) then None else Some((Text(t[..span.size]), span.size))
    case Plain =>
      var r := DecodeRune(t);
      if IsSpace(r.code) then Some((Gap, r.size)) else Some((Text(t[..r.size]), r.size))
  }

  function Tokens(t: string): Option<seq<Token>>
    decreases |t|
  {
    if t == "" then Some([])
    else match Next(t)
      case None => None
      case Some((token, size)) =>
        match Tokens(t[size..])
        case None => None
        case Some(rest) => Some([token] + rest)
  }

  // ------------------------------------------------------- the specification

  /** The maximal runs of text between gaps; `current` is the run being read. */
  function Chunks(tokens: seq<Token>, current: string): seq<string> {
    if tokens == [] then (if current == "" then [] else [current])
    else match tokens[0]
      case Gap => (if current == "" then [] else [current]) + Chunks(tokens[1..], "")
      case Text(x) => Chunks(tokens[1..], current + x)
  }

  function JoinBlank(chunks: seq<string>): string {
    if chunks == [] then ""
    else if |chunks| == 1 then chunks[0]
    else chunks[0] + " " + JoinBlank(chunks[1..])
  }

  /** The normal form of a header text. */
  function Normal(t: string): Option<string> {
    match Tokens(t)
    case None => None
    case Some(tokens) => Some(JoinBlank(Chunks(tokens, "")))
  }

  // --------------------------------------------------------------- the builder

  /** appendDeclarationSpace, then the text. */
  function Append(built: string, pending: bool, x: string): string {
    (if pending && built != "" then built + " " else built) + x
  }

  /** What the loop's string builder ends up with, from its state and the tokens
      still to come. */
  function Emit(built: string, pending: bool, tokens: seq<Token>): string
    decreases |tokens|
  {
    if tokens == [] then built
    else match tokens[0]
      case Gap => Emit(built, true, tokens[1..])
      case Text(x) => Emit(Append(built, pending, x), false, tokens[1..])
  }

  predicate NoEmptyText(tokens: seq<Token>) {
    forall i :: 0 <= i < |tokens| && tokens[i].Text? ==> tokens[i].text != ""
  }

  lemma {:induction false} TokensHaveText(t: string)
    requires Tokens(t).Some?
    ensures NoEmptyText(Tokens(t).value)
    decreases |t|
  {
    hide Next;
    if t != "" {
      TokensHaveText(t[Next(t).value.1..]);
    }
  }

  lemma {:induction false} JoinAppend(done: seq<string>, c: string, rest: seq<string>)
    ensures JoinBlank(done + [c] + rest)
         == JoinBlank(done + [c]) + if rest == [] then "" else " " + JoinBlank(rest)
  {
    if done == [] {
      assert done + [c] + rest == [c] + rest && done + [c] == [c];
      assert ([c] + rest)[1..] == rest;
    } else {
      JoinAppend(done[1..], c, rest);
      assert (done + [c] + rest)[1..] == done[1..] + [c] + rest;
      assert (done + [c])[1..] == done[1..] + [c];
    }
  }

  /** The last chunk may still grow. */
  lemma {:induction false} JoinGrows(done: seq<string>, c: string, x: string)
    ensures JoinBlank(done + [c + x]) == JoinBlank(done + [c]) + x
  {
    if done == [] {
      assert done + [c + x] == [c + x] && done + [c] == [c];
    } else {
      JoinGrows(done[1..], c, x);
      assert (done + [c + x])[1..] == done[1..] + [c + x];
      assert (done + [c])[1..] == done[1..] + [c];
    }
  }

  predicate BuilderState(built: string, pending: bool, done: seq<string>, current: string) {
    && (forall i :: 0 <= i < |done| ==> done[i] != "")
    && (current == "" ==> built == JoinBlank(done) && (built == "" <==> done == []) && (pending || built == ""))
    && (current != "" ==> built == JoinBlank(done + [current]) && built != "" && !pending)
  }

  /** The builder joins the chunks with single blanks. */
  lemma {:induction false} EmitJoins(built: string, pending: bool, tokens: seq<Token>, done: seq<string>,
      current: string)
    requires BuilderState(built, pending, done, current) && NoEmptyText(tokens)
    ensures Emit(built, pending, tokens) == JoinBlank(done + Chunks(tokens, current))
    decreases |tokens|
  {
    if tokens == [] {
      assert done + [] == done;
    } else {
      match tokens[0]
      case Gap =>
        if current == "" {
          assert [] + Chunks(tokens[1..], "") == Chunks(tokens[1..], "");
          EmitJoins(built, true, tokens[1..], done, "");
        } else {
          assert done + ([current] + Chunks(tokens[1..], "")) == (done + [current]) + Chunks(tokens[1..], "");
          EmitJoins(built, true, tokens[1..], done + [current], "");
        }
      case Text(x) =>
        var next := Append(built, pending, x);
        assert x != "";
        if current == "" {
          StartChunk(built, done, x);
          assert "" + x == x;
          EmitJoins(next, false, tokens[1..], done, x);
        } else {
          JoinGrows(done, current, x);
          EmitJoins(next, false, tokens[1..], done, current + x);
        }
    }
  }

  lemma StartChunk(built: string, done: seq<string>, x: string)
    requires built == JoinBlank(done) && (built == "" <==> done == [])
    ensures JoinBlank(done + [x]) == (if built == "" then "" else built + " ") + x
  {
    if done == [] {
      assert done + [x] == [x];
    } else {
      var n := |done| - 1;
      JoinAppend(done[..n], done[n], [x]);
      assert done[..n] + [done[n]] == done;
    }
  }

  /** One turn of the loop's switch. */
  method ReadToken(source: string, i: nat, end: nat) returns (r: Scan<Option<(Token, nat)>>)
    requires i < end <= |source|
    ensures r.Done? ==> r.result == Next(source[i..end])
  {
    var t := source[i..end];
    var scanned := ScanSpan(source, i, end);
    if scanned.Cancelled? { return Cancelled; }
    var span := scanned.result;
    hide SpanOf, DecodeRune, IsSpace;
    match span.kind
    case Comment =>
      return Done(if span.complete then Some((Gap, span.size)) else None);
    case Literal =>
      if !span.complete || HasLineBreak(t[..span.size]) {
        return Done(None);
      }
      return Done(Some((Text(t[..span.size]), span.size)));
    case Plain =>
      var rune := DecodeRune(t);
      if IsSpace(rune.code) {
        return Done(Some((Gap, rune.size)));
      }
      return Done(Some((Text(t[..rune.size]), rune.size)));
  }

  lemma BuilderJoins(t: string)
    requires Tokens(t).Some?
    ensures Normal(t) == Some(Emit("", false, Tokens(t).value))
  {
    TokensHaveText(t);
    EmitJoins("", false, Tokens(t).value, [], "");
    assert [] + Chunks(Tokens(t).value, "") == Chunks(Tokens(t).value, "");
  }

  /** normalizeDeclarationHeader. The builder loop yields the normal form, and an
      empty one counts as no header. */
  method Normalize(source: string, start: nat, end: nat) returns (r: Scan<Option<string>>)
    requires start <= end <= |source|
    ensures r.Done? ==>
              r.result == match Normal(source[start..end])
                          case Some(h) => if h == "" then None else Some(h)
                          case None => None
  {
    hide Next, Chunks, JoinBlank;
    ghost var whole := source[start..end];
    var built, pending := "", false;
    var i := start;
    while i < end
      invariant start <= i <= end
      invariant Tokens(whole).Some? <==> Tokens(source[i..end]).Some?
      invariant Tokens(whole).Some? ==>
                  Emit(built, pending, Tokens(source[i..end]).value) == Emit("", false, Tokens(whole).value)
      decreases end - i
    {
      if * { return Cancelled; }
      var read := ReadToken(source, i, end);
      if read.Cancelled? { return Cancelled; }
      if read.result.None? { return Done(None); }
      var (token, size) := read.result.value;
      assert source[i..end][size..] == source[i + size..end];
      match token {
        case Gap => pending := true;
        case Text(x) => built, pending := Append(built, pending, x), false;
      }
      i := i + size;
    }
    if * { return Cancelled; }
    assert source[i..end] == "";
    BuilderJoins(whole);
    return Done(if built == "" then None else Some(built));
  }

  // ------------------------------------------------------------- fixed points

  function SkipGaps(tokens: seq<Token>): (r: seq<Token>)
    ensures |r| <= |tokens| && (r != [] ==> r[0].Text?)
  {
    if tokens != [] && tokens[0].Gap? then SkipGaps(tokens[1..]) else tokens
  }

  /** The rest of a header after some text: gaps become single blanks, and the
      last one is dropped. */
  function Tail(tokens: seq<Token>): string
    decreases |tokens|
  {
    if tokens == [] then ""
    else match tokens[0]
      case Text(x) => x + Tail(tokens[1..])
      case Gap => var r := SkipGaps(tokens[1..]); if r == [] then "" else " " + Tail(r)
  }

  /** The same on tokens. */
  function Reduced(tokens: seq<Token>): seq<Token>
    decreases |tokens|
  {
    if tokens == [] then []
    else match tokens[0]
      case Text(x) => [tokens[0]] + Reduced(tokens[1..])
      case Gap => var r := SkipGaps(tokens[1..]); if r == [] then [] else [Gap] + Reduced(r)
  }

  /** What a pending gap adds. */
  lemma {:induction false} TailOfGap(tokens: seq<Token>)
    ensures Tail([Gap] + tokens) == var r := SkipGaps(tokens); if r == [] then "" else " " + Tail(r)
  {
    assert ([Gap] + tokens)[1..] == tokens;
  }

  lemma {:induction false} EmitTail(built: string, pending: bool, tokens: seq<Token>)
    requires built != "" && NoEmptyText(tokens)
    ensures Emit(built, pending, tokens) == built + Tail(if pending then [Gap] + tokens else tokens)
    decreases |tokens|
  {
    TailOfGap(tokens);
    if tokens != [] {
      var rest := tokens[1..];
      TailOfGap(rest);
      match tokens[0]
      case Gap =>
        hide Tail;
        EmitTail(built, true, rest);
      case Text(x) =>
        var next := Append(built, pending, x);
        assert Tail(tokens) == x + Tail(rest) && SkipGaps(tokens) == tokens;
        assert Emit(built, pending, tokens) == Emit(next, false, rest);
        hide Tail, Emit, SkipGaps;
        EmitTail(next, false, rest);
    }
  }

  lemma {:induction false} EmitWhole(pending: bool, tokens: seq<Token>)
    requires NoEmptyText(tokens)
    ensures Emit("", pending, tokens) == Tail(SkipGaps(tokens))
    decreases |tokens|
  {
    if tokens != [] {
      match tokens[0]
      case Gap => EmitWhole(true, tokens[1..]);
      case Text(x) =>
        assert Append("", pending, x) == x;
        EmitTail(x, false, tokens[1..]);
    }
  }

  /** The text up to the first gap. */
  function Lead(tokens: seq<Token>): string {
    if tokens == [] || tokens[0].Gap? then "" else tokens[0].text + Lead(tokens[1..])
  }

  predicate EndsText(s: string) {
    s == "" || s[0] == ' '
  }

  lemma {:induction false} LeadOfTokens(t: string)
    requires Tokens(t).Some?
    ensures Lead(Tokens(t).value) <= t
    decreases |t|
  {
    hide Next;
    if t != "" {
      var n := Next(t).value.1;
      LeadOfTokens(t[n..]);
      assert t == t[..n] + t[n..];
    }
  }

  lemma {:induction false} LeadOfTail(tokens: seq<Token>)
    ensures Lead(tokens) <= Tail(tokens) && EndsText(Tail(tokens)[|Lead(tokens)|..])
    decreases |tokens|
  {
    if tokens != [] && tokens[0].Text? {
      LeadOfTail(tokens[1..]);
      var x, rest := tokens[0].text, tokens[1..];
      assert Tail(tokens)[|x|..] == Tail(rest);
      assert Tail(tokens)[|Lead(tokens)|..] == Tail(rest)[|Lead(rest)|..];
    }
  }

  /** A rune is decoded alike when what follows agrees up to a blank. */
  lemma DecodeUpToBlank(x: string, lead: string, a: string, b: string)
    requires x != "" && DecodeRune(x + lead + a).size == |x| && EndsText(b)
    ensures DecodeRune(x + lead + b) == DecodeRune(x + lead + a)
  {
    var t, h := x + lead + a, x + lead + b;
    assert t[..|x|] == x;
    assert h[0] == t[0] == x[0];
    if |x| > 1 {
      DecodeWithin(t, |x|);
      DecodeIsLocal(x, lead + b);
      assert x + (lead + b) == h;
    } else {
      var n := Announced(t[0] as int);
      assert forall k :: 0 <= k < 1 + |lead| ==> h[k] == t[k];
      assert b != "" ==> h[1 + |lead|] == ' ';
      if WellFormed(h, n) {
        assert WellFormed(t, n);
      }
    }
  }

  /** So text tokens are read alike. */
  lemma NextUpToBlank(x: string, lead: string, a: string, b: string)
    requires x != "" && Next(x + lead + a) == Some((Text(x), |x|)) && EndsText(b)
    ensures Next(x + lead + b) == Some((Text(x), |x|))
  {
    var t, h := x + lead + a, x + lead + b;
    assert t[..|x|] == x && h[..|x|] == x;
    assert h[0] == t[0];
    if IsQuote(t[0]) {
      CloseQuoteIsLocal(t, 1, t[0], |x|, lead + b);
      assert t[..|x|] + (lead + b) == h;
    } else {
      hide DecodeRune, CloseMark, LineEnd, CloseQuote;
      DecodeUpToBlank(x, lead, a, b);
      assert |x| == 1 && lead != "" ==> h[1] == lead[0] && t[1] == lead[0];
      assert |x| == 1 && lead == "" && b != "" ==> h[1] == ' ';
      assert SpanOf(h).kind == Plain by { PlainUpToBlank(x, lead, a, b); }
    }
  }

  lemma PlainUpToBlank(x: string, lead: string, a: string, b: string)
    requires x != "" && SpanOf(x + lead + a).kind == Plain && EndsText(b)
    requires |x| == 1 || x[0] as int >= 0x80
    ensures SpanOf(x + lead + b).kind == Plain
  {
    var t, h := x + lead + a, x + lead + b;
    assert h[0] == t[0] == x[0];
    assert |x| == 1 && lead != "" ==> h[1] == lead[0] && t[1] == lead[0];
    assert |x| == 1 && lead == "" && b != "" ==> h[1] == ' ';
  }

  /** What remains after the first gaps is itself the tokens of some text. */
  lemma {:induction false} SkipIsGenuine(t: string) returns (u: string)
    requires Tokens(t).Some?
    ensures |u| <= |t| && Tokens(u) == Some(SkipGaps(Tokens(t).value))
    decreases |t|
  {
    hide Next;
    u := t;
    if t != "" && Tokens(t).value[0].Gap? {
      u := SkipIsGenuine(t[Next(t).value.1..]);
    }
  }

  lemma Prefixed(x: string, lead: string, t: string)
    requires lead <= t
    ensures x + t == x + lead + t[|lead|..] && (x + t)[|x|..] == t
  {
  }

  /** One token off the front. */
  lemma {:induction false} TokensUnfold(t: string, x: string, rest: seq<Token>, h: string)
    requires h != "" && Next(h) == Some((Text(x), |x|)) && h[|x|..] == t && Tokens(t) == Some(rest)
    ensures Tokens(h) == Some([Text(x)] + rest)
  {
    hide Next;
  }

  lemma {:induction false} TokensOfText(t: string)
    requires t != "" && Tokens(t).Some? && Tokens(t).value[0].Text?
    requires var rest := Tokens(t).value[1..]; Tokens(Tail(rest)) == Some(Reduced(rest))
    ensures Tokens(Tail(Tokens(t).value)) == Some(Reduced(Tokens(t).value))
  {
    hide Next;
    var tokens := Tokens(t).value;
    var x, n, rest := tokens[0].text, Next(t).value.1, tokens[1..];
    var t2, h2 := t[n..], Tail(rest);
    assert x == t[..n] && Tokens(t2) == Some(rest) && Next(t) == Some((Text(x), |x|));
    LeadOfTokens(t2);
    LeadOfTail(rest);
    assert Tail(tokens) == x + h2 && Reduced(tokens) == [Text(x)] + Reduced(rest);
    hide Tokens, Tail, Reduced, Lead;
    assert t == x + t2;
    Prefixed(x, Lead(rest), t2);
    Prefixed(x, Lead(rest), h2);
    NextUpToBlank(x, Lead(rest), t2[|Lead(rest)|..], h2[|Lead(rest)|..]);
    TokensUnfold(h2, x, Reduced(rest), x + h2);
  }

  lemma BlankIsGap(s: string)
    ensures Next(" " + s) == Some((Gap, 1)) && (" " + s)[1..] == s
  {
    hide WellFormed, Announced;
    assert DecodeRune(" " + s) == Rune(0x20, 1);
  }

  /** Reading a normalized header gives back its own tokens. */
  lemma {:induction false} TokensOfTail(t: string)
    requires Tokens(t).Some?
    ensures Tokens(Tail(Tokens(t).value)) == Some(Reduced(Tokens(t).value))
    decreases |t|
  {
    hide Next;
    if t != "" {
      var n := Next(t).value.1;
      var tokens := Tokens(t).value;
      if tokens[0].Text? {
        TokensOfTail(t[n..]);
        TokensOfText(t);
      } else {
        var u := SkipIsGenuine(t[n..]);
        TokensOfTail(u);
        BlankIsGap(Tail(SkipGaps(tokens[1..])));
      }
    }
  }

  lemma {:induction false} TailOfReduced(tokens: seq<Token>)
    ensures Tail(Reduced(tokens)) == Tail(tokens)
    ensures tokens != [] && tokens[0].Text? ==> Reduced(tokens) != [] && Reduced(tokens)[0].Text?
    decreases |tokens|
  {
    if tokens != [] {
      match tokens[0]
      case Text(x) =>
        TailOfReduced(tokens[1..]);
        assert Reduced(tokens)[1..] == Reduced(tokens[1..]);
      case Gap =>
        var r := SkipGaps(tokens[1..]);
        if r != [] {
          TailOfReduced(r);
          assert ([Gap] + Reduced(r))[1..] == Reduced(r);
        }
    }
  }

  lemma NormalIsTail(t: string)
    requires Tokens(t).Some?
    ensures Normal(t) == Some(Tail(SkipGaps(Tokens(t).value)))
  {
    BuilderJoins(t);
    TokensHaveText(t);
    EmitWhole(false, Tokens(t).value);
  }

  /** A normalized header is its own normal form. */
  lemma NormalIsFixed(t: string)
    requires Normal(t).Some?
    ensures Normal(Normal(t).value) == Normal(t)
  {
    var u := SkipIsGenuine(t);
    var r := SkipGaps(Tokens(t).value);
    NormalIsTail(t);
    TokensOfTail(u);
    NormalIsTail(Tail(r));
    TailOfReduced(r);
  }

  // -------------------------------------------------------------- line breaks

  lemma NextHasNoBreak(t: string)
    requires t != "" && Next(t).Some? && Next(t).value.0.Text?
    ensures !HasLineBreak(Next(t).value.0.text)
  {
    if SpanOf(t).kind == Plain {
      hide Announced;
      var r := DecodeRune(t);
      if r.size > 1 {
        RuneBytesAreHigh(t, r.size);
      }
    }
  }

  predicate NoBreaks(tokens: seq<Token>) {
    forall i :: 0 <= i < |tokens| && tokens[i].Text? ==> !HasLineBreak(tokens[i].text)
  }

  lemma {:induction false} TokensHaveNoBreak(t: string)
    requires Tokens(t).Some?
    ensures NoBreaks(Tokens(t).value)
    decreases |t|
  {
    hide Next;
    if t != "" {
      TokensHaveNoBreak(t[Next(t).value.1..]);
      if Tokens(t).value[0].Text? {
        NextHasNoBreak(t);
      }
    }
  }

  lemma {:induction false} SkipKeepsNoBreaks(tokens: seq<Token>)
    requires NoBreaks(tokens)
    ensures NoBreaks(SkipGaps(tokens))
  {
    if tokens != [] && tokens[0].Gap? {
      SkipKeepsNoBreaks(tokens[1..]);
    }
  }

  lemma NoBreakConcat(a: string, b: string)
    requires !HasLineBreak(a) && !HasLineBreak(b)
    ensures !HasLineBreak(a + b)
  {
  }

  lemma {:induction false} TailHasNoBreak(tokens: seq<Token>)
    requires NoBreaks(tokens)
    ensures !HasLineBreak(Tail(tokens))
    decreases |tokens|
  {
    if tokens != [] {
      match tokens[0]
      case Text(x) =>
        TailHasNoBreak(tokens[1..]);
        NoBreakConcat(x, Tail(tokens[1..]));
      case Gap =>
        var r := SkipGaps(tokens[1..]);
        SkipKeepsNoBreaks(tokens[1..]);
        TailHasNoBreak(r);
        NoBreakConcat(" ", Tail(r));
    }
  }

  /** A header never contains a carriage return or a line feed. */
  lemma NormalHasNoBreak(t: string)
    requires Normal(t).Some?
    ensures !HasLineBreak(Normal(t).value)
  {
    NormalIsTail(t);
    TokensHaveNoBreak(t);
    SkipKeepsNoBreaks(Tokens(t).value);
    TailHasNoBreak(SkipGaps(Tokens(t).value));
  }
}
