/**
 Finding a declaration header in a source: declarationTokenOffset,
 skipDeclarationTrivia, declarationBodyOffset and extractDeclarationHeader of
 internal/lsp/declaration_headers.go.
 */
module Headers {
  import opened Wrappers
  import opened Unicode
  import opened Lexical
  import opened HeaderText
  import opened Positions

  // ----------------------------------------------------------- code offsets

  predicate Below(offsets: seq<nat>, end: nat) {
    forall k :: 0 <= k < |offsets| ==> offsets[k] < end
  }

  /** The offsets of the runes of [i, end) outside comments and literals, up to an
      unterminated one. */
  function CodeOffsets(s: string, i: nat, end: nat): (offsets: seq<nat>)
    requires i <= end <= |s|
    ensures Below(offsets, end)
    decreases end - i
  {
    if i == end then []
    else
      var t := s[i..end];
      var span := SpanOf(t);
      if span.kind == Plain then [i] + CodeOffsets(s, i + DecodeRune(t).size, end)
      else if span.complete then CodeOffsets(s, i + span.size, end)
      else []
  }

  // ------------------------------------------------------------------ tokens

  predicate IsIdentifierByte(c: char) {
    c == '_' || c == '$' || '0' <= c <= '9' || 'A' <= c <= 'Z' || 'a' <= c <= 'z' || c as int >= 0x80
  }

  predicate TokenBoundary(s: string, i: nat, token: string)
    requires i + |token| <= |s|
  {
    token == "=>"
    || ((i == 0 || !IsIdentifierByte(s[i - 1])) && (i + |token| == |s| || !IsIdentifierByte(s[i + |token|])))
  }

  predicate HasToken(s: string, i: nat, end: nat, token: string)
    requires i <= end <= |s|
  {
    token <= s[i..end] && TokenBoundary(s, i, token)
  }

  /** The depth of one kind of bracket after one more character; a closing one at
      depth zero is ignored. */
  function Bracketed(d: nat, c: char, open: char, close: char): nat {
    if c == open then d + 1 else if c == close && d > 0 then d - 1 else d
  }

  /** The depth of one kind of bracket after the characters at some offsets. */
  function Depth(s: string, offsets: seq<nat>, open: char, close: char): nat
    requires Below(offsets, |s|)
  {
    if offsets == [] then 0
    else
      var n := |offsets| - 1;
      Bracketed(Depth(s, offsets[..n], open, close), s[offsets[n]], open, close)
  }

  predicate Outermost(s: string, offsets: seq<nat>)
    requires Below(offsets, |s|)
  {
    Depth(s, offsets, '(', ')') == 0 && Depth(s, offsets, '[', ']') == 0 && Depth(s, offsets, '{', '}') == 0
  }

  /** Code offset number `k` carries one of the tokens outside all brackets. */
  predicate Carries(s: string, offsets: seq<nat>, k: nat, end: nat, tokens: seq<string>)
    requires k < |offsets| && end <= |s| && Below(offsets, end)
  {
    Outermost(s, offsets[..k + 1]) && exists j :: 0 <= j < |tokens| && HasToken(s, offsets[k], end, tokens[j])
  }

  method MatchToken(s: string, i: nat, end: nat, tokens: seq<string>) returns (found: bool)
    requires i <= end <= |s|
    ensures found <==> exists j :: 0 <= j < |tokens| && HasToken(s, i, end, tokens[j])
  {
    var n := 0;
    while n < |tokens|
      invariant n <= |tokens| && forall j :: 0 <= j < n ==> !HasToken(s, i, end, tokens[j])
    {
      if HasToken(s, i, end, tokens[n]) {
        return true;
      }
      n := n + 1;
    }
    return false;
  }

  datatype Depths = Depths(parens: nat, brackets: nat, braces: nat)

  /** The switch on one character of code. */
  function Deeper(d: Depths, c: char): Depths {
    Depths(Bracketed(d.parens, c, '(', ')'), Bracketed(d.brackets, c, '[', ']'), Bracketed(d.braces, c, '{', '}'))
  }

  /** declarationTokenOffset from offset `i` on, at the depths `d`. */
  ghost function TokenFrom(d: Depths, s: string, i: nat, end: nat, tokens: seq<string>): Option<nat>
    requires i <= end <= |s|
    decreases end - i
  {
    if i == end then None
    else
      var t := s[i..end];
      var span := SpanOf(t);
      if span.kind != Plain then
        if span.complete then TokenFrom(d, s, i + span.size, end, tokens) else None
      else
        var now := Deeper(d, s[i]);
        if now == Depths(0, 0, 0) && exists j :: 0 <= j < |tokens| && HasToken(s, i, end, tokens[j]) then Some(i)
        else TokenFrom(now, s, i + DecodeRune(t).size, end, tokens)
  }

  method TokenOffset(s: string, start: nat, end: nat, tokens: seq<string>) returns (r: Scan<Option<nat>>)
    requires start <= end <= |s|
    ensures r.Done? ==> r.result == TokenFrom(Depths(0, 0, 0), s, start, end, tokens)
  {
    hide SpanOf, DecodeRune, HasToken, Deeper;
    var d := Depths(0, 0, 0);
    var i := start;
    while i < end
      invariant start <= i <= end
      invariant TokenFrom(d, s, i, end, tokens) == TokenFrom(Depths(0, 0, 0), s, start, end, tokens)
      decreases end - i
    {
      if * { return Cancelled; }
      var scanned := ScanSpan(s, i, end);
      if scanned.Cancelled? { return Cancelled; }
      var span := scanned.result;
      if span.kind != Plain {
        if !span.complete { return Done(None); }
        i := i + span.size;
      } else {
        d := Deeper(d, s[i]);
        if d == Depths(0, 0, 0) {
          var here := MatchToken(s, i, end, tokens);
          if here { return Done(Some(i)); }
        }
        i := i + DecodeRune(s[i..end]).size;
      }
    }
    if * { return Cancelled; }
    return Done(None);
  }

  lemma DepthStep(s: string, seen: seq<nat>, i: nat, open: char, close: char)
    requires i < |s| && Below(seen, |s|)
    ensures Depth(s, seen + [i], open, close) == Bracketed(Depth(s, seen, open, close), s[i], open, close)
  {
    assert (seen + [i])[..|seen|] == seen;
  }

  function DepthsOf(s: string, seen: seq<nat>): Depths
    requires Below(seen, |s|)
  {
    Depths(Depth(s, seen, '(', ')'), Depth(s, seen, '[', ']'), Depth(s, seen, '{', '}'))
  }

  /** `r` is the first offset after the first `n` that carries a token. */
  ghost predicate FirstFrom(s: string, all: seq<nat>, n: nat, end: nat, tokens: seq<string>, r: Option<nat>)
    requires n <= |all| && end <= |s| && Below(all, end)
  {
    match r
    case None => forall k: nat :: n <= k < |all| ==> !Carries(s, all, k, end, tokens)
    case Some(o) =>
      exists k: nat :: n <= k < |all| && all[k] == o && Carries(s, all, k, end, tokens)
                       && forall j: nat :: n <= j < k ==> !Carries(s, all, j, end, tokens)
  }

  /** The next code offset carries a token as the loop decides it. */
  lemma CarriesHere(s: string, seen: seq<nat>, i: nat, end: nat, rest: seq<nat>, tokens: seq<string>)
    requires i < end <= |s| && Below(seen, end)
    requires Below(rest, end)
    ensures var now := Deeper(DepthsOf(s, seen), s[i]);
            && DepthsOf(s, seen + [i]) == now
            && (Carries(s, seen + [i] + rest, |seen|, end, tokens) <==>
                  now == Depths(0, 0, 0) && exists j :: 0 <= j < |tokens| && HasToken(s, i, end, tokens[j]))
  {
    hide HasToken, Depth;
    DepthStep(s, seen, i, '(', ')');
    DepthStep(s, seen, i, '[', ']');
    DepthStep(s, seen, i, '{', '}');
    var all := seen + [i] + rest;
    assert all[..|seen| + 1] == seen + [i] && all[|seen|] == i;
  }

  /** One turn of the loop at code. */
  lemma TokenAtCode(d: Depths, s: string, i: nat, end: nat, tokens: seq<string>)
    requires i < end <= |s| && SpanOf(s[i..end]).kind == Plain
    ensures var next, now := i + DecodeRune(s[i..end]).size, Deeper(d, s[i]);
            && CodeOffsets(s, i, end) == [i] + CodeOffsets(s, next, end)
            && TokenFrom(d, s, i, end, tokens)
               == if now == Depths(0, 0, 0) && exists j :: 0 <= j < |tokens| && HasToken(s, i, end, tokens[j])
                  then Some(i) else TokenFrom(now, s, next, end, tokens)
  {
    hide SpanOf, DecodeRune, HasToken, Deeper;
  }

  /** One turn of the loop at a span. */
  lemma TokenAtSpan(d: Depths, s: string, i: nat, end: nat, tokens: seq<string>)
    requires i < end <= |s| && SpanOf(s[i..end]).kind != Plain
    ensures var span := SpanOf(s[i..end]);
            if span.complete then
              CodeOffsets(s, i, end) == CodeOffsets(s, i + span.size, end)
              && TokenFrom(d, s, i, end, tokens) == TokenFrom(d, s, i + span.size, end, tokens)
            else CodeOffsets(s, i, end) == [] && TokenFrom(d, s, i, end, tokens) == None
  {
    hide SpanOf, DecodeRune, HasToken, Deeper;
  }

  /** The turn at code, given what the rest of the scan finds. */
  lemma TokenStep(s: string, seen: seq<nat>, i: nat, end: nat, next: nat, tokens: seq<string>)
    requires i < end <= |s| && SpanOf(s[i..end]).kind == Plain && next == i + DecodeRune(s[i..end]).size
    requires Below(seen, end)
    requires FirstFrom(s, seen + [i] + CodeOffsets(s, next, end), |seen| + 1, end, tokens,
                       TokenFrom(DepthsOf(s, seen + [i]), s, next, end, tokens))
    ensures FirstFrom(s, seen + CodeOffsets(s, i, end), |seen|, end, tokens,
                      TokenFrom(DepthsOf(s, seen), s, i, end, tokens))
  {
    hide SpanOf, DecodeRune, HasToken, Carries, DepthsOf, Deeper, FirstFrom, TokenFrom, CodeOffsets;
    TokenAtCode(DepthsOf(s, seen), s, i, end, tokens);
    var rest := CodeOffsets(s, next, end);
    assert seen + CodeOffsets(s, i, end) == seen + [i] + rest;
    CarriesHere(s, seen, i, end, rest, tokens);
    FirstStep(s, seen + [i] + rest, |seen|, end, tokens, TokenFrom(DepthsOf(s, seen + [i]), s, next, end, tokens));
  }

  lemma TokenAtEnd(d: Depths, s: string, end: nat, tokens: seq<string>)
    requires end <= |s|
    ensures TokenFrom(d, s, end, end, tokens) == None && CodeOffsets(s, end, end) == []
  {
  }

  lemma {:induction false} TokenFromMeaning(s: string, seen: seq<nat>, i: nat, end: nat, tokens: seq<string>)
    requires i <= end <= |s| && Below(seen, end)
    ensures FirstFrom(s, seen + CodeOffsets(s, i, end), |seen|, end, tokens,
                      TokenFrom(DepthsOf(s, seen), s, i, end, tokens))
    decreases end - i
  {
    hide SpanOf, DecodeRune, HasToken, DepthsOf, FirstFrom, TokenFrom, CodeOffsets;
    NothingLeft(s, seen, end, tokens);
    if i == end {
      TokenAtEnd(DepthsOf(s, seen), s, end, tokens);
    } else {
      var span := SpanOf(s[i..end]);
      if span.kind == Plain {
        var next := i + DecodeRune(s[i..end]).size;
        TokenFromMeaning(s, seen + [i], next, end, tokens);
        TokenStep(s, seen, i, end, next, tokens);
      } else {
        TokenAtSpan(DepthsOf(s, seen), s, i, end, tokens);
        if span.complete {
          TokenFromMeaning(s, seen, i + span.size, end, tokens);
        }
      }
    }
  }

  lemma NothingLeft(s: string, seen: seq<nat>, end: nat, tokens: seq<string>)
    requires end <= |s| && Below(seen, end)
    ensures FirstFrom(s, seen + [], |seen|, end, tokens, None)
  {
  }

  lemma FirstStep(s: string, all: seq<nat>, n: nat, end: nat, tokens: seq<string>, r: Option<nat>)
    requires n < |all| && end <= |s| && Below(all, end)
    requires FirstFrom(s, all, n + 1, end, tokens, r)
    ensures FirstFrom(s, all, n, end, tokens, if Carries(s, all, n, end, tokens) then Some(all[n]) else r)
  {
    hide Outermost, HasToken;
    if Carries(s, all, n, end, tokens) {
      assert n <= n < |all| && all[n] == all[n];
    } else if r.Some? {
      var k: nat :| n + 1 <= k < |all| && all[k] == r.value && Carries(s, all, k, end, tokens)
                    && forall j: nat :: n + 1 <= j < k ==> !Carries(s, all, j, end, tokens);
      assert forall j: nat :: n <= j < k ==> !Carries(s, all, j, end, tokens);
    }
  }

  /** The offset found is the first code offset that carries one of the tokens
      outside all brackets; if none is found, none does. */
  lemma TokenIsFirst(s: string, start: nat, end: nat, tokens: seq<string>)
    requires start <= end <= |s|
    ensures FirstFrom(s, CodeOffsets(s, start, end), 0, end, tokens, TokenFrom(Depths(0, 0, 0), s, start, end, tokens))
  {
    TokenFromMeaning(s, [], start, end, tokens);
    assert [] + CodeOffsets(s, start, end) == CodeOffsets(s, start, end);
    assert DepthsOf(s, []) == Depths(0, 0, 0);
  }

  // ------------------------------------------------------------------ trivia

  /** Only white space and complete comments lie between `i` and `o`. */
  predicate OnlyTrivia(s: string, i: nat, o: nat, end: nat)
    requires i <= end <= |s|
    decreases end - i
  {
    if i == o then true
    else i < end && i < o
         && var next := Next(s[i..end]);
            next.Some? && next.value.0.Gap? && OnlyTrivia(s, i + next.value.1, o, end)
  }

  /** A rune of code that is no white space. */
  predicate IsCode(s: string, o: nat, end: nat)
    requires end <= |s|
  {
    o < end && SpanOf(s[o..end]).kind == Plain && !IsSpace(DecodeRune(s[o..end]).code)
  }

  lemma {:induction false} TriviaEndsOnce(s: string, i: nat, o: nat, p: nat, end: nat)
    requires i <= end <= |s| && OnlyTrivia(s, i, o, end) && OnlyTrivia(s, i, p, end)
    requires IsCode(s, o, end) && IsCode(s, p, end)
    ensures o == p
    decreases end - i
  {
    if i != o && i != p {
      TriviaEndsOnce(s, i + Next(s[i..end]).value.1, o, p, end);
    }
  }

  /** skipDeclarationTrivia: where the code goes on, if it does. */
  method SkipTrivia(s: string, start: nat, end: nat) returns (r: Scan<Option<nat>>)
    requires start <= end <= |s|
    ensures r.Done? && r.result.Some? ==>
              OnlyTrivia(s, start, r.result.value, end) && IsCode(s, r.result.value, end)
    ensures r == Done(None) ==> forall o: nat :: !(OnlyTrivia(s, start, o, end) && IsCode(s, o, end))
  {
    hide SpanOf, DecodeRune, IsSpace;
    var i := start;
    while i < end
      invariant start <= i <= end && OnlyTrivia(s, start, i, end)
      invariant forall o: nat :: OnlyTrivia(s, start, o, end) && IsCode(s, o, end) ==> OnlyTrivia(s, i, o, end)
      decreases end - i
    {
      if * { return Cancelled; }
      var scanned := ScanSpan(s, i, end);
      if scanned.Cancelled? { return Cancelled; }
      var span := scanned.result;
      if span.kind == Literal || (span.kind == Comment && !span.complete) {
        return Done(None);
      }
      if span.kind == Plain && !IsSpace(DecodeRune(s[i..end]).code) {
        return Done(Some(i));
      }
      var size := if span.kind == Comment then span.size else DecodeRune(s[i..end]).size;
      assert Next(s[i..end]) == Some((Gap, size));
      TriviaExtends(s, start, i, end);
      i := i + size;
    }
    return Done(None);
  }

  lemma {:induction false} TriviaExtends(s: string, i: nat, m: nat, end: nat)
    requires i <= m < end <= |s| && OnlyTrivia(s, i, m, end)
    requires Next(s[m..end]).Some? && Next(s[m..end]).value.0.Gap?
    ensures OnlyTrivia(s, i, m + Next(s[m..end]).value.1, end)
    decreases end - i
  {
    hide Next;
    if i != m {
      TriviaForward(s, i + Next(s[i..end]).value.1, m, end);
      TriviaExtends(s, i + Next(s[i..end]).value.1, m, end);
    }
  }

  lemma TriviaForward(s: string, i: nat, o: nat, end: nat)
    requires i <= end <= |s| && OnlyTrivia(s, i, o, end)
    ensures i <= o
  {
  }

  // -------------------------------------------------------------------- body

  const KEYWORDS := ["extends", "implements", "keyof", "typeof", "infer", "readonly", "new", "abstract"]

  predicate IsKeyword(word: string) {
    word in KEYWORDS
  }

  /** declarationKeywordAt. */
  function KeywordAt(s: string, i: nat, end: nat, n: nat): (r: Option<string>)
    requires i <= end <= |s| && n <= |KEYWORDS|
    ensures r.Some? ==> IsKeyword(r.value) && r.value <= s[i..end]
    decreases |KEYWORDS| - n
  {
    if n == |KEYWORDS| then None
    else if HasToken(s, i, end, KEYWORDS[n]) then Some(KEYWORDS[n])
    else KeywordAt(s, i, end, n + 1)
  }

  /** incompleteDeclarationToken: a token after which a body cannot begin. */
  predicate Incomplete(token: string) {
    KeywordAt(token, 0, |token|, 0).Some?
    || token in ["(", "[", "{", "<", ",", "?", ":", "=", "=>", "&", "|", "."]
  }

  datatype BodyState = BodyState(parens: nat, brackets: nat, braces: nat, angles: nat, last: string)

  const BODY_START := BodyState(0, 0, 0, 0, "value")

  predicate Shallow(b: BodyState) {
    b.parens == 0 && b.brackets == 0 && b.braces == 0
  }

  datatype Verdict = Continue(state: BodyState) | Refuse | BodyHere

  /** The switch on one character of code. */
  function Judge(b: BodyState, s: string, start: nat, i: nat, end: nat): Verdict
    requires start <= i < end <= |s|
  {
    match s[i]
    case '(' => Continue(b.(parens := b.parens + 1, last := "("))
    case ')' => if b.parens == 0 then Refuse else Continue(b.(parens := b.parens - 1, last := "value"))
    case '[' => Continue(b.(brackets := b.brackets + 1, last := "["))
    case ']' => if b.brackets == 0 then Refuse else Continue(b.(brackets := b.brackets - 1, last := "value"))
    case '<' => Continue(if Shallow(b) then b.(angles := b.angles + 1, last := "<") else b)
    case '>' =>
      if !Shallow(b) then Continue(b)
      else if i > start && s[i - 1] == '=' then Continue(b.(last := "=>"))
      else if b.angles == 0 || (b.last != "," && Incomplete(b.last)) then Refuse
      else Continue(b.(angles := b.angles - 1, last := "value"))
    case '{' =>
      if Shallow(b) && b.angles == 0 then (if Incomplete(b.last) then Refuse else BodyHere)
      else Continue(b.(braces := b.braces + 1, last := "{"))
    case '}' => if b.braces == 0 then Refuse else Continue(b.(braces := b.braces - 1, last := "value"))
    case ';' => if Shallow(b) && b.angles == 0 then Refuse else Continue(b.(last := "value"))
    case _ =>
      if s[i] in ",?:=&|." then Continue(b.(last := [s[i]]))
      else if IsSpace(DecodeRune(s[i..end]).code) then Continue(b)
      else Continue(b.(last := "value"))
  }

  function AfterKeyword(b: BodyState, keyword: string): BodyState {
    b.(last := if b.last == "." then "value" else keyword)
  }

  /** declarationBodyOffset from offset `i` on. */
  function BodyFrom(b: BodyState, s: string, start: nat, i: nat, end: nat): (r: Option<nat>)
    requires start <= i <= end <= |s|
    ensures r.Some? ==> i <= r.value < end
    decreases end - i
  {
    if i == end then None
    else
      var t := s[i..end];
      var span := SpanOf(t);
      if span.kind != Plain then
        if !span.complete then None
        else BodyFrom(if span.kind == Literal then b.(last := "value") else b, s, start, i + span.size, end)
      else match KeywordAt(s, i, end, 0)
        case Some(keyword) => BodyFrom(AfterKeyword(b, keyword), s, start, i + |keyword|, end)
        case None =>
          match Judge(b, s, start, i, end)
          case Refuse => None
          case BodyHere => Some(i)
          case Continue(next) => BodyFrom(next, s, start, i + DecodeRune(t).size, end)
  }

  method BodyOffset(s: string, start: nat, end: nat) returns (r: Scan<Option<nat>>)
    requires start <= end <= |s|
    ensures r.Done? ==> r.result == BodyFrom(BODY_START, s, start, start, end)
  {
    hide SpanOf, DecodeRune, WellFormed, KeywordAt, Judge, AfterKeyword, IsKeyword, AllLetters;
    var b := BODY_START;
    var i := start;
    while i < end
      invariant start <= i <= end && BodyFrom(b, s, start, i, end) == BodyFrom(BODY_START, s, start, start, end)
      decreases end - i
    {
      if * { return Cancelled; }
      var scanned := ScanSpan(s, i, end);
      if scanned.Cancelled? { return Cancelled; }
      var span := scanned.result;
      if span.kind != Plain {
        if !span.complete { return Done(None); }
        if span.kind == Literal {
          b := b.(last := "value");
        }
        i := i + span.size;
      } else {
        var keyword := KeywordAt(s, i, end, 0);
        if keyword.Some? {
          KeywordsAreLong(keyword.value);
          b := AfterKeyword(b, keyword.value);
          i := i + |keyword.value|;
        } else {
          var size := DecodeRune(s[i..end]).size;
          match Judge(b, s, start, i, end)
          case Refuse => return Done(None);
          case BodyHere => return Done(Some(i));
          case Continue(next) =>
            b := next;
            i := i + size;
        }
      }
    }
    if * { return Cancelled; }
    return Done(None);
  }

  predicate AllLetters(s: string) {
    forall k :: 0 <= k < |s| ==> 'a' <= s[k] <= 'z'
  }

  lemma KeywordsAreLong(keyword: string)
    requires IsKeyword(keyword)
    ensures keyword != "" && AllLetters(keyword)
  {
  }

  // ---------------------------------------------------------------- extraction

  datatype Kind = Class | Interface | Other

  datatype Extraction = Failed | NoHeader | Header(text: string)

  function KeywordOf(kind: Kind): string {
    if kind == Class then "class" else "interface"
  }

  /** The parts of a declaration in [a, end): keyword, name and body in their places,
      and the normal form of what lies between keyword and body. */
  ghost predicate Declares(s: string, keyword: string, name: string, a: nat, end: nat, h: string,
                           kw: nat, nm: nat, body: nat)
    requires a <= end <= |s|
  {
    && name != "" && h != ""
    && TokenFrom(Depths(0, 0, 0), s, a, end, [keyword]) == Some(kw) && kw + |keyword| <= end
    && OnlyTrivia(s, kw + |keyword|, nm, end) && IsCode(s, nm, end) && HasToken(s, nm, end, name)
    && nm + |name| <= end && BodyFrom(BODY_START, s, nm + |name|, nm + |name|, end) == Some(body)
    && kw <= body <= end && Normal(s[kw..body]) == Some(h)
  }

  lemma {:induction false} TokenInRange(d: Depths, s: string, i: nat, end: nat, token: string)
    requires i <= end <= |s|
    ensures var r := TokenFrom(d, s, i, end, [token]); r.Some? ==> i <= r.value && r.value + |token| <= end
    decreases end - i
  {
    hide SpanOf, DecodeRune, Deeper;
    if i < end {
      var span := SpanOf(s[i..end]);
      if span.kind != Plain {
        if span.complete {
          TokenInRange(d, s, i + span.size, end, token);
        }
      } else {
        TokenInRange(Deeper(d, s[i]), s, i + DecodeRune(s[i..end]).size, end, token);
      }
    }
  }

  /** The part of the extraction that scans, once the range is in bytes. */
  method ExtractIn(s: string, keyword: string, name: string, a: nat, end: nat) returns (r: Scan<Extraction>)
    requires a <= end <= |s|
    ensures r.Done? ==> !r.result.Failed?
    ensures r.Done? && r.result.Header? ==>
              exists kw, nm, body :: Declares(s, keyword, name, a, end, r.result.text, kw, nm, body)
    ensures r == Done(NoHeader) ==>
              forall h, kw, nm, body :: !Declares(s, keyword, name, a, end, h, kw, nm, body)
  {
    hide TokenFrom, BodyFrom, OnlyTrivia, IsCode, Normal, HasToken;
    var token := TokenOffset(s, a, end, [keyword]);
    if token.Cancelled? { return Cancelled; }
    TokenInRange(Depths(0, 0, 0), s, a, end, keyword);
    if token.result.None? { return Done(NoHeader); }
    var kw := token.result.value;
    var trivia := SkipTrivia(s, kw + |keyword|, end);
    if trivia.Cancelled? { return Cancelled; }
    if trivia.result.None? { return Done(NoHeader); }
    var nm := trivia.result.value;
    OnlyName(s, kw + |keyword|, nm, end);
    if name == "" || !HasToken(s, nm, end, name) { return Done(NoHeader); }
    NameInRange(s, nm, end, name);
    var brace := BodyOffset(s, nm + |name|, end);
    if brace.Cancelled? { return Cancelled; }
    if brace.result.None? { return Done(NoHeader); }
    var body := brace.result.value;
    var normalized := Normalize(s, kw, body);
    if normalized.Cancelled? { return Cancelled; }
    if normalized.result.None? { return Done(NoHeader); }
    assert Declares(s, keyword, name, a, end, normalized.result.value, kw, nm, body);
    return Done(Header(normalized.result.value));
  }

  lemma OnlyName(s: string, i: nat, nm: nat, end: nat)
    requires i <= end <= |s| && OnlyTrivia(s, i, nm, end) && IsCode(s, nm, end)
    ensures i <= nm < end
    ensures forall o: nat :: OnlyTrivia(s, i, o, end) && IsCode(s, o, end) ==> o == nm
  {
    TriviaForward(s, i, nm, end);
    forall o: nat | OnlyTrivia(s, i, o, end) && IsCode(s, o, end)
      ensures o == nm
    {
      TriviaEndsOnce(s, i, o, nm, end);
    }
  }

  lemma NameInRange(s: string, nm: nat, end: nat, name: string)
    requires nm <= end <= |s| && HasToken(s, nm, end, name)
    ensures nm + |name| <= end
  {
  }

  /** extractDeclarationHeader. A header is a single line, its own normal form, and
      the normal form of the declaration from its keyword to its body. */
  method Extract(s: string, kind: Kind, name: string, from: Position, to: Position) returns (r: Scan<Extraction>)
    ensures r.Done? && r.result.Header? ==>
              && kind != Other && ByteOffset(s, from).Some? && ByteOffset(s, to).Some?
              && !HasLineBreak(r.result.text) && Normal(r.result.text) == Some(r.result.text)
              && (var a, end := ByteOffset(s, from).value, ByteOffset(s, to).value;
                  a <= end <= |s|
                  && exists kw, nm, body :: Declares(s, KeywordOf(kind), name, a, end, r.result.text, kw, nm, body))
    ensures r == Done(NoHeader) && kind != Other ==>
              && ByteOffset(s, from).Some? && ByteOffset(s, to).Some?
              && (var a, end := ByteOffset(s, from).value, ByteOffset(s, to).value;
                  a <= end ==>
                    end <= |s| && forall h, kw, nm, body ::
                      !Declares(s, KeywordOf(kind), name, a, end, h, kw, nm, body))
    ensures r.Done? ==> (r.result.Failed? <==> kind != Other && (ByteOffset(s, from).None? || ByteOffset(s, to).None?))
  {
    hide ByteOffset, TokenFrom, BodyFrom, OnlyTrivia, IsCode, HasToken;
    if kind == Other { return Done(NoHeader); }
    if * { return Cancelled; }
    var start := FindByteOffset(s, from);
    if start.Cancelled? { return Cancelled; }
    if start.result.None? { return Done(Failed); }
    var stop := FindByteOffset(s, to);
    if stop.Cancelled? { return Cancelled; }
    if stop.result.None? { return Done(Failed); }
    var a, end := start.result.value, stop.result.value;
    if end < a { return Done(NoHeader); }
    PositionOfOffset(s, to);
    r := ExtractIn(s, KeywordOf(kind), name, a, end);
    if r.Done? && r.result.Header? {
      ghost var kw: nat, nm: nat, body: nat :| Declares(s, KeywordOf(kind), name, a, end, r.result.text, kw, nm, body);
      NormalHasNoBreak(s[kw..body]);
      NormalIsFixed(s[kw..body]);
    }
  }
}
