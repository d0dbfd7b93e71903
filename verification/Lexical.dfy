/**
 The lexical layer of internal/lsp/declaration_headers.go: comments and literals
 of a TypeScript source, and what lies outside them.

 The specification functions read a text from its front; the methods scan the
 range [start, end) of a source by index, polling for cancellation.
 */
module Lexical {
  import opened Wrappers

  datatype SpanKind = Plain | Comment | Literal

  /** A comment or literal of `size` bytes; `complete` when it is terminated. */
  datatype Span = Span(size: nat, kind: SpanKind, complete: bool)

  /** Just after the first line break at or after `k`, or the end. */
  function LineEnd(t: string, k: nat): (n: nat)
    requires k <= |t|
    ensures k <= n <= |t|
    ensures forall j :: k <= j < n - 1 ==> t[j] != '\n'
    ensures n < |t| ==> k < n && t[n - 1] == '\n'
    decreases |t| - k
  {
    if k == |t| then k else if t[k] == '\n' then k + 1 else LineEnd(t, k + 1)
  }

  predicate IsClose(t: string, j: int) {
    0 <= j && j + 1 < |t| && t[j] == '*' && t[j + 1] == '/'
  }

  /** Just after the first closing mark of a block comment at or after `k`. */
  function CloseMark(t: string, k: nat): (n: Option<nat>)
    ensures n.Some? ==> k + 2 <= n.value <= |t| && IsClose(t, n.value - 2)
    ensures forall j :: k <= j && IsClose(t, j) ==> n.Some? && n.value - 2 <= j
    decreases |t| - k
  {
    if k + 1 >= |t| then None
    else if IsClose(t, k) then Some(k + 2)
    else CloseMark(t, k + 1)
  }

  /** Just after the first unescaped `quote` at or after `k`. */
  function CloseQuote(t: string, k: nat, quote: char): (n: Option<nat>)
    ensures n.Some? ==> k < n.value <= |t|
    decreases |t| - k
  {
    if k >= |t| then None
    else if t[k] == '\\' then CloseQuote(t, k + 2, quote)
    else if t[k] == quote then Some(k + 1)
    else CloseQuote(t, k + 1, quote)
  }

  /** How many backslashes stand directly before `j`, counted back to `k`. */
  function Backslashes(t: string, k: nat, j: nat): nat
    requires k <= j <= |t|
  {
    if j == k || t[j - 1] != '\\' then 0 else 1 + Backslashes(t, k, j - 1)
  }

  /** A quote that ends the literal whose text begins at `k`: an even number of
      backslashes stand before it. */
  predicate IsEnd(t: string, k: nat, j: nat, quote: char) {
    k <= j < |t| && t[j] == quote && Backslashes(t, k, j) % 2 == 0
  }

  /** The parity does not depend on where the escapes were counted from. */
  lemma {:induction false} BackslashParity(t: string, k: nat, m: nat, j: nat)
    requires k < m <= j <= |t| && if t[k] == '\\' then m == k + 2 else m == k + 1
    ensures Backslashes(t, k, j) % 2 == Backslashes(t, m, j) % 2
    decreases j
  {
    if j == m {
      if m == k + 2 {
        assert Backslashes(t, k, k) == 0 && Backslashes(t, k, k + 1) == 1;
      }
    } else if t[j - 1] == '\\' {
      BackslashParity(t, k, m, j - 1);
    }
  }

  /** The scan finds the first quote that is not escaped, and none exactly when
      there is none. */
  lemma {:induction false} CloseQuoteIsFirst(t: string, k: nat, quote: char)
    requires quote != '\\'
    ensures var n := CloseQuote(t, k, quote);
            && (n.Some? ==> IsEnd(t, k, n.value - 1, quote))
            && (forall j: nat :: IsEnd(t, k, j, quote) ==> n.Some? && n.value - 1 <= j)
    decreases |t| - k
  {
    if k < |t| && t[k] != quote {
      var m := if t[k] == '\\' then k + 2 else k + 1;
      CloseQuoteIsFirst(t, m, quote);
      var n := CloseQuote(t, k, quote);
      if n.Some? {
        BackslashParity(t, k, m, n.value - 1);
      }
      assert Backslashes(t, k, k) == 0;
      assert t[k] == '\\' ==> Backslashes(t, k, k + 1) == 1;
      forall j: nat | IsEnd(t, k, j, quote)
        ensures n.Some? && n.value - 1 <= j
      {
        if j >= m {
          BackslashParity(t, k, m, j);
          assert IsEnd(t, m, j, quote);
        }
      }
    }
  }

  predicate IsQuote(c: char) {
    c == '\'' || c == '\"' || c == '`'
  }

  /** The span that a text begins with. */
  function SpanOf(t: string): (r: Span)
    requires t != ""
    ensures r.size <= |t| && (r.kind == Plain <==> r.size == 0) && (r.kind == Plain ==> r.complete)
    ensures r.kind == Literal <==> IsQuote(t[0])
    ensures r.kind == Comment ==> t[0] == '/' && |t| >= 2
  {
    if t[0] == '/' && |t| >= 2 && t[1] == '/' then Span(LineEnd(t, 2), Comment, true)
    else if t[0] == '/' && |t| >= 2 && t[1] == '*' then
      (match CloseMark(t, 2)
       case Some(n) => Span(n, Comment, true)
       case None => Span(|t|, Comment, false))
    else if IsQuote(t[0]) then
      (match CloseQuote(t, 1, t[0])
       case Some(n) => Span(n, Literal, true)
       case None => Span(|t|, Literal, false))
    else Span(0, Plain, true)
  }

  method ScanLine(source: string, start: nat, end: nat) returns (r: Scan<nat>)
    requires start + 2 <= end <= |source|
    ensures r.Done? ==> r.result == LineEnd(source[start..end], 2)
  {
    ghost var t := source[start..end];
    var i := start + 2;
    while i < end
      invariant start + 2 <= i <= end && LineEnd(t, i - start) == LineEnd(t, 2)
    {
      if * { return Cancelled; }
      if source[i] == '\n' {
        return Done(i + 1 - start);
      }
      i := i + 1;
    }
    return Done(end - start);
  }

  method ScanBlock(source: string, start: nat, end: nat) returns (r: Scan<Option<nat>>)
    requires start + 2 <= end <= |source|
    ensures r.Done? ==> r.result == CloseMark(source[start..end], 2)
  {
    ghost var t := source[start..end];
    var i := start + 2;
    while i + 1 < end
      invariant start + 2 <= i && CloseMark(t, i - start) == CloseMark(t, 2)
    {
      if * { return Cancelled; }
      if source[i] == '*' && source[i + 1] == '/' {
        return Done(Some(i + 2 - start));
      }
      i := i + 1;
    }
    return Done(None);
  }

  method ScanLiteral(source: string, start: nat, end: nat) returns (r: Scan<Option<nat>>)
    requires start < end <= |source|
    ensures r.Done? ==> r.result == CloseQuote(source[start..end], 1, source[start])
  {
    ghost var t := source[start..end];
    var quote := source[start];
    var i := start + 1;
    while i < end
      invariant start + 1 <= i && CloseQuote(t, i - start, quote) == CloseQuote(t, 1, quote)
    {
      if * { return Cancelled; }
      if source[i] == '\\' {
        i := i + 2;
      } else if source[i] == quote {
        return Done(Some(i + 1 - start));
      } else {
        i := i + 1;
      }
    }
    return Done(None);
  }

  /** scanLexicalSpan: the span at `start`, with its end as an offset. */
  method ScanSpan(source: string, start: nat, end: nat) returns (r: Scan<Span>)
    requires start < end <= |source|
    ensures r.Done? ==> r.result == SpanOf(source[start..end])
  {
    var size := end - start;
    if source[start] == '/' && start + 1 < end && source[start + 1] == '/' {
      var line := ScanLine(source, start, end);
      return match line case Cancelled => Cancelled case Done(n) => Done(Span(n, Comment, true));
    }
    if source[start] == '/' && start + 1 < end && source[start + 1] == '*' {
      var block := ScanBlock(source, start, end);
      return match block
        case Cancelled => Cancelled
        case Done(Some(n)) => Done(Span(n, Comment, true))
        case Done(None) => Done(Span(size, Comment, false));
    }
    if !IsQuote(source[start]) {
      return Done(Span(0, Plain, true));
    }
    var literal := ScanLiteral(source, start, end);
    return match literal
      case Cancelled => Cancelled
      case Done(Some(n)) => Done(Span(n, Literal, true))
      case Done(None) => Done(Span(size, Literal, false));
  }

  /** A complete literal ends where it ends, whatever follows it. */
  lemma {:induction false} CloseQuoteIsLocal(t: string, k: nat, quote: char, n: nat, more: string)
    requires CloseQuote(t, k, quote) == Some(n)
    ensures CloseQuote(t[..n] + more, k, quote) == Some(n)
    decreases |t| - k
  {
    var u := t[..n] + more;
    assert u[k] == t[k];
    if t[k] == '\\' {
      CloseQuoteIsLocal(t, k + 2, quote, n, more);
    } else if t[k] != quote {
      CloseQuoteIsLocal(t, k + 1, quote, n, more);
    }
  }
}
