/**
 The LSP base protocol codec of internal/lsp/framing.go: one message is a header
 block ended by a blank line and then exactly Content-Length bytes.
 */
module Framing {
  import opened Wrappers
  import opened Unicode

  /** Largest value of Go's 64-bit int, which bounds the length of every slice. */
  const MAX_INT: int := 0x7FFF_FFFF_FFFF_FFFF

  // ---------------------------------------------------------------- decimal

  predicate IsDigit(c: char) {
    '0' <= c <= '9'
  }

  function DigitChar(d: nat): (c: char)
    requires d < 10
    ensures IsDigit(c) && c as int - '0' as int == d
  {
    ('0' as int + d) as char
  }

  /** The decimal form fmt prints for `%d`. */
  function Decimal(n: nat): (s: string)
    ensures s != "" && forall i :: 0 <= i < |s| ==> IsDigit(s[i])
  {
    if n < 10 then [DigitChar(n)] else Decimal(n / 10) + [DigitChar(n % 10)]
  }

  predicate AllDigits(s: string) {
    forall i :: 0 <= i < |s| ==> IsDigit(s[i])
  }

  /** The number written by a string of digits. */
  function DigitsValue(s: string): (n: nat)
    requires AllDigits(s)
  {
    if s == "" then 0
    else DigitsValue(s[..|s| - 1]) * 10 + (s[|s| - 1] as int - '0' as int)
  }

  lemma {:induction false} DecimalValue(n: nat)
    ensures DigitsValue(Decimal(n)) == n
  {
    if n < 10 {
      assert Decimal(n)[..0] == "";
    } else {
      DecimalValue(n / 10);
      assert Decimal(n)[..|Decimal(n)| - 1] == Decimal(n / 10);
    }
  }

  /** strconv.Atoi: an optional sign and at least one digit, within 64 bits. */
  function Atoi(s: string): Option<int> {
    var negative := s != "" && s[0] == '-';
    var body := if s != "" && (s[0] == '-' || s[0] == '+') then s[1..] else s;
    if body == "" || !AllDigits(body) then None
    else
      var v: int := if negative then 0 - DigitsValue(body) else DigitsValue(body);
      if -MAX_INT - 1 <= v <= MAX_INT then Some(v) else None
  }

  lemma AtoiOfDecimal(n: nat)
    requires n <= MAX_INT
    ensures Atoi(Decimal(n)) == Some(n)
  {
    DecimalValue(n);
    assert IsDigit(Decimal(n)[0]);
  }

  /** A sign in front is read as a sign. */
  lemma AtoiOfSigned(n: nat)
    requires n <= MAX_INT
    ensures Atoi("-" + Decimal(n)) == Some(0 - n) && Atoi("+" + Decimal(n)) == Some(n)
  {
    DecimalValue(n);
    assert ("-" + Decimal(n))[1..] == Decimal(n) && ("+" + Decimal(n))[1..] == Decimal(n);
  }

  // ---------------------------------------------------------------- encoder

  const HEADER_NAME := "Content-Length: "

  function Header(n: nat): string {
    HEADER_NAME + Decimal(n) + "\r\n\r\n"
  }

  /** frameBytes. */
  function FrameBytes(data: string): (f: string)
    ensures |f| > |data| + 4
  {
    Header(|data|) + data
  }

  // ---------------------------------------------------------------- decoder

  /** Position of the first `c` in `s` at or after `i`, or |s|. */
  function IndexFrom(s: string, c: char, i: nat): (k: nat)
    requires i <= |s|
    ensures i <= k <= |s|
    ensures k < |s| ==> s[k] == c
    ensures forall j :: i <= j < k ==> s[j] != c
    decreases |s| - i
  {
    if i == |s| || s[i] == c then i else IndexFrom(s, c, i + 1)
  }

  lemma {:induction false} IndexUnique(s: string, c: char, i: nat, k: nat)
    requires i <= k < |s| && s[k] == c
    requires forall j :: i <= j < k ==> s[j] != c
    ensures IndexFrom(s, c, i) == k
    decreases k - i
  {
    if i < k {
      IndexUnique(s, c, i + 1, k);
    }
  }

  /** strings.TrimRight(line, "\r\n"). */
  function TrimLineEnd(s: string): (r: string)
    ensures |r| <= |s| && r == s[..|r|]
    ensures r != "" ==> r[|r| - 1] != '\r' && r[|r| - 1] != '\n'
  {
    if s != "" && (s[|s| - 1] == '\r' || s[|s| - 1] == '\n') then TrimLineEnd(s[..|s| - 1]) else s
  }

  function LowerAscii(c: char): char {
    if 'A' <= c <= 'Z' then (c as int + 32) as char else c
  }

  /** strings.EqualFold against "Content-Length", whose letters have no case
      partner outside ASCII. */
  predicate IsContentLength(name: string) {
    && |name| == 14
    && forall i :: 0 <= i < 14 ==> LowerAscii(name[i]) == "content-length"[i]
  }

  datatype ReadError = EndOfInput | BadLength | MissingLength

  datatype HeaderLine = Blank | Ignored | Length(n: int) | Malformed

  /** What readFrame makes of one header line, its line feed included. */
  function ParseHeaderLine(line: string): HeaderLine {
    var trimmed := TrimLineEnd(line);
    if trimmed == "" then Blank
    else
      var colon := IndexFrom(trimmed, ':', 0);
      if colon == |trimmed| || !IsContentLength(TrimSpace(trimmed[..colon])) then Ignored
      else match Atoi(TrimSpace(trimmed[colon + 1..]))
           case None => Malformed
           case Some(n) => Length(n)
  }

  datatype Headers = HeadersErr(e: ReadError) | HeadersOk(length: int, rest: string)

  function ReadHeaders(s: string, length: int): (h: Headers)
    ensures h.HeadersOk? ==> |h.rest| < |s|
    decreases |s|
  {
    var nl := IndexFrom(s, '\n', 0);
    if nl == |s| then HeadersErr(EndOfInput)
    else match ParseHeaderLine(s[..nl + 1])
         case Blank => HeadersOk(length, s[nl + 1..])
         case Ignored => ReadHeaders(s[nl + 1..], length)
         case Length(n) => ReadHeaders(s[nl + 1..], n)
         case Malformed => HeadersErr(BadLength)
  }

  datatype ReadResult = ReadErr(e: ReadError) | ReadOk(body: string, rest: string)

  /** readFrame as a function of the bytes still to be read. */
  function FrameAt(s: string): (r: ReadResult)
    ensures r.ReadOk? ==> |r.rest| < |s|
  {
    match ReadHeaders(s, -1)
    case HeadersErr(e) => ReadErr(e)
    case HeadersOk(length, rest) =>
      if length < 0 then ReadErr(MissingLength)
      else if |rest| < length then ReadErr(EndOfInput)
      else ReadOk(rest[..length], rest[length..])
  }

  /** readFrame: the header loop, then the body. */
  method ReadFrame(stream: string) returns (r: ReadResult)
    ensures r == FrameAt(stream)
  {
    var rest := stream;
    var contentLength: int := -1;
    while true
      invariant ReadHeaders(stream, -1) == ReadHeaders(rest, contentLength)
      decreases |rest|
    {
      var nl := IndexFrom(rest, '\n', 0);
      if nl == |rest| {
        return ReadErr(EndOfInput);
      }
      var line := rest[..nl + 1];
      var parsed := ParseHeaderLine(line);
      if parsed.Malformed? {
        return ReadErr(BadLength);
      }
      if parsed.Blank? {
        rest := rest[nl + 1..];
        break;
      }
      if parsed.Length? {
        contentLength := parsed.n;
      }
      rest := rest[nl + 1..];
    }
    if contentLength < 0 {
      return ReadErr(MissingLength);
    }
    if |rest| < contentLength {
      return ReadErr(EndOfInput);
    }
    r := ReadOk(rest[..contentLength], rest[contentLength..]);
  }

  // ------------------------------------------------------------ round trips

  /** The line a frame starts with. */
  function LengthLine(n: nat): string {
    HEADER_NAME + Decimal(n) + "\r\n"
  }

  lemma TrimOfLengthLine(n: nat)
    ensures TrimLineEnd(LengthLine(n)) == HEADER_NAME + Decimal(n)
  {
    var body := HEADER_NAME + Decimal(n);
    var line := LengthLine(n);
    assert IsDigit(Decimal(n)[|Decimal(n)| - 1]);
    assert body[|body| - 1] == Decimal(n)[|Decimal(n)| - 1];
    assert TrimLineEnd(body) == body;
    assert line[..|line| - 1][..|line| - 2] == body;
    assert line[..|line| - 1][|line| - 2] == '\r';
    assert TrimLineEnd(line[..|line| - 1]) == body;
  }

  lemma TrimmedParts(d: string)
    requires d != "" && AllDigits(d)
    ensures TrimSpace(" " + d) == d
    ensures TrimSpace("Content-Length") == "Content-Length"
  {
    hide DecodeRune, DecodeLastRune, TrimSpace;
    assert IsDigit(d[0]) && IsDigit(d[|d| - 1]);
    TrimDropsBlank(d);
    TrimKeepsPlain(d);
    TrimKeepsPlain("Content-Length");
  }

  lemma ParseLengthLine(n: nat)
    requires n <= MAX_INT
    ensures ParseHeaderLine(LengthLine(n)) == Length(n)
  {
    hide TrimSpace, Atoi, Decimal, TrimLineEnd;
    TrimOfLengthLine(n);
    var d := Decimal(n);
    var trimmed := HEADER_NAME + d;
    IndexUnique(trimmed, ':', 0, 14);
    assert trimmed[..14] == "Content-Length";
    assert trimmed[15..] == " " + d;
    TrimmedParts(d);
    AtoiOfDecimal(n);
  }

  lemma LengthLineEnds(n: nat, tail: string)
    ensures IndexFrom(LengthLine(n) + tail, '\n', 0) == |LengthLine(n)| - 1
    ensures (LengthLine(n) + tail)[..|LengthLine(n)|] == LengthLine(n)
    ensures (LengthLine(n) + tail)[|LengthLine(n)|..] == tail
  {
    var line := LengthLine(n);
    var s := line + tail;
    forall j | 0 <= j < |line| - 1
      ensures s[j] != '\n'
    {
      if 16 <= j < 16 + |Decimal(n)| {
        assert s[j] == Decimal(n)[j - 16];
      }
    }
    IndexUnique(s, '\n', 0, |line| - 1);
  }

  lemma ParseBlankLine()
    ensures ParseHeaderLine("\r\n") == Blank
  {
    assert "\r\n"[..1] == "\r" && "\r"[..0] == "";
    assert TrimLineEnd("\r") == "";
  }

  lemma HeaderReads(n: nat, rest: string)
    requires n <= MAX_INT
    ensures ReadHeaders(Header(n) + rest, -1) == HeadersOk(n, rest)
  {
    hide TrimSpace, Atoi, Decimal, ParseHeaderLine;
    var tail := "\r\n" + rest;
    assert Header(n) + rest == LengthLine(n) + tail;
    LengthLineEnds(n, tail);
    ParseLengthLine(n);
    IndexUnique(tail, '\n', 0, 1);
    assert tail[..2] == "\r\n" && tail[2..] == rest;
    ParseBlankLine();
  }

  /** Reading back one frame gives its body and leaves what follows it. */
  lemma FrameRoundTrip(data: string, rest: string)
    requires |data| <= MAX_INT
    ensures FrameAt(FrameBytes(data) + rest) == ReadOk(data, rest)
  {
    assert FrameBytes(data) + rest == Header(|data|) + (data + rest);
    HeaderReads(|data|, data + rest);
    assert (data + rest)[..|data|] == data && (data + rest)[|data|..] == rest;
  }

  /** A frame cut short anywhere is never mistaken for a message. */
  lemma CutFrameIsIncomplete(data: string, k: nat)
    requires |data| <= MAX_INT && k < |FrameBytes(data)|
    ensures FrameAt(FrameBytes(data)[..k]) == ReadErr(EndOfInput)
  {
    hide TrimSpace, Atoi, Decimal, ParseHeaderLine;
    var n := |data|;
    var line := LengthLine(n);
    var f := FrameBytes(data);
    var cut := f[..k];
    assert f == line + ("\r\n" + data);
    if k >= |Header(n)| {
      assert cut == Header(n) + data[..k - |Header(n)|];
      HeaderReads(n, data[..k - |Header(n)|]);
    } else if k >= |line| {
      var tail := "\r\n"[..k - |line|];
      assert cut == line + tail;
      LengthLineEnds(n, tail);
      ParseLengthLine(n);
      assert forall j :: 0 <= j < |tail| ==> tail[j] == '\r';
      assert IndexFrom(tail, '\n', 0) == |tail|;
      assert ReadHeaders(tail, n) == HeadersErr(EndOfInput);
      assert ReadHeaders(cut, -1) == ReadHeaders(tail, n);
    } else {
      LengthLineEnds(n, "");
      assert line + "" == line;
      forall j | 0 <= j < k
        ensures cut[j] != '\n'
      {
        assert cut[j] == line[j];
      }
      assert IndexFrom(cut, '\n', 0) == k;
    }
  }

  /** The concatenation of the frames of a list of messages. */
  function Concat(bodies: seq<string>): string {
    if bodies == [] then "" else FrameBytes(bodies[0]) + Concat(bodies[1..])
  }

  /** Everything a reader obtains by calling readFrame until it fails. */
  function ReadAll(s: string): (r: (seq<string>, ReadError))
    decreases |s|
  {
    match FrameAt(s)
    case ReadErr(e) => ([], e)
    case ReadOk(body, rest) => var (more, e) := ReadAll(rest); ([body] + more, e)
  }

  predicate Fits(bodies: seq<string>) {
    forall i :: 0 <= i < |bodies| ==> |bodies[i]| <= MAX_INT
  }

  /** Repeated reading of a stream of whole frames, possibly followed by one
      frame that was cut short, yields exactly the whole messages. */
  lemma {:induction false} StreamRoundTrip(bodies: seq<string>, last: string, k: nat)
    requires Fits(bodies) && |last| <= MAX_INT && k < |FrameBytes(last)|
    ensures ReadAll(Concat(bodies) + FrameBytes(last)[..k]) == (bodies, EndOfInput)
  {
    hide FrameAt, FrameBytes;
    var cut := FrameBytes(last)[..k];
    if bodies == [] {
      assert Concat(bodies) + cut == cut;
      CutFrameIsIncomplete(last, k);
    } else {
      var rest := Concat(bodies[1..]) + cut;
      assert Concat(bodies) + cut == FrameBytes(bodies[0]) + rest;
      FrameRoundTrip(bodies[0], rest);
      StreamRoundTrip(bodies[1..], last, k);
      assert [bodies[0]] + bodies[1..] == bodies;
    }
  }

  lemma {:induction false} ConcatAppend(bodies: seq<string>, body: string)
    ensures Concat(bodies + [body]) == Concat(bodies) + FrameBytes(body)
  {
    hide FrameBytes;
    if bodies == [] {
      assert [body][1..] == [] && bodies + [body] == [body];
    } else {
      ConcatAppend(bodies[1..], body);
      assert (bodies + [body])[1..] == bodies[1..] + [body];
    }
  }
}
