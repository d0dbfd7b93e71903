/**
 What readFrame makes of any header block: fields of other names are passed over, the
 name of the length field is matched without case, the last length counts, and a frame
 without one is refused.
 */
module FramingHeaders {
  import opened Wrappers
  import opened Unicode
  import opened Framing

  /** One header field, written as `name:value` and a line end. */
  datatype Field = Field(name: string, value: string)

  predicate EndsPlain(s: string) {
    s != "" ==> s[|s| - 1] != '\r' && s[|s| - 1] != '\n'
  }

  predicate IsField(f: Field) {
    ':' !in f.name && '\n' !in f.name && '\n' !in f.value && EndsPlain(f.value)
  }

  predicate AreFields(fields: seq<Field>) {
    forall i :: 0 <= i < |fields| ==> IsField(fields[i])
  }

  function FieldText(f: Field): string {
    f.name + ":" + f.value + "\r\n"
  }

  function BlockText(fields: seq<Field>): string {
    if fields == [] then "" else FieldText(fields[0]) + BlockText(fields[1..])
  }

  function InLowerCase(s: string): (r: string)
    ensures |r| == |s| && forall i :: 0 <= i < |s| ==> r[i] == LowerAscii(s[i])
  {
    seq(|s|, i requires 0 <= i < |s| => LowerAscii(s[i]))
  }

  /** The field gives the length of the body: its name is Content-Length in any case and
      with any space around it. */
  predicate GivesLength(f: Field) {
    InLowerCase(TrimSpace(f.name)) == "content-length"
  }

  function LengthOf(f: Field): Option<int> {
    Atoi(TrimSpace(f.value))
  }

  /** Every length is a number. */
  predicate LengthsAreNumbers(fields: seq<Field>) {
    forall i :: 0 <= i < |fields| && GivesLength(fields[i]) ==> LengthOf(fields[i]).Some?
  }

  /** The length that the last of the fields that give one gives. */
  function LastLength(fields: seq<Field>, otherwise: int): int
    requires LengthsAreNumbers(fields)
  {
    if fields == [] then otherwise
    else
      var n := |fields| - 1;
      if GivesLength(fields[n]) then LengthOf(fields[n]).value else LastLength(fields[..n], otherwise)
  }

  // -------------------------------------------------------------------- one line

  lemma NameIsMatched(name: string)
    ensures IsContentLength(name) <==> InLowerCase(name) == "content-length"
  {
  }

  lemma TrimFieldText(f: Field)
    requires IsField(f)
    ensures TrimLineEnd(FieldText(f)) == f.name + ":" + f.value
  {
    var body, line := f.name + ":" + f.value, FieldText(f);
    assert body[|body| - 1] != '\r' && body[|body| - 1] != '\n';
    assert TrimLineEnd(body) == body;
    assert line[..|line| - 1][..|line| - 2] == body && line[..|line| - 1][|line| - 2] == '\r';
    assert TrimLineEnd(line[..|line| - 1]) == body;
  }

  /** What one field says. */
  function Said(f: Field): HeaderLine {
    if !GivesLength(f) then Ignored
    else match LengthOf(f)
      case None => Malformed
      case Some(n) => Length(n)
  }

  lemma ParseField(f: Field)
    requires IsField(f)
    ensures ParseHeaderLine(FieldText(f)) == Said(f)
  {
    hide TrimSpace, Atoi, TrimLineEnd;
    TrimFieldText(f);
    var trimmed := f.name + ":" + f.value;
    assert forall j :: 0 <= j < |f.name| ==> trimmed[j] == f.name[j] && f.name[j] in f.name;
    IndexUnique(trimmed, ':', 0, |f.name|);
    assert trimmed[..|f.name|] == f.name && trimmed[|f.name| + 1..] == f.value;
    NameIsMatched(TrimSpace(f.name));
  }

  lemma FieldEnds(f: Field, tail: string)
    requires IsField(f)
    ensures var line := FieldText(f);
            && IndexFrom(line + tail, '\n', 0) == |line| - 1
            && (line + tail)[..|line|] == line && (line + tail)[|line|..] == tail
  {
    var line := FieldText(f);
    var s, n := line + tail, |f.name|;
    forall j | 0 <= j < |line| - 1
      ensures s[j] != '\n'
    {
      if j < n {
        assert s[j] == f.name[j] && f.name[j] in f.name;
      } else if n < j < n + 1 + |f.value| {
        assert s[j] == f.value[j - n - 1] && f.value[j - n - 1] in f.value;
      }
    }
    IndexUnique(s, '\n', 0, |line| - 1);
  }

  lemma ReadField(f: Field, tail: string, length: int)
    requires IsField(f)
    ensures ReadHeaders(FieldText(f) + tail, length)
         == match Said(f)
            case Length(n) => ReadHeaders(tail, n)
            case Malformed => HeadersErr(BadLength)
            case _ => ReadHeaders(tail, length)
  {
    hide TrimSpace, Atoi, ParseHeaderLine, Said;
    FieldEnds(f, tail);
    ParseField(f);
    SaidIsNotBlank(f);
  }

  lemma TrimPlainLine(line: string)
    requires EndsPlain(line)
    ensures TrimLineEnd(line + "\r\n") == line
  {
    var l := line + "\r\n";
    assert TrimLineEnd(line) == line;
    assert l[..|l| - 1][..|l| - 2] == line && l[..|l| - 1][|l| - 2] == '\r';
    assert TrimLineEnd(l[..|l| - 1]) == line;
  }

  lemma ParseWithoutColon(line: string)
    requires line != "" && ':' !in line && EndsPlain(line)
    ensures ParseHeaderLine(line + "\r\n") == Ignored
  {
    hide TrimSpace, Atoi, TrimLineEnd;
    TrimPlainLine(line);
    assert IndexFrom(line, ':', 0) == |line|;
  }

  /** A line without a colon says nothing. */
  lemma LineWithoutColon(line: string, tail: string, length: int)
    requires line != "" && ':' !in line && '\n' !in line && EndsPlain(line)
    ensures ReadHeaders(line + "\r\n" + tail, length) == ReadHeaders(tail, length)
  {
    hide ParseHeaderLine;
    ParseWithoutColon(line);
    var s, l := line + "\r\n" + tail, line + "\r\n";
    assert forall j :: 0 <= j < |line| ==> s[j] == line[j] && line[j] in line;
    IndexUnique(s, '\n', 0, |line| + 1);
    assert s[..|l|] == l && s[|l|..] == tail;
  }

  lemma SaidIsNotBlank(f: Field)
    ensures !Said(f).Blank?
  {
  }

  lemma ReadBlankLine(s: string, length: int)
    ensures ReadHeaders("\r\n" + s, length) == HeadersOk(length, s)
  {
    hide TrimSpace, Atoi, ParseHeaderLine;
    var t := "\r\n" + s;
    IndexUnique(t, '\n', 0, 1);
    assert t[..2] == "\r\n" && t[2..] == s;
    ParseBlankLine();
  }

  // ------------------------------------------------------------------ whole blocks

  lemma {:induction false} LastOfFirst(fields: seq<Field>, otherwise: int)
    requires fields != [] && LengthsAreNumbers(fields)
    ensures LengthsAreNumbers(fields[1..])
    ensures LastLength(fields, otherwise)
         == LastLength(fields[1..], if GivesLength(fields[0]) then LengthOf(fields[0]).value else otherwise)
  {
    hide GivesLength, LengthOf;
    var n := |fields| - 1;
    if n > 0 {
      assert fields[1..][n - 1] == fields[n] && fields[1..][..n - 1] == fields[..n][1..];
      LastOfFirst(fields[..n], otherwise);
    } else {
      assert fields[..0] == [];
    }
  }

  /** The header block of a frame gives the last length, if all lengths are numbers, and
      is refused if one is not. */
  lemma {:induction false} ReadBlock(fields: seq<Field>, s: string, length: int)
    requires AreFields(fields)
    ensures ReadHeaders(BlockText(fields) + "\r\n" + s, length)
         == if LengthsAreNumbers(fields) then HeadersOk(LastLength(fields, length), s) else HeadersErr(BadLength)
    decreases |fields|
  {
    hide ReadHeaders, FieldText, GivesLength, LengthOf;
    if fields == [] {
      assert BlockText(fields) + "\r\n" + s == "\r\n" + s;
      ReadBlankLine(s, length);
    } else {
      var f, rest := fields[0], BlockText(fields[1..]) + "\r\n" + s;
      assert BlockText(fields) + "\r\n" + s == FieldText(f) + rest;
      ReadField(f, rest, length);
      NumbersOfFirst(fields);
      if !GivesLength(f) {
        ReadBlock(fields[1..], s, length);
      } else if LengthOf(f).Some? {
        ReadBlock(fields[1..], s, LengthOf(f).value);
      }
      if LengthsAreNumbers(fields) {
        LastOfFirst(fields, length);
      }
    }
  }

  lemma NumbersOfFirst(fields: seq<Field>)
    requires fields != []
    ensures LengthsAreNumbers(fields) <==>
              (GivesLength(fields[0]) ==> LengthOf(fields[0]).Some?) && LengthsAreNumbers(fields[1..])
  {
    hide GivesLength, LengthOf;
    assert forall i :: 0 <= i < |fields| - 1 ==> fields[1..][i] == fields[i + 1];
    assert forall i :: 1 <= i < |fields| ==> fields[i] == fields[1..][i - 1];
  }

  /** Reading a frame with any header block: the last length decides, and without one the
      frame is refused. */
  lemma FrameOfBlock(fields: seq<Field>, s: string)
    requires AreFields(fields)
    ensures FrameAt(BlockText(fields) + "\r\n" + s)
         == if !LengthsAreNumbers(fields) then ReadErr(BadLength)
            else
              var n := LastLength(fields, -1);
              if n < 0 then ReadErr(MissingLength)
              else if |s| < n then ReadErr(EndOfInput)
              else ReadOk(s[..n], s[n..])
  {
    hide ReadHeaders, BlockText, LengthsAreNumbers, LastLength;
    ReadBlock(fields, s, -1);
  }

  /** A block in which no field gives a length is refused, whatever else it says. */
  lemma {:induction false} NoLengthIsRefused(fields: seq<Field>, s: string)
    requires AreFields(fields) && forall i :: 0 <= i < |fields| ==> !GivesLength(fields[i])
    ensures FrameAt(BlockText(fields) + "\r\n" + s) == ReadErr(MissingLength)
  {
    FrameOfBlock(fields, s);
    NoLength(fields);
  }

  lemma {:induction false} NoLength(fields: seq<Field>)
    requires forall i :: 0 <= i < |fields| ==> !GivesLength(fields[i])
    ensures LengthsAreNumbers(fields) && LastLength(fields, -1) == -1
  {
    hide GivesLength, LengthOf;
    if fields != [] {
      NoLength(fields[..|fields| - 1]);
    }
  }

  /** The last length wins over every earlier one, in whatever case its name is. */
  lemma LastLengthWins(fields: seq<Field>, name: string, body: string, rest: string)
    requires AreFields(fields) && LengthsAreNumbers(fields) && |body| <= MAX_INT
    requires IsField(Field(name, "")) && GivesLength(Field(name, ""))
    ensures FrameAt(BlockText(fields + [Field(name, " " + Decimal(|body|))]) + "\r\n" + body + rest)
         == ReadOk(body, rest)
  {
    hide FrameAt, BlockText, TrimSpace, Atoi, Decimal;
    var f := Field(name, " " + Decimal(|body|));
    var all, s := fields + [f], body + rest;
    var d := Decimal(|body|);
    assert IsDigit(d[|d| - 1]) && d[|d| - 1] == f.value[|f.value| - 1];
    assert '\n' !in f.value by {
      assert forall i :: 0 <= i < |d| ==> IsDigit(d[i]);
    }
    TrimmedParts(d);
    AtoiOfDecimal(|body|);
    assert LengthOf(f) == Some(|body|) && GivesLength(f);
    assert all[..|fields|] == fields && all[|fields|] == f;
    assert forall i :: 0 <= i < |all| ==> all[i] == if i < |fields| then fields[i] else f;
    FrameOfBlock(all, s);
    assert BlockText(all) + "\r\n" + body + rest == BlockText(all) + "\r\n" + s;
    assert s[..|body|] == body && s[|body|..] == rest;
  }

  /** A field of another name makes no difference wherever it stands. */
  lemma OtherFieldIsSkipped(a: seq<Field>, f: Field, b: seq<Field>, s: string)
    requires AreFields(a) && IsField(f) && AreFields(b) && !GivesLength(f)
    ensures FrameAt(BlockText(a + [f] + b) + "\r\n" + s) == FrameAt(BlockText(a + b) + "\r\n" + s)
  {
    hide FrameAt, BlockText, GivesLength, LengthOf;
    FrameOfBlock(a + [f] + b, s);
    FrameOfBlock(a + b, s);
    WithoutField(a, f, b);
  }

  lemma {:induction false} WithoutField(a: seq<Field>, f: Field, b: seq<Field>)
    requires !GivesLength(f)
    ensures LengthsAreNumbers(a + [f] + b) <==> LengthsAreNumbers(a + b)
    ensures LengthsAreNumbers(a + b) ==> LastLength(a + [f] + b, -1) == LastLength(a + b, -1)
    decreases |b|
  {
    hide GivesLength, LengthOf;
    var l, m := a + [f] + b, a + b;
    if b == [] {
      assert l == a + [f] && m == a && l[..|a|] == a;
      assert forall i :: 0 <= i < |a| ==> l[i] == a[i];
    } else {
      var n := |b| - 1;
      WithoutField(a, f, b[..n]);
      assert l[..|l| - 1] == a + [f] + b[..n] && l[|l| - 1] == b[n];
      assert m[..|m| - 1] == a + b[..n] && m[|m| - 1] == b[n];
      NumbersOfLast(l);
      NumbersOfLast(m);
    }
  }

  lemma NumbersOfLast(fields: seq<Field>)
    requires fields != []
    ensures var n := |fields| - 1;
            LengthsAreNumbers(fields) <==>
              (GivesLength(fields[n]) ==> LengthOf(fields[n]).Some?) && LengthsAreNumbers(fields[..n])
  {
    hide GivesLength, LengthOf;
  }
}
