/**
 The record capper of internal/telemetry/jsonl_record.go: one telemetry event
 becomes one line of JSON of at most `maxBytes` bytes.
 */
module Record {
  import opened Unicode
  import opened Framing

  type Int64 = n: int | -0x8000_0000_0000_0000 <= n < 0x8000_0000_0000_0000
  type Uint64 = n: nat | n < 0x1_0000_0000_0000_0000

  predicate OneLine(s: string) {
    forall i :: 0 <= i < |s| ==> s[i] != '\n'
  }

  /** Compact JSON text, which json.Marshal never breaks over lines. */
  type Json = s: string | OneLine(s) witness ""

  predicate IsHex(c: char) {
    '0' <= c <= '9' || 'a' <= c <= 'f'
  }

  predicate IsDigest(s: string) {
    |s| == 64 && forall i :: 0 <= i < |s| ==> IsHex(s[i])
  }

  /** A SHA-256 sum in hexadecimal. */
  type Digest = s: string | IsDigest(s) witness seq(64, _ => '0')

  datatype Extra = NoExtra | Object(text: Json)

  datatype Event = Event(
    ts: string,
    session: string,
    mode: string,
    tool: string,
    duration: Int64,
    resultSize: Int64,
    truncated: bool,
    stale: bool,
    generation: Uint64,
    err: string,
    extra: Extra)

  /** What the snapshot of the Extra map amounts to for the encoder: it encodes,
      or its first failure carries a message. */
  datatype Snapshot = Encodable(extra: Extra) | Unencodable(message: string)

  // ------------------------------------------------------------ JSON encoding

  function HexDigit(d: nat): char
    requires d < 16
  {
    if d < 10 then ('0' as int + d) as char else ('a' as int + d - 10) as char
  }

  /** How one decoded rune of a JSON string literal is written, with the escaping
      of `<`, `>` and `&` that json.Marshal applies. */
  function EscapeRune(s: string, r: Rune): string
    requires s != "" && r == DecodeRune(s)
  {
    if r.code < 0x80 then
      if s[0] == '\"' then "\\\""
      else if s[0] == '\\' then "\\\\"
      else if r.code == 0x08 then "\\b"
      else if r.code == 0x0C then "\\f"
      else if s[0] == '\n' then "\\n"
      else if s[0] == '\r' then "\\r"
      else if s[0] == '\t' then "\\t"
      else if r.code < 0x20 || s[0] == '<' || s[0] == '>' || s[0] == '&' then
        "\\u00" + [HexDigit(r.code / 16), HexDigit(r.code % 16)]
      else s[..1]
    else if r.code == RUNE_ERROR && r.size == 1 then "\\ufffd"
    else if r.code == 0x2028 then "\\u2028"
    else if r.code == 0x2029 then "\\u2029"
    else s[..r.size]
  }

  function Escape(s: string): string
    decreases |s|
  {
    if s == "" then "" else
      var r := DecodeRune(s);
      EscapeRune(s, r) + Escape(s[r.size..])
  }

  function Quoted(s: string): string {
    "\"" + Escape(s) + "\""
  }

  function Number(n: int): string {
    if n < 0 then "-" + Decimal(-n) else Decimal(n)
  }

  function Boolean(b: bool): string {
    if b then "true" else "false"
  }

  function Durations(e: Event): string {
    ",\"duration_ms\":" + Number(e.duration) + ",\"result_size\":" + Number(e.resultSize)
  }

  function Flags(e: Event): string {
    ",\"truncated\":" + Boolean(e.truncated) + ",\"stale\":" + Boolean(e.stale)
  }

  function Numbers(e: Event): string {
    Durations(e) + Flags(e) + (",\"generation\":" + Number(e.generation))
  }

  function Texts(e: Event): string {
    "{\"ts\":" + Quoted(e.ts) + ",\"session_id\":" + Quoted(e.session)
    + ",\"graph_mode\":" + Quoted(e.mode) + ",\"tool\":" + Quoted(e.tool)
  }

  function Tail(e: Event): string {
    (if e.err == "" then "" else ",\"err\":" + Quoted(e.err))
    + (if e.extra.NoExtra? then "" else ",\"extra\":" + e.extra.text)
    + "}"
  }

  /** marshalLine: the event as one line of JSON. */
  function Line(e: Event): string {
    Texts(e) + Numbers(e) + Tail(e) + "\n"
  }

  // ------------------------------------------------------------ size of a line

  lemma EscapeRuneSize(s: string, r: Rune)
    requires s != "" && r == DecodeRune(s)
    ensures |EscapeRune(s, r)| <= 6 * r.size && OneLine(EscapeRune(s, r))
  {
    hide Announced, WellFormed;
    if r.size > 1 {
      assert WellFormed(s, r.size);
      RuneBytesAreHigh(s, r.size);
    }
  }

  /** Escaping costs at most six bytes for each byte, and leaves no line break. */
  lemma {:induction false} EscapeSize(s: string)
    ensures |Escape(s)| <= 6 * |s| && OneLine(Escape(s))
    decreases |s|
  {
    hide EscapeRune, DecodeRune;
    if s != "" {
      var r := DecodeRune(s);
      EscapeRuneSize(s, r);
      EscapeSize(s[r.size..]);
    }
  }

  /** Hexadecimal digits are written as they are. */
  lemma {:induction false} EscapeOfHex(s: string)
    requires forall i :: 0 <= i < |s| ==> IsHex(s[i])
    ensures Escape(s) == s
    decreases |s|
  {
    hide WellFormed, Announced;
    if s != "" {
      assert IsHex(s[0]);
      assert DecodeRune(s) == Rune(s[0] as int, 1);
      EscapeOfHex(s[1..]);
    }
  }

  function Pow10(k: nat): nat {
    if k == 0 then 1 else 10 * Pow10(k - 1)
  }

  lemma {:induction false} DecimalSize(n: nat, k: nat)
    requires k > 0 && n < Pow10(k)
    ensures |Decimal(n)| <= k
  {
    if n >= 10 {
      DecimalSize(n / 10, k - 1);
    }
  }

  lemma DecimalOneLine(n: nat)
    ensures OneLine(Decimal(n))
  {
    forall i | 0 <= i < |Decimal(n)|
      ensures Decimal(n)[i] != '\n'
    {
      assert IsDigit(Decimal(n)[i]);
    }
  }

  lemma Pow10Is20()
    ensures Pow10(20) == 100000000000000000000 && Pow10(19) == 10000000000000000000
  {
    assert Pow10(4) == 10000;
    assert Pow10(8) == 10000 * Pow10(4);
    assert Pow10(12) == 10000 * Pow10(8);
    assert Pow10(16) == 10000 * Pow10(12);
  }

  lemma NumberSize(n: int)
    requires -0x8000_0000_0000_0000 <= n < 0x1_0000_0000_0000_0000
    ensures |Number(n)| <= 20 && OneLine(Number(n))
  {
    hide Decimal, Pow10;
    Pow10Is20();
    if n < 0 {
      DecimalSize(-n, 19);
      DecimalOneLine(-n);
    } else {
      DecimalSize(n, 20);
      DecimalOneLine(n);
    }
  }

  lemma OneLineAppend(a: string, b: string)
    requires OneLine(a) && OneLine(b)
    ensures OneLine(a + b)
  {
  }

  lemma DurationsSize(e: Event)
    ensures |Durations(e)| <= 70 && OneLine(Durations(e))
  {
    NumberSize(e.duration);
    NumberSize(e.resultSize);
    hide Number;
  }

  lemma FlagsSize(e: Event)
    ensures |Flags(e)| <= 32 && OneLine(Flags(e))
  {
  }

  lemma NumbersSize(e: Event)
    ensures |Numbers(e)| <= 136 && OneLine(Numbers(e))
  {
    NumberSize(e.generation);
    hide Number;
    OneLineAppend(",\"generation\":", Number(e.generation));
    hide Durations, Flags, OneLine;
    DurationsSize(e);
    FlagsSize(e);
    OneLineAppend(Durations(e), Flags(e));
    OneLineAppend(Durations(e) + Flags(e), ",\"generation\":" + Number(e.generation));
  }

  /** The bytes the five string fields take. */
  function TextSize(e: Event): nat {
    |Escape(e.ts)| + |Escape(e.session)| + |Escape(e.mode)| + |Escape(e.tool)| + |Escape(e.err)|
  }

  /** Without optional metadata a line is the strings and at most 197 bytes more. */
  lemma LineSize(e: Event)
    requires e.extra.NoExtra?
    ensures |Line(e)| <= 197 + TextSize(e)
  {
    hide Escape, Numbers;
    NumbersSize(e);
    assert Escape("") == "" by { EscapeSize(""); }
  }

  /** A record is exactly one line: a line break ends it and there is no other. */
  lemma LineIsOneLine(e: Event)
    ensures |Line(e)| > 0 && Line(e)[|Line(e)| - 1] == '\n' && OneLine(Line(e)[..|Line(e)| - 1])
  {
    EscapeSize(e.ts);
    EscapeSize(e.session);
    EscapeSize(e.mode);
    EscapeSize(e.tool);
    EscapeSize(e.err);
    NumbersSize(e);
    hide Escape, Numbers;
    assert OneLine(Texts(e));
    assert OneLine(Tail(e));
    assert Line(e)[..|Line(e)| - 1] == Texts(e) + Numbers(e) + Tail(e);
  }

  // ----------------------------------------------------------- bounded strings

  /** utf8.ValidString. */
  predicate ValidUtf8(s: string)
    decreases |s|
  {
    s == "" || (var r := DecodeRune(s); (r.code != RUNE_ERROR || r.size > 1) && ValidUtf8(s[r.size..]))
  }

  /** The longest prefix that is valid UTF-8. */
  function LongestValid(s: string): (p: string)
    ensures ValidUtf8(p) && p <= s
    ensures forall n :: |p| < n <= |s| ==> !ValidUtf8(s[..n])
  {
    if ValidUtf8(s) then
      assert s[..|s|] == s;
      s
    else
      var t := s[..|s| - 1];
      assert forall n :: 0 <= n <= |t| ==> t[..n] == s[..n];
      assert s[..|s|] == s;
      LongestValid(t)
  }

  /** The three bytes of U+2026 and a label. */
  const ELLIPSIS: string := [0xE2 as char, 0x80 as char, 0xA6 as char] + "sha256:"

  const SUFFIX_SIZE := 74

  function Min(a: int, b: int): int { if a < b then a else b }

  function Max(a: int, b: int): int { if a < b then b else a }

  function Bounded(value: string, limit: nat, digest: string -> Digest): string {
    if |value| <= limit then value
    else if limit <= SUFFIX_SIZE then digest(value)[..Min(64, Max(1, limit))]
    else LongestValid(value[..limit - SUFFIX_SIZE]) + ELLIPSIS + digest(value)
  }

  /** boundedString with its loop that trims the prefix. */
  method BoundedString(value: string, limit: nat, digest: string -> Digest) returns (r: string)
    ensures r == Bounded(value, limit, digest)
  {
    if |value| <= limit {
      return value;
    }
    var suffix := ELLIPSIS + digest(value);
    if limit <= |suffix| {
      return digest(value)[..Min(64, Max(1, limit))];
    }
    var prefix := value[..limit - |suffix|];
    ghost var start := prefix;
    while !ValidUtf8(prefix)
      invariant prefix <= start && LongestValid(prefix) == LongestValid(start)
      decreases |prefix|
    {
      prefix := prefix[..|prefix| - 1];
    }
    r := prefix + suffix;
    assert prefix + suffix == prefix + ELLIPSIS + digest(value);
  }

  /** A valid first rune does not change when more follows. */
  lemma FirstRuneStays(s: string, t: string)
    requires s != "" && (DecodeRune(s).code != RUNE_ERROR || DecodeRune(s).size > 1)
    ensures DecodeRune(s + t) == DecodeRune(s)
  {
    DecodeIsLocal(s, t);
  }

  /** One unfolding of the definition. */
  lemma ValidOf(s: string)
    requires s != ""
    ensures ValidUtf8(s) <==>
              var r := DecodeRune(s); (r.code != RUNE_ERROR || r.size > 1) && ValidUtf8(s[r.size..])
  {
    hide DecodeRune, WellFormed;
  }

  lemma {:induction false} ValidAppend(s: string, t: string)
    requires ValidUtf8(s) && ValidUtf8(t)
    ensures ValidUtf8(s + t)
    decreases |s|
  {
    hide DecodeRune, WellFormed, ValidUtf8;
    if s == "" {
      assert s + t == t;
    } else {
      var r := DecodeRune(s);
      ValidOf(s);
      ValidAppend(s[r.size..], t);
      FirstRuneStays(s, t);
      assert (s + t)[r.size..] == s[r.size..] + t;
      ValidOf(s + t);
    }
  }

  lemma {:induction false} AsciiIsValid(s: string)
    requires forall i :: 0 <= i < |s| ==> s[i] as int < 0x80
    ensures ValidUtf8(s)
    decreases |s|
  {
    if s != "" {
      hide WellFormed, Announced;
      assert DecodeRune(s) == Rune(s[0] as int, 1);
      AsciiIsValid(s[1..]);
    }
  }

  lemma DigestSlice(d: Digest, n: nat)
    requires n <= 64
    ensures forall i :: 0 <= i < n ==> IsHex(d[..n][i]) && d[..n][i] as int < 0x80
  {
  }

  lemma EllipsisIsValid(d: Digest)
    ensures |ELLIPSIS + d| == SUFFIX_SIZE && ValidUtf8(ELLIPSIS + d)
  {
    var t := ELLIPSIS + d;
    assert t[0] == 0xE2 as char && t[1] == 0x80 as char && t[2] == 0xA6 as char;
    assert DecodeRune(t).size == 3;
    assert t[3..] == "sha256:" + d;
    DigestSlice(d, 64);
    assert d[..64] == d;
    AsciiIsValid(t[3..]);
  }

  lemma BoundedSmall(value: string, limit: nat, digest: string -> Digest)
    requires 0 < limit < |value| && limit <= SUFFIX_SIZE
    ensures |Bounded(value, limit, digest)| <= limit && ValidUtf8(Bounded(value, limit, digest))
  {
    DigestSlice(digest(value), Min(64, limit));
    AsciiIsValid(Bounded(value, limit, digest));
  }

  /** A digest with its label, behind a valid prefix. */
  lemma Labelled(p: string, d: Digest)
    requires ValidUtf8(p)
    ensures |p + ELLIPSIS + d| == |p| + SUFFIX_SIZE && ValidUtf8(p + ELLIPSIS + d)
  {
    hide ValidUtf8, IsDigest;
    EllipsisIsValid(d);
    ValidAppend(p, ELLIPSIS + d);
    assert p + (ELLIPSIS + d) == p + ELLIPSIS + d;
  }

  lemma BoundedLarge(value: string, limit: nat, digest: string -> Digest)
    requires SUFFIX_SIZE < limit < |value|
    ensures |Bounded(value, limit, digest)| <= limit && ValidUtf8(Bounded(value, limit, digest))
    ensures LongestValid(value[..limit - SUFFIX_SIZE]) <= value
  {
    var cut := value[..limit - SUFFIX_SIZE];
    var p := LongestValid(cut);
    assert |p| <= |cut| && p <= value;
    hide LongestValid, ValidUtf8, IsDigest;
    Labelled(p, digest(value));
  }

  /** A bounded string is within its limit, is the original exactly when that
      fits, and is valid UTF-8 when it is not the original. */
  lemma BoundedMeaning(value: string, limit: nat, digest: string -> Digest)
    requires limit > 0
    ensures |Bounded(value, limit, digest)| <= limit
    ensures Bounded(value, limit, digest) == value <==> |value| <= limit
    ensures |value| > limit ==> ValidUtf8(Bounded(value, limit, digest))
    ensures |value| > limit > SUFFIX_SIZE ==>
              var p := LongestValid(value[..limit - SUFFIX_SIZE]);
              p <= value && Bounded(value, limit, digest) == p + ELLIPSIS + digest(value)
  {
    hide LongestValid, ValidUtf8, IsDigest;
    if |value| > limit {
      if limit <= SUFFIX_SIZE {
        BoundedSmall(value, limit, digest);
      } else {
        BoundedLarge(value, limit, digest);
      }
    }
  }

  /** At ten bytes and below, escaping cannot make a field exceed 60 bytes. */
  lemma SmallField(value: string, limit: nat, digest: string -> Digest)
    requires limit <= 10
    ensures |Escape(Bounded(value, limit, digest))| <= 60
  {
    var b := Bounded(value, limit, digest);
    if |value| <= limit {
      EscapeSize(value);
    } else {
      DigestSlice(digest(value), Max(1, limit));
      EscapeOfHex(b);
    }
  }

  // ---------------------------------------------------------------- the capper

  /** The string fields in the order in which they are shortened. */
  function Fields(e: Event): seq<string> {
    [e.session, e.tool, e.mode, e.ts, e.err]
  }

  function WithFields(e: Event, f: seq<string>): Event
    requires |f| == 5
  {
    e.(session := f[0], tool := f[1], mode := f[2], ts := f[3], err := f[4])
  }

  /** Every field bounded, each from its original. */
  function Shortened(originals: seq<string>, limits: seq<nat>, digest: string -> Digest): (f: seq<string>)
    requires |originals| == |limits| == 5
    ensures |f| == 5
  {
    [Bounded(originals[0], limits[0], digest), Bounded(originals[1], limits[1], digest),
     Bounded(originals[2], limits[2], digest), Bounded(originals[3], limits[3], digest),
     Bounded(originals[4], limits[4], digest)]
  }

  function Total(limits: seq<nat>): nat
    requires |limits| == 5
  {
    limits[0] + limits[1] + limits[2] + limits[3] + limits[4]
  }

  lemma ErrorIsOneLine(message: string, digest: string -> Digest)
    ensures OneLine(ErrorText(message, digest))
  {
    var text := Bounded(message, 256, digest);
    EscapeSize(text);
    hide Bounded, Escape;
    assert OneLine("{\"telemetry_encode_error\":");
    assert OneLine("\"" + Escape(text));
    OneLineAppend("\"" + Escape(text), "\"");
    OneLineAppend("{\"telemetry_encode_error\":", Quoted(text));
    OneLineAppend("{\"telemetry_encode_error\":" + Quoted(text), "}");
  }

  function ErrorText(message: string, digest: string -> Digest): string {
    "{\"telemetry_encode_error\":" + Quoted(Bounded(message, 256, digest)) + "}"
  }

  function EncodeError(message: string, digest: string -> Digest): Extra {
    ErrorIsOneLine(message, digest);
    Object(ErrorText(message, digest))
  }

  function OversizeMark(size: nat): Extra {
    DecimalOneLine(size);
    Object("{\"telemetry_original_size\":" + Decimal(size) + ",\"telemetry_oversize\":true}")
  }

  /** The event with its metadata, or with the reason why that cannot be encoded. */
  function Full(e: Event, snapshot: Snapshot, digest: string -> Digest): Event {
    match snapshot
    case Encodable(extra) => e.(extra := extra)
    case Unencodable(message) => e.(extra := EncodeError(message, digest))
  }

  /** An event as it is logged once its strings are bounded by `limits`. */
  function Capped(e: Event, limits: seq<nat>, digest: string -> Digest): Event
    requires |limits| == 5
  {
    WithFields(e, Shortened(Fields(e), limits, digest))
  }

  /** Once every limit is ten bytes or less the record fits the smallest cap. */
  lemma SmallLimitsFit(e: Event, limits: seq<nat>, digest: string -> Digest)
    requires |limits| == 5 && e.extra.NoExtra? && forall i :: 0 <= i < 5 ==> limits[i] <= 10
    ensures |Line(Capped(e, limits, digest))| <= 512
  {
    var f := Fields(e);
    SmallField(f[0], limits[0], digest);
    SmallField(f[1], limits[1], digest);
    SmallField(f[2], limits[2], digest);
    SmallField(f[3], limits[3], digest);
    SmallField(f[4], limits[4], digest);
    hide Bounded, Escape, Line;
    LineSize(Capped(e, limits, digest));
  }

  lemma ShortenedUpdate(originals: seq<string>, limits: seq<nat>, digest: string -> Digest, i: nat, n: nat)
    requires |originals| == |limits| == 5 && i < 5
    ensures Shortened(originals, limits[i := n], digest)
         == Shortened(originals, limits, digest)[i := Bounded(originals[i], n, digest)]
  {
    hide Bounded;
  }

  function Halved(floor: nat, limit: nat): (h: nat)
    ensures h <= limit <= 2 * h + 1
    ensures limit > floor ==> h >= floor && (h == floor || 2 * h <= limit)
  {
    if limit > floor then Max(floor, limit / 2) else limit
  }

  /** Every limit above `floor` halved, not below it. */
  function HalvedAll(floor: nat, limits: seq<nat>): (h: seq<nat>)
    requires |limits| == 5 && floor > 0
    ensures |h| == 5 && (h != limits ==> Total(h) < Total(limits))
    ensures forall i :: 0 <= i < 5 ==> h[i] <= limits[i]
  {
    [Halved(floor, limits[0]), Halved(floor, limits[1]), Halved(floor, limits[2]),
     Halved(floor, limits[3]), Halved(floor, limits[4])]
  }

  predicate FitsWith(ev: Event, limits: seq<nat>, maxBytes: nat, digest: string -> Digest)
    requires |limits| == 5
  {
    |Line(Capped(ev, limits, digest))| <= maxBytes
  }

  /** The first limits on the way down to `floor` with which the event fits. */
  function Settle(floor: nat, ev: Event, limits: seq<nat>, maxBytes: nat, digest: string -> Digest): (r: seq<nat>)
    requires |limits| == 5 && floor > 0
    ensures |r| == 5 && forall i :: 0 <= i < 5 ==> r[i] <= limits[i]
    ensures FitsWith(ev, r, maxBytes, digest) || HalvedAll(floor, r) == r
    decreases Total(limits)
  {
    var h := HalvedAll(floor, limits);
    if FitsWith(ev, limits, maxBytes, digest) || h == limits then limits
    else Settle(floor, ev, h, maxBytes, digest)
  }

  /** Limits of 96 bytes or more if those suffice, with the metadata; smaller ones
      without it otherwise. */
  function Shrunk(ev: Event, limits: seq<nat>, maxBytes: nat, digest: string -> Digest): Event
    requires |limits| == 5
  {
    var first := Settle(96, ev, limits, maxBytes, digest);
    var bare := ev.(extra := NoExtra);
    if FitsWith(ev, first, maxBytes, digest) then Capped(ev, first, digest)
    else Capped(bare, Settle(1, bare, first, maxBytes, digest), digest)
  }

  /** The way down always ends with a line that fits. */
  lemma SettleFits(ev: Event, limits: seq<nat>, maxBytes: nat, digest: string -> Digest)
    requires |limits| == 5 && maxBytes >= 512 && ev.extra.NoExtra?
    ensures FitsWith(ev, Settle(1, ev, limits, maxBytes, digest), maxBytes, digest)
  {
    hide Line, Bounded, Shortened, Settle;
    var last := Settle(1, ev, limits, maxBytes, digest);
    if HalvedAll(1, last) == last {
      assert forall i :: 0 <= i < 5 ==> HalvedAll(1, last)[i] == Halved(1, last[i]);
      SmallLimitsFit(ev, last, digest);
    }
  }

  /** Shortening touches the strings alone, and each is the bounded form of its
      original under a limit no larger than the one it started with. */
  lemma ShrunkKeeps(ev: Event, limits: seq<nat>, maxBytes: nat, digest: string -> Digest)
    returns (l: seq<nat>, extra: Extra)
    requires |limits| == 5
    ensures |l| == 5 && (forall i :: 0 <= i < 5 ==> l[i] <= limits[i])
    ensures extra in {ev.extra, NoExtra}
    ensures Shrunk(ev, limits, maxBytes, digest) == Capped(ev, l, digest).(extra := extra)
    ensures var r := Shrunk(ev, limits, maxBytes, digest);
            && r.duration == ev.duration && r.resultSize == ev.resultSize && r.generation == ev.generation
            && r.truncated == ev.truncated && r.stale == ev.stale
  {
    hide Line, Bounded, Shortened;
    var first := Settle(96, ev, limits, maxBytes, digest);
    var bare := ev.(extra := NoExtra);
    if FitsWith(ev, first, maxBytes, digest) {
      l, extra := first, ev.extra;
    } else {
      l, extra := Settle(1, bare, first, maxBytes, digest), NoExtra;
    }
  }

  /** One pass over the fields: every limit above `floor` is halved and its field
      computed again from the original. */
  method HalveOnce(floor: nat, originals: seq<string>, limits0: seq<nat>, fields0: seq<string>,
      digest: string -> Digest)
    returns (limits: seq<nat>, fields: seq<string>, changed: bool)
    requires floor > 0 && |originals| == |limits0| == 5 && fields0 == Shortened(originals, limits0, digest)
    ensures limits == HalvedAll(floor, limits0) && fields == Shortened(originals, limits, digest)
    ensures changed <==> limits != limits0
  {
    hide Shortened, Bounded;
    limits, fields, changed := limits0, fields0, false;
    var i := 0;
    while i < 5
      invariant 0 <= i <= 5 && |limits| == 5
      invariant fields == Shortened(originals, limits, digest)
      invariant forall j :: 0 <= j < i ==> limits[j] == Halved(floor, limits0[j])
      invariant forall j :: i <= j < 5 ==> limits[j] == limits0[j]
      invariant if changed then exists j :: 0 <= j < i && limits[j] != limits0[j] else limits == limits0
    {
      if limits[i] > floor {
        var smaller := Max(floor, limits[i] / 2);
        ShortenedUpdate(originals, limits, digest, i, smaller);
        limits := limits[i := smaller];
        var field := BoundedString(originals[i], limits[i], digest);
        fields := fields[i := field];
        changed := true;
        assert limits[i] != limits0[i];
      }
      i := i + 1;
    }
  }

  /** The first loop: down to 96 bytes for each field. */
  method ShrinkMarked(ev: Event, limits: seq<nat>, maxBytes: nat, digest: string -> Digest)
      returns (caps: seq<nat>, fields: seq<string>, line: string)
    requires |limits| == 5
    ensures caps == Settle(96, ev, limits, maxBytes, digest)
    ensures fields == Shortened(Fields(ev), caps, digest) && line == Line(WithFields(ev, fields))
  {
    hide Line, Shortened, HalvedAll, Bounded;
    caps := limits;
    fields := Shortened(Fields(ev), caps, digest);
    line := Line(WithFields(ev, fields));
    var changed := true;
    while |line| > maxBytes && changed
      invariant |caps| == 5 && fields == Shortened(Fields(ev), caps, digest)
      invariant line == Line(WithFields(ev, fields))
      invariant Settle(96, ev, caps, maxBytes, digest) == Settle(96, ev, limits, maxBytes, digest)
      invariant !changed ==> HalvedAll(96, caps) == caps
      decreases Total(caps), changed
    {
      caps, fields, changed := HalveOnce(96, Fields(ev), caps, fields, digest);
      line := Line(WithFields(ev, fields));
    }
  }

  /** The second loop, without metadata: as far down as it takes. */
  method ShrinkBare(ev: Event, limits: seq<nat>, fields0: seq<string>, maxBytes: nat, digest: string -> Digest)
      returns (line: string)
    requires |limits| == 5 && fields0 == Shortened(Fields(ev), limits, digest)
    requires ev.extra.NoExtra? && maxBytes >= 512
    ensures line == Line(Capped(ev, Settle(1, ev, limits, maxBytes, digest), digest)) && |line| <= maxBytes
  {
    hide Line, Shortened, HalvedAll, Bounded;
    SettleFits(ev, limits, maxBytes, digest);
    var caps, fields := limits, fields0;
    line := Line(WithFields(ev, fields));
    while |line| > maxBytes
      invariant |caps| == 5 && fields == Shortened(Fields(ev), caps, digest)
      invariant line == Line(WithFields(ev, fields))
      invariant Settle(1, ev, caps, maxBytes, digest) == Settle(1, ev, limits, maxBytes, digest)
      decreases Total(caps)
    {
      var changed;
      caps, fields, changed := HalveOnce(1, Fields(ev), caps, fields, digest);
      line := Line(WithFields(ev, fields));
    }
  }

  method Shrink(ev: Event, limits: seq<nat>, maxBytes: nat, digest: string -> Digest) returns (line: string)
    requires maxBytes >= 512 && |limits| == 5
    ensures line == Line(Shrunk(ev, limits, maxBytes, digest)) && |line| <= maxBytes
  {
    var caps, fields;
    caps, fields, line := ShrinkMarked(ev, limits, maxBytes, digest);
    hide Line, Shortened, HalvedAll, Settle;
    if |line| > maxBytes {
      line := ShrinkBare(ev.(extra := NoExtra), caps, fields, maxBytes, digest);
    }
  }

  lemma FullKeeps(ev: Event, snapshot: Snapshot, digest: string -> Digest)
    ensures forall x :: Full(ev, snapshot, digest).(extra := x) == ev.(extra := x)
  {
  }

  /** What is kept of an oversize event: metadata goes first, then error text,
      then the other strings. */
  function Kept(ev: Event, size: nat, maxBytes: nat, digest: string -> Digest): Event {
    var marked := ev.(extra := OversizeMark(size));
    var short := marked.(err := Bounded(ev.err, maxBytes / 4, digest));
    if |Line(marked)| <= maxBytes then marked
    else if |Line(short)| <= maxBytes then short
    else Shrunk(marked, [|ev.session|, |ev.tool|, |ev.mode|, |ev.ts|, maxBytes / 4], maxBytes, digest)
  }

  /** encodeJSONLRecord: whatever the event, the line fits. */
  method EncodeRecord(ev: Event, snapshot: Snapshot, maxBytes: nat, digest: string -> Digest)
      returns (line: string, oversize: bool, fallback: bool)
    requires maxBytes >= 512
    ensures |line| <= maxBytes
    ensures fallback <==> snapshot.Unencodable?
    ensures oversize <==> |Line(Full(ev, snapshot, digest))| > maxBytes
    ensures line == if oversize then Line(Kept(ev, |Line(Full(ev, snapshot, digest))|, maxBytes, digest))
                    else Line(Full(ev, snapshot, digest))
  {
    FullKeeps(ev, snapshot, digest);
    hide Line, OversizeMark, Bounded, Full, Shortened, Shrunk;
    fallback := snapshot.Unencodable?;
    var current := Full(ev, snapshot, digest);
    line := Line(current);
    oversize := |line| > maxBytes;
    if !oversize {
      return;
    }
    var marked := current.(extra := OversizeMark(|line|));
    assert marked == ev.(extra := OversizeMark(|line|));
    line := Line(marked);
    if |line| <= maxBytes {
      return;
    }
    var shortErr := BoundedString(ev.err, maxBytes / 4, digest);
    line := Line(marked.(err := shortErr));
    if |line| <= maxBytes {
      return;
    }
    line := Shrink(marked, [|ev.session|, |ev.tool|, |ev.mode|, |ev.ts|, maxBytes / 4], maxBytes, digest);
  }
}
