/**
 What a telemetry line says: reading it as JSON gives back the fields of the event,
 each under its own name.
 */
module RecordReading {
  import opened Wrappers
  import opened Unicode
  import opened Utf8
  import opened Hex
  import opened JsonText
  import opened Record
  import Framing

  // --------------------------------------------------------------------- strings

  /** The first rune as a reader of the line gets it: as it is, or the replacement
      character for an ill-formed byte. */
  function Readable(s: string): string
    requires s != ""
  {
    if IllFormed(s) then Encode(RUNE_ERROR) else s[..DecodeRune(s).size]
  }

  /** The text with every ill-formed byte replaced. */
  function Sanitized(s: string): string
    decreases |s|
  {
    if s == "" then "" else Readable(s) + Sanitized(s[DecodeRune(s).size..])
  }

  /** Valid text is kept as it is. */
  lemma {:induction false} SanitizedIsValid(s: string)
    requires ValidUtf8(s)
    ensures Sanitized(s) == s
    decreases |s|
  {
    if s != "" {
      ValidOf(s);
      hide DecodeRune, ValidUtf8;
      SanitizedIsValid(s[DecodeRune(s).size..]);
    }
  }

  lemma ReadTwo(c: char, piece: string, u: string)
    requires ReadEscape([c] + u) == Some((piece, 1))
    ensures ReadChars(['\\', c] + u) == Prepend(piece, ReadChars(u))
  {
    var t := ['\\', c] + u;
    assert t[1..] == [c] + u && t[2..] == u;
    hide ReadEscape;
  }

  lemma ReadFour(digits: string, code: nat, u: string)
    requires |digits| == 4 && IsScalar(code) && ReadCode(digits + u) == Some(Encode(code))
    ensures ReadChars("\\u" + digits + u) == Prepend(Encode(code), ReadChars(u))
  {
    hide ReadCode, Encode;
    var t := "\\u" + digits + u;
    assert t[1..] == "u" + digits + u;
    assert ("u" + digits + u)[1..] == digits + u;
    assert t[6..] == u;
    assert ReadEscape(t[1..]) == Some((Encode(code), 5));
  }

  lemma ReadCodeOf(digits: string, u: string, code: nat)
    requires |digits| == 4 && IsScalar(code)
    requires IsHexDigit(digits[0]) && IsHexDigit(digits[1]) && IsHexDigit(digits[2]) && IsHexDigit(digits[3])
    requires code == HexValue(digits[0]) * 4096 + HexValue(digits[1]) * 256 + HexValue(digits[2]) * 16
                     + HexValue(digits[3])
    ensures ReadCode(digits + u) == Some(Encode(code))
  {
    hide Encode;
    var t := digits + u;
    assert t[0] == digits[0] && t[1] == digits[1] && t[2] == digits[2] && t[3] == digits[3];
  }

  lemma LowerHex(d: nat)
    requires d < 16
    ensures IsHexDigit(Record.HexDigit(d)) && HexValue(Record.HexDigit(d)) == d
  {
  }

  /** An ASCII character, escaped in one of the three ways. */
  lemma ReadAscii(s: string, u: string)
    requires s != "" && s[0] as int < 0x80
    ensures ReadChars(EscapeRune(s, DecodeRune(s)) + u) == Prepend(s[..1], ReadChars(u))
  {
    var c := s[0];
    var code := c as int;
    assert DecodeRune(s) == Rune(code, 1);
    hide DecodeRune, ReadChars;
    assert s[..1] == [c];
    if c == '\"' || c == '\\' || code == 8 || code == 12 || c == '\n' || c == '\r' || c == '\t' {
      ReadShortEscape(s, u);
    } else if code < 0x20 || c == '<' || c == '>' || c == '&' {
      ReadCodeEscape(s, u);
    } else {
      ReadPlain([c], u);
    }
  }

  lemma ReadShortEscape(s: string, u: string)
    requires s != "" && DecodeRune(s) == Rune(s[0] as int, 1)
    requires s[0] in ['\"', '\\', 8 as char, 12 as char, '\n', '\r', '\t']
    ensures ReadChars(EscapeRune(s, DecodeRune(s)) + u) == Prepend([s[0]], ReadChars(u))
  {
    hide ReadChars, DecodeRune;
    var e := EscapeRune(s, DecodeRune(s));
    assert |e| == 2 && e == ['\\', e[1]];
    assert ([e[1]] + u)[0] == e[1];
    ReadTwo(e[1], [s[0]], u);
  }

  lemma ReadCodeEscape(s: string, u: string)
    requires s != "" && DecodeRune(s) == Rune(s[0] as int, 1)
    requires s[0] !in ['\"', '\\', 8 as char, 12 as char, '\n', '\r', '\t']
    requires s[0] as int < 0x20 || s[0] == '<' || s[0] == '>' || s[0] == '&'
    ensures ReadChars(EscapeRune(s, DecodeRune(s)) + u) == Prepend([s[0]], ReadChars(u))
  {
    hide ReadChars, DecodeRune;
    var code := s[0] as int;
    LowerHex(code / 16);
    LowerHex(code % 16);
    var digits := "00" + [Record.HexDigit(code / 16), Record.HexDigit(code % 16)];
    assert EscapeRune(s, DecodeRune(s)) == "\\u" + digits;
    ReadCodeOf(digits, u, code);
    ReadFour(digits, code, u);
    assert Encode(code) == [s[0]];
  }

  /** A character outside ASCII. */
  lemma ReadHigh(s: string, u: string)
    requires s != "" && s[0] as int >= 0x80
    ensures ReadChars(EscapeRune(s, DecodeRune(s)) + u) == Prepend(Readable(s), ReadChars(u))
  {
    var r := DecodeRune(s);
    assert r.code >= 0x80 by { HighIsHigh(s); }
    var e := EscapeRune(s, r);
    if IllFormed(s) {
      hide DecodeRune, ReadChars;
      assert e == "\\u" + "fffd";
      ReadCodeOf("fffd", u, RUNE_ERROR);
      ReadFour("fffd", RUNE_ERROR, u);
    } else {
      EncodeDecoded(s);
      hide DecodeRune, ReadChars, Encode;
      if r.code == 0x2028 {
        assert e == "\\u" + "2028";
        ReadCodeOf("2028", u, 0x2028);
        ReadFour("2028", 0x2028, u);
      } else if r.code == 0x2029 {
        assert e == "\\u" + "2029";
        ReadCodeOf("2029", u, 0x2029);
        ReadFour("2029", 0x2029, u);
      } else {
        HighIsPlain(s);
        ReadPlain(s[..r.size], u);
      }
    }
  }

  lemma HighIsHigh(s: string)
    requires s != "" && s[0] as int >= 0x80
    ensures DecodeRune(s).code >= 0x80
  {
    hide WellFormed, Announced;
  }

  lemma HighIsPlain(s: string)
    requires s != "" && s[0] as int >= 0x80
    ensures IsPlain(s[..DecodeRune(s).size])
  {
    var r := DecodeRune(s);
    if r.size > 1 {
      RuneBytesAreHigh(s, r.size);
    }
  }

  lemma ReadRune(s: string, u: string)
    requires s != ""
    ensures ReadChars(EscapeRune(s, DecodeRune(s)) + u) == Prepend(Readable(s), ReadChars(u))
  {
    hide ReadChars, EscapeRune;
    if s[0] as int < 0x80 {
      ReadAscii(s, u);
      assert DecodeRune(s) == Rune(s[0] as int, 1);
    } else {
      ReadHigh(s, u);
    }
  }

  lemma {:induction false} ReadEscaped(s: string, u: string)
    ensures ReadChars(Escape(s) + "\"" + u) == Some((Sanitized(s), u))
    decreases |s|
  {
    hide DecodeRune, EscapeRune, Readable;
    if s == "" {
      assert Escape(s) + "\"" + u == "\"" + u;
      assert ("\"" + u)[1..] == u;
    } else {
      hide ReadChars;
      var r := DecodeRune(s);
      var rest := Escape(s[r.size..]) + "\"" + u;
      ReadEscaped(s[r.size..], u);
      assert Escape(s) + "\"" + u == EscapeRune(s, r) + rest;
      ReadRune(s, rest);
    }
  }

  /** A quoted text reads back, with ill-formed bytes replaced, whatever follows it. */
  lemma ReadQuoted(s: string, u: string)
    ensures ReadString(Quoted(s) + u) == Some((Sanitized(s), u))
    ensures ValidUtf8(s) ==> Sanitized(s) == s
  {
    hide ReadChars, Escape, Sanitized, ValidUtf8;
    assert (Quoted(s) + u)[1..] == Escape(s) + "\"" + u;
    ReadEscaped(s, u);
    if ValidUtf8(s) {
      SanitizedIsValid(s);
    }
  }

  /** Nothing that a browser could take for markup, and no control character. */
  predicate IsHarmless(s: string) {
    forall i :: 0 <= i < |s| ==> s[i] != '<' && s[i] != '>' && s[i] != '&' && s[i] as int >= 0x20
  }

  lemma RuneIsHarmless(s: string)
    requires s != ""
    ensures IsHarmless(EscapeRune(s, DecodeRune(s)))
  {
    hide Announced, WellFormed;
    var r := DecodeRune(s);
    if r.size > 1 {
      assert WellFormed(s, r.size);
      RuneBytesAreHigh(s, r.size);
    }
  }

  /** Escaped text is free of markup and of control characters. */
  lemma {:induction false} EscapeIsHarmless(s: string)
    ensures IsHarmless(Escape(s))
    decreases |s|
  {
    hide DecodeRune, EscapeRune;
    if s != "" {
      RuneIsHarmless(s);
      EscapeIsHarmless(s[DecodeRune(s).size..]);
    }
  }

  // ---------------------------------------------------------------------- values

  lemma QuotedReads(s: string)
    ensures ReadsAs(Quoted(s), Text(Sanitized(s)))
  {
    hide ReadString, Escape, Sanitized;
    forall u | u != "" && EndsValue(u[0])
      ensures ReadValue(Quoted(s) + u) == Some((Text(Sanitized(s)), u))
    {
      ReadQuoted(s, u);
      assert (Quoted(s) + u)[0] == '\"';
    }
  }

  lemma NumberReads(n: int)
    ensures ReadsAs(Record.Number(n), JsonText.Number(n))
  {
    var digits := Framing.Decimal(if n < 0 then -n else n);
    Framing.DecimalValue(if n < 0 then -n else n);
    var text := Record.Number(n);
    hide Framing.Decimal, Framing.DigitsValue, ReadsAs;
    assert Framing.IsDigit(digits[0]);
    if n < 0 {
      assert text[1..] == digits;
    } else {
      assert text == digits;
    }
    assert text != "true" && text != "false" by {
      assert text[0] == '-' || Framing.IsDigit(text[0]);
    }
    assert forall i :: 0 <= i < |text| ==> text[i] == '-' || Framing.IsDigit(text[i]);
    ScalarReads(text, JsonText.Number(n));
  }

  lemma BooleanReads(b: bool)
    ensures ReadsAs(Boolean(b), Flag(b))
  {
    hide ReadsAs;
    ScalarReads(Boolean(b), Flag(b));
  }

  // ---------------------------------------------------------------------- records

  function TextItem(name: string, s: string): Item {
    Item(name, Quoted(s), Text(Sanitized(s)))
  }

  function NumberItem(name: string, n: int): Item {
    Item(name, Record.Number(n), JsonText.Number(n))
  }

  function FlagItem(name: string, b: bool): Item {
    Item(name, Boolean(b), Flag(b))
  }

  function TextItems(e: Event): seq<Item> {
    [TextItem("ts", e.ts), TextItem("session_id", e.session), TextItem("graph_mode", e.mode),
     TextItem("tool", e.tool)]
  }

  function NumberItems(e: Event): seq<Item> {
    [NumberItem("duration_ms", e.duration), NumberItem("result_size", e.resultSize),
     FlagItem("truncated", e.truncated), FlagItem("stale", e.stale), NumberItem("generation", e.generation)]
  }

  function ErrItems(e: Event): seq<Item> {
    if e.err == "" then [] else [TextItem("err", e.err)]
  }

  function ExtraItems(e: Event): seq<Item> {
    if e.extra.NoExtra? then [] else [Item("extra", e.extra.text, Nested(e.extra.text))]
  }

  function Items(e: Event): seq<Item> {
    TextItems(e) + NumberItems(e) + ErrItems(e) + ExtraItems(e)
  }

  /** What an event says, member by member. */
  function Members(e: Event): seq<Member> {
    [Member("ts", Text(Sanitized(e.ts))), Member("session_id", Text(Sanitized(e.session))),
     Member("graph_mode", Text(Sanitized(e.mode))), Member("tool", Text(Sanitized(e.tool))),
     Member("duration_ms", JsonText.Number(e.duration)), Member("result_size", JsonText.Number(e.resultSize)),
     Member("truncated", Flag(e.truncated)), Member("stale", Flag(e.stale)),
     Member("generation", JsonText.Number(e.generation))]
    + (if e.err == "" then [] else [Member("err", Text(Sanitized(e.err)))])
    + (if e.extra.NoExtra? then [] else [Member("extra", Nested(e.extra.text))])
  }

  /** The metadata is the text of an object, as encoding a map makes it. */
  predicate ExtraIsObject(e: Event) {
    e.extra.Object? ==> IsObjectText(e.extra.text)
  }

  lemma TextItemsRead(e: Event)
    ensures forall k :: 0 <= k < 4 ==> IsItem(TextItems(e)[k])
  {
    hide ReadsAs, Quoted, Sanitized;
    QuotedReads(e.ts);
    QuotedReads(e.session);
    QuotedReads(e.mode);
    QuotedReads(e.tool);
  }

  lemma NumberItemsRead(e: Event)
    ensures forall k :: 0 <= k < 5 ==> IsItem(NumberItems(e)[k])
  {
    hide ReadsAs, Record.Number, Boolean;
    NumberReads(e.duration);
    NumberReads(e.resultSize);
    BooleanReads(e.truncated);
    BooleanReads(e.stale);
    NumberReads(e.generation);
  }

  lemma OtherItemsRead(e: Event)
    requires ExtraIsObject(e)
    ensures forall k :: 0 <= k < |ErrItems(e)| ==> IsItem(ErrItems(e)[k])
    ensures forall k :: 0 <= k < |ExtraItems(e)| ==> IsItem(ExtraItems(e)[k])
  {
    hide ReadsAs, Quoted, Sanitized, IsObjectText;
    QuotedReads(e.err);
    if e.extra.Object? {
      ObjectReads(e.extra.text);
    }
  }

  lemma ItemsRead(e: Event)
    requires ExtraIsObject(e)
    ensures forall k :: 0 <= k < |Items(e)| ==> IsItem(Items(e)[k])
  {
    hide IsItem, TextItem, NumberItem, FlagItem, ExtraIsObject;
    TextItemsRead(e);
    NumberItemsRead(e);
    OtherItemsRead(e);
    var a, b, c, d := TextItems(e), NumberItems(e), ErrItems(e), ExtraItems(e);
    forall k | 0 <= k < |Items(e)|
      ensures IsItem(Items(e)[k])
    {
      hide TextItems, NumberItems, ErrItems, ExtraItems;
      if k < |a| {
        assert Items(e)[k] == a[k];
      } else if k < |a| + |b| {
        assert Items(e)[k] == b[k - |a|];
      } else if k < |a| + |b| + |c| {
        assert Items(e)[k] == c[k - |a| - |b|];
      } else {
        assert Items(e)[k] == d[k - |a| - |b| - |c|];
      }
    }
  }

  lemma MembersOfItems(e: Event)
    ensures MembersOf(Items(e)) == Members(e)
  {
    hide Quoted, Sanitized, Record.Number, Boolean;
  }

  // ----------------------------------------------------------- the line as items

  /** More items after the first ones. */
  function MoreText(items: seq<Item>): string {
    if items == [] then "" else "," + ItemsText(items)
  }

  lemma MoreItems(a: seq<Item>, b: seq<Item>)
    requires a != []
    ensures ItemsText(a + b) == ItemsText(a) + MoreText(b)
  {
    if b == [] {
      assert a + b == a;
    } else {
      ItemsTextAppend(a, b);
    }
  }

  lemma FirstItem(head: string, i: Item, tag: string)
    requires tag == head + "\"" + i.name + "\"" + ":"
    ensures tag + i.text == head + ItemsText([i])
  {
  }

  lemma NextItem(head: string, items: seq<Item>, i: Item, before: string, tag: string)
    requires items != [] && before == head + ItemsText(items) && tag == ",\"" + i.name + "\"" + ":"
    ensures before + tag + i.text == head + ItemsText(items + [i])
  {
    hide ItemsText;
    MoreItems(items, [i]);
    assert ItemsText([i]) == ItemText(i) by { OneItem(i); }
    assert tag == "," + ("\"" + i.name + "\"" + ":");
    assert tag + i.text == "," + ItemText(i);
  }

  lemma OneItem(i: Item)
    ensures ItemsText([i]) == ItemText(i)
  {
  }

  lemma TextsAreItems(e: Event)
    ensures Texts(e) == "{" + ItemsText(TextItems(e))
  {
    hide Quoted, Sanitized, ItemsText;
    var i := TextItems(e);
    FirstItem("{", i[0], "{\"ts\":");
    var t := "{\"ts\":" + Quoted(e.ts);
    NextItem("{", [i[0]], i[1], t, ",\"session_id\":");
    t := t + ",\"session_id\":" + Quoted(e.session);
    assert [i[0]] + [i[1]] == [i[0], i[1]];
    NextItem("{", [i[0], i[1]], i[2], t, ",\"graph_mode\":");
    t := t + ",\"graph_mode\":" + Quoted(e.mode);
    assert [i[0], i[1]] + [i[2]] == [i[0], i[1], i[2]];
    NextItem("{", [i[0], i[1], i[2]], i[3], t, ",\"tool\":");
    assert [i[0], i[1], i[2]] + [i[3]] == i;
  }

  lemma DurationsAreItems(e: Event)
    ensures Durations(e) == "," + ItemsText(NumberItems(e)[..2])
  {
    hide Record.Number, ItemsText;
    var i := NumberItems(e);
    FirstItem(",", i[0], ",\"duration_ms\":");
    var t := ",\"duration_ms\":" + Record.Number(e.duration);
    NextItem(",", [i[0]], i[1], t, ",\"result_size\":");
    assert [i[0]] + [i[1]] == i[..2];
  }

  lemma FlagsAreItems(e: Event)
    ensures Flags(e) == "," + ItemsText(NumberItems(e)[2..4])
  {
    hide Boolean, ItemsText;
    var i := NumberItems(e);
    FirstItem(",", i[2], ",\"truncated\":");
    var t := ",\"truncated\":" + Boolean(e.truncated);
    NextItem(",", [i[2]], i[3], t, ",\"stale\":");
    assert [i[2]] + [i[3]] == i[2..4];
  }

  lemma NumbersAreItems(e: Event)
    ensures Numbers(e) == "," + ItemsText(NumberItems(e))
  {
    hide ItemsText, Durations, Flags, Record.Number, Boolean;
    var i := NumberItems(e);
    DurationsAreItems(e);
    FlagsAreItems(e);
    FirstItem(",", i[4], ",\"generation\":");
    var g := [i[4]];
    ItemsTextAppend(i[..2], i[2..4]);
    ItemsTextAppend(i[..2] + i[2..4], g);
    assert i[..2] + i[2..4] + g == i;
  }

  lemma ErrIsItem(e: Event)
    ensures MoreText(ErrItems(e)) == if e.err == "" then "" else ",\"err\":" + Quoted(e.err)
  {
    hide Quoted, Sanitized, ItemsText;
    if e.err != "" {
      FirstItem(",", TextItem("err", e.err), ",\"err\":");
    }
  }

  lemma ExtraIsItem(e: Event)
    ensures MoreText(ExtraItems(e)) == if e.extra.NoExtra? then "" else ",\"extra\":" + e.extra.text
  {
    hide ItemsText;
    if e.extra.Object? {
      FirstItem(",", ExtraItems(e)[0], ",\"extra\":");
    }
  }

  lemma TailIsItems(e: Event)
    ensures Tail(e) == MoreText(ErrItems(e)) + MoreText(ExtraItems(e)) + "}"
  {
    hide Quoted, MoreText;
    ErrIsItem(e);
    ExtraIsItem(e);
  }

  lemma LineIsItems(e: Event)
    ensures Line(e) == "{" + ItemsText(Items(e)) + "}" + "\n"
  {
    hide Texts, Numbers, Tail, ItemsText, TextItem, NumberItem, FlagItem;
    TextsAreItems(e);
    NumbersAreItems(e);
    TailIsItems(e);
    var a, b, c, d := TextItems(e), NumberItems(e), ErrItems(e), ExtraItems(e);
    MoreItems(a, b);
    MoreItems(a + b, c);
    MoreItems(a + b + c, d);
  }

  /** A line reads as an object whose members are the event's fields, each under its own
      name, in order and nothing else: strings with ill-formed bytes replaced, numbers
      and flags exactly, an empty error and missing metadata left out. */
  lemma LineReads(e: Event)
    requires ExtraIsObject(e)
    ensures ReadObject(Line(e)) == Some((Members(e), "\n"))
  {
    hide Line, Items, ItemsText, ReadObject, Members, ExtraIsObject, MembersOf;
    LineIsItems(e);
    ItemsRead(e);
    assert Items(e) != [] by { SomeItems(e); }
    ReadWrittenObject(Items(e), "\n");
    MembersOfItems(e);
  }

  lemma SomeItems(e: Event)
    ensures Items(e) != []
  {
  }

  // ------------------------------------------------- metadata the encoder makes

  /** A text that opens and closes nothing, read from outside a string or inside one: it
      has no brace outside its strings, and its last string is closed. */
  predicate Whole(x: string, quoted: bool) {
    if x == "" then !quoted
    else if quoted then
      if x[0] == '\\' then |x| >= 2 && Whole(x[2..], true) else Whole(x[1..], x[0] != '\"')
    else x[0] != '{' && x[0] != '}' && Whole(x[1..], x[0] == '\"')
  }

  /** A scan for the end of an object goes over it. */
  lemma {:induction false} OverWhole(t: string, k: nat, x: string, d: nat, quoted: bool)
    requires k + |x| <= |t| && t[k..k + |x|] == x && Whole(x, quoted)
    ensures ObjectEnd(t, k, d, quoted) == ObjectEnd(t, k + |x|, d, false)
    decreases |x|
  {
    if x != "" {
      assert t[k] == x[0];
      if quoted && x[0] == '\\' {
        assert t[k + 2..k + |x|] == x[2..];
        OverWhole(t, k + 2, x[2..], d, true);
      } else {
        assert t[k + 1..k + |x|] == x[1..];
        OverWhole(t, k + 1, x[1..], d, if quoted then x[0] != '\"' else x[0] == '\"');
      }
    }
  }

  lemma {:induction false} WholeConcat(a: string, b: string, quoted: bool)
    requires Whole(a, quoted) && Whole(b, false)
    ensures Whole(a + b, quoted)
    decreases |a|
  {
    if a == "" {
      assert a + b == b;
    } else {
      assert (a + b)[0] == a[0] && (a + b)[1..] == a[1..] + b;
      if quoted && a[0] == '\\' {
        assert (a + b)[2..] == a[2..] + b;
        WholeConcat(a[2..], b, true);
      } else {
        WholeConcat(a[1..], b, if quoted then a[0] != '\"' else a[0] == '\"');
      }
    }
  }

  /** Digits, letters and separators. */
  lemma {:induction false} ScalarIsWhole(x: string)
    requires forall i :: 0 <= i < |x| ==> x[i] != '\"' && x[i] != '{' && x[i] != '}'
    ensures Whole(x, false)
  {
    if x != "" {
      ScalarIsWhole(x[1..]);
    }
  }

  /** An escaped rune is a backslash with one character, or with a code, or plain. */
  predicate EscapeShape(e: string) {
    || (|e| == 2 && e[0] == '\\')
    || (|e| == 6 && e[0] == '\\' && IsPlain(e[2..]))
    || IsPlain(e)
  }

  lemma EscapeRuneShape(s: string)
    requires s != ""
    ensures EscapeShape(EscapeRune(s, DecodeRune(s)))
  {
    hide Announced, WellFormed;
    var r := DecodeRune(s);
    if r.size > 1 {
      assert WellFormed(s, r.size);
      RuneBytesAreHigh(s, r.size);
    }
  }

  lemma {:induction false} PlainThen(p: string, x: string)
    requires IsPlain(p) && Whole(x, true)
    ensures Whole(p + x, true)
    decreases |p|
  {
    if p == "" {
      assert p + x == x;
    } else {
      assert (p + x)[0] == p[0] && (p + x)[1..] == p[1..] + x;
      PlainThen(p[1..], x);
    }
  }

  lemma ShapeThen(e: string, x: string)
    requires EscapeShape(e) && Whole(x, true)
    ensures Whole(e + x, true)
  {
    if |e| == 2 && e[0] == '\\' {
      assert (e + x)[0] == e[0] && (e + x)[2..] == x;
    } else if |e| == 6 && e[0] == '\\' && IsPlain(e[2..]) {
      assert (e + x)[0] == e[0] && (e + x)[2..] == e[2..] + x;
      PlainThen(e[2..], x);
    } else {
      PlainThen(e, x);
    }
  }

  lemma {:induction false} EscapedIsWhole(s: string)
    ensures Whole(Escape(s) + "\"", true)
    decreases |s|
  {
    hide DecodeRune, EscapeRune, EscapeShape;
    if s == "" {
      assert Escape(s) + "\"" == "\"" && "\""[1..] == "";
    } else {
      var r := DecodeRune(s);
      var rest := Escape(s[r.size..]) + "\"";
      EscapedIsWhole(s[r.size..]);
      EscapeRuneShape(s);
      assert Escape(s) + "\"" == EscapeRune(s, r) + rest;
      hide Whole;
      ShapeThen(EscapeRune(s, r), rest);
    }
  }

  lemma QuotedIsWhole(s: string)
    ensures Whole(Quoted(s), false)
  {
    hide Escape;
    EscapedIsWhole(s);
    assert Quoted(s)[1..] == Escape(s) + "\"";
  }

  lemma NameIsWhole(name: string)
    requires IsPlain(name)
    ensures Whole("\"" + name + "\"", false)
  {
    assert Whole("\"", true) by { assert "\""[1..] == ""; }
    hide IsPlain;
    PlainThen(name, "\"");
    assert ("\"" + name + "\"")[1..] == name + "\"";
  }

  lemma BracesMakeObject(x: string)
    requires Whole(x, false)
    ensures IsObjectText("{" + x + "}")
  {
    hide Whole;
    var t := "{" + x + "}";
    assert t[1..1 + |x|] == x && t[|x| + 1] == '}';
    OverWhole(t, 1, x, 1, false);
  }

  lemma ItemIsWhole(i: Item)
    requires IsPlain(i.name) && Whole(i.text, false)
    ensures Whole(ItemText(i), false)
  {
    hide Whole, IsPlain;
    NameIsWhole(i.name);
    ScalarIsWhole(":");
    WholeConcat("\"" + i.name + "\"", ":", false);
    WholeConcat("\"" + i.name + "\"" + ":", i.text, false);
  }

  lemma ErrorIsItem(message: string, digest: string -> Digest)
    ensures ErrorText(message, digest)
         == "{" + ItemText(TextItem("telemetry_encode_error", Bounded(message, 256, digest))) + "}"
  {
    hide Bounded, Quoted, Sanitized, ItemsText;
    var i := TextItem("telemetry_encode_error", Bounded(message, 256, digest));
    ErrorTag();
    FirstItem("{", i, "{\"telemetry_encode_error\":");
    OneItem(i);
  }

  lemma ErrorTag()
    ensures "{\"telemetry_encode_error\":" == "{" + "\"" + "telemetry_encode_error" + "\"" + ":"
  {
  }

  lemma ErrorName()
    ensures IsPlain("telemetry_encode_error")
  {
  }

  /** Metadata that cannot be encoded is replaced by an object that says why. */
  lemma ErrorTextReads(message: string, digest: string -> Digest)
    ensures var text := ErrorText(message, digest);
            && IsObjectText(text)
            && ReadObject(text)
               == Some(([Member("telemetry_encode_error", Text(Sanitized(Bounded(message, 256, digest))))], ""))
  {
    hide Whole, Bounded, Quoted, IsObjectText, ReadObject, ReadsAs, Sanitized, ErrorText, IsPlain;
    var b := Bounded(message, 256, digest);
    var i := TextItem("telemetry_encode_error", b);
    ErrorName();
    ErrorIsItem(message, digest);
    QuotedIsWhole(b);
    QuotedReads(b);
    ItemIsWhole(i);
    BracesMakeObject(ItemText(i));
    OneItem(i);
    ReadWrittenObject([i], "");
    assert "{" + ItemsText([i]) + "}" + "" == ErrorText(message, digest);
    assert MembersOf([i]) == [Member(i.name, i.value)];
  }

  function MarkItems(size: nat): seq<Item> {
    [NumberItem("telemetry_original_size", size), FlagItem("telemetry_oversize", true)]
  }

  lemma MarkIsItems(size: nat)
    ensures OversizeMark(size).Object?
    ensures OversizeMark(size).text == "{" + ItemsText(MarkItems(size)) + "}"
  {
    hide Framing.Decimal, ItemsText;
    var i := MarkItems(size);
    MarkStart(size);
    MarkEnd();
    var t := "{\"telemetry_original_size\":" + Framing.Decimal(size);
    NextItem("{", [i[0]], i[1], t, ",\"" + OVERSIZE + "\"" + ":");
    assert [i[0]] + [i[1]] == i;
  }

  const OVERSIZE := "telemetry_oversize"

  lemma MarkStart(size: nat)
    ensures "{\"telemetry_original_size\":" + Framing.Decimal(size) == "{" + ItemsText([MarkItems(size)[0]])
  {
    hide Framing.Decimal, ItemsText;
    MarkTag();
    FirstItem("{", MarkItems(size)[0], "{\"telemetry_original_size\":");
  }

  lemma MarkTag()
    ensures "{\"telemetry_original_size\":" == "{" + "\"" + "telemetry_original_size" + "\"" + ":"
  {
  }

  lemma MarkNames()
    ensures IsPlain("telemetry_original_size") && IsPlain("telemetry_oversize")
  {
  }

  lemma MarkEnd()
    ensures ",\"telemetry_oversize\":true}" == ",\"" + OVERSIZE + "\"" + ":" + "true" + "}"
  {
  }

  lemma MarkIsWhole(size: nat)
    ensures Whole(ItemsText(MarkItems(size)), false)
  {
    hide Whole, ItemText, IsPlain;
    var i := MarkItems(size);
    MarkNames();
    DigitsAreWhole(size);
    ScalarIsWhole("true");
    ScalarIsWhole(",");
    ItemIsWhole(i[0]);
    ItemIsWhole(i[1]);
    WholeConcat(ItemText(i[0]), ",", false);
    WholeConcat(ItemText(i[0]) + ",", ItemText(i[1]), false);
    assert i[1..] == [i[1]];
  }

  lemma DigitsAreWhole(size: nat)
    ensures Whole(Record.Number(size), false)
  {
    hide Framing.Decimal, Whole;
    var text := Record.Number(size);
    assert forall k :: 0 <= k < |text| ==> Framing.IsDigit(text[k]);
    ScalarIsWhole(text);
  }

  /** Metadata that was too large is replaced by an object that says how large the line
      was. */
  lemma OversizeMarkReads(size: nat)
    ensures OversizeMark(size).Object?
    ensures var text := OversizeMark(size).text;
            && IsObjectText(text)
            && ReadObject(text)
               == Some(([Member("telemetry_original_size", JsonText.Number(size)),
                         Member("telemetry_oversize", Flag(true))], ""))
  {
    hide Whole, IsObjectText, ReadObject, ReadsAs, ItemsText, OversizeMark, Record.Number, IsPlain;
    var i := MarkItems(size);
    MarkNames();
    MarkIsItems(size);
    MarkIsWhole(size);
    BracesMakeObject(ItemsText(i));
    NumberReads(size);
    BooleanReads(true);
    ReadWrittenObject(i, "");
    assert "{" + ItemsText(i) + "}" + "" == OversizeMark(size).text;
    assert MembersOf(i) == [Member(i[0].name, i[0].value), Member(i[1].name, i[1].value)];
  }

  /** Whatever event is encoded, the line that comes out reads as an object: without
      trouble the event itself, otherwise what the encoder keeps of it. */
  lemma RecordReads(ev: Event, snapshot: Snapshot, maxBytes: nat, digest: string -> Digest)
    requires snapshot.Encodable? && snapshot.extra.Object? ==> IsObjectText(snapshot.extra.text)
    ensures var full := Full(ev, snapshot, digest);
            && ReadObject(Line(full)) == Some((Members(full), "\n"))
            && var kept := Kept(ev, |Line(full)|, maxBytes, digest);
               ReadObject(Line(kept)) == Some((Members(kept), "\n"))
  {
    hide Line, ReadObject, Members, IsObjectText, ErrorText, OversizeMark, Shrunk, Bounded;
    var full := Full(ev, snapshot, digest);
    if snapshot.Unencodable? {
      ErrorTextReads(snapshot.message, digest);
    }
    LineReads(full);
    var size := |Line(full)|;
    OversizeMarkReads(size);
    var marked := ev.(extra := OversizeMark(size));
    var l, extra := ShrunkKeeps(
      marked, [|ev.session|, |ev.tool|, |ev.mode|, |ev.ts|, maxBytes / 4], maxBytes, digest);
    LineReads(Kept(ev, size, maxBytes, digest));
  }
}
