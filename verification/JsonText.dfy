/**
 A reader of compact JSON objects, as RFC 8259 defines them and as far as telemetry
 records need it: strings with their escapes, integers, booleans, and nested objects,
 which are kept as text.
 */
module JsonText {
  import opened Wrappers
  import opened Utf8
  import opened Hex
  import Framing

  datatype Value = Text(text: string) | Number(n: int) | Flag(b: bool) | Nested(raw: string)

  datatype Member = Member(name: string, value: Value)

  // --------------------------------------------------------------------- strings

  /** The character that four hexadecimal digits after `\u` stand for, in UTF-8. */
  function ReadCode(t: string): Option<string> {
    if |t| < 4 || !IsHexDigit(t[0]) || !IsHexDigit(t[1]) || !IsHexDigit(t[2]) || !IsHexDigit(t[3]) then None
    else
      var code := HexValue(t[0]) * 4096 + HexValue(t[1]) * 256 + HexValue(t[2]) * 16 + HexValue(t[3]);
      if IsScalar(code) then Some(Encode(code)) else None
  }

  /** What follows a backslash: the text it stands for and the characters it takes. */
  function ReadEscape(t: string): (r: Option<(string, nat)>)
    ensures r.Some? ==> r.value.1 <= |t|
  {
    if t == "" then None
    else if t[0] == 'u' then
      (match ReadCode(t[1..])
       case None => None
       case Some(piece) => Some((piece, 5)))
    else match t[0]
      case '\"' => Some(("\"", 1))
      case '\\' => Some(("\\", 1))
      case '/' => Some(("/", 1))
      case 'b' => Some(([0x08 as char], 1))
      case 'f' => Some(([0x0C as char], 1))
      case 'n' => Some(("\n", 1))
      case 'r' => Some(("\r", 1))
      case 't' => Some(("\t", 1))
      case _ => None
  }

  /** Puts `piece` in front of what was read. */
  function Prepend(piece: string, r: Option<(string, string)>): Option<(string, string)> {
    match r
    case None => None
    case Some((s, rest)) => Some((piece + s, rest))
  }

  /** The characters up to the closing quote, and what follows it. */
  function ReadChars(t: string): (r: Option<(string, string)>)
    ensures r.Some? ==> |r.value.1| < |t|
    decreases |t|
  {
    if t == "" then None
    else if t[0] == '\"' then Some(("", t[1..]))
    else if t[0] == '\\' then
      (match ReadEscape(t[1..])
       case None => None
       case Some((piece, n)) => Prepend(piece, ReadChars(t[1 + n..])))
    else if t[0] as int < 0x20 then None
    else Prepend([t[0]], ReadChars(t[1..]))
  }

  function ReadString(t: string): (r: Option<(string, string)>)
    ensures r.Some? ==> |r.value.1| < |t|
  {
    if t != "" && t[0] == '\"' then ReadChars(t[1..]) else None
  }

  /** A character that stands for itself in a string. */
  predicate StandsForItself(c: char) {
    c as int >= 0x20 && c != '\"' && c != '\\'
  }

  predicate IsPlain(s: string) {
    forall i :: 0 <= i < |s| ==> StandsForItself(s[i])
  }

  lemma {:induction false} ReadPlain(s: string, u: string)
    requires IsPlain(s)
    ensures ReadChars(s + u) == Prepend(s, ReadChars(u))
    decreases |s|
  {
    hide ReadEscape;
    if s == "" {
      assert s + u == u;
      if ReadChars(u).Some? {
        assert "" + ReadChars(u).value.0 == ReadChars(u).value.0;
      }
    } else {
      assert (s + u)[0] == s[0] && (s + u)[1..] == s[1..] + u;
      ReadPlain(s[1..], u);
      if ReadChars(u).Some? {
        var v := ReadChars(u).value.0;
        assert [s[0]] + (s[1..] + v) == s + v;
      }
    }
  }

  lemma ReadName(name: string, u: string)
    requires IsPlain(name)
    ensures ReadString("\"" + name + "\"" + u) == Some((name, u))
  {
    var t := "\"" + name + "\"" + u;
    assert t[1..] == name + ("\"" + u);
    ReadPlain(name, "\"" + u);
    assert ("\"" + u)[1..] == u;
    assert name + "" == name;
  }

  // --------------------------------------------------------------------- scalars

  predicate EndsValue(c: char) {
    c == ',' || c == '}'
  }

  function ScalarEnd(t: string): (n: nat)
    ensures n <= |t| && (n < |t| ==> EndsValue(t[n])) && forall i :: 0 <= i < n ==> !EndsValue(t[i])
  {
    if t == "" || EndsValue(t[0]) then 0 else 1 + ScalarEnd(t[1..])
  }

  function ReadInteger(s: string): Option<int> {
    var negative := s != "" && s[0] == '-';
    var digits := if negative then s[1..] else s;
    if digits == "" || !Framing.AllDigits(digits) then None
    else
      var n: int := Framing.DigitsValue(digits);
      Some(if negative then 0 - n else n)
  }

  function ReadScalar(s: string): Option<Value> {
    if s == "true" then Some(Flag(true))
    else if s == "false" then Some(Flag(false))
    else match ReadInteger(s)
      case None => None
      case Some(n) => Some(Number(n))
  }

  // ---------------------------------------------------------------------- objects

  /** Just after the brace that closes the object which is open at `k`, `depth` levels
      deep and inside a string or not. */
  function ObjectEnd(t: string, k: nat, depth: nat, quoted: bool): (n: Option<nat>)
    ensures n.Some? ==> k < n.value <= |t|
    decreases |t| - k
  {
    if k >= |t| then None
    else if quoted then
      if t[k] == '\\' then ObjectEnd(t, k + 2, depth, true) else ObjectEnd(t, k + 1, depth, t[k] != '\"')
    else if t[k] == '\"' then ObjectEnd(t, k + 1, depth, true)
    else if t[k] == '{' then ObjectEnd(t, k + 1, depth + 1, false)
    else if t[k] == '}' then
      if depth <= 1 then Some(k + 1) else ObjectEnd(t, k + 1, depth - 1, false)
    else ObjectEnd(t, k + 1, depth, false)
  }

  /** The text of one whole object. */
  predicate IsObjectText(s: string) {
    s != "" && s[0] == '{' && ObjectEnd(s, 0, 0, false) == Some(|s|)
  }

  /** The end of an object does not depend on what follows it. */
  lemma {:induction false} ObjectEndIsLocal(s: string, u: string, k: nat, depth: nat, quoted: bool)
    requires ObjectEnd(s, k, depth, quoted).Some?
    ensures ObjectEnd(s + u, k, depth, quoted) == ObjectEnd(s, k, depth, quoted)
    decreases |s| - k
  {
    assert (s + u)[k] == s[k];
    if quoted {
      if s[k] == '\\' {
        ObjectEndIsLocal(s, u, k + 2, depth, true);
      } else {
        ObjectEndIsLocal(s, u, k + 1, depth, s[k] != '\"');
      }
    } else if s[k] == '\"' {
      ObjectEndIsLocal(s, u, k + 1, depth, true);
    } else if s[k] == '{' {
      ObjectEndIsLocal(s, u, k + 1, depth + 1, false);
    } else if s[k] == '}' {
      if depth > 1 {
        ObjectEndIsLocal(s, u, k + 1, depth - 1, false);
      }
    } else {
      ObjectEndIsLocal(s, u, k + 1, depth, false);
    }
  }

  function ReadValue(t: string): (r: Option<(Value, string)>)
    ensures r.Some? ==> |r.value.1| <= |t|
  {
    if t == "" then None
    else if t[0] == '\"' then
      (match ReadString(t)
       case None => None
       case Some((s, rest)) => Some((Text(s), rest)))
    else if t[0] == '{' then
      (match ObjectEnd(t, 0, 0, false)
       case None => None
       case Some(n) => Some((Nested(t[..n]), t[n..])))
    else
      var n := ScalarEnd(t);
      match ReadScalar(t[..n])
      case None => None
      case Some(v) => Some((v, t[n..]))
  }

  /** The members up to the closing brace, and what follows it. */
  function ReadMembers(t: string): Option<(seq<Member>, string)>
    decreases |t|
  {
    match ReadString(t)
    case None => None
    case Some((name, u)) =>
      if u == "" || u[0] != ':' then None
      else match ReadValue(u[1..])
        case None => None
        case Some((v, w)) =>
          if w == "" then None
          else if w[0] == '}' then Some(([Member(name, v)], w[1..]))
          else if w[0] != ',' then None
          else match ReadMembers(w[1..])
            case None => None
            case Some((more, rest)) => Some(([Member(name, v)] + more, rest))
  }

  /** The members of the object that a text begins with, and what follows it. */
  function ReadObject(t: string): Option<(seq<Member>, string)> {
    if |t| < 2 || t[0] != '{' then None
    else if t[1] == '}' then Some(([], t[2..]))
    else ReadMembers(t[1..])
  }

  // ----------------------------------------------------------- writing objects

  /** The text reads as the value before a comma or a closing brace. */
  ghost predicate ReadsAs(text: string, v: Value) {
    forall u {:trigger ReadValue(text + u)} :: u != "" && EndsValue(u[0]) ==> ReadValue(text + u) == Some((v, u))
  }

  /** A member as it is written: its name, the text of its value, and the value. */
  datatype Item = Item(name: string, text: string, value: Value)

  ghost predicate IsItem(i: Item) {
    IsPlain(i.name) && ReadsAs(i.text, i.value)
  }

  function ItemText(i: Item): string {
    "\"" + i.name + "\"" + ":" + i.text
  }

  function ItemsText(items: seq<Item>): string
    requires items != []
  {
    if |items| == 1 then ItemText(items[0]) else ItemText(items[0]) + "," + ItemsText(items[1..])
  }

  function MembersOf(items: seq<Item>): seq<Member> {
    seq(|items|, i requires 0 <= i < |items| => Member(items[i].name, items[i].value))
  }

  /** Reading one member and looking at what follows it. */
  lemma ReadItem(i: Item, u: string)
    requires IsItem(i) && u != "" && EndsValue(u[0])
    ensures ReadMembers(ItemText(i) + u)
         == if u[0] == '}' then Some(([Member(i.name, i.value)], u[1..]))
            else match ReadMembers(u[1..])
              case None => None
              case Some((more, rest)) => Some(([Member(i.name, i.value)] + more, rest))
  {
    hide ReadString, ReadValue, IsPlain;
    var t := ItemText(i) + u;
    var v := ":" + (i.text + u);
    assert t == "\"" + i.name + "\"" + v;
    ReadName(i.name, v);
    assert v[1..] == i.text + u;
    assert ReadValue(i.text + u) == Some((i.value, u));
  }

  lemma Regroup(a: string, b: string, c: string, d: string)
    ensures a + b + c + d == a + (b + c + d)
  {
  }

  lemma {:induction false} ReadItems(items: seq<Item>, u: string)
    requires items != [] && forall k :: 0 <= k < |items| ==> IsItem(items[k])
    ensures ReadMembers(ItemsText(items) + "}" + u) == Some((MembersOf(items), u))
  {
    hide IsItem, ReadMembers, ItemText, MembersOf;
    var i := items[0];
    if |items| == 1 {
      assert ItemsText(items) + "}" + u == ItemText(i) + ("}" + u);
      ReadItem(i, "}" + u);
      assert ("}" + u)[1..] == u;
    } else {
      var more := ItemsText(items[1..]);
      var rest := more + "}" + u;
      ReadItems(items[1..], u);
      assert ItemsText(items) + "}" + u == ItemText(i) + "," + more + "}" + u;
      assert ItemText(i) + "," + more + "}" + u == ItemText(i) + ("," + rest);
      hide ItemsText;
      ReadItem(i, "," + rest);
      assert ("," + rest)[1..] == rest;
    }
    MembersOfOne(items);
  }

  lemma MembersOfOne(items: seq<Item>)
    requires items != []
    ensures MembersOf(items) == [Member(items[0].name, items[0].value)] + MembersOf(items[1..])
    ensures |items| == 1 ==> MembersOf(items) == [Member(items[0].name, items[0].value)]
  {
  }

  lemma ReadBraced(x: string)
    requires x != "" && x[0] != '}'
    ensures ReadObject("{" + x) == ReadMembers(x)
  {
    hide ReadMembers;
    assert ("{" + x)[1..] == x && ("{" + x)[1] == x[0];
  }

  /** An object that is written member by member reads back as its members. */
  lemma ReadWrittenObject(items: seq<Item>, u: string)
    requires items != [] && forall k :: 0 <= k < |items| ==> IsItem(items[k])
    ensures ReadObject("{" + ItemsText(items) + "}" + u) == Some((MembersOf(items), u))
  {
    hide IsItem, ReadMembers, ReadObject, ItemsText, MembersOf;
    ReadItems(items, u);
    ItemsStart(items);
    var x := ItemsText(items) + "}" + u;
    Regroup("{", ItemsText(items), "}", u);
    assert x[0] == ItemsText(items)[0];
    ReadBraced(x);
  }

  lemma ItemsStart(items: seq<Item>)
    requires items != []
    ensures ItemsText(items) != "" && ItemsText(items)[0] == '\"'
  {
    assert ItemText(items[0])[0] == '\"';
    assert ItemText(items[0]) <= ItemsText(items);
  }

  lemma {:induction false} ItemsTextAppend(a: seq<Item>, b: seq<Item>)
    requires a != [] && b != []
    ensures ItemsText(a + b) == ItemsText(a) + "," + ItemsText(b)
  {
    hide ItemText;
    assert (a + b)[1..] == a[1..] + b;
    if |a| > 1 {
      ItemsTextAppend(a[1..], b);
    } else {
      assert a[1..] + b == b;
    }
  }

  // -------------------------------------------------------------- values as text

  lemma ScalarReads(text: string, v: Value)
    requires text != "" && text[0] != '\"' && text[0] != '{' && ReadScalar(text) == Some(v)
    requires forall i :: 0 <= i < |text| ==> !EndsValue(text[i])
    ensures ReadsAs(text, v)
  {
    hide ReadScalar;
    forall u | u != "" && EndsValue(u[0])
      ensures ReadValue(text + u) == Some((v, u))
    {
      ScalarEndAt(text, u);
      assert (text + u)[..|text|] == text && (text + u)[|text|..] == u;
    }
  }

  lemma ScalarEndAt(text: string, u: string)
    requires u != "" && EndsValue(u[0]) && forall i :: 0 <= i < |text| ==> !EndsValue(text[i])
    ensures ScalarEnd(text + u) == |text|
  {
    var n := ScalarEnd(text + u);
    assert (text + u)[|text|] == u[0];
    assert forall i :: 0 <= i < |text| ==> (text + u)[i] == text[i];
  }

  lemma ObjectReads(text: string)
    requires IsObjectText(text)
    ensures ReadsAs(text, Nested(text))
  {
    forall u | u != "" && EndsValue(u[0])
      ensures ReadValue(text + u) == Some((Nested(text), u))
    {
      ObjectEndIsLocal(text, u, 0, 0, false);
      assert (text + u)[..|text|] == text && (text + u)[|text|..] == u && (text + u)[0] == text[0];
      hide ObjectEnd;
    }
  }

  /** Inside a string plain characters change nothing. */
  lemma {:induction false} ObjectEndOverPlain(t: string, k: nat, m: nat, depth: nat)
    requires k <= m <= |t| && forall i :: k <= i < m ==> StandsForItself(t[i])
    ensures ObjectEnd(t, k, depth, true) == ObjectEnd(t, m, depth, true)
    decreases m - k
  {
    if k < m {
      ObjectEndOverPlain(t, k + 1, m, depth);
    }
  }
}
