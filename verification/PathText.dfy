/**
 Slash-separated paths: splitting and joining, and the lexical cleaning that
 Go's path.Clean does on rooted paths, on the level of segments.
 */
module PathText {

  predicate NoSlash(s: string) {
    forall i :: 0 <= i < |s| ==> s[i] != '/'
  }

  /** strings.Split(s, "/"). */
  function Split(s: string): (segments: seq<string>)
    ensures segments != [] && forall i :: 0 <= i < |segments| ==> NoSlash(segments[i])
  {
    if s == "" then [""]
    else
      var rest := Split(s[1..]);
      if s[0] == '/' then [""] + rest else [[s[0]] + rest[0]] + rest[1..]
  }

  /** strings.Join(segments, "/"). */
  function Join(segments: seq<string>): string {
    if segments == [] then ""
    else if |segments| == 1 then segments[0]
    else segments[0] + "/" + Join(segments[1..])
  }

  lemma {:induction false} SplitSegment(a: string, rest: string)
    requires NoSlash(a)
    ensures Split(a + "/" + rest) == [a] + Split(rest)
    ensures Split(a) == [a]
  {
    if a == "" {
      assert a + "/" + rest == "/" + rest;
    } else {
      var t := a + "/" + rest;
      assert t[1..] == a[1..] + "/" + rest;
      SplitSegment(a[1..], rest);
      assert [a[0]] + a[1..] == a;
    }
  }

  /** Splitting undoes joining. */
  lemma {:induction false} SplitJoin(segments: seq<string>)
    requires segments != [] && forall i :: 0 <= i < |segments| ==> NoSlash(segments[i])
    ensures Split(Join(segments)) == segments
  {
    if |segments| == 1 {
      SplitSegment(segments[0], "");
    } else {
      SplitJoin(segments[1..]);
      SplitSegment(segments[0], Join(segments[1..]));
    }
  }

  // ---------------------------------------------------------------- cleaning

  /** A segment that names something: not empty and no dot segment. */
  predicate Proper(s: string) {
    NoSlash(s) && s != "" && s != "." && s != ".."
  }

  predicate AllProper(segments: seq<string>) {
    forall i :: 0 <= i < |segments| ==> Proper(segments[i])
  }

  /** Walks the segments from the directory `at`; `..` at the root stays there. */
  function Walk(at: seq<string>, segments: seq<string>): (r: seq<string>)
    requires AllProper(at) && forall i :: 0 <= i < |segments| ==> NoSlash(segments[i])
    ensures AllProper(r)
    decreases |segments|
  {
    if segments == [] then at
    else if segments[0] == "" || segments[0] == "." then Walk(at, segments[1..])
    else if segments[0] == ".." then Walk(if at == [] then [] else at[..|at| - 1], segments[1..])
    else Walk(at + [segments[0]], segments[1..])
  }

  /** The path of a directory below the root. */
  function Rooted(segments: seq<string>): string {
    "/" + Join(segments)
  }

  /** path.Clean of a rooted path. */
  function Clean(p: string): string
    requires p != "" && p[0] == '/'
  {
    Rooted(Walk([], Split(p[1..])))
  }

  lemma {:induction false} WalkProper(at: seq<string>, segments: seq<string>)
    requires AllProper(at) && AllProper(segments)
    ensures Walk(at, segments) == at + segments
    decreases |segments|
  {
    if segments != [] {
      assert Proper(segments[0]);
      WalkProper(at + [segments[0]], segments[1..]);
      assert at + [segments[0]] + segments[1..] == at + segments;
    }
  }

  /** A path made of proper segments is clean already, and it spells its segments. */
  lemma CleanRooted(segments: seq<string>)
    requires AllProper(segments)
    ensures Clean(Rooted(segments)) == Rooted(segments)
    ensures Walk([], Split(Join(segments))) == segments
  {
    assert Rooted(segments)[1..] == Join(segments);
    if segments == [] {
      assert Split("") == [""] && [""][1..] == [];
    } else {
      SplitJoin(segments);
      WalkProper([], segments);
      assert [] + segments == segments;
    }
  }

  /** Cleaning twice is cleaning once. */
  lemma CleanIsIdempotent(p: string)
    requires p != "" && p[0] == '/'
    ensures Clean(Clean(p)) == Clean(p)
  {
    CleanRooted(Walk([], Split(p[1..])));
  }

  /** A clean path has no empty first segment. */
  lemma RootedHead(segments: seq<string>)
    requires AllProper(segments)
    ensures |Rooted(segments)| >= 2 ==> Rooted(segments)[1] != '/'
  {
    if segments != [] {
      assert Proper(segments[0]) && segments[0][0] != '/';
    }
  }

  // -------------------------------------------------------------- characters

  /** strings.ReplaceAll for two one-byte strings. */
  function Replace(s: string, from: char, to: char): (r: string)
    ensures |r| == |s| && forall i :: 0 <= i < |s| ==> r[i] == if s[i] == from then to else s[i]
  {
    if s == "" then "" else [if s[0] == from then to else s[0]] + Replace(s[1..], from, to)
  }

  lemma ReplaceBack(s: string, from: char, to: char)
    requires to !in s
    ensures Replace(Replace(s, from, to), to, from) == s
  {
    var t := Replace(s, from, to);
    var r := Replace(t, to, from);
    forall i | 0 <= i < |s|
      ensures r[i] == s[i]
    {
      assert s[i] in s;
    }
  }

  /** strings.TrimLeft(s, "/"). */
  function TrimSlashes(s: string): string {
    if s != "" && s[0] == '/' then TrimSlashes(s[1..]) else s
  }

  lemma {:induction false} JoinHas(segments: seq<string>, c: char)
    requires c in Join(segments) && c != '/'
    ensures exists i :: 0 <= i < |segments| && c in segments[i]
  {
    if |segments| >= 2 && c !in segments[0] {
      JoinHas(segments[1..], c);
      var i :| 0 <= i < |segments[1..]| && c in segments[1..][i];
      assert c in segments[i + 1];
    }
  }

  lemma {:induction false} JoinContains(segments: seq<string>, i: nat, c: char)
    requires i < |segments| && c in segments[i]
    ensures c in Join(segments)
  {
    if |segments| >= 2 && i > 0 {
      JoinContains(segments[1..], i - 1, c);
    }
  }

  /** Cleaning brings in no new character. */
  lemma {:induction false} WalkKeepsOut(at: seq<string>, segments: seq<string>, c: char)
    requires AllProper(at) && forall i :: 0 <= i < |segments| ==> NoSlash(segments[i])
    requires forall i :: 0 <= i < |at| ==> c !in at[i]
    requires forall i :: 0 <= i < |segments| ==> c !in segments[i]
    ensures forall i :: 0 <= i < |Walk(at, segments)| ==> c !in Walk(at, segments)[i]
    decreases |segments|
  {
    if segments != [] {
      if segments[0] == "" || segments[0] == "." {
        WalkKeepsOut(at, segments[1..], c);
      } else if segments[0] == ".." {
        WalkKeepsOut(if at == [] then [] else at[..|at| - 1], segments[1..], c);
      } else {
        WalkKeepsOut(at + [segments[0]], segments[1..], c);
      }
    }
  }

  lemma {:induction false} JoinSplit(s: string)
    ensures Join(Split(s)) == s
  {
    if s != "" {
      JoinSplit(s[1..]);
      var rest := Split(s[1..]);
      if s[0] == '/' {
        assert ([""] + rest)[1..] == rest;
      } else {
        assert Join([[s[0]] + rest[0]] + rest[1..]) == [s[0]] + Join(rest);
      }
      assert [s[0]] + s[1..] == s;
    }
  }
}
