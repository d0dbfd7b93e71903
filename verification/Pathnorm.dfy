/**
 Canonical host paths of internal/pathnorm/pathnorm.go.

 The environment is a value: the WSL distribution name ("" when unset) and case
 folding, given as a function that picks a representative, so that two strings
 are EqualFold exactly when their representatives are equal.
 */
module Pathnorm {
  import opened Wrappers
  import opened PathText

  datatype Env = Env(distro: string, fold: string -> string) {
    predicate EqualFold(a: string, b: string) {
      fold(a) == fold(b)
    }
  }

  const NUL: char := 0 as char

  /** The server under which WSL shares its distributions. */
  const SERVER := "wsl.localhost"

  predicate IsLetter(c: char) {
    'a' <= c <= 'z' || 'A' <= c <= 'Z'
  }

  function Lower(c: char): (l: char)
    ensures IsLetter(c) ==> IsLetter(l) && !('A' <= l <= 'Z')
  {
    if 'A' <= c <= 'Z' then (c as int + 32) as char else c
  }

  function Upper(c: char): (u: char)
    ensures IsLetter(c) ==> 'A' <= u <= 'Z' && Lower(u) == Lower(c)
  {
    if 'a' <= c <= 'z' then (c as int - 32) as char else c
  }

  predicate IsDrivePath(p: string) {
    |p| >= 2 && IsLetter(p[0]) && p[1] == ':' && (|p| == 2 || p[2] == '\\' || p[2] == '/')
  }

  predicate IsUncPath(p: string) {
    "\\\\" <= p
  }

  /** splitMountDrive: the drive in lower case and what follows it. */
  function SplitMount(p: string): Option<(char, string)> {
    if !("/mnt/" <= p) then None
    else
      var rem := p[5..];
      if rem == "" || !IsLetter(rem[0]) || (|rem| > 1 && rem[1] != '/') then None
      else Some((Lower(rem[0]), rem[1..]))
  }

  function CanonicalPosix(p: string): Option<string>
    requires p != "" && p[0] == '/'
  {
    if NUL in p then None
    else if "//" <= p then None
    else
      var cleaned := Clean(p);
      match SplitMount(cleaned)
      case Some((drive, rest)) => Some("/mnt/" + [drive] + rest)
      case None => Some(cleaned)
  }

  function CanonicalWsl(env: Env, server: string, distro: string, rest: seq<string>): Option<string> {
    if !env.EqualFold(server, "wsl$") && !env.EqualFold(server, SERVER) then None
    else if distro == "" then None
    else if env.distro == "" || !env.EqualFold(distro, env.distro) then None
    else CanonicalPosix("/" + Join(rest))
  }

  function CanonicalUnc(env: Env, p: string): Option<string>
    requires IsUncPath(p)
  {
    var tail := p[2..];
    if tail == "" || tail[0] == '\\' || tail[0] == '/' then None
    else
      var segments := Split(Replace(tail, '\\', '/'));
      if |segments| < 2 || segments[0] == "" || segments[1] == "" then None
      else CanonicalWsl(env, segments[0], segments[1], segments[2..])
  }

  function CanonicalDrive(p: string): Option<string>
    requires IsDrivePath(p)
  {
    if |p| == 2 then None
    else
      var cleaned := Clean("/" + TrimSlashes(Replace(p[2..], '\\', '/')));
      Some("/mnt/" + [Lower(p[0])] + if cleaned == "/" then "" else cleaned)
  }

  function Canonicalize(env: Env, p: string): Option<string> {
    if p == "" || NUL in p then None
    else if IsUncPath(p) then CanonicalUnc(env, p)
    else if p[0] == '/' then CanonicalPosix(p)
    else if IsDrivePath(p) then CanonicalDrive(p)
    else None
  }

  /** What follows the two backslashes of a path inside the distribution. */
  function UncTail(distro: string, c: string): string {
    SERVER + "\\" + distro + Replace(c, '/', '\\')
  }

  function WslToWindows(env: Env, p: string): Option<string> {
    match Canonicalize(env, p)
    case None => None
    case Some(c) =>
      if '\\' in c then None
      else match SplitMount(c)
        case Some((drive, rest)) =>
          Some([Upper(drive)] + ":\\" + Replace(if "/" <= rest then rest[1..] else rest, '/', '\\'))
        case None =>
          if env.distro == "" then None
          else Some("\\\\" + UncTail(env.distro, c))
  }

  // --------------------------------------------------------- canonical paths

  /** The segments of a mounted drive, as a drive names itself. */
  predicate IsMount(segments: seq<string>) {
    |segments| >= 2 && segments[0] == "mnt" && |segments[1]| == 1 && IsLetter(segments[1][0])
  }

  /** The segments of a canonical path: proper, and a mounted drive in lower case. */
  predicate CanonicalSegments(segments: seq<string>) {
    && AllProper(segments)
    && (IsMount(segments) ==> Lower(segments[1][0]) == segments[1][0])
  }

  /** An independent description of canonical paths. */
  ghost predicate IsCanonical(c: string) {
    NUL !in c && exists segments :: CanonicalSegments(segments) && c == Rooted(segments)
  }

  lemma JoinHead(segments: seq<string>)
    requires |segments| >= 2
    ensures Join(segments) == segments[0] + "/" + Join(segments[1..])
  {
  }

  /** splitMountDrive on a clean path sees exactly the segments of a mount. */
  lemma SplitMountOfRooted(segments: seq<string>)
    requires AllProper(segments)
    ensures SplitMount(Rooted(segments)).Some? <==> IsMount(segments)
    ensures IsMount(segments) ==>
              SplitMount(Rooted(segments))
              == Some((Lower(segments[1][0]), if |segments| == 2 then "" else Rooted(segments[2..])))
  {
    var c := Rooted(segments);
    if segments != [] {
      var a := segments[0];
      assert Proper(a);
      if |segments| == 1 {
        assert |c| > 4 ==> c[4] == a[3];
      } else {
        var rest := Join(segments[1..]);
        assert c == "/" + a + "/" + rest;
        assert a == "mnt" ==> c[..5] == "/mnt/";
        if "/mnt/" <= c {
          MountName(a, rest);
          assert c[5..] == rest;
          MountDrive(segments[1..]);
        }
      }
    }
  }

  lemma MountName(a: string, rest: string)
    requires NoSlash(a) && "/mnt/" <= "/" + a + "/" + rest
    ensures a == "mnt"
  {
    var c := "/" + a + "/" + rest;
    assert c[0] == '/' && c[1] == 'm' && c[2] == 'n' && c[3] == 't' && c[4] == '/';
    assert c[|a| + 1] == '/';
    assert forall i :: 0 <= i < |a| ==> c[i + 1] == a[i];
  }

  /** What follows "/mnt/" begins with a drive exactly when the next segment is one. */
  lemma MountDrive(segments: seq<string>)
    requires AllProper(segments) && segments != []
    ensures var rem := Join(segments);
            && rem != "" && rem[0] == segments[0][0]
            && ((|rem| == 1 || rem[1] == '/') <==> |segments[0]| == 1)
            && (|segments[0]| == 1 ==> rem[1..] == if |segments| == 1 then "" else Rooted(segments[1..]))
  {
    var a := segments[0];
    assert Proper(a);
    if |segments| > 1 {
      JoinHead(segments);
      if |a| >= 2 {
        assert Join(segments)[1] == a[1];
      }
    } else if |a| >= 2 {
      assert Join(segments)[1] == a[1];
    }
  }

  function LowerMount(segments: seq<string>): seq<string> {
    if IsMount(segments) then segments[1 := [Lower(segments[1][0])]] else segments
  }

  lemma LowerMountIsCanonical(segments: seq<string>)
    requires AllProper(segments)
    ensures CanonicalSegments(LowerMount(segments))
  {
  }

  lemma RootedMount(drive: string, segments: seq<string>)
    ensures Rooted(["mnt", drive] + segments) == "/mnt/" + drive + if segments == [] then "" else Rooted(segments)
  {
    var all := ["mnt", drive] + segments;
    JoinHead(all);
    assert all[1..] == [drive] + segments;
    if segments != [] {
      JoinHead(all[1..]);
      assert all[1..][1..] == segments;
    }
  }

  /** canonicalPOSIX on the level of segments. */
  lemma PosixMeaning(p: string)
    requires p != "" && p[0] == '/' && NUL !in p && !("//" <= p)
    ensures var segments := Walk([], Split(p[1..]));
            CanonicalPosix(p) == Some(Rooted(LowerMount(segments)))
  {
    var segments := Walk([], Split(p[1..]));
    SplitMountOfRooted(segments);
    if IsMount(segments) {
      var lowered := LowerMount(segments);
      assert lowered == ["mnt", [Lower(segments[1][0])]] + segments[2..];
      RootedMount([Lower(segments[1][0])], segments[2..]);
    }
  }

  /** A character that neither canonicalization nor its fixed parts bring in. */
  predicate Foreign(x: char) {
    x == NUL || x as int >= 128
  }

  lemma ForeignToRooted(segments: seq<string>, x: char)
    requires Foreign(x) && forall i :: 0 <= i < |segments| ==> x !in segments[i]
    ensures x !in Rooted(segments)
  {
    if x in Rooted(segments) {
      assert x in Join(segments);
      JoinHas(segments, x);
    }
  }

  lemma ForeignToSegments(s: string, x: char)
    requires Foreign(x) && x !in s
    ensures forall i :: 0 <= i < |Split(s)| ==> x !in Split(s)[i]
    ensures forall i :: 0 <= i < |Walk([], Split(s))| ==> x !in Walk([], Split(s))[i]
  {
    var segments := Split(s);
    JoinSplit(s);
    forall i | 0 <= i < |segments|
      ensures x !in segments[i]
    {
      if x in segments[i] {
        JoinContains(segments, i, x);
      }
    }
    WalkKeepsOut([], segments, x);
  }

  lemma ForeignToPosix(p: string, x: char)
    requires p != "" && p[0] == '/' && CanonicalPosix(p).Some? && Foreign(x) && x !in p
    ensures x !in CanonicalPosix(p).value
  {
    PosixMeaning(p);
    ForeignToSegments(p[1..], x);
    ForeignToRooted(LowerMount(Walk([], Split(p[1..]))), x);
  }

  lemma PosixIsCanonical(p: string)
    requires p != "" && p[0] == '/' && CanonicalPosix(p).Some?
    ensures IsCanonical(CanonicalPosix(p).value)
  {
    PosixMeaning(p);
    ForeignToPosix(p, NUL);
    LowerMountIsCanonical(Walk([], Split(p[1..])));
  }

  /** Whatever `..` segments a drive path has, it stays below its own drive. */
  lemma DriveStaysOnDrive(env: Env, p: string)
    requires IsDrivePath(p) && Canonicalize(env, p).Some?
    ensures var below := Walk([], Split(TrimSlashes(Replace(p[2..], '\\', '/'))));
            && AllProper(below)
            && CanonicalSegments(["mnt", [Lower(p[0])]] + below)
            && Canonicalize(env, p) == Some(Rooted(["mnt", [Lower(p[0])]] + below))
  {
    var q := TrimSlashes(Replace(p[2..], '\\', '/'));
    assert ("/" + q)[1..] == q;
    var below := Walk([], Split(q));
    RootedMount([Lower(p[0])], below);
    if below == [] {
      assert Rooted(below) == "/";
    } else {
      assert Proper(below[0]);
      assert |Rooted(below)| > 1;
    }
  }

  lemma {:induction false} TrimKeepsOut(s: string, c: char)
    requires c !in s
    ensures c !in TrimSlashes(s)
  {
    if s != "" && s[0] == '/' {
      TrimKeepsOut(s[1..], c);
    }
  }

  lemma ForeignToDrive(env: Env, p: string, x: char)
    requires IsDrivePath(p) && Canonicalize(env, p).Some? && Foreign(x) && x !in p
    ensures x !in Canonicalize(env, p).value
  {
    DriveStaysOnDrive(env, p);
    var q := Replace(p[2..], '\\', '/');
    assert x !in q;
    TrimKeepsOut(q, x);
    ForeignToSegments(TrimSlashes(q), x);
    ForeignToRooted(["mnt", [Lower(p[0])]] + Walk([], Split(TrimSlashes(q))), x);
  }

  lemma ForeignToUnc(env: Env, p: string, x: char)
    requires IsUncPath(p) && CanonicalUnc(env, p).Some? && Foreign(x) && x !in p
    ensures x !in CanonicalUnc(env, p).value
  {
    var tail := Replace(p[2..], '\\', '/');
    assert x !in tail;
    ForeignToSegments(tail, x);
    var q := Rooted(Split(tail)[2..]);
    ForeignToRooted(Split(tail)[2..], x);
    ForeignToPosix(q, x);
  }

  /** Canonicalization brings in no byte outside ASCII and no NUL. */
  lemma ForeignToCanonical(env: Env, p: string, x: char)
    requires Canonicalize(env, p).Some? && Foreign(x) && x !in p
    ensures x !in Canonicalize(env, p).value
  {
    if IsUncPath(p) {
      ForeignToUnc(env, p, x);
    } else if p[0] == '/' {
      ForeignToPosix(p, x);
    } else {
      ForeignToDrive(env, p, x);
    }
  }

  lemma DriveIsCanonical(env: Env, p: string)
    requires IsDrivePath(p) && Canonicalize(env, p).Some?
    ensures IsCanonical(Canonicalize(env, p).value)
  {
    DriveStaysOnDrive(env, p);
    ForeignToDrive(env, p, NUL);
  }

  /** Every accepted path becomes a canonical one. */
  lemma CanonicalizeIsCanonical(env: Env, p: string)
    requires Canonicalize(env, p).Some?
    ensures IsCanonical(Canonicalize(env, p).value)
  {
    if IsUncPath(p) {
      var segments := Split(Replace(p[2..], '\\', '/'));
      PosixIsCanonical("/" + Join(segments[2..]));
    } else if p[0] == '/' {
      PosixIsCanonical(p);
    } else {
      DriveIsCanonical(env, p);
    }
  }

  /** Canonical paths are left alone. */
  lemma CanonicalIsFixed(env: Env, c: string)
    requires IsCanonical(c)
    ensures Canonicalize(env, c) == Some(c)
  {
    var segments :| CanonicalSegments(segments) && c == Rooted(segments);
    RootedHead(segments);
    assert c[1..] == Join(segments);
    CleanRooted(segments);
    PosixMeaning(c);
    if IsMount(segments) {
      assert [segments[1][0]] == segments[1];
      assert LowerMount(segments) == segments;
    }
  }

  /** The paths that canonicalization can return are exactly its fixed points. */
  lemma FixedPoints(env: Env, c: string)
    ensures IsCanonical(c) <==> Canonicalize(env, c) == Some(c)
  {
    if IsCanonical(c) {
      CanonicalIsFixed(env, c);
    }
    if Canonicalize(env, c) == Some(c) {
      CanonicalizeIsCanonical(env, c);
    }
  }

  /** Canonicalization is idempotent on every accepted input, in any environment. */
  lemma CanonicalizeTwice(env: Env, later: Env, p: string)
    requires Canonicalize(env, p).Some?
    ensures Canonicalize(later, Canonicalize(env, p).value) == Canonicalize(env, p)
  {
    CanonicalizeIsCanonical(env, p);
    CanonicalIsFixed(later, Canonicalize(env, p).value);
  }

  // ------------------------------------------------------------ Windows paths

  /** What an environment variable that names a distribution looks like. */
  predicate GoodDistro(env: Env) {
    env.distro != "" && '/' !in env.distro && '\\' !in env.distro && NUL !in env.distro
  }

  /** The Windows form of a path on a drive. */
  function DriveForm(drive: char, below: seq<string>): string {
    [Upper(drive)] + ":\\" + Replace(Join(below), '/', '\\')
  }

  lemma WindowsDriveForm(env: Env, drive: char, below: seq<string>)
    requires CanonicalSegments(["mnt", [drive]] + below) && IsLetter(drive)
    requires NUL !in Rooted(["mnt", [drive]] + below) && '\\' !in Rooted(["mnt", [drive]] + below)
    ensures WslToWindows(env, Rooted(["mnt", [drive]] + below)) == Some(DriveForm(drive, below))
    ensures NUL !in Join(below) && '\\' !in Join(below)
  {
    hide Canonicalize, SplitMount, Replace;
    var segments := ["mnt", [drive]] + below;
    var c := Rooted(segments);
    CanonicalIsFixed(env, c);
    SplitMountOfRooted(segments);
    RootedMount([drive], below);
    assert segments[2..] == below;
    if below != [] {
      assert Rooted(below)[1..] == Join(below);
      assert c == "/mnt/" + [drive] + "/" + Join(below);
    }
    assert forall x :: x in Join(below) ==> x in c;
  }

  lemma DriveFormPlain(drive: char, body: string, w: string)
    requires IsLetter(drive) && NUL !in body && w == [Upper(drive)] + ":\\" + Replace(body, '/', '\\')
    ensures NUL !in w && IsDrivePath(w) && |w| >= 3 && !IsUncPath(w) && w[0] != '/'
  {
    assert forall i :: 0 <= i < |body| ==> body[i] in body;
  }

  lemma DriveFormBack(env: Env, drive: char, below: seq<string>)
    requires AllProper(below) && IsLetter(drive) && Lower(drive) == drive
    requires NUL !in Join(below) && '\\' !in Join(below)
    ensures Canonicalize(env, DriveForm(drive, below)) == Some(Rooted(["mnt", [drive]] + below))
  {
    hide Walk, Split, Join, Canonicalize, Replace, TrimSlashes;
    var body, w := Join(below), DriveForm(drive, below);
    assert w[2..] == "\\" + Replace(body, '/', '\\');
    SlashesBack(body);
    TrimmedBody(below);
    CleanRooted(below);
    DriveFormPlain(drive, body, w);
    DriveIsAccepted(env, w);
    DriveStaysOnDrive(env, w);
  }

  lemma TrimmedBody(below: seq<string>)
    requires AllProper(below)
    ensures TrimSlashes("/" + Join(below)) == Join(below)
  {
    var body := Join(below);
    assert ("/" + body)[1..] == body;
    if below != [] {
      assert Proper(below[0]);
      assert body[0] == below[0][0];
    }
  }

  lemma DriveIsAccepted(env: Env, w: string)
    requires NUL !in w && IsDrivePath(w) && |w| >= 3 && !IsUncPath(w) && w[0] != '/'
    ensures Canonicalize(env, w).Some?
  {
    hide Clean;
  }

  lemma WindowsDrive(env: Env, segments: seq<string>)
    requires CanonicalSegments(segments) && IsMount(segments)
    requires NUL !in Rooted(segments) && '\\' !in Rooted(segments)
    ensures WslToWindows(env, Rooted(segments)).Some?
    ensures Canonicalize(env, WslToWindows(env, Rooted(segments)).value) == Some(Rooted(segments))
  {
    var drive, below := segments[1][0], segments[2..];
    assert segments[1] == [drive];
    assert segments == ["mnt", [drive]] + below;
    hide Canonicalize, WslToWindows, Rooted, DriveForm;
    WindowsDriveForm(env, drive, below);
    DriveFormBack(env, drive, below);
  }

  lemma SlashesBack(body: string)
    requires '\\' !in body
    ensures Replace("\\" + Replace(body, '/', '\\'), '\\', '/') == "/" + body
  {
    ReplaceBack(body, '/', '\\');
    assert ("\\" + Replace(body, '/', '\\'))[1..] == Replace(body, '/', '\\');
  }

  lemma UncForm(env: Env, segments: seq<string>)
    requires CanonicalSegments(segments) && !IsMount(segments) && env.distro != ""
    requires NUL !in Rooted(segments) && '\\' !in Rooted(segments)
    ensures WslToWindows(env, Rooted(segments)) == Some("\\\\" + UncTail(env.distro, Rooted(segments)))
  {
    CanonicalIsFixed(env, Rooted(segments));
    SplitMountOfRooted(segments);
    hide Canonicalize, SplitMount, UncTail;
  }

  /** A network path below the distribution's own share is the path itself. */
  lemma UncFormBack(env: Env, tail: string, rest: seq<string>, c: string)
    requires GoodDistro(env) && IsCanonical(c) && c == Rooted(rest)
    requires NUL !in tail && tail != "" && tail[0] != '\\' && tail[0] != '/'
    requires Split(Replace(tail, '\\', '/')) == [SERVER, env.distro] + rest
    ensures Canonicalize(env, "\\\\" + tail) == Some(c)
  {
    CanonicalIsFixed(env, c);
    assert c[0] == '/' && c == "/" + Join(rest);
    assert Canonicalize(env, c) == CanonicalPosix(c);
    var w := "\\\\" + tail;
    assert w[2..] == tail;
    hide Split, Join, Replace, CanonicalPosix, Rooted, IsCanonical;
    assert ([SERVER, env.distro] + rest)[2..] == rest;
    assert CanonicalUnc(env, w) == CanonicalWsl(env, SERVER, env.distro, rest);
    assert NUL !in w;
  }

  lemma UncSegments(distro: string, c: string, rest: seq<string>)
    requires distro != "" && '\\' !in distro && '/' !in distro && '\\' !in c && c == Rooted(rest)
    requires rest != [] && forall i :: 0 <= i < |rest| ==> NoSlash(rest[i])
    ensures Split(Replace(UncTail(distro, c), '\\', '/')) == [SERVER, distro] + rest
  {
    hide Split, Replace;
    assert c[1..] == Join(rest);
    ReplaceUnc(SERVER, distro, c);
    JoinParts(SERVER, distro, rest);
    SplitJoin([SERVER, distro] + rest);
  }

  lemma WindowsUnc(env: Env, segments: seq<string>)
    requires CanonicalSegments(segments) && !IsMount(segments) && GoodDistro(env)
    requires NUL !in Rooted(segments) && '\\' !in Rooted(segments)
    ensures WslToWindows(env, Rooted(segments)).Some?
    ensures Canonicalize(env, WslToWindows(env, Rooted(segments)).value) == Some(Rooted(segments))
  {
    var c := Rooted(segments);
    var tail := UncTail(env.distro, c);
    var rest := if segments == [] then [""] else segments;
    assert Join(rest) == Join(segments);
    assert forall i :: 0 <= i < |c| ==> c[i] in c;
    assert tail[0] == 'w';
    assert NUL !in tail;
    hide Canonicalize, WslToWindows, UncTail;
    UncForm(env, segments);
    UncSegments(env.distro, c, rest);
    UncFormBack(env, tail, rest, c);
  }

  lemma JoinParts(a: string, b: string, rest: seq<string>)
    requires rest != []
    ensures Join([a, b] + rest) == a + "/" + b + "/" + Join(rest)
  {
    var all := [a, b] + rest;
    JoinHead(all);
    assert all[1..] == [b] + rest;
    JoinHead(all[1..]);
    assert all[1..][1..] == rest;
  }

  lemma ReplaceConcat(s: string, t: string, from: char, to: char)
    ensures Replace(s + t, from, to) == Replace(s, from, to) + Replace(t, from, to)
  {
  }

  lemma ReplaceNone(s: string, from: char, to: char)
    requires from !in s
    ensures Replace(s, from, to) == s
  {
    assert forall i :: 0 <= i < |s| ==> s[i] in s;
  }

  lemma ReplaceUnc(server: string, distro: string, c: string)
    requires '\\' !in server && '\\' !in distro && '\\' !in c && c != "" && c[0] == '/'
    ensures Replace(server + "\\" + distro + Replace(c, '/', '\\'), '\\', '/')
         == server + "/" + distro + "/" + c[1..]
  {
    var back := Replace(c, '/', '\\');
    ReplaceNone(server, '\\', '/');
    ReplaceNone(distro, '\\', '/');
    ReplaceBack(c, '/', '\\');
    assert Replace("\\", '\\', '/') == "/";
    assert c == "/" + c[1..];
    hide Replace;
    ReplaceConcat(server, "\\", '\\', '/');
    ReplaceConcat(server + "\\", distro, '\\', '/');
    ReplaceConcat(server + "\\" + distro, back, '\\', '/');
    assert server + "/" + distro + c == server + "/" + distro + "/" + c[1..];
  }

  /** Windows syntax names the same canonical path, whether it is on a drive, where
      the distribution does not matter, or in the distribution. */
  lemma WindowsRoundTrip(env: Env, c: string)
    requires IsCanonical(c) && '\\' !in c && (SplitMount(c).Some? || GoodDistro(env))
    ensures WslToWindows(env, c).Some?
    ensures Canonicalize(env, WslToWindows(env, c).value) == Some(c)
  {
    var segments :| CanonicalSegments(segments) && c == Rooted(segments);
    SplitMountOfRooted(segments);
    if IsMount(segments) {
      WindowsDrive(env, segments);
    } else {
      WindowsUnc(env, segments);
    }
  }
}
