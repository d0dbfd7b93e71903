/**
 What cleaning means: the laws that determine path.Clean on rooted paths, first for
 segments, then for the strings that Canonicalize accepts, POSIX paths, drive paths and
 paths into a WSL distribution alike.
 */
module PathLaws {
  import opened Wrappers
  import opened PathText
  import opened Pathnorm

  // -------------------------------------------------------------------- segments

  predicate SlashFree(segments: seq<string>) {
    forall i :: 0 <= i < |segments| ==> NoSlash(segments[i])
  }

  lemma {:induction false} WalkAppend(at: seq<string>, a: seq<string>, b: seq<string>)
    requires AllProper(at) && SlashFree(a) && SlashFree(b) && SlashFree(a + b)
    ensures Walk(at, a + b) == Walk(Walk(at, a), b)
    decreases |a|
  {
    if a == [] {
      assert a + b == b;
    } else {
      assert (a + b)[1..] == a[1..] + b && (a + b)[0] == a[0];
      if a[0] == "" || a[0] == "." {
        WalkAppend(at, a[1..], b);
      } else if a[0] == ".." {
        WalkAppend(if at == [] then [] else at[..|at| - 1], a[1..], b);
      } else {
        WalkAppend(at + [a[0]], a[1..], b);
      }
    }
  }

  /** `..` takes back the segment before it. */
  lemma ParentUndoes(a: seq<string>, x: string, b: seq<string>)
    requires SlashFree(a) && Proper(x) && SlashFree(b)
    ensures Walk([], a + [x, ".."] + b) == Walk([], a + b)
  {
    var at := Walk([], a);
    WalkAppend([], a, b);
    assert a + [x, ".."] + b == a + ([x, ".."] + b);
    WalkAppend([], a, [x, ".."] + b);
    assert ([x, ".."] + b)[1..] == [".."] + b && ([".."] + b)[1..] == b;
    assert (at + [x])[..|at|] == at;
  }

  /** `..` at the root stays there. */
  lemma RootIsItsParent(b: seq<string>)
    requires SlashFree(b)
    ensures Walk([], [".."] + b) == Walk([], b)
  {
    assert ([".."] + b)[1..] == b;
  }

  /** Empty segments and `.` name nothing. */
  lemma BlankIsNothing(a: seq<string>, x: string, b: seq<string>)
    requires SlashFree(a) && x in {"", "."} && SlashFree(b)
    ensures Walk([], a + [x] + b) == Walk([], a + b)
  {
    WalkAppend([], a, b);
    assert a + [x] + b == a + ([x] + b);
    WalkAppend([], a, [x] + b);
    assert ([x] + b)[1..] == b;
  }

  // The laws that say what cleaning is.

  ghost predicate KeepsProper(f: seq<string> -> seq<string>) {
    forall s :: AllProper(s) ==> f(s) == s
  }

  ghost predicate TakesParents(f: seq<string> -> seq<string>) {
    forall a, x, b {:trigger f(a + [x, ".."] + b)} ::
      AllProper(a) && Proper(x) && SlashFree(b) ==> f(a + [x, ".."] + b) == f(a + b)
  }

  ghost predicate StaysAtRoot(f: seq<string> -> seq<string>) {
    forall b {:trigger f([".."] + b)} :: SlashFree(b) ==> f([".."] + b) == f(b)
  }

  ghost predicate DropsBlanks(f: seq<string> -> seq<string>) {
    forall a, x, b {:trigger f(a + [x] + b)} ::
      AllProper(a) && x in {"", "."} && SlashFree(b) ==> f(a + [x] + b) == f(a + b)
  }

  ghost predicate Lawful(f: seq<string> -> seq<string>) {
    KeepsProper(f) && TakesParents(f) && StaysAtRoot(f) && DropsBlanks(f)
  }

  /** Cleaning, on all lists of segments. */
  function CleanSegments(s: seq<string>): seq<string> {
    if SlashFree(s) then Walk([], s) else s
  }

  lemma CleaningKeepsProper()
    ensures KeepsProper(CleanSegments)
  {
    forall s | AllProper(s)
      ensures CleanSegments(s) == s
    {
      assert forall i :: 0 <= i < |s| ==> Proper(s[i]);
      WalkProper([], s);
      assert [] + s == s;
    }
  }

  lemma CleaningTakesParents()
    ensures TakesParents(CleanSegments)
  {
    forall a, x, b {:trigger CleanSegments(a + [x, ".."] + b)} | AllProper(a) && Proper(x) && SlashFree(b)
      ensures CleanSegments(a + [x, ".."] + b) == CleanSegments(a + b)
    {
      hide Walk;
      assert forall i :: 0 <= i < |a| ==> Proper(a[i]);
      ParentUndoes(a, x, b);
    }
  }

  lemma CleaningStaysAtRoot()
    ensures StaysAtRoot(CleanSegments)
  {
    forall b {:trigger CleanSegments([".."] + b)} | SlashFree(b)
      ensures CleanSegments([".."] + b) == CleanSegments(b)
    {
      hide Walk;
      RootIsItsParent(b);
    }
  }

  lemma CleaningDropsBlanks()
    ensures DropsBlanks(CleanSegments)
  {
    forall a, x, b {:trigger CleanSegments(a + [x] + b)} | AllProper(a) && x in {"", "."} && SlashFree(b)
      ensures CleanSegments(a + [x] + b) == CleanSegments(a + b)
    {
      hide Walk;
      assert forall i :: 0 <= i < |a| ==> Proper(a[i]);
      BlankIsNothing(a, x, b);
    }
  }

  /** Cleaning obeys the laws. */
  lemma CleaningIsLawful()
    ensures Lawful(CleanSegments)
  {
    hide KeepsProper, TakesParents, StaysAtRoot, DropsBlanks;
    CleaningKeepsProper();
    CleaningTakesParents();
    CleaningStaysAtRoot();
    CleaningDropsBlanks();
  }

  /** Where the proper segments at the front end. */
  function ProperPrefix(s: seq<string>): (n: nat)
    ensures n <= |s| && AllProper(s[..n]) && (n < |s| ==> !Proper(s[n]))
  {
    if s == [] || !Proper(s[0]) then 0
    else
      var n := 1 + ProperPrefix(s[1..]);
      assert s[..n] == [s[0]] + s[1..][..n - 1];
      n
  }

  /** There is only one way to obey them. */
  lemma {:induction false} LawsDetermineWalk(f: seq<string> -> seq<string>, s: seq<string>)
    requires Lawful(f) && SlashFree(s)
    ensures f(s) == Walk([], s)
    decreases |s|
  {
    var n := ProperPrefix(s);
    if n == |s| {
      assert s[..n] == s;
      WalkProper([], s);
      assert [] + s == s;
    } else if s[n] == "" || s[n] == "." {
      var a, b := s[..n], s[n + 1..];
      assert s == a + [s[n]] + b;
      BlankIsNothing(a, s[n], b);
      LawsDetermineWalk(f, a + b);
    } else if n == 0 {
      assert s == [".."] + s[1..];
      RootIsItsParent(s[1..]);
      LawsDetermineWalk(f, s[1..]);
    } else {
      var a, x, b := s[..n - 1], s[n - 1], s[n + 1..];
      assert s == a + [x, ".."] + b;
      assert x == s[..n][n - 1] && AllProper(a);
      ParentUndoes(a, x, b);
      LawsDetermineWalk(f, a + b);
    }
  }

  // ----------------------------------------------------------------- POSIX paths

  /** Splitting a rooted path gives its segments back. */
  lemma WalkOfRooted(segments: seq<string>)
    requires SlashFree(segments)
    ensures Walk([], Split(Rooted(segments)[1..])) == Walk([], segments)
  {
    assert Rooted(segments)[1..] == Join(segments);
    if segments == [] {
      assert Split("") == [""] && [""][1..] == [];
    } else {
      SplitJoin(segments);
    }
  }

  ghost predicate Without(segments: seq<string>, c: char) {
    forall i :: 0 <= i < |segments| ==> c !in segments[i]
  }

  lemma RootedWithout(segments: seq<string>, c: char)
    requires c != '/'
    ensures c !in Rooted(segments) <==> Without(segments, c)
  {
    if c in Rooted(segments) {
      assert c in Join(segments);
      JoinHas(segments, c);
    } else {
      assert Rooted(segments)[1..] == Join(segments);
      forall i | 0 <= i < |segments|
        ensures c !in segments[i]
      {
        if c in segments[i] {
          JoinContains(segments, i, c);
        }
      }
    }
  }

  /** Canonicalize on a POSIX path, segment by segment. */
  lemma PosixOfSegments(env: Env, segments: seq<string>)
    requires SlashFree(segments) && !("//" <= Rooted(segments))
    ensures Canonicalize(env, Rooted(segments))
         == if Without(segments, NUL) then Some(Rooted(LowerMount(Walk([], segments)))) else None
  {
    hide LowerMount;
    RootedWithout(segments, NUL);
    if Without(segments, NUL) {
      PosixMeaning(Rooted(segments));
      WalkOfRooted(segments);
    }
  }

  /** `..` takes back the segment before it, in any absolute path. */
  lemma CanonicalParent(env: Env, a: seq<string>, x: string, b: seq<string>)
    requires SlashFree(a) && Proper(x) && NUL !in x && SlashFree(b)
    requires !("//" <= Rooted(a + [x, ".."] + b)) && !("//" <= Rooted(a + b))
    ensures Canonicalize(env, Rooted(a + [x, ".."] + b)) == Canonicalize(env, Rooted(a + b))
  {
    hide Canonicalize, Rooted, Walk, LowerMount;
    PosixOfSegments(env, a + [x, ".."] + b);
    PosixOfSegments(env, a + b);
    ParentUndoes(a, x, b);
    WithoutMiddle(a, [x, ".."], b, NUL);
  }

  lemma WithoutMiddle(a: seq<string>, m: seq<string>, b: seq<string>, c: char)
    requires Without(m, c)
    ensures Without(a + m + b, c) <==> Without(a + b, c)
  {
    WithoutConcat(a, b, c);
    WithoutConcat(a + m, b, c);
    WithoutConcat(a, m, c);
  }

  lemma WithoutConcat(a: seq<string>, b: seq<string>, c: char)
    ensures Without(a + b, c) <==> Without(a, c) && Without(b, c)
  {
    assert forall i :: 0 <= i < |a| ==> a[i] == (a + b)[i];
    assert forall i :: 0 <= i < |b| ==> b[i] == (a + b)[i + |a|];
  }

  lemma CanonicalRootParent(env: Env, b: seq<string>)
    requires SlashFree(b) && !("//" <= Rooted(b))
    ensures Canonicalize(env, Rooted([".."] + b)) == Canonicalize(env, Rooted(b))
  {
    assert Rooted([".."] + b)[1] == '.' by { JoinStart([".."] + b); }
    hide Canonicalize, Rooted, Walk, LowerMount;
    PosixOfSegments(env, [".."] + b);
    PosixOfSegments(env, b);
    RootIsItsParent(b);
    assert [] + [".."] + b == [".."] + b && [] + b == b;
    WithoutMiddle([], [".."], b, NUL);
  }

  lemma JoinStart(segments: seq<string>)
    requires segments != [] && segments[0] != ""
    ensures |Rooted(segments)| >= 2 && Rooted(segments)[1] == segments[0][0]
  {
  }

  lemma CanonicalBlank(env: Env, a: seq<string>, x: string, b: seq<string>)
    requires SlashFree(a) && x in {"", "."} && SlashFree(b)
    requires !("//" <= Rooted(a + [x] + b)) && !("//" <= Rooted(a + b))
    ensures Canonicalize(env, Rooted(a + [x] + b)) == Canonicalize(env, Rooted(a + b))
  {
    hide Canonicalize, Rooted, Walk, LowerMount;
    PosixOfSegments(env, a + [x] + b);
    PosixOfSegments(env, a + b);
    BlankIsNothing(a, x, b);
    WithoutMiddle(a, [x], b, NUL);
  }

  // ----------------------------------------------------------------- drive paths

  /** Leading slashes make no difference. */
  lemma {:induction false} WalkTrimmed(s: string)
    ensures Walk([], Split(TrimSlashes(s))) == Walk([], Split(s))
  {
    if s != "" && s[0] == '/' {
      WalkTrimmed(s[1..]);
      assert ([""] + Split(s[1..]))[1..] == Split(s[1..]);
    }
  }

  /** A drive path leads to the drive's own mount, cleaned below it. */
  lemma DriveOfSegments(env: Env, drive: char, segments: seq<string>)
    requires IsLetter(drive) && SlashFree(segments) && Without(segments, NUL) && Without(segments, '\\')
    ensures Canonicalize(env, [drive, ':'] + Rooted(segments))
         == Some(Rooted(["mnt", [Lower(drive)]] + Walk([], segments)))
  {
    var p, rooted := [drive, ':'] + Rooted(segments), Rooted(segments);
    RootedWithout(segments, NUL);
    RootedWithout(segments, '\\');
    assert p[2..] == rooted && p[0] == drive && p[1] == ':' && p[2] == '/';
    assert NUL !in p;
    ReplaceNone(rooted, '\\', '/');
    assert Canonicalize(env, p) == CanonicalDrive(p);
    DriveStaysOnDrive(env, p);
    hide Canonicalize, CanonicalDrive;
    WalkTrimmed(rooted);
    WalkOfRooted(segments);
    assert ([""] + Split(rooted[1..]))[1..] == Split(rooted[1..]);
  }

  lemma DriveParent(env: Env, drive: char, a: seq<string>, x: string, b: seq<string>)
    requires IsLetter(drive) && SlashFree(a + b) && Proper(x) && NUL !in x && '\\' !in x
    requires Without(a + b, NUL) && Without(a + b, '\\')
    ensures Canonicalize(env, [drive, ':'] + Rooted(a + [x, ".."] + b))
         == Canonicalize(env, [drive, ':'] + Rooted(a + b))
  {
    hide Canonicalize, Rooted, Walk;
    SlashFreeParts(a, b);
    WithoutMiddle(a, [x, ".."], b, NUL);
    WithoutMiddle(a, [x, ".."], b, '\\');
    DriveOfSegments(env, drive, a + [x, ".."] + b);
    DriveOfSegments(env, drive, a + b);
    ParentUndoes(a, x, b);
  }

  lemma SlashFreeParts(a: seq<string>, b: seq<string>)
    requires SlashFree(a + b)
    ensures SlashFree(a) && SlashFree(b)
  {
    assert forall i :: 0 <= i < |a| ==> a[i] == (a + b)[i];
    assert forall i :: 0 <= i < |b| ==> b[i] == (a + b)[i + |a|];
  }

  /** In a drive path a backslash is a slash. */
  lemma BackslashIsSlash(env: Env, p: string)
    requires IsDrivePath(p)
    ensures Canonicalize(env, p) == Canonicalize(env, p[..2] + Replace(p[2..], '\\', '/'))
  {
    var q := p[..2] + Replace(p[2..], '\\', '/');
    var t := Replace(p[2..], '\\', '/');
    assert q[0] == p[0] && q[1] == p[1] && q[2..] == t;
    assert |p| > 2 ==> q[2] == t[0] == '/';
    assert '\\' !in t;
    ReplaceNone(t, '\\', '/');
    assert NUL in p <==> NUL in q by {
      assert forall i :: 0 <= i < |p| ==> q[i] == if i >= 2 && p[i] == '\\' then '/' else p[i];
    }
  }

  // ---------------------------------------------------------- WSL distributions

  /** A path into a share leads to the path inside the distribution if the share is
      WSL's and the distribution is this one, and is refused otherwise. */
  lemma UncOfSegments(env: Env, server: string, distro: string, segments: seq<string>)
    requires SlashFree([server, distro] + segments) && server != "" && distro != ""
    requires Without([server, distro] + segments, NUL) && Without([server, distro] + segments, '\\')
    ensures Canonicalize(env, "\\\\" + Replace(Join([server, distro] + segments), '/', '\\'))
         == if (env.fold(server) == env.fold("wsl$") || env.fold(server) == env.fold(SERVER))
               && env.distro != "" && env.fold(distro) == env.fold(env.distro)
            then CanonicalPosix(Rooted(segments)) else None
  {
    var all := [server, distro] + segments;
    var tail := Replace(Join(all), '/', '\\');
    var p := "\\\\" + tail;
    RootedWithout(all, NUL);
    RootedWithout(all, '\\');
    assert Rooted(all)[1..] == Join(all);
    assert '\\' !in Join(all) && NUL !in Join(all);
    assert NUL !in tail by { ReplaceKeepsOut(Join(all), '/', '\\', NUL); }
    assert p[2..] == tail && p[0] == '\\' && p[1] == '\\' && NUL !in p;
    ReplaceBack(Join(all), '/', '\\');
    SplitJoin(all);
    JoinStart(all);
    assert all[0] == server && all[1] == distro && all[2..] == segments;
    assert tail[0] == server[0];
    assert server[0] != '/' && server[0] in server && server[0] != '\\';
    hide CanonicalPosix, Split, Join;
  }

  lemma ReplaceKeepsOut(s: string, from: char, to: char, c: char)
    requires c !in s && c != to
    ensures c !in Replace(s, from, to)
  {
  }

  // ------------------------------------------------------------ what is accepted

  /** `p` spells this server, distribution and path, and they are this host's own. */
  predicate Spells(env: Env, p: string, server: string, distro: string, rest: seq<string>) {
    && SlashFree([server, distro] + rest) && server != "" && distro != ""
    && IsUncPath(p) && Replace(p[2..], '\\', '/') == Join([server, distro] + rest)
    && (env.fold(server) == env.fold("wsl$") || env.fold(server) == env.fold(SERVER))
    && env.distro != "" && env.fold(distro) == env.fold(env.distro)
    && !("//" <= Rooted(rest))
  }

  /** A path into a share of this host's own distribution. */
  ghost predicate NamesDistribution(env: Env, p: string) {
    exists server, distro, rest :: Spells(env, p, server, distro, rest)
  }

  /** Canonicalize accepts exactly the absolute POSIX paths that do not begin with two
      slashes, the drive paths with a separator after the colon, and the paths into this
      host's own distribution, none of them with a NUL byte. */
  lemma AcceptedExactly(env: Env, p: string)
    ensures Canonicalize(env, p).Some? <==>
              && NUL !in p
              && (|| ("/" <= p && !("//" <= p))
                  || (|p| >= 3 && IsLetter(p[0]) && p[1] == ':' && (p[2] == '/' || p[2] == '\\'))
                  || NamesDistribution(env, p))
  {
    if p != "" && NUL !in p && IsUncPath(p) {
      hide Canonicalize, CanonicalUnc, NamesDistribution;
      assert p[0] == '\\' && !IsLetter('\\');
      UncAccepted(env, p);
      assert Canonicalize(env, p) == CanonicalUnc(env, p) by { UncIsUnc(env, p); }
    } else if NUL !in p {
      assert !NamesDistribution(env, p);
    }
  }

  lemma UncIsUnc(env: Env, p: string)
    requires p != "" && NUL !in p && IsUncPath(p)
    ensures Canonicalize(env, p) == CanonicalUnc(env, p)
  {
    hide CanonicalUnc;
  }

  lemma UncAccepted(env: Env, p: string)
    requires IsUncPath(p) && NUL !in p
    ensures CanonicalUnc(env, p).Some? <==> NamesDistribution(env, p)
  {
    hide CanonicalUnc, Spells;
    if CanonicalUnc(env, p).Some? {
      AcceptedSpells(env, p);
    }
    if NamesDistribution(env, p) {
      var server, distro, rest :| Spells(env, p, server, distro, rest);
      SpelledIsAccepted(env, p, server, distro, rest);
    }
  }

  lemma AcceptedSpells(env: Env, p: string)
    requires IsUncPath(p) && NUL !in p && CanonicalUnc(env, p).Some?
    ensures NamesDistribution(env, p)
  {
    var text := Replace(p[2..], '\\', '/');
    var segments := Split(text);
    JoinSplit(text);
    hide Split, Join, Replace, Clean;
    var server, distro, rest := segments[0], segments[1], segments[2..];
    assert segments == [server, distro] + rest;
    assert Spells(env, p, server, distro, rest);
  }

  lemma SpelledIsAccepted(env: Env, p: string, server: string, distro: string, rest: seq<string>)
    requires IsUncPath(p) && NUL !in p && Spells(env, p, server, distro, rest)
    ensures CanonicalUnc(env, p).Some?
  {
    var all := [server, distro] + rest;
    hide Split, Join, Replace, Clean;
    SplitJoin(all);
    assert all[0] == server && all[1] == distro && all[2..] == rest;
    ServerFirst(p[2..], server, all);
    NoNulInside(p[2..], all);
    assert forall i :: 0 <= i < |rest| ==> rest[i] == all[i + 2];
    RootedWithout(rest, NUL);
  }

  lemma ServerFirst(tail: string, server: string, all: seq<string>)
    requires |all| >= 2 && all[0] == server && server != "" && NoSlash(server)
    requires Replace(tail, '\\', '/') == Join(all)
    ensures tail != "" && tail[0] != '\\' && tail[0] != '/'
  {
    assert Join(all)[0] == server[0];
  }

  lemma NoNulInside(tail: string, all: seq<string>)
    requires NUL !in tail && Replace(tail, '\\', '/') == Join(all)
    ensures Without(all, NUL)
  {
    ReplaceKeepsOut(tail, '\\', '/', NUL);
    RootedWithout(all, NUL);
    assert Rooted(all) == "/" + Join(all);
  }
}
