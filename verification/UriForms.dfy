/**
 What every form of file URI leads to: a drive, this host under its own name, a WSL
 distribution, and the forms that are refused.
 */
module UriForms {
  import opened Wrappers
  import opened PathText
  import opened Pathnorm
  import opened PathLaws
  import opened FileUri

  // ------------------------------------------------------------ taking a URI apart

  /** A byte that ends no part of a URI. */
  predicate IsInner(c: char) {
    c != '#' && c != '?' && !IsControl(c)
  }

  predicate IsAuthority(a: string) {
    forall i :: 0 <= i < |a| ==> IsInner(a[i]) && a[i] != '/'
  }

  lemma InnerUri(a: string, path: string, i: nat)
    requires IsAuthority(a) && IsBytes(path) && i < 7 + |a| + |EscapePath(path)|
    ensures IsInner(("file://" + a + EscapePath(path))[i])
  {
    hide EscapePath, KeptInPath, IsControl;
    var raw := EscapePath(path);
    EscapedIsPlain(path);
    PartOfThree("file://", a, raw, i);
    if i < 7 {
      SchemeIsPlain(i);
    } else if i >= 7 + |a| {
      KeptIsPlain(raw[i - 7 - |a|]);
    }
  }

  lemma PartOfThree(x: string, y: string, z: string, i: nat)
    requires i < |x| + |y| + |z|
    ensures (x + y + z)[i]
         == if i < |x| then x[i] else if i < |x| + |y| then y[i - |x|] else z[i - |x| - |y|]
  {
  }

  lemma BodyOf(a: string, path: string)
    requires IsAuthority(a) && IsBytes(path)
    ensures FileUriBody("file://" + a + EscapePath(path)) == Some("//" + a + EscapePath(path))
  {
    hide IsControl, LowerAll, EscapePath;
    var uri, rest := "file://" + a + EscapePath(path), "//" + a + EscapePath(path);
    forall i: nat | i < |uri|
      ensures uri[i] != '#' && uri[i] != '?' && !IsControl(uri[i])
    {
      InnerUri(a, path, i);
    }
    IndexOfNone(uri, '#');
    assert uri[..|uri|] == uri;
    assert uri[..4] == "file" && uri[4] == ':' && uri[5..] == rest;
    LowerFile();
    assert forall i :: 0 <= i < |rest| ==> rest[i] == uri[i + 5];
    IndexOfNone(rest, '?');
    assert rest[..|rest|] == rest;
  }

  lemma SplitOf(a: string, raw: string)
    requires IsAuthority(a) && "/" <= raw
    ensures SplitAuthority("//" + a + raw) == (a, raw)
  {
    hide IsControl;
    var tail := a + raw;
    assert ("//" + a + raw)[2..] == tail;
    assert tail[|a|] == '/';
    assert forall i :: 0 <= i < |a| ==> tail[i] == a[i];
    var n := IndexOf(tail, '/');
    assert n == |a|;
    assert tail[..n] == a && tail[n..] == raw;
  }

  predicate IsWslHost(env: Env, host: string) {
    env.fold(host) == env.fold("wsl$") || env.fold(host) == env.fold(SERVER)
  }

  predicate IsThisHost(env: Env, host: string) {
    host == "" || env.fold(host) == env.fold("localhost")
  }

  /** URIToPath on a URI with a given authority and an escaped path. */
  lemma UriOfParts(env: Env, parse: string -> Option<Authority>, a: string, host: string, path: string)
    requires IsAuthority(a) && parse(a) == Some(Authority(false, host)) && IsBytes(path) && "/" <= path
    ensures UriToPath(env, parse, "file://" + a + EscapePath(path))
         == if IsWslHost(env, host) then UriWslPath(env, host, path)
            else if !IsThisHost(env, host) then None
            else Canonicalize(env, if HasDriveUriPath(path) then path[1..] else path)
  {
    hide FileUriBody, SplitAuthority, UnescapePath, EscapePath, Canonicalize, HasDriveUriPath, UriWslPath;
    BodyOf(a, path);
    EscapeKeepsRoot(path);
    SplitOf(a, EscapePath(path));
    UnescapeEscape(path);
    assert !HasEscapedDriveColon("");
    hide HasEscapedDriveColon;
  }

  // ------------------------------------------------------------------- the forms

  /** `file:///C:/...` leads to the drive's mount, cleaned below it. */
  lemma DriveUri(env: Env, parse: string -> Option<Authority>, drive: char, segments: seq<string>)
    requires Sound(env, parse) && IsLetter(drive) && SlashFree(segments)
    requires Without(segments, NUL) && Without(segments, '\\')
    requires IsBytes("/" + [drive, ':'] + Rooted(segments))
    ensures UriToPath(env, parse, "file://" + EscapePath("/" + [drive, ':'] + Rooted(segments)))
         == Some(Rooted(["mnt", [Lower(drive)]] + Walk([], segments)))
  {
    hide UriToPath, EscapePath, Canonicalize, Rooted, Walk, IsBytes, UriWslPath;
    var path := "/" + [drive, ':'] + Rooted(segments);
    UriOfParts(env, parse, "", "", path);
    assert "file://" + "" + EscapePath(path) == "file://" + EscapePath(path);
    assert path[0] == '/' && path[1] == drive && path[2] == ':';
    assert path[1..] == [drive, ':'] + Rooted(segments);
    DriveOfSegments(env, drive, segments);
  }

  /** A URI that names this host leads where the URI without a host does. */
  lemma LocalhostUri(env: Env, parse: string -> Option<Authority>, a: string, host: string, path: string)
    requires Sound(env, parse) && IsAuthority(a) && parse(a) == Some(Authority(false, host))
    requires IsThisHost(env, host) && !IsWslHost(env, host) && IsBytes(path) && "/" <= path
    ensures UriToPath(env, parse, "file://" + a + EscapePath(path))
         == UriToPath(env, parse, "file://" + EscapePath(path))
  {
    hide UriToPath, EscapePath, Canonicalize, IsBytes, UriWslPath;
    UriOfParts(env, parse, a, host, path);
    UriOfParts(env, parse, "", "", path);
    assert "file://" + "" + EscapePath(path) == "file://" + EscapePath(path);
  }

  /** A URI of a WSL host leads into the distribution that its first segment names, if
      that is this one, and is refused otherwise. */
  lemma WslUri(env: Env, parse: string -> Option<Authority>, a: string, host: string, distro: string,
               segments: seq<string>)
    requires IsAuthority(a) && parse(a) == Some(Authority(false, host)) && IsWslHost(env, host)
    requires SlashFree([distro] + segments) && IsBytes(Rooted([distro] + segments)) && distro != ""
    ensures UriToPath(env, parse, "file://" + a + EscapePath(Rooted([distro] + segments)))
         == if env.distro != "" && env.fold(distro) == env.fold(env.distro) then CanonicalPosix(Rooted(segments))
            else None
  {
    hide UriToPath, EscapePath, Canonicalize, CanonicalPosix, IsBytes, Split;
    var all := [distro] + segments;
    UriOfParts(env, parse, a, host, Rooted(all));
    assert Rooted(all)[1..] == Join(all);
    SplitJoin(all);
    assert all[0] == distro && all[1..] == segments;
    assert Join(all) != "" by { JoinStart(all); }
  }

  /** Other hosts are refused, and so are user names, queries, fragments and other
      schemes. */
  lemma ForeignHostIsRefused(env: Env, parse: string -> Option<Authority>, a: string, host: string, path: string)
    requires IsAuthority(a) && parse(a) == Some(Authority(false, host)) && IsBytes(path) && "/" <= path
    requires !IsThisHost(env, host) && !IsWslHost(env, host)
    ensures UriToPath(env, parse, "file://" + a + EscapePath(path)) == None
  {
    hide UriToPath, EscapePath, Canonicalize, IsBytes, UriWslPath;
    UriOfParts(env, parse, a, host, path);
  }

  lemma UserIsRefused(env: Env, parse: string -> Option<Authority>, a: string, path: string)
    requires IsAuthority(a) && parse(a).Some? && parse(a).value.user && IsBytes(path) && "/" <= path
    ensures UriToPath(env, parse, "file://" + a + EscapePath(path)) == None
  {
    hide FileUriBody, SplitAuthority, UnescapePath, EscapePath, Canonicalize, UriWslPath;
    BodyOf(a, path);
    EscapeKeepsRoot(path);
    SplitOf(a, EscapePath(path));
  }

  lemma FragmentIsRefused(env: Env, parse: string -> Option<Authority>, u: string, fragment: string)
    requires '#' !in u && fragment != ""
    ensures UriToPath(env, parse, u + "#" + fragment) == None
  {
    var uri := u + "#" + fragment;
    assert uri[|u|] == '#' && forall i :: 0 <= i < |u| ==> uri[i] == u[i] && u[i] in u;
    assert IndexOf(uri, '#') == |u|;
  }

  lemma QueryIsRefused(env: Env, parse: string -> Option<Authority>, u: string, query: string)
    requires '#' !in u && '#' !in query && '?' !in u && query != ""
    ensures UriToPath(env, parse, u + "?" + query) == None
  {
    hide IsControl, LowerAll;
    var uri := u + "?" + query;
    assert '#' !in uri;
    IndexOfNone(uri, '#');
    assert uri[..|uri|] == uri;
    if |u| >= 5 {
      var rest := uri[5..];
      assert rest[|u| - 5] == '?';
      assert forall i :: 0 <= i < |u| - 5 ==> rest[i] == u[i + 5] && u[i + 5] in u;
      assert IndexOf(rest, '?') == |u| - 5;
    } else if |uri| >= 5 {
      ShortScheme(u, uri);
    }
  }

  /** The scheme has no question mark in it. */
  lemma ShortScheme(u: string, uri: string)
    requires |u| < 5 <= |uri| && u <= uri && uri[|u|] == '?'
    ensures LowerAll(uri[..4]) != "file" || uri[4] != ':'
  {
    if |u| < 4 {
      LowerAllAt(uri[..4], |u|);
    }
  }

  lemma {:induction false} LowerAllAt(s: string, i: nat)
    requires i < |s|
    ensures |LowerAll(s)| == |s| && LowerAll(s)[i] == Lower(s[i])
  {
    if i == 0 {
      if |s| > 1 {
        LowerAllAt(s[1..], 0);
      }
    } else {
      LowerAllAt(s[1..], i - 1);
    }
  }

  lemma OtherSchemeIsRefused(env: Env, parse: string -> Option<Authority>, uri: string)
    requires '#' !in uri && (|uri| < 5 || LowerAll(uri[..4]) != "file" || uri[4] != ':')
    ensures UriToPath(env, parse, uri) == None
  {
    hide IsControl, LowerAll;
    IndexOfNone(uri, '#');
    assert uri[..|uri|] == uri;
  }
}
