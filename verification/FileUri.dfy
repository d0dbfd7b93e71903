/**
 The file URI codec of internal/pathnorm/pathnorm.go, over the parts of net/url
 that it uses: percent-encoding of a path and splitting of a URI.
 */
module FileUri {
  import opened Wrappers
  import opened PathText
  import opened Pathnorm
  import opened Hex

  // ------------------------------------------------------- percent-encoding

  function HexDigit(v: nat): (c: char)
    requires v < 16
    ensures IsHexDigit(c) && HexValue(c) == v
  {
    if v < 10 then ('0' as int + v) as char else ('A' as int + v - 10) as char
  }

  /** The bytes that net/url leaves alone in a path. */
  predicate KeptInPath(c: char) {
    'a' <= c <= 'z' || 'A' <= c <= 'Z' || '0' <= c <= '9' || c in "-_.~$&+,/:;=@"
  }

  predicate IsByte(c: char) {
    c as int < 256
  }

  predicate IsBytes(s: string) {
    forall i :: 0 <= i < |s| ==> IsByte(s[i])
  }

  /** url.escape in path mode. */
  function EscapePath(s: string): string
    requires IsBytes(s)
  {
    if s == "" then ""
    else if KeptInPath(s[0]) then [s[0]] + EscapePath(s[1..])
    else ['%', HexDigit(s[0] as int / 16), HexDigit(s[0] as int % 16)] + EscapePath(s[1..])
  }

  /** url.unescape in path mode. */
  function UnescapePath(s: string): Option<string>
    decreases |s|
  {
    if s == "" then Some("")
    else if s[0] == '%' then
      if |s| < 3 || !IsHexDigit(s[1]) || !IsHexDigit(s[2]) then None
      else match UnescapePath(s[3..])
        case None => None
        case Some(t) => Some([(HexValue(s[1]) * 16 + HexValue(s[2])) as char] + t)
    else match UnescapePath(s[1..])
      case None => None
      case Some(t) => Some([s[0]] + t)
  }

  lemma {:induction false} UnescapeEscape(s: string)
    requires IsBytes(s)
    ensures UnescapePath(EscapePath(s)) == Some(s)
  {
    if s != "" {
      UnescapeEscape(s[1..]);
      var e := EscapePath(s);
      assert [s[0]] + s[1..] == s;
      if KeptInPath(s[0]) {
        assert e[1..] == EscapePath(s[1..]);
      } else {
        assert IsByte(s[0]);
        assert e[3..] == EscapePath(s[1..]);
        assert HexValue(e[1]) * 16 + HexValue(e[2]) == s[0] as int;
      }
    }
  }

  /** An escaped path is made of kept bytes and escapes, so nothing in it can end
      the path early. */
  lemma {:induction false} EscapedIsPlain(s: string)
    requires IsBytes(s)
    ensures forall i :: 0 <= i < |EscapePath(s)| ==> KeptInPath(EscapePath(s)[i]) || EscapePath(s)[i] == '%'
  {
    if s != "" {
      EscapedIsPlain(s[1..]);
    }
  }

  // --------------------------------------------------------------- the codec

  predicate HasDriveUriPath(p: string) {
    |p| >= 3 && p[0] == '/' && IsLetter(p[1]) && p[2] == ':'
  }

  /** The escaped colon of a drive letter, the letter itself escaped or not. */
  predicate HasEscapedDriveColon(raw: string) {
    if |raw| < 5 || raw[0] != '/' then false
    else if raw[1] == '%' then
      && |raw| >= 7 && IsHexDigit(raw[2]) && IsHexDigit(raw[3])
      && IsLetter((HexValue(raw[2]) * 16 + HexValue(raw[3])) as char)
      && IsColonEscape(raw[4..7])
    else IsLetter(raw[1]) && IsColonEscape(raw[2..5])
  }

  predicate IsColonEscape(s: string) {
    s == "%3A" || s == "%3a"
  }

  /** The path part of the URI: a POSIX name that looks like a drive gets its colon
      escaped, so that it is not taken for one. */
  function UriPath(c: string): string
    requires IsBytes(c)
  {
    var escaped := EscapePath(c);
    if HasDriveUriPath(c) && |escaped| >= 3 then escaped[..2] + "%3A" + escaped[3..] else escaped
  }

  lemma CanonicalIsBytes(env: Env, p: string)
    requires IsBytes(p) && Canonicalize(env, p).Some?
    ensures IsBytes(Canonicalize(env, p).value)
  {
    var c := Canonicalize(env, p).value;
    hide Canonicalize;
    forall i | 0 <= i < |c|
      ensures IsByte(c[i])
    {
      if !IsByte(c[i]) {
        ForeignToCanonical(env, p, c[i]);
      }
    }
  }

  function PathToUri(env: Env, p: string): Option<string>
    requires IsBytes(p)
  {
    match Canonicalize(env, p)
    case None => None
    case Some(c) =>
      CanonicalIsBytes(env, p);
      Some("file://" + UriPath(c))
  }

  /** What net/url makes of the part between the slashes: user information present
      or not, and the host. */
  datatype Authority = Authority(user: bool, host: string)

  /** The index of the first `c` in `s`, or the length. */
  function IndexOf(s: string, c: char): (i: nat)
    ensures i <= |s| && (i < |s| ==> s[i] == c) && forall j :: 0 <= j < i ==> s[j] != c
  {
    if s == "" || s[0] == c then 0 else 1 + IndexOf(s[1..], c)
  }

  predicate IsControl(c: char) {
    c as int < 0x20 || c as int == 0x7F
  }

  function LowerAll(s: string): string {
    if s == "" then "" else [Lower(s[0])] + LowerAll(s[1..])
  }

  /** A URI of scheme file without query and fragment, as what follows `file:`. */
  function FileUriBody(uri: string): Option<string> {
    var body := uri[..IndexOf(uri, '#')];
    if IndexOf(uri, '#') + 1 < |uri| then None
    else if exists i :: 0 <= i < |body| && IsControl(body[i]) then None
    else if |body| < 5 || LowerAll(body[..4]) != "file" || body[4] != ':' then None
    else
      var rest := body[5..];
      var query := IndexOf(rest, '?');
      if query + 1 < |rest| then None else Some(rest[..query])
  }

  /** The authority and the still escaped path. */
  function SplitAuthority(rest: string): (string, string) {
    if "//" <= rest then
      var tail := rest[2..];
      var slash := IndexOf(tail, '/');
      (tail[..slash], tail[slash..])
    else ("", rest)
  }

  /** URIToPath. `parse` is net/url's parser of authorities. */
  function UriToPath(env: Env, parse: string -> Option<Authority>, uri: string): Option<string> {
    match FileUriBody(uri)
    case None => None
    case Some(rest) =>
      if !("/" <= rest) then None
      else
        var (authority, raw) := SplitAuthority(rest);
        match (parse(authority), UnescapePath(raw))
        case (Some(Authority(user, host)), Some(path)) =>
          if user then None
          else if env.EqualFold(host, "wsl$") || env.EqualFold(host, SERVER) then UriWslPath(env, host, path)
          else if host != "" && !env.EqualFold(host, "localhost") then None
          else if path == "" then None
          else
            // net/url records the raw form only when it is not the default encoding
            var rawPath := if IsBytes(path) && raw == EscapePath(path) then "" else raw;
            Canonicalize(env, if HasDriveUriPath(path) && !HasEscapedDriveColon(rawPath) then path[1..] else path)
        case _ => None
  }

  function UriWslPath(env: Env, host: string, path: string): Option<string> {
    var tail := if "/" <= path then path[1..] else path;
    if tail == "" then None
    else
      var segments := Split(tail);
      CanonicalWsl(env, host, segments[0], segments[1..])
  }

  // --------------------------------------------------------------- round trip

  /** Only the empty string folds to the empty string, and the empty authority is
      an empty host. */
  predicate Sound(env: Env, parse: string -> Option<Authority>) {
    && env.fold("wsl$") != env.fold("") && env.fold(SERVER) != env.fold("")
    && parse("") == Some(Authority(false, ""))
  }

  lemma UriPathBack(c: string)
    requires IsBytes(c) && c != "" && c[0] == '/'
    ensures UnescapePath(UriPath(c)) == Some(c) && "/" <= UriPath(c)
  {
    hide EscapePath;
    UnescapeEscape(c);
    if !HasDriveUriPath(c) {
      EscapeKeepsRoot(c);
    } else {
      DriveUriPath(c);
      var raw := UriPath(c);
      assert raw[1..][1..][3..] == EscapePath(c[3..]);
      UnescapeEscape(c[3..]);
      assert raw[1..][1..][..3] == "%3A";
      assert UnescapePath(raw[1..][1..]) == Some([':'] + c[3..]);
      assert [c[1]] + ([':'] + c[3..]) == c[1..];
      assert [c[0]] + c[1..] == c;
    }
  }

  lemma EscapeKeepsRoot(c: string)
    requires IsBytes(c) && c != "" && c[0] == '/'
    ensures "/" <= EscapePath(c)
  {
    assert KeptInPath('/');
  }

  /** One unfolding: a kept byte stands for itself. */
  lemma {:induction false} EscapeKept(s: string)
    requires IsBytes(s) && s != "" && KeptInPath(s[0])
    ensures EscapePath(s) == [s[0]] + EscapePath(s[1..])
  {
  }

  /** The first three bytes of a drive look-alike need no escape. */
  lemma DriveEscape(c: string)
    requires IsBytes(c) && HasDriveUriPath(c)
    ensures EscapePath(c) == c[..3] + EscapePath(c[3..])
  {
    assert KeptInPath(c[0]) && KeptInPath(c[1]) && KeptInPath(c[2]);
    hide KeptInPath, EscapePath, IsLetter;
    EscapeKept(c[2..]);
    assert c[2..][1..] == c[3..];
    EscapeKept(c[1..]);
    assert c[1..][1..] == c[2..];
    EscapeKept(c);
    Prepend(c, EscapePath(c[3..]));
  }

  lemma Prepend(c: string, rest: string)
    requires |c| >= 3
    ensures [c[0]] + ([c[1]] + ([c[2]] + rest)) == c[..3] + rest
  {
  }

  /** In the URI its colon is escaped. */
  lemma DriveUriPath(c: string)
    requires IsBytes(c) && HasDriveUriPath(c)
    ensures UriPath(c) == c[..2] + "%3A" + EscapePath(c[3..])
  {
    DriveEscape(c);
    hide EscapePath, IsLetter;
    var e := EscapePath(c);
    assert e[..2] == c[..2] && e[3..] == EscapePath(c[3..]);
  }

  lemma UriPathIsPlain(c: string)
    requires IsBytes(c)
    ensures forall i :: 0 <= i < |UriPath(c)| ==> KeptInPath(UriPath(c)[i]) || UriPath(c)[i] == '%'
  {
    EscapedIsPlain(c);
    var e, r := EscapePath(c), UriPath(c);
    assert KeptInPath('3') && KeptInPath('A');
    hide KeptInPath, EscapePath;
    if HasDriveUriPath(c) && |e| >= 3 {
      forall i | 0 <= i < |r|
        ensures KeptInPath(r[i]) || r[i] == '%'
      {
        if i < 2 {
          assert r[i] == e[i];
        } else if i < 5 {
          assert r[i] == "%3A"[i - 2];
        } else {
          assert r[i] == e[i - 2];
        }
      }
    }
  }

  lemma IndexOfNone(s: string, c: char)
    requires c !in s
    ensures IndexOf(s, c) == |s|
  {
    assert forall i :: 0 <= i < |s| ==> s[i] in s;
  }

  /** The bytes of an escaped path end nothing early. */
  lemma KeptIsPlain(c: char)
    requires KeptInPath(c) || c == '%'
    ensures c != '#' && c != '?' && !IsControl(c)
  {
  }

  lemma SchemeIsPlain(i: nat)
    requires i < 7
    ensures "file://"[i] != '#' && "file://"[i] != '?' && !IsControl("file://"[i])
  {
  }

  lemma UriIsPlain(path: string, i: nat)
    requires forall k :: 0 <= k < |path| ==> KeptInPath(path[k]) || path[k] == '%'
    requires i < 7 + |path|
    ensures var c := ("file://" + path)[i]; c != '#' && c != '?' && !IsControl(c)
  {
    hide KeptInPath, IsControl;
    if i < 7 {
      assert ("file://" + path)[i] == "file://"[i];
      SchemeIsPlain(i);
    } else {
      assert ("file://" + path)[i] == path[i - 7];
      KeptIsPlain(path[i - 7]);
    }
  }

  lemma BodyOfUri(path: string)
    requires "/" <= path
    requires forall i :: 0 <= i < |path| ==> KeptInPath(path[i]) || path[i] == '%'
    ensures FileUriBody("file://" + path) == Some("//" + path)
  {
    hide KeptInPath, IsControl, LowerAll;
    var uri := "file://" + path;
    forall i: nat | i < |uri|
      ensures uri[i] != '#' && uri[i] != '?' && !IsControl(uri[i])
    {
      UriIsPlain(path, i);
    }
    IndexOfNone(uri, '#');
    assert uri[..|uri|] == uri;
    assert uri[..4] == "file" && uri[4] == ':';
    LowerFile();
    var rest := "//" + path;
    assert uri[5..] == rest;
    assert forall i :: 0 <= i < |rest| ==> rest[i] == uri[i + 5];
    IndexOfNone(rest, '?');
    assert rest[..|rest|] == rest;
  }

  lemma LowerFile()
    ensures LowerAll("file") == "file"
  {
    assert "file"[1..] == "ile" && "ile"[1..] == "le" && "le"[1..] == "e" && "e"[1..] == "";
    assert LowerAll("e") == "e";
    assert LowerAll("le") == "le";
    assert LowerAll("ile") == "ile";
  }

  /** A drive look-alike carries its escaped colon, and net/url keeps it. */
  lemma DriveColonIsSeen(c: string)
    requires IsBytes(c) && HasDriveUriPath(c)
    ensures UriPath(c) != EscapePath(c) && HasEscapedDriveColon(UriPath(c))
  {
    DriveEscape(c);
    DriveUriPath(c);
    hide EscapePath;
    assert EscapePath(c)[2] == ':';
    assert UriPath(c)[2..5] == "%3A";
  }

  /** What URIToPath does with a URI that PathToURI can produce. */
  lemma UriToPathOf(env: Env, parse: string -> Option<Authority>, raw: string, path: string)
    requires FileUriBody("file://" + raw) == Some("//" + raw) && SplitAuthority("//" + raw) == ("", raw)
    requires UnescapePath(raw) == Some(path) && path != "" && IsBytes(path) && Sound(env, parse)
    requires HasDriveUriPath(path) ==> raw != EscapePath(path) && HasEscapedDriveColon(raw)
    ensures UriToPath(env, parse, "file://" + raw) == Canonicalize(env, path)
  {
    hide FileUriBody, SplitAuthority, UnescapePath, EscapePath, Canonicalize, HasEscapedDriveColon, HasDriveUriPath,
      UriWslPath;
  }

  /** The URI of a path leads back to the canonical path, drive look-alikes included. */
  lemma UriRoundTrip(env: Env, parse: string -> Option<Authority>, p: string, c: string)
    requires Canonicalize(env, p) == Some(c) && IsBytes(p) && Sound(env, parse)
    ensures PathToUri(env, p).Some?
    ensures UriToPath(env, parse, PathToUri(env, p).value) == Some(c)
  {
    hide FileUriBody, SplitAuthority, UnescapePath, UriPath, EscapePath, Canonicalize, HasEscapedDriveColon,
      HasDriveUriPath, UriToPath, KeptInPath, Sound;
    CanonicalIsBytes(env, p);
    CanonicalizeTwice(env, env, p);
    CanonicalStartsAtRoot(env, p);
    UriPathBack(c);
    UriPathIsPlain(c);
    BodyOfUri(UriPath(c));
    SplitOfBody(UriPath(c));
    if HasDriveUriPath(c) {
      DriveColonIsSeen(c);
    }
    UriToPathOf(env, parse, UriPath(c), c);
  }

  lemma CanonicalStartsAtRoot(env: Env, p: string)
    requires Canonicalize(env, p).Some?
    ensures var c := Canonicalize(env, p).value; c != "" && c[0] == '/'
  {
    CanonicalizeIsCanonical(env, p);
  }

  lemma SplitOfBody(raw: string)
    requires "/" <= raw
    ensures SplitAuthority("//" + raw) == ("", raw)
  {
    assert ("//" + raw)[2..] == raw;
  }

  /** Hence a URI names at most one canonical path. */
  lemma UrisAreInjective(env: Env, parse: string -> Option<Authority>, p: string, q: string, c: string, d: string)
    requires Canonicalize(env, p) == Some(c) && Canonicalize(env, q) == Some(d)
    requires IsBytes(p) && IsBytes(q) && Sound(env, parse)
    requires PathToUri(env, p) == PathToUri(env, q)
    ensures c == d
  {
    UriRoundTrip(env, parse, p, c);
    UriRoundTrip(env, parse, q, d);
  }
}
