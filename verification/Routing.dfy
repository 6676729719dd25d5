/**
 Which function an inbound request goes to, from its Host header and path.
 */
module Routing {
  import opened Wrappers
  import opened Letters
  import opened Names

  const RESERVED_PATH := "/_cf/"
  const PUSH_PATH := "/_cf/push/"

  datatype Resolved =
    | PathPrefix(function': string, restPath: string)
    | Host(function': string)
    | Push(function': string)
    | NoMatch

  datatype Resolver = Resolver(hostSuffix: Option<string>)

  // ---------- Strings ----------

  // Where `c` is first found in `s` from `n` on, or the length of `s`.
  function FirstFrom(s: string, c: char, n: nat): (i: nat)
    requires n <= |s|
    ensures n <= i <= |s| && (forall k | n <= k < i :: s[k] != c) && (i < |s| ==> s[i] == c)
    decreases |s| - n
  {
    if n == |s| || s[n] == c then n else FirstFrom(s, c, n + 1)
  }

  function FirstIndex(s: string, c: char): nat {
    FirstFrom(s, c, 0)
  }

  // Where `c` is last found in `s` before `n`, or -1.
  function LastBefore(s: string, c: char, n: nat): (i: int)
    requires n <= |s|
    ensures -1 <= i < n && (forall k | i < k < n :: s[k] != c) && (i >= 0 ==> s[i] == c)
  {
    if n == 0 then -1 else if s[n - 1] == c then n - 1 else LastBefore(s, c, n - 1)
  }

  function LastIndex(s: string, c: char): int {
    LastBefore(s, c, |s|)
  }

  predicate AllDigits(s: string) {
    forall c <- s :: '0' <= c <= '9'
  }

  predicate EndsWith(s: string, suffix: string) {
    |s| >= |suffix| && s[|s| - |suffix|..] == suffix
  }

  // ---------- Resolution ----------

  // Without a numeric port at the end.
  function WithoutPort(host: string): string {
    var colon := LastIndex(host, ':');
    if colon >= 0 && host[colon + 1..] != "" && AllDigits(host[colon + 1..]) then host[..colon] else host
  }

  function ResolveHost(r: Resolver, hostHeader: Option<string>): Option<string> {
    if r.hostSuffix.None? || r.hostSuffix.value == "" || hostHeader.None? then None
    else
      var host := WithoutPort(hostHeader.value);
      var suffix := "." + r.hostSuffix.value;
      if !EndsWith(host, suffix) then None
      else
        var name := host[..|host| - |suffix|];
        if ValidName(name) then Some(name) else None
  }

  // The first character is taken to be the slash, as it is for any request target.
  function ResolvePathPrefix(path: string): Resolved
    requires path != ""
  {
    var rest := path[1..];
    var i := FirstIndex(rest, '/');
    var name := rest[..i];
    var restPath := if i < |rest| then rest[i..] else "/";
    if ValidName(name) then PathPrefix(name, restPath) else NoMatch
  }

  function ResolvePath(path: string): Resolved {
    if PUSH_PATH <= path then
      var rest := path[|PUSH_PATH|..];
      var name := rest[..FirstIndex(rest, '/')];
      if ValidName(name) then Push(name) else NoMatch
    else if RESERVED_PATH <= path then NoMatch
    else if path == "" || path == "/" then NoMatch
    else ResolvePathPrefix(path)
  }

  function Resolve(r: Resolver, hostHeader: Option<string>, path: string): Resolved {
    var name := ResolveHost(r, hostHeader);
    if name.Some? then Host(name.value) else ResolvePath(path)
  }

  // ---------- Soundness ----------

  lemma NoSlashInNames(name: string)
    requires ValidName(name)
    ensures '/' !in name && ':' !in name && '.' !in name
  {
  }

  // `path` is the name with a slash before it, then the rest.
  predicate Composes(path: string, name: string, restPath: string) {
    || path == "/" + name + restPath
    || (restPath == "/" && path == "/" + name)
  }

  lemma PathPrefixSound(path: string)
    requires path != "" && ResolvePathPrefix(path).PathPrefix?
    ensures var p := ResolvePathPrefix(path);
            && ValidName(p.function') && p.restPath != "" && p.restPath[0] == '/'
            && (Composes(path, p.function', p.restPath) <==> path[0] == '/')
  {
    var rest := path[1..];
    var i := FirstIndex(rest, '/');
    var p := ResolvePathPrefix(path);
    assert path == [path[0]] + rest;
    if i < |rest| {
      assert rest == p.function' + p.restPath;
      assert path == [path[0]] + p.function' + p.restPath;
    } else {
      assert rest == p.function';
      assert path == [path[0]] + p.function';
    }
    assert path[0] == '/' ==> [path[0]] == "/";
  }

  /**
   Whatever the request: the function resolved to has a valid name; a path-prefix result rebuilds the path
   exactly if that began with a slash, and never comes from a path under the reserved prefix; a host result
   comes from a host that is the name, a dot and the suffix, but for a numeric port.
   */
  lemma ResolveSound(r: Resolver, hostHeader: Option<string>, path: string)
    ensures match Resolve(r, hostHeader, path)
            case NoMatch => true
            case PathPrefix(name, restPath) =>
              && ValidName(name) && path != "" && !("/_cf/" <= path) && restPath != "" && restPath[0] == '/'
              && (Composes(path, name, restPath) <==> path[0] == '/')
            case Host(name) =>
              && ValidName(name) && hostHeader.Some? && r.hostSuffix.Some? && r.hostSuffix.value != ""
              && WithoutPort(hostHeader.value) == name + "." + r.hostSuffix.value
            case Push(name) =>
              && ValidName(name)
              && exists rest: string :: path == "/_cf/push/" + name + rest && (rest == "" || rest[0] == '/')
  {
    match Resolve(r, hostHeader, path) {
      case NoMatch =>
      case PathPrefix(_, _) =>
        PushIsReserved(path);
        PathPrefixSound(path);
      case Host(name) => HostSound(r, hostHeader, name);
      case Push(name) => PushSound(path);
    }
  }

  lemma HostSound(r: Resolver, hostHeader: Option<string>, name: string)
    requires ResolveHost(r, hostHeader) == Some(name)
    ensures hostHeader.Some? && r.hostSuffix.Some? && r.hostSuffix.value != "" && ValidName(name)
    ensures WithoutPort(hostHeader.value) == name + "." + r.hostSuffix.value
  {
    var host, suffix := WithoutPort(hostHeader.value), "." + r.hostSuffix.value;
    assert host == host[..|host| - |suffix|] + host[|host| - |suffix|..];
    assert name + suffix == name + "." + r.hostSuffix.value;
  }

  lemma PushSound(path: string)
    requires ResolvePath(path).Push?
    ensures var name := ResolvePath(path).function';
            ValidName(name) && exists rest: string :: path == PUSH_PATH + name + rest && (rest == "" || rest[0] == '/')
  {
    var name := ResolvePath(path).function';
    var after := path[|PUSH_PATH|..];
    var rest := after[FirstIndex(after, '/')..];
    assert path == PUSH_PATH + after && after == name + rest;
    assert path == PUSH_PATH + name + rest;
  }

  lemma PushIsReserved(path: string)
    ensures PUSH_PATH <= path ==> RESERVED_PATH <= path
  {
    assert PUSH_PATH[..|RESERVED_PATH|] == RESERVED_PATH;
  }

  // ---------- Completeness ----------

  lemma NotAt(s: string, c: char, k: nat)
    requires c !in s && k < |s|
    ensures s[k] != c
  {
    assert s[k] in s;
  }

  lemma FirstIndexAfter(name: string, rest: string)
    requires '/' !in name && (rest == "" || rest[0] == '/')
    ensures FirstIndex(name + rest, '/') == |name|
  {
    var s := name + rest;
    var i := FirstIndex(s, '/');
    forall k | 0 <= k < |name| ensures s[k] != '/' {
      NotAt(name, '/', k);
    }
    assert rest != "" ==> s[|name|] == '/';
  }

  // A valid name starts with a letter, so its path is not reserved.
  lemma NamePathIsFree(name: string, rest: string)
    requires ValidName(name)
    ensures var path := "/" + name + rest;
            path != "" && path != "/" && !(RESERVED_PATH <= path) && !(PUSH_PATH <= path) && path[0] == '/'
  {
    var path := "/" + name + rest;
    assert path[1] == name[0];
    assert path[1] != RESERVED_PATH[1] && path[1] != PUSH_PATH[1];
  }

  // Every valid name's path, with or without more path, resolves to it when no host matches.
  lemma PathPrefixComplete(r: Resolver, hostHeader: Option<string>, name: string, rest: string)
    requires ValidName(name) && (rest == "" || rest[0] == '/') && ResolveHost(r, hostHeader).None?
    ensures Resolve(r, hostHeader, "/" + name + rest) == PathPrefix(name, if rest == "" then "/" else rest)
  {
    var path := "/" + name + rest;
    NoSlashInNames(name);
    NamePathIsFree(name, rest);
    FirstIndexAfter(name, rest);
    assert path[1..] == name + rest;
    assert (name + rest)[..|name|] == name && (name + rest)[|name|..] == rest;
  }

  lemma PushComplete(r: Resolver, hostHeader: Option<string>, name: string, rest: string)
    requires ValidName(name) && (rest == "" || rest[0] == '/') && ResolveHost(r, hostHeader).None?
    ensures Resolve(r, hostHeader, "/_cf/push/" + name + rest) == Push(name)
  {
    var path := PUSH_PATH + name + rest;
    NoSlashInNames(name);
    FirstIndexAfter(name, rest);
    assert path[|PUSH_PATH|..] == name + rest && path[..|PUSH_PATH|] == PUSH_PATH;
    assert (name + rest)[..|name|] == name;
  }

  lemma LastIndexAt(a: string, b: string, c: char)
    requires c !in b
    ensures LastIndex(a + [c] + b, c) == |a|
  {
    var s := a + [c] + b;
    var i := LastIndex(s, c);
    forall k | |a| < k < |s| ensures s[k] != c {
      NotAt(b, c, k - |a| - 1);
    }
    assert s[|a|] == c;
  }

  lemma NoColonNoPort(host: string)
    requires ':' !in host
    ensures WithoutPort(host) == host
  {
    forall k | 0 <= k < |host| ensures host[k] != ':' {
      NotAt(host, ':', k);
    }
  }

  // What follows the last colon is dropped exactly if it is a number.
  lemma PortIsDropped(host: string, port: string)
    requires ':' !in port
    ensures WithoutPort(host + ":" + port)
         == if port != "" && forall c <- port :: c in DIGITS then host else host + ":" + port
  {
    LastIndexAt(host, port, ':');
    var s := host + [':'] + port;
    assert s == host + ":" + port && s[|host| + 1..] == port && s[..|host|] == host;
    forall c <- port {
      LettersAndDigits(c);
    }
  }

  lemma SuffixOff(name: string, suffix: string)
    ensures EndsWith(name + suffix, suffix) && (name + suffix)[..|name + suffix| - |suffix|] == name
  {
  }

  lemma HostMatches(r: Resolver, header: string, name: string, path: string)
    requires r.hostSuffix.Some? && r.hostSuffix.value != "" && ValidName(name)
    requires WithoutPort(header) == name + ("." + r.hostSuffix.value)
    ensures Resolve(r, Some(header), path) == Host(name)
  {
    SuffixOff(name, "." + r.hostSuffix.value);
    assert ResolveHost(r, Some(header)) == Some(name);
  }

  // A host made of a valid name and the suffix, with or without a numeric port, is matched before any path.
  lemma HostComplete(r: Resolver, name: string, port: string, path: string)
    requires ValidName(name) && forall c <- port :: c in DIGITS
    requires r.hostSuffix.Some? && r.hostSuffix.value != "" && ':' !in r.hostSuffix.value
    ensures var host := name + "." + r.hostSuffix.value;
            && Resolve(r, Some(host), path) == Host(name)
            && (port != "" ==> Resolve(r, Some(host + ":" + port), path) == Host(name))
  {
    var host := name + "." + r.hostSuffix.value;
    NoSlashInNames(name);
    assert host == name + ("." + r.hostSuffix.value);
    NoColonNoPort(host);
    HostMatches(r, host, name, path);
    if port != "" {
      assert ':' !in port;
      PortIsDropped(host, port);
      HostMatches(r, host + ":" + port, name, path);
    }
  }
}
