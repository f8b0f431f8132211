/** The server settings screen: picking a named environment, or typing a
    custom URL that must pass the URL check before it is stored. The dialog
    and the list are not modelled; what the user typed is an input. */
module ServerSettings {
  import opened Lang
  import opened Config
  import opened Network

  /** Kotlin's `Char.isWhitespace()` on the JVM: `Character.isWhitespace`
      or `Character.isSpaceChar`. */
  predicate IsWhitespace(c: char)
  {
    || c == '\t' || c == '\n' || c == '\U{B}' || c == '\U{C}' || c == '\r'
    || '\U{1C}' <= c <= '\U{1F}'
    || c == ' ' || c == '\U{A0}' || c == '\U{1680}'
    || '\U{2000}' <= c <= '\U{200A}'
    || c == '\U{2028}' || c == '\U{2029}' || c == '\U{202F}' || c == '\U{205F}' || c == '\U{3000}'
  }

  /** The characters a regex `.` does not match without flags: Java's line
      terminators. */
  predicate IsLineTerminator(c: char)
  {
    c == '\n' || c == '\r' || c == '\U{85}' || c == '\U{2028}' || c == '\U{2029}'
  }

  /** Drops leading whitespace. */
  function TrimStart(s: string): (r: string)
    ensures |r| <= |s| && r == s[|s| - |r|..]
    ensures r == [] || !IsWhitespace(r[0])
  {
    if s != [] && IsWhitespace(s[0]) then TrimStart(s[1..]) else s
  }

  /** Drops trailing whitespace. */
  function TrimEnd(s: string): (r: string)
    ensures |r| <= |s| && r == s[..|r|]
    ensures r == [] || !IsWhitespace(r[|r| - 1])
  {
    if s != [] && IsWhitespace(s[|s| - 1]) then TrimEnd(s[..|s| - 1]) else s
  }

  /** Everything `TrimStart` drops is whitespace. */
  lemma {:induction false} TrimStartDropsWhitespace(s: string)
    ensures forall i :: 0 <= i < |s| - |TrimStart(s)| ==> IsWhitespace(s[i])
  {
    if s != [] && IsWhitespace(s[0]) {
      TrimStartDropsWhitespace(s[1..]);
      forall i | 1 <= i < |s| - |TrimStart(s)| ensures IsWhitespace(s[i]) {
        assert s[i] == s[1..][i - 1];
      }
    }
  }

  /** Everything `TrimEnd` drops is whitespace. */
  lemma {:induction false} TrimEndDropsWhitespace(s: string)
    ensures forall i :: |TrimEnd(s)| <= i < |s| ==> IsWhitespace(s[i])
  {
    if s != [] && IsWhitespace(s[|s| - 1]) {
      TrimEndDropsWhitespace(s[..|s| - 1]);
    }
  }

  /** `trim()`. */
  function Trim(s: string): string
  {
    TrimEnd(TrimStart(s))
  }

  /** Trimming keeps the slice of the text between its leading and its
      trailing whitespace. */
  lemma TrimKeepsMiddle(s: string)
    ensures var i := |s| - |TrimStart(s)|; i + |Trim(s)| <= |s| && Trim(s) == s[i..i + |Trim(s)|]
    ensures forall k :: 0 <= k < |s| - |TrimStart(s)| ==> IsWhitespace(s[k])
    ensures forall k :: |s| - |TrimStart(s)| + |Trim(s)| <= k < |s| ==> IsWhitespace(s[k])
  {
    var t, r := TrimStart(s), Trim(s);
    TrimStartDropsWhitespace(s);
    TrimEndDropsWhitespace(t);
    MiddleSlice(s, t, r);
  }

  /** A prefix `r` of a suffix `t` of `s` is a slice of `s`; what `t` has
      after `r` is what `s` has after that slice. */
  lemma MiddleSlice(s: string, t: string, r: string)
    requires |t| <= |s| && t == s[|s| - |t|..]
    requires |r| <= |t| && r == t[..|r|]
    requires forall k :: |r| <= k < |t| ==> IsWhitespace(t[k])
    ensures var i := |s| - |t|;
            && r == s[i..i + |r|]
            && forall k :: i + |r| <= k < |s| ==> IsWhitespace(s[k])
  {
    var i := |s| - |t|;
    assert s[i..][..|r|] == s[i..i + |r|];
    forall k | i + |r| <= k < |s| ensures IsWhitespace(s[k]) {
      assert s[k] == t[k - i];
    }
  }

  /** A trimmed text has no whitespace at either end, so trimming again
      changes nothing. */
  lemma TrimIdempotent(s: string)
    ensures Trim(s) == [] || (!IsWhitespace(Trim(s)[0]) && !IsWhitespace(Trim(s)[|Trim(s)| - 1]))
    ensures Trim(Trim(s)) == Trim(s)
  {
    var t := TrimStart(s);
    var r := TrimEnd(t);
    if r != [] {
      assert r[0] == t[0];
    }
    assert TrimStart(r) == r;
  }

  function StartsWith(s: string, prefix: string): bool
  {
    |prefix| <= |s| && s[..|prefix|] == prefix
  }

  /** Index of the first '/', or the length when there is none. */
  function SlashIndex(s: string): (k: nat)
    ensures k <= |s| && (k < |s| ==> s[k] == '/')
    ensures forall i :: 0 <= i < k ==> s[i] != '/'
  {
    if s == [] || s[0] == '/' then 0 else 1 + SlashIndex(s[1..])
  }

  /** What follows the scheme, if the URL starts with one. */
  function AfterScheme(url: string): Option<string>
  {
    if StartsWith(url, "http://") then Some(url[7..])
    else if StartsWith(url, "https://") then Some(url[8..])
    else None
  }

  /** `isValidUrl`, scanning the text once: a scheme, at least one character
      before the first '/', and after that '/' no line terminator. */
  function IsValidUrl(url: string): bool
  {
    match AfterScheme(url)
    case None => false
    case Some(rest) =>
      var k := SlashIndex(rest);
      k >= 1 && forall i :: k < i < |rest| ==> !IsLineTerminator(rest[i])
  }

  /** One way to read `url` against `^(https?://)([^/]+)(:[0-9]+)?(/.*)?$`,
      group by group. */
  ghost predicate PatternParts(url: string, scheme: string, host: string, port: string, path: string)
  {
    && url == scheme + host + port + path
    && (scheme == "http://" || scheme == "https://")
    && |host| >= 1 && (forall i :: 0 <= i < |host| ==> host[i] != '/')
    && (port == [] || (|port| >= 2 && port[0] == ':' && forall i :: 1 <= i < |port| ==> IsDigit(port[i])))
    && (path == [] || (path[0] == '/' && forall i :: 1 <= i < |path| ==> !IsLineTerminator(path[i])))
  }

  /** The whole text matches the pattern. */
  ghost predicate MatchesUrlPattern(url: string)
  {
    exists scheme, host, port, path :: PatternParts(url, scheme, host, port, path)
  }

  /** The first '/' is found where a slash-free prefix ends at a '/' or at
      the end. */
  lemma SlashIndexAt(s: string, k: nat)
    requires k <= |s| && (k < |s| ==> s[k] == '/')
    requires forall i :: 0 <= i < k ==> s[i] != '/'
    ensures SlashIndex(s) == k
  {
  }

  /** Every text the scan accepts matches the pattern, with the port group
      left empty. */
  lemma ValidUrlMatchesWithoutPort(url: string)
    requires IsValidUrl(url)
    ensures exists scheme, host, path :: PatternParts(url, scheme, host, [], path)
  {
    var scheme, rest := SchemeSplit(url);
    var host, path := HostPathSplit(rest);
    assert url == scheme + host + [] + path by {
      assert scheme + host + [] + path == scheme + (host + path);
    }
    assert PatternParts(url, scheme, host, [], path);
  }

  /** A text with a scheme is that scheme followed by what comes after it. */
  lemma SchemeSplit(url: string) returns (scheme: string, rest: string)
    requires AfterScheme(url).Some?
    ensures scheme == "http://" || scheme == "https://"
    ensures url == scheme + rest && AfterScheme(url) == Some(rest)
  {
    scheme := if StartsWith(url, "http://") then "http://" else "https://";
    rest := AfterScheme(url).value;
    assert url[..|scheme|] == scheme && rest == url[|scheme|..];
  }

  /** What the scan accepts after the scheme is a non-empty slash-free host
      followed by an empty path or a '/' and no line terminator. */
  lemma HostPathSplit(rest: string) returns (host: string, path: string)
    requires SlashIndex(rest) >= 1 && forall i :: SlashIndex(rest) < i < |rest| ==> !IsLineTerminator(rest[i])
    ensures rest == host + path
    ensures |host| >= 1 && forall i :: 0 <= i < |host| ==> host[i] != '/'
    ensures path == [] || (path[0] == '/' && forall i :: 1 <= i < |path| ==> !IsLineTerminator(path[i]))
  {
    var k := SlashIndex(rest);
    host, path := rest[..k], rest[k..];
    assert host + path == rest;
    forall i | 1 <= i < |path| ensures !IsLineTerminator(path[i]) {
      assert path[i] == rest[k + i];
    }
  }

  /** What follows a recognised scheme is the rest of the text. */
  lemma AfterSchemeOf(scheme: string, rest: string)
    requires scheme == "http://" || scheme == "https://"
    ensures AfterScheme(scheme + rest) == Some(rest)
  {
    var url := scheme + rest;
    assert url[..|scheme|] == scheme;
    if scheme == "https://" {
      assert url[4] == 's';
    }
  }

  /** A text after the scheme whose first '/' ends a non-empty host and is
      followed by no line terminator passes the scan. */
  lemma ValidUrlOf(scheme: string, host: string, path: string)
    requires scheme == "http://" || scheme == "https://"
    requires |host| >= 1 && forall i :: 0 <= i < |host| ==> host[i] != '/'
    requires path == [] || (path[0] == '/' && forall i :: 1 <= i < |path| ==> !IsLineTerminator(path[i]))
    ensures IsValidUrl(scheme + (host + path))
  {
    var rest := host + path;
    AfterSchemeOf(scheme, rest);
    SlashIndexAt(rest, |host|);
    forall i | |host| < i < |rest| ensures !IsLineTerminator(rest[i]) {
      assert rest[i] == path[i - |host|];
    }
  }

  /** Every text the pattern matches passes the scan: the host and the port
      together are the text before the first '/'. */
  lemma PatternMatchIsValidUrl(url: string, scheme: string, host: string, port: string, path: string)
    requires PatternParts(url, scheme, host, port, path)
    ensures IsValidUrl(url)
  {
    var hp := host + port;
    assert url == scheme + (hp + path);
    forall i | 0 <= i < |hp| ensures hp[i] != '/' {
      if i >= |host| {
        assert hp[i] == port[i - |host|];
      }
    }
    ValidUrlOf(scheme, hp, path);
  }

  /** The scan accepts exactly the texts the pattern matches, and a match
      never needs the port group. */
  lemma IsValidUrlMatchesPattern(url: string)
    ensures IsValidUrl(url) <==> MatchesUrlPattern(url)
    ensures MatchesUrlPattern(url) ==> exists scheme, host, path :: PatternParts(url, scheme, host, [], path)
  {
    if MatchesUrlPattern(url) {
      var scheme, host, port, path :| PatternParts(url, scheme, host, port, path);
      PatternMatchIsValidUrl(url, scheme, host, port, path);
    }
    if IsValidUrl(url) {
      ValidUrlMatchesWithoutPort(url);
    }
  }

  /** The port group adds nothing: "h:abc" passes as a host. */
  lemma PortGroupNotNeeded()
    ensures IsValidUrl("http://h:abc/")
  {
    assert "http://h:abc/" == "http://" + ("h:abc" + "/");
    ValidUrlOf("http://", "h:abc", "/");
  }

  /** The legacy address, which `getBaseUrl` refuses to use, passes the check. */
  lemma LegacyUrlPassesCheck()
    ensures IsValidUrl(LEGACY_URL)
  {
    var host := "35.86.154.191:8080";
    assert LEGACY_URL == "http://" + (host + "/");
    ValidUrlOf("http://", host, "/");
  }

  /** A missing host, a '/' right after the scheme, or another scheme fail. */
  lemma UrlRejections()
    ensures !IsValidUrl("http://") && !IsValidUrl("http:///x") && !IsValidUrl("ftp://x")
  {
    assert AfterScheme("http://") == Some("");
    assert AfterScheme("http:///x") == Some("/x");
    assert "ftp://x"[0] == 'f';
    assert "ftp://x"[..7] != "http://";
  }

  /** `handleEnvironmentSelection`: CUSTOM only opens the URL dialog; any
      other environment is applied at once. Returns whether the dialog opened. */
  method HandleEnvironmentSelection(client: NetworkClient, environment: ServerEnvironment) returns (dialogShown: bool)
    modifies client
    ensures dialogShown <==> environment == CUSTOM
    ensures environment == CUSTOM ==> unchanged(client)
    ensures environment != CUSTOM ==>
              && client.storedEnvironment == Some(Name(environment))
              && client.storedBaseUrl == Some(Url(environment))
              && client.storedDeviceId == old(client.storedDeviceId)
  {
    if environment == CUSTOM {
      return true;
    }
    client.SetServerEnvironment(environment);
    return false;
  }

  /** The dialog's "Save": the text is trimmed and stored only when it passes
      the URL check; the environment choice is not touched. Returns whether
      it was stored. */
  method SaveCustomUrl(client: NetworkClient, text: string) returns (saved: bool)
    modifies client
    ensures saved <==> IsValidUrl(Trim(text))
    ensures saved ==> client.storedBaseUrl == Some(Trim(text))
    ensures saved && Trim(text) != LEGACY_URL ==> client.GetBaseUrl() == Trim(text)
    ensures !saved ==> unchanged(client)
    ensures client.storedEnvironment == old(client.storedEnvironment)
    ensures client.storedDeviceId == old(client.storedDeviceId)
  {
    var url := Trim(text);
    if IsValidUrl(url) {
      client.SetBaseUrl(url);
      return true;
    }
    return false;
  }
}
