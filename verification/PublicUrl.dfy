/** Public tunnel URLs: how they are minted and how inbound requests are routed back. */
module PublicUrl {
  import opened Bytes
  import Text

  const TUNNEL_ID_LENGTH: nat := 32

  const TUNNEL_SLUG_LENGTH: nat := 16

  const TUNNEL_PATH_PREFIX := "/tunnel"

  datatype UrlMode = Path | Subdomain

  datatype ParsedTunnelPath = ParsedTunnelPath(tunnelId: string, localPath: string)

  function WithoutDashes(s: string): string {
    if s == "" then "" else (if s[0] == '-' then "" else [s[0]]) + WithoutDashes(s[1..])
  }

  function TunnelSlug(tunnelId: string): string {
    var plain := WithoutDashes(tunnelId);
    Text.ToLower(if |plain| <= TUNNEL_SLUG_LENGTH then plain else plain[..TUNNEL_SLUG_LENGTH])
  }

  function TrimTrailingSlash(s: string): string {
    if s != "" && s[|s| - 1] == '/' then TrimTrailingSlash(s[..|s| - 1]) else s
  }

  function SchemeForHost(host: string): string {
    if Text.ToLower(host) in {"localhost", "127.0.0.1", "[::1]"} then "http" else "https"
  }

  function HostOf(baseDomain: string): string {
    baseDomain[..Text.IndexOf(baseDomain, ':')]
  }

  /** Scheme, host and port in front of a path-mode URL. */
  function Origin(baseUrl: Option<string>, baseDomain: string): string {
    if baseUrl.Some? then TrimTrailingSlash(baseUrl.value)
    else SchemeForHost(HostOf(baseDomain)) + "://" + baseDomain
  }

  function SubdomainHost(tunnelId: string, baseDomain: string): string {
    TunnelSlug(tunnelId) + "." + baseDomain
  }

  function BuildPublicUrl(tunnelId: string, mode: UrlMode, baseUrl: Option<string>, baseDomain: string): string {
    match mode
    case Path => Origin(baseUrl, baseDomain) + TUNNEL_PATH_PREFIX + "/" + tunnelId
    case Subdomain => SchemeForHost(HostOf(baseDomain)) + "://" + SubdomainHost(tunnelId, baseDomain)
  }

  predicate IsHexDigit(c: char) {
    '0' <= c <= '9' || 'a' <= c <= 'f' || 'A' <= c <= 'F'
  }

  predicate IsTunnelId(s: string) {
    |s| == TUNNEL_ID_LENGTH && forall i :: 0 <= i < |s| ==> IsHexDigit(s[i])
  }

  function ParseTunnelPath(pathname: string): Option<ParsedTunnelPath> {
    var prefix := TUNNEL_PATH_PREFIX + "/";
    if !(prefix <= pathname) || |pathname| == |prefix| then None
    else
      var remainder := pathname[|prefix|..];
      var slash := Text.IndexOf(remainder, '/');
      var tunnelId := remainder[..slash];
      var rest := if slash == |remainder| then "" else remainder[slash + 1..];
      if !IsTunnelId(tunnelId) then None
      else Some(ParsedTunnelPath(Text.ToLower(tunnelId), "/" + rest))
  }

  predicate EndsWith(s: string, suffix: string) {
    |suffix| <= |s| && s[|s| - |suffix|..] == suffix
  }

  function ExtractTunnelSlugFromHost(hostHeader: string, baseDomain: string): Option<string> {
    var hostname := Text.ToLower(hostHeader[..Text.IndexOf(hostHeader, ':')]);
    var suffix := "." + Text.ToLower(baseDomain);
    if hostname == "" || !EndsWith(hostname, suffix) then None
    else
      var slug := hostname[..|hostname| - |suffix|];
      if slug == "" || '.' in slug then None else Some(slug)
  }

  lemma {:induction false} IndexOfAppend(a: string, b: string, c: char)
    ensures Text.IndexOf(a + b, c) == if c in a then Text.IndexOf(a, c) else |a| + Text.IndexOf(b, c)
  {
    if a == "" {
      assert a + b == b;
    } else {
      assert (a + b)[1..] == a[1..] + b;
      IndexOfAppend(a[1..], b, c);
    }
  }

  /** The path-mode URL of a tunnel, extended by a local path, routes back to that tunnel and that path. */
  lemma PathRoundTrip(id: string, baseUrl: Option<string>, baseDomain: string, localPath: string)
    requires IsTunnelId(id)
    requires localPath == "" || localPath[0] == '/'
    ensures var url := BuildPublicUrl(id, Path, baseUrl, baseDomain);
            var origin := Origin(baseUrl, baseDomain);
            && origin <= url
            && ParseTunnelPath(url[|origin|..] + localPath)
               == Some(ParsedTunnelPath(Text.ToLower(id), if localPath == "" then "/" else localPath))
  {
    var origin := Origin(baseUrl, baseDomain);
    var url := BuildPublicUrl(id, Path, baseUrl, baseDomain);
    var prefix := TUNNEL_PATH_PREFIX + "/";
    assert url == origin + (prefix + id);
    var pathname := url[|origin|..] + localPath;
    assert pathname == prefix + (id + localPath);
    assert pathname[|prefix|..] == id + localPath;
    assert '/' !in id;
    IndexOfAppend(id, localPath, '/');
    assert Text.IndexOf(localPath, '/') == 0;
    var remainder := id + localPath;
    assert remainder[..|id|] == id;
    if localPath != "" {
      assert remainder[|id| + 1..] == localPath[1..];
      assert localPath == "/" + localPath[1..];
    } else {
      assert remainder == id && "/" + "" == "/";
    }
    assert pathname[|prefix|..][..|id|] == id;
  }

  /** Whatever the path parser accepts is the path-mode form of what it returns. */
  lemma ParsedPathIsTunnelPath(pathname: string)
    requires ParseTunnelPath(pathname).Some?
    ensures var p := ParseTunnelPath(pathname).value;
            exists id :: IsTunnelId(id) && Text.ToLower(id) == p.tunnelId
              && (pathname == TUNNEL_PATH_PREFIX + "/" + id + p.localPath
                  || (pathname == TUNNEL_PATH_PREFIX + "/" + id && p.localPath == "/"))
  {
    var prefix := TUNNEL_PATH_PREFIX + "/";
    var remainder := pathname[|prefix|..];
    var slash := Text.IndexOf(remainder, '/');
    var id := remainder[..slash];
    assert pathname == prefix + remainder;
    if slash == |remainder| {
      assert remainder == id;
    } else {
      assert remainder == id + ("/" + remainder[slash + 1..]);
      assert pathname == prefix + id + ("/" + remainder[slash + 1..]);
    }
  }

  lemma {:induction false} HexWithoutDashes(s: string)
    requires forall i :: 0 <= i < |s| ==> IsHexDigit(s[i])
    ensures WithoutDashes(s) == s
  {
    if s != "" {
      HexWithoutDashes(s[1..]);
    }
  }

  /** The slug of a tunnel id is its first sixteen hex digits, a plain lower-case host label. */
  lemma SlugOfTunnelId(id: string)
    requires IsTunnelId(id)
    ensures TunnelSlug(id) == Text.ToLower(id)[..TUNNEL_SLUG_LENGTH]
    ensures |TunnelSlug(id)| == TUNNEL_SLUG_LENGTH
    ensures forall c :: c in TunnelSlug(id) ==> IsHexDigit(c) && Text.LowerChar(c) == c
  {
    HexWithoutDashes(id);
    var slug := TunnelSlug(id);
    forall i | 0 <= i < |slug|
      ensures slug[i] == Text.LowerChar(id[i]) && IsHexDigit(slug[i]) && Text.LowerChar(slug[i]) == slug[i]
    {
      assert id[i] in id;
    }
  }

  lemma LowerAppend(a: string, b: string)
    ensures Text.ToLower(a + b) == Text.ToLower(a) + Text.ToLower(b)
  {
  }

  lemma HostWithoutPort(slug: string, baseDomain: string, port: string)
    requires ':' !in baseDomain && ':' !in slug && '.' !in slug && slug != "" && Text.ToLower(slug) == slug
    requires port == "" || port[0] == ':'
    ensures ExtractTunnelSlugFromHost(slug + "." + baseDomain + port, baseDomain) == Some(slug)
  {
    var host := slug + "." + baseDomain;
    IndexOfAppend(host, port, ':');
    assert (host + port)[..|host|] == host;
    LowerAppend(slug + ".", baseDomain);
    LowerAppend(slug, ".");
    assert Text.ToLower(host) == slug + ("." + Text.ToLower(baseDomain));
  }

  lemma HostWithPort(slug: string, baseDomain: string, port: string)
    requires ':' in baseDomain
    ensures ExtractTunnelSlugFromHost(slug + "." + baseDomain + port, baseDomain) == None
  {
    var header := slug + "." + baseDomain + port;
    var hostname := Text.ToLower(header[..Text.IndexOf(header, ':')]);
    var suffix := "." + Text.ToLower(baseDomain);
    var i :| 0 <= i < |baseDomain| && baseDomain[i] == ':';
    assert suffix[i + 1] == ':';
    assert ':' !in hostname;
    if |suffix| <= |hostname| {
      assert hostname[|hostname| - |suffix|..][i + 1] in hostname;
    }
  }

  /**
   * The subdomain host of a tunnel, with or without a port, yields its slug exactly when the configured base
   * domain has no port of its own.
   */
  lemma HostRoundTrip(id: string, baseDomain: string, port: string)
    requires IsTunnelId(id)
    requires port == "" || port[0] == ':'
    ensures ExtractTunnelSlugFromHost(SubdomainHost(id, baseDomain) + port, baseDomain) == Some(TunnelSlug(id))
            <==> ':' !in baseDomain
  {
    SlugOfTunnelId(id);
    if ':' in baseDomain {
      HostWithPort(TunnelSlug(id), baseDomain, port);
    } else {
      assert Text.ToLower(TunnelSlug(id)) == TunnelSlug(id);
      HostWithoutPort(TunnelSlug(id), baseDomain, port);
    }
  }
}
