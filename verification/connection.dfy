/** Endpoint translation (RedisConnectionConfiguration): parsing a
    `redis://` or `rediss://` URL into connection information, and the
    standalone configuration that stamps the database of the template
    being built. */
module ConnectionConfiguration {
  import opened Common
  import opened StringUtil
  import opened Properties

  /** The components of a URI that `parseUrl` and the `ConnectionInfo`
      getters read; `port` is -1 when the URI names none. */
  datatype Uri = Uri(scheme: Option<string>, userInfo: Option<string>, host: Option<string>, port: int)

  /** Characters that never appear unescaped in a URI: controls (ISO
      control characters include 0x7F-0x9F), space separators, and the
      ASCII characters outside every URI component. */
  predicate IllegalChar(c: char) {
    c as int <= 0x20 || (0x7F <= c as int <= 0x9F) || SpaceSeparator(c) || c in "\"<>\\^`{|}"
  }

  /** Java's `Character.isSpaceChar` beyond ASCII: the space, line and
      paragraph separators. */
  predicate SpaceSeparator(c: char) {
    c as int == 0xA0 || c as int == 0x1680 || (0x2000 <= c as int <= 0x200A)
    || c as int == 0x2028 || c as int == 0x2029 || c as int == 0x202F
    || c as int == 0x205F || c as int == 0x3000
  }

  predicate IsAlpha(c: char) {
    ('a' <= c <= 'z') || ('A' <= c <= 'Z')
  }

  predicate IsDigit(c: char) {
    '0' <= c <= '9'
  }

  /** A scheme name: a letter, then letters, digits, `+`, `-` or `.`. */
  predicate ValidScheme(s: string) {
    |s| > 0 && IsAlpha(s[0])
    && forall i :: 0 < i < |s| ==> IsAlpha(s[i]) || IsDigit(s[i]) || s[i] in "+-."
  }

  predicate IsAlphaNum(c: char) {
    IsAlpha(c) || IsDigit(c)
  }

  predicate AllDigits(s: string) {
    forall i :: 0 <= i < |s| ==> IsDigit(s[i])
  }

  /** The decimal value of a string of digits. */
  function DigitsValue(s: string): (n: nat)
    requires AllDigits(s)
    decreases |s|
  {
    if s == [] then 0 else 10 * DigitsValue(s[..|s| - 1]) + (s[|s| - 1] as int - '0' as int)
  }

  /** The authority of a hierarchical URI: user information up to the
      first `@`, then host and port. */
  function Authority(scheme: string, authority: string): (uri: Uri) {
    var at := IndexOfAny(authority, {'@'});
    if at < 0 then ServerOrRegistry(scheme, None, authority)
    else ServerOrRegistry(scheme, Some(authority[..at]), authority[at + 1..])
  }

  /** The largest port `Integer.parseInt` accepts. */
  const MaxPort: int := 0x7FFF_FFFF

  /** `host[:port]` after the user information, read as a server-based
      authority. When it does not read so the authority is registry-based:
      no user information, host or port. */
  function ServerOrRegistry(scheme: string, userInfo: Option<string>, hostPort: string): (uri: Uri) {
    var colon := IndexOfAny(hostPort, {':'});
    var host := if colon < 0 then hostPort else hostPort[..colon];
    var digits := if colon < 0 then "" else hostPort[colon + 1..];
    if (userInfo.Some? ==> UserInfoText(userInfo.value)) && ValidHost(host)
       && AllDigits(digits) && (digits == "" || DigitsValue(digits) <= MaxPort)
    then
      Uri(Some(scheme), userInfo, Some(host), if digits == "" then -1 else DigitsValue(digits))
    else
      Uri(Some(scheme), None, None, -1)
  }

  /** Characters of server-based user information: unreserved ones,
      `;:&=+$,`, escapes and non-ASCII characters. */
  predicate UserInfoChar(c: char) {
    IsAlphaNum(c) || c in "-_.!~*'();:&=+$,%" || c as int >= 0x80
  }

  predicate UserInfoText(s: string) {
    forall i :: 0 <= i < |s| ==> UserInfoChar(s[i])
  }

  /** A domain label: letters, digits and `-`, beginning and ending with
      a letter or digit. */
  predicate DomainLabel(s: string) {
    |s| > 0 && IsAlphaNum(s[0]) && IsAlphaNum(s[|s| - 1])
    && forall i :: 0 <= i < |s| ==> IsAlphaNum(s[i]) || s[i] == '-'
  }

  /** Domain labels separated by single dots, with one optional trailing dot. */
  predicate DottedLabels(s: string)
    decreases |s|
  {
    var dot := IndexOfAny(s, {'.'});
    if dot < 0 then DomainLabel(s)
    else DomainLabel(s[..dot]) && (dot + 1 == |s| || DottedLabels(s[dot + 1..]))
  }

  /** The rightmost label of dotted labels. */
  function LastLabel(s: string): (last: string)
    decreases |s|
  {
    var dot := IndexOfAny(s, {'.'});
    if dot < 0 then s
    else if dot + 1 == |s| then s[..dot]
    else LastLabel(s[dot + 1..])
  }

  /** A host name as `java.net.URI` reads one: dotted labels, and when
      there is more than one label the rightmost starts with a letter. */
  predicate IsHostname(s: string) {
    && DottedLabels(s)
    && var dot := IndexOfAny(s, {'.'});
       dot < 0 || dot + 1 == |s| || (|LastLabel(s)| > 0 && IsAlpha(LastLabel(s)[0]))
  }

  /** A decimal number from 0 to 255, leading zeros allowed. */
  predicate ByteText(s: string) {
    |s| > 0 && AllDigits(s) && DigitsValue(s) <= 255
  }

  /** `n` byte numbers separated by dots. */
  predicate DottedBytes(s: string, n: nat)
    decreases n
  {
    var dot := IndexOfAny(s, {'.'});
    if n <= 1 then dot < 0 && ByteText(s)
    else dot >= 0 && ByteText(s[..dot]) && DottedBytes(s[dot + 1..], n - 1)
  }

  /** Characters a host name or an IPv4 address is made of. */
  predicate HostChars(s: string) {
    forall i :: 0 <= i < |s| ==> IsAlphaNum(s[i]) || s[i] == '-' || s[i] == '.'
  }

  /** A server host: an IPv4 address or a host name. */
  predicate ValidHost(s: string) {
    s != "" && HostChars(s) && (DottedBytes(s, 4) || IsHostname(s))
  }

  /** Whether some character of `s` must not appear unescaped. */
  predicate HasIllegalChar(s: string) {
    exists i :: 0 <= i < |s| && IllegalChar(s[i])
  }

  /** No character of `s` lies in `cs`. */
  predicate Avoids(s: string, cs: set<char>) {
    forall i :: 0 <= i < |s| ==> s[i] !in cs
  }

  /** A simplified `new URI(url)`:
      `scheme:[//[userinfo@]host[:port]][/path][?query][#fragment]`.
      A reference whose first `:` comes after a `/`, `?` or `#` (or that has
      none) is relative and has no scheme; its authority is read only to be
      checked. An empty scheme-specific part (nothing, or a `#` straight
      after the `:`), a `//` with nothing after it, and an authority holding
      `[` or `]` that does not read as a server are malformed, with or
      without a scheme. */
  function SplitUri(url: string): (r: Result<Uri>) {
    if HasIllegalChar(url) then Failure(MalformedUrl(url))
    else
      var p := IndexOfAny(url, {':', '/', '?', '#'});
      if p < 0 || url[p] != ':' then
        if url == "//" || BracketedAuthority(url) then Failure(MalformedUrl(url))
        else Success(Uri(None, None, None, -1))
      else if !ValidScheme(url[..p]) || p + 1 == |url| || url[p + 1] == '#' || url[p + 1..] == "//"
              || BracketedAuthority(url[p + 1..]) then Failure(MalformedUrl(url))
      else Success(SchemeSpecific(url[..p], url[p + 1..]))
  }

  /** The authority of a scheme-specific part that starts with `//`: up to
      the next `/`, `?` or `#`. */
  function AuthorityOf(rest: string): (authority: Option<string>) {
    if |rest| >= 2 && rest[..2] == "//" then
      var tail := rest[2..];
      var end := IndexOfAny(tail, {'/', '?', '#'});
      Some(if end < 0 then tail else tail[..end])
    else
      None
  }

  /** An authority holding `[` or `]`: a registry name may not hold them,
      and no server authority of this model does, so `new URI` rethrows
      its failed server parse. */
  predicate BracketedAuthority(rest: string) {
    AuthorityOf(rest).Some? && !Avoids(AuthorityOf(rest).value, {'[', ']'})
  }

  /** The part after `scheme:`: an authority when it starts with `//`,
      else an opaque part with no host. */
  function SchemeSpecific(scheme: string, rest: string): (uri: Uri) {
    match AuthorityOf(rest)
    case Some(authority) => Authority(scheme, authority)
    case None => Uri(Some(scheme), None, None, -1)
  }

  /** `ConnectionInfo`: the parsed URI, whether SSL is used, and the password. */
  datatype ConnectionInfo = ConnectionInfo(uri: Uri, useSsl: bool, password: Option<string>) {
    function IsUseSsl(): (ssl: bool) { useSsl }
    function HostName(): (hostName: Option<string>) { uri.host }
    function Port(): (port: int) { uri.port }
    function Password(): (password: Option<string>) { password }
  }

  /** The password carried by the URI's user information: the text after
      the first `:`, or the whole user information when it has no `:`. */
  function PasswordOf(userInfo: Option<string>): (password: Option<string>)
    ensures userInfo.None? <==> password.None?
    ensures userInfo.Some? && ':' !in userInfo.value ==> password == userInfo
    ensures userInfo.Some? && ':' in userInfo.value ==>
      exists user :: ':' !in user && userInfo.value == user + ":" + password.value
  {
    match userInfo
    case None => None
    case Some(candidate) =>
      var index := IndexOfAny(candidate, {':'});
      if index >= 0 then
        assert candidate == candidate[..index] + ":" + candidate[index + 1..];
        Some(candidate[index + 1..])
      else
        Some(candidate)
  }

  /** `parseUrl`. */
  function ParseUrl(url: string): (r: Result<ConnectionInfo>)
    ensures SplitUri(url).Failure? ==> r == Failure(MalformedUrl(url))
    ensures SplitUri(url).Success? ==>
      var uri := SplitUri(url).value;
      && (r.Success? <==> uri.scheme == Some("redis") || uri.scheme == Some("rediss"))
      && (r.Failure? ==> r.error == InvalidUrl(url))
      && (r.Success? ==> r.value.uri == uri && r.value.password == PasswordOf(uri.userInfo)
                         && (r.value.IsUseSsl() <==> uri.scheme == Some("rediss")))
  {
    match SplitUri(url)
    case Failure(e) => Failure(e)
    case Success(uri) =>
      if uri.scheme != Some("redis") && uri.scheme != Some("rediss") then Failure(InvalidUrl(url))
      else Success(ConnectionInfo(uri, uri.scheme == Some("rediss"), PasswordOf(uri.userInfo)))
  }

  /** What the `ConnectionInfo` getters answer for a parsed URL: SSL
      exactly for `rediss`, the URI's host and port, and the password
      taken from its user information. */
  lemma ConnectionInfoGetters(url: string)
    requires ParseUrl(url).Success?
    ensures var info := ParseUrl(url).value;
      var uri := SplitUri(url).value;
      && (info.IsUseSsl() <==> uri.scheme == Some("rediss"))
      && info.HostName() == uri.host
      && info.Port() == uri.port
      && info.Password() == PasswordOf(uri.userInfo)
  {
  }

  /** `RedisStandaloneConfiguration`: where to connect, and which database. */
  datatype StandaloneConfig = StandaloneConfig(hostName: Option<string>, port: int, password: Option<string>, database: int)

  /** The port range `RedisStandaloneConfiguration.setPort` accepts. */
  predicate TcpPort(port: int) {
    1 <= port <= 65535
  }

  /** A `RedisStandaloneConfiguration` filled by its setters in the order
      `getStandaloneConfig` calls them: the host name must have text, the
      port must be a TCP port, and the database index must not be
      negative; the first setter whose argument is refused throws. */
  function Configured(hostName: Option<string>, port: int, password: Option<string>, database: int): (r: Result<StandaloneConfig>)
    ensures r.Success? <==> HasText(hostName) && TcpPort(port) && database >= 0
    ensures r.Success? ==> r.value == StandaloneConfig(hostName, port, password, database)
    ensures !HasText(hostName) ==> r == Failure(InvalidHostName(hostName))
    ensures HasText(hostName) && !TcpPort(port) ==> r == Failure(InvalidPort(port))
    ensures HasText(hostName) && TcpPort(port) && database < 0 ==> r == Failure(InvalidDatabase(database))
  {
    if !HasText(hostName) then Failure(InvalidHostName(hostName))
    else if !TcpPort(port) then Failure(InvalidPort(port))
    else if database < 0 then Failure(InvalidDatabase(database))
    else Success(StandaloneConfig(hostName, port, password, database))
  }

  /** `getStandaloneConfig` of a configuration constructed for `database`:
      host, port and password from the URL when it has text, else from the
      separate properties; the database is always the constructor's. */
  function GetStandaloneConfig(props: RedisProperties, database: int): (r: Result<StandaloneConfig>)
    ensures r.Success? ==> r.value.database == database && database >= 0
    ensures r.Success? ==> HasText(r.value.hostName) && TcpPort(r.value.port)
    ensures HasText(props.url) ==>
      var info := ParseUrl(props.url.value);
      && (info.Failure? ==> r == Failure(info.error))
      && (info.Success? ==>
            r == Configured(info.value.HostName(), info.value.Port(), info.value.Password(), database))
    ensures !HasText(props.url) ==>
      r == Configured(props.host, props.port, props.password, database)
  {
    if HasText(props.url) then
      match ParseUrl(props.url.value)
      case Failure(e) => Failure(e)
      case Success(info) => Configured(info.HostName(), info.Port(), info.Password(), database)
    else
      Configured(props.host, props.port, props.password, database)
  }

  /** When the URL has text, the separate host, port and password
      properties are ignored. */
  lemma UrlOverridesProperties(p: RedisProperties, q: RedisProperties, database: int)
    requires p.url == q.url && HasText(p.url)
    ensures GetStandaloneConfig(p, database) == GetStandaloneConfig(q, database)
  {
  }

  /** Configurations built for two databases differ in the database only:
      every template reaches the same server with the same credentials,
      and an endpoint that is refused is refused for every database. Only
      a negative index fails on its own. */
  lemma OnlyDatabaseDiffers(props: RedisProperties, d1: int, d2: int)
    ensures d1 < 0 ==> GetStandaloneConfig(props, d1).Failure?
    ensures GetStandaloneConfig(props, d1).Success? && d2 >= 0 ==>
      GetStandaloneConfig(props, d2) == Success(GetStandaloneConfig(props, d1).value.(database := d2))
    ensures GetStandaloneConfig(props, d1).Failure? && d1 >= 0 ==>
      GetStandaloneConfig(props, d2) == GetStandaloneConfig(props, d1)
  {
  }
}

module ConnectionUrlLemmas {
  import opened Common
  import opened StringUtil
  import opened Properties
  import opened ConnectionConfiguration

  /** A URL component that needs no escaping, holds no escape, and holds
      no delimiter ending the authority or the user information. */
  predicate PlainComponent(s: string) {
    !HasIllegalChar(s) && Avoids(s, {'@', '/', '?', '#', '%'})
  }

  /** A server host is a plain component without `:`. */
  lemma HostIsPlain(host: string)
    requires ValidHost(host)
    ensures PlainComponent(host) && Avoids(host, {':'})
  {
    forall i | 0 <= i < |host|
      ensures !IllegalChar(host[i]) && host[i] !in {'@', '/', '?', '#', '%', ':'}
    {
      HostCharPlain(host[i]);
    }
  }

  lemma HostCharPlain(c: char)
    requires IsAlphaNum(c) || c == '-' || c == '.'
    ensures !IllegalChar(c) && c !in {'@', '/', '?', '#', '%', ':'}
  {
  }

  /** `scheme://[userinfo@]host:port`. */
  function RenderUrl(scheme: string, userInfo: Option<string>, host: string, digits: string): (url: string) {
    scheme + ":" + ("//" + RenderAuthority(userInfo, host, digits))
  }

  /** `[userinfo@]host:port`. */
  function RenderAuthority(userInfo: Option<string>, host: string, digits: string): (authority: string) {
    RenderUserInfo(userInfo) + (host + ":" + digits)
  }

  /** `userinfo@`, or nothing. */
  function RenderUserInfo(userInfo: Option<string>): (rendered: string) {
    if userInfo.Some? then userInfo.value + "@" else ""
  }

  lemma LegalConcat(a: string, b: string)
    requires !HasIllegalChar(a) && !HasIllegalChar(b)
    ensures !HasIllegalChar(a + b)
  {
    forall i | 0 <= i < |a + b| ensures !IllegalChar((a + b)[i]) {
      if i < |a| {
        assert (a + b)[i] == a[i];
      } else {
        assert (a + b)[i] == b[i - |a|];
      }
    }
  }

  lemma AvoidsConcat(a: string, b: string, cs: set<char>)
    requires Avoids(a, cs) && Avoids(b, cs)
    ensures Avoids(a + b, cs)
  {
    forall i | 0 <= i < |a + b| ensures (a + b)[i] !in cs {
      if i < |a| {
        assert (a + b)[i] == a[i];
      } else {
        assert (a + b)[i] == b[i - |a|];
      }
    }
  }

  lemma NoneOf(s: string, cs: set<char>)
    requires Avoids(s, cs)
    ensures IndexOfAny(s, cs) == -1
  {
  }

  /** A scheme name needs no escaping and holds no delimiter. */
  lemma SchemeChars(scheme: string)
    requires ValidScheme(scheme)
    ensures !HasIllegalChar(scheme) && Avoids(scheme, {':', '/', '?', '#'})
  {
    forall i | 0 <= i < |scheme| ensures !IllegalChar(scheme[i]) && scheme[i] !in {':', '/', '?', '#'} {
      if i > 0 {
        assert IsAlpha(scheme[i]) || IsDigit(scheme[i]) || scheme[i] in "+-.";
      }
    }
  }

  /** A well-formed scheme followed by `:` and a non-empty remainder is
      split off as the scheme. */
  lemma SplitSchemed(scheme: string, rest: string)
    requires ValidScheme(scheme) && rest != [] && rest[0] != '#' && rest != "//" && !HasIllegalChar(rest)
    requires !BracketedAuthority(rest)
    ensures SplitUri(scheme + ":" + rest) == Success(SchemeSpecific(scheme, rest))
  {
    var url := scheme + ":" + rest;
    assert url == scheme + (":" + rest);
    SchemeChars(scheme);
    assert !HasIllegalChar(":");
    LegalConcat(":", rest);
    LegalConcat(scheme, ":" + rest);
    IndexOfAnySkip(scheme, ":" + rest, {':', '/', '?', '#'});
    assert IndexOfAny(url, {':', '/', '?', '#'}) == |scheme| && url[|scheme|] == ':';
    assert url[..|scheme|] == scheme;
    assert url[|scheme| + 1..] == rest;
    assert url[|scheme| + 1] == rest[0];
  }

  /** An authority with nothing after it is taken whole. */
  lemma SchemeSpecificAuthority(scheme: string, authority: string)
    requires Avoids(authority, {'/', '?', '#'})
    ensures AuthorityOf("//" + authority) == Some(authority)
    ensures SchemeSpecific(scheme, "//" + authority) == Authority(scheme, authority)
  {
    assert ("//" + authority)[2..] == authority;
    assert ("//" + authority)[..2] == "//";
    NoneOf(authority, {'/', '?', '#'});
  }

  /** `host:port` reads as a server-based host and port. */
  lemma HostPortComponents(scheme: string, userInfo: Option<string>, host: string, digits: string)
    requires userInfo.Some? ==> UserInfoText(userInfo.value)
    requires ValidHost(host) && Avoids(host, {':'})
    requires digits != "" && AllDigits(digits) && DigitsValue(digits) <= MaxPort
    ensures ServerOrRegistry(scheme, userInfo, host + ":" + digits)
      == Uri(Some(scheme), userInfo, Some(host), DigitsValue(digits))
  {
    var hostPort := host + ":" + digits;
    IndexOfAnySkip(host, ":" + digits, {':'});
    assert hostPort == host + (":" + digits);
    assert hostPort[..|host|] == host;
    assert hostPort[|host| + 1..] == digits;
  }

  /** `userinfo@host:port` reads as server-based. */
  lemma AuthorityWithUserInfo(scheme: string, userInfo: string, hostPort: string)
    requires Avoids(userInfo, {'@'})
    ensures Authority(scheme, userInfo + "@" + hostPort) == ServerOrRegistry(scheme, Some(userInfo), hostPort)
  {
    var authority := userInfo + "@" + hostPort;
    IndexOfAnySkip(userInfo, "@" + hostPort, {'@'});
    assert authority == userInfo + ("@" + hostPort);
    assert authority[..|userInfo|] == userInfo;
    assert authority[|userInfo| + 1..] == hostPort;
  }

  /** `host:port` with no user information reads as server-based. */
  lemma AuthorityWithoutUserInfo(scheme: string, host: string, digits: string)
    requires Avoids(host, {'@'}) && AllDigits(digits)
    ensures Authority(scheme, host + ":" + digits) == ServerOrRegistry(scheme, None, host + ":" + digits)
  {
    assert Avoids(digits, {'@'}) by {
      forall i | 0 <= i < |digits| ensures digits[i] != '@' {
        assert IsDigit(digits[i]);
      }
    }
    assert Avoids(":", {'@'});
    AvoidsConcat(host, ":", {'@'});
    AvoidsConcat(host + ":", digits, {'@'});
    NoneOf(host + ":" + digits, {'@'});
  }

  /** The authority of a rendered URL needs no escaping and does not
      run into a path, query or fragment. */
  lemma RenderedAuthorityPlain(userInfo: Option<string>, host: string, digits: string)
    requires userInfo.Some? ==> PlainComponent(userInfo.value)
    requires PlainComponent(host) && AllDigits(digits)
    ensures var authority := RenderAuthority(userInfo, host, digits);
      !HasIllegalChar(authority) && Avoids(authority, {'/', '?', '#'})
  {
    var ui := RenderUserInfo(userInfo);
    assert !HasIllegalChar(digits) && Avoids(digits, {'/', '?', '#'}) by {
      forall i | 0 <= i < |digits| ensures !IllegalChar(digits[i]) && digits[i] !in {'/', '?', '#'} {
        assert IsDigit(digits[i]);
      }
    }
    assert !HasIllegalChar(ui) && Avoids(ui, {'/', '?', '#'}) by {
      if userInfo.Some? {
        assert !HasIllegalChar("@") && Avoids("@", {'/', '?', '#'});
        LegalConcat(userInfo.value, "@");
        AvoidsConcat(userInfo.value, "@", {'/', '?', '#'});
      }
    }
    assert !HasIllegalChar(":") && Avoids(":", {'/', '?', '#'});
    LegalConcat(host, ":");
    LegalConcat(host + ":", digits);
    LegalConcat(ui, host + ":" + digits);
    AvoidsConcat(host, ":", {'/', '?', '#'});
    AvoidsConcat(host + ":", digits, {'/', '?', '#'});
    AvoidsConcat(ui, host + ":" + digits, {'/', '?', '#'});
  }

  lemma DigitsUnbracketed(digits: string)
    requires AllDigits(digits)
    ensures Avoids(digits, {'[', ']'})
  {
    forall i | 0 <= i < |digits| ensures digits[i] !in {'[', ']'} {
      assert IsDigit(digits[i]);
    }
  }

  lemma HostUnbracketed(host: string)
    requires ValidHost(host)
    ensures Avoids(host, {'[', ']'})
  {
    forall i | 0 <= i < |host| ensures host[i] !in {'[', ']'} {
      assert IsAlphaNum(host[i]) || host[i] == '-' || host[i] == '.';
    }
  }

  lemma UserInfoUnbracketed(userInfo: Option<string>)
    requires userInfo.Some? ==> UserInfoText(userInfo.value)
    ensures Avoids(RenderUserInfo(userInfo), {'[', ']'})
  {
    if userInfo.Some? {
      forall i | 0 <= i < |userInfo.value| ensures userInfo.value[i] !in {'[', ']'} {
        assert UserInfoChar(userInfo.value[i]);
      }
      assert Avoids("@", {'[', ']'});
      AvoidsConcat(userInfo.value, "@", {'[', ']'});
    }
  }

  /** The authority of a rendered URL holds no `[` or `]`. */
  lemma RenderedAuthorityUnbracketed(userInfo: Option<string>, host: string, digits: string)
    requires userInfo.Some? ==> UserInfoText(userInfo.value)
    requires ValidHost(host) && AllDigits(digits)
    ensures Avoids(RenderAuthority(userInfo, host, digits), {'[', ']'})
  {
    DigitsUnbracketed(digits);
    HostUnbracketed(host);
    UserInfoUnbracketed(userInfo);
    assert Avoids(":", {'[', ']'});
    AvoidsConcat(host, ":", {'[', ']'});
    AvoidsConcat(host + ":", digits, {'[', ']'});
    AvoidsConcat(RenderUserInfo(userInfo), host + ":" + digits, {'[', ']'});
  }

  /** `//` and an authority that needs no escaping, ends the part and
      holds no bracket meet every condition for being split off whole. */
  lemma AuthorityRest(authority: string)
    requires authority != [] && !HasIllegalChar(authority)
    requires Avoids(authority, {'/', '?', '#'}) && Avoids(authority, {'[', ']'})
    ensures var rest := "//" + authority;
      && rest != [] && rest[0] != '#' && rest != "//" && !HasIllegalChar(rest)
      && AuthorityOf(rest) == Some(authority) && !BracketedAuthority(rest)
  {
    assert !HasIllegalChar("//");
    LegalConcat("//", authority);
    SchemeSpecificAuthority("redis", authority);
  }

  /** The scheme-specific part of a rendered URL, `//` and the authority,
      meets every condition for being split off whole. */
  lemma RenderedRest(userInfo: Option<string>, host: string, digits: string)
    requires userInfo.Some? ==> PlainComponent(userInfo.value) && UserInfoText(userInfo.value)
    requires ValidHost(host) && AllDigits(digits)
    ensures var authority := RenderAuthority(userInfo, host, digits);
      var rest := "//" + authority;
      && rest != [] && rest[0] != '#' && rest != "//" && !HasIllegalChar(rest)
      && AuthorityOf(rest) == Some(authority) && !BracketedAuthority(rest)
  {
    HostIsPlain(host);
    RenderedAuthorityPlain(userInfo, host, digits);
    RenderedAuthorityUnbracketed(userInfo, host, digits);
    AuthorityRest(RenderAuthority(userInfo, host, digits));
  }

  /** A rendered URL splits into its scheme and its whole authority. */
  lemma RenderedUrlSplits(scheme: string, userInfo: Option<string>, host: string, digits: string)
    requires ValidScheme(scheme)
    requires userInfo.Some? ==> PlainComponent(userInfo.value) && UserInfoText(userInfo.value)
    requires ValidHost(host) && AllDigits(digits)
    ensures SplitUri(RenderUrl(scheme, userInfo, host, digits))
      == Success(Authority(scheme, RenderAuthority(userInfo, host, digits)))
  {
    var authority := RenderAuthority(userInfo, host, digits);
    RenderedRest(userInfo, host, digits);
    SplitSchemed(scheme, "//" + authority);
    assert SchemeSpecific(scheme, "//" + authority) == Authority(scheme, authority);
  }

  /** The rendered authority reads back as server-based user information,
      host and port. */
  lemma RenderedAuthorityReads(scheme: string, userInfo: Option<string>, host: string, digits: string)
    requires userInfo.Some? ==> PlainComponent(userInfo.value) && UserInfoText(userInfo.value)
    requires ValidHost(host)
    requires digits != "" && AllDigits(digits) && DigitsValue(digits) <= MaxPort
    ensures Authority(scheme, RenderAuthority(userInfo, host, digits))
      == Uri(Some(scheme), userInfo, Some(host), DigitsValue(digits))
  {
    HostIsPlain(host);
    HostPortComponents(scheme, userInfo, host, digits);
    if userInfo.Some? {
      assert RenderAuthority(userInfo, host, digits) == userInfo.value + "@" + (host + ":" + digits);
      AuthorityWithUserInfo(scheme, userInfo.value, host + ":" + digits);
    } else {
      assert RenderAuthority(userInfo, host, digits) == host + ":" + digits;
      AuthorityWithoutUserInfo(scheme, host, digits);
    }
  }

  /** A URL written out from its components splits back into them. */
  lemma SplitRenderedUrl(scheme: string, userInfo: Option<string>, host: string, digits: string)
    requires ValidScheme(scheme)
    requires userInfo.Some? ==> PlainComponent(userInfo.value) && UserInfoText(userInfo.value)
    requires ValidHost(host)
    requires digits != "" && AllDigits(digits) && DigitsValue(digits) <= MaxPort
    ensures SplitUri(RenderUrl(scheme, userInfo, host, digits))
      == Success(Uri(Some(scheme), userInfo, Some(host), DigitsValue(digits)))
  {
    RenderedUrlSplits(scheme, userInfo, host, digits);
    RenderedAuthorityReads(scheme, userInfo, host, digits);
  }

  /** A `redis` or `rediss` URL written out from its components parses
      back to them: SSL exactly for `rediss`, and the password taken from
      the user information. */
  lemma ParseRenderedUrl(scheme: string, userInfo: Option<string>, host: string, digits: string)
    requires scheme == "redis" || scheme == "rediss"
    requires userInfo.Some? ==> PlainComponent(userInfo.value) && UserInfoText(userInfo.value)
    requires ValidHost(host)
    requires digits != "" && AllDigits(digits) && DigitsValue(digits) <= MaxPort
    ensures ParseUrl(RenderUrl(scheme, userInfo, host, digits))
      == Success(ConnectionInfo(Uri(Some(scheme), userInfo, Some(host), DigitsValue(digits)),
                                scheme == "rediss", PasswordOf(userInfo)))
  {
    var uri := Uri(Some(scheme), userInfo, Some(host), DigitsValue(digits));
    SplitRenderedUrl(scheme, userInfo, host, digits);
    assert SplitUri(RenderUrl(scheme, userInfo, host, digits)) == Success(uri);
    assert uri.scheme == Some("redis") || uri.scheme == Some("rediss");
  }

  /** The getters of a rendered `redis`/`rediss` URL's connection
      information give back its host, port and password. */
  lemma RenderedUrlGetters(scheme: string, userInfo: Option<string>, host: string, digits: string)
    requires scheme == "redis" || scheme == "rediss"
    requires userInfo.Some? ==> PlainComponent(userInfo.value) && UserInfoText(userInfo.value)
    requires ValidHost(host)
    requires digits != "" && AllDigits(digits) && DigitsValue(digits) <= MaxPort
    ensures var r := ParseUrl(RenderUrl(scheme, userInfo, host, digits));
      && r.Success?
      && (r.value.IsUseSsl() <==> scheme == "rediss")
      && r.value.HostName() == Some(host)
      && r.value.Port() == DigitsValue(digits)
      && r.value.Password() == PasswordOf(userInfo)
  {
    ParseRenderedUrl(scheme, userInfo, host, digits);
  }

  /** Every other scheme is refused as an invalid Redis URL. */
  lemma OtherSchemeRejected(scheme: string, rest: string)
    requires ValidScheme(scheme) && scheme != "redis" && scheme != "rediss"
    requires rest != [] && rest[0] != '#' && rest != "//" && !HasIllegalChar(rest)
    requires !BracketedAuthority(rest)
    ensures ParseUrl(scheme + ":" + rest) == Failure(InvalidUrl(scheme + ":" + rest))
  {
    SplitSchemed(scheme, rest);
  }

  /** The user part before the first `:` is dropped; later `:` stay in the password. */
  lemma PasswordAfterFirstColon(user: string, password: string)
    requires ':' !in user
    ensures PasswordOf(Some(user + ":" + password)) == Some(password)
  {
    var candidate := user + ":" + password;
    assert candidate == user + (":" + password);
    IndexOfAnySkip(user, ":" + password, {':'});
    assert candidate[|user| + 1..] == password;
  }

  lemma FtpUrlParts()
    ensures ValidScheme("ftp") && !HasIllegalChar("//host:6379")
    ensures "ftp" + ":" + "//host:6379" == "ftp://host:6379"
  {
  }

  lemma FtpAuthorityParts()
    ensures "//host:6379" == "//" + "host:6379" && Avoids("host:6379", {'/', '?', '#', '[', ']'})
  {
  }

  /** An `ftp` URL is refused as an invalid Redis URL. */
  lemma FtpUrlRejected()
    ensures ParseUrl("ftp://host:6379") == Failure(InvalidUrl("ftp://host:6379"))
  {
    FtpUrlParts();
    FtpAuthorityParts();
    SchemeSpecificAuthority("ftp", "host:6379");
    assert !BracketedAuthority("//host:6379");
    OtherSchemeRejected("ftp", "//host:6379");
  }

  lemma PlainHost()
    ensures ValidHost("host")
  {
    NoneOf("host", {'.'});
  }

  lemma SecretUserInfo()
    ensures PlainComponent(":secret") && UserInfoText(":secret")
  {
  }

  lemma SecretUrlParts()
    ensures AllDigits("6379")
    ensures RenderUrl("redis", Some(":secret"), "host", "6379") == "redis://:secret@host:6379"
    ensures "" + ":" + "secret" == ":secret"
  {
  }

  lemma PortValue()
    ensures DigitsValue("6379") == 6379 <= MaxPort
  {
    assert "6379"[..3] == "637";
    assert "637"[..2] == "63";
    assert "63"[..1] == "6";
    assert "6"[..0] == "";
  }

  /** `redis://:secret@host:6379` yields host, port and the password
      `secret`, without SSL. */
  lemma SecretPasswordUrl()
    ensures var r := ParseUrl("redis://:secret@host:6379");
      r.Success? && r.value.Password() == Some("secret") && !r.value.IsUseSsl()
      && r.value.HostName() == Some("host") && r.value.Port() == 6379
  {
    SecretUserInfo();
    SecretUrlParts();
    PlainHost();
    PortValue();
    ParseRenderedUrl("redis", Some(":secret"), "host", "6379");
    PasswordAfterFirstColon("", "secret");
  }

  /** User information `u:p:q` yields the password `p:q`. */
  lemma ColonInPassword()
    ensures PasswordOf(Some("u:p:q")) == Some("p:q")
  {
    PasswordAfterFirstColon("u", "p:q");
    assert "u" + ":" + "p:q" == "u:p:q";
  }

  lemma EmptyAuthorityParts()
    ensures !HasIllegalChar("redis://") && "redis://" == "redis" + "://"
    ensures "redis://"[..5] == "redis" && "redis://"[5] == ':' && "redis://"[6..] == "//"
    ensures ValidScheme("redis") && Avoids("redis", {':', '/', '?', '#'})
  {
  }

  /** `redis://` has nothing after `//`: `new URI` expects an authority,
      so the URL is malformed. */
  lemma EmptyAuthorityMalformed()
    ensures ParseUrl("redis://") == Failure(MalformedUrl("redis://"))
  {
    EmptyAuthorityParts();
    NoneOf("redis", {':', '/', '?', '#'});
    IndexOfAnySkip("redis", "://", {':', '/', '?', '#'});
    assert IndexOfAny("redis://", {':', '/', '?', '#'}) == 5;
    assert SplitUri("redis://") == Failure(MalformedUrl("redis://"));
  }

  lemma UnderscoreUrlLegal()
    ensures !HasIllegalChar("//my_host:6379")
  {
    assert !HasIllegalChar("//") && !HasIllegalChar("my_host") && !HasIllegalChar(":6379");
    LegalConcat("//", "my_host");
    assert "//" + "my_host" == "//my_host";
    LegalConcat("//my_host", ":6379");
    assert "//my_host" + ":6379" == "//my_host:6379";
  }

  lemma UnderscoreUrlParts()
    ensures ValidScheme("redis")
    ensures "redis" + ":" + "//my_host:6379" == "redis://my_host:6379"
  {
  }

  lemma UnderscoreAuthorityParts()
    ensures "//my_host:6379" == "//" + "my_host:6379" && Avoids("my_host:6379", {'/', '?', '#', '@', '[', ']'})
    ensures "my_host:6379" == "my_host" + ":6379" && Avoids("my_host", {':'})
    ensures "my_host:6379"[..7] == "my_host"
  {
  }

  lemma UnderscoreNoHost()
    ensures !ValidHost("my_host")
  {
    var host := "my_host";
    assert host[2] == '_' && !IsAlphaNum(host[2]) && host[2] != '-' && host[2] != '.';
    assert !HostChars(host);
  }

  lemma UnderscoreAuthority()
    ensures Authority("redis", "my_host:6379") == Uri(Some("redis"), None, None, -1)
  {
    UnderscoreAuthorityParts();
    UnderscoreNoHost();
    NoneOf("my_host:6379", {'@'});
    IndexOfAnySkip("my_host", ":6379", {':'});
    assert IndexOfAny("my_host:6379", {':'}) == 7;
  }

  lemma UnderscoreSplit()
    ensures SplitUri("redis://my_host:6379") == Success(Authority("redis", "my_host:6379"))
  {
    UnderscoreUrlLegal();
    UnderscoreUrlParts();
    UnderscoreAuthorityParts();
    SchemeSpecificAuthority("redis", "my_host:6379");
    SplitSchemed("redis", "//my_host:6379");
  }

  /** `_` is no host name character: `redis://my_host:6379` has a
      registry-based authority, so no host, port or password. */
  lemma UnderscoreHostRegistry()
    ensures ParseUrl("redis://my_host:6379")
      == Success(ConnectionInfo(Uri(Some("redis"), None, None, -1), false, None))
  {
    UnderscoreSplit();
    UnderscoreAuthority();
  }

  lemma LoopbackLabels()
    ensures "127.0.0.1" == "127" + ".0.0.1" && "0.0.1" == "0" + ".0.1" && "0.1" == "0" + ".1"
    ensures Avoids("127", {'.'}) && Avoids("0", {'.'}) && Avoids("1", {'.'})
    ensures "127.0.0.1"[..3] == "127" && "127.0.0.1"[4..] == "0.0.1"
    ensures "0.0.1"[..1] == "0" && "0.0.1"[2..] == "0.1" && "0.1"[..1] == "0" && "0.1"[2..] == "1"
  {
  }

  lemma LoopbackBytes()
    ensures ByteText("127") && ByteText("0") && ByteText("1")
  {
    assert "127"[..2] == "12" && "12"[..1] == "1" && "1"[..0] == "";
  }

  lemma LoopbackAddress()
    ensures ValidHost("127.0.0.1")
  {
    LoopbackLabels();
    LoopbackBytes();
    IndexOfAnySkip("127", ".0.0.1", {'.'});
    IndexOfAnySkip("0", ".0.1", {'.'});
    IndexOfAnySkip("0", ".1", {'.'});
    NoneOf("1", {'.'});
    assert DottedBytes("1", 1);
    assert DottedBytes("0.1", 2);
    assert DottedBytes("0.0.1", 3);
    assert DottedBytes("127.0.0.1", 4);
  }

  lemma LoopbackUrlParts()
    ensures RenderUrl("redis", None, "127.0.0.1", "6379") == "redis://127.0.0.1:6379"
    ensures AllDigits("6379")
  {
  }

  /** An IPv4 address is a server host: `redis://127.0.0.1:6379` names
      host `127.0.0.1` and port 6379. */
  lemma LoopbackUrl()
    ensures var r := ParseUrl("redis://127.0.0.1:6379");
      r.Success? && r.value.HostName() == Some("127.0.0.1") && r.value.Port() == 6379
      && r.value.Password() == None
  {
    LoopbackAddress();
    LoopbackUrlParts();
    PortValue();
    ParseRenderedUrl("redis", None, "127.0.0.1", "6379");
  }

  lemma FragmentOnlyParts()
    ensures !HasIllegalChar("redis:#x") && "redis:#x" == "redis" + ":#x"
    ensures "redis:#x"[..5] == "redis" && "redis:#x"[5] == ':' && "redis:#x"[6] == '#'
    ensures ValidScheme("redis") && Avoids("redis", {':', '/', '?', '#'})
  {
  }

  /** `redis:#x` has an empty scheme-specific part before its fragment:
      `new URI` expects one, so the URL is malformed. */
  lemma FragmentOnlyMalformed()
    ensures ParseUrl("redis:#x") == Failure(MalformedUrl("redis:#x"))
  {
    FragmentOnlyParts();
    NoneOf("redis", {':', '/', '?', '#'});
    IndexOfAnySkip("redis", ":#x", {':', '/', '?', '#'});
    assert IndexOfAny("redis:#x", {':', '/', '?', '#'}) == 5;
  }

  lemma BracketUrlLegal()
    ensures !HasIllegalChar("redis://a[b:1")
  {
  }

  lemma BracketUrlParts()
    ensures "redis://a[b:1" == "redis" + "://a[b:1"
    ensures "redis://a[b:1"[..5] == "redis" && "redis://a[b:1"[5] == ':' && "redis://a[b:1"[6..] == "//a[b:1"
    ensures ValidScheme("redis") && Avoids("redis", {':', '/', '?', '#'})
  {
  }

  lemma BracketAuthorityParts()
    ensures "//a[b:1" == "//" + "a[b:1" && Avoids("a[b:1", {'/', '?', '#'}) && "a[b:1"[1] == '['
  {
  }

  /** `[` is no registry-name character, so `redis://a[b:1`, whose
      authority is no server either, is malformed. */
  lemma BracketAuthorityMalformed()
    ensures ParseUrl("redis://a[b:1") == Failure(MalformedUrl("redis://a[b:1"))
  {
    BracketUrlLegal();
    BracketUrlParts();
    BracketAuthorityParts();
    NoneOf("redis", {':', '/', '?', '#'});
    IndexOfAnySkip("redis", "://a[b:1", {':', '/', '?', '#'});
    assert IndexOfAny("redis://a[b:1", {':', '/', '?', '#'}) == 5;
    SchemeSpecificAuthority("redis", "a[b:1");
    assert BracketedAuthority("//a[b:1");
  }

  lemma UnderscoreUrlText(props: RedisProperties)
    requires props.url == Some("redis://my_host:6379")
    ensures HasText(props.url)
  {
    assert !IsWhitespace(props.url.value[0]);
  }

  /** With `redis://my_host:6379` as the URL there is no host name, so
      `setHostName` refuses it and no configuration is built. */
  lemma UnderscoreHostRefused(props: RedisProperties, database: int)
    requires props.url == Some("redis://my_host:6379")
    ensures GetStandaloneConfig(props, database) == Failure(InvalidHostName(None))
  {
    UnderscoreUrlText(props);
    UnderscoreHostRegistry();
  }

  /** A reference without a scheme that `new URI` accepts is refused as an
      invalid Redis URL. */
  lemma SchemelessRejected(url: string)
    requires !HasIllegalChar(url) && url != "//" && !BracketedAuthority(url)
    requires var p := IndexOfAny(url, {':', '/', '?', '#'}); p < 0 || url[p] != ':'
    ensures ParseUrl(url) == Failure(InvalidUrl(url))
  {
  }

  lemma SchemelessParts()
    ensures !HasIllegalChar("//") && "//"[0] == '/'
    ensures !HasIllegalChar("//a[b:1") && "//a[b:1"[0] == '/'
  {
  }

  /** `//` without a scheme has no authority after it either, so it is
      malformed. */
  lemma SchemelessEmptyAuthorityMalformed()
    ensures ParseUrl("//") == Failure(MalformedUrl("//"))
  {
    SchemelessParts();
    assert IndexOfAny("//", {':', '/', '?', '#'}) == 0;
  }

  /** `//a[b:1` without a scheme holds `[` in an authority that is no
      server, so it is malformed. */
  lemma SchemelessBracketMalformed()
    ensures ParseUrl("//a[b:1") == Failure(MalformedUrl("//a[b:1"))
  {
    SchemelessParts();
    BracketAuthorityParts();
    SchemeSpecificAuthority("redis", "a[b:1");
    assert BracketedAuthority("//a[b:1");
    assert IndexOfAny("//a[b:1", {':', '/', '?', '#'}) == 0;
  }
}
