/** Which strings `parse_proxy` refuses, and with which error. */
module ProxyErrors {
  import opened ByteStrings
  import opened Wrappers
  import opened UrlNormalize
  import opened ProxyParser

  // --- what a proxy string says, piece by piece ---

  // The scheme is another than "http".
  predicate OtherScheme(text: Bytes, scheme: Bytes) {
    && |scheme| + 3 <= |text| && text[..|scheme|] == scheme && text[|scheme|..|scheme| + 3] == "://"
    && (forall k :: 0 <= k < |scheme| ==> !SchemeEndsAt(text, k))
    && scheme != "http"
  }

  // What follows "http://", or the whole text if it has no "://".
  predicate IsAfter(text: Bytes, after: Bytes) {
    if |text| >= 7 && text[..7] == "http://" then after == text[7..]
    else after == text && forall k :: 0 <= k < |text| ==> !SchemeEndsAt(text, k)
  }

  // What follows the last '@', or everything.
  predicate IsServer(after: Bytes, server: Bytes) {
    && '@' !in server
    && (server == after
        || (|server| < |after| && after[|after| - |server| - 1] == '@' && after[|after| - |server|..] == server))
  }

  // The host, in brackets or up to the first ':', and what follows it.
  predicate IsHost(server: Bytes, host: Bytes, rest: Bytes) {
    if server != [] && server[0] == '[' then ']' !in host && server == ['['] + host + ([']'] + rest)
    else ':' !in host && server == host + rest && (rest == [] || rest[0] == ':')
  }

  predicate IsPort(rest: Bytes) {
    rest == [] || (rest[0] == ':' && rest[1..] != [] && AllDigits(rest[1..]) && 1 <= PortValue(rest[1..]) <= 65535)
  }

  predicate WrongServer(host: Bytes, rest: Bytes, e: ProxyError) {
    match e
    case InvalidHostPort => rest != [] && rest[0] != ':'
    case InvalidPort => rest != [] && rest[0] == ':' && (rest[1..] == [] || !AllDigits(rest[1..]))
    case PortOutOfRange =>
      && rest != [] && rest[0] == ':' && rest[1..] != [] && AllDigits(rest[1..])
      && !(1 <= PortValue(rest[1..]) <= 65535)
    case InvalidHost => IsPort(rest) && (host == [] || '/' in host)
    case _ => false
  }

  // A bracket that is not closed.
  predicate Unterminated(server: Bytes) {
    server != [] && server[0] == '[' && ']' !in server
  }

  // What is wrong after the scheme.
  ghost predicate WrongAfter(after: Bytes, e: ProxyError) {
    if e.UnterminatedHost? then exists server :: IsServer(after, server) && Unterminated(server)
    else exists server, host, rest ::
           IsServer(after, server) && IsHost(server, host, rest) && WrongServer(host, rest, e)
  }

  ghost predicate Wrong(text: Bytes, e: ProxyError) {
    match e
    case EmptyProxy => text == []
    case UnsupportedScheme(scheme) => OtherScheme(text, scheme)
    case _ => text != [] && exists after :: IsAfter(text, after) && WrongAfter(after, e)
  }

  // --- the pieces are those that the parser cuts ---

  lemma SchemeIs(text: Bytes, scheme: Bytes)
    ensures AfterScheme(text) == Err(UnsupportedScheme(scheme)) <==> OtherScheme(text, scheme)
  {
    var k := FindScheme(text, 0);
    if OtherScheme(text, scheme) { assert SchemeEndsAt(text, |scheme|) && k == |scheme|; }
    if k < |text| { MarkAt(text, k); }
  }

  lemma HttpIsFirst(text: Bytes)
    ensures |text| >= 7 && text[..7] == "http://" <==> FindScheme(text, 0) == 4 < |text| && text[..4] == "http"
  {
    var k := FindScheme(text, 0);
    if |text| >= 7 && text[..7] == "http://" {
      assert forall i | 0 <= i < 7 :: text[i] == "http://"[i];
      assert SchemeEndsAt(text, 4) && k == 4;
    }
    if k == 4 && k < |text| {
      MarkAt(text, k);
      assert text[..7] == text[..4] + text[4..7];
    }
  }

  lemma AfterIs(text: Bytes, after: Bytes)
    ensures AfterScheme(text) == Ok(after) <==> IsAfter(text, after)
  {
    HttpIsFirst(text);
  }

  lemma ServerIs(after: Bytes, server: Bytes)
    ensures var at := FindLast(after, '@');
            IsServer(after, server) <==> server == if at == |after| then after else after[at + 1..]
  {
    var at := FindLast(after, '@');
    if IsServer(after, server) && server != after { LastAt(after, server); }
    if IsServer(after, server) && server == after { assert at == |after|; }
  }

  lemma LastAt(after: Bytes, server: Bytes)
    requires '@' !in server && |server| < |after|
    requires after[|after| - |server| - 1] == '@' && after[|after| - |server|..] == server
    ensures FindLast(after, '@') == |after| - |server| - 1 && after[FindLast(after, '@') + 1..] == server
  {
    var n := |after| - |server| - 1;
    assert forall i | n < i < |after| :: after[i] == server[i - n - 1];
  }

  lemma HostIs(server: Bytes, host: Bytes, rest: Bytes)
    ensures HostOf(server) == Ok((host, rest)) <==> IsHost(server, host, rest)
  {
    if server != [] && server[0] == '[' {
      var close := FindFirstOf(server, [']'], 0);
      if IsHost(server, host, rest) {
        assert forall i | 1 <= i < |host| + 1 :: server[i] == host[i - 1];
        FirstIs(server, [']'], 0, |host| + 1);
        assert server[1..close] == host && server[close + 1..] == rest;
      }
      if close < |server| { assert server == ['['] + server[1..close] + ([']'] + server[close + 1..]); }
    } else {
      var colon := FindFirstOf(server, [':'], 0);
      if IsHost(server, host, rest) {
        assert forall i | 0 <= i < |host| :: server[i] == host[i];
        FirstIs(server, [':'], 0, |host|);
        assert server[..colon] == host && server[colon..] == rest;
      }
      assert server == server[..colon] + server[colon..];
    }
  }

  lemma UnterminatedIs(server: Bytes)
    ensures HostOf(server) == Err(UnterminatedHost) <==> Unterminated(server)
    ensures HostOf(server).Err? ==> HostOf(server) == Err(UnterminatedHost)
  {
    var close := FindFirstOf(server, [']'], 0);
    if close == |server| { assert forall i | 0 <= i < |server| :: server[i] !in [']']; }
  }

  lemma ServerErrs(server: Bytes, host: Bytes, rest: Bytes, user: User, e: ProxyError)
    requires HostOf(server) == Ok((host, rest))
    ensures ServerOf(server, user) == Err(e) <==> WrongServer(host, rest, e)
  {
    hide HostOf, PortValue;
  }

  // --- every error ---

  lemma BodyErrs(after: Bytes, e: ProxyError)
    ensures BodyOf(after) == Err(e) <==>
              exists server :: IsServer(after, server) && ServerOf(server, User([], [])) == Err(e)
  {
    var at := FindLast(after, '@');
    var server := if at == |after| then after else after[at + 1..];
    ServerIs(after, server);
    if at < |after| { UserDoesNotMatter(server, UserOf(after[..at]), User([], []), e); }
    forall other | IsServer(after, other) ensures other == server { ServerIs(after, other); }
    hide ServerOf, UserOf, IsServer;
  }

  lemma UserDoesNotMatter(server: Bytes, a: User, b: User, e: ProxyError)
    ensures ServerOf(server, a) == Err(e) <==> ServerOf(server, b) == Err(e)
  {
    hide HostOf, PortOf;
  }

  lemma ServerWrong(server: Bytes, e: ProxyError)
    ensures ServerOf(server, User([], [])) == Err(e) <==>
              if e.UnterminatedHost? then Unterminated(server)
              else exists host, rest :: IsHost(server, host, rest) && WrongServer(host, rest, e)
  {
    UnterminatedIs(server);
    if HostOf(server).Ok? {
      var (host, rest) := HostOf(server).value;
      HostIs(server, host, rest);
      ServerErrs(server, host, rest, User([], []), e);
    }
    forall host, rest | IsHost(server, host, rest)
      ensures HostOf(server) == Ok((host, rest))
    {
      HostIs(server, host, rest);
    }
    hide HostOf, IsHost;
  }

  lemma AfterErrs(after: Bytes, e: ProxyError)
    ensures BodyOf(after) == Err(e) <==> WrongAfter(after, e)
  {
    BodyErrs(after, e);
    forall server ensures ServerOf(server, User([], [])) == Err(e) <==>
                            if e.UnterminatedHost? then Unterminated(server)
                            else exists host, rest :: IsHost(server, host, rest) && WrongServer(host, rest, e)
    {
      ServerWrong(server, e);
    }
    hide BodyOf, ServerOf, IsServer, IsHost, WrongServer, Unterminated;
  }

  // An error of the part after the scheme is none of the others.
  lemma BodyErrors(after: Bytes, e: ProxyError)
    requires WrongAfter(after, e)
    ensures !e.EmptyProxy? && !e.UnsupportedScheme?
  {
    hide IsServer, IsHost;
  }

  /** The refused strings, error by error. */
  lemma RefusesExactly(s: Bytes, e: ProxyError)
    ensures Parse(s) == Err(e) <==> Wrong(CString(s), e)
  {
    var text := CString(s);
    hide CString, BodyOf, OtherScheme, IsAfter, WrongAfter;
    forall after ensures AfterScheme(text) == Ok(after) <==> IsAfter(text, after) { AfterIs(text, after); }
    forall scheme ensures AfterScheme(text) == Err(UnsupportedScheme(scheme)) <==> OtherScheme(text, scheme) {
      SchemeIs(text, scheme);
    }
    if AfterScheme(text).Ok? {
      var after := AfterScheme(text).value;
      AfterErrs(after, e);
      if WrongAfter(after, e) { BodyErrors(after, e); }
    }
  }

  /** A bare host gets port 8080, and no user. */
  lemma BareHostGetsDefaults(host: Bytes)
    requires host != [] && forall c <- host :: c !in "/@:[\0"
    ensures Parse(host) == Ok(ProxyConfig(host, "8080", "", ""))
  {
    var sp := Spelling(false, None, false, host, None);
    assert Body(sp) == host + [] == host;
    assert forall k | 0 <= k < |host| :: host[k] in host;
    hide Parse, CString, ParseText, Body;
    PrintParses(sp);
  }
}
