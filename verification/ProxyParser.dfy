/**
 `parse_proxy`: exactly which strings it accepts, what it makes of them, and what its
 64-bit port accumulator does to long ports.
 */
module ProxyParser {
  import opened ByteStrings
  import opened Wrappers
  import opened UrlNormalize

  datatype ProxyConfig = ProxyConfig(host: Bytes, port: Bytes, username: Bytes, password: Bytes)

  datatype ProxyError =
    | EmptyProxy
    | UnsupportedScheme(scheme: Bytes)
    | UnterminatedHost
    | InvalidHostPort
    | InvalidPort
    | PortOutOfRange
    | InvalidHost

  datatype Parsed<+T> = Ok(value: T) | Err(error: ProxyError)

  // --- searching; |s| stands for `npos` ---

  function FindLast(s: Bytes, c: Byte): (n: nat)
    ensures n <= |s| && (n < |s| ==> s[n] == c && c !in s[n + 1..])
    ensures n == |s| ==> c !in s
    decreases s
  {
    if s == [] then 0
    else if s[|s| - 1] == c then |s| - 1
    else
      var n := FindLast(s[..|s| - 1], c);
      assert s == s[..|s| - 1] + [s[|s| - 1]];
      if n == |s| - 1 then |s| else
        assert s[n + 1..] == s[..|s| - 1][n + 1..] + [s[|s| - 1]];
        n
  }

  // --- the port ---

  const WORD := 0x1_0000_0000_0000_0000

  // The value of the `uint64_t` after reading the digits.
  function PortValue(digits: Bytes): (v: nat)
    requires AllDigits(digits)
    ensures v < WORD
    decreases digits
  {
    if digits == [] then 0
    else (PortValue(digits[..|digits| - 1]) * 10 + (digits[|digits| - 1] as int - '0' as int)) % WORD
  }

  predicate InRange(port: nat) {
    1 <= port <= 65535
  }

  // --- what the function computes ---

  function AfterScheme(sv: Bytes): Parsed<Bytes> {
    var k := FindScheme(sv, 0);
    if k == |sv| then Ok(sv)
    else if sv[..k] != "http" then Err(UnsupportedScheme(sv[..k]))
    else Ok(sv[k + 3..])
  }

  datatype User = User(name: Bytes, password: Bytes)

  function UserOf(userinfo: Bytes): User {
    var (name, password) := CutAt(userinfo, ':');
    User(name, if password.Some? then password.value else [])
  }

  // The text after the host: nothing, or a colon and a port.
  function PortOf(rest: Bytes): Parsed<Bytes> {
    if rest == [] then Ok("8080")
    else if rest[0] != ':' then Err(InvalidHostPort)
    else if rest[1..] == [] || !AllDigits(rest[1..]) then Err(InvalidPort)
    else if !InRange(PortValue(rest[1..])) then Err(PortOutOfRange)
    else Ok(rest[1..])
  }

  function HostOf(sv: Bytes): Parsed<(Bytes, Bytes)> {
    if sv != [] && sv[0] == '[' then
      var close := FindFirstOf(sv, [']'], 0);
      if close == |sv| then Err(UnterminatedHost) else Ok((sv[1..close], sv[close + 1..]))
    else
      var colon := FindFirstOf(sv, [':'], 0);
      Ok((sv[..colon], sv[colon..]))
  }

  function ServerOf(sv: Bytes, user: User): Parsed<ProxyConfig> {
    match HostOf(sv)
    case Err(e) => Err(e)
    case Ok((host, rest)) =>
      match PortOf(rest)
      case Err(e) => Err(e)
      case Ok(port) =>
        if host == [] || '/' in host then Err(InvalidHost)
        else Ok(ProxyConfig(host, port, user.name, user.password))
  }

  function BodyOf(after: Bytes): Parsed<ProxyConfig> {
    var at := FindLast(after, '@');
    if at == |after| then ServerOf(after, User([], []))
    else ServerOf(after[at + 1..], UserOf(after[..at]))
  }

  function ParseText(sv: Bytes): Parsed<ProxyConfig> {
    if sv == [] then Err(EmptyProxy)
    else match AfterScheme(sv)
      case Err(e) => Err(e)
      case Ok(after) => BodyOf(after)
  }

  function Parse(s: Bytes): Parsed<ProxyConfig> {
    ParseText(CString(s))
  }

  // --- the source's shrinking view ---

  method ParseProxy(s: Bytes) returns (r: Parsed<ProxyConfig>)
    ensures r == Parse(s)
  {
    hide ServerOf, FindScheme, FindLast, FindFirstOf;
    var username, password: Bytes := [], [];
    var sv := CString(s);
    if sv == [] { return Err(EmptyProxy); }
    var schemeEnd := FindScheme(sv, 0);
    if schemeEnd != |sv| {
      if sv[..schemeEnd] != "http" { return Err(UnsupportedScheme(sv[..schemeEnd])); }
      sv := sv[schemeEnd + 3..];
    }
    assert AfterScheme(CString(s)) == Ok(sv);
    hide CString, AfterScheme;
    var at := FindLast(sv, '@');
    if at != |sv| {
      var userinfo := sv[..at];
      var colon := FindFirstOf(userinfo, [':'], 0);
      if colon != |userinfo| {
        username, password := userinfo[..colon], userinfo[colon + 1..];
      } else {
        username := userinfo;
      }
      assert UserOf(userinfo) == User(username, password);
      sv := sv[at + 1..];
    }
    r := ParseServer(sv, username, password);
  }

  // The rest of the function: host, port, and the final tests.
  method ParseServer(server: Bytes, username: Bytes, password: Bytes) returns (r: Parsed<ProxyConfig>)
    ensures r == ServerOf(server, User(username, password))
  {
    hide FindFirstOf, PortValue;
    var host: Bytes, port: Bytes := [], [];
    var sv := server;
    if sv != [] && sv[0] == '[' {
      var close := FindFirstOf(sv, [']'], 0);
      if close == |sv| { return Err(UnterminatedHost); }
      host := sv[1..close];
      sv := sv[close + 1..];
    } else {
      var colon := FindFirstOf(sv, [':'], 0);
      if colon != |sv| {
        host := sv[..colon];
        sv := sv[colon..];
      } else {
        host := sv;
        sv := [];
        assert server[..colon] == host && server[colon..] == [];
      }
    }
    assert HostOf(server) == Ok((host, sv));
    ghost var rest := sv;
    if sv != [] {
      if sv[0] != ':' { return Err(InvalidHostPort); }
      sv := sv[1..];
      if sv != [] && AllDigits(sv) {
        var portVal := ReadPort(sv);
        if portVal == 0 || portVal > 65535 { return Err(PortOutOfRange); }
        port := sv;
      } else {
        return Err(InvalidPort);
      }
    }
    if port == [] { port := "8080"; }
    assert PortOf(rest) == Ok(port);
    if host == [] || '/' in host { return Err(InvalidHost); }
    return Ok(ProxyConfig(host, port, username, password));
  }

  method ReadPort(digits: Bytes) returns (v: nat)
    requires AllDigits(digits)
    ensures v == PortValue(digits)
  {
    v := 0;
    var i := 0;
    while i < |digits|
      invariant 0 <= i <= |digits|
      invariant v == PortValue(digits[..i])
    {
      assert digits[..i + 1][..i] == digits[..i];
      v := (v * 10 + (digits[i] as int - '0' as int)) % WORD;
      i := i + 1;
    }
    assert digits[..|digits|] == digits;
  }

  lemma WholeWordsVanish(a: int, k: int)
    ensures (a + k * WORD) % WORD == a % WORD
  {}

  /** The accumulator holds the port modulo 2^64. */
  lemma {:induction false} PortValueWraps(digits: Bytes)
    requires AllDigits(digits)
    ensures PortValue(digits) == Decimal(digits) % WORD
    decreases digits
  {
    if digits != [] {
      var front := digits[..|digits| - 1];
      PortValueWraps(front);
      var d := digits[|digits| - 1] as int - '0' as int;
      var q := Decimal(front) / WORD;
      assert Decimal(front) * 10 + d == PortValue(front) * 10 + d + 10 * q * WORD;
      WholeWordsVanish(PortValue(front) * 10 + d, 10 * q);
    }
  }

  function Power10(n: nat): nat {
    if n == 0 then 1 else 10 * Power10(n - 1)
  }

  lemma {:induction false} DecimalIsBounded(digits: Bytes)
    requires AllDigits(digits)
    ensures Decimal(digits) < Power10(|digits|)
    decreases digits
  {
    if digits != [] { DecimalIsBounded(digits[..|digits| - 1]); }
  }

  lemma {:induction false} Power10Grows(m: nat, n: nat)
    requires m <= n
    ensures Power10(m) <= Power10(n)
  {
    if m < n { Power10Grows(m, n - 1); }
  }

  /** A port is judged by its value unless it is 2^64 or more and wraps into the range. */
  lemma PortIsJudgedByItsValue(digits: Bytes)
    requires AllDigits(digits)
    ensures (InRange(PortValue(digits)) <==> 1 <= Decimal(digits) <= 65535) <==>
              (Decimal(digits) < 0x1_0000_0000_0000_0000 || !(1 <= Decimal(digits) % 0x1_0000_0000_0000_0000 <= 65535))
    ensures |digits| <= 19 ==> PortValue(digits) == Decimal(digits) < WORD
  {
    PortValueWraps(digits);
    if |digits| <= 19 {
      DecimalIsBounded(digits);
      Power10Grows(|digits|, 19);
      assert Power10(6) == 1_000_000;
      assert Power10(12) == 1_000_000_000_000;
      assert Power10(18) == 1_000_000_000_000_000_000;
    }
  }

  // --- the spellings of a configuration ---

  datatype Spelling = Spelling(
    scheme: bool,
    user: Option<(Bytes, Option<Bytes>)>,
    bracketed: bool,
    host: Bytes,
    port: Option<Bytes>
  )

  function Server(sp: Spelling): Bytes {
    (if sp.bracketed then ['['] + sp.host + [']'] else sp.host)
    + (if sp.port.Some? then [':'] + sp.port.value else [])
  }

  function Userinfo(sp: Spelling): Bytes {
    match sp.user
    case None => []
    case Some((name, None)) => name
    case Some((name, Some(password))) => name + ([':'] + password)
  }

  function Body(sp: Spelling): Bytes {
    if sp.user.Some? then Userinfo(sp) + (['@'] + Server(sp)) else Server(sp)
  }

  // "[http://][user[:password]@]host[:port]"
  function Print(sp: Spelling): Bytes {
    if sp.scheme then "http" + ("://" + Body(sp)) else Body(sp)
  }

  function Config(sp: Spelling): ProxyConfig {
    ProxyConfig(sp.host,
                if sp.port.Some? then sp.port.value else "8080",
                if sp.user.Some? then sp.user.value.0 else [],
                if sp.user.Some? && sp.user.value.1.Some? then sp.user.value.1.value else [])
  }

  predicate ServerSpelled(sp: Spelling) {
    && sp.host != [] && '/' !in sp.host && '@' !in sp.host
    && (if sp.bracketed then ']' !in sp.host else ':' !in sp.host && sp.host[0] != '[')
    && (sp.port.Some? ==>
          sp.port.value != [] && AllDigits(sp.port.value) && 1 <= PortValue(sp.port.value) <= 65535)
  }

  // A password may hold any byte but NUL, ':' and '@' included; a name may hold '@'.
  ghost predicate WellSpelled(sp: Spelling) {
    && ServerSpelled(sp)
    && (sp.user.Some? ==> ':' !in sp.user.value.0)
    && (!sp.scheme ==> !Mentions(Body(sp)))
    && '\0' !in Print(sp)
  }

  ghost predicate Spells(sp: Spelling, s: Bytes, c: ProxyConfig) {
    WellSpelled(sp) && Print(sp) == CString(s) && Config(sp) == c
  }

  /**
   The accepted strings are exactly the well-formed spellings, and the configuration
   returned is the one spelled.
   */
  lemma AcceptsExactlySpellings(s: Bytes, c: ProxyConfig)
    ensures Parse(s) == Ok(c) <==> exists sp :: Spells(sp, s, c)
  {
    if Parse(s) == Ok(c) { var sp := FindSpelling(s, c); }
    if sp :| Spells(sp, s, c) {
      PrintParses(sp);
      hide ParseText, CString, Print, Config;
    }
  }

  /** Printing a configuration and parsing it gives it back. */
  lemma PrintParses(sp: Spelling)
    requires WellSpelled(sp)
    ensures Parse(Print(sp)) == ParseText(Print(sp)) == Ok(Config(sp))
  {
    NoNul(Print(sp));
    SchemeIsDropped(sp);
    BodyIsRead(sp);
    assert Print(sp) != [] by { assert Server(sp) != []; }
    hide CString, Print, Body, Server, Config, AfterScheme, BodyOf;
  }

  lemma BodyIsRead(sp: Spelling)
    requires ServerSpelled(sp) && (sp.user.Some? ==> ':' !in sp.user.value.0)
    ensures BodyOf(Body(sp)) == Ok(Config(sp))
  {
    UserIsSplit(sp);
    ServerIsRead(sp, User(Config(sp).username, Config(sp).password));
    hide Body, Server, BodyOf, ServerOf, ServerSpelled;
  }

  lemma SchemeIsDropped(sp: Spelling)
    requires !sp.scheme ==> !Mentions(Body(sp))
    ensures AfterScheme(Print(sp)) == Ok(Body(sp))
  {
    var sv := Print(sp);
    if sp.scheme {
      assert SchemeEndsAt(sv, 4) && sv[..4] == "http" && sv[7..] == Body(sp);
    } else {
      FindMentions(sv);
    }
  }

  lemma ServerHasNoAt(sp: Spelling)
    requires ServerSpelled(sp)
    ensures '@' !in Server(sp)
  {
    if sp.port.Some? { assert forall c <- sp.port.value :: IsDigit(c); }
  }

  lemma LastIs(s: Bytes, c: Byte, a: Bytes, b: Bytes)
    requires s == a + ([c] + b) && c !in b
    ensures FindLast(s, c) == |a| && s[..|a|] == a && s[|a| + 1..] == b
  {
    assert s[|a|] == c && s[|a| + 1..] == b;
    assert forall n | |a| < n < |s| :: s[n] == b[n - |a| - 1];
    forall n | 0 <= n < |a| && s[n] == c ensures c in s[n + 1..] {
      assert s[n + 1..][|a| - n - 1] == c;
    }
  }

  lemma UserIsSplit(sp: Spelling)
    requires ServerSpelled(sp) && (sp.user.Some? ==> ':' !in sp.user.value.0)
    ensures BodyOf(Body(sp)) == ServerOf(Server(sp), User(Config(sp).username, Config(sp).password))
  {
    ServerHasNoAt(sp);
    if sp.user.Some? {
      UserIsRead(sp);
      UserIsCutOff(Userinfo(sp), Server(sp));
    } else {
      NoUserToCut(Server(sp));
    }
    hide BodyOf, ServerOf, Server, UserOf, ServerSpelled, Userinfo;
  }

  lemma NoUserToCut(server: Bytes)
    requires '@' !in server
    ensures BodyOf(server) == ServerOf(server, User([], []))
  {
    hide ServerOf;
  }

  lemma UserIsCutOff(userinfo: Bytes, server: Bytes)
    requires '@' !in server
    ensures BodyOf(userinfo + (['@'] + server)) == ServerOf(server, UserOf(userinfo))
  {
    LastIs(userinfo + (['@'] + server), '@', userinfo, server);
    hide ServerOf, UserOf, FindLast;
  }

  lemma UserIsRead(sp: Spelling)
    requires sp.user.Some? && ':' !in sp.user.value.0
    ensures UserOf(Userinfo(sp)) == User(Config(sp).username, Config(sp).password)
  {
    CutExactly(Userinfo(sp), ':', sp.user.value.0, sp.user.value.1);
    hide CutAt;
  }

  function PortText(sp: Spelling): Bytes {
    if sp.port.Some? then [':'] + sp.port.value else []
  }

  lemma HostIsRead(sp: Spelling)
    requires ServerSpelled(sp)
    ensures HostOf(Server(sp)) == Ok((sp.host, PortText(sp)))
  {
    hide PortValue, AllDigits, FindFirstOf;
    assert Server(sp) == (if sp.bracketed then ['['] + sp.host + [']'] else sp.host) + PortText(sp);
    if sp.bracketed { BracketedIsRead(sp.host, PortText(sp)); } else { PlainIsRead(sp.host, PortText(sp)); }
  }

  lemma BracketedIsRead(host: Bytes, rest: Bytes)
    requires ']' !in host
    ensures HostOf(['['] + host + [']'] + rest) == Ok((host, rest))
  {
    var sv, n := ['['] + host + [']'] + rest, |host|;
    assert sv[1..n + 1] == host && sv[n + 1] == ']' && sv[n + 2..] == rest;
    assert forall i | 1 <= i < n + 1 :: sv[i] == host[i - 1];
    FirstIs(sv, [']'], 0, n + 1);
    hide FindFirstOf;
  }

  lemma PlainIsRead(host: Bytes, rest: Bytes)
    requires host != [] && host[0] != '[' && ':' !in host && (rest == [] || rest[0] == ':')
    ensures HostOf(host + rest) == Ok((host, rest))
  {
    var sv, n := host + rest, |host|;
    assert sv[..n] == host && sv[n..] == rest && sv[0] == host[0];
    FirstIs(sv, [':'], 0, n);
    hide FindFirstOf;
  }

  lemma ServerIsRead(sp: Spelling, user: User)
    requires ServerSpelled(sp)
    ensures ServerOf(Server(sp), user) == Ok(ProxyConfig(sp.host, Config(sp).port, user.name, user.password))
  {
    HostIsRead(sp);
    if sp.port.Some? { assert PortText(sp)[1..] == sp.port.value; }
    hide HostOf, Server, PortValue;
  }

  // --- every accepted string has a spelling ---

  lemma ReadServer(sv: Bytes, user: User, c: ProxyConfig) returns (sp: Spelling)
    requires ServerOf(sv, user) == Ok(c) && '@' !in sv
    ensures ServerSpelled(sp) && Server(sp) == sv && !sp.scheme && sp.user.None?
    ensures c == ProxyConfig(sp.host, Config(sp).port, user.name, user.password)
  {
    var (host, rest) := HostOf(sv).value;
    ReadHost(sv, host, rest);
    sp := Spelling(false, None, sv[0] == '[', host, if rest == [] then None else Some(rest[1..]));
    assert PortText(sp) == rest;
    hide HostOf, PortValue, AllDigits;
  }

  lemma ReadHost(sv: Bytes, host: Bytes, rest: Bytes)
    requires HostOf(sv) == Ok((host, rest)) && sv != []
    ensures sv[0] == '[' ==> sv == ['['] + host + [']'] + rest && ']' !in host
    ensures sv[0] != '[' ==> sv == host + rest && ':' !in host
    ensures forall c <- host :: c in sv
  {
    if sv[0] == '[' {
      var close := FindFirstOf(sv, [']'], 0);
      assert sv == ['['] + sv[1..close] + [sv[close]] + sv[close + 1..];
    } else {
      var colon := FindFirstOf(sv, [':'], 0);
      assert sv == sv[..colon] + sv[colon..];
    }
  }

  lemma ReadBody(after: Bytes, c: ProxyConfig) returns (sp: Spelling)
    requires BodyOf(after) == Ok(c)
    ensures ServerSpelled(sp) && (sp.user.Some? ==> ':' !in sp.user.value.0)
    ensures Body(sp) == after && !sp.scheme && Config(sp) == c
  {
    var at := FindLast(after, '@');
    hide FindLast, ServerOf, PortValue, FindFirstOf, ServerSpelled, Server;
    if at == |after| {
      sp := ReadServer(after, User([], []), c);
    } else {
      sp := ReadUser(after, at, c);
    }
  }

  lemma ReadUser(after: Bytes, at: nat, c: ProxyConfig) returns (sp: Spelling)
    requires at == FindLast(after, '@') < |after|
    requires ServerOf(after[at + 1..], UserOf(after[..at])) == Ok(c)
    ensures ServerSpelled(sp) && sp.user.Some? && ':' !in sp.user.value.0
    ensures Body(sp) == after && !sp.scheme && Config(sp) == c
  {
    hide FindLast, ServerOf, PortValue, FindFirstOf, UserOf, ServerSpelled, Server, Config, Body;
    var userinfo := after[..at];
    assert after == userinfo + (['@'] + after[at + 1..]);
    var server := ReadServer(after[at + 1..], UserOf(userinfo), c);
    sp := WithUser(server, userinfo, c);
  }

  lemma WithUser(server: Spelling, userinfo: Bytes, c: ProxyConfig) returns (sp: Spelling)
    requires ServerSpelled(server) && !server.scheme && server.user.None?
    requires c == ProxyConfig(server.host, Config(server).port, UserOf(userinfo).name, UserOf(userinfo).password)
    ensures ServerSpelled(sp) && sp.user.Some? && ':' !in sp.user.value.0
    ensures Body(sp) == userinfo + (['@'] + Server(server)) && !sp.scheme && Config(sp) == c
  {
    var (name, password) := CutAt(userinfo, ':');
    CutExactly(userinfo, ':', name, password);
    sp := server.(user := Some((name, password)));
    hide CutAt, PortValue;
    assert Userinfo(sp) == userinfo;
    assert Server(sp) == Server(server);
  }

  lemma FindSpelling(s: Bytes, c: ProxyConfig) returns (sp: Spelling)
    requires Parse(s) == Ok(c)
    ensures Spells(sp, s, c)
  {
    var sv := CString(s);
    NoNul(s);
    hide CString;
    var after := AfterScheme(sv).value;
    var body := ReadBody(after, c);
    var k := FindScheme(sv, 0);
    FindMentions(sv);
    sp := body.(scheme := k < |sv|);
    SchemeIsFree(body, k < |sv|);
    SchemeIsHttp(sv);
    SpellsWhen(sp, s, c);
    hide *;
  }

  lemma SpellsWhen(sp: Spelling, s: Bytes, c: ProxyConfig)
    requires ServerSpelled(sp) && (sp.user.Some? ==> ':' !in sp.user.value.0) && (!sp.scheme ==> !Mentions(Body(sp)))
    requires CString(s) == (if sp.scheme then "http" + ("://" + Body(sp)) else Body(sp)) && Config(sp) == c
    ensures Spells(sp, s, c)
  {
    hide ServerSpelled, Body, Config, Mentions;
  }

  lemma SchemeIsFree(sp: Spelling, scheme: bool)
    ensures var other := sp.(scheme := scheme);
            && Body(other) == Body(sp) && Config(other) == Config(sp)
            && (ServerSpelled(other) <==> ServerSpelled(sp))
  {
    hide PortValue;
    var other := sp.(scheme := scheme);
    assert Server(other) == Server(sp) && Userinfo(other) == Userinfo(sp);
  }

  lemma CutTwice<T>(s: seq<T>, a: nat, b: nat)
    requires a <= b <= |s|
    ensures s == s[..a] + (s[a..b] + s[b..])
  {}

  lemma SchemeIsHttp(sv: Bytes)
    requires AfterScheme(sv).Ok?
    ensures sv == if FindScheme(sv, 0) < |sv| then "http" + ("://" + AfterScheme(sv).value) else AfterScheme(sv).value
  {
    var k := FindScheme(sv, 0);
    if k < |sv| {
      MarkAt(sv, k);
      CutTwice(sv, k, k + 3);
      hide FindScheme, SchemeEndsAt;
    }
  }

  lemma MarkAt(sv: Bytes, k: nat)
    requires SchemeEndsAt(sv, k)
    ensures sv[k..k + 3] == "://"
  {}

  // --- what the spellings say of a caller's configuration ---

  /**
   Any host without '/', '@', ':' (or, in brackets, without ']'), any name without ':' and
   any password at all survive the trip.
   */
  lemma ConfigRoundTrips(c: ProxyConfig, bracketed: bool)
    requires ServerSpelled(Spelling(true, None, bracketed, c.host, Some(c.port)))
    requires ':' !in c.username
    requires '\0' !in c.host && '\0' !in c.username && '\0' !in c.password
    ensures Parse(Print(Spelling(true, Some((c.username, Some(c.password))), bracketed, c.host, Some(c.port)))) == Ok(c)
  {
    var sp := Spelling(true, Some((c.username, Some(c.password))), bracketed, c.host, Some(c.port));
    hide Parse, PortValue, Print, Body, CString, ParseText;
    PrintHasNoNul(sp);
    PrintParses(sp);
  }

  lemma DigitsHaveNoNul(digits: Bytes)
    requires AllDigits(digits)
    ensures '\0' !in digits
  {}

  lemma ServerHasNoNul(sp: Spelling)
    requires '\0' !in sp.host && (sp.port.Some? ==> AllDigits(sp.port.value))
    ensures '\0' !in Server(sp)
  {
    if sp.port.Some? { DigitsHaveNoNul(sp.port.value); }
    hide AllDigits;
  }

  lemma PrintHasNoNul(sp: Spelling)
    requires '\0' !in sp.host && (sp.port.Some? ==> AllDigits(sp.port.value))
    requires '\0' !in Userinfo(sp)
    ensures '\0' !in Print(sp)
  {
    ServerHasNoNul(sp);
    hide Server, Userinfo, AllDigits;
    assert '\0' !in Body(sp);
    hide Body;
  }

  /** Port 2^64 + 80 is accepted, though it is no port. */
  lemma LongPortIsAccepted()
    ensures var port := Numeral(WORD + 80);
            !InRange(Decimal(port)) && Parse("h:" + port) == Ok(ProxyConfig("h", port, [], []))
  {
    var port := Numeral(WORD + 80);
    PortValueWraps(port);
    var sp := Spelling(false, None, false, "h", Some(port));
    var text := "h:" + port;
    hide Numeral, Decimal, PortValue;
    assert Server(sp) == "h" + ([':'] + port) == text;
    assert Print(sp) == text && Config(sp) == ProxyConfig("h", port, [], []);
    assert forall i | 2 <= i < |text| :: IsDigit(text[i]);
    assert !Mentions(text) && '\0' !in text;
    hide Parse;
    PrintParses(sp);
  }
}
