/**
 `normalize_url`: where a URL is cut, what is rewritten, and why the rewritten URL is cut
 at the same places.
 */
module UrlNormalize {
  import opened ByteStrings
  import opened Wrappers
  import opened UrlSyntax

  // The path keeps its leading '/'; query and fragment lose their '?' and '#'.
  datatype Parts = Parts(head: Bytes, path: Bytes, query: Option<Bytes>, fragment: Option<Bytes>)

  // --- searching; |s| stands for `npos` ---

  predicate SchemeEndsAt(s: Bytes, n: nat) {
    n + 3 <= |s| && s[n] == ':' && s[n + 1] == '/' && s[n + 2] == '/'
  }

  function FindScheme(s: Bytes, from: nat): (n: nat)
    requires from <= |s|
    ensures from <= n <= |s| && (n < |s| ==> SchemeEndsAt(s, n))
    ensures forall i :: from <= i < n ==> !SchemeEndsAt(s, i)
    decreases |s| - from
  {
    if from == |s| || SchemeEndsAt(s, from) then from else FindScheme(s, from + 1)
  }

  // Where the authority starts.
  function Authority(url: Bytes): (n: nat)
    ensures n <= |url|
  {
    var scheme := FindScheme(url, 0);
    if scheme == |url| then 0 else scheme + 3
  }

  // --- what the function computes ---

  function CutRest(head: Bytes, rest: Bytes): Parts {
    var (body, fragment) := CutAt(rest, '#');
    var (path, query) := CutAt(body, '?');
    Parts(head, path, query, fragment)
  }

  function Split(url: Bytes): Option<Parts> {
    var comp := FindFirstOf(url, "/?#", Authority(url));
    if comp == |url| then None else Some(CutRest(url[..comp], url[comp..]))
  }

  function Rest(p: Parts): Bytes {
    Glue(Glue(p.path, '?', p.query), '#', p.fragment)
  }

  function Join(p: Parts): Bytes {
    p.head + Rest(p)
  }

  function Encoded(p: Parts): Parts {
    p.(path := Encode(p.path, false),
       query := if p.query.Some? then Some(Encode(p.query.value, true)) else None)
  }

  function Normalize(url: Bytes): Bytes {
    var p := Split(url);
    if p.None? then url else Join(Encoded(p.value))
  }

  // --- a URL is cut in exactly one way ---

  predicate WellFormed(p: Parts) {
    && '#' !in p.path && '?' !in p.path
    && (p.query.Some? ==> '#' !in p.query.value)
    && Rest(p) != [] && Rest(p)[0] in "/?#"
  }

  predicate HeadOf(url: Bytes, head: Bytes) {
    && Authority(url) <= |head| <= |url|
    && forall i :: Authority(url) <= i < |head| ==> url[i] !in "/?#"
  }

  /** The cut of a URL, said without searching. */
  lemma SplitExactly(url: Bytes, p: Parts)
    ensures Split(url) == Some(p) <==> Join(p) == url && WellFormed(p) && HeadOf(url, p.head)
  {
    if Split(url) == Some(p) { SplitJoins(url, p); }
    if Join(p) == url && WellFormed(p) && HeadOf(url, p.head) { JoinSplits(url, p); }
  }

  lemma RestIsCut(head: Bytes, rest: Bytes, p: Parts)
    ensures CutRest(head, rest) == p <==>
              p.head == head && Rest(p) == rest && '#' !in Glue(p.path, '?', p.query) && '?' !in p.path
  {
    var (body, fragment) := CutAt(rest, '#');
    CutExactly(rest, '#', Glue(p.path, '?', p.query), p.fragment);
    CutExactly(body, '?', p.path, p.query);
    CutExactly(rest, '#', body, fragment);
    hide CutAt, Glue;
  }

  lemma SplitJoins(url: Bytes, p: Parts)
    requires Split(url) == Some(p)
    ensures Join(p) == url && WellFormed(p) && HeadOf(url, p.head)
  {
    var comp := FindFirstOf(url, "/?#", Authority(url));
    assert url[comp..][0] == url[comp];
    assert url == url[..comp] + url[comp..];
    RestIsWellFormed(url[..comp], url[comp..]);
    hide Authority, CutRest, Rest, WellFormed;
  }

  lemma RestIsWellFormed(head: Bytes, rest: Bytes)
    requires rest != [] && rest[0] in "/?#"
    ensures var p := CutRest(head, rest); p.head == head && Rest(p) == rest && WellFormed(p)
  {
    var p := CutRest(head, rest);
    RestIsCut(head, rest, p);
    GlueHas(p);
    hide CutRest, Glue;
  }

  lemma GlueHas(p: Parts)
    ensures '#' !in Glue(p.path, '?', p.query) <==> '#' !in p.path && (p.query.Some? ==> '#' !in p.query.value)
  {
    var g := Glue(p.path, '?', p.query);
    assert p.query.Some? ==> g[|p.path| + 1..] == p.query.value;
    assert g[..|p.path|] == p.path;
  }

  lemma JoinSplits(url: Bytes, p: Parts)
    requires Join(p) == url && WellFormed(p) && HeadOf(url, p.head)
    ensures Split(url) == Some(p)
  {
    var comp := |p.head|;
    assert url[..comp] == p.head && url[comp..] == Rest(p);
    assert url[comp] == Rest(p)[0];
    FirstIs(url, "/?#", Authority(url), comp);
    GlueHas(p);
    RestIsCut(p.head, Rest(p), p);
    hide Authority, CutRest, Rest;
  }

  // --- the loop and the indices of the source ---

  method AppendUrlComponent(out: Bytes, url: Bytes, begin: nat, end: nat, inQuery: bool) returns (r: Bytes)
    requires begin <= end <= |url|
    ensures r == out + Encode(url[begin..end], inQuery)
  {
    r := out;
    var i := begin;
    hide Encode, FindFirstOf;
    NothingToEncode(url, end, inQuery);
    while i < end
      invariant begin <= i <= end
      invariant out + Encode(url[begin..end], inQuery) == r + Encode(url[i..end], inQuery)
    {
      var c := url[i];
      ghost var before, at := r, i;
      EncodeStep(url, i, end, inQuery);
      if c == '%' {
        if i + 2 < end && IsHexDigit(url[i + 1]) && IsHexDigit(url[i + 2]) {
          r := r + url[i..i + 3];
          i := i + 2;
        } else {
          r := r + "%25";
        }
      } else if IsUrlComponentCharLegal(c, inQuery) {
        r := r + [c];
      } else {
        r := r + ['%'];
        r := r + [HEX[c as int / 16]];
        r := r + [HEX[c as int % 16]];
      }
      i := i + 1;
      assert r == before + Chunk(url, at, end, inQuery);
      Associates(before, Chunk(url, at, end, inQuery), Encode(url[i..end], inQuery));
    }
  }

  lemma NothingToEncode(url: Bytes, end: nat, inQuery: bool)
    requires end <= |url|
    ensures Encode(url[end..end], inQuery) == []
  {}

  predicate EscapeAt(url: Bytes, i: nat, end: nat)
    requires i < end <= |url|
  {
    url[i] == '%' && i + 2 < end && IsHexDigit(url[i + 1]) && IsHexDigit(url[i + 2])
  }

  function Chunk(url: Bytes, i: nat, end: nat, inQuery: bool): Bytes
    requires i < end <= |url|
  {
    if EscapeAt(url, i, end) then url[i..i + 3] else Token(url[i], inQuery)
  }

  // One turn of the loop, seen by `Encode`.
  lemma EncodeStep(url: Bytes, i: nat, end: nat, inQuery: bool)
    requires i < end <= |url|
    ensures Encode(url[i..end], inQuery) ==
              Chunk(url, i, end, inQuery) + Encode(url[if EscapeAt(url, i, end) then i + 3 else i + 1..end], inQuery)
  {
    var left := url[i..end];
    assert left[1..] == url[i + 1..end];
    if i + 2 < end { assert left[..3] == url[i..i + 3] && left[3..] == url[i + 3..end]; }
  }

  lemma Associates<T>(a: seq<T>, b: seq<T>, c: seq<T>)
    ensures (a + b) + c == a + (b + c)
  {}

  method NormalizeUrl(url: Bytes) returns (out: Bytes)
    ensures out == Normalize(url)
  {
    hide CutRest;
    var auth := FindScheme(url, 0);
    auth := if auth == |url| then 0 else auth + 3;
    var comp := FindFirstOf(url, "/?#", auth);
    if comp == |url| { return url; }
    var frag := FindFirstOf(url, ['#'], comp);
    var end := frag;
    var qmark := FindFirstOf(url, ['?'], comp);
    IndicesCut(url, comp, frag, qmark);
    if qmark > end { qmark := |url|; }
    out := Rewrite(url, comp, qmark, end, CutRest(url[..comp], url[comp..]));
  }

  // The second half of the function: the output, part by part.
  method Rewrite(url: Bytes, comp: nat, qmark: nat, end: nat, ghost p: Parts) returns (out: Bytes)
    requires comp <= end <= |url| && (qmark == |url| || comp <= qmark < end) && (end < |url| ==> url[end] == '#')
    requires p == Parts(url[..comp], url[comp..if qmark == |url| then end else qmark],
                        if qmark == |url| then None else Some(url[qmark + 1..end]),
                        if end < |url| then Some(url[end + 1..]) else None)
    ensures out == Join(Encoded(p))
  {
    hide Encode;
    ghost var e := Encoded(p);
    out := AppendUrlComponent(url[..comp], url, comp, if qmark == |url| then end else qmark, false);
    if qmark != |url| {
      out := out + ['?'];
      out := AppendUrlComponent(out, url, qmark + 1, end, true);
      Associates(e.head + e.path, ['?'], e.query.value);
      Associates(e.head, e.path, ['?'] + e.query.value);
    }
    assert out == e.head + Glue(e.path, '?', e.query);
    if end != |url| {
      out := out + url[end..];
      assert url[end..] == ['#'] + p.fragment.value;
      Associates(e.head, Glue(e.path, '?', e.query), url[end..]);
    }
  }

  lemma IndicesCut(url: Bytes, comp: nat, frag: nat, qmark: nat)
    requires comp <= |url| && frag == FindFirstOf(url, ['#'], comp) && qmark == FindFirstOf(url, ['?'], comp)
    ensures CutRest(url[..comp], url[comp..]) ==
              Parts(url[..comp], url[comp..if qmark < frag then qmark else frag],
                    if qmark < frag then Some(url[qmark + 1..frag]) else None,
                    if frag < |url| then Some(url[frag + 1..]) else None)
    ensures qmark == frag ==> frag == |url|
  {
    hide CutAt, Authority;
    CutAtIndex(url, '#', comp, frag);
    if qmark < frag {
      CutAtIndex(url[..frag], '?', comp, qmark);
      assert url[..frag][qmark + 1..] == url[qmark + 1..frag];
    } else {
      CutAtIndex(url[..frag], '?', comp, frag);
    }
    assert url[..frag][comp..] == url[comp..frag];
    assert qmark >= frag ==> url[..frag][comp..frag] == url[comp..frag];
    assert qmark < frag ==> url[..frag][comp..qmark] == url[comp..qmark];
  }

  // --- encoding never makes or breaks a "://" ---

  // How much of "://" has just been read; 3 once it has been read anywhere.
  function Next(st: nat, c: Byte): nat {
    if st == 3 then 3 else if c == ':' then 1 else if c == '/' && (st == 1 || st == 2) then st + 1 else 0
  }

  function Scan(st: nat, s: Bytes): nat
    decreases s
  {
    if s == [] then st else Scan(Next(st, s[0]), s[1..])
  }

  lemma {:induction false} ScanAppends(st: nat, s: Bytes, t: Bytes)
    ensures Scan(st, s + t) == Scan(Scan(st, s), t)
    decreases s
  {
    if s == [] {
      assert s + t == t;
    } else {
      assert (s + t)[1..] == s[1..] + t;
      ScanAppends(Next(st, s[0]), s[1..], t);
    }
  }

  lemma ScanToken(st: nat, c: Byte, inQuery: bool)
    ensures Scan(st, Token(c, inQuery)) == Next(st, c)
  {
    var t := Token(c, inQuery);
    if |t| == 3 {
      HexDigits(c as int / 16);
      HexDigits(c as int % 16);
      ScanEscape(st, t);
    } else {
      assert t[1..] == [];
    }
  }

  lemma ScanEscape(st: nat, s: Bytes)
    requires IsEscape(s) && |s| == 3
    ensures Scan(st, s) == if st == 3 then 3 else 0
  {
    var st1 := Next(Next(st, s[0]), s[1]);
    assert s[1..][1..] == [s[2]] && [s[2]][1..] == [];
    assert Scan(st1, [s[2]]) == Next(st1, s[2]);
    assert Scan(st, s) == Scan(Next(st, s[0]), s[1..]) == Scan(st1, s[1..][1..]);
  }

  lemma {:induction false} EncodeScans(st: nat, s: Bytes, inQuery: bool)
    ensures Scan(st, Encode(s, inQuery)) == Scan(st, s)
    decreases s
  {
    if s == [] {
    } else if IsEscape(s) {
      ScanAppends(st, s[..3], Encode(s[3..], inQuery));
      ScanAppends(st, s[..3], s[3..]);
      assert s == s[..3] + s[3..];
      EncodeScans(Scan(st, s[..3]), s[3..], inQuery);
    } else {
      ScanAppends(st, Token(s[0], inQuery), Encode(s[1..], inQuery));
      ScanToken(st, s[0], inQuery);
      EncodeScans(Next(st, s[0]), s[1..], inQuery);
    }
  }

  ghost predicate Mentions(s: Bytes) {
    exists n: nat :: SchemeEndsAt(s, n)
  }

  lemma {:induction false} ScanFinds(s: Bytes)
    ensures (Scan(0, s) == 3) <==> Mentions(s)
    ensures Scan(0, s) <= 3
    ensures Scan(0, s) == 1 ==> |s| >= 1 && s[|s| - 1] == ':'
    ensures Scan(0, s) == 2 ==> |s| >= 2 && s[|s| - 1] == '/' && s[|s| - 2] == ':'
    ensures |s| >= 1 && s[|s| - 1] == ':' && !Mentions(s) ==> Scan(0, s) == 1
    ensures |s| >= 2 && s[|s| - 1] == '/' && s[|s| - 2] == ':' && !Mentions(s) ==> Scan(0, s) == 2
    decreases |s|
  {
    if |s| > 0 {
      var m := |s| - 1;
      var t := s[..m];
      assert s == t + [s[m]];
      ScanAppends(0, t, [s[m]]);
      assert [s[m]][1..] == [];
      assert Scan(0, s) == Next(Scan(0, t), s[m]);
      ScanFinds(t);
      if Mentions(t) {
        var n: nat :| SchemeEndsAt(t, n);
        assert SchemeEndsAt(s, n);
      } else if Scan(0, s) == 3 {
        assert SchemeEndsAt(s, m - 2);
      } else if Mentions(s) {
        var n: nat :| SchemeEndsAt(s, n);
        if n + 3 < |s| { assert SchemeEndsAt(t, n); }
      }
    }
  }

  lemma FindMentions(s: Bytes)
    ensures FindScheme(s, 0) < |s| <==> Mentions(s)
  {
    var n := FindScheme(s, 0);
    if n < |s| { assert SchemeEndsAt(s, n); }
  }

  lemma GlueScans(st: nat, a: Bytes, mark: Byte, b: Bytes)
    ensures Scan(st, Glue(a, mark, Some(b))) == Scan(Next(Scan(st, a), mark), b)
  {
    ScanAppends(st, a, [mark] + b);
    assert ([mark] + b)[1..] == b;
  }

  lemma EncodedScans(p: Parts)
    ensures Scan(0, Join(Encoded(p))) == Scan(0, Join(p))
  {
    var e := Encoded(p);
    var st := Scan(0, p.head);
    ScanAppends(0, p.head, Rest(p));
    ScanAppends(0, p.head, Rest(e));
    EncodeScans(st, p.path, false);
    if p.query.Some? {
      GlueScans(st, p.path, '?', p.query.value);
      GlueScans(st, e.path, '?', e.query.value);
      EncodeScans(Next(Scan(st, p.path), '?'), p.query.value, true);
    }
    var a, b := Glue(p.path, '?', p.query), Glue(e.path, '?', e.query);
    assert Scan(st, a) == Scan(st, b);
    if p.fragment.Some? {
      GlueScans(st, a, '#', p.fragment.value);
      GlueScans(st, b, '#', p.fragment.value);
    }
  }

  // --- the rewritten URL is cut at the same places ---

  lemma TokenAvoids(c: Byte, inQuery: bool)
    ensures '#' !in Token(c, inQuery) && (!inQuery ==> '?' !in Token(c, inQuery))
    ensures |Token(c, inQuery)| > 0 && (c == '/' ==> Token(c, inQuery) == ['/'])
  {
    if c != '%' && !IsUrlComponentCharLegal(c, inQuery) {
      HexDigits(c as int / 16);
      HexDigits(c as int % 16);
    }
  }

  lemma {:induction false} EncodedAvoids(s: Bytes, inQuery: bool)
    ensures '#' !in Encode(s, inQuery) && (!inQuery ==> '?' !in Encode(s, inQuery))
    ensures Encode(s, inQuery) == [] <==> s == []
    ensures s != [] && s[0] == '/' ==> Encode(s, inQuery)[0] == '/'
  {
    if s == [] {
    } else if IsEscape(s) {
      EncodedAvoids(s[3..], inQuery);
      assert s[..3] == ['%', s[1], s[2]];
    } else {
      EncodedAvoids(s[1..], inQuery);
      TokenAvoids(s[0], inQuery);
    }
  }

  lemma SameAuthority(url: Bytes, p: Parts)
    requires Split(url) == Some(p)
    ensures Authority(Join(Encoded(p))) == Authority(url)
  {
    SplitJoins(url, p);
    var out := Join(Encoded(p));
    var k := FindScheme(url, 0);
    if k < |url| {
      assert k + 3 <= |p.head|;
      assert forall i | 0 <= i < |p.head| :: out[i] == p.head[i] == url[i];
      assert SchemeEndsAt(out, k);
      assert forall i | 0 <= i < k :: SchemeEndsAt(out, i) ==> SchemeEndsAt(url, i);
    } else {
      FindMentions(url);
      ScanFinds(url);
      EncodedScans(p);
      ScanFinds(out);
      FindMentions(out);
    }
  }

  lemma EncodedIsWellFormed(p: Parts)
    requires WellFormed(p)
    ensures WellFormed(Encoded(p))
  {
    EncodedAvoids(p.path, false);
    if p.query.Some? { EncodedAvoids(p.query.value, true); }
    hide Encode;
  }

  lemma SameHead(url: Bytes, out: Bytes, head: Bytes, rest: Bytes, rest': Bytes)
    requires url == head + rest && out == head + rest' && Authority(out) == Authority(url) && HeadOf(url, head)
    ensures HeadOf(out, head)
  {
    hide Authority;
    assert forall i | 0 <= i < |head| :: out[i] == url[i];
  }

  /**
   The output is cut as the URL was: the parts that the source does not encode stay, and path
   and query are replaced by their encodings.
   */
  lemma StructureIsKept(url: Bytes)
    ensures Split(url).None? ==> Normalize(url) == url
    ensures Split(url).Some? ==> Split(Normalize(url)) == Some(Encoded(Split(url).value))
  {
    if Split(url).Some? {
      var p := Split(url).value;
      SplitJoins(url, p);
      SameAuthority(url, p);
      EncodedIsWellFormed(p);
      SameHead(url, Join(Encoded(p)), p.head, Rest(p), Rest(Encoded(p)));
      JoinSplits(Normalize(url), Encoded(p));
      hide Authority, Join, Encoded, WellFormed, HeadOf;
    }
  }

  function DecodedPath(url: Bytes): Option<Bytes> {
    var p := Split(url);
    if p.None? then None else Some(Decode(p.value.path))
  }

  function DecodedQuery(url: Bytes): Option<Bytes> {
    var p := Split(url);
    if p.None? || p.value.query.None? then None else Some(Decode(p.value.query.value))
  }

  /** A normalised URL means what the URL meant. */
  lemma MeaningIsKept(url: Bytes)
    ensures DecodedPath(Normalize(url)) == DecodedPath(url)
    ensures DecodedQuery(Normalize(url)) == DecodedQuery(url)
  {
    StructureIsKept(url);
    if Split(url).Some? {
      var p := Split(url).value;
      EncodeKeepsMeaning(p.path, false);
      if p.query.Some? { EncodeKeepsMeaning(p.query.value, true); }
    }
  }

  // --- the grammar ---

  lemma {:induction false} FirstSegment(s: Bytes) returns (n: nat)
    requires IsPchars(s, "/")
    ensures n <= |s| && IsPchars(s[..n], "") && IsPchars(s[n..], "/") && (n == |s| || s[n] == '/')
  {
    if s == [] || s[0] == '/' {
      n := 0;
    } else if IsEscape(s) && IsPchars(s[3..], "/") {
      var m := FirstSegment(s[3..]);
      n := m + 3;
      assert s[..n][3..] == s[3..][..m] && s[n..] == s[3..][m..] && IsEscape(s[..n]);
    } else {
      var m := FirstSegment(s[1..]);
      n := m + 1;
      assert s[..n][1..] == s[1..][..m] && s[n..] == s[1..][m..];
    }
  }

  lemma {:induction false} PcharsMakePath(s: Bytes)
    requires IsPchars(s, "/") && (s == [] || s[0] == '/')
    ensures IsPathAbempty(s)
  {
    if s != [] {
      var m := FirstSegment(s[1..]);
      assert s[1..m + 1] == s[1..][..m] && s[m + 1..] == s[1..][m..];
      PcharsMakePath(s[m + 1..]);
    }
  }

  lemma {:induction false} SegmentsAppend(s: Bytes, t: Bytes)
    requires IsPchars(s, "") && IsPchars(t, "/")
    ensures IsPchars(s + t, "/")
  {
    if s == [] {
      assert s + t == t;
    } else if IsEscape(s) && IsPchars(s[3..], "") {
      SegmentsAppend(s[3..], t);
      assert (s + t)[3..] == s[3..] + t && IsEscape(s + t);
    } else {
      SegmentsAppend(s[1..], t);
      assert (s + t)[1..] == s[1..] + t;
    }
  }

  lemma {:induction false} PathIsPchars(s: Bytes)
    requires IsPathAbempty(s)
    ensures IsPchars(s, "/") && (s == [] || s[0] == '/')
  {
    if s != [] {
      var n :| 1 <= n <= |s| && IsPchars(s[1..n], "") && IsPathAbempty(s[n..]);
      PathIsPchars(s[n..]);
      SegmentsAppend(s[1..n], s[n..]);
      assert s[1..] == s[1..n] + s[n..];
    }
  }

  predicate InGrammar(p: Parts) {
    IsPathAbempty(p.path) && (p.query.Some? ==> IsQuery(p.query.value))
  }

  /** The emitted path and query match sections 3.3 and 3.4 of RFC 3986. */
  lemma OutputIsLegal(url: Bytes)
    requires Split(url).Some?
    ensures Split(Normalize(url)).Some? && InGrammar(Split(Normalize(url)).value)
  {
    StructureIsKept(url);
    var p := Split(url).value;
    SplitJoins(url, p);
    EncodeIsPchars(p.path, false);
    EncodedAvoids(p.path, false);
    PcharsMakePath(Encode(p.path, false));
    if p.query.Some? { EncodeIsPchars(p.query.value, true); }
  }

  /** Exactly the URLs whose path and query are legal already are left alone. */
  lemma LeavesLegalAlone(url: Bytes)
    ensures Normalize(url) == url <==> (Split(url).None? || InGrammar(Split(url).value))
  {
    StructureIsKept(url);
    if Split(url).Some? {
      var p := Split(url).value;
      SplitJoins(url, p);
      EncodeFixes(p.path, false);
      if p.query.Some? { EncodeFixes(p.query.value, true); }
      if IsPchars(p.path, "/") { PcharsMakePath(p.path); }
      if IsPathAbempty(p.path) { PathIsPchars(p.path); }
    }
  }

  /** Nothing is encoded twice. */
  lemma NormalizeIsIdempotent(url: Bytes)
    ensures Normalize(Normalize(url)) == Normalize(url)
  {
    StructureIsKept(url);
    if Split(url).Some? { OutputIsLegal(url); }
    LeavesLegalAlone(Normalize(url));
  }

  lemma OutputAtMostTriples(url: Bytes)
    ensures |url| <= |Normalize(url)| <= 3 * |url|
  {
    if Split(url).Some? {
      var p := Split(url).value;
      SplitJoins(url, p);
      EncodeAtMostTriples(p.path, false);
      if p.query.Some? { EncodeAtMostTriples(p.query.value, true); }
    }
  }

  // --- which URLs are cut where RFC 3986 cuts them ---

  predicate HasNone(s: Bytes, chars: Bytes) {
    forall i :: 0 <= i < |s| ==> s[i] !in chars
  }

  /**
   For every absolute URL with an authority, the parts are those of RFC 3986: the path and
   the query are encoded whole and the rest is untouched, whatever the query and the
   fragment contain.
   */
  lemma AbsoluteUrlIsCutRight(scheme: Bytes, authority: Bytes, p: Parts)
    requires HasNone(scheme, "/?#") && HasNone(authority, "/?#")
    requires WellFormed(p) && p.head == scheme + "://" + authority
    ensures Normalize(Join(p)) == Join(Encoded(p))
  {
    var url := Join(p);
    var k := |scheme|;
    assert url[..|p.head|] == p.head;
    assert forall i | 0 <= i < |p.head| :: url[i] == p.head[i];
    assert SchemeEndsAt(url, k);
    forall i | 0 <= i < k ensures !SchemeEndsAt(url, i) {
      assert url[i + 1] == if i + 1 < k then scheme[i + 1] else ':';
    }
    assert FindScheme(url, 0) == k;
    assert p.head[k + 3..] == authority;
    JoinSplits(url, p);
  }

  // Where the authority starts when only a leading scheme counts: there the first
  // delimiter of the URL is the first slash of its "://".
  function OwnAuthority(url: Bytes): nat {
    var d := FindFirstOf(url, "/?#", 0);
    if d >= 1 && SchemeEndsAt(url, d - 1) then d + 2 else 0
  }

  predicate SchemeLeads(url: Bytes) {
    var k := FindScheme(url, 0);
    k == |url| || forall i :: 0 <= i < k ==> url[i] !in "/?#"
  }

  /** The source looks for "://" anywhere; that is right exactly when no delimiter precedes it. */
  lemma AuthorityIsOwn(url: Bytes)
    ensures Authority(url) == OwnAuthority(url) <==> SchemeLeads(url)
  {
    var k := FindScheme(url, 0);
    if k < |url| && SchemeLeads(url) { FirstIs(url, "/?#", 0, k + 1); }
  }

  /**
   Without a scheme of its own a URL can be cut elsewhere: a "://" inside the query counts,
   and what stands before it, here a space in the path, is passed through.
   */
  lemma SchemeInQueryHidesThePath()
    ensures Normalize("/ ?://") == "/ ?://" && !IsPchars("/ ", "/")
  {
    var url: Bytes := "/ ?://";
    assert SchemeEndsAt(url, 3);
    assert FindScheme(url, 0) == 3;
    var path: Bytes := "/ ";
    assert path[1..] == " ";
  }

  // --- the fragment of RFC 3986 ---

  // Everything after the first '#'.
  function Fragment(url: Bytes): Option<Bytes> {
    CutAt(url, '#').1
  }

  // The "://" that the source takes for the scheme's, if there is one, is not in the fragment.
  predicate SchemePrecedesFragment(url: Bytes) {
    Authority(url) <= FindFirstOf(url, ['#'], 0)
  }

  /**
   The fragment goes through untouched exactly when no '#' precedes the first "://", or there
   is nothing to encode.
   */
  lemma FragmentIsKept(url: Bytes)
    ensures Fragment(Normalize(url)) == Fragment(url) <==>
              SchemePrecedesFragment(url) || Split(url).None? || InGrammar(Split(url).value)
  {
    LeavesLegalAlone(url);
    StructureIsKept(url);
    if Split(url).Some? {
      var p := Split(url).value;
      SplitJoins(url, p);
      if SchemePrecedesFragment(url) {
        FragmentOfParts(url, p);
        SameAuthority(url, p);
        EncodedFragment(url, p);
      } else {
        FragmentInHead(url, Normalize(url), p.head);
      }
    }
    hide Normalize, Split, Fragment, InGrammar, SchemePrecedesFragment;
  }

  // The parts' fragment is the URL's when the head has no '#'.
  lemma FragmentOfParts(url: Bytes, p: Parts)
    requires Join(p) == url && WellFormed(p) && HeadOf(url, p.head) && SchemePrecedesFragment(url)
    ensures '#' !in p.head && Fragment(url) == p.fragment
  {
    var n := FindFirstOf(url, ['#'], 0);
    assert forall i | 0 <= i < |p.head| :: p.head[i] == url[i];
    assert forall i | 0 <= i < n :: url[i] !in ['#'];
    GlueHas(p);
    FragmentOfJoin(p);
  }

  lemma FragmentOfJoin(p: Parts)
    requires '#' !in p.head && '#' !in Glue(p.path, '?', p.query)
    ensures Fragment(Join(p)) == p.fragment
  {
    var body := Glue(p.path, '?', p.query);
    if p.fragment.Some? { Associates(p.head, body, ['#'] + p.fragment.value); }
    CutExactly(Join(p), '#', p.head + body, p.fragment);
  }

  lemma EncodedFragment(url: Bytes, p: Parts)
    requires WellFormed(p) && '#' !in p.head && Split(url) == Some(p)
    ensures Fragment(Normalize(url)) == p.fragment
  {
    EncodedIsWellFormed(p);
    GlueHas(Encoded(p));
    FragmentOfJoin(Encoded(p));
    hide Fragment, Join, Glue, Encode;
  }

  // With a '#' in the part passed through, the whole rest of the URL is the fragment.
  lemma FragmentInHead(url: Bytes, out: Bytes, head: Bytes)
    requires FindFirstOf(url, ['#'], 0) < |head| && head <= url && head <= out
    ensures Fragment(out) == Fragment(url) <==> out == url
  {
    var n := FindFirstOf(url, ['#'], 0);
    FirstIs(out, ['#'], 0, n);
    assert url == url[..n + 1] + url[n + 1..];
    assert out == out[..n + 1] + out[n + 1..];
    assert url[..n + 1] == head[..n + 1] == out[..n + 1];
  }

  /** A "://" inside the fragment lets its tail be encoded. */
  lemma SchemeInFragmentRewritesIt()
    ensures var head := "/p#x://h"; Normalize(head + "/ y") == head + "/%20y"
  {
    var head: Bytes := "/p#x://h";
    var p := Parts(head, "/ y", None, None);
    HereIsTheCut(p);
    EncodedSpace();
    NormalizedParts(head + "/ y", p);
    TogetherAgain(head, "/%20y");
    hide Split, Encode, Normalize, Join;
  }

  lemma TogetherAgain(head: Bytes, path: Bytes)
    ensures Join(Parts(head, path, None, None)) == head + path
  {}

  lemma NormalizedParts(url: Bytes, p: Parts)
    requires Split(url) == Some(p)
    ensures Normalize(url) == Join(Encoded(p))
  {}

  lemma HereIsTheCut(p: Parts)
    requires p == Parts("/p#x://h", "/ y", None, None)
    ensures Split(p.head + p.path) == Some(p)
  {
    var url := p.head + p.path;
    assert SchemeEndsAt(url, 4);
    assert FindScheme(url, 0) == 4;
    assert Join(p) == url;
    JoinSplits(url, p);
    hide Split;
  }

  lemma EncodedSpace()
    ensures Encode("/ y", false) == "/%20y"
  {
    var s: Bytes := "/ y";
    assert s[1..] == " y" && " y"[1..] == "y" && "y"[1..] == "";
    assert Encode("y", false) == "y";
    assert Encode(" y", false) == "%20" + "y";
  }
}
