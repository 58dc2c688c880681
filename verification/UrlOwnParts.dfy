/**
 The path and the query of a URL where only a leading scheme counts, and when the ones that
 are emitted are in the grammar.
 */
module UrlOwnParts {
  import opened ByteStrings
  import opened Wrappers
  import opened UrlSyntax
  import opened UrlNormalize

  // The cut of RFC 3986, as opposed to that of the source.
  function OwnSplit(url: Bytes): Option<Parts> {
    var comp := FindFirstOf(url, "/?#", OwnAuthority(url));
    if comp == |url| then None else Some(CutRest(url[..comp], url[comp..]))
  }

  predicate OwnIsLegal(url: Bytes) {
    OwnSplit(url).Some? ==> InGrammar(OwnSplit(url).value)
  }

  // What the source takes for scheme and authority, and does not look at.
  function PassedThrough(url: Bytes): Bytes {
    if Split(url).Some? then Split(url).value.head else url
  }

  // --- the grammar across a seam ---

  lemma {:induction false} PcharsAppend(a: Bytes, g: Bytes, inQuery: bool)
    requires IsPchars(g, More(inQuery)) && (g == [] || g[0] in "/?")
    ensures IsPchars(a + g, More(inQuery)) <==> IsPchars(a, More(inQuery))
  {
    if a == [] || g == [] {
      assert a + g == if a == [] then g else a;
    } else if IsEscape(a) {
      assert (a + g)[3..] == a[3..] + g && IsEscape(a + g);
      LegalIsPchar('%', inQuery);
      PcharsAppend(a[3..], g, inQuery);
    } else {
      assert !IsHexDigit(g[0]);
      assert (a + g)[1..] == a[1..] + g && !IsEscape(a + g);
      PcharsAppend(a[1..], g, inQuery);
    }
  }

  lemma {:induction false} PathCharsAreQueryChars(s: Bytes)
    requires IsPchars(s, "/")
    ensures IsPchars(s, "/?")
  {
    if s == [] {
    } else if IsEscape(s) && IsPchars(s[3..], "/") {
      PathCharsAreQueryChars(s[3..]);
    } else {
      PathCharsAreQueryChars(s[1..]);
    }
  }

  lemma PathIs(s: Bytes)
    ensures IsPathAbempty(s) <==> IsPchars(s, "/") && (s == [] || s[0] == '/')
  {
    if IsPathAbempty(s) { PathIsPchars(s); }
    if IsPchars(s, "/") && (s == [] || s[0] == '/') { PcharsMakePath(s); }
  }

  lemma TailIsQuery(q: Parts)
    requires InGrammar(q)
    ensures var g := Glue(q.path, '?', q.query); IsQuery(g) && (g == [] || g[0] in "/?")
  {
    PathIs(q.path);
    PathCharsAreQueryChars(q.path);
    hide IsPathAbempty;
    if q.query.Some? {
      var g := ['?'] + q.query.value;
      assert g[1..] == q.query.value;
      PcharsAppend(q.path, g, true);
    }
  }

  // --- parts that begin in one piece and go on in another ---

  function Cat(a: Parts, q: Parts): Parts {
    if a.fragment.Some? then
      a.(fragment := Some(a.fragment.value + Rest(q)))
    else if a.query.Some? then
      a.(query := Some(a.query.value + Glue(q.path, '?', q.query)), fragment := q.fragment)
    else
      a.(path := a.path + q.path, query := q.query, fragment := q.fragment)
  }

  lemma GlueAppends(a: Bytes, b: Bytes, mark: Byte, c: Option<Bytes>)
    ensures Glue(a + b, mark, c) == a + Glue(b, mark, c)
  {
    if c.Some? { Associates(a, b, [mark] + c.value); }
  }

  lemma RestOfCat(a: Parts, q: Parts)
    ensures Rest(Cat(a, q)) == Rest(a) + Rest(q)
  {
    var body := Glue(a.path, '?', a.query);
    if a.fragment.Some? {
      assert Rest(Cat(a, q)) == body + (['#'] + (a.fragment.value + Rest(q)));
      assert Rest(a) + Rest(q) == body + (['#'] + a.fragment.value) + Rest(q);
    } else if a.query.Some? {
      var tail := Glue(q.path, '?', q.query);
      assert a.path + (['?'] + (a.query.value + tail)) == body + tail;
      GlueAppends(body, tail, '#', q.fragment);
    } else {
      GlueAppends(a.path, q.path, '?', q.query);
      GlueAppends(a.path, Glue(q.path, '?', q.query), '#', q.fragment);
    }
  }

  lemma CatIsCut(x: Bytes, h: Bytes, q: Parts)
    requires WellFormed(q)
    ensures CutRest(x, h + Rest(q)) == Cat(CutRest(x, h), q)
  {
    var a := CutRest(x, h);
    var c := Cat(a, q);
    RestIsCut(x, h, a);
    RestOfCat(a, q);
    GlueHas(a);
    GlueHas(c);
    GlueHas(q);
    RestIsCut(x, h + Rest(q), c);
    hide CutRest, Rest, Glue;
  }

  lemma CatIsLegal(a: Parts, q: Parts)
    requires InGrammar(q) && (a.path == [] || a.path[0] == '/')
    ensures InGrammar(Cat(a, q)) <==> InGrammar(a)
  {
    hide IsPathAbempty, IsPchars;
    if a.fragment.None? {
      if a.query.Some? {
        TailIsQuery(q);
        PcharsAppend(a.query.value, Glue(q.path, '?', q.query), true);
      } else {
        PathIs(a.path);
        PathIs(q.path);
        PathIs(a.path + q.path);
        PcharsAppend(a.path, q.path, false);
      }
    }
  }

  // --- the two cuts ---

  lemma NoDelimiters(s: Bytes)
    requires HasNone(s, "/?#")
    ensures OwnSplit(s).None?
  {
    FirstIs(s, "/?#", 0, |s|);
  }

  // With a scheme that leads, or none, the cuts agree.
  lemma LeadingIsOwn(url: Bytes)
    requires SchemeLeads(url)
    ensures OwnSplit(url) == Split(url)
  {
    AuthorityIsOwn(url);
  }

  lemma HeadIsFirst(url: Bytes, p: Parts)
    requires Split(url) == Some(p)
    ensures p.head <= url && HeadOf(url, p.head)
  {
    SplitJoins(url, p);
    hide Split, Rest, WellFormed, HeadOf;
  }

  lemma LeadingHead(url: Bytes, p: Parts)
    requires SchemeLeads(url) && Split(url) == Some(p)
    ensures OwnSplit(p.head).None?
  {
    HeadIsFirst(url, p);
    var k, head := FindScheme(url, 0), p.head;
    hide Split, CutRest;
    assert forall i | 0 <= i < |head| :: head[i] == url[i];
    if k == |url| {
      NoDelimiters(head);
    } else {
      assert forall i | k + 3 <= i < |head| :: head[i] !in "/?#";
      assert forall i | 0 <= i < k :: head[i] !in "/?#";
      SchemeOnly(head, k);
    }
  }

  lemma SchemeOnly(head: Bytes, k: nat)
    requires SchemeEndsAt(head, k)
    requires forall i | 0 <= i < |head| && !(k <= i < k + 3) :: head[i] !in "/?#"
    ensures OwnSplit(head).None?
  {
    FirstIs(head, "/?#", 0, k + 1);
    FirstIs(head, "/?#", k + 3, |head|);
  }

  lemma StillLeads(url: Bytes, p: Parts)
    requires SchemeLeads(url) && Split(url) == Some(p)
    ensures SchemeLeads(Normalize(url))
  {
    SplitJoins(url, p);
    SameAuthority(url, p);
    var out := Normalize(url);
    assert forall i | 0 <= i < |p.head| :: out[i] == p.head[i] == url[i];
  }

  // The first delimiter of `head`, which belongs to no scheme.
  predicate BeginsAt(head: Bytes, d: nat) {
    && d + 2 <= |head| && head[d] in "/?#" && (forall i :: 0 <= i < d ==> head[i] !in "/?#")
    && (d >= 1 ==> !SchemeEndsAt(head, d - 1))
  }

  // A delimiter before the first "://": the path begins at that delimiter.
  lemma HiddenBegins(url: Bytes, p: Parts) returns (d: nat)
    requires !SchemeLeads(url) && Split(url) == Some(p)
    ensures BeginsAt(p.head, d)
  {
    d := FindFirstOf(url, "/?#", 0);
    HeadIsFirst(url, p);
    hide Split;
    var k, head := FindScheme(url, 0), p.head;
    assert k < |url| && d < k && k + 3 <= |head|;
    assert forall i | 0 <= i < |head| :: head[i] == url[i];
    assert d >= 1 ==> !SchemeEndsAt(url, d - 1);
  }

  lemma BeginsIsCut(head: Bytes, tail: Bytes, d: nat)
    requires BeginsAt(head, d)
    ensures OwnSplit(head + tail) == Some(CutRest(head[..d], head[d..] + tail))
  {
    var out := head + tail;
    assert forall i | 0 <= i < |head| :: out[i] == head[i];
    FirstIs(out, "/?#", 0, d);
    assert OwnAuthority(out) == 0;
    assert out[..d] == head[..d] && out[d..] == head[d..] + tail;
    hide CutRest;
  }

  lemma BeginsAlone(head: Bytes, d: nat)
    requires BeginsAt(head, d)
    ensures OwnSplit(head) == Some(CutRest(head[..d], head[d..]))
  {
    BeginsIsCut(head, [], d);
    assert head + [] == head && head[d..] + [] == head[d..];
    hide OwnSplit, CutRest;
  }

  lemma HiddenIsLegal(url: Bytes, p: Parts)
    requires !SchemeLeads(url) && Split(url) == Some(p)
    ensures OwnIsLegal(Normalize(url)) <==> OwnIsLegal(p.head)
  {
    var d := HiddenBegins(url, p);
    var q := Encoded(p);
    EncodedIsLegal(url, p);
    BeginsIsCut(p.head, Rest(q), d);
    BeginsAlone(p.head, d);
    StartsAtDelimiter(p.head, d);
    CatIsCut(p.head[..d], p.head[d..], q);
    CatIsLegal(CutRest(p.head[..d], p.head[d..]), q);
    hide Normalize, Split, OwnSplit, CutRest, Cat, InGrammar, WellFormed, Encoded, SchemeLeads, BeginsAt, Rest;
  }

  lemma EncodedIsLegal(url: Bytes, p: Parts)
    requires Split(url) == Some(p)
    ensures Normalize(url) == p.head + Rest(Encoded(p)) && WellFormed(Encoded(p)) && InGrammar(Encoded(p))
  {
    SplitJoins(url, p);
    EncodedIsWellFormed(p);
    OutputIsLegal(url);
    StructureIsKept(url);
    hide Split, Rest, WellFormed, InGrammar;
  }

  lemma StartsAtDelimiter(head: Bytes, d: nat)
    requires BeginsAt(head, d)
    ensures var path := CutRest(head[..d], head[d..]).path; path == [] || path[0] == '/'
  {
    RestIsWellFormed(head[..d], head[d..]);
    var a := CutRest(head[..d], head[d..]);
    if a.path != [] { assert Rest(a)[0] == a.path[0]; }
    hide CutRest;
  }

  /**
   The path and the query that RFC 3986 sees in the output are in the grammar if and only if
   those that it sees in the part passed through are.
   */
  lemma OwnPartsAreLegal(url: Bytes)
    ensures OwnIsLegal(Normalize(url)) <==> OwnIsLegal(PassedThrough(url))
  {
    if Split(url).Some? {
      var p := Split(url).value;
      if SchemeLeads(url) {
        LeadingHead(url, p);
        StillLeads(url, p);
        LeadingIsOwn(Normalize(url));
        OutputIsLegal(url);
      } else {
        HiddenIsLegal(url, p);
      }
    }
    hide Split, OwnSplit, Normalize, InGrammar, SchemeLeads;
  }

  /** With a scheme that leads, or none, nothing is passed through that they could see. */
  lemma LeadingIsLegal(url: Bytes)
    requires SchemeLeads(url)
    ensures OwnIsLegal(Normalize(url))
  {
    if Split(url).Some? {
      LeadingHead(url, Split(url).value);
    } else {
      LeadingIsOwn(url);
    }
    OwnPartsAreLegal(url);
    hide Split, OwnSplit, Normalize, InGrammar, SchemeLeads;
  }
}
