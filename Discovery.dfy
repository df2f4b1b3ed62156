/**
 * The pure part of `render_and_extract`: what happens to the link
 * candidates the browser yields for a page, and the pagination look-ahead.
 */
module Discovery {
  import opened Wrappers
  import opened Strings
  import opened Query
  import opened Urls

  /** The look-ahead adds pages N+1 .. N+5 (`range(1, 6)`). */
  const PageLookahead: nat := 5

  /** What `page.goto` hands back: the status and the `last-modified` header, when present and readable. */
  datatype Response = Response(status: int, lastModified: Option<string>)

  /** How navigation ended: `goto` returned (a response or None), it timed out, or it raised another error. */
  datatype Navigation = Loaded(response: Option<Response>) | TimedOut | Failed

  /**
   * What the browser yields for one page: how navigation ended, the
   * canonical link if there is one, and the raw candidates of the anchor,
   * data-attribute, onclick and inline-script rules, already resolved
   * against the page's URL.
   */
  datatype Page = Page(nav: Navigation, canonical: Option<Url>, candidates: seq<Url>)

  /** `n = normalize_url(h); if n and is_allowed(n)`: the URL a candidate contributes, if any. */
  function Admit(c: Url): Option<Url> {
    match Normalize(c)
    case None => None
    case Some(n) => if IsAllowed(Parsed(n)) then Some(n) else None
  }

  /** The URL an optional result holds, as a set of at most one element. */
  function AsSet(o: Option<Url>): set<Url> {
    match o
    case Some(n) => {n}
    case None => {}
  }

  /** What the candidate loops add to `discovered`. */
  function AdmitAll(cs: seq<Url>): set<Url> {
    Kept(Admit, cs)
  }

  /** The results `f` gives for the entries of `cs`, where it gives one. */
  function Kept(f: Url -> Option<Url>, cs: seq<Url>): set<Url>
    decreases |cs|
  {
    if cs == [] then {} else Kept(f, cs[..|cs| - 1]) + AsSet(f(cs[|cs| - 1]))
  }

  lemma AdmitAllStep(cs: seq<Url>, i: nat)
    requires i < |cs|
    ensures AdmitAll(cs[..i + 1]) == AdmitAll(cs[..i]) + AsSet(Admit(cs[i]))
  {
    assert cs[..i + 1][..i] == cs[..i];
  }

  lemma {:induction false} KeptMembers(f: Url -> Option<Url>, cs: seq<Url>)
    ensures forall n :: n in Kept(f, cs) <==> exists c :: c in cs && f(c) == Some(n)
    decreases |cs|
  {
    if cs != [] {
      var init, last := cs[..|cs| - 1], cs[|cs| - 1];
      assert cs == init + [last];
      KeptMembers(f, init);
      forall n ensures n in Kept(f, cs) <==> exists c :: c in cs && f(c) == Some(n) {
        if n in Kept(f, init) {
          var c :| c in init && f(c) == Some(n);
          assert c in cs;
        }
        if exists c :: c in cs && f(c) == Some(n) {
          var c :| c in cs && f(c) == Some(n);
          if c != last {
            assert c in init;
          }
        }
      }
    }
  }

  /** A URL is added by the candidate loops exactly when some candidate is admitted as it. */
  lemma AdmitAllMembers(cs: seq<Url>)
    ensures forall n :: n in AdmitAll(cs) <==> exists c :: c in cs && Admit(c) == Some(n)
  {
    KeptMembers(Admit, cs);
  }

  /** Every URL the candidate loops add is in scope and is its own normal form. */
  lemma AdmittedAreNormal(cs: seq<Url>)
    ensures forall n :: n in AdmitAll(cs) ==> IsAllowed(Parsed(n)) && Normalize(n) == Some(n)
  {
    AdmitAllMembers(cs);
    forall n | n in AdmitAll(cs) ensures IsAllowed(Parsed(n)) && Normalize(n) == Some(n) {
      var c :| c in cs && Admit(c) == Some(n);
      AdmittedIsNormal(c, n);
    }
  }

  /** The canonical link, normalised but NOT scope-checked (lines 164-169). */
  function CanonicalLink(canonical: Option<Url>): set<Url> {
    match canonical
    case None => {}
    case Some(l) => AsSet(Normalize(l))
  }

  /** Everything the extraction rules contribute before the look-ahead. */
  function Collected(page: Page): set<Url> {
    CanonicalLink(page.canonical) + AdmitAll(page.candidates)
  }

  /** The canonical link and the candidate loops, in the order the source runs them. */
  method CollectCandidates(page: Page) returns (discovered: set<Url>)
    ensures discovered == Collected(page)
  {
    discovered := {};
    if page.canonical.Some? {
      var cn := Normalize(page.canonical.value);
      if cn.Some? {
        discovered := discovered + {cn.value};
      }
    }
    for i := 0 to |page.candidates|
      invariant discovered == CanonicalLink(page.canonical) + AdmitAll(page.candidates[..i])
    {
      var n := Admit(page.candidates[i]);
      if n.Some? {
        discovered := discovered + {n.value};
      }
      AdmitAllStep(page.candidates, i);
    }
    assert page.candidates[..|page.candidates|] == page.candidates;
  }

  /** A canonical link to another host is still collected, unlike any other candidate. */
  lemma CanonicalSkipsScope(page: Page, l: Url)
    requires page.canonical == Some(l) && IsWebScheme(l.scheme)
    ensures Normalize(l).value in Collected(page)
  {
  }

  // ---------- pagination look-ahead ----------

  /** `new_qs["page"]` when `"page" in new_qs and new_qs["page"].isdigit()`, as `int(...)`. */
  function PageNumber(q: seq<Pair>): Option<nat> {
    match Lookup(q, "page")
    case Some(v) => if IsDigits(v) then Some(DigitsValue(v)) else None
    case None => None
  }

  /** The URL rebuilt from `dict(qs)` with `page` set to `str(n)`, every other part as parsed. */
  function WithPage(u: Url, n: nat): Url {
    u.(query := DictSet(DictOf(u.query), "page", Decimal(n)))
  }

  /** The URL rebuilt for one page, if it is admitted. */
  function PageUrl(u: Url, page: nat): Option<Url> {
    Admit(WithPage(u, page))
  }

  /** `PageUrl` for a fixed URL, page by page. */
  function PagesOf(u: Url): nat -> Option<Url> {
    (page: nat) => PageUrl(u, page)
  }

  /** The URLs that pages `base + 1 .. base + m` yield under `f`. */
  function Gather(f: nat -> Option<Url>, base: nat, m: nat): set<Url>
    decreases m
  {
    if m == 0 then {} else Gather(f, base, m - 1) + AsSet(f(base + m))
  }

  lemma GatherStep(f: nat -> Option<Url>, base: nat, m: nat)
    requires m > 0
    ensures Gather(f, base, m) == Gather(f, base, m - 1) + AsSet(f(base + m))
  {
  }

  /** The look-ahead URLs one discovered URL contributes. */
  function PageSuccessors(u: Url): set<Url> {
    match PageNumber(u.query)
    case None => {}
    case Some(base) => Gather(PagesOf(u), base, PageLookahead)
  }

  /** The look-ahead URLs a set of discovered URLs contributes. */
  function Expansion(discovered: set<Url>): set<Url> {
    set u, n | u in discovered && n in PageSuccessors(u) :: n
  }

  lemma ExpansionAdd(done: set<Url>, u: Url)
    ensures Expansion(done + {u}) == Expansion(done) + PageSuccessors(u)
  {
    forall n | n in Expansion(done + {u}) ensures n in Expansion(done) + PageSuccessors(u) {
      var v :| v in done + {u} && n in PageSuccessors(v);
    }
  }

  /** One pass of the look-ahead loop body: the pages after `pl`'s, added to `discovered`. */
  method ExpandOne(pl: Url, discovered: set<Url>) returns (result: set<Url>)
    ensures result == discovered + PageSuccessors(pl)
  {
    result := discovered;
    var newQs := DictOf(pl.query);
    var pageValue := Lookup(newQs, "page");
    LookupDictOf(pl.query, "page");
    if pageValue.Some? && IsDigits(pageValue.value) {
      var baseNum := DigitsValue(pageValue.value);
      ghost var last := "";
      for inc := 1 to PageLookahead + 1
        invariant inc == 1 ==> newQs == DictOf(pl.query)
        invariant inc > 1 ==> newQs == DictSet(DictOf(pl.query), "page", last)
        invariant result == discovered + Gather(PagesOf(pl), baseNum, inc - 1)
      {
        newQs, result := LookaheadPage(pl, baseNum, inc, newQs, last, result, discovered);
        last := Decimal(baseNum + inc);
      }
    }
  }

  /**
   * One pass of the look-ahead loop: `page` is set to `base + inc` in the
   * query dictionary, and the rebuilt URL is added when it is admitted.
   * It is the body of `ExpandOne`'s loop stated against the loop's progress
   * (the ghost `last` and `discovered` are the previous page value and the
   * set before the loop), so its contract is that loop's invariant.
   */
  method LookaheadPage(pl: Url, baseNum: nat, inc: nat, newQs: seq<Pair>, ghost last: string,
                       result: set<Url>, ghost discovered: set<Url>)
    returns (newQs': seq<Pair>, result': set<Url>)
    requires inc >= 1
    requires inc == 1 ==> newQs == DictOf(pl.query)
    requires inc > 1 ==> newQs == DictSet(DictOf(pl.query), "page", last)
    requires result == discovered + Gather(PagesOf(pl), baseNum, inc - 1)
    ensures newQs' == DictSet(DictOf(pl.query), "page", Decimal(baseNum + inc))
    ensures result' == discovered + Gather(PagesOf(pl), baseNum, inc)
  {
    var value := Decimal(baseNum + inc);
    newQs' := DictSet(newQs, "page", value);
    assert newQs' == DictSet(DictOf(pl.query), "page", value) by {
      if inc > 1 {
        DictSetTwice(DictOf(pl.query), "page", last, value);
      }
    }
    var n := Admit(pl.(query := newQs'));
    assert n == PagesOf(pl)(baseNum + inc);
    result' := result;
    if n.Some? {
      result' := result' + {n.value};
    }
    GatherStep(PagesOf(pl), baseNum, inc);
  }

  /**
   * The look-ahead loop over the snapshot `list(discovered)`: URLs it adds
   * are not themselves expanded.
   */
  method ExpandPagination(discovered: set<Url>) returns (result: set<Url>)
    ensures result == discovered + Expansion(discovered)
  {
    result := discovered;
    var pageLinks := discovered;
    ghost var done: set<Url> := {};
    while pageLinks != {}
      invariant pageLinks + done == discovered && pageLinks !! done
      invariant result == discovered + Expansion(done)
      decreases |pageLinks|
    {
      var pl :| pl in pageLinks;
      result := ExpandOne(pl, result);
      ExpansionAdd(done, pl);
      pageLinks := pageLinks - {pl};
      done := done + {pl};
    }
  }

  /** Every URL gathered comes from one of the pages. */
  lemma {:induction false} GatherSound(f: nat -> Option<Url>, base: nat, m: nat, n: Url)
    requires n in Gather(f, base, m)
    ensures exists j :: base < j <= base + m && f(j) == Some(n)
    decreases m
  {
    GatherStep(f, base, m);
    if n in Gather(f, base, m - 1) {
      GatherSound(f, base, m - 1, n);
    } else {
      assert f(base + m) == Some(n);
    }
  }

  /** When every page yields a URL and different pages yield different URLs, `m` pages gather `m` URLs. */
  lemma {:induction false} GatherCount(f: nat -> Option<Url>, base: nat, m: nat)
    requires forall j :: base < j <= base + m ==> f(j).Some?
    requires forall i, j :: base < i <= base + m && base < j <= base + m && f(i) == f(j) ==> i == j
    ensures |Gather(f, base, m)| == m
    decreases m
  {
    if m > 0 {
      GatherCount(f, base, m - 1);
      GatherStep(f, base, m);
      var n := f(base + m).value;
      if n in Gather(f, base, m - 1) {
        GatherSound(f, base, m - 1, n);
      }
    }
  }

  /** When no page yields a URL, nothing is gathered. */
  lemma {:induction false} GatherEmpty(f: nat -> Option<Url>, base: nat, m: nat)
    requires forall j :: base < j <= base + m ==> f(j).None?
    ensures Gather(f, base, m) == {}
    decreases m
  {
    if m > 0 {
      GatherEmpty(f, base, m - 1);
      GatherStep(f, base, m);
    }
  }

  /**
   * `q` is the query of the look-ahead URL for page `page` of `u`: sorted,
   * without repeats, and holding the `page` pair with that value plus, for every other
   * non-tracking key of `u`, that key with the last value `u` gives it.
   */
  ghost predicate IsPagedQuery(u: Url, q: seq<Pair>, page: nat) {
    && Sorted(q)
    && (forall p :: multiset(q)[p] <= 1)
    && forall p :: p in q <==>
         || p == Pair("page", Decimal(page))
         || (p.key != "page" && !IsTracking(p.key) && Lookup(u.query, p.key) == Some(p.value))
  }

  /** `n` is `u` at another page: the same scheme, netloc, path and params, no fragment, in scope. */
  ghost predicate SameResource(u: Url, n: Url) {
    && n.scheme == u.scheme && n.netloc == u.netloc && n.path == u.path && n.params == u.params
    && n.fragment == ""
    && IsAllowed(Parsed(n))
  }

  /** `n` is the look-ahead URL for `page`, one of pages N+1 .. N+5 where N is `u`'s page number. */
  ghost predicate IsPageSuccessor(u: Url, n: Url, page: nat) {
    && PageNumber(u.query).Some?
    && PageNumber(u.query).value < page <= PageNumber(u.query).value + PageLookahead
    && SameResource(u, n)
    && IsPagedQuery(u, n.query, page)
  }

  lemma PageIsNotTracking()
    ensures !IsTracking("page")
  {
    assert "page"[0] != "utm_"[0];
    assert Lower("page") == "page";
  }

  /** The query rebuilt with `page` set holds that pair and the last value of every other key. */
  lemma WithPageQuery(u: Url, page: nat)
    ensures forall p :: p in WithPage(u, page).query <==>
              p == Pair("page", Decimal(page)) || (p.key != "page" && Lookup(u.query, p.key) == Some(p.value))
    ensures forall p :: multiset(WithPage(u, page).query)[p] <= 1
  {
    DictOfMembers(u.query);
    DictSetMembers(DictOf(u.query), "page", Decimal(page));
    UniqueKeysOnce(WithPage(u, page).query);
  }

  /** The URL synthesised for a page is, when admitted, `u` at that page. */
  lemma PageUrlShape(u: Url, page: nat)
    requires PageUrl(u, page).Some?
    ensures SameResource(u, PageUrl(u, page).value)
    ensures IsPagedQuery(u, PageUrl(u, page).value.query, page)
  {
    var w := WithPage(u, page);
    NormalizeMeaning(w);
    WithPageQuery(u, page);
    PageIsNotTracking();
  }

  /** A web URL in scope admits every page it is rebuilt with. */
  lemma PageUrlAdmitted(u: Url, page: nat)
    requires IsWebScheme(u.scheme) && IsAllowed(Parsed(u))
    ensures PageUrl(u, page).Some?
  {
    NormalizeMeaning(WithPage(u, page));
  }

  /** Every look-ahead URL has the shape of a successor page of the URL it came from. */
  lemma SuccessorShape(u: Url, n: Url)
    requires n in PageSuccessors(u)
    ensures exists page :: IsPageSuccessor(u, n, page)
  {
    var base := PageNumber(u.query).value;
    GatherSound(PagesOf(u), base, PageLookahead, n);
    var page :| base < page <= base + PageLookahead && PagesOf(u)(page) == Some(n);
    PageUrlShape(u, page);
    assert IsPageSuccessor(u, n, page);
  }

  /** Every look-ahead URL is in scope and is its own normal form. */
  lemma SuccessorsAreNormal(u: Url, n: Url)
    requires n in PageSuccessors(u)
    ensures IsAllowed(Parsed(n)) && Normalize(n) == Some(n)
  {
    var base := PageNumber(u.query).value;
    GatherSound(PagesOf(u), base, PageLookahead, n);
    var page :| base < page <= base + PageLookahead && PagesOf(u)(page) == Some(n);
    assert Admit(WithPage(u, page)) == Some(n);
    AdmittedIsNormal(WithPage(u, page), n);
  }

  /** A URL some candidate is admitted as is in scope and is its own normal form. */
  lemma AdmittedIsNormal(c: Url, n: Url)
    requires Admit(c) == Some(n)
    ensures IsAllowed(Parsed(n)) && Normalize(n) == Some(n)
  {
    NormalizeIdempotent(c);
  }

  /** Paged queries for different pages differ. */
  lemma PagedQueriesDistinct(u: Url, q: seq<Pair>, i: nat, j: nat)
    requires IsPagedQuery(u, q, i) && IsPagedQuery(u, q, j)
    ensures i == j
  {
    assert Pair("page", Decimal(i)) in q;
    if i != j {
      DecimalInjective(i, j);
    }
  }

  /**
   * The look-ahead produces something exactly when the URL is an in-scope
   * web URL whose `page` value is all digits, and then exactly five URLs.
   */
  lemma SuccessorsCount(u: Url)
    ensures PageSuccessors(u) != {} <==> PageNumber(u.query).Some? && IsWebScheme(u.scheme) && IsAllowed(Parsed(u))
    ensures PageSuccessors(u) != {} ==> |PageSuccessors(u)| == PageLookahead
  {
    if PageNumber(u.query).Some? {
      var base := PageNumber(u.query).value;
      var f := PagesOf(u);
      if IsWebScheme(u.scheme) && IsAllowed(Parsed(u)) {
        forall j | base < j <= base + PageLookahead ensures f(j).Some? {
          PageUrlAdmitted(u, j);
        }
        forall i, j | base < i <= base + PageLookahead && base < j <= base + PageLookahead && f(i) == f(j)
          ensures i == j
        {
          PageUrlShape(u, i);
          PageUrlShape(u, j);
          PagedQueriesDistinct(u, f(i).value.query, i, j);
        }
        GatherCount(f, base, PageLookahead);
      } else {
        forall j | base < j <= base + PageLookahead ensures f(j).None? {
          PageUrlOutOfScope(u, j);
        }
        GatherEmpty(f, base, PageLookahead);
      }
    }
  }

  /** An out-of-scope URL, or one with another scheme, admits no page. */
  lemma PageUrlOutOfScope(u: Url, page: nat)
    requires !IsWebScheme(u.scheme) || !IsAllowed(Parsed(u))
    ensures PageUrl(u, page).None?
  {
    var w := WithPage(u, page);
    NormalizeMeaning(w);
    if Normalize(w).Some? {
      NormalizeKeepsScope(w);
      assert w.netloc == u.netloc;
    }
  }

  /** `https://www.finploy.com/jobs?page=<v>`. */
  function JobsPage(v: string): Url {
    Url("https", "www.finploy.com", "/jobs", "", [Pair("page", v)], "")
  }

  lemma JobsPageThree()
    ensures PageNumber(JobsPage("3").query) == Some(3)
    ensures IsWebScheme(JobsPage("3").scheme) && IsAllowed(Parsed(JobsPage("3")))
  {
    assert Lookup(JobsPage("3").query, "page") == Some("3");
    assert DigitsValue("3") == 3;
    assert Lower("www.finploy.com") == "www.finploy.com";
  }

  /** The query `page=<k>` and nothing else. */
  function PageOnly(k: nat): seq<Pair> {
    [Pair("page", Decimal(k))]
  }

  /** The query is `page=<k>` alone, for one of the look-ahead pages k of page `base`. */
  predicate IsPageOnlyWithin(q: seq<Pair>, base: nat) {
    exists k :: base < k <= base + PageLookahead && q == PageOnly(k)
  }

  /**
   * An in-scope web URL whose only pair is `page=N` yields pages N+1 to N+5
   * and only those, each with no other pair.
   */
  lemma SinglePageLookahead(u: Url, v: string)
    requires u.query == [Pair("page", v)] && IsDigits(v)
    requires IsWebScheme(u.scheme) && IsAllowed(Parsed(u))
    ensures |PageSuccessors(u)| == PageLookahead
    ensures forall n :: n in PageSuccessors(u) ==> IsPageOnlyWithin(n.query, DigitsValue(v))
  {
    SinglePageCount(u, v);
    SinglePageQueries(u, v);
  }

  lemma SinglePageCount(u: Url, v: string)
    requires u.query == [Pair("page", v)] && IsDigits(v)
    requires IsWebScheme(u.scheme) && IsAllowed(Parsed(u))
    ensures |PageSuccessors(u)| == PageLookahead
  {
    assert PageNumber(u.query) == Some(DigitsValue(v)) by {
      assert Lookup(u.query, "page") == Some(v);
    }
    SuccessorsCount(u);
  }

  lemma SinglePageQueries(u: Url, v: string)
    requires u.query == [Pair("page", v)] && IsDigits(v)
    ensures forall n :: n in PageSuccessors(u) ==> IsPageOnlyWithin(n.query, DigitsValue(v))
  {
    forall n | n in PageSuccessors(u)
      ensures IsPageOnlyWithin(n.query, DigitsValue(v))
    {
      SinglePageSuccessor(u, v, n);
    }
  }

  lemma SinglePageSuccessor(u: Url, v: string, n: Url)
    requires u.query == [Pair("page", v)] && IsDigits(v)
    requires n in PageSuccessors(u)
    ensures IsPageOnlyWithin(n.query, DigitsValue(v))
  {
    assert Lookup(u.query, "page") == Some(v);
    SuccessorShape(u, n);
    var k :| IsPageSuccessor(u, n, k);
    OnlyPagePair(u, n.query, k);
  }

  /** `?page=3` on an allowed host yields pages 4 to 8 and only those, with no other pair. */
  lemma PageThreeLookahead()
    ensures |PageSuccessors(JobsPage("3"))| == 5
    ensures forall n :: n in PageSuccessors(JobsPage("3")) ==> exists k :: 4 <= k <= 8 && n.query == PageOnly(k)
  {
    JobsPageThree();
    SinglePageLookahead(JobsPage("3"), "3");
  }

  /** In a paged query of a URL whose only pair is `page`, that pair is the whole query. */
  lemma OnlyPagePair(u: Url, q: seq<Pair>, page: nat)
    requires |u.query| == 1 && u.query[0].key == "page"
    requires IsPagedQuery(u, q, page)
    ensures q == PageOnly(page)
  {
    var p := Pair("page", Decimal(page));
    assert forall k :: k != "page" ==> Lookup(u.query, k) == None by {
      assert u.query[..0] == [];
    }
    assert p in q;
    if |q| > 1 {
      TwoOccurrences(q, p);
      assert false;
    }
  }

  lemma TwoOccurrences(q: seq<Pair>, p: Pair)
    requires |q| > 1 && q[0] == p && q[1] == p
    ensures multiset(q)[p] >= 2
  {
    assert q == [q[0], q[1]] + q[2..];
  }

  /** A synthesised page is not expanded again: from `?page=3` nothing reaches `?page=9`. */
  lemma LookaheadIsOnePass()
    ensures JobsPage("9") !in {JobsPage("3")} + Expansion({JobsPage("3")})
  {
    var u := JobsPage("3");
    JobsPageThree();
    assert DigitsValue("9") == 9;
    forall n | n in PageSuccessors(u) ensures n != JobsPage("9") {
      SuccessorShape(u, n);
      var k :| IsPageSuccessor(u, n, k);
      DecimalRoundTrip(k);
      OnlyPagePair(u, n.query, k);
    }
  }

  // ---------- what render_and_extract hands back to the worker ----------

  function ResponseOf(nav: Navigation): Option<Response> {
    match nav
    case Loaded(r) => r
    case TimedOut => None
    case Failed => None
  }

  /**
   * The URLs extracted from a page: none after a failed navigation, otherwise
   * the collected URLs and their look-ahead. A timeout still extracts.
   */
  function Extracted(page: Page): set<Url> {
    if page.nav.Failed? then {} else Collected(page) + Expansion(Collected(page))
  }

  /** Every URL a page yields is in normal form, the canonical link and the look-ahead included. */
  lemma ExtractedAreNormal(page: Page)
    ensures forall n :: n in Extracted(page) ==> Normalize(n) == Some(n)
  {
    AdmittedAreNormal(page.candidates);
    forall n | n in Extracted(page) ensures Normalize(n) == Some(n) {
      if n in CanonicalLink(page.canonical) {
        NormalizeIdempotent(page.canonical.value);
      } else if n !in AdmitAll(page.candidates) {
        var u :| u in Collected(page) && n in PageSuccessors(u);
        SuccessorsAreNormal(u, n);
      }
    }
  }

  /** A value `render_and_extract` returns: the pair (discovered, nav_response), or a bare empty set. */
  datatype Returned = Both(discovered: set<Url>, response: Option<Response>) | BareEmptySet

  /** `render_and_extract` as written: after a navigation error it returns `discovered` alone, still empty. */
  function ReturnedAsWritten(page: Page): Returned {
    if page.nav.Failed? then BareEmptySet else Both(Extracted(page), ResponseOf(page.nav))
  }

  /** `discovered, nav_response = ...`: a pair unpacks, an empty set raises ValueError. */
  function Unpack(r: Returned): Option<(set<Url>, Option<Response>)> {
    match r
    case Both(d, resp) => Some((d, resp))
    case BareEmptySet => None
  }

  /** As written, a navigation error other than a timeout makes the worker's unpacking raise. */
  lemma NavigationErrorBreaksUnpack(page: Page)
    requires page.nav.Failed?
    ensures Unpack(ReturnedAsWritten(page)) == None
  {
  }

  /**
   * `render_and_extract` with the early return corrected to `(set(), None)`:
   * a failed navigation is a visit that found nothing; on every other page
   * the result is what the source returns.
   */
  method RenderAndExtract(page: Page) returns (discovered: set<Url>, response: Option<Response>)
    ensures discovered == Extracted(page) && response == ResponseOf(page.nav)
    ensures page.nav.Failed? ==> discovered == {} && response == None
    ensures !page.nav.Failed? ==> Unpack(ReturnedAsWritten(page)) == Some((discovered, response))
    ensures forall n :: n in discovered ==> Normalize(n) == Some(n)
  {
    ExtractedAreNormal(page);
    if page.nav.Failed? {
      return {}, None;
    }
    var collected := CollectCandidates(page);
    discovered := ExpandPagination(collected);
    response := ResponseOf(page.nav);
  }
}
