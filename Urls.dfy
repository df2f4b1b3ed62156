/**
 * `normalize_url` and `is_allowed`: URL canonicalisation and the host scope
 * check, on a parsed-URL record standing for what `urlparse` returns.
 */
module Urls {
  import opened Wrappers
  import opened Strings
  import opened Query

  /**
   * The six components `urlparse` splits a URL into. The parser has already
   * lower-cased the scheme and split the query into pairs (`parse_qsl` with
   * blank values kept); an empty input string parses to a record whose scheme
   * is empty.
   */
  datatype Url = Url(
    scheme: string,
    netloc: string,
    path: string,
    params: string,
    query: seq<Pair>,
    fragment: string)

  /** `ALLOWED_HOSTS`. */
  const AllowedHosts: set<string> := {"www.finploy.com", "finploy.com", "www.finploy.co.uk", "finploy.co.uk"}

  predicate IsWebScheme(scheme: string) {
    scheme == "http" || scheme == "https"
  }

  /** `normalize_url`, on the parsed form. */
  function Normalize(u: Url): (r: Option<Url>)
    ensures r.None? <==> !IsWebScheme(u.scheme)
  {
    if !IsWebScheme(u.scheme) then None
    else Some(u.(fragment := "", query := Canonical(u.query)))
  }

  /**
   * What `normalize_url` returns: nothing for a scheme other than http/https
   * (which covers the empty input); otherwise the same scheme, netloc, path
   * and params, no fragment, and as query the non-tracking pairs of the
   * input, each as often as it occurs there, in sorted order.
   */
  lemma NormalizeMeaning(u: Url)
    ensures Normalize(u).None? <==> !IsWebScheme(u.scheme)
    ensures Normalize(u).Some? ==>
              var n := Normalize(u).value;
              && n.scheme == u.scheme && n.netloc == u.netloc
              && n.path == u.path && n.params == u.params
              && n.fragment == ""
              && Sorted(n.query)
              && multiset(n.query) == multiset(Untracked(u.query))
              && forall p :: p in n.query <==> p in u.query && !IsTracking(p.key)
  {
  }

  /** Normalising a normalised URL gives it back. */
  lemma NormalizeIdempotent(u: Url)
    requires Normalize(u).Some?
    ensures Normalize(Normalize(u).value) == Normalize(u)
  {
    CanonicalIdempotent(u.query);
  }

  /**
   * Two web URLs normalise to the same URL exactly when they agree on scheme,
   * netloc, path and params and carry the same non-tracking pairs, each as
   * many times; the fragment, the tracking pairs and the pair order are
   * irrelevant.
   */
  lemma NormalizeSameIff(u: Url, v: Url)
    requires IsWebScheme(u.scheme) && IsWebScheme(v.scheme)
    ensures Normalize(u) == Normalize(v) <==>
              && u.scheme == v.scheme && u.netloc == v.netloc
              && u.path == v.path && u.params == v.params
              && multiset(Untracked(u.query)) == multiset(Untracked(v.query))
  {
    CanonicalEqualIff(u.query, v.query);
  }

  /** Reordering the query pairs or changing the fragment does not change the normal form. */
  lemma NormalizeIgnoresOrderAndFragment(u: Url, v: Url)
    requires u.scheme == v.scheme && u.netloc == v.netloc && u.path == v.path && u.params == v.params
    requires multiset(u.query) == multiset(v.query)
    ensures Normalize(u) == Normalize(v)
  {
    CanonicalPermutationInvariant(u.query, v.query);
  }

  /** `https://h/p?utm_source=x&a=1` and `https://h/p?a=1` normalise alike. */
  lemma TrackingPairDropped()
    ensures Normalize(Url("https", "h", "/p", "", [Pair("utm_source", "x"), Pair("a", "1")], ""))
         == Normalize(Url("https", "h", "/p", "", [Pair("a", "1")], ""))
  {
    var u := Url("https", "h", "/p", "", [Pair("utm_source", "x"), Pair("a", "1")], "");
    var v := Url("https", "h", "/p", "", [Pair("a", "1")], "");
    assert IsTracking("utm_source");
    assert !IsTracking("a") by {
      assert Lower("a") == "a";
    }
    assert Untracked(u.query) == [Pair("a", "1")];
    assert Untracked(v.query) == [Pair("a", "1")];
    NormalizeSameIff(u, v);
  }

  /**
   * The `utm_` test is case-sensitive while the session-id test is not: a
   * `UTM_source` pair survives, a `SID` pair is dropped.
   */
  lemma TrackingCaseRules()
    ensures Normalize(Url("https", "h", "/", "", [Pair("UTM_source", "x"), Pair("SID", "7")], ""))
         == Some(Url("https", "h", "/", "", [Pair("UTM_source", "x")], ""))
  {
    assert "UTM_source"[..4][0] != "utm_"[0];
    assert Lower("UTM_source") == "utm_source";
    assert !IsTracking("UTM_source");
    assert Lower("SID") == "sid";
    assert IsTracking("SID");
    var q := [Pair("UTM_source", "x"), Pair("SID", "7")];
    assert Untracked(q) == [Pair("UTM_source", "x")];
    SortSortedIsIdentity([Pair("UTM_source", "x")]);
  }

  /** Two non-tracking pairs given out of order come out swapped. */
  lemma CanonicalSwapsTwo(a: Pair, b: Pair)
    requires !IsTracking(a.key) && !IsTracking(b.key) && PairLess(b, a)
    ensures Canonical([a, b]) == [b, a]
  {
    UntrackedKeepsTwo(a, b);
    SortSwapsTwo(a, b);
  }

  lemma UntrackedKeepsTwo(a: Pair, b: Pair)
    requires !IsTracking(a.key) && !IsTracking(b.key)
    ensures Untracked([a, b]) == [a, b]
  {
    assert [a, b][1..] == [b];
    assert [b][1..] == [];
  }

  lemma SortSwapsTwo(a: Pair, b: Pair)
    requires PairLess(b, a)
    ensures SortPairs([a, b]) == [b, a]
  {
    PairLessAsymmetric(b, a);
    assert [a, b][1..] == [b];
    assert [b][1..] == [];
    assert SortPairs([b]) == [b];
    assert Insert(a, []) == [a];
  }

  /** Pairs are sorted as whole tuples: two values of one key come out in value order. */
  lemma SortsWholePairs()
    ensures Normalize(Url("http", "h", "/", "", [Pair("a", "2"), Pair("a", "1")], ""))
         == Some(Url("http", "h", "/", "", [Pair("a", "1"), Pair("a", "2")], ""))
  {
    assert !IsTracking("a") by {
      assert Lower("a") == "a";
    }
    assert Less("1", "2");
    CanonicalSwapsTwo(Pair("a", "2"), Pair("a", "1"));
  }

  /** What `urlparse` does with a string: it returns the parts, or raises (a malformed netloc). */
  datatype Parsed = Parsed(url: Url) | Unparsable

  /**
   * `is_allowed`: the lower-cased netloc is one of the allowed hosts; a
   * string the parser rejects is out of scope rather than an error.
   */
  predicate IsAllowed(p: Parsed) {
    match p
    case Parsed(u) => Lower(u.netloc) in AllowedHosts
    case Unparsable => false
  }

  /** The characters the allowed hosts are spelt with. */
  predicate HostChar(c: char) {
    'a' <= c <= 'z' || c == '.'
  }

  /** Every character of `s` is a host character. */
  predicate HostChars(s: string) {
    forall j :: 0 <= j < |s| ==> HostChar(s[j])
  }

  /** The allowed hosts are spelt with lower-case letters and dots only. */
  lemma AllowedHostsSpelling()
    ensures forall h :: h in AllowedHosts ==> HostChars(h)
  {
    assert HostChars("www.finploy.com");
    assert HostChars("finploy.com");
    assert HostChars("www.finploy.co.uk");
    assert HostChars("finploy.co.uk");
  }

  /**
   * A netloc holding an ASCII character that is neither a letter nor a dot
   * is out of scope: lower-casing keeps that character, and no allowed host
   * has it.
   */
  lemma RejectsCharacter(u: Url, c: char)
    requires c in u.netloc && c as int < 128 && !('A' <= c <= 'Z') && !HostChar(c)
    ensures !IsAllowed(Parsed(u))
  {
    var i :| 0 <= i < |u.netloc| && u.netloc[i] == c;
    assert Lower(u.netloc)[i] == c;
    AllowedHostsSpelling();
  }

  /** A netloc with an explicit port (`host:443`) is out of scope, whatever the host. */
  lemma PortIsRejected(u: Url)
    requires ':' in u.netloc
    ensures !IsAllowed(Parsed(u))
  {
    RejectsCharacter(u, ':');
  }

  /** A netloc with user information (`user@host`) is out of scope. */
  lemma UserInfoIsRejected(u: Url)
    requires '@' in u.netloc
    ensures !IsAllowed(Parsed(u))
  {
    RejectsCharacter(u, '@');
  }

  /** The host is compared case-insensitively: `WWW.Finploy.COM` is in scope. */
  lemma HostCaseIgnored()
    ensures IsAllowed(Parsed(Url("https", "WWW.Finploy.COM", "/", "", [], "")))
  {
    assert Lower("WWW.Finploy.COM") == "www.finploy.com";
  }

  /** A host outside the allowed set is rejected. */
  lemma OtherHostRejected()
    ensures !IsAllowed(Parsed(Url("https", "other.example", "/x", "", [], "")))
  {
    assert Lower("other.example") == "other.example";
  }

  /** Normalisation keeps the netloc, so it never moves a URL into or out of scope. */
  lemma NormalizeKeepsScope(u: Url)
    requires Normalize(u).Some?
    ensures IsAllowed(Parsed(Normalize(u).value)) <==> IsAllowed(Parsed(u))
  {
  }
}
