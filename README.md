# Finploy crawler: URL bookkeeping

This project models the URL-bookkeeping core of `finploy_crawler.py` in Dafny and proves properties of the model. The core is a breadth-first site crawler for the Finploy job site:

- **Frontier.** `MemoryFrontier` is an in-memory frontier. It holds a FIFO queue, an ever-growing de-duplication set (`_enqueued`), a map from URL to visit record (`_seen`), and the order in which URLs were first seen.
- **Normalisation.** `normalize_url` drops the fragment, removes tracking query pairs and sorts the remaining pairs. `is_allowed` keeps the crawl on the four Finploy hosts.
- **Extraction.** The pure post-processing of `render_and_extract` normalises and filters the link candidates a page yields. The canonical link is normalised but not scope-checked. A pagination look-ahead then adds pages N+1 to N+5 for every discovered URL whose `page` value is all digits.
- **Worker.** The `worker` loop, for a single worker, stops at `MAX_PAGES` or when the queue is empty. It skips URLs already seen. Otherwise it visits the URL, marks it seen and then enqueues what the page yields that is not yet seen. The visit uses the corrected extraction described under Findings.

Modules, one file each:

| module | file | contents |
|---|---|---|
| `Wrappers` | `Wrappers.dfy` | `Option` |
| `Strings` | `Strings.dfy` | string order, `startswith`, ASCII `lower`, `isdigit`, `int(...)`, `str(...)` |
| `Query` | `Query.dfy` | query pairs: the tracking filter, tuple sort, `dict(qs)` and `d[k] = v` |
| `Urls` | `Urls.dfy` | the parsed URL record, `normalize_url`, `is_allowed` |
| `Frontier` | `Frontier.dfy` | the `MemoryFrontier` class |
| `Discovery` | `Discovery.dfy` | candidate filtering, pagination look-ahead, what `render_and_extract` returns |
| `Worker` | `Worker.dfy` | the loop body, the enqueue loop and the `while True` loop |

How the model represents the parts outside Dafny:

- **Parsed URLs.** A URL is the record `urlparse` produces. `Parsed.Unparsable` stands for a string `urlparse` rejects, which `is_allowed` catches and treats as out of scope.
- **The browser.** It is a parameter: `render(u)` is the `Page` loading `u` produces. A `Page` holds how navigation ended, the canonical link, and the raw link candidates.
- **Timestamps.** `crawled_at` timestamps are a parameter of `mark_seen` (`crawledAt`). The worker takes them from `clock(i)` for its i-th visit.
- **Ghost state.** `MemoryFrontier` carries one ghost field, `appended`. It is the log of every URL ever put on the queue, and states the de-duplication invariant.

## Model

| member | source | states |
|---|---|---|
| `Frontier.MemoryFrontier.constructor` | finploy_crawler.py:68-73 | a new frontier has an empty queue, enqueued set, seen map and seen order, and satisfies the frontier invariant |
| `Frontier.MemoryFrontier.EnqueueIfNew` | finploy_crawler.py:79-84 | a URL already enqueued or seen changes nothing; any other URL joins `_enqueued` and the queue tail; seen state untouched; the invariant (no URL appended twice, queue is a suffix of the append log) is kept |
| `Frontier.MemoryFrontier.Dequeue` | finploy_crawler.py:86-90 | None on an empty queue; otherwise the head, which is the earliest-appended URL still waiting, and the queue loses exactly it; `_enqueued`, `_seen` and the seen order are untouched |
| `Frontier.MemoryFrontier.MarkSeen` | finploy_crawler.py:92-100 | the record is overwritten on every call (last write wins); the URL joins the seen order only if it was not yet seen; the queue and `_enqueued` are untouched |
| `Frontier.MemoryFrontier.IsSeen` | finploy_crawler.py:102-103 | true exactly when the URL is a key of `_seen` |
| `Frontier.MemoryFrontier.SeenCount` | finploy_crawler.py:105-106 | the number of seen URLs |
| `Frontier.MemoryFrontier.QueueCount` | finploy_crawler.py:108-109 | the queue length |
| `Frontier.MemoryFrontier.FetchAllSeen` | finploy_crawler.py:111-116 | exactly `seen_count()` rows, the i-th for the i-th URL in first-seen order, with that URL's current `last_modified` and `crawled_at` |
| `Frontier.MemoryFrontier.QueueNoDuplicates` | finploy_crawler.py:79-90 | under the invariant the queue never holds a URL twice and only holds enqueued URLs |
| `Frontier.MemoryFrontier.SeenOrderCount` | finploy_crawler.py:94-95 | the seen order has as many entries as `_seen` has keys |
| `Frontier.DistinctCount` | finploy_crawler.py:94-95 | a list without repetitions has as many distinct elements as entries |
| `Query.IsTracking` | finploy_crawler.py:132 | by definition: a key is tracking when it starts with `utm_` (case-sensitively) or, lower-cased, is `sessionid`, `sid` or `phpsessid` |
| `Query.Untracked` | finploy_crawler.py:131-132 | the comprehension keeps each non-tracking pair as often as it occurs and drops every tracking pair |
| `Query.UntrackedOfClean` | finploy_crawler.py:131-132 | a list without tracking pairs passes the filter unchanged |
| `Query.SortPairs` | finploy_crawler.py:133 | `qs.sort()` yields a sorted permutation of its input under tuple order |
| `Query.InsertSorted` | finploy_crawler.py:133 | inserting into a sorted list keeps it sorted |
| `Query.SortedUnique` | finploy_crawler.py:133 | two sorted lists with the same elements, counted with multiplicity, are equal: the sort result is unique |
| `Query.SortSortedIsIdentity` | finploy_crawler.py:133 | sorting a sorted list leaves it unchanged |
| `Query.PairLess` | finploy_crawler.py:133 | by definition: Python's `<` on `(key, value)` tuples: key order, then value order between equal keys |
| `Query.PairLessEq` | finploy_crawler.py:133 | by definition: tuple `<=`: equal pairs or `PairLess` |
| `Query.PairLessTotal` | finploy_crawler.py:133 | tuple order compares any two distinct pairs |
| `Query.PairLessEqTransitive` | finploy_crawler.py:133 | tuple order is transitive |
| `Query.PairLessEqAntisymmetric` | finploy_crawler.py:133 | tuple order is antisymmetric |
| `Query.Canonical` | finploy_crawler.py:131-133 | the filtered-then-sorted query is sorted, is a permutation of the non-tracking pairs, and holds a pair exactly when the input does and its key is not tracking |
| `Query.CanonicalIdempotent` | finploy_crawler.py:131-133 | filtering and sorting twice is the same as once |
| `Query.CanonicalEqualIff` | finploy_crawler.py:131-133 | two queries canonicalise alike exactly when their non-tracking pairs agree with multiplicity |
| `Query.CanonicalPermutationInvariant` | finploy_crawler.py:131-133 | any reordering of the input pairs gives the same canonical query |
| `Query.Lookup` | finploy_crawler.py:265-266 | by definition: the value of the last pair with the key, or nothing |
| `Query.DictSet` | finploy_crawler.py:269 | by definition: `d[k] = v` replaces k's entry in place, or appends (k, v) when k is new |
| `Query.DictOf` | finploy_crawler.py:265 | by definition: `dict(qs)` built by assigning the pairs in order |
| `Query.DictOfMembers` | finploy_crawler.py:265 | `dict(qs)` has one entry per key, and holds (k, v) exactly when v is the last value qs gives k |
| `Query.LookupDictOf` | finploy_crawler.py:265-266 | looking a key up in `dict(qs)` gives the last value qs gives it |
| `Query.LookupUnique` | finploy_crawler.py:266 | in a list with one pair per key, the looked-up value is the one its pair holds |
| `Query.DictSetMembers` | finploy_crawler.py:269 | after `d[k] = v` the dict still has unique keys, maps k to v and keeps every other entry |
| `Query.DictSetTwice` | finploy_crawler.py:268-269 | setting a key twice is the same as setting it once to the second value |
| `Query.UniqueKeysOnce` | finploy_crawler.py:265 | a dict's pair list holds no pair twice |
| `Strings.Less` | finploy_crawler.py:133 | by definition: code-point lexicographic order, a proper prefix first |
| `Strings.StartsWith` | finploy_crawler.py:132 | by definition: `s.startswith(prefix)` |
| `Strings.IsDigits` | finploy_crawler.py:266 | by definition: `isdigit()` on ASCII: non-empty and all digits |
| `Strings.DigitsValue` | finploy_crawler.py:267 | by definition: `int(s)` of a digit string, leading zeros allowed |
| `Strings.Lower` | finploy_crawler.py:132 | by definition: `s.lower()` on ASCII letters, character by character |
| `Strings.LowerIdempotent` | finploy_crawler.py:132 | lower-casing a lower-cased key changes nothing |
| `Strings.LowerFixedIff` | finploy_crawler.py:140 | a string is its own lower-case form exactly when it holds no upper-case ASCII letter |
| `Strings.LessTotal` | finploy_crawler.py:133 | string order compares any two distinct strings |
| `Strings.LessTransitive` | finploy_crawler.py:133 | string order is transitive |
| `Strings.LessAsymmetric` | finploy_crawler.py:133 | string order is asymmetric |
| `Strings.Decimal` | finploy_crawler.py:269 | `str(n)` is a non-empty digit string without a leading zero |
| `Strings.DecimalRoundTrip` | finploy_crawler.py:267-269 | `int(str(n)) == n` |
| `Strings.DecimalInjective` | finploy_crawler.py:269 | different page numbers print differently |
| `Urls.AllowedHosts` | finploy_crawler.py:22 | by definition: the four hosts of `ALLOWED_HOSTS` |
| `Urls.IsWebScheme` | finploy_crawler.py:126 | by definition: the scheme is `http` or `https` |
| `Urls.Normalize` | finploy_crawler.py:122-127 | no result exactly when the scheme is not http or https, which covers the empty input |
| `Urls.NormalizeMeaning` | finploy_crawler.py:122-135 | the result keeps scheme, netloc, path and params, has no fragment, and its query is sorted and holds exactly the non-tracking pairs of the input with their multiplicities |
| `Urls.NormalizeIdempotent` | finploy_crawler.py:122-135 | normalising a normalised URL gives it back |
| `Urls.NormalizeSameIff` | finploy_crawler.py:122-135 | two web URLs normalise alike exactly when they agree on scheme, netloc, path, params and non-tracking pairs, whatever their fragment and pair order |
| `Urls.NormalizeIgnoresOrderAndFragment` | finploy_crawler.py:129-133 | reordering the pairs or changing the fragment does not change the normal form |
| `Urls.TrackingPairDropped` | finploy_crawler.py:131-132 | a `utm_source` pair is dropped |
| `Urls.TrackingCaseRules` | finploy_crawler.py:132 | `UTM_source` survives (the `utm_` test is case-sensitive) while `SID` is dropped (session ids are compared lower-cased) |
| `Urls.CanonicalSwapsTwo` | finploy_crawler.py:133 | two non-tracking pairs given out of order come out swapped |
| `Urls.SortsWholePairs` | finploy_crawler.py:133 | two values of one key come out in value order: the sort is on whole tuples |
| `Urls.AllowedHostsSpelling` | finploy_crawler.py:22 | every allowed host is spelt with lower-case letters and dots |
| `Urls.IsAllowed` | finploy_crawler.py:137-145 | by definition: in scope exactly when the lower-cased netloc is one of `ALLOWED_HOSTS`; a string the parser rejects is out of scope, never an error |
| `Urls.RejectsCharacter` | finploy_crawler.py:137-145 | a netloc holding an ASCII character that is neither a letter nor a dot is out of scope |
| `Urls.PortIsRejected` | finploy_crawler.py:140-141 | a netloc with an explicit port is out of scope whatever the host |
| `Urls.UserInfoIsRejected` | finploy_crawler.py:140-141 | a netloc with user information is out of scope |
| `Urls.HostCaseIgnored` | finploy_crawler.py:140-141 | the host is compared after lower-casing |
| `Urls.OtherHostRejected` | finploy_crawler.py:141-145 | a host outside `ALLOWED_HOSTS` is out of scope |
| `Urls.NormalizeKeepsScope` | finploy_crawler.py:122-145 | normalisation never moves a URL into or out of scope |
| `Discovery.Admit` | finploy_crawler.py:207-208 | by definition: a candidate contributes its normal form when it has one and that form is allowed |
| `Discovery.Kept` | finploy_crawler.py:206-209 | by definition: the results a filter gives for the candidates, added one by one in list order |
| `Discovery.AdmitAll` | finploy_crawler.py:203-257 | by definition: what the candidate loops add, the candidates kept by `Admit` |
| `Discovery.KeptMembers` | finploy_crawler.py:206-209 | a filtering loop collects n exactly when some candidate maps to n |
| `Discovery.AdmitAllMembers` | finploy_crawler.py:203-257 | the candidate loops add n exactly when some candidate normalises to n and n is allowed |
| `Discovery.AdmittedIsNormal` | finploy_crawler.py:206-209 | a URL some candidate is admitted as is in scope and is its own normal form |
| `Discovery.AdmittedAreNormal` | finploy_crawler.py:203-257 | every URL the candidate loops add is in scope and is its own normal form |
| `Discovery.CanonicalLink` | finploy_crawler.py:164-169 | by definition: the normalised canonical link when there is one and it normalises, with no scope check |
| `Discovery.Collected` | finploy_crawler.py:163-257 | by definition: the canonical link plus the admitted candidates, the set the look-ahead starts from |
| `Discovery.CollectCandidates` | finploy_crawler.py:163-257 | the canonical link (normalised only) plus the admitted candidates, in the source's loop order |
| `Discovery.CanonicalSkipsScope` | finploy_crawler.py:164-169 | a canonical link to any host is collected once normalised |
| `Discovery.PageLookahead` | finploy_crawler.py:268 | by definition: five pages, `range(1, 6)` |
| `Discovery.PageUrl` | finploy_crawler.py:270-273 | by definition: the URL rebuilt for one page, when it normalises and is allowed |
| `Discovery.Gather` | finploy_crawler.py:268-273 | by definition: the URLs pages base+1 .. base+m yield, added one page at a time |
| `Discovery.PageNumber` | finploy_crawler.py:265-267 | by definition: `int(new_qs["page"])` when `page` is a key of `dict(qs)` whose value is all digits, otherwise nothing |
| `Discovery.WithPage` | finploy_crawler.py:265-270 | by definition: the URL rebuilt with `dict(qs)` and `page` set to `str(n)`, every other part as parsed |
| `Discovery.PageSuccessors` | finploy_crawler.py:263-273 | by definition: the admitted URLs of pages N+1 .. N+5 for a digit `page` value N, otherwise none |
| `Discovery.Expansion` | finploy_crawler.py:261-273 | by definition: the look-ahead URLs of every URL in the snapshot |
| `Discovery.ExpandOne` | finploy_crawler.py:263-273 | one look-ahead pass adds exactly the admitted URLs of pages N+1 .. N+5 when `page` is all digits, and nothing otherwise |
| `Discovery.LookaheadPage` | finploy_crawler.py:268-273 | one inner pass sets `page` to N+inc in `dict(qs)` and adds that page's URL when it is admitted |
| `Discovery.ExpandPagination` | finploy_crawler.py:259-275 | iterating over a snapshot, the result is the discovered set plus the look-ahead of each discovered URL, and the added URLs are not expanded |
| `Discovery.GatherSound` | finploy_crawler.py:268-273 | every gathered URL comes from one of pages N+1 .. N+5 |
| `Discovery.GatherCount` | finploy_crawler.py:268-273 | when every page yields a URL and the pages differ, the number gathered is the number of pages |
| `Discovery.GatherEmpty` | finploy_crawler.py:268-273 | when no page yields a URL, nothing is gathered |
| `Discovery.WithPageQuery` | finploy_crawler.py:265-270 | the rebuilt query holds `page=str(k)` and the last value of every other key, each pair once |
| `Discovery.PageUrlShape` | finploy_crawler.py:265-273 | a synthesised URL keeps scheme, netloc, path and params, has no fragment, and its query is the sorted paged query |
| `Discovery.PageUrlAdmitted` | finploy_crawler.py:270-273 | an in-scope web URL admits every page it is rebuilt with |
| `Discovery.PageUrlOutOfScope` | finploy_crawler.py:270-273 | an out-of-scope or non-web URL admits no page |
| `Discovery.SuccessorShape` | finploy_crawler.py:259-275 | every look-ahead URL is the same resource at one of pages N+1 .. N+5; its query holds that `page` pair and, for every other non-tracking key, the key's last value only (`dict(qs)` drops earlier values of a repeated key), each pair once, sorted |
| `Discovery.PagedQueriesDistinct` | finploy_crawler.py:268-270 | paged queries for different page numbers differ |
| `Discovery.SuccessorsCount` | finploy_crawler.py:259-275 | a URL yields look-ahead URLs exactly when it is an in-scope web URL whose `page` value is all digits, and then exactly five; a non-numeric or missing `page` yields nothing |
| `Discovery.SinglePageLookahead` | finploy_crawler.py:259-275 | a URL whose only pair is `page=N` yields exactly pages N+1 .. N+5 with no other pair, and nothing else |
| `Discovery.PageThreeLookahead` | finploy_crawler.py:259-275 | `?page=3` on the job site yields pages 4 to 8 and only those |
| `Discovery.LookaheadIsOnePass` | finploy_crawler.py:261-262 | a synthesised page is not expanded again: from `?page=3` the result never holds `?page=9` |
| `Discovery.ResponseOf` | finploy_crawler.py:153-158 | by definition: `nav_response`: what `goto` returned, or None after a timeout or an error |
| `Discovery.Extracted` | finploy_crawler.py:152-277 | by definition: nothing after a failed navigation; otherwise, timeouts included, the collected URLs and their look-ahead |
| `Discovery.ReturnedAsWritten` | finploy_crawler.py:159-161 | by definition: the bare `discovered` after a navigation error, the pair otherwise (line 277) |
| `Discovery.Unpack` | finploy_crawler.py:304 | by definition: `discovered, nav_response = ...` succeeds on a pair and raises on a bare set |
| `Discovery.NavigationErrorBreaksUnpack` | finploy_crawler.py:159-161 | as written, after a navigation error the value returned cannot be unpacked into `discovered, nav_response` |
| `Discovery.SuccessorsAreNormal` | finploy_crawler.py:268-273 | every look-ahead URL is in scope and is its own normal form |
| `Discovery.ExtractedAreNormal` | finploy_crawler.py:150-277 | every URL a page yields, the canonical link and the look-ahead included, is its own normal form (the "normalized" of line 150) |
| `Discovery.RenderAndExtract` | finploy_crawler.py:148-277 | after a failed navigation: no URLs and no response; otherwise the extracted URLs and the response, which is what the source's tuple unpacks to; every URL returned is its own normal form, as the docstring at line 150 promises |
| `Worker.MaxPages` | finploy_crawler.py:26 | by definition: `MAX_PAGES`, 300000 |
| `Worker.StatusOf` | finploy_crawler.py:306-310 | by definition: the response's status, or None without a response |
| `Worker.LastModifiedOf` | finploy_crawler.py:307-316 | by definition: the response's `last-modified` header, or None without a response or header |
| `Worker.VisitOf` | finploy_crawler.py:306-319 | by definition: the record a visit leaves: the response's status and `last-modified`, both None without a response, and the timestamp |
| `Worker.Offer` | finploy_crawler.py:322-323 | a discovered URL is handed to `enqueue_if_new` only if it is not seen; it joins the queue tail exactly when it was neither seen nor enqueued |
| `Worker.EnqueueDiscovered` | finploy_crawler.py:321-323 | the enqueued set grows by exactly the discovered URLs not seen; the old queue is kept as a prefix and gains exactly the newly enqueued URLs; seen state untouched |
| `Worker.Iterate` | finploy_crawler.py:281-323 | at the cap or on an empty queue nothing changes; a seen head is dropped without marking; any other head is marked seen with its response's status and `last-modified` before its unseen links are enqueued |
| `Worker.HeadNeverSeen` | finploy_crawler.py:299-301 | in a settled frontier the queue head is never seen, so a single worker never skips a URL |
| `Worker.SeededIsSettled` | finploy_crawler.py:79-84 | a frontier filled only through `enqueue_if_new` before any visit is settled |
| `Worker.VisitKeepsSettled` | finploy_crawler.py:304-323 | a visit keeps the frontier settled: enqueued URLs are seen or queued, queued ones unseen, links of seen URLs seen or enqueued |
| `Worker.VisitGrows` | finploy_crawler.py:319-323 | a visit keeps earlier records and the seen-order prefix and enqueues only links of seen URLs |
| `Worker.DrainedIsClosed` | finploy_crawler.py:288-296 | settled with an empty queue, every link of every seen URL is seen |
| `Worker.Round` | finploy_crawler.py:281-323 | one pass of the loop keeps a settled frontier settled and keeps what the run keeps since its start; it stops only at the cap or with an empty queue, visits one URL only below the cap, and otherwise shortens the queue without a visit |
| `Worker.RoundStep` | finploy_crawler.py:281-323 | one pass stops only at the cap or on an empty queue, raises the seen count by at most one and only below the cap, and otherwise shortens the queue |
| `Worker.LinksOf` | finploy_crawler.py:304 | the links of each URL's rendering satisfy `Renders`, so the `Renders` precondition of `Worker.Worker` can always be met |
| `Worker.Worker` | finploy_crawler.py:279-325 | the loop terminates (measure: cap minus seen count, then queue length) at the cap or with an empty queue; each visit adds one seen URL; at most `MAX_PAGES` are seen unless more were at the start; earlier records and the seen-order prefix are kept; only enqueued URLs become seen; every newly enqueued URL is a link of a seen URL; from a settled frontier the frontier stays settled and an empty queue means the crawl is closed under links |

## Left out

- Concurrency is not modelled. This covers asyncio, the frontier's lock, the `asyncio.sleep` delays, several workers racing and `KeyboardInterrupt` handling. The frontier is a sequential object, which is sound because no frontier method awaits while holding state. With one worker, the `queue_count()` re-check after a failed dequeue always finds 0, so a failed dequeue ends the loop.
- All browser work is replaced by the `Page` a `render` function yields. This covers Playwright navigation, scrolling, the "view more" clicks, DOM queries, the regular-expression scans of `onclick` handlers and inline scripts, and `urljoin`. Candidates arrive already resolved, in the order the rules run.
- The `urllib` internals are not modelled: `urlparse`, `urlunparse`, `parse_qsl`, `urlencode` and percent-encoding. URLs are parsed records. Serialising a record and parsing it back is taken to give the record back.
- The `"page=" in h` prefilter on the serialised URL is not modelled. `urlencode` writes `page=` for every `page` key, and the look-ahead needs a `page` key anyway, so dropping the prefilter changes no result.
- `str.lower()` and `str.isdigit()` are modelled on ASCII only.
- `Discovery.PageNumber`: a `page` value made of non-ASCII decimal digits (`?page=\u0663`, ARABIC-INDIC DIGIT THREE) passes `isdigit()` and `int()` reads it as 3, so the source adds pages 4 to 8; the model reads no page number and adds nothing. A value holding a digit that `isdigit()` accepts but that is not a decimal digit (`?page=\u00B2`, SUPERSCRIPT TWO) makes `int()` raise ValueError; the single `try` of lines 260-275 then ends the whole look-ahead, so the rest of that URL's pages and every snapshot URL not yet processed add nothing. The model covers neither case. Nor does it cover CPython's limit on integer-string conversion (4300 digits by default since 3.11 and the 3.7.14, 3.8.14, 3.9.14 and 3.10.7 releases): on a `page` value of more than 4300 digits `int()` at line 267 raises ValueError, and `str(base_num + inc)` at line 269 raises once the sum reaches 10^4300; either way the same `try` ends the whole look-ahead. `Strings.DigitsValue` and `Strings.Decimal` are unbounded, so the model reads and prints such numbers and still adds five pages.
- `Strings.DigitsValue`: no limit on the number of digits; CPython's `int()` raises ValueError above 4300 digits (see `Discovery.PageNumber`).
- `Strings.Decimal`: no limit on the number of digits; CPython's `str()` raises ValueError for a number of more than 4300 digits (see `Discovery.PageNumber`).
- `datetime.utcnow()` becomes the `crawledAt` parameter.
- The `except Exception: pass` blocks around the canonical link, scrolling, each candidate rule and the look-ahead are not modelled. Each rule is taken to run to completion. A rule that fails part-way would add a prefix of its candidates. The usual cause in the source is `normalize_url` raising ValueError on a string `urlparse` rejects (such as `http://[x/`) rather than returning None. Candidates here are already-parsed records, so that case does not arise, and `Parsed.Unparsable` reaches only `is_allowed`, where the source catches it too.
- `Worker.LastModifiedOf`: models the header read that lines 311-314 evidently aim at. In Playwright's Python API `Response.headers` is a property holding a dict, not a method, so `await nav_response.headers()` at line 313 calls a dict and raises TypeError, which the `except` at line 315 catches: the source as written never records a `last-modified` value. The model records `Response.lastModified`; a `render` whose responses all carry no `lastModified` gives the source's behaviour.
- The sitemap writer, `main`'s seeding and browser launch, `close_async` and the `print` logging are not modelled.
- `Frontier.MemoryFrontier.FetchAllSeen`: the `.get(url, {})` default is never used, because every URL in the seen order is a key of `_seen` under the invariant.
- `Frontier.MemoryFrontier.MarkSeen`: the code lets the last write win, and the model follows it, although a first-write-wins reading of the frontier is also plausible. In the single-worker loop a URL is marked at most once, so the two agree there.
- `Urls.IsAllowed`: lower-casing is ASCII only, so a netloc written with U+212A KELVIN SIGN for `k` (`www.finploy.co.u\u212A`) is in scope in the source, where `lower()` maps it to `k`, and out of scope in the model. `Urls.RejectsCharacter` is stated for ASCII characters for this reason.
- `Worker.Iterate`: the worker is modelled on the corrected `render_and_extract` (`Discovery.RenderAndExtract`, see Findings). After a navigation error that is not a timeout, the model marks the URL seen with no status and carries on. The code as written raises ValueError at line 304: the URL is never marked seen, the worker dies and the run ends. `Worker.Round` and `Worker.Worker` inherit this.
- `Worker.Worker`: settledness and closure are promised only for a run that starts settled, as a freshly seeded frontier is (`Worker.SeededIsSettled`). From an arbitrary valid frontier, the loop still terminates and keeps every other property listed.

## Findings

| source | as written | input that shows it | evidently intended | confidence | as-written member | corrected member |
|---|---|---|---|---|---|---|
| finploy_crawler.py:161 | after a navigation error other than a timeout, `render_and_extract` returns the bare empty set `discovered`; the worker's `discovered, nav_response = ...` (line 304) then raises ValueError: the URL has been dequeued but is never marked seen, and the exception escapes the worker and `asyncio.gather`, which skips the sitemap write | any page whose `page.goto` raises an error that is not a timeout (`Navigation.Failed`) | `return discovered, None`: the visit counts as done with nothing found | not executed | `Discovery.NavigationErrorBreaksUnpack` (on `Discovery.ReturnedAsWritten`) | `Discovery.RenderAndExtract` |
