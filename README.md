# Klaviyo checkout-snapshot sync, modelled in Dafny

The system reads the members of a Klaviyo segment. For each member it finds
the newest "Checkout Started" (or "Started Checkout") event. It turns that
event into a compact `last_checkout_snapshot` (checkout URL, currency,
timestamp, line items), and then PATCHes the snapshot onto the profile or, in
a dry run, prints a summary of it. The pipeline exists twice:

- the GUI package (`klaviyo_gui/core`: the API client, the data processor and
  the data models, plus the validators and the configuration manager);
- the older standalone script `fetch_metrics.py`.

The two copies differ in their retry loops, the image fallback, the dry-run
printout and the bookkeeping of the main loop. The model keeps both.

Modules, one concept per module:

| module | models |
|---|---|
| `Json` (json.dfy) | decoded JSON values, Python truthiness, `or`, `or`-chains, `dict.get`, the exceptions that can escape (`Result`/`Failure`) |
| `Text` (text.dfy) | ASCII `str.strip()`, `str.lower()`, `int(str)`, `float(str)` for plain decimals |
| `Http` (http.dfy) | one HTTP exchange as seen by the transport; the 429 `Retry-After` rule shared by both retry loops |
| `Paging` (paging.dfy) | what the two paged reads share: the `links.next` of a page; the series of pages given ends |
| `ApiClient` (api_client.dfy) | the GUI client's `_get`/`_patch` retry loop and the PATCH payload |
| `Segments` (segments.dfy) | `get_segment_profiles`; the GUI and the script share it line for line |
| `Events` (events.dfy) | `iterate_profile_events` with the `find_matching_event` consumer, and the generator on its own |
| `Models` (models.dfy) | `LineItem`, `CheckoutSnapshot`, `ProfileInfo.display_email`, `ProcessingStats`, `SyncResult` and their `to_dict`s |
| `DataProcessor` (data_processor.dfy) | the GUI's snapshot extraction, display summary and `process_profiles` |
| `FetchMetrics` (fetch_metrics.dfy) | the script's retry loops, mapping with placeholder image, dry-run printout and `main` |
| `Validation` (validation.dfy) | the three input validators |
| `Settings` (settings.dfy) | the in-memory `ConfigManager`: the settings table, typed getters with their defaults, the API-key lookup order, import/export |

How the outside world enters the model:

- **The network.** Attempt `a` of a request receives `replies(a)`, which is a
  status, an optional `Retry-After` header and a body (None when the body is
  not JSON), or a connection failure. The model returns the sleeps the request
  would take, in order, and the number of requests sent.
- **Paged reads.** A paged read's k-th GET yields `pages[k]`. Its outcome is
  whatever the retry loop returns or raises. For the member loops, `eventPages(i)`
  holds member i's event pages and `patchOutcomes(i)` the result of member i's PATCH.
- **Cancellation.** The GUI's `should_stop()` is the oracle `shouldStop(i)`,
  asked at the top of iteration `i`.
- **Environment, keyring and config file.** These are plain input values
  (`PLACEHOLDER_IMAGE_URL`, `KLAVIYO_API_KEY`, what the keyring holds or
  whether it accepted a key, the table `load_config` read).
- **Exceptions.** A Python exception is an `Err(Failure)`, carried with `:-`.
  Calling `.get` on a non-dict is `AttributeError`. Iterating a non-iterable,
  or using a list or dict as a key, is `TypeError`. `int()` of a bad string,
  and a negative or unparseable `Retry-After`, are `ValueError`.

Each loop of the source is a method with loop invariants. Each method is
proved equal to a recursive specification function (`Run`, `SegmentRun`,
`FindFirstMatch`, `Process`, `Main`, `Imported`, ...). The properties are
lemmas about those functions.
Where the source promises something about a whole run, the lemma states it
about every run: `process_profiles`' counters, `main`'s counters, the
consumer finding the first target of the stream.

Where the code and its description differ, the model follows the code:

- **A `Retry-After` header that is not an integer.** It raises `ValueError`
  out of both retry loops; it does not fall back to two seconds. A negative
  value raises `ValueError` from `time.sleep`.
- **A 2xx GET whose body is not JSON.** The GUI's `_get` treats the failed
  `response.json()` as a `RequestException` and retries it (the behaviour of
  requests 2.27 and later). The script's `_get` returns `{}`.
- **The email in the dry-run printout.** The GUI summary uses `display_email`,
  which shows a falsy `properties.$email` as it is and `no-email` only when
  the key is absent. The script uses an `or`-chain ending in `-`.
- **`updated_at` in the script's printout.** The script prints the raw value
  (`snapshot.get('updated_at','-')`), so a snapshot with `updated_at: None`
  prints `None`, not `-`.
- **A non-dict page body.** When JSON decodes to a list or a string, the
  `.get` on it raises `AttributeError` in the paging loops.
- **A connection failure in the script.** It raises out of the script's loop
  at once. So the trailing `raise_for_status()` only ever sees a real
  response.

## Model

| member | source | states |
|---|---|---|
| Json.Or | klaviyo_gui/core/data_processor.py:51-54 | Python `a or b`: `a` when it is truthy, else `b` |
| Json.OrChainFirstTruthy | klaviyo_gui/core/data_processor.py:64-69 | in an `or`-chain the first truthy candidate wins, and the last candidate is the value when none before it is truthy |
| Json.OrChainTruthy | klaviyo_gui/core/data_processor.py:109-114 | an `or`-chain is truthy exactly when one of its candidates is |
| Json.OrChainPicks | klaviyo_gui/core/data_processor.py:85-116 | every `or`-chain yields what `Picks` describes: the first truthy candidate, else the last |
| Json.LookupAt | klaviyo_gui/core/data_processor.py:33 | `d.get(k, default)` finds the first entry with key `k` |
| Json.LookupAbsent | klaviyo_gui/core/models.py:63-64 | `d.get(k, default)` is the default when `k` is absent |
| Json.LookupDistinct | klaviyo_gui/core/models.py:22-29 | in a dict with distinct keys each entry is found by its own key |
| Json.LookupOrLookup | fetch_metrics.py:252 | `d.get(k)` and `d.get(k, default)` differ only when `k` is absent, the one giving None and the other the default |
| Json.AsDict | klaviyo_gui/core/data_processor.py:82 | calling `.get` succeeds exactly on a dict, with its entries, and raises AttributeError otherwise |
| Json.OrEmptyDict | klaviyo_gui/core/data_processor.py:51 | `(v or {})` used as a dict: a falsy value is the empty dict; a truthy one must be a dict |
| Json.Iterate | klaviyo_gui/core/api_client.py:159 | `for x in v`: a list yields its elements; a string or a dict yields as many items as it has characters or keys; anything else raises |
| Json.Put | klaviyo_gui/core/api_client.py:209 | `d[k] = v`: `k` now maps to `v`, and every other key keeps its value |
| Text.StripSlice | klaviyo_gui/utils/validation.py:7 | `s.strip()` is a contiguous slice of `s` |
| Text.StripSpec | klaviyo_gui/utils/validation.py:7 | `strip()` cuts only whitespace on either side and leaves a string that neither starts nor ends with whitespace |
| Text.StripEmptyIffBlank | klaviyo_gui/utils/validation.py:11 | a string strips to nothing exactly when it is all whitespace |
| Text.StripIdempotent | klaviyo_gui/core/data_processor.py:44 | stripping twice strips nothing more |
| Text.Lower | klaviyo_gui/core/data_processor.py:132 | `lower()` keeps the length and folds each ASCII capital to its small letter |
| Text.ParseInt | klaviyo_gui/core/api_client.py:61 | `int(str)` reads a number exactly when the stripped text is an optional sign and one or more digits, so a blank string is refused |
| Text.IntegerOf | klaviyo_gui/core/data_processor.py:76 | an integer text is accepted exactly when it is an optional sign and at least one digit; plain digits read as their decimal value, `-` negates it, `+` keeps it |
| Text.Show | klaviyo_gui/core/api_client.py:61 | the decimal rendering of a natural is a nonempty run of digits whose value is that natural |
| Text.ParseIntShow | klaviyo_gui/core/api_client.py:61 | `int()` reads back any integer written in decimal, whatever whitespace surrounds it |
| Text.StripPadded | klaviyo_gui/utils/validation.py:7 | stripping a text padded with whitespace on both sides gives back the text when it neither starts nor ends with whitespace |
| Text.TrimLeftPadded | klaviyo_gui/utils/validation.py:7 | leading whitespace is removed up to the first non-space character |
| Text.TrimRightPadded | klaviyo_gui/utils/validation.py:7 | trailing whitespace is removed back to the last non-space character |
| Text.ParseDecimal | klaviyo_gui/core/data_processor.py:44 | `float(str)` reads a number exactly when the stripped text is plain decimal notation; whatever `int()` accepts is read as the same number |
| Text.DecimalOf | klaviyo_gui/core/data_processor.py:44 | a leading `-` negates the unsigned reading of the rest and a leading `+` keeps it; without a sign the text is read unsigned |
| Text.DecimalOfInteger | klaviyo_gui/core/data_processor.py:44 | `float()` of an integer text is that integer |
| Text.UnsignedDecimal | klaviyo_gui/core/data_processor.py:44 | a nonempty run of digits reads as its decimal value; the empty text is no number |
| Text.DecimalOfAccepts | klaviyo_gui/core/data_processor.py:44 | a text is read as a number exactly when it is an optional sign, digits and at most one decimal point, with at least one digit |
| Text.UnsignedDecimalForm | klaviyo_gui/core/data_processor.py:44 | every unsigned text that is read has the plain-decimal form |
| Text.UnsignedDecimalAccepted | klaviyo_gui/core/data_processor.py:44 | every unsigned text of the plain-decimal form is read |
| Text.DecimalOfPoint | klaviyo_gui/core/data_processor.py:44 | `w.f` reads as the whole part plus the fraction digits over the power of ten of their count |
| Text.UnsignedPoint | klaviyo_gui/core/data_processor.py:44 | the unsigned reading of `w.f` is the whole part plus the scaled fraction |
| Text.DotIndexAt | klaviyo_gui/core/data_processor.py:44 | the first decimal point of digits followed by `.` is right after the digits |
| Text.DotIndex | klaviyo_gui/core/data_processor.py:44 | the index found is that of the first decimal point, or the length when there is none |
| Text.ParseDecimalPoint | klaviyo_gui/core/data_processor.py:44 | `float()` reads `w.f` surrounded by whitespace as its value |
| Text.ParseDecimalStripped | klaviyo_gui/core/data_processor.py:44 | `float(s.strip())` reads what `float(s)` reads |
| Http.RateLimited | klaviyo_gui/core/api_client.py:60-64 | a 429 either retries or raises ValueError; it retries exactly when `Retry-After` reads as a non-negative integer, and then waits that many seconds |
| Http.RateLimitedSeconds | klaviyo_gui/core/api_client.py:60-64 | a `Retry-After` of `n` seconds, padded or not, waits `n` seconds |
| Http.RateLimitedNegative | klaviyo_gui/core/api_client.py:60-64 | a negative `Retry-After` raises ValueError (from `time.sleep`) |
| Http.RateLimitedUnparseable | klaviyo_gui/core/api_client.py:60-64 | a `Retry-After` that is no integer raises ValueError (from `int()`) |
| Http.RateLimitedDefault | klaviyo_gui/core/api_client.py:61 | without a `Retry-After` header the wait is two seconds |
| Http.PrefixedTwice | klaviyo_gui/core/api_client.py:51-80 | the sleeps and requests of two attempts in a row add up |
| ApiClient.Attempt | klaviyo_gui/core/api_client.py:52-124 | the loop body, branch by branch, does what the specification `Step` says for each reply |
| ApiClient.Request | klaviyo_gui/core/api_client.py:47-126 | `_get`/`_patch` return the outcome, sleeps and request count of `Run` |
| ApiClient.Advance | klaviyo_gui/core/api_client.py:51-124 | one pass of the retry loop either ends the request as `Run` does or sleeps and moves on to the next attempt |
| ApiClient.RunRetry | klaviyo_gui/core/api_client.py:64 | an attempt that retries adds its wait and one request to the rest |
| ApiClient.RunFinish | klaviyo_gui/core/api_client.py:73 | an attempt that finishes ends the request after one more request |
| ApiClient.RunEnd | klaviyo_gui/core/api_client.py:82 | when the attempts have run out the client sends nothing more and returns `{}` |
| ApiClient.SentBound | klaviyo_gui/core/api_client.py:51 | no request is sent exactly when no attempt is left; at most `max_retries` are sent; never more sleeps than requests |
| ApiClient.AllTransientReturnsEmpty | klaviyo_gui/core/api_client.py:82 | when every attempt meets a 5xx or a retried 429, the result is `{}` after all `max_retries` requests |
| ApiClient.ServerErrorBackoff | klaviyo_gui/core/api_client.py:66-70 | a run of 5xx replies sleeps `2 ** a` after attempt `a`, once per attempt |
| ApiClient.ClientErrorRetried | klaviyo_gui/core/api_client.py:72-80 | a repeated 4xx (other than 429) raises its HTTPError only on the last attempt, after `max_retries - 1` exponential sleeps |
| ApiClient.RateLimitThenSuccess | klaviyo_gui/core/api_client.py:60-64 | a 429 followed by a 200 sleeps the `Retry-After` time (two when absent) and returns the body after two requests |
| ApiClient.PatchResendsOtherSuccess | klaviyo_gui/core/api_client.py:111-117 | `_patch` resends after a 2xx other than 200/202 without sleeping, and returns `{}` when every attempt gets one |
| ApiClient.AcceptedBodies | klaviyo_gui/core/api_client.py:73-115 | `_patch` takes a 200/202 with a body that is not JSON as `{}`; `_get` retries a 2xx whose body is not JSON after one second |
| ApiClient.PayloadFields | klaviyo_gui/core/api_client.py:218-234 | the PATCH body is `{"data": {"type": "profile", "id": id, "attributes": {"properties": {"last_checkout_snapshot": snapshot}}}}`, with exactly these keys |
| Segments.Assign | klaviyo_gui/core/api_client.py:163 | `profiles[id] = attrs`: a known id keeps its place and takes the new value; a new id goes last; no id is duplicated |
| Segments.SegmentPage | klaviyo_gui/core/api_client.py:157-173 | a page says "next page" only when its `links.next` is truthy, and "last page" only when it is not |
| Segments.GetSegmentProfiles | klaviyo_gui/core/api_client.py:140-179 | the `while True` loop returns the result and page count of `SegmentRun` |
| Segments.CollectRowsBounds | klaviyo_gui/core/api_client.py:159-167 | one page's rows keep the ids distinct and stop exactly at the limit, never exceeding a positive limit |
| Segments.CollectRowsMembers | klaviyo_gui/core/api_client.py:159-163 | members only accumulate; each is an earlier one or an id of a `profile` row; a page read to its end adds every `profile` row's id |
| Segments.SegmentPageSpec | klaviyo_gui/core/api_client.py:157-171 | one page keeps distinct ids and what was there, stays within a positive limit, and ends the read early only at the limit; its dict is `profiles[id] = attributes` applied to all its rows, or to the first `n` when the `n`-th reached the limit |
| Segments.SegmentRunSpec | klaviyo_gui/core/api_client.py:153-179 | from any page the rest of the read keeps distinct ids, at most a positive limit, and stops on a linking page only at the limit, with exactly `limit` members; its dict is `profiles[id] = attributes` applied to the rows it went through |
| Segments.SegmentLastPage | klaviyo_gui/core/api_client.py:165-171 | a page on which the read stops keeps that invariant |
| Segments.SegmentProfilesSpec | fetch_metrics.py:92-115 | the whole read: distinct ids; at most `limit` with a positive limit and exactly `limit` if it stopped on a linking page; without a limit it reads to a page with no next link; every id is that of a `profile` row on a page requested, holding the attributes of its last such row read, and unless the limit was reached every such row's id is present; and it ends as `ReadEnds` says: every page before the last one requested was returned, read to its end below the limit and linked on, the last one did not link on, and the rows read stop at the first `profile` row that reaches the limit |
| Segments.BelowLimitBefore | klaviyo_gui/core/api_client.py:165-167 | a `profile` row before the point where a read stops did not bring the dict to the limit |
| Segments.NotReachedBefore | klaviyo_gui/core/api_client.py:165-167 | no row before the stopping point reached the limit |
| Segments.StopsAtUnique | klaviyo_gui/core/api_client.py:159-167 | the point where the row loop stops is unique: the first `profile` row reaching the limit, or the end of the rows |
| Segments.BelowLimitAppend | klaviyo_gui/core/api_client.py:159-167 | rows read below the limit followed by more rows read below the limit from where they left off are read below the limit |
| Segments.ReachedAppend | klaviyo_gui/core/api_client.py:159-167 | rows read below the limit followed by rows that reach it at their `n`-th reach it at the concatenation's `|a| + n`-th, with the same dict |
| Segments.RowsStopAfterHead | klaviyo_gui/core/api_client.py:159-167 | where one row is read below the limit, the loop over the rest stops where the loop over all the rows does |
| Segments.CollectRowsFirst | klaviyo_gui/core/api_client.py:159-167 | the row loop returns at the first `profile` row that reaches the limit, with the dict of the rows up to it, or goes through all rows below the limit |
| Segments.SegmentPageStops | klaviyo_gui/core/api_client.py:157-171 | a page that ends the read at the limit stops at its first `profile` row reaching it; any other page it reads wholly below the limit |
| Segments.DictAtNext | klaviyo_gui/core/api_client.py:159-163 | the dict on reaching a page is that on reaching the page before, with that page's rows assigned |
| Segments.PassedToNext | klaviyo_gui/core/api_client.py:157-173 | a page that links on passes on and leaves the dict of all rows up to it |
| Segments.FetchedAfterPass | klaviyo_gui/core/api_client.py:169-173 | a page that passes on, followed by the read from the next page, is the read from that page |
| Segments.SegmentRunFetched | klaviyo_gui/core/api_client.py:153-179 | from any page reached with the dict of the pages before it, every page requested before the last one was returned and linked on, the last did not, and the result is that page's exception or dict |
| Segments.PassedBelowLimit | klaviyo_gui/core/api_client.py:159-173 | pages that all linked on were read wholly below the limit |
| Segments.ReadStopsAtFirstReach | klaviyo_gui/core/api_client.py:153-179 | a read whose pages end as `SegmentRunFetched` says read its rows up to the first `profile` row reaching the limit, or all of them, and no earlier than the last page |
| Segments.SegmentFetchedUpTo | fetch_metrics.py:101-115 | `get_segment_profiles` requests pages until the first that does not link on, and returns the dict of the rows up to the first `profile` row reaching the limit |
| Segments.FirstReachKept | klaviyo_gui/core/api_client.py:163-167 | two rows for the same id on one page with limit 1: the read returns the first row's attributes, since it stops before the second |
| Segments.TwoRowsStop | klaviyo_gui/core/api_client.py:163-167 | on that page the row loop stops after the first row, with its attributes |
| Segments.ReachingPageIsLast | klaviyo_gui/core/api_client.py:165-167 | a page that reaches the limit is the last one requested, even when it links to another |
| Segments.AssignRowsAppend | klaviyo_gui/core/api_client.py:159-163 | applying `profiles[id] = attributes` to two runs of rows one after the other is applying it to their concatenation |
| Segments.AssignRowsKeys | klaviyo_gui/core/api_client.py:159-163 | after `profiles[id] = attributes` over rows the old ids stay, each id was there before or is a `profile` row's, and every `profile` row's id is present |
| Segments.AssignRowsValues | klaviyo_gui/core/api_client.py:163 | each id holds the `attributes or {}` of its last `profile` row, or, when no row names it, the value it had |
| Segments.CollectRowsAssigns | klaviyo_gui/core/api_client.py:159-167 | the row loop applies `profiles[id] = attributes` to all of a page's rows when the page runs out, and to the first `n` when the `n`-th reaches the limit |
| Segments.RowsOfLast | klaviyo_gui/core/api_client.py:153-173 | the rows of pages `k` to `n` are those of pages `k` to `n - 1` followed by page `n`'s |
| Segments.SegmentRunReads | klaviyo_gui/core/api_client.py:153-179 | the rest of the read applies `profiles[id] = attributes` to every row of the pages before the last one requested and to the rows it read of that one, all of them unless the limit was reached |
| Segments.ReadsThroughPage | klaviyo_gui/core/api_client.py:159-173 | a page read to its end and left for the next one contributes all its rows, ahead of those the rest of the read goes through |
| Segments.SegmentRunStops | klaviyo_gui/core/api_client.py:165-171 | the read stops on a page that fails, reaches the limit or has no next link, returning what that page gave and having requested it last |
| Segments.ReadsOnLastPage | klaviyo_gui/core/api_client.py:159-171 | the page the read stops on contributes its rows up to the one that reached the limit, or all of them |
| Segments.ProfilesFromReads | klaviyo_gui/core/api_client.py:159-163 | a whole read that applied `profiles[id] = attributes` to the rows it went through holds only ids of `profile` rows of the pages requested, each with its last such row's attributes, and, unless the limit was reached, every such row's id |
| Segments.ReadIsPrefix | klaviyo_gui/core/api_client.py:153-173 | the rows gone through lead the rows of the pages requested, and are all of them when the last page was read to its end |
| Segments.ReadRowsHold | klaviyo_gui/core/api_client.py:159-163 | on values: a dict built from a prefix of the rows has ids of `profile` rows only, each holding its last such row's attributes, and every `profile` row's id when the prefix is all the rows |
| Segments.NegativeLimitStopsAtFirst | fetch_metrics.py:108 | a negative limit is truthy and already met, so the read returns after the first profile row |
| Events.CollectMetricNamesSpec | klaviyo_gui/core/api_client.py:197-203 | the per-page lookup holds exactly the declarations with a truthy id and a truthy name, a later one for the same id winning |
| Events.Annotate | klaviyo_gui/core/api_client.py:207-209 | an annotated event keeps every other key and gets `_metric_name` = the lookup's name for its metric id, or "" |
| Events.MetricLabel | klaviyo_gui/core/data_processor.py:132 | the label is "" for a falsy `_metric_name`, else the stripped, lower-cased name |
| Events.TargetNames | klaviyo_gui/core/data_processor.py:23-25 | the targets, "checkout started" and "started checkout", are exactly the two names `.lower()`ed |
| Events.EventPage | klaviyo_gui/core/api_client.py:193-216 | a page without a target passes on its own `links.next` |
| Events.BuildMetricNames | klaviyo_gui/core/api_client.py:197-203 | the lookup-building loop returns `CollectMetricNames` |
| Events.FindMatchingEvent | klaviyo_gui/core/data_processor.py:129-135 | the consumer driving the generator returns what `FindFirstMatch` gives, and the pages fetched |
| Events.FirstTargetFound | klaviyo_gui/core/data_processor.py:131-134 | the consumer returns the first event of the stream that matches, every earlier one being a readable non-target |
| Events.FirstTargetNone | klaviyo_gui/core/data_processor.py:135 | the consumer returns None exactly when every event of the stream is a readable non-target |
| Events.FirstTargetAppend | klaviyo_gui/core/data_processor.py:131 | searching a concatenated stream searches the first part, then the second when the first has no target |
| Events.StartPage | klaviyo_gui/core/api_client.py:194-206 | a page that gets past its metric lookup is a dict, and its `data` iterates to the events it goes on to yield |
| Events.ReadPageStart | klaviyo_gui/core/api_client.py:194-206 | the steps before the first `yield` of a page return `StartPage` |
| Events.YieldUntilError | klaviyo_gui/core/api_client.py:206-210 | a yield loop yields the values before the first exception, in order, then raises that exception; it raises nothing exactly when every value computes |
| Events.Annotations | klaviyo_gui/core/api_client.py:206-209 | one result per event of the page, result `i` being the annotation of event `i` |
| Events.PageYield | klaviyo_gui/core/api_client.py:193-214 | a page that yields without an exception passes on its own `links.next` |
| Events.StreamStep | klaviyo_gui/core/api_client.py:193-216 | the stream from a returned page is what that page yields, followed by the stream from the next page when the page ends without an exception and links on |
| Events.Settle | klaviyo_gui/core/data_processor.py:129-135 | the consumer returns the first target it meets; None only when it met none and the stream ended without an exception; otherwise the exception of a metric name or the one that ended the stream |
| Events.ConsumeAppend | klaviyo_gui/core/data_processor.py:131-135 | consuming events followed by a stream decides on those events first; the stream matters only when they hold no target and raise nothing |
| Events.FirstTargetFails | klaviyo_gui/core/data_processor.py:131-132 | a consumer that raises on events raised on the first unreadable metric name, every earlier event being a readable non-target |
| Events.FirstTargetAt | klaviyo_gui/core/data_processor.py:131-134 | a target preceded only by readable non-targets is what the consumer returns, whatever follows it |
| Events.ScanMatchesConsume | klaviyo_gui/core/api_client.py:206-210 | the fused annotate-and-test loop of one page is the consumer on what that page's annotation loop yields |
| Events.PageScanAgrees | klaviyo_gui/core/api_client.py:193-214 | the page scan finds the consumer's target on what the page yields, raises the consumer's exception, or else passes on the page's next link |
| Events.PageStepAgrees | klaviyo_gui/core/api_client.py:212-216 | one page, on values: a page that agrees with the consumer makes the search's next step the consumer on that page followed by the rest of the stream |
| Events.LazyScanMatchesStream | klaviyo_gui/core/data_processor.py:129-135 | for every run of pages, `find_matching_event` returns what the consumer makes of the stream `iterate_profile_events` yields, its events and the exception, if any, that ends it; a target is returned even when a later event or page would raise |
| Events.FindMatchingEventSpec | klaviyo_gui/core/data_processor.py:129-135 | over the stream `iterate_profile_events` yields: an event found is a target whose predecessors are readable non-targets; None exactly when the stream ends without an exception and holds only readable non-targets; an exception is that of the first unreadable metric name or, after readable non-targets only, the one that ended the stream |
| Events.TargetReturned | klaviyo_gui/core/data_processor.py:131-134 | the converse of the found case: the stream's first target, with only readable non-targets before it, is returned |
| Events.ScanPassesOn | klaviyo_gui/core/api_client.py:212-216 | on values: a scan that agrees with the consumer moves on exactly when the page yields only readable non-targets, ends without an exception and links on |
| Events.PassesOnScan | klaviyo_gui/core/api_client.py:193-216 | a page passes on exactly when its scan finds nothing and its next link is truthy; an event the scan finds is the consumer's first target on that page |
| Events.FindFirstMatchNext | klaviyo_gui/core/api_client.py:212-216 | a page that passes on leads to the next page, which exists |
| Events.FindFirstMatchStops | klaviyo_gui/core/api_client.py:212-214 | a page that does not pass on ends the search, as the last page requested; an event found is that page's first target |
| Events.FoundOnFetchedPage | klaviyo_gui/core/data_processor.py:131-134 | an event the search finds is the consumer's first target on the last page requested |
| Events.FetchedStops | klaviyo_gui/core/api_client.py:212-214 | the search stops at a page that does not pass on, within the pages given |
| Events.FetchedPassedOn | klaviyo_gui/core/api_client.py:212-216 | every page requested before the last one passed on |
| Events.FetchedUpTo | klaviyo_gui/core/api_client.py:193-216 | `fetched` is one more than the index of the first page that does not pass on: every page before it passed on, none after it is requested, and an event found is the first target on that page |
| Events.FindFirstMatchStep | klaviyo_gui/core/api_client.py:193-216 | the search from a returned page: that page's scan decides, or the next page does |
| Models.LineItemToDict | klaviyo_gui/core/models.py:20-29 | `to_dict` has exactly the six keys, in order |
| Models.LineItemRoundTrip | klaviyo_gui/core/models.py:20-29 | reading the dict back restores every field of the line item |
| Models.ItemsToDicts | klaviyo_gui/core/models.py:46 | the items map element-wise, same length and order |
| Models.SnapshotToDict | klaviyo_gui/core/models.py:40-47 | `to_dict` has exactly the keys checkout_url, currency, updated_at and items |
| Models.ItemsRoundTrip | klaviyo_gui/core/models.py:46 | reading the item dicts back restores the items |
| Models.SnapshotDictLookups | klaviyo_gui/core/models.py:42-47 | each key of the snapshot's dict holds its field, and `items` the mapped items |
| Models.SnapshotRoundTrip | klaviyo_gui/core/models.py:40-47 | reading the snapshot's dict back restores the snapshot |
| Models.DisplayEmail | klaviyo_gui/core/models.py:57-64 | a truthy email is used; otherwise `properties.$email`, or `no-email` when absent; a non-dict `properties` raises |
| Models.ProgressPercentage | klaviyo_gui/core/models.py:78-83 | 0 with no profiles, else the percentage `processed * 100 / total_profiles` |
| Models.ProgressBounds | klaviyo_gui/core/models.py:78-83 | with processed within the total, progress lies between 0 and 100 |
| Models.StatsToDict | klaviyo_gui/core/models.py:85-96 | the stats dict has the seven counters and the percentage, in order |
| Models.StatsCounterLookups | klaviyo_gui/core/models.py:87-94 | each counter key of the stats dict holds the counter of its name |
| Models.StatsRoundTrip | klaviyo_gui/core/models.py:85-96 | each counter is read back from its key unchanged and `progress_percentage` holds the percentage |
| Models.NewSyncResult | klaviyo_gui/core/models.py:99-105 | `SyncResult(success, stats)` has no error message and no dry-run results |
| Models.SyncResultToDict | klaviyo_gui/core/models.py:107-114 | the result dict has the four keys; `success` is the flag, `stats` is `stats.to_dict()`, `error_message` is the text or None, and `dry_run_results` is None exactly when there are none, else a list with one string per summary |
| DataProcessor.FirstSrc | klaviyo_gui/core/data_processor.py:27-36 | `arr[0]["src"]` exactly when `arr` is a non-empty list whose first element is a dict, else None |
| DataProcessor.CoerceFloat | klaviyo_gui/core/data_processor.py:38-47 | never raises: an int, float or bool gives its value; a string gives its stripped parsed value or 0.0; anything else 0.0 |
| DataProcessor.Truncate | klaviyo_gui/core/data_processor.py:76 | float to int truncates toward zero |
| DataProcessor.PyInt | klaviyo_gui/core/data_processor.py:76 | `int(v)`: an int as it is; a bool 0/1; a float truncated; a string parsed, else ValueError; None, list or dict TypeError |
| DataProcessor.PickImageUrl | klaviyo_gui/core/data_processor.py:49-59 | the variant's first image `src` when truthy, else the product's; it raises exactly when product or variant is a truthy non-dict |
| DataProcessor.VariantIdOf | klaviyo_gui/core/data_processor.py:73 | a truthy `variant_id` wins; otherwise `product.variant.id`, raising when the variant is a truthy non-dict |
| DataProcessor.LineItemSpec | klaviyo_gui/core/data_processor.py:61-78 | title `product.title` → `presentment_title` → `title` → ""; variant id, image and price as above; a falsy quantity is 0; a well-shaped item always converts |
| DataProcessor.MapLineItems | klaviyo_gui/core/data_processor.py:98 | the comprehension succeeds exactly when every item converts, with one item per source item in order |
| DataProcessor.BagsOf | klaviyo_gui/core/data_processor.py:82-88 | props and extra are the first truthy of their probes, each required to be a dict |
| DataProcessor.EventToSnapshotSpec | klaviyo_gui/core/data_processor.py:80-127 | None exactly when the URL is falsy and there are no items; otherwise every field is the first truthy entry of its probe list, the currency is always set, and items map one-to-one in order |
| DataProcessor.ItemLines | klaviyo_gui/core/data_processor.py:145-147 | two lines per item, numbered from 1, with `-` for a falsy image |
| DataProcessor.DisplaySummary | klaviyo_gui/core/data_processor.py:137-149 | `4 + 2 * len(items)` lines: profile and email, URL or `-`, currency and timestamp or `-`, item count, then the item lines; fails exactly when `display_email` does |
| DataProcessor.SummarizeForDisplay | klaviyo_gui/core/data_processor.py:137-149 | the line-building loop returns `DisplaySummary` |
| DataProcessor.TryProfile | klaviyo_gui/core/data_processor.py:205-231 | the per-member `try` block returns what `TryMember` gives and, in a live run, adds no summary |
| DataProcessor.TryFound | klaviyo_gui/core/data_processor.py:208-231 | once `find_matching_event` has returned or raised, the block does what `TryMember` says of that result and, in a live run, adds no summary |
| DataProcessor.TryConverted | klaviyo_gui/core/data_processor.py:213-231 | after conversion the block does what `Converted` says and, in a live run, adds no summary |
| DataProcessor.ProcessMember | klaviyo_gui/core/data_processor.py:188-239 | one iteration of the member loop does what `HandleMember` says |
| DataProcessor.ProcessProfiles | klaviyo_gui/core/data_processor.py:151-258 | `process_profiles` returns the result and PATCH list of `Process` |
| DataProcessor.ProcessMembers | klaviyo_gui/core/data_processor.py:188-239 | the member loop ends as `Loop` does and keeps dry-run results exactly in a dry run |
| DataProcessor.TryMemberEffect | klaviyo_gui/core/data_processor.py:205-231 | each `try` block ends in one of seven ways: raised, no event, no snapshot, or matched and summarised, PATCHed or failed |
| DataProcessor.ConvertedEffect | klaviyo_gui/core/data_processor.py:213-231 | the same seven ways, once the event has been converted |
| DataProcessor.HandleMemberAccounts | klaviyo_gui/core/data_processor.py:193-235 | one member keeps the bookkeeping, counts itself as processed at most once, and only adds to summaries and writes |
| DataProcessor.HandleMemberProgress | klaviyo_gui/core/data_processor.py:199-235 | a member the loop goes on from was processed; a dry run keeps a summary per match; a returning PATCH keeps every match updated |
| DataProcessor.AdmittedAccounts | klaviyo_gui/core/data_processor.py:199-235 | a member with dict attributes keeps the bookkeeping |
| DataProcessor.AdmittedProgress | klaviyo_gui/core/data_processor.py:199-235 | a member with dict attributes advances |
| DataProcessor.CaughtAccounts | klaviyo_gui/core/data_processor.py:233-235 | the `except` clause counts the error, so the member is counted exactly once |
| DataProcessor.CaughtProgress | klaviyo_gui/core/data_processor.py:233-235 | after the `except` clause a dry run still has a summary per match and a live run still has every match updated |
| DataProcessor.StepsAccounted | klaviyo_gui/core/data_processor.py:188-239 | every member step of the segment keeps the bookkeeping |
| DataProcessor.StepsAdvance | klaviyo_gui/core/data_processor.py:188-239 | every member step advances, and keeps every match updated when its PATCH returns |
| DataProcessor.LoopAccounts | klaviyo_gui/core/data_processor.py:188-239 | the member loop keeps the bookkeeping and the total, processes at most every member, and only adds to summaries and writes |
| DataProcessor.LoopStops | klaviyo_gui/core/data_processor.py:188-191 | without an escaping exception the loop ended at the end of the segment or at the first stop request |
| DataProcessor.LoopAllUpdated | klaviyo_gui/core/data_processor.py:224-227 | with every PATCH returning, every matched member is updated, even when a later exception ends the loop |
| DataProcessor.ProcessSpec | klaviyo_gui/core/data_processor.py:172-258 | success iff no error message; success means members were found and all processed up to the first stop request; every processed member counted once; `updated <= matched <= processed <= total`; dry run: no PATCH and one summary per match; live: one PATCH per match |
| DataProcessor.TryMemberThrows | klaviyo_gui/core/data_processor.py:205-227 | the `try` block raises exactly when the event search, the conversion, the dry-run summary or the live PATCH raises |
| DataProcessor.HandleMemberEscapes | klaviyo_gui/core/data_processor.py:193-235 | an iteration lets an exception out exactly when the attributes are no dict or the `try` block raises and the email for the log line cannot be read; what escapes is AttributeError; an iteration that goes on has counted the member as processed |
| DataProcessor.MemberErrorCounted | klaviyo_gui/core/data_processor.py:233-235 | a raising `try` block with a readable email counts one processed member and one error and the loop goes on; when the event search raised, nothing else changes |
| DataProcessor.MemberWithoutError | klaviyo_gui/core/data_processor.py:205-235 | a `try` block that does not raise leaves the error count alone and the loop goes on |
| DataProcessor.StepsEscape | klaviyo_gui/core/data_processor.py:188-239 | every member of the segment escapes the loop exactly as `MemberEscapes` says, with AttributeError |
| DataProcessor.LoopReaches | klaviyo_gui/core/data_processor.py:188-199 | a loop whose members before `k` go on and that stops at `k` (or runs out) ends without an exception, having processed `k` members |
| DataProcessor.LoopCrashes | klaviyo_gui/core/data_processor.py:188-239 | a loop whose member `k` lets an exception out ends with that exception |
| DataProcessor.ProcessStopsAt | klaviyo_gui/core/data_processor.py:185-249 | a run whose members before `k` neither escape nor stop, and that stops at `k` or runs out, succeeds with no message, `processed == k` and the segment size as total |
| DataProcessor.ProcessCrashesAt | klaviyo_gui/core/data_processor.py:188-258 | a run whose member `k` lets an exception out fails with the text of AttributeError as its message |
| DataProcessor.SegmentReadFails | klaviyo_gui/core/data_processor.py:172-177 | a segment read that raises fails the run with that exception's text, fresh counters, an empty summary list only in a dry run, and no PATCH |
| DataProcessor.EmptySegment | klaviyo_gui/core/data_processor.py:178-183 | an empty segment: no success, "no profiles" naming the segment, fresh counters, nothing sent |
| DataProcessor.StopBeforeFirst | klaviyo_gui/core/data_processor.py:188-191 | a stop before the first member succeeds with nothing processed and the total reported |
| FetchMetrics.Attempt | fetch_metrics.py:52-66 | the loop body, branch by branch, does what the specification `Step` says for each reply |
| FetchMetrics.RunFromRetry | fetch_metrics.py:57 | an attempt that retries adds its wait and one request to the rest |
| FetchMetrics.RunFromFinish | fetch_metrics.py:62-66 | an attempt that finishes ends the request after one more request |
| FetchMetrics.RunFromEnd | fetch_metrics.py:67-68 | when the attempts have run out nothing more is sent and the last response decides the outcome |
| FetchMetrics.Advance | fetch_metrics.py:51-88 | one pass of the retry loop either ends the request as `Run` does or sleeps and moves on to the next attempt |
| FetchMetrics.RunEnds | fetch_metrics.py:67-68 | once the attempts are used up, the request's outcome is the code after the loop, behind the sleeps and requests made so far |
| FetchMetrics.Request | fetch_metrics.py:51-88 | the script's `_get`/`_patch` return the outcome, sleeps and request count of `Run` |
| FetchMetrics.SentBound | fetch_metrics.py:52 | at least one and at most `retry` requests when `retry > 0`; none otherwise; never more sleeps than requests |
| FetchMetrics.ClientErrorRaisesAtOnce | fetch_metrics.py:62 | an error status other than 429/5xx raises on its first attempt, without any retry |
| FetchMetrics.UnparseableGetIsEmpty | fetch_metrics.py:63-66 | a 2xx GET whose body is not JSON returns `{}` at once |
| FetchMetrics.NoAttempts | fetch_metrics.py:67 | with no attempts, the trailing `r.raise_for_status()` fails on the unbound `r` |
| FetchMetrics.PersistentServerError | fetch_metrics.py:58-61 | all-5xx replies: `retry` requests with `2 ** a` sleeps, then `raise_for_status` raises the last status |
| FetchMetrics.PatchOtherSuccess | fetch_metrics.py:83-88 | a PATCH answered with another 2xx is resent `retry` times without sleeping and returns `{}` |
| FetchMetrics.Placeholder | fetch_metrics.py:34 | an unset or empty `PLACEHOLDER_IMAGE_URL` gives None, otherwise its value |
| FetchMetrics.PickImageUrlSpec | fetch_metrics.py:175-180 | images fall back variant → product → placeholder; the pick fails exactly when the GUI's does |
| FetchMetrics.LineItemAgrees | fetch_metrics.py:183-193 | the script's item dict has the six keys and the script's image; with no placeholder it is the GUI item's `to_dict` |
| FetchMetrics.WithImages | fetch_metrics.py:206 | the placeholder touches only the items' images, element-wise |
| FetchMetrics.EventToSnapshotAgrees | fetch_metrics.py:196-230 | the script converts and drops the same events as the GUI and returns the four-key dict of the GUI snapshot |
| FetchMetrics.EmailAgrees | fetch_metrics.py:252 | the script's email chain and `display_email` fail together; they agree on a truthy email or `$email`; past those the script shows its fallback |
| FetchMetrics.ItemsToPrint | fetch_metrics.py:257-259 | only a list of items can be printed, and it is printed as it is |
| FetchMetrics.PrintItemLines | fetch_metrics.py:259-265 | succeeds exactly when every item is a dict, with two printed lines per item and `-` for a falsy title or image |
| FetchMetrics.SummarizeForPrint | fetch_metrics.py:251-266 | the printout method returns `PrintSummary` |
| FetchMetrics.AppendItemLines | fetch_metrics.py:259-265 | the item loop appends `PrintItemLines`, or fails on the first non-dict item |
| FetchMetrics.PrintSummarySpec | fetch_metrics.py:251-266 | `4 + 2 * len(items)` lines: email → `$email` → `-`, URL or `-`, currency or `USD` and the raw `updated_at`, count, items |
| FetchMetrics.ProcessMember | fetch_metrics.py:293-323 | one iteration of `main`'s loop does what `HandleMember` says |
| FetchMetrics.ProcessConverted | fetch_metrics.py:305-323 | after conversion the loop body does what `Converted` says |
| FetchMetrics.DeliverSnapshot | fetch_metrics.py:312-323 | the print or guarded PATCH does what `Deliver` says |
| FetchMetrics.RunMain | fetch_metrics.py:270-335 | `main` returns the counters and crash of `Main` |
| FetchMetrics.RunMembers | fetch_metrics.py:293-327 | the loop over the members, from a fresh tally, ends with the counters and crash of `MainLoop` |
| FetchMetrics.DeliverCounts | fetch_metrics.py:312-323 | a delivery keeps the counters and records the PATCH in a live run; a returning PATCH counts as updated; a raising PATCH goes on exactly when the email for the log line can be read, otherwise AttributeError escapes; a dry run goes on exactly when the printout can be made |
| FetchMetrics.HandleMemberCounts | fetch_metrics.py:293-323 | each step accounts for exactly one profile when it goes on and at most one when it crashes, keeping the counters |
| FetchMetrics.ConvertedCounts | fetch_metrics.py:305-323 | a converted snapshot keeps the counters, whatever the conversion gave |
| FetchMetrics.HandleMemberUpdates | fetch_metrics.py:316-318 | in a live run with a returning PATCH every match stays updated |
| FetchMetrics.StepsCounted | fetch_metrics.py:293-323 | every step of the segment keeps the counters |
| FetchMetrics.StepsUpdated | fetch_metrics.py:316-318 | with every PATCH returning, every step keeps every match updated |
| FetchMetrics.MainLoopCounts | fetch_metrics.py:293-327 | the loop accounts for every profile when nothing crashes, at most every one otherwise, and keeps the counters |
| FetchMetrics.MainLoopUpdated | fetch_metrics.py:316-318 | the loop keeps every match updated, even when an exception ends it |
| FetchMetrics.StartCounted | fetch_metrics.py:288-291 | `main` starts with nothing accounted for and the counters kept |
| FetchMetrics.MainWithCounts | fetch_metrics.py:282-327 | from kept counters, `main` ends as `EndsCounted` says whenever every step keeps the counters |
| FetchMetrics.MainStepsCounts | fetch_metrics.py:282-327 | the loop's own steps keep the counters, so `main` ends as `EndsCounted` says |
| FetchMetrics.MainSpec | fetch_metrics.py:270-335 | a segment error counts nothing; each profile is `no_event`, `no_snapshot` or `matched`, all of them when nothing crashes; `updated <= matched`; a dry run PATCHes nothing and prints one summary per match; a live run one PATCH per match |
| FetchMetrics.MainWithUpdated | fetch_metrics.py:316-318 | `main` keeps every match updated whenever every step does |
| FetchMetrics.MainStepsUpdated | fetch_metrics.py:316-318 | in a live run whose every PATCH returns, every match is updated |
| FetchMetrics.MainAllUpdated | fetch_metrics.py:312-320 | a live `main` whose every PATCH returns ends with `updated == matched` |
| Validation.ValidateApiKey | klaviyo_gui/utils/validation.py:5-7 | true exactly when the stripped key is longer than ten characters |
| Validation.ValidateSegmentId | klaviyo_gui/utils/validation.py:9-11 | true exactly when the id has a non-whitespace character |
| Validation.ValidateEventName | klaviyo_gui/utils/validation.py:13-15 | true exactly when the name has a non-whitespace character |
| Validation.BlankRejected | klaviyo_gui/utils/validation.py:5-15 | empty and whitespace-only inputs fail all three checks |
| Validation.ApiKeyImpliesNonBlank | klaviyo_gui/utils/validation.py:5-15 | a valid API key also passes the two non-blank checks |
| Settings.GetOr | klaviyo_gui/config/settings.py:132-134 | `get(key, default)`: the stored value when present, else the default |
| Settings.ApiKeyOf | klaviyo_gui/config/settings.py:67-88 | a non-blank session key (stripped), else a non-blank `KLAVIYO_API_KEY` (stripped), else a non-empty keyring password, else the table's `api_key` |
| Settings.ApiKeyNonEmptyUnlessTable | klaviyo_gui/config/settings.py:67-88 | without a table entry the key is None or a non-empty string; a session or environment key comes back stripped and not blank |
| Settings.BlankKeyringKeyReturned | klaviyo_gui/config/settings.py:76-81 | a whitespace-only keyring password is returned unstripped, because `if api_key:` does not strip |
| Settings.LastIndexOf | klaviyo_gui/config/settings.py:235-237 | the last index of a key in the imported data, or None when it does not occur |
| Settings.ImportedSpec | klaviyo_gui/config/settings.py:230-239 | excluded keys keep their value; any other key takes its last imported value; keys not imported are unchanged |
| Settings.LastIndexShift | klaviyo_gui/config/settings.py:235 | dropping the first entry shifts the last occurrence of a key by one |
| Settings.Exported | klaviyo_gui/config/settings.py:219-228 | a copy with `has_api_key`, `config_file` and `version` set and every other entry kept |
| Settings.ExportImportRestores | klaviyo_gui/config/settings.py:219-239 | importing an export restores every non-metadata entry |
| Settings.ConfigManager.constructor | klaviyo_gui/config/settings.py:29-37 | a new manager holds the loaded table and no session key |
| Settings.ConfigManager.Set | klaviyo_gui/config/settings.py:136-138 | `get(key)` then returns `value`, and every other key is unchanged |
| Settings.ConfigManager.SetApiKey | klaviyo_gui/config/settings.py:90-109 | the keyring accepting the key removes `api_key` from the table; otherwise the key is stored there |
| Settings.ConfigManager.SetApiKeyEphemeral | klaviyo_gui/config/settings.py:111-114 | sets only the session key |
| Settings.ConfigManager.DeleteApiKey | klaviyo_gui/config/settings.py:116-130 | no `api_key` entry is left and nothing else changes |
| Settings.ConfigManager.ImportConfig | klaviyo_gui/config/settings.py:230-239 | the import loop leaves the table `Imported` describes |
| Settings.ConfigManager.ResetToDefaults | klaviyo_gui/config/settings.py:241-246 | the table is emptied, so every typed getter gives its default |

The rows above name the members whose contracts state something. The
definitions those contracts are about have no rows of their own. Each one is
mapped to source by the rows of the lemmas and methods stated over it:

- `Json.Lookup`: `dict.get`, klaviyo_gui/core/data_processor.py:33 (rows `Json.Lookup*`).
- `Text.Strip`: `str.strip()`, klaviyo_gui/utils/validation.py:7 (rows `Text.Strip*`).
- `ApiClient.Step`, `ApiClient.Run`: one attempt and the whole retry loop of `_get`/`_patch`, klaviyo_gui/core/api_client.py:47-126 (rows `ApiClient.Attempt`, `ApiClient.Request` and the retry lemmas).
- `ApiClient.PatchPayload`: the body of `patch_profile_snapshot`, klaviyo_gui/core/api_client.py:218-234 (row `ApiClient.PayloadFields`).
- `Segments.CollectRows`: the loop over one page's rows, klaviyo_gui/core/api_client.py:159-167 and fetch_metrics.py:103-110 (rows `Segments.CollectRows*`).
- `Segments.SegmentRun`: the `while True` loop of `get_segment_profiles`, klaviyo_gui/core/api_client.py:153-179 and fetch_metrics.py:101-115 (rows `Segments.GetSegmentProfiles`, `Segments.SegmentRunSpec`, `Segments.SegmentFetchedUpTo` and `Segments.SegmentProfilesSpec`).
- `Segments.BelowLimit`, `Segments.ReachedAt`, `Segments.StopsAt`, `Segments.RowsStop`: where the row loop stops, at the first `profile` row that reaches the limit (`if limit and len(profiles) >= limit`), klaviyo_gui/core/api_client.py:159-167 (rows `Segments.StopsAtUnique`, `Segments.CollectRowsFirst`, `Segments.SegmentPageStops`).
- `Segments.DictAt`, `Segments.PassesOn`, `Segments.FetchedFrom`, `Segments.ReadEnds`: which pages a read requests and where it stops, klaviyo_gui/core/api_client.py:153-179 (rows `Segments.SegmentRunFetched`, `Segments.ReadStopsAtFirstReach`, `Segments.SegmentFetchedUpTo`, `Segments.SegmentProfilesSpec`).
- `Events.CollectMetricNames`: the metric-name lookup of one page, klaviyo_gui/core/api_client.py:197-203 (row `Events.CollectMetricNamesSpec`).
- `Events.Stream`: the events `iterate_profile_events` yields and the exception that ends them, klaviyo_gui/core/api_client.py:181-216 (rows `Events.StreamStep`, `Events.PageYield`).
- `Events.Consume`: the `for` loop of `find_matching_event` over that stream, klaviyo_gui/core/data_processor.py:129-135 (rows `Events.Settle`, `Events.ConsumeAppend`).
- `Events.FindFirstMatch`: the generator and its consumer fused page by page, klaviyo_gui/core/api_client.py:193-216 with data_processor.py:129-135 (rows `Events.FindMatchingEvent`, `Events.LazyScanMatchesStream`, `Events.FetchedUpTo`).
- `Models.LineItemFromDict`, `Models.SnapshotFromDict`, `Models.StatsFromDict`: the inverses of the `to_dict`s in klaviyo_gui/core/models.py. They have no source counterpart (rows `Models.*RoundTrip`).
- `DataProcessor.LineItemToSnapshot`, `DataProcessor.EventToSnapshot`: klaviyo_gui/core/data_processor.py:61-78 and :80-127 (rows `DataProcessor.LineItemSpec`, `DataProcessor.EventToSnapshotSpec`).
- `DataProcessor.TryMember`, `DataProcessor.HandleMember`: the `try` block and one iteration of the member loop, klaviyo_gui/core/data_processor.py:188-239 (rows `DataProcessor.TryProfile`, `DataProcessor.ProcessMember` and the lemmas on them).
- `DataProcessor.Loop`, `DataProcessor.Process`: the member loop and `process_profiles`, klaviyo_gui/core/data_processor.py:151-258 (rows `DataProcessor.ProcessMembers`, `DataProcessor.ProcessProfiles`, `DataProcessor.ProcessSpec`).
- `FetchMetrics.Step`, `FetchMetrics.RunFrom`, `FetchMetrics.Run`: one attempt and the retry loop of the script's `_get`/`_patch`, fetch_metrics.py:51-88 (rows `FetchMetrics.Attempt`, `FetchMetrics.Request` and the retry lemmas).
- `FetchMetrics.PickImageUrl`, `FetchMetrics.LineItemToSnapshot`, `FetchMetrics.EventToSnapshot`: fetch_metrics.py:175-230 (rows `FetchMetrics.PickImageUrlSpec`, `FetchMetrics.LineItemAgrees`, `FetchMetrics.EventToSnapshotAgrees`).
- `FetchMetrics.EmailOf`, `FetchMetrics.PrintSummary`: the dry-run printout, fetch_metrics.py:251-266 (rows `FetchMetrics.EmailAgrees`, `FetchMetrics.PrintSummarySpec`).
- `FetchMetrics.Deliver`, `FetchMetrics.HandleMember`, `FetchMetrics.MainLoop`, `FetchMetrics.MainWith`, `FetchMetrics.Main`: one delivery, one iteration, the member loop and `main`, fetch_metrics.py:270-335 (rows `FetchMetrics.DeliverSnapshot`, `FetchMetrics.ProcessMember`, `FetchMetrics.RunMembers`, `FetchMetrics.RunMain`, `FetchMetrics.MainSpec`).
- `Settings.Imported`: `import_config`, klaviyo_gui/config/settings.py:230-239 (rows `Settings.ImportedSpec`, `Settings.ConfigManager.ImportConfig`).
- `Settings.ConfigManager.ExportConfig`: `export_config`, klaviyo_gui/config/settings.py:219-228 (rows `Settings.Exported`, `Settings.ExportImportRestores`).
- `Settings.ConfigManager.GetApiKey`: `get_api_key`, klaviyo_gui/config/settings.py:67-88 (rows `Settings.ApiKeyOf`, `Settings.ApiKeyNonEmptyUnlessTable`).

## Left out

- The network, `time.sleep`, logging, the progress callback and `.env` loading. Replies and pages are inputs, and the sleeps are a recorded sequence. Nothing about timeouts, headers or URLs is modelled, beyond the PATCH payload.
- A paged read that never ends. Each series of pages given ends on a page with no next link (`PagesEnd`), and each member's event pages do too (`AllPagesEnd`).
- Threads and cancellation. `klaviyo_gui/utils/threading.py` is not part of this model. `should_stop()` is modelled only as the oracle `shouldStop`.
- Floating point. Prices and the progress percentage are reals. `float()` accepts only plain decimal notation with an optional sign (no exponents, `inf` or `nan`). `int(str)` does not accept underscores.
- Text. Strings use ASCII whitespace and ASCII case folding, with no Unicode.
- Rendering. Summary lines are data rather than formatted text, so the `:.2f` price format, the `"\n".join` and the 80-dash separator are left out. `str(e)` of an exception is `ExceptionText(failure)`.
- Python dict keys. They are compared as JSON values, so `1`, `1.0` and `True` are different keys here.
- Models.SyncResultToDict: the message text and the summaries' text come from renderer parameters, so their content is not stated.
- Settings.ConfigManager.constructor: the loaded configuration is a table of string keys. A file whose top level `json.load` reads as something other than an object (klaviyo_gui/config/settings.py:48) is not modelled. Neither are the `get`/`set` calls that would then raise, nor `get_api_key`'s `except` branch that returns None for it (klaviyo_gui/config/settings.py:85-88).
- `ConfigManager` I/O. `load_config`, `save_config`, `config_file.exists`/`unlink` and the keyring calls are inputs: the loaded table, what the keyring holds, whether it accepted a key. A failing `save_config` is not modelled.
- Settings.ConfigManager.SetApiKey: the key goes to the table when the keyring refuses it; that `save_config` then raises is not modelled.
- `ConfigManager` typed setters, `is_first_run` and `test_connection`. The setters are `Set` on a fixed key, and the other two only check a file and send a request.
- The `--verbose` flag, argument parsing and the `KLAVIYO_API_KEY` check that ends the script. `main` starts after argument parsing, with the segment, the limit, the dry-run flag and the placeholder as parameters.
- The GUI (`klaviyo_gui/gui/`), `klaviyo_gui/main.py`, `run_klaviyo_gui.py` and `scripts/build_windows.py`, which are widgets, process startup and packaging. `klaviyo_gui/config/defaults.py` is used only for its constant values.
