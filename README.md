# lambda-ifttt-listener-gleam, modelled in Dafny

The listener is an AWS Lambda handler. It receives the address of a
gleam.io competition and fetches the campaign page. When the page it lands on
is not on gleam.io, it follows the first embedded gleam.io campaign link.
From the page it reads the entrant count and the campaign object. It builds
one competition record: the entrant count, the first incentive's image url,
the deduplicated entry types, the end date, the resource and the promoter.
It classifies the campaign's terms into a region code (Canada 4,
Australia 3, United States 2, elsewhere 1) and pushes the envelope
`{region_id, competitions, method: "POST"}` to a queue. The caller is meant
to get 200, or 422 with `{error}`, and every response carries
`Access-Control-Allow-Origin: *`. As written, when a GET fails or the
campaign link is missing inside `fetchContents`, the handler never hands a
response to its callback, so the caller never gets the 422 (see
"## Findings"). The model states both: `Fetch.ResolveAsWritten` and
`Handler.AnswerAsWritten` are the code as written, and `Fetch.Resolve` and
`Handler.Attempt` are the corrected behaviour, in which those failures are
answered 422.

The model has one module per concern:

- `Text`: characters, the ECMAScript `\s` class, ASCII case folding, and
  regular expressions made of fixed atoms.
- `Region`: `getRegionId`.
- `EntryMethods`: `getEntryMethods`.
- `Markup`: the two expressions that read the page, with `exec`'s leftmost
  match.
- `Competition`: the record and the envelope.
- `Fetch`: `fetchContents`.
- `Handler`: the handler and its response.

`Fetch.FetchContents`, `Handler.Try` and `Handler.HandleRequest` are
imperative and are proved equal to the functions that specify them. They
follow the corrected fetch, `Fetch.Resolve`, not the code as written. The
response object `res` is the class `Handler.Response`. The handler fills in
its fields one step at a time.

Later revisions of the handler scan the incentives for a usable image,
strip the query string and the leading `/` from the identifier, and make the
entrant count optional. This model follows this revision's code:

- Only the first incentive is inspected. A request whose first incentive is
  missing, or has a truthy `src`, is refused (index.js:27-31).
- On the direct route the record is filed under the request path exactly as
  axios reports it, leading `/` and query string included (index.js:85).
- The entrant count is mandatory. A page without `initEntryCount(<digits>)`
  fails the request (index.js:19).

## Model

| member | source | states |
|---|---|---|
| Region.FirstApplicable | index.js:135 | `find` returns the first rule, from the given index on, that has an expression matching the text; it returns none only when no rule from there applies |
| Region.RegionId | index.js:105-136 | the region is always one of 4, 3, 2, 1; the catch-all rule guarantees a rule is found |
| Region.CatchAllApplies | index.js:127-132 | the catch-all `.*` rule applies to every text, the empty text included |
| Region.RulesAreTheMarkers | index.js:106-133 | each rule applies exactly when the text contains one of its markers |
| Region.RegionIdCases | index.js:105-135 | the full decision: Canada if a Canada marker occurs; else Australia if an Australia marker occurs; else United States if a US marker occurs; else 1 |
| Region.CanadaWins | index.js:106-113 | a Canada marker yields 4 whatever else the text mentions |
| Region.AustraliaIff | index.js:114-119 | the result is 3 exactly when there is no Canada marker and there is an Australia marker |
| Region.UnitedStatesIff | index.js:120-126 | the result is 2 exactly when there is a US marker and neither earlier marker |
| Region.ElsewhereIff | index.js:127-135 | the result is 1 exactly when no marker of any region occurs |
| Region.EmptyIsElsewhere | index.js:127-135 | the empty text is classified 1 |
| Region.FoldedMarkersIgnoreCase | index.js:109-122 | an `i`-flagged marker occurs in a text exactly when it occurs in the text's lower-cased form |
| Region.CodesNeedUpperCase | index.js:110-123 | the `CA`, `US` and `U.S.` codes never match a text without upper-case letters |
| Region.RegionIdOfLowered | index.js:109-123 | lower-casing the terms changes the region only by losing the upper-case codes: the region of the lower-cased text is decided by the folded markers alone |
| Region.OnlyCodesFitFourChars | index.js:109-123 | in a four-character text only the space-delimited codes can match |
| Region.CanadaCodeIsCaseSensitive | index.js:110 | `" CA "` is Canada and `" ca "` is elsewhere |
| Region.UnitedStatesCodeIsCaseSensitive | index.js:123 | `" US "` is the United States and `" us "` is elsewhere |
| Region.CanadaBeforeUnitedStates | index.js:106-126 | a text naming both Canada and the USA is Canada |
| Region.CanadaResidents | index.js:109 | terms open to Canada residents are Canada |
| Text.CaseBlindIgnoresCase | index.js:109 | a pattern made only of case-folded atoms and `\s` matches a text exactly when it matches the lower-cased text |
| Text.NeedsUpperMissesLowerText | index.js:110 | a pattern with an exact upper-case letter never matches a text without upper-case letters |
| Text.Run | index.js:88 | the run is the longest prefix, from the position, of characters in the class, and it stops at the end or at a character outside the class |
| EntryMethods.Distinct | index.js:146 | `Array.from(new Set(xs))`: no duplicates, holds exactly the elements of the input, and is no longer than the input |
| EntryMethods.GetEntryMethods | index.js:145-147 | the entry types without duplicates; every entry type of the input appears, and only those |
| EntryMethods.DistinctKeepsFirstSeenOrder | index.js:146 | elements appear in the order of their first occurrence in the input |
| EntryMethods.DistinctOfDistinct | index.js:146 | a list without duplicates comes back unchanged |
| EntryMethods.DistinctIdempotent | index.js:146 | deduplicating twice equals deduplicating once |
| EntryMethods.DistinctExample | index.js:146 | `[A, B, A, C]` gives `[A, B, C]` |
| Markup.Leftmost | index.js:88-89 | the result is the first present capture from the index on; it is none only if no capture from there is present |
| Markup.ExecIsLeftmost | index.js:88-89 | `exec` (here and on line 19) answers with the capture at the leftmost matching position, and with none exactly when no position matches |
| Markup.LinkCaptureShape | index.js:88-89 | a link capture is `<group>/<slug>`: a non-empty alphanumeric group, a `/`, and a non-empty slug of alphanumerics and `-` |
| Markup.EntryCountIsDigits | index.js:19 | the entrant count read from a page is a non-empty string of decimal digits |
| Markup.LinkAtStartFound | index.js:88-89 | a page that opens with `href="https://gleam.io/<group>/<slug>"` yields `<group>/<slug>`, whatever follows |
| Markup.EntryCountAtStartFound | index.js:19 | a page that opens with `initEntryCount(<digits>)` has that entrant count, whatever follows |
| Competition.Shift | index.js:27 | `shift()` returns the first element and the rest; on an empty list it returns none and an empty list |
| Competition.NormalizeSpec | index.js:24-54 | a record is built exactly when the first incentive exists, its `src` is falsy and the end time is a valid `Date`; it then carries the entrant count, that incentive's url, the times in milliseconds, the url as resource id, the source id, the whole promoter (homepage, digest of the site url, both names, favicon url) and the deduplicated entry types; an unusable first incentive fails with `InvalidResource` |
| Competition.OnlyFirstIncentiveCounts | index.js:27-31 | a first incentive with a truthy `src` fails the request, whatever the later incentives are |
| Competition.EnvelopeShape | index.js:58-62 | the envelope holds exactly the one record and the `POST` tag, and its region is the classification of the terms: 4 on a Canada marker, else 3 on an Australia marker, else 2 on a US marker, else 1 |
| Errors.Message | index.js:30 | the message of the `{error}` body: "Resource not in a valid format." exactly for the media failure; the client's, parser's or queue's own message for theirs; none for the engine's TypeError and RangeError |
| Fetch.FetchContents | index.js:81-96 | the imperative fetch, with `url` and `data` reassigned, computes the corrected `Resolve`: a rejected GET or a missing link is a failure it returns, where the code as written (`ResolveAsWritten`) never settles |
| Fetch.AsWrittenHangsOnFailure | index.js:81-96 | as written, each success of the fetch is the intended one, and each failure leaves its promise pending |
| Fetch.DirectPage | index.js:83-94 | a first response on gleam.io is kept as fetched, filed under its request path, and no second GET is made |
| Fetch.RedirectPage | index.js:87-92 | elsewhere, without a link the request fails; with a link, the outcome is that of the second GET of `https://gleam.io/<link>`: its page filed under the link, or its failure; the link has more than two characters and never starts with `/` |
| Fetch.RedirectScenario | index.js:87-94 | an intermediate page linking to `gleam.io/<group>/<slug>` resolves to that page under the id `<group>/<slug>` |
| Fetch.LookAlikeHostCounts | index.js:87 | the origin test is a plain prefix test: `https://gleam.io.example.com/x` passes it |
| Handler.Response.constructor | index.js:12 | a new response carries only the cross-origin header |
| Handler.Try | index.js:14-67 | the step-by-step `try` block, over the corrected fetch, computes `Attempt`: its outcome and what it sent |
| Handler.HandleRequest | index.js:9-74 | with the corrected fetch, the response's header, status and body are those of `AnswerOf` for the attempt's outcome, and what was sent is what the attempt sent; the handler as written is `AnswerAsWritten`, which hands no response to the callback when the fetch fails |
| Handler.PrepareSucceedsExactly | index.js:19-54 | a fetched page yields an envelope exactly when the count matches, the campaign parses, the first incentive is usable and the end date is valid |
| Handler.SucceedsExactly | index.js:14-67 | a request succeeds exactly when the fetch, both patterns, the media check, the end date and the publish all succeed |
| Handler.SuccessShape | index.js:34-65 | a successful request sent one envelope with the `POST` tag, the region of the terms and one record carrying the page's count and id, the first incentive's url and the start time in milliseconds |
| Handler.NothingSentBeforeFailure | index.js:14-65 | something is sent exactly when every step before the publish succeeded, so only a refused publish can fail after a send |
| Handler.AnswerShape | index.js:67-72 | every answer carries the header set on line 12, `Access-Control-Allow-Origin: *`; 200 exactly on success; 422 exactly on failure, with the error as body; the media failure's body has the message "Resource not in a valid format." |
| Handler.AsWrittenDropsFetchFailures | index.js:81-96 | as written, a failed fetch never reaches the callback, and every other request gets the intended answer |
| Handler.UnreachableHostUnanswered | index.js:82-83 | as written, a refused GET means the handler never hands a response to its callback |
| Handler.UnusableMediaAnswered | index.js:27-31 | a campaign whose first incentive is missing or carries a truthy `src` is answered 422, with the header and the message "Resource not in a valid format.", and nothing is sent |
| Handler.FetchFailureAnswered | index.js:68-72 | corrected, a failed fetch is answered 422 with its error, and nothing is sent |
| Handler.EndToEnd | index.js:14-67 | a page with `initEntryCount(42)` and a campaign open to Canada residents is published as one record: 42 entrants, that image, that entry type, region 4, and times in milliseconds |

## Left out

- The SQS queue, its URL and `MessageGroupId: Date.now() + []` are left out: the queue is the `publish` parameter, which answers accepted or refused, and the group id comes from the clock.
- `JSON.stringify` of the message and of the error body is left out: the envelope and `ErrorBody` are values, not text.
- axios is the `get` parameter. Redirect following, headers and timeouts happen inside it; the model keeps only the body, the request path and the final url.
- The SHA-256 hex digest is the `digest` parameter. It is a pure function of the site url.
- The `initCampaign((.*))` expression, html-entity decoding and `JSON.parse` together are the `parseCampaign` parameter. It answers not found, malformed, or the parsed object. A missing `campaign`, `campaign.site_url` or `incentives`, which throws a TypeError at line 24 or 27 before the media check, is folded into malformed. `entry_methods` is assumed to be an array of objects: a missing one, or a `null` method, throws a TypeError at line 146, after the media check, and that error is not modelled.
- `Competition.Normalize`: the end date is kept as its millisecond time value. Its ISO-8601 text is not modelled. Only the out-of-range RangeError of `toISOString` is kept, as `InvalidEndDate`.
- Arithmetic is on integers. The times are taken to be integral seconds, so the floating-point rounding of `* 1000` is not modelled.
- `src` and `url` are modelled as optional strings. Numbers, objects and other truthy values of `src` would also be refused by the code; they are not modelled.
- The texts of engine exceptions (the TypeError of indexing a missed match, the RangeError of `toISOString`) are not modelled. Failures are named by the `Failure` datatype, and `Errors.Message` gives no text for them. The one message the code writes itself, "Resource not in a valid format.", is the constant `InvalidResourceMessage`.
- `console.log` of the received body is left out: it is output only.
- `process.env.SOURCE_ID` is the `sourceId` parameter, absent when unset.
- Concurrency and reuse of the Lambda container are left out. Each invocation is modelled on its own.

## Findings

| source | as written | input that shows it | evidently intended | confidence | as-written member | corrected member |
|---|---|---|---|---|---|---|
| index.js:81-96 | `fetchContents` wraps an `async` executor in `new Promise`. Two kinds of error throw inside that executor: a GET that rejects, and `exec` returning `null` before `[2]` is indexed. The promise then never settles. The handler's `catch` and `finally` never run, so it never hands a response to its callback and the caller never gets the 422; what the caller sees instead is up to the platform. | a body whose GET is refused (connection refused), stated in `Handler.UnreachableHostUnanswered` | the failure reaches the handler's `catch`, and the request is answered 422 with the error | not executed | Fetch.ResolveAsWritten, Handler.AnswerAsWritten (`Fetch.AsWrittenHangsOnFailure`, `Handler.AsWrittenDropsFetchFailures`, `Handler.UnreachableHostUnanswered`) | Fetch.Resolve, Handler.Attempt (`Handler.FetchFailureAnswered`, `Handler.AnswerShape`) |
