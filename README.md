# Believe in Serverless link feed, modelled in Dafny

The system watches a Discord community for shared links. For each link it:

- scrapes the page's open-graph metadata;
- asks a language model how relevant the page is;
- rejects anything the model scores below 7;
- optionally asks the model for a description drawn from the recent conversation;
- appends an item to an in-memory RSS feed;
- saves the whole feed as the public object `rss.xml`.

At start-up the feed is rebuilt from that snapshot.

The model covers three core files.

`src/bagOfTricks.mjs` (module `BagOfTricks`):
- It gives the service helpers `load`, `save` and `chat` over three tiers: Momento scalar items, S3 objects, and Momento lists that hold conversation histories.
- The class `TieredStore` holds them as the `cache`, `store` and `lists` maps.
- Its methods `Load`, `Save` and `Chat` follow the code step by step. Each is proved equal to a pure specification function (`LoadFrom`, `SaveOn`, `ChatOn`) over a `Tiers` value.
- The properties are lemmas about those functions.

`src/rss.mjs` (module `Rss`, with its pure steps in module `Relevance`):
- The module-level `feed` is a field of the class `FeedSynthesizer`.
- `InitializeFeed` is a loop over the parsed items. `HandleLink` and its tail `AddAccepted` follow the code's branches.
- They are proved equal to `InitializeOn` and `HandleLinkOn`.
- The regular-expression capture, the `< 7` gate with JavaScript's coercions, and the transcript are in `Relevance`.

`src/prompts.mjs` (module `Prompts`):
- The two template builders are pure string functions.

Module `Js` holds the parts of the JavaScript runtime the code depends on:
- values and `typeof`;
- template interpolation of `undefined`;
- `parseInt` (section 19.2.5 of ECMA-262) without a radix;
- `join`, and `split` on one character;
- line terminators (section 12.3 of ECMA-262).

Outcomes the code cannot control are inputs to the model:
- each service call's success or failure (`CallStatus` values in `LoadEnv`, `SaveEnv`, `ChatEnv` and `LinkEnv`);
- the model's reply (a function from request to reply);
- the scraper's result;
- the JSON and XML libraries (functions in `Codec` and `Xml`).

Thrown exceptions are `Err` values; the catch-all of `handleLink` turns them into `Abandoned(cause)`, which stands for `undefined`.

Behaviour worth knowing:
- **A non-numeric score.** A capture that `parseInt` reads as `NaN` passes the gate, because `NaN < 7` is false, and the link goes on to be published (`Relevance.JudgeNotANumber`, `Rss.HandleLinkNotANumber`).
- **An empty capture.** `<relevance></relevance>` is rejected: the empty string is falsy, stays `""`, and `"" < 7` holds (`Relevance.JudgeEmpty`).
- **No match.** A reply in which the pattern matches nowhere makes reading `[1]` of `null` throw, and the call ends in `undefined` (`Rss.HandleLinkUnmatched`).
- **A failed save.** When saving the snapshot fails, the new item stays in the in-memory feed while the call reports `undefined` (`Rss.HandleLinkUnpublished`).
- **Duplicate ids.** A resubmitted id is appended again, not deduplicated (`Rss.HandleLinkKeepsDuplicates`).

## Model

| member | source | states |
|---|---|---|
| BagOfTricks.LoadFrom | src/bagOfTricks.mjs:94-141 | a text load always yields text |
| BagOfTricks.TieredStore.Load | src/bagOfTricks.mjs:94-141 | the imperative `load` returns exactly what the specification gives, in each case: a successful cache hit decodes the cached text; otherwise an S3 error is rethrown, a missing key gives the default for the transform, and an existing object is decoded |
| BagOfTricks.LoadHitIgnoresStore | src/bagOfTricks.mjs:95-105 | a cache hit does not depend on the bucket's contents |
| BagOfTricks.StringifiedKinds | src/bagOfTricks.mjs:160 | the `typeof`/`null`/`Array.isArray` test stringifies exactly plain objects and typed arrays |
| BagOfTricks.SaveFailedPutChangesNothing | src/bagOfTricks.mjs:164-169 | a failed S3 put throws and changes neither tier |
| BagOfTricks.SaveWritesOnlyItsKey | src/bagOfTricks.mjs:158-180 | a successful save writes its key with the requested public-read flag and no other key; the cache is updated only when the set succeeds; a set error does not fail the call |
| BagOfTricks.TieredStore.Save | src/bagOfTricks.mjs:158-180 | the imperative `save` leaves the state `SaveOn` describes, field by field, with the error case |
| BagOfTricks.SaveThenLoad | src/bagOfTricks.mjs:94-180 | a text load after a successful save returns what was written, whether read from the cache or, after an eviction, from the bucket |
| BagOfTricks.SaveThenLoadJson | src/bagOfTricks.mjs:94-180 | a plain object saved and loaded with the JSON transform comes back the same when JSON round-trips it |
| BagOfTricks.SaveLeavesStaleCache | src/bagOfTricks.mjs:171-175 | when the cache set fails, an older cache entry survives and a later load returns the stale value |
| BagOfTricks.ChatKeepsCacheAndStore | src/bagOfTricks.mjs:28-73 | `chat` touches neither the scalar cache nor the bucket |
| BagOfTricks.ChatWithoutIdIsStateless | src/bagOfTricks.mjs:32-70 | without a truthy chat id the model sees only the new turn, and no history is written |
| BagOfTricks.ChatFetchErrorSendsOnlyTurn | src/bagOfTricks.mjs:33-45 | a failed history fetch is treated as an empty history |
| BagOfTricks.ChatAppendsExchange | src/bagOfTricks.mjs:29-72 | the model receives the stored history followed by the user turn; afterwards the list ends with the user turn and the assistant turn, every other list keeps its key and its contents, and the reply is the first block's text, or `undefined` when that block is not text |
| BagOfTricks.ChatHistoryAppendOnly | src/bagOfTricks.mjs:62-70 | a conversation history only grows at its tail; only the call's own chat id can gain or change a list; a failed append leaves every list as it was |
| BagOfTricks.TieredStore.Chat | src/bagOfTricks.mjs:28-73 | the imperative `chat` returns and stores what `ChatOn` describes, and leaves the cache and the bucket unchanged |
| Prompts.RelevancePromptFieldsInOrder | src/prompts.mjs:1-11 | each of the six details appears on a line of its own, in the order url, ogTitle, ogDescription, ogType, ogUrl, ogSiteName, as `label: value`, with each line directly followed by the next |
| Prompts.RelevancePromptNamesTag | src/prompts.mjs:2 | the prompt names the `<relevance>` tag the reply is searched for |
| Relevance.PromptTagIsPatternTag | src/rss.mjs:48 | the tag the prompt requests is the tag the pattern matches |
| Relevance.LazyCloseFirst | src/rss.mjs:48 | the lazy `.*?` stops at the first closing tag; it finds none only when every later closing tag has a line terminator before it |
| Relevance.LazyCloseMatch | src/rss.mjs:48 | at an opening tag, the closing tag found is the nearest one the pattern can end at, and none found means the pattern cannot match there |
| Relevance.CaptureFromLeftmost | src/rss.mjs:48 | the capture is the text of the leftmost match, ended at its nearest closing tag; no capture means no match from that position on |
| Relevance.CaptureNoneIff | src/rss.mjs:48 | the match is `null` exactly when the pattern (opening tag, a run without line terminators, closing tag) matches nowhere in the reply |
| Relevance.CaptureOfTagged | src/rss.mjs:48 | text without `<`, then `<relevance>d</relevance>`, then anything, captures `d`, when `d` contains no `<` and no line terminator |
| Relevance.JudgeWithoutTag | src/rss.mjs:48 | a reply without `<` has no match, so reading `[1]` throws |
| Relevance.JudgeDecimal | src/rss.mjs:48-52 | a decimal score is rejected exactly when it is below 7 |
| Relevance.JudgeBoundary | src/rss.mjs:49-52 | score 6 is rejected; 7 and 10 are accepted |
| Relevance.JudgeEmpty | src/rss.mjs:49-52 | an empty capture is rejected |
| Relevance.JudgeNotANumber | src/rss.mjs:49-52 | a capture that `parseInt` reads as `NaN` is accepted |
| Relevance.ContextPromptLines | src/prompts.mjs:13-17 | the context prompt is the fixed head followed by the transcript, which splits back into one `user: message` line per recent message, in order, when no part contains a newline |
| Relevance.TranscriptLinesBack | src/rss.mjs:56 | splitting the transcript on newlines gives one `user: message` line per recent message, in order, when no part contains a newline |
| Js.ParseIntOfDecimal | src/rss.mjs:50 | `parseInt` reads a decimal numeral back as its value |
| Js.ParseIntOfNegative | src/rss.mjs:50 | a leading minus sign negates the value |
| Js.ParseIntNoDigits | src/rss.mjs:50 | text whose first non-blank character is not a sign and not a digit is `NaN` |
| Js.ParseInt | src/rss.mjs:50 | blank text is `NaN` |
| Js.SplitJoin | src/rss.mjs:56 | splitting a join on a separator that no part contains gives the parts back |
| Rss.ItemFromRendered | src/rss.mjs:21-29 | an item in the shape `Rendered` assumes the `rss` library and `xml2js` produce converts back to itself, with the rendered date, when it has a title, a description and one category; it throws without a title, a description or a category; of several categories only the first returns |
| Rss.ReadItems | src/rss.mjs:20-30 | the items are converted in order, up to and excluding the first that throws |
| Rss.InitializeWithoutSnapshot | src/rss.mjs:9-18 | when the snapshot loads as the empty string, the feed starts empty with the fixed channel metadata and the call succeeds |
| Rss.MissingSnapshotLoadsEmpty | src/bagOfTricks.mjs:94-141 | a snapshot key that is neither a cache hit nor an S3 object loads as the empty string |
| Rss.InitializeFromSnapshot | src/rss.mjs:17-31 | a parsed snapshot's items are restored in order; the call succeeds exactly when no item throws |
| Rss.SnapshotRoundTrip | src/rss.mjs:8-72 | a saved feed is rebuilt at start-up with the same items in the same order (dates as the library renders them), whether the snapshot is read from the cache or the bucket |
| Rss.FeedSynthesizer.InitializeFeed | src/rss.mjs:8-32 | the loop leaves the feed and the result `InitializeOn` describes, keeping the items read before a failure |
| Rss.PublishOutcome | src/rss.mjs:71-73 | the grown feed is kept in any case; the call reports `true` exactly when the put succeeds, and then the public snapshot holds the grown feed; a failed save changes no service |
| Rss.AcceptUnpublished | src/rss.mjs:54-73 | an accepted link that is not published leaves the bucket and the cache as they were |
| Rss.AcceptGrowth | src/rss.mjs:54-72 | an accepted link changes the feed only by one new item at its tail; `true` implies the snapshot is that grown feed |
| Rss.HandleLinkStages | src/rss.mjs:34-52 | a link either passes the gate, or the call ends with the feed, the bucket and the cache untouched |
| Rss.HandleLinkAppendsAtMostOne | src/rss.mjs:61-69 | the feed stays as it was or gains one item at its tail, carrying the submission id, the link, the page title, the author, the date and the channel category |
| Rss.HandleLinkPublished | src/rss.mjs:61-73 | a `true` result means the item was appended and the whole feed, serialized, is the public `rss.xml` object |
| Rss.HandleLinkUnpublished | src/rss.mjs:34-77 | any other result leaves the bucket and the cache unchanged; the feed changes only when the save failed, and a rejection never changes the feed |
| Rss.HandleLinkKeepsDuplicates | src/rss.mjs:61-69 | a resubmitted id is appended again |
| Rss.HandleLinkUnmatched | src/rss.mjs:48-76 | a scoring reply whose first content block's text matches the pattern nowhere ends in `undefined`, with the feed, the bucket and the cache untouched |
| Rss.HandleLinkRejectedIff | src/rss.mjs:48-52 | for a scoring reply whose first content block is text, `false` is returned exactly when the verdict on that text is a rejection |
| Rss.HandleLinkThreshold | src/rss.mjs:48-52 | with a decimal score, `false` is returned exactly when the score is below 7 |
| Rss.HandleLinkNotANumber | src/rss.mjs:49-52 | a score that is not a number is not rejected |
| Rss.HandleLinkWithoutContext | src/rss.mjs:54-69 | with at most one recent message the enrichment model is never consulted, and any appended item, published or left behind by a failed save, carries the scraped description |
| Rss.HandleLinkWithContext | src/rss.mjs:54-69 | with more than one recent message, whenever an item is appended its description is the model's answer to the context prompt built from the transcript |
| Rss.HandleLinkAccepted | src/rss.mjs:46-59 | a scoring reply whose first content block is accepted text proceeds to the description and the item, on the services the scoring chat left |
| Rss.HandleLinkAcceptedPublishes | src/rss.mjs:46-73 | a scoring reply whose first content block is accepted text, with the description available and a successful save, gives `true`, the feed grown by exactly the new item, and the grown feed as the public snapshot |
| Rss.HandleLinkScenario | src/rss.mjs:34-73 | `https://example.com/a`, titled `A` with description `desc` and scored 8, is published as one new item, and the snapshot holds the grown feed |
| Rss.HandleLinkRejectionScenario | src/rss.mjs:48-52 | the same link scored 3 is rejected, and neither the feed, the bucket nor the cache changes |
| Rss.FeedSynthesizer.HandleLink | src/rss.mjs:34-77 | the imperative `handleLink` leaves the services, the feed and the result `HandleLinkOn` describes |
| Rss.FeedSynthesizer.AddAccepted | src/rss.mjs:54-73 | the tail of `handleLink` does what `Accept` describes |

## Left out

- `index.mjs`, the Discord client and link extraction from messages are not part of this model.
- The AWS and Momento SDKs, credentials, environment variables, and the model id and `anthropic_version` fields: only the outcome of each call (success or failure) is modelled.
- open-graph-scraper's result is an input value (`Scrape`: `Scraped(result)` or `ScrapeRejected`). The `rss` library and `xml2js` are abstract functions (`Xml.serialize`, `Xml.parse`). `Rss.SnapshotRoundTrip` therefore assumes, as a hypothesis, that parsing what the library wrote gives back the items.
- `Rss.Rendered`: the shape in which `xml2js` returns an item written by the `rss` library (each field as a child, the rendered date, the first category) is an assumption of the model, not derived from either library. In particular, whether the library writes `<title>` or `<description>` for an absent or empty value is not modelled, so `Rss.ItemFromRendered` holds only for items in that assumed shape.
- `JSON.parse`, `JSON.stringify`, `TextEncoder` and the SDKs' coercion of non-string bodies are abstract functions in `Codec`.
- History list entries are JSON strings in Momento. The model keeps them as `Message` values, since the code writes and reads them with a matching `JSON.stringify`/`JSON.parse` pair.
- `ttl`, the cache's default time to live, and eviction are represented only by `TieredStore.Evict` and the `evicted` flag of `SaveThenLoad`, `SaveThenLoadJson` and `SnapshotRoundTrip`; time is not modelled.
- `Date.prototype.toISOString`: the message's creation time is given as the string it renders to.
- Logging (`console.*`) has no effect on state and is left out.
- Concurrency: several `handleLink` calls can interleave their reads and writes of `feed` and `rss.xml`. The model runs one call at a time.
- Numbers are integers: `JsNumber` has no fractions, and `parseInt` results are exact rather than rounded to doubles. This changes no comparison with 7.
- `Rss.ItemFromParsed`: a `<guid>` with no attributes makes `xml2js` produce a plain string, so `guid[0]['_']` is `undefined` rather than a throw. The model reads it as the element's text, which is what the `rss` library writes.
- `Rss.InitializeOn`: a snapshot that does not parse and a channel with no item list both throw. The model reports both as `SyntaxError` and does not distinguish which exception kind `initializeFeed` raises.
- Momento keeps scalar items and lists in one key space. The model keeps them in separate maps.
- `max_tokens` is sent as the fixed value 10000; token limits are not modelled.
- The prompt builders do no I/O and are deterministic because they are functions.
