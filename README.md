# Cart watchers: parse, diff and notify

A Dafny model of the core of a set of shopping-cart watchers for three shops
(Zalando, Zooplus and Amazon Spain). Each watcher fetches the user's cart,
turns it into an id-keyed object, compares it with the snapshot file left by
the previous run, sends a Telegram notice for each price or stock change of an
item present in both, and overwrites the snapshot.

The model covers:

- **Parsing the cart.** Zalando's three article lists, with their three
  different ways of reading the id. Zooplus's `cart.articles`. The Amazon
  rows scraped from the page. All three fold into an object where the last
  write wins (`Snapshots.LastWriteWins`).
- **Diffing and notifying.** Only ids present in both snapshots are
  compared. For each, the model picks the changed fields that trigger a
  message, builds the message, and records what was sent. Also covered: the
  first-run path and the overwrite of the snapshot.
- **Gating requests.** The request listener's URL/header predicate, the
  guards on the replayed axios reply, and Zooplus's one-shot
  `targetedIntercepted` latch.
- **`capitalize`** and the Amazon price-direction wording.

## Modules

| file | module | what |
|---|---|---|
| `js.dfy` | `Js` | JS values, `Result` (an exception), property reads, `Object.keys`, `String(v)`, `!==`, `JSON.stringify`/`parse` of a snapshot, `trim`, `includes`, `substring` |
| `utils.dfy` | `Utils` | `capitalize` |
| `http.dfy` | `Http` | the axios reply as an input, and axios's default status check |
| `snapshots.dfy` | `Snapshots` | the id-keyed object, the snapshot file, the walk over common ids, and the relevant changed keys |
| `zalando.dfy` | `Zalando` | `parseData`, `checkForChanges`, `checkUpdates`, and the request predicate and reply guards; class `Watcher` |
| `zooplus.dfy` | `Zooplus` | the same, plus the latch, the guarded read with its error log, and the `finally` overwrite; class `Watcher` |
| `amazon.dfy` | `Amazon` | the scraped rows and the asin `reduce`, `parseFloat`, `notifyPriceChange`, `checkForChanges`, and `evaluateItems` with its fatal exit; class `Watcher` |

Each `Watcher` class holds what the process keeps between runs:

- the snapshot file;
- an outbox of the notices handed to the Telegram sender;
- for Zooplus, the latch and the error log;
- for Amazon, the change log.

Its methods loop as the JavaScript does. Each is proved against a
specification function, for example `Zalando.CycleNotices` or
`Amazon.Evaluate`, and the lemmas state what those functions promise.

Outside effects become inputs:

- The reply is a `Http.Reply`.
- Whether a write succeeds is a `canWrite` flag.
- The error thrown by a failed read is a `FileError`.
- The DOM rows are `Amazon.CartRow` values.

Behaviour of the code worth noting:

- Amazon ends the process when the snapshot is unreadable, not only when it
  cannot be written (amazon/amazon.js:129-134).
- Fields whose value is undefined vanish from the snapshot file rather than
  being stored as null.
- An article whose id is missing is not skipped, and mostly not rejected
  either. A Zooplus article without `shop_id` is stored under the key
  "undefined" (zooplus/zooplus.js:150). So is a grouped Zalando article with an
  empty `item_ids` (zalando/zalando.js:132), an unavailable one whose
  `item_ids` has no entry at its index (zalando/zalando.js:161), and an
  out-of-stock one without `item_ids`. An out-of-stock article's key is
  `String(item_ids)` (zalando/zalando.js:147): "" for an empty `item_ids`, the
  ids joined by commas for several. Only a grouped or unavailable Zalando
  article with no `item_ids` at all makes the whole parse throw.
- Zalando's 40 s pause after a 429 (zalando/zalando.js:110-113) never runs
  with axios's default status check: a 429 reply rejects and ends in the
  catch block (zalando/zalando.js:121-123), as `Zalando.RateLimitUnreachable`
  states.
- Amazon's count line reports `Math.abs(old - new)`.
- zooplus/zooplus.js:12 imports `sendZooMessageTelegram`, which utils/telegramBot.mjs does not
  export (it exports only `sendAmzMessageTelegram` and `sendZlndoMessageTelegram`). As an ES
  module, zooplus.js then fails to link, so the Zooplus watcher as written never starts. The model
  describes what it would do with a sender of that name.

## Model

| member | source | states |
|---|---|---|
| Utils.Capitalize | utils/utils.js:1-4 | null, undefined, "", 0 and false give ""; any string gives a result; any other truthy value throws, because it has no `charAt` |
| Utils.CapitalizeShape | utils/utils.js:3 | for a non-empty word, the result has the same length; its first character is the upper case of the word's first; every later character is the lower case of the word's |
| Utils.CapitalizeIdempotent | utils/utils.js:1-4 | capitalising a capitalised word gives the same word |
| Js.Member | zalando/zalando.js:132-139 | reading a property throws exactly when the object is null or undefined |
| Js.OwnKeys | zalando/zalando.js:212 | `Object.keys` throws exactly on null and undefined |
| Js.TrimSpec | zalando/zalando.js:133 | `trim` gives a slice of the input with no whitespace at either end; only whitespace is cut away |
| Js.TrimIdempotent | zalando/zalando.js:133 | trimming a trimmed name changes nothing |
| Js.TrimEmptyIff | amazon/amazon.js:81-82 | `trim` leaves the empty string exactly when the input is all whitespace |
| Js.IncludesIff | zalando/zalando.js:76 | `s.includes(t)` holds exactly when `t` occurs in `s` at some index |
| Js.Prefix | zalando/zalando.js:223-226 | `substring(0, n)` is a prefix of the string, of length `min(n, length)` |
| Js.CollectThrowsSticky | zalando/zalando.js:129-143 | once a `forEach` callback throws, the whole push loop throws |
| Js.CollectMember | zalando/zalando.js:129-143 | every pushed item was pushed by the callback of some element |
| Js.GetToJson | zalando/zalando.js:205 | a property of the stored form of an object is the stored form of that property |
| Snapshots.Unique | zalando/zalando.js:172-176 | the fill loop `uniqueItems[obj.id] = obj` builds exactly `LastWriteWins` of the entries |
| Snapshots.LastWriteWinsValid | zalando/zalando.js:172-176 | the key order has no repeats and lists exactly the keys that hold values |
| Snapshots.LastWriteWinsKeys | zalando/zalando.js:172-176 | a key is present exactly when some entry carries it |
| Snapshots.LastWriteWinsValue | zalando/zalando.js:172-176 | each key holds the value of the last entry with that key |
| Snapshots.KeyedLastWins | zalando/zalando.js:172-176 | assigning every item under its key (`String(obj.id)`, or the asin) gives a valid snapshot whose keys are exactly the items' keys, each holding the last item with that key |
| Snapshots.LastWriteWinsAppend | zalando/zalando.js:172-176 | later entries override earlier ones with the same key; other keys keep their earlier values |
| Snapshots.PersistedItem | zalando/zalando.js:205 | reading an item back from the written snapshot gives the stored form of that item |
| Snapshots.DiffCommonDisjoint | zalando/zalando.js:198-204 | when the two snapshots share no id, no check runs and nothing is sent |
| Snapshots.DiffCommonSilent | zalando/zalando.js:198-204 | when no common id has anything to report, nothing is sent |
| Snapshots.DiffCommonSource | zalando/zalando.js:198-204 | every notice comes from the check of an id present in both snapshots |
| Snapshots.ChangedKeysMembership | zalando/zalando.js:214-217 | a key yields a message exactly when it is an old key, it is "stock" or "price", and its values differ under `!==` |
| Snapshots.ChangedKeysDistinct | zalando/zalando.js:216-217 | the reported keys never repeat when the old item's keys do not |
| Snapshots.NothingRelevantChanged | zalando/zalando.js:214-217 | when neither stock nor price changed, no key is reported |
| Snapshots.AtMostTwoChanges | zalando/zalando.js:214-217 | an item reports at most two keys |
| Zalando.IdOf | zalando/zalando.js:132 | the id is `item_ids[0]` for a grouped article, the whole `item_ids` for an out-of-stock one, and `item_ids[index]` for an unavailable one; it throws on a null article |
| Zalando.Articulo | zalando/zalando.js:131-140 | building `articulo` throws exactly when the id read throws, the name is not a string, or the price is nullish; otherwise `stock` and `available` both hold `article.available`, and the name is trimmed |
| Zalando.PushArticles | zalando/zalando.js:130-142 | the push loop over one list appends that list's articles, or throws as the specification function does |
| Zalando.ParseData | zalando/zalando.js:126-179 | the parse equals the specification `Parse`: the grouped, out-of-stock and unavailable pushes, then last write wins |
| Zalando.ArticleItemsWellFormed | zalando/zalando.js:131-140 | every pushed item has `stock == available` and a trimmed name |
| Zalando.PushesWellFormed | zalando/zalando.js:126-171 | every pushed item of the three lists is well formed |
| Zalando.ParsedItems | zalando/zalando.js:172-178 | the cart's keys are distinct; each holds a well-formed item whose id prints as that key |
| Zalando.ParseKeepsLastPush | zalando/zalando.js:172-178 | a key is present exactly when some pushed item has that id, and holds the last such item |
| Zalando.LaterListsOverride | zalando/zalando.js:145-171 | an out-of-stock or unavailable article replaces a grouped one with the same id; the unavailable list has the last word |
| Zalando.EmptyPayload | zalando/zalando.js:129-159 | a payload with none of the three lists parses to an empty cart |
| Zalando.IdQuirks | zalando/zalando.js:132-161 | with one item id: grouped and out-of-stock articles print the same key; an unavailable article at position 1 or later is keyed "undefined" |
| Zalando.NoticeIff | zalando/zalando.js:211-233 | a notice for a key is sent exactly when the key is an old key, it is "stock" or "price", and its values differ; a nullish old item sends nothing |
| Zalando.AtMostTwoNotices | zalando/zalando.js:214-217 | an item with distinct keys sends at most two notices |
| Zalando.StoredItemNotices | zalando/zalando.js:205-217 | against a stored item, only a changed price and then a changed stock can be reported, in that order |
| Zalando.UnchangedItemSilent | zalando/zalando.js:211-233 | an item compared with its own stored form sends nothing |
| Zalando.UnchangedCartSilent | zalando/zalando.js:198-205 | a cart compared with its own snapshot sends nothing |
| Zalando.FirstRunSilent | zalando/zalando.js:184-196 | an unreadable or empty snapshot sends nothing |
| Zalando.OnlyCommonIds | zalando/zalando.js:198-204 | every notice belongs to an id present in both the new cart and the old snapshot |
| Zalando.CaptionShows | zalando/zalando.js:219-231 | the message contains the link and the short name |
| Zalando.NoticeContent | zalando/zalando.js:216-235 | every notice is about stock or price, links to the shop page of the new item, shows exactly the first 30 characters of its name (all of a shorter name), and carries its image |
| Zalando.Intercepts | zalando/zalando.js:75-83 | a request is replayed exactly when its URL contains the cart endpoint and it carries a non-empty token header |
| Zalando.Classify | zalando/zalando.js:104-123 | the reply proceeds exactly when it resolved, is not a 429, and its body is an object; a 429 means rate limited; a rejection means the request failed |
| Zalando.RateLimitUnreachable | zalando/zalando.js:110-114 | under axios's default status check, the 429 branch is never taken |
| Zalando.Watcher.CheckForChanges | zalando/zalando.js:211-237 | the outbox grows by exactly the specified notices of the item |
| Zalando.Watcher.Messages | zalando/zalando.js:215-233 | the first loop builds one notice per relevant changed key, in the order of the old item's keys |
| Zalando.Watcher.Send | zalando/zalando.js:234-236 | the second loop sends every message once, in order |
| Zalando.Watcher.CheckUpdates | zalando/zalando.js:181-209 | the outbox grows by the notices of the common ids; the file becomes the new cart unless `Object.keys` of the old content threw or the write failed |
| Zalando.Watcher.CheckCommon | zalando/zalando.js:198-204 | the outbox grows by the notices of every new id that the old snapshot also holds, in the new cart's order |
| Zalando.Watcher.CheckCommonKey | zalando/zalando.js:200-203 | an id the old snapshot holds gets its item's notices; any other id sends nothing |
| Zalando.Watcher.Replicate | zalando/zalando.js:101-124 | without a token nothing happens; a declined reply changes nothing; a proceeding reply is parsed and checked; only a completed check touches the outbox or the file |
| Zooplus.ParseArticle | zooplus/zooplus.js:148-158 | the `map` callback throws only on a nullish article; otherwise it copies the fields and prefixes the link with the shop origin |
| Zooplus.ParseArticles | zooplus/zooplus.js:147-159 | the map succeeds exactly when `articles` is an array with no nullish element, and keeps its length |
| Zooplus.ParseData | zooplus/zooplus.js:146-167 | the parse equals the specification `Parse` |
| Zooplus.ParsedItems | zooplus/zooplus.js:161-166 | the cart's keys are distinct; each holds an item whose id prints as the key and whose link starts with the shop origin |
| Zooplus.ParseKeepsLastArticle | zooplus/zooplus.js:161-166 | a key holds the last article with that id |
| Zooplus.NoticeIff | zooplus/zooplus.js:205-226 | with a string title, a notice for a key is sent exactly when the key is an old key, it is relevant, and its values differ; a price notice shows the formatted prices, a stock notice the raw values |
| Zooplus.TitleNotStringSilent | zooplus/zooplus.js:216 | an item whose title is not a string sends nothing, because `substring` throws |
| Zooplus.AtMostTwoNotices | zooplus/zooplus.js:208-211 | an item with distinct keys sends at most two notices |
| Zooplus.UnchangedItemSilent | zooplus/zooplus.js:205-226 | an item compared with its own stored form sends nothing |
| Zooplus.UnchangedCartSilent | zooplus/zooplus.js:191-201 | a cart compared with its own snapshot sends nothing |
| Zooplus.FirstRunSilent | zooplus/zooplus.js:171-181 | an unreadable or empty snapshot sends nothing |
| Zooplus.OnlyCommonIds | zooplus/zooplus.js:191-197 | every notice belongs to an id present in both snapshots |
| Zooplus.GuardNeverLogs | zooplus/zooplus.js:183-188 | the guard as written never logs, even for an error the intended guard logs |
| Zooplus.LoggedIff | zooplus/zooplus.js:183-188 | the intended guard logs exactly the errors that are not SyntaxErrors and do not mention "Unexpected end of JSON input" |
| Zooplus.Classify | zooplus/zooplus.js:119-140 | the reply proceeds exactly when it is a 200 whose body is an object with truthy `cart.articles`; a rejected 503 is transient; a rejection without a response makes the catch block throw |
| Zooplus.NotOkIsSuccess | zooplus/zooplus.js:119-122 | under axios's default status check, the not-200 branch only sees other 2xx statuses |
| Zooplus.ProceedReadsArticles | zooplus/zooplus.js:125-147 | a reply that passes the guards has `data.cart.articles`, so the parse reads it without throwing |
| Zooplus.Watcher.Intercepts | zooplus/zooplus.js:82-90 | a request is replayed exactly when its URL contains the state endpoint and the latch is clear |
| Zooplus.Watcher.Receive | zooplus/zooplus.js:111-128 | the verdict is `Classify` of the reply; the latch is set exactly when a cart is accepted |
| Zooplus.Watcher.CheckForChanges | zooplus/zooplus.js:205-230 | the outbox grows by exactly the specified notices of the item |
| Zooplus.Watcher.Messages | zooplus/zooplus.js:210-226 | the first loop builds one notice per relevant changed key, and throws at the first one when the new item has no string title |
| Zooplus.Watcher.Send | zooplus/zooplus.js:227-229 | the second loop sends every message once, in order |
| Zooplus.Watcher.ReadSnapshot | zooplus/zooplus.js:171-189 | the old items are the file's content, or `{}`; an empty snapshot is overwritten at once; a throwing block logs its error exactly when the intended guard `Logged` lets it through (see Findings) |
| Zooplus.Watcher.CheckUpdates | zooplus/zooplus.js:169-203 | the outbox grows by the notices of the common ids; the `finally` write stores the new cart whenever writing succeeds; the error log grows as `ReadSnapshot` says |
| Zooplus.Watcher.CheckCommon | zooplus/zooplus.js:192-197 | the outbox grows by the notices of every new id that the old snapshot also holds, in the new cart's order |
| Zooplus.Watcher.CheckCommonKey | zooplus/zooplus.js:193-196 | an id the old snapshot holds gets its item's notices; any other id sends nothing |
| Zooplus.Watcher.Process | zooplus/zooplus.js:130-143 | parse and check; the latch is clear afterwards; a failed parse changes nothing else; a parsed cart gives the outbox, file and error log of `CheckUpdates` |
| Zooplus.Watcher.Replicate | zooplus/zooplus.js:111-144 | the latch is clear at the end of every call; a declined reply or a failed parse changes nothing else; an accepted and parsed reply gives exactly the outbox, file and error log of `CheckUpdates` on the parsed cart |
| Amazon.ProductOf | amazon/amazon.js:79-90 | a row throws exactly when it lacks its title or image element, or its `data-subtotal` is not JSON or has no `subtotal`; otherwise the attributes read as strings or null, and the badge is `subtotal.code` |
| Amazon.ProductTitle | amazon/amazon.js:81-82 | the title is null exactly when the text is all whitespace; otherwise it is the trimmed text, non-empty with no whitespace at either end |
| Amazon.Products | amazon/amazon.js:79-91 | the map succeeds exactly when every row's callback does, and yields each row's product in order |
| Amazon.SavedOverridesActive | amazon/amazon.js:76-96 | a saved row overrides an active row with the same asin; an asin no saved row carries keeps its active product |
| Amazon.KeyedByAsin | amazon/amazon.js:93-96 | the map's keys are distinct; each holds a product whose asin prints as the key, from a row that no later row with that asin follows |
| Amazon.ParseFloatNumeral | amazon/amazon.js:152-153 | a whole-number price reads back as that number |
| Amazon.MissingPriceIsNaN | amazon/amazon.js:152-153 | an undefined or null price reads as NaN |
| Amazon.DirectionIff | amazon/amazon.js:158-160 | the word is "decreased" exactly when the old price is above the new one; equal prices and any NaN read as "increased" |
| Amazon.ShortTitle | amazon/amazon.js:155-158 | a nullish old title prints as "undefined"; a string keeps exactly its first 30 characters (all of a shorter one); any other value throws |
| Amazon.NotifyPriceChange | amazon/amazon.js:150-160 | the notice links to `/gp/product/<new asin>/`, carries the old item's short title, parses both prices, and says "decreased" exactly when the old price is above the new one; it throws exactly when the old title is neither a string nor nullish |
| Amazon.CaptionShows | amazon/amazon.js:155-160 | the caption contains the link, the short title and the direction word |
| Amazon.DifferingKeysMembership | amazon/amazon.js:140-142 | a key is logged exactly when it is an old key whose values differ under `!==` |
| Amazon.TriggeredOnce | amazon/amazon.js:143-145 | among distinct keys, "price" triggers its notice once, and no other key triggers one |
| Amazon.PriceNoticeIff | amazon/amazon.js:137-148 | every differing key is logged, but a notice is sent exactly when "price" differs and the notice can be built, so at most one per item |
| Amazon.CompareFatalSticky | amazon/amazon.js:114-118 | once `Object.keys` of an old item throws, the later keys change nothing |
| Amazon.CompareSource | amazon/amazon.js:114-118 | every notice comes from an id present in both snapshots |
| Amazon.EvaluateOutcomes | amazon/amazon.js:102-135 | a run either overwrites the snapshot with the new cart, or ends fatally with the file unchanged; an unreadable or null snapshot is fatal at once |
| Amazon.FirstRunSilent | amazon/amazon.js:106-110 | an old snapshot without keys is overwritten with nothing logged or sent |
| Amazon.ResizeNotice | amazon/amazon.js:120-127 | after a comparison, the "items removed or added" line is logged exactly when the key counts differ, and it reports their positive distance |
| Amazon.SwapGoesUnlogged | amazon/amazon.js:120-127 | one item removed and another added leave no "items removed or added" line |
| Amazon.OnlyCommonIds | amazon/amazon.js:112-118 | every notice of a run belongs to an id in both the new cart and the old snapshot |
| Amazon.UnchangedCartSilent | amazon/amazon.js:112-119 | a scraped cart compared with its own snapshot sends no notice |
| Amazon.Watcher.CheckForChanges | amazon/amazon.js:137-148 | throws exactly on a nullish old item; the log and the outbox grow by exactly the item's lines and notices |
| Amazon.Watcher.CompareKeys | amazon/amazon.js:140-147 | the key loop logs every differing key and sends the notice for each differing "price" |
| Amazon.Watcher.Report | amazon/amazon.js:141-146 | a differing key adds one change line; a differing "price" also sends the notice, when building it does not throw |
| Amazon.Watcher.EvaluateItems | amazon/amazon.js:102-135 | the file, log, outbox and outcome are exactly those the `Evaluate` specification gives |
| Amazon.Watcher.CompareAll | amazon/amazon.js:112-117 | the walk over the new ids has exactly the effects `Compare` gives, and reports whether a call threw |
| Amazon.Watcher.CompareKey | amazon/amazon.js:113-116 | a common id throws exactly when its stored item is nullish, and then changes nothing; otherwise it adds that item's lines and notices |
| Amazon.Watcher.Observe | amazon/amazon.js:73-100 | a scrape that throws changes nothing; otherwise the run is `evaluateItems` on the asin map |

## Findings

| source | as written | input that shows it | evidently intended | confidence | as-written member | corrected member |
|---|---|---|---|---|---|---|
| zooplus/zooplus.js:183-188 | `!error instanceof SyntaxError && ...` parses as `(!error) instanceof SyntaxError`: a boolean is never a SyntaxError, so the guard never logs | a read that fails with `ENOENT: no such file or directory` (not a SyntaxError, no "Unexpected end of JSON input") is not logged | log every error that is not a SyntaxError and does not report an empty file | not executed | Zooplus.LoggedAsWritten, Zooplus.GuardNeverLogs | Zooplus.Logged, Zooplus.LoggedIff |

The Zooplus watcher's error log uses the intended guard.

## Left out

- Browser automation: puppeteer, login, navigation, DOM queries, request interception and `continue`. The DOM rows and the intercepted URL and headers are inputs.
- Network calls: axios and the Telegram senders. A notice is appended to the outbox; a failed send is not modelled.
- Files and JSON text: `fs.readFile`, `fs.writeFile`, `JSON.parse` of text, and `isValidJSON` (utils/utils.js:6-13). The file is a parsed value or `Unreadable`; a write succeeds when `canWrite` holds.
- Timers and concurrency: `setInterval`, the 40 s rate-limit pause and the polling loop are left out. Un-awaited async calls are modelled as running to completion in call order.
- Unhandled rejections: on Node 15 and later an unhandled promise rejection ends the process; the model lets the watcher go on instead. The paths that end this way are:
  - `Zooplus.Outcome`'s `ParseFailed`, `WriteFailed` and `Declined(HandlerThrows)`: the catch block reads `error.response.status` on an error without a response (zooplus/zooplus.js:135), and `replicateRequestWithAxios` is not awaited (zooplus/zooplus.js:86-89);
  - `Amazon.Outcome.ScrapeFailed`: `basketObserver` rejects, un-awaited at login (amazon/amazon.js:65) and inside the `setInterval` callback whose promise nobody handles (amazon/amazon.js:181-184);
  - a `notifyPriceChange` that throws (Amazon), and a `checkForChanges` that throws (Zalando and Zooplus), un-awaited inside `forEach` (zalando/zalando.js:201, zooplus/zooplus.js:195); the process can then end before the pending snapshot write finishes, while `Zalando.Watcher.CheckUpdates` and `Zooplus.Watcher.CheckUpdates` promise the new cart in the file.
- Zooplus.Watcher: the latch is modelled as a `Receive`/`Process` split; requests that interleave while a cart is being processed are not modelled.
- Amazon: `process.exit(1)` and `browser.close()` are the `Fatal` outcome. Notices already handed to the sender before the exit stay in the outbox.
- Amazon.ParseFloat: a decimal numeral is read exactly as a real number; rounding to the nearest double and overflow to Infinity are not modelled.
- Amazon.Caption: how a finite number prints is a parameter.
- Amazon.Watcher.CompareKeys: the notice is built once before the loop. In the source it is built at each differing "price"; building it is pure, so the notices sent are the same.
- Numbers are integers in `Js.Value`, except Amazon's parsed prices.
- Integer-like property keys, which JavaScript lists before the other keys, are kept in insertion order.
- Case mapping in `capitalize` is ASCII only.
- Strings are sequences of Unicode code points. JavaScript counts UTF-16 code units in `length`, `substring(0, 30)`, `trim` positions and `s[i]`, so for text outside the Basic Multilingual Plane (an emoji in a title) `Js.Prefix` and the short names and titles built with it cut at a different place, and the lone surrogate JavaScript can leave is not modelled.
- Zooplus.Watcher.ReadSnapshot: the error log follows the intended guard `Logged`; the source as written logs nothing (`Zooplus.GuardNeverLogs`), so for a failed read such as ENOENT the model logs the error and the program does not.
- Zooplus.Watcher.CheckUpdates: its error log clause is that of `ReadSnapshot`, with the intended guard.
- Zooplus.Watcher.Process: its error log clause is that of `ReadSnapshot`, with the intended guard.
- Zooplus.Watcher.Replicate: its error log clause is that of `ReadSnapshot`, with the intended guard.
- Prototype properties such as `length` are not read through `Get`.
- Logging text: colours, `logUpdate` and the wording of console lines. Only the Amazon change and count lines, the Zooplus error log and the notices are kept.
- Other parts of the system: the process orchestration (happyScrappy.js, ecosystem.config.cjs) and the Telegram bot modules are not part of this model.
