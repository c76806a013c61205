# Printify gateway and local cart store, in Dafny

This project models the server-side core of a SvelteKit storefront that sells
through the Printify API. There are two parts.

- **The request gateway, `src/utils/printify.js`.**
  - A per-shop sliding-window rate limiter: at most 600 admissions per
    60 000 ms window, with a retry-after in seconds.
  - `printifyFetch`, which:
    - checks the configuration;
    - replaces the first `{shop_id}` of the endpoint;
    - resolves the endpoint against `https://api.printify.com/v1` as
      `new URL` does;
    - classifies the reply.
  - The resource wrappers: one endpoint template, one method, one body and
    at most one exact status check per wrapper.
- **The in-memory cart store, `src/utils/local-cart.js`.** A map from cart
  id to cart, which supports:
  - create;
  - load;
  - add, merging lines by variant;
  - wholesale replace of the lines;
  - delete.

Modules:

| module | file | contents |
|---|---|---|
| `Wrappers` | `wrappers.dfy` | `Option` and `Result` |
| `Js` | `js.dfy` | JSON values, JavaScript truthiness, `a \|\| b` on optional strings, property reads |
| `Text` | `text.dfy` | `indexOf`, and `String.prototype.replace` with a string pattern (the `$$`, `$&`, `` $` `` and `$'` patterns included) |
| `Uri` | `uri.dfy` | RFC 3986: parsing with the regular expression of appendix B, merge (section 5.2.3), remove_dot_segments (section 5.2.4), reference resolution (section 5.2.2) and recomposition (section 5.3) |
| `RateLimit` | `rate_limit.dfy` | the trim loop, the admission decision and the `RateLimiter` class over the map from shop id to timestamps |
| `Gateway` | `gateway.dfy` | configuration, URL building, the request sent, classification of the reply, and `PrintifyFetch` on the limiter |
| `Resources` | `resources.dfy` | the wrappers, as an `Action` per wrapper, and `Perform` |
| `LocalCart` | `local_cart.dfy` | the cart values and the `CartStore` class over the map of carts |

Several things that the source reads from the outside world are parameters of
the model instead:

- the clock (`Date.now()`, `new Date().toISOString()`);
- generated cart ids;
- the environment variables (`Env`);
- what the network answers (the `network` parameter: a status and a parsed
  body, no body when it is not JSON, or a transport failure).

Where a method changes state, it is proved against a pure specification
function:

- `RateLimiter.RateLimit` against `Decide`;
- `PrintifyFetch` against `Fetch`;
- `Perform` against `Check` of `Fetch`.

The lemmas are stated about those functions.

The URL is resolved, not concatenated. Because of that, an endpoint that starts
with `/` replaces the base path, and `/v1` is not part of the URL that is
called: `/shops/{shop_id}/products.json` becomes
`https://api.printify.com/shops/<id>/products.json`. A relative endpoint is
merged with the directory of `/v1`, which is `/`, so it loses `/v1` too. The
model follows the code (`new URL(processedEndpoint, apiUrl)`,
`src/utils/printify.js:63`), not a reading of the base URL as a prefix.

## Model

| member | source | states |
|---|---|---|
| RateLimit.Purge | src/utils/printify.js:17-20 | the trim keeps a suffix of the window; its first entry, if any, is less than a window old; every dropped entry is at least a window old (an entry exactly one window old is dropped); an expired front entry is always dropped |
| RateLimit.TrimExpired | src/utils/printify.js:17-20 | the `while`/`shift` loop computes `Purge` of the window |
| RateLimit.PurgeKeepsRecent | src/utils/printify.js:17-20 | on a window sorted oldest first, the trim equals the independent filter `Recent` (keep the entries less than a window old) |
| RateLimit.AllRemainingAreRecent | src/utils/printify.js:18-20 | after the trim of a sorted window every remaining timestamp `t` has `now - t < 60000` |
| RateLimit.CeilSeconds | src/utils/printify.js:25 | `Math.ceil(ms / 1000)`: the least whole number of seconds covering `ms` |
| RateLimit.Decide | src/utils/printify.js:15-29 | a call is admitted exactly when the trimmed window holds fewer than 600 entries, and then exactly `now` is appended at the end; otherwise it is rejected, the trimmed window is kept without `now`, the wait is `60000 - (now - oldest)` for the oldest remaining entry and the reported seconds are `CeilSeconds` of the wait; a window of at most 600 entries stays at most 600 |
| RateLimit.Admit | src/utils/printify.js:17-29 | the trim loop followed by the quota check gives exactly `Decide`'s decision and window |
| RateLimit.RetryAfterWithinWindow | src/utils/printify.js:23-25 | with no entry in the future, the wait lies in (0, 60000] and the reported seconds in [1, 60] |
| RateLimit.FullWindowRejects | src/utils/printify.js:22-26 | 600 entries whose oldest is less than a window old reject the call and leave the window as it is |
| RateLimit.ExpiredOldestReadmits | src/utils/printify.js:18-28 | once the oldest of 600 entries has expired, the next call is admitted |
| RateLimit.BurstThenRetryAfter59 | src/utils/printify.js:22-25 | 600 admissions at one instant and a call one second later: rejected with a wait of 59000 ms, reported as 59 seconds |
| RateLimit.DecideKeepsSorted | src/utils/printify.js:28-29 | a window sorted oldest first stays sorted when the clock has not gone back before its newest entry |
| RateLimit.OnlyOneWindowChanges | src/utils/printify.js:15-29 | updating the window of one shop leaves the window of every other shop as it was |
| RateLimit.RateLimiter.constructor | src/utils/printify.js:7 | the limiter starts with no windows |
| RateLimit.RateLimiter.RateLimit | src/utils/printify.js:13-30 | the decision and the new map are those of `Decide` on the shop's stored window (the trim persists on rejection); other shops are unchanged; an admission makes the window one longer than the trimmed one; every window stays within the quota |
| Js.Or | src/utils/printify.js:44-49 | `a \|\| b` on optional strings: non-empty exactly when one side is; the left side when it is non-empty, the right side otherwise |
| Gateway.ResolveConfig | src/utils/printify.js:44-56 | success exactly when an API key and a shop id are non-empty; otherwise `MISSING_CONFIGURATION`; a caller's shop id wins over `VITE_PRINTIFY_SHOP_ID`, which wins over `PRINTIFY_SHOP_ID`; `VITE_PRINTIFY_API_KEY` wins over `PRINTIFY_API_KEY`; without the first of each, the key is `PRINTIFY_API_KEY` and the shop id `PRINTIFY_SHOP_ID` |
| Text.IndexFrom | src/utils/printify.js:62 | the first occurrence of the pattern at or after an index, or none |
| Text.ReplaceFirst | src/utils/printify.js:62 | a string without the pattern is left unchanged |
| Text.ReplaceFirstLiteral | src/utils/printify.js:62 | with a replacement free of `$`, only the first occurrence is replaced, by the replacement itself, and the rest of the string is kept |
| Text.SubstitutionLiteral | src/utils/printify.js:62 | a replacement free of `$` is inserted literally |
| Gateway.FirstPlaceholderReplaced | src/utils/printify.js:62 | only the first `{shop_id}` is replaced by the shop id; later placeholders stay |
| Uri.ParseRecompose | src/utils/printify.js:63 | parsing then recomposing gives back every string |
| Uri.ParseAbsolute | src/utils/printify.js:61 | `scheme://authority/path` parses into those three components |
| Gateway.ApiBaseIsParsedApiUrl | src/utils/printify.js:61 | the base URL's components are scheme `https`, authority `api.printify.com` and path `/v1` |
| Uri.DirectoryOf | src/utils/printify.js:63 | the base directory is the prefix of the base path up to and including its last `/`: it ends in `/` (or is empty) and no `/` follows it in the path |
| Uri.Resolve | src/utils/printify.js:63 | the target takes the reference's fragment; without a scheme in the reference, the base's scheme; without an authority either, the base's authority |
| Uri.RemoveDotsPlain | src/utils/printify.js:63 | dot-segment removal leaves a path without `.` or `..` segments unchanged |
| Uri.AbsolutePathReplacesBasePath | src/utils/printify.js:63 | an endpoint starting with one `/` replaces the whole base path |
| Uri.RelativePathMergesWithBase | src/utils/printify.js:63 | a relative endpoint is appended to the base path's directory |
| Gateway.AbsoluteEndpointUrl | src/utils/printify.js:61-63 | an endpoint `/p` (plain, no placeholder) is called as `https://api.printify.com/p`, without `/v1` |
| Gateway.RelativeEndpointUrl | src/utils/printify.js:61-63 | an endpoint `p` not starting with `/` is called as `https://api.printify.com/p`, without `/v1` |
| Gateway.BuildRequest | src/utils/printify.js:66-75 | the URL is the resolved endpoint; the method defaults to GET; the bearer token is among the headers; a body is sent exactly when it is truthy |
| Gateway.MessageOf | src/utils/printify.js:80 | `data.message` when it is truthy, else the default text |
| Gateway.NullBodyLosesStatus | src/utils/printify.js:77-84 | as written, a 500 reply with body `null` ends in a TypeError rather than an upstream error with status 500 |
| Gateway.Classify | src/utils/printify.js:77-89 | success exactly for a 2xx reply, carrying the status and the parsed body; every other reply is an upstream error with the upstream status, the parsed body as details, and `data.message` as message when it is truthy (the default text otherwise, and for a `null` body); a transport failure passes through |
| Gateway.ClassifyAgreesElsewhere | src/utils/printify.js:77-89 | the intended and the as-written classification agree on every reply except a non-ok reply with body `null` |
| Gateway.UnparsableBodyIsEmptyObject | src/utils/printify.js:77 | a body that is not JSON is read as `{}`: as the success body, or as the details beside the default message |
| Gateway.NotFoundCarriesUpstreamMessage | src/utils/printify.js:79-84 | a 404 with a `message` is an upstream error carrying 404, that message and the body |
| Gateway.Fetch | src/utils/printify.js:42-89 | a configuration error comes before the limiter and sends nothing; a request is sent exactly when the configuration is complete and the limiter admits it; a sent request is `BuildRequest` and its result is `Classify` of the reply; without a request the result is the configuration or rate-limit error; with the configuration in place, the resolved shop's window becomes `Decide`'s window (trimmed, plus `now` on admission) and a rejection reports `Decide`'s retry-after seconds; every other shop's window is unchanged |
| Gateway.FullWindowSendsNothing | src/utils/printify.js:52-59 | with the configuration in place and a full window of recent admissions, nothing is sent and the result is a rate-limit error |
| Gateway.PrintifyFetch | src/utils/printify.js:42-99 | the result, the request sent and the limiter's new state are those of `Fetch` on the limiter's old state |
| Resources.LineItem | src/utils/printify.js:271-274 | an item has exactly the line's `variant_id` and `quantity` properties that are present, with their values |
| Resources.LineItems | src/utils/printify.js:271-274 | one item per line, in order |
| Resources.RequestOf | src/utils/printify.js:101-302 | no wrapper passes a shop id |
| Resources.Check | src/utils/printify.js:101-302 | gateway errors pass through; success exactly when the gateway succeeds with the wrapper's one expected status, or with any status for the order functions; otherwise `Failed to <operation>: <status>` |
| Resources.OtherSuccessStatusFails | src/utils/printify.js:101-302 | a 2xx status other than the expected one fails: `createProduct` and `createCart` refuse 200, the read, update and delete wrappers refuse 201 |
| Resources.OrdersAcceptAnySuccess | src/utils/printify.js:183-197 | the order functions pass on every 2xx reply |
| Resources.AddToCartSendsOneLine | src/utils/printify.js:238-253 | `addToCart` sends exactly one line, with the variant and the quantity (1 when not given) |
| Resources.UpdateCartMapsLines | src/utils/printify.js:264-277 | `updateCart` sends one item per line, position by position |
| Resources.ShopScopedUrl | src/utils/printify.js:101-302 | with a shop id and identifiers made of unreserved characters (letters, digits, `-`, `.`, `_`, `~`, other than `.` and `..`), every wrapper calls `https://api.printify.com/shops/<shop id><template tail>` |
| Resources.Perform | src/utils/printify.js:101-317 | `getAllCollections` returns a fixed empty listing with status 200, sends nothing and leaves the limiter alone; every other wrapper returns `Check` of `Fetch` on its endpoint, method and body |
| LocalCart.FindVariant | src/utils/local-cart.js:41 | the index of the first line with the variant, or none when no line has it |
| LocalCart.AddItem | src/utils/local-cart.js:40-50 | an existing variant's first line grows by the quantity, with no line added and the other lines unchanged; a new variant gets exactly one line appended at the end |
| LocalCart.AddItemTotal | src/utils/local-cart.js:40-50 | adding `q` grows the total quantity by `q`, merged or appended |
| LocalCart.AddItemVariants | src/utils/local-cart.js:40-50 | lines with distinct variants stay distinct; the set of variants becomes the old one plus the added one |
| LocalCart.AddTwiceMerges | src/utils/local-cart.js:41-49 | adding a variant twice to an empty cart gives one line with the summed quantity and the first time stamp |
| LocalCart.AddedAt | src/utils/local-cart.js:66 | `line.addedAt \|\| now`: the line's time when it is non-empty, the current time otherwise |
| LocalCart.LinesToItems | src/utils/local-cart.js:63-67 | one item per line, in order, copying the variant and the quantity; an empty list gives an empty list |
| LocalCart.LinesWithTimesIgnoreClock | src/utils/local-cart.js:66 | lines that carry their own time are copied independently of the clock |
| LocalCart.CartStore.constructor | src/utils/local-cart.js:7 | the store starts empty |
| LocalCart.CartStore.CreateCart | src/utils/local-cart.js:14-24 | a fresh id gets an empty cart created and updated now; status 201 with that cart; every other cart is unchanged |
| LocalCart.CartStore.LoadCart | src/utils/local-cart.js:26-32 | the stored cart, whose id is the one asked for, with status 200 when the id is present; `Cart not found` when not; nothing changes |
| LocalCart.CartStore.AddToCart | src/utils/local-cart.js:34-54 | a missing id fails with `Cart not found` and changes nothing; otherwise only that cart changes, its items become `AddItem` of the old ones, `updatedAt` becomes now, `id` and `createdAt` stay, and the new cart is returned with status 200 |
| LocalCart.CartStore.UpdateCart | src/utils/local-cart.js:56-71 | a missing id fails with `Cart not found` and changes nothing; otherwise only that cart changes, its items become `LinesToItems` of the lines, `updatedAt` becomes now, `id` and `createdAt` stay, and the new cart is returned with status 200 |
| LocalCart.CartStore.DeleteCart | src/utils/local-cart.js:73-80 | a missing id fails with `Cart not found` and changes nothing; otherwise exactly that key is removed and `{success: true}` is returned with status 200 |

## Left out

- The `fetch` call itself is not modelled: the network's answer is a parameter. `JSON.stringify` is not modelled either: a body is kept as a JSON value. Neither is `response.json()`: the reply's body arrives already parsed, or absent when it is not JSON.
- The `console.error` logging in `printifyFetch` and in every wrapper is left out, because it has no effect on results.
- `process.env` is read as the `Env` record. The getters of `src/utils/env.js` are not part of this model.
- `Date.now()`, `new Date().toISOString()` and `Math.random()` are inputs. The model uses one `now` per call, while the source reads the clock several times:
  - `createCart` reads it twice, once for `createdAt` and once for `updatedAt`;
  - `addToCart` reads it once for a new line and once for `updatedAt`;
  - `updateCart` reads it once for every line without `addedAt`, inside the `lines.map` callback, and once more for `updatedAt`, so those lines can get different times.
- LocalCart.LinesToItems: every line without `addedAt` gets the same `now`; the source's per-line clock readings can differ by milliseconds.
- The text formatting of cart ids (`toString(36)`, `substr`) is left out: ids are inputs, and `CreateCart` requires a fresh one, as the source silently assumes.
- Uri.Resolve follows RFC 3986, not the whole WHATWG URL standard behind `new URL`. It leaves out:
  - percent-encoding of spaces, `"`, `<`, `>`, `` ` ``, `{`, `}` and non-ASCII text;
  - `\` as a path separator, and `%2e` as a dot;
  - the stripping of tabs and newlines;
  - host lower-casing;
  - the exception on an unparsable URL.
- Resources.ShopScopedUrl covers only shop ids and identifiers made of unreserved characters, where the two standards agree. Any other id may be escaped, split or reinterpreted by `new URL` in ways this model does not follow.
- Gateway.Fetch, Gateway.PrintifyFetch and Resources.Perform use the corrected classification (see Findings). On a non-ok reply whose body is `null` they give an upstream error with that status, the default message and `null` as details. The source throws a TypeError there instead; that behaviour is modelled only by Gateway.ClassifyAsWritten.
- Action identifiers are strings. The source interpolates any value into a template literal, and that conversion to text is not modelled.
- LocalCart.AddItem: quantities are integers. The source's `+=` would concatenate if a quantity were a string.
- LocalCart.FindVariant: variant ids are strings compared by value. The source compares them with `===`, which also separates `1` from `"1"`.
- Carts are values in the store's map. The source hands out the stored object itself, so a caller that mutates a returned cart would change the store; that aliasing is not modelled.
- The 600-request quota and the 60 000 ms window are the source's constants, not parameters.
- Concurrency is left out: every operation modelled here runs to completion without interleaving.
- `src/utils/printify-server.js` is not part of this model. Neither are the route handlers, the browser-side cart helpers, the Svelte stores or the command-line scripts.

## Findings

| source | as written | input that shows it | evidently intended | confidence | as-written member | corrected member |
|---|---|---|---|---|---|---|
| src/utils/printify.js:77-84 | on a non-ok reply the message is read as `data.message`, where `data` is the parsed body | a 500 reply whose body is the JSON value `null`: `data` is `null`, so `data.message` throws a TypeError, and the thrown error has no `status` and no `details` | every non-ok reply becomes an error that carries the upstream status and details, with the default message when there is none | not executed | Gateway.ClassifyAsWritten, shown by Gateway.NullBodyLosesStatus | Gateway.Classify |
