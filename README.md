# Coffee-shop offline ordering: a Dafny model

This project models the three parts of the coffee-shop progressive web app that decide what happens to requests, caches and orders. It proves properties of that model.

- **The service worker (`sw.js`).** Every intercepted GET is sent to one of three fetch protocols:
  - network-first for the API (`/api/...`);
  - cache-first for images;
  - cache-first for everything else.

  The worker keeps four named caches and sweeps the caches of earlier versions away on install and activate. It answers the page's `UPDATE_CACHE` and `CLEAR_CACHE` messages, trims the dynamic cache once it grows past 10 MiB, and drains the orders the page left under `sync_order_` keys. The model is the class `Worker.ServiceWorker`. Its state is:
  - the set of caches, as a map from cache name to a map from URL to response;
  - the log of messages posted to the pages (`Channel.Event`);
  - the key/value store the drain reads.

  The pure rules behind the class have modules of their own:
  - request classification in `Routing`;
  - the eviction selection in `Eviction`;
  - the drain in `Outbox`.
- **The page (`app.js`).** This covers the cart, the queue of orders waiting to be sent, the stored list of completed orders, the records left for background sync, the five-minute menu cache and the theme switch. It also covers the labels the page computes: the category filter, the drink-count suffix, the cart badge, the status texts and the message icons. The classes are `Client.ClientApp`, `Client.MenuLoader` and `Client.ThemeSwitch`. Every `localStorage` slot the page writes is a field holding the value written into it.
- **The order server (`api/send-order.js`).** The class `OrderApi.OrderServer` holds the order list and the counter that names orders `ORD1000`, `ORD1001`, and so on. It covers accepting and rejecting an order, the bulk sync, the status lookup and the statistics. The statistics are the five most frequent item names and the average order value rounded half up.

Some things outside the program are inputs to the model:
- what the network answers (`NetResult`, `MenuFetch`);
- the clock, as integer milliseconds;
- how a stored value decodes (`parse`);
- a response body's size (`blobSize`);
- the order in which a cache or the store lists its keys;
- whether registering a background sync succeeds (`SyncOutcome`).

Every operation runs to completion before the next one starts.

Two behaviours of the code are worth knowing before reading the model:
- **Routing order.** The `fetch` listener asks the API test first (sw.js:100-107), so an image under `/api/` goes network-first. `Routing.ApiPrefixBeatsImageExtension` states this.
- **Eviction.** A pass stops once 30% *of the ceiling* has been reclaimed (sw.js:556-561), which can leave the dynamic cache over its ceiling. `Eviction.EvictionReachesTarget` proves what a pass reclaims. `Eviction.EvictionMayLeaveCacheOverCeiling` exhibits a cache that is still over the ceiling after a pass.

Cache entries are keyed by URL as the Cache API keys them. A URL written from the root, such as `/offline.html` or a precache file, is resolved against the worker's origin; a full URL is taken as it is (`Worker.Resolve`). So the precache, the three fetch handlers and `UPDATE_CACHE` meet on one key per resource. `Worker.RefreshReachesServedEntry` states this for the API cache.

A response counts as ok for status 200 to 299. The caches refuse a partial (206) response even when it is ok: `cache.put` rejects it, and so does `cache.addAll`. The handlers then answer it without storing it, and a precache with one such response stores nothing.

One observation about the drain: `syncPendingOrders` reads `localStorage`, which a service worker does not have. In a real browser the first access throws, so the drain ends with `SYNC_FAILED`. The model keeps the store abstract. It covers that outcome with `readable == false`, and covers the drain itself for a store that can be read.

## Model

| member | source | states |
|---|---|---|
| Routing.IsApiRequest | sw.js:444-448 | a path is an API request exactly when it starts with `/api/`; the second configured prefix adds nothing |
| Routing.IsImageRequest | sw.js:450-452 | an image request's path is at least four characters long and has a dot fourth or fifth from the end, where its extension begins |
| Routing.ImageExtensionMatches | sw.js:450-452 | any path ending in a dot and one of jpg/jpeg/png/gif/webp/svg, in any letter case, is an image request |
| Routing.ImageRequestHasExtension | sw.js:450-452 | conversely, every image request splits into a stem, a dot and an image extension |
| Routing.SplitAtDot | sw.js:450-452 | a path whose lower-cased form ends in a dot and an extension splits into a stem, that dot and an ending that lower-cases to the extension |
| Routing.ImageTestIgnoresCase | sw.js:450-452 | lower-casing a path does not change whether it is an image request |
| Routing.Route | sw.js:91-108 | a request is left to the browser exactly when it is not a GET or has a `chrome-extension:` URL; among the others, network-first is chosen exactly for `/api/` paths |
| Routing.ApiPrefixBeatsImageExtension | sw.js:100-107 | a path under `/api/` that ends in an image extension still goes network-first |
| Routing.ImagePathsUseImageCache | sw.js:100-107 | outside `/api/`, a path with an image extension goes to the image cache |
| Routing.OtherPathsUseStaticCache | sw.js:100-107 | every other intercepted request goes to the static cache |
| Worker.UpdateTargetFollowsRouting | sw.js:476-483 | the cache `UPDATE_CACHE` refreshes is the one the fetch listener's strategy reads, except that static paths go to the dynamic cache |
| Worker.UpdateTarget | sw.js:477-483 | the refresh target is one of the current caches and never the static cache; it is the API cache exactly for paths under `/api/` |
| Worker.RootAndAbsoluteMeet | sw.js:271 | a URL written from the root and the same URL written out in full with the worker's origin name one cache entry |
| Worker.RootPathsStayApart | sw.js:22-30 | different URLs written from the root name different cache entries |
| Worker.StaticFallback | sw.js:266-280 | no answer (a rejection) exactly without an Accept header; the cached offline page when HTML is accepted and the page is cached; otherwise the 503 text |
| Worker.OfflineApiResponse | sw.js:317-329 | the answer to an uncached API request while offline is a 503 JSON notice naming the request's URL, which is not ok and never stored |
| Worker.CacheFirstServed | sw.js:243-281 | a hit is answered as cached; on a miss the network's response is answered and stored only when the cache accepts it; a thrown fetch gets the fallback and stores nothing |
| Worker.NetworkFirstServed | sw.js:283-331 | an ok response is answered, announced with API_UPDATED and stored unless partial; otherwise the cached response, else a 503 JSON notice with the URL and time, with nothing stored or posted |
| Worker.Refreshed | sw.js:471-493 | without a URL, on a thrown or non-ok fetch, or for a relative URL the caches are unchanged; otherwise the target cache is opened and the response put under the URL's key unless partial |
| Worker.RefreshReachesServedEntry | sw.js:471-493 | `UPDATE_CACHE` with the full URL of an API resource puts the response under exactly the key the API handler matches for that resource, whether the request names it in full or from the root, and changes no other cache |
| Worker.PutAll | sw.js:209 | after `addAll` the cache holds its old keys plus every listed key; unlisted keys keep their responses; every new value is one of the fetched responses |
| Worker.PutAllStoresEach | sw.js:209 | with distinct keys, each key holds its own response |
| Worker.PrecacheKeys | sw.js:22-30 | the i-th precache key is the i-th file resolved against the origin |
| Worker.PrecacheKeysDistinct | sw.js:22-30 | the seven precache files have seven different keys |
| Worker.Precached | sw.js:204-214 | the static cache is opened; all seven files are stored when every fetch gave a response the cache accepts, none otherwise |
| Worker.PrecacheStoresEachFile | sw.js:204-214 | after a successful precache each file's key holds that file's response; a failed one leaves an existing static cache and every other cache as they were |
| Worker.PrecacheFileStored | sw.js:204-214 | after a successful precache, the key of any one of the seven files holds that file's response |
| Worker.CurrentOnly | sw.js:216-230 | exactly the caches with one of the four current names remain, with their contents |
| Worker.ServiceWorker.HandleStatic | sw.js:243-281 | answers and leaves the caches as `CacheFirstServed` on the static cache, with `StaticFallback` for a thrown fetch; the network is asked exactly on a miss; only the static cache changes; caches holding only storable responses keep that property |
| Worker.ServiceWorker.HandleApi | sw.js:283-331 | answers, posts and leaves the caches as `NetworkFirstServed`; only the API cache changes |
| Worker.ServiceWorker.HandleImage | sw.js:333-367 | answers and leaves the caches as `CacheFirstServed` on the image cache, with the SVG placeholder for a thrown fetch; the network is asked exactly on a miss; only the image cache changes |
| Worker.ServiceWorker.HandleFetch | sw.js:91-108 | requests that are not intercepted change nothing; for each route the answer, the new caches and the posted messages are exactly those of the routed handler (`NetworkFirstServed`, or `CacheFirstServed` on the image or static cache); the dynamic cache is never touched; only a static request with no Accept header whose fetch throws is rejected |
| Worker.ServiceWorker.Precache | sw.js:204-214 | the caches become `Precached`: all seven files stored when every fetch gave a storable response, none otherwise, with the failure swallowed |
| Worker.ServiceWorker.CleanOldCaches | sw.js:216-230 | the caches become `CurrentOnly` of the old ones |
| Worker.ServiceWorker.Install | sw.js:43-68 | the caches become `CurrentOnly` of the precached caches: the static cache exists, only current names remain, the other current caches keep their contents, and after a successful precache each file's key holds its response; SW_INSTALLED with the version is posted |
| Worker.ServiceWorker.Activate | sw.js:71-88 | old caches are swept and SW_ACTIVATED is posted |
| Worker.ServiceWorker.ClearAllCaches | sw.js:232-240 | every cache is deleted and CACHE_CLEARED is posted |
| Worker.ServiceWorker.UpdateSpecificCache | sw.js:471-493 | the caches become `Refreshed`: nothing changes without a URL, on a failed or non-ok fetch, or when the URL does not parse; the static cache is never changed |
| Worker.RefreshSparesStatic | sw.js:471-493 | a refresh leaves the static cache (present or absent) exactly as it was and stores only responses the cache accepts |
| Worker.ServiceWorker.Dispatch | sw.js:179-201 | UPDATE_CACHE leaves the caches as `Refreshed` and posts nothing; CLEAR_CACHE empties the caches and posts CACHE_CLEARED; SKIP_WAITING, GET_STATUS and unknown types change none of the modelled state |
| Worker.ServiceWorker.ManageCacheSize | sw.js:531-570 | when the scanned sizes exceed 10 MiB, exactly the entries `Eviction.EvictionCount` selects leave the dynamic cache; otherwise nothing is deleted; no other cache changes |
| Worker.ServiceWorker.DeleteAll | sw.js:564-566 | every listed key leaves the dynamic cache and nothing else changes |
| Worker.ScanSizes | sw.js:535-546 | the scan lists, in key order, the keys still cached with their sizes, and the running total is their sum |
| Worker.ScanKeepsListedKeys | sw.js:535-546 | scanning keys that are all cached lists exactly those keys, in order |
| Worker.ScanCoversCache | sw.js:535-546 | when the keys list the dynamic cache once each, the scan has one entry per cached key and no other |
| Worker.ServiceWorker.SyncPendingOrders | sw.js:370-441 | an unreadable store posts only SYNC_FAILED; no sync key posts SYNC_COMPLETED with count 0; otherwise the store and log follow `Outbox.Drain`, SYNC_COMPLETED carries success + errors = total; keys without the prefix are untouched and no key is added |
| Worker.ServiceWorker.DrainKeys | sw.js:393-426 | the per-key loop leaves the store, the log and the two counters exactly as `Outbox.Drain` describes |
| Outbox.Read | sw.js:395-397 | a key no longer stored reads as a failure; a stored one gives its value's decoding |
| Outbox.Step | sw.js:393-426 | one key is counted once, as a success or an error; only that key can leave the store, and it does exactly on a success |
| Outbox.Drain | sw.js:393-426 | the per-key loop over the keys: the counters only grow, the log keeps its start and grows by one notice per success |
| Worker.CollectSyncKeys | sw.js:375-381 | the keys with the `sync_order_` prefix, in enumeration order |
| Outbox.SyncKeys | sw.js:375-381 | a key is selected exactly when it is listed and has the prefix |
| Outbox.SyncKeysAppend | sw.js:376-381 | selecting keys one at a time gives the same list as selecting all at once |
| Outbox.SyncKeysDistinct | sw.js:375-381 | selecting from keys that are all different gives keys that are all different |
| Outbox.SyncKeysOfListing | sw.js:375-381 | when the keys list the storage once each, the selection holds each stored `sync_order_` key exactly once and nothing else |
| Outbox.DrainCountsEveryKey | sw.js:393-426 | each visited key is counted once, as a success or as an error |
| Outbox.DrainLeavesOtherKeys | sw.js:393-426 | unvisited keys keep their values and no key is added |
| Outbox.DrainRemovesExactlyDecodable | sw.js:395-420 | a visited key is gone afterwards exactly when its value decoded; an undecodable value stays unchanged |
| Outbox.DrainReportsEachKey | sw.js:393-426 | with distinct keys, one ORDER_SYNCED per decodable key, in visiting order, with its order id, and the success count is their number |
| Outbox.ErrorsAreTheUndecodableKeys | sw.js:422-425 | the error count is the number of visited keys that do not decode |
| Eviction.FirstReaching | sw.js:556-561 | the first prefix length at which the reclaimed size reaches 30% of the ceiling, or all entries |
| Eviction.EvictionCount | sw.js:553-561 | the number of entries deleted is the shortest prefix of the scan that reaches the target, so every entry taken was needed, or the whole scan when none does |
| Eviction.EvictionReachesTarget | sw.js:549-561 | when the total exceeds the ceiling, the deleted entries reclaim at least 3145728 bytes |
| Eviction.EvictionMayLeaveCacheOverCeiling | sw.js:549-566 | one pass can leave the cache above the ceiling |
| Eviction.PlanEviction | sw.js:553-561 | the loop with its early `break` takes exactly the first `EvictionCount` entries and returns their keys and total |
| Client.FindItem | app.js:371 | the position of the first drink with the id, or none exactly when no drink has it |
| Client.SumPrices | app.js:451 | an empty cart totals 0; with no negative prices the total is non-negative and at least each line's price |
| Client.SumPricesAppend | app.js:451 | the total of two lists of lines is the sum of their totals |
| Client.SumPricesMoveToEnd | app.js:451 | moving a line does not change the total |
| Client.SelectedCategory | app.js:307 | the selected category is never empty; it is `all` exactly when nothing, the empty value or `all` is selected, and any other non-empty selection is used as it is |
| Client.FilterMenu | app.js:303-312 | for a non-empty menu, `all` (or no selection) keeps the menu as it is; any other value keeps exactly the drinks of that category |
| Client.FilterMenuKeepsEachDrink | app.js:310-312 | each drink of the selected category is shown as many times as it is in the menu |
| Client.DrinkSuffix | app.js:339-340 | `напій` exactly for 1, `напої` exactly for 0 and 2 to 4, `напоїв` exactly from 5 |
| Client.BadgeText | app.js:425-431 | `99+` exactly above 99; otherwise the decimal digits of the count, which read back as the count, have no leading zero (`0` only for an empty cart) and are a single digit exactly below 10 |
| Client.BadgeVisible | app.js:429 | the badge is shown exactly when the cart is not empty |
| Client.BadgeTellsCountsApart | app.js:428 | two different counts up to 99 show different badges |
| Client.StatusText | app.js:627-634 | a status is shown unchanged exactly when it is not one of the three known ones, which get their labels |
| Client.MessageIcon | app.js:688-696 | the information icon exactly for types other than success, error and warning |
| Client.NextTheme | app.js:58-60 | `dark` exactly when the current theme is `light`, missing or empty; otherwise `light` |
| Client.ToggleTwiceRestores | app.js:58-60 | toggling twice returns to the starting theme |
| Client.ThemeSwitch.constructor | app.js:52-56 | the attribute starts as the stored theme, or `light` when none or the empty one is stored |
| Client.ThemeSwitch.Toggle | app.js:58-65 | the attribute and the stored choice both become the next theme |
| Client.MenuLoader.LoadMenu | app.js:227-286 | the cache is used without the network exactly when the load is not forced, a timestamp exists, the age at the first clock reading is under 300000 and data is cached; a fetched menu is shown and stored with the second clock reading, taken after the fetch; after a failure the cached menu of any age is shown, else the shown menu stays |
| Client.ServeFromCache | app.js:229-235 | the cached menu is served when the load is not forced, a timestamp is stored, the age is under five minutes and a menu is cached |
| Client.FetchedMenuStaysFresh | app.js:229-233 | a menu fetched at time t serves loads that are not forced until just before t + 300000, and not at t + 300000 |
| Client.AllFailedDoublesQueue | app.js:584-604 | when every registration fails, a pass puts every queued order on the queue a second time |
| Client.RecordedKeys | app.js:570-576 | a pass leaves a sync record for exactly the orders whose registration was attempted |
| Client.ClientApp.constructor | app.js:350-359 | `loadCart` and `loadPendingOrders` (app.js:523-527): the cart and the queue in memory are what storage holds, so memory and storage agree |
| Client.ClientApp.AddToCart | app.js:370-387 | an unknown drink changes nothing; otherwise one line with that drink's id, name and price goes at the end, earlier lines stay, and the cart is saved |
| Client.ClientApp.RemoveFromCart | app.js:389-393 | the cart becomes the lines with another id, in their order, each as often as before, and is saved |
| Client.ClientApp.SyncOrder | app.js:559-590 | without background sync nothing changes; otherwise the order is recorded under `sync_order_<id>`, and a failed registration queues it again |
| Client.ClientApp.Checkout | app.js:442-466 | an empty cart changes nothing; otherwise the order `order_<now>` has the cart's lines, their total and status `pending`; the cart is emptied and the order queued, both saved, then synced |
| Client.ClientApp.SyncOrders | app.js:592-604 | the queue grows by exactly the orders whose registration failed, and a record is left per attempted order, all over a copy taken before the pass |
| Client.ClientApp.CompleteOrderSync | app.js:606-624 | every queued order with that id leaves the queue, which is saved, and one copy with status `completed` goes at the end of the completed orders |
| OrderApi.IdsAreDistinct | api/send-order.js:20-21 | orders numbered from 1000 in storage order have pairwise distinct ids |
| OrderApi.Acceptable | api/send-order.js:45 | an order is accepted exactly when it is present and has a present, non-empty item list |
| OrderApi.SyncedRecords | api/send-order.js:102-119 | the i-th synced order keeps its body, gets the i-th next id, status `synced` and its own id as `originalId` |
| OrderApi.SyncReplies | api/send-order.js:114-118 | the i-th answer entry carries the i-th batch order's own id, the i-th next id and success |
| OrderApi.SyncKeepsNumbering | api/send-order.js:102-112 | appending a synced batch numbered from the next counter value keeps the stored orders numbered from 1000 in storage order |
| OrderApi.SyncOneMore | api/send-order.js:102-118 | storing one more order of the batch appends its record, with the next id and status `synced`, and its answer entry |
| OrderApi.SumTotalsAppend | api/send-order.js:165-167 | the sum of totals over two lists is the sum of their sums |
| OrderApi.SumTotalsSign | api/send-order.js:165-167 | with no negative total the sum is not negative, and orders without a total add nothing (`order.total || 0`) |
| OrderApi.AverageOrderValue | api/send-order.js:162-170 | 0 with no orders; otherwise the integer within one half of the mean total, halves rounded up |
| OrderApi.AverageIsUnique | api/send-order.js:169 | only one integer is within one half of the mean in that sense |
| OrderApi.Tally | api/send-order.js:146-154 | the dictionary after counting the names in order, a new name added at the end |
| OrderApi.TallyCounts | api/send-order.js:146-154 | the dictionary lists each name once, with the number of its occurrences, and lists every occurring name |
| OrderApi.TallyNamesOccur | api/send-order.js:148-154 | only names that occur are counted |
| OrderApi.InsertPermutes | api/send-order.js:157 | inserting adds exactly the inserted entry, and every entry of the result is either it or an entry of the list |
| OrderApi.InsertKeepsOrder | api/send-order.js:157 | inserting after every entry with a count at least as large keeps the list descending |
| OrderApi.SortByCount | api/send-order.js:157 | the sort keeps the number of entries |
| OrderApi.SortByCountSorts | api/send-order.js:157 | the sort gives a descending permutation of the entries |
| OrderApi.InsertKeepsNamesDistinct | api/send-order.js:157 | inserting a new name keeps the names distinct and adds nothing else |
| OrderApi.SortKeepsNamesDistinct | api/send-order.js:157 | sorting keeps the names distinct |
| OrderApi.RankingCounts | api/send-order.js:146-157 | the ranking is descending, has each name once with its occurrence count, and ranks every occurring name |
| OrderApi.Popular | api/send-order.js:158 | at most five entries |
| OrderApi.PopularIsTopFive | api/send-order.js:145-160 | the answer is descending, names are distinct, counts are the occurrence counts, a name left out occurs no more often than any shown, and fewer than five are shown only when all are |
| OrderApi.TopOfRanking | api/send-order.js:156-159 | a prefix of a ranking keeps its properties and outranks everything it leaves out |
| OrderApi.LeftOutRanksLower | api/send-order.js:157-158 | a name ranked but cut off sits after the cut, with a count no larger than any kept entry |
| OrderApi.CountNames | api/send-order.js:150-152 | counting one order's item names into the dictionary gives the dictionary of all names counted so far followed by those |
| OrderApi.CountOneMore | api/send-order.js:151 | counting one more item name bumps that name's entry in the dictionary |
| OrderApi.ReorderKeepsCounts | api/send-order.js:154-157 | any reordering of a dictionary that counts the names still counts them, each with its number of occurrences |
| OrderApi.OrderServer.constructor | api/send-order.js:20-21 | the list starts empty and the counter at 1000 |
| OrderApi.OrderServer.SendOrder | api/send-order.js:39-75 | a missing order or missing or empty items gives 400 and changes nothing; otherwise the order with the next id, receive time, `processing` and the estimated time goes at the end, the counter goes up by one and the queue position is the new length |
| OrderApi.OrderServer.SyncOrders | api/send-order.js:97-126 | one successful result per batch order in batch order with its original id and consecutive new ids; the list grows by exactly the synced records; the counter by the batch length; a missing batch syncs nothing; the numbering invariant is kept |
| OrderApi.OrderServer.OrderStatus | api/send-order.js:78-94 | 404 exactly when no stored order has the id, otherwise the first one that does |
| OrderApi.OrderServer.PopularItems | api/send-order.js:145-160 | the nested counting loops, the sort and the cut to five give `Popular` |
| OrderApi.OrderServer.Stats | api/send-order.js:129-142 | the total is the list length, the popular items and average are as above, and the last order is none exactly for an empty list |

## Left out

- Push notifications, `notificationclick`, `skipWaiting`, `clients.claim` and the `sync` event listener are not modelled. The listener only calls the drain or `updateMenuCache`. These are browser lifecycle hooks with no state of the model's own.
- `updateMenuCache` and `sendStatusToClient` are not modelled: they are not part of the modelled core.
- On the page, registration, update prompts, `clearCache`, `forceUpdate`, the DOM rendering and the debug panel are not modelled.
- Concurrency is not modelled. Each operation runs to completion. This leaves out:
  - the parallel steps of install and activate;
  - the un-awaited `cache.put` calls;
  - the timers (`setInterval` for eviction, the 500 ms simulated delivery, the 2 s completion timer, and the 1 s delay before `/api/send-order` answers). The queue position is taken when the order is stored.
- The timestamp `notifyClients` adds to each message, and the ISO date strings, are not modelled. Time is an integer; `receivedAt`, `syncedAt` and the cart line timestamp are dropped or kept as that integer.
- `todayOrders` in `/api/stats` is not modelled: it is a prefix match on ISO date strings.
- JSON decoding is not modelled: a parameter stands in for it, and a slot read back gives what was written. Values of the wrong JSON type are outside the typed records (a non-array `items`, a non-number `total` or price, a cart entry without a name). Storage quota errors are not modelled either.
- Object prototype keys (`constructor`, `toString`) in the status, icon and item-count lookups are not modelled.
- Eviction.PlanEviction: the scan order is used in place of the sort by `Date.now()` stamps. With a clock that does not go back during the scan, the stamps are non-decreasing and the sort is stable, so the two orders agree.
- OrderApi.Popular: entries are taken in insertion order. `Object.entries` would list integer-like item names first, in numeric order.
- OrderApi.PopularIsTopFive: the proof does not state which of several equally frequent names are kept at the cut. The model's sort is stable, as the language's sort is.
- OrderApi.AverageOrderValue: totals are integers. Floating-point division and rounding of fractional totals are not modelled.
- Client.FilterMenu: with an empty menu `renderMenu` returns at once (app.js:305) and the cards already on the page stay; the model describes only the non-empty case, since the page's DOM is not modelled.
- Client.SumPrices: prices and totals are integers. The page adds JavaScript numbers in double precision; the rounding of fractional prices is not modelled.
- Worker.Resolve: only URLs written from the root and full URLs are resolved. Other relative forms (`menu.json`, `//host/path`) and URL normalisation (letter case of scheme and host, default ports, fragments) are not modelled.
- The 30% reclaim target is the exact integer 3145728, which is what the code's double-precision product evaluates to.
- Response bodies are abstract, and so is a body's byte size (`blobSize`). Matching a cached request is by URL alone; `Vary` and other header matching are not modelled.
