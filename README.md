# Daily Lures — a Dafny model of its decision logic

Daily Lures is a browser page that fetches current weather for three fixed lakes. For each lake it estimates the water temperature from the air temperature, picks the lake whose estimate is closest to 68°F, and recommends a fishing lure for that water temperature from a small table. A companion service worker caches the static app shell for offline use.

This project models the two pieces of decision logic and proves their properties:

- `lures.dfy` (module `Lures`): the lure table `LURES` and the first-match lookup `PickLure`, with the fallback `"Plastic worm rig"`.
- `selector.dfy` (module `Selector`): the lake list `LAKES`, the heuristic `max(40, air - 5)`, the distance `|water - 68|`, and the selection loop of `computeBest` as the method `ComputeBest`. The loop keeps the first fulfilled outcome with the strictly smallest distance. The refresh entry point `update` is the class `Page` with the method `Update`. With no key it only shows the prompt. With no result it leaves the display alone.
- `shell_cache.dfy` (module `ShellCache`): cache storage as a class `CacheStorage` holding a map from bucket name to the set of cached URLs. Its methods `Install`, `Activate` and `Fetch` model the worker's three event handlers. `Install` and `Activate` are each tied to a state function (`AfterInstall`, `Purged`), and the lemmas are stated about those functions.

Temperatures are Dafny `real`s. Each lake's weather query is an input: a `QueryOutcome` that is either `Rejected` or `Fulfilled(lake, airTemp, condition)`. The loop's initial `bestDiff = Infinity` is the `Infinity` case of a small `Bound` datatype. The network behind `install` is a parameter `reachable`, the set of URLs it would serve. A request's origin is a plain string, compared with the worker's own origin.

Two consequences of the Cache API calls:

- `caches.open` creates the `shell-v2` bucket before `addAll` runs. A failed install therefore still leaves that bucket in place, with its old contents (or empty), and adds none of the manifest (`AfterInstall`).
- `addAll` adds to whatever the bucket already held, so the bucket is exactly the manifest only when it was absent before (`InstallFreshIsManifest`). Otherwise it holds its old entries plus the manifest.

## Model

| member | source | states |
|---|---|---|
| `Lures.PickLureIn` | app.js:57-60 | the result is the lure of the first row whose half-open range `[min, max)` holds the water temperature, and the fallback when no row matches |
| `Lures.PickLure` | app.js:57-60 | with the page's table, the lookup returns the lure of any row whose range holds the water temperature, and returns the fallback if and only if water < 0 or water >= 90 |
| `Lures.TableFallbackExactly` | app.js:10-15 | scanning the page's table yields the fallback if and only if water < 0 or water >= 90 |
| `Lures.ContiguousCovers` | app.js:10-15 | a non-empty table of contiguous ranges has a matching row exactly on [first min, last max) |
| `Lures.LuresContiguous` | app.js:10-15 | the page's table is contiguous, starts at 0 and ends at 90 |
| `Lures.LuresDisjoint` | app.js:10-15 | no two rows of the page's table match the same temperature |
| `Lures.PickLureBoundaries` | app.js:11-14 | 55 maps to "Carolina rig or dropshot", 65 and 70 to "Crankbait or spinnerbait", 90 to the fallback |
| `Selector.WaterEstimate` | app.js:81 | the estimate is at least 40, at least air - 5, and equal to one of the two |
| `Selector.Diff` | app.js:82 | the distance is non-negative, is ±(water - 68), and is zero exactly at 68 |
| `Selector.ComputeBest` | app.js:77-88 | null exactly when no outcome is fulfilled; otherwise the record of a winning outcome: minimal distance among fulfilled outcomes, strictly smaller than every earlier fulfilled one, and name, air, condition, water and lure all taken from that outcome |
| `Selector.WinnerUnique` | app.js:83-86 | at most one outcome satisfies the winning condition, so the strict-less tie rule determines the result |
| `Selector.WinnerExists` | app.js:77-88 | whenever some outcome is fulfilled, a winning outcome exists |
| `Selector.RejectedNeverWins` | app.js:79 | a failed query outcome is never the chosen one |
| `Selector.SelectedFallbackOnlyWhenHot` | app.js:81-85 | a chosen record's water is at least 40, and its lure is the fallback exactly when its water is at least 90 |
| `Selector.ExampleSecondLakeWins` | app.js:81-85 | airs 80, 75, 60 select the second lake, with water 70 and a crankbait |
| `Selector.ExampleComputeBest` | app.js:77-88 | running the selection loop on airs 80, 75, 60 returns exactly Lake Mendota's record (air 75, water 70, crankbait), derived from the loop's contract and the uniqueness of the winner |
| `Selector.ExampleEstimates` | app.js:81 | air 10 gives water 40; air 70 gives water 65 and "Crankbait or spinnerbait" |
| `Selector.Page.Show` | app.js:62-70 | the spot line names the chosen lake and the displayed record is the chosen one |
| `Selector.Page.Update` | app.js:91-99 | with no key or an empty key: no queries and the prompt; otherwise one query per lake; no fulfilled outcome leaves the display unchanged; else the winning record is shown |
| `ShellCache.AfterInstall` | service-worker.js:5-7 | the current bucket exists afterwards; other buckets are untouched; on success every manifest entry is in it; on failure its contents are unchanged; it never gains anything outside the manifest |
| `ShellCache.InstallFreshIsManifest` | service-worker.js:3-6 | installing successfully into storage without the current bucket leaves exactly the manifest in it |
| `ShellCache.FailedInstallCachesNothingNew` | service-worker.js:6 | after a failed install, a URL is cached if and only if it was cached before |
| `ShellCache.Purged` | service-worker.js:11-12 | the only bucket name left is the current tag, and that bucket's contents are unchanged |
| `ShellCache.PurgedIdempotent` | service-worker.js:11-12 | activating twice gives the same storage as activating once |
| `ShellCache.InstalledAssetsStayCached` | service-worker.js:2-12 | after a successful install, and after a following activate, every manifest entry is cached |
| `ShellCache.CacheStorage.Install` | service-worker.js:5-7 | succeeds exactly when every manifest entry is reachable; the new storage is `AfterInstall` of the old |
| `ShellCache.CacheStorage.Activate` | service-worker.js:9-15 | deletes the stale buckets one by one, leaving `Purged` of the old storage |
| `ShellCache.CacheStorage.Fetch` | service-worker.js:17-22 | cross-origin requests are not intercepted; a same-origin GET request is answered from the cache when some bucket holds its URL; every other same-origin request goes to the network; storage is not modified |

## Left out

- DOM lookup, `requestAnimationFrame`, date formatting and the `toFixed` text of `updateUI`. `Page.Show` keeps the record itself in place of the formatted lines.
- Key storage in `localStorage` (get, set, clear) and the save and clear buttons. `Update` takes the stored key as an optional input.
- The network side of a weather query: URL construction, the 8-second abort timeout, HTTP status checks and JSON parsing. Each query is an input `QueryOutcome`.
- The concurrency of `Promise.allSettled`. The outcomes are a sequence in lake order, one per lake (`ForLakes`, demanded by `Update` when a key is present). `ComputeBest` accepts any sequence.
- The `catch` branch of `update`. `computeBest` throws when a fulfilled reply is `null` or lacks `main`. It also throws when a reply that lacks `weather`, or has an empty `weather` list, would become the running best, because the condition is read only when the record is built. Such a throw discards the other lakes' results, and the whole refresh shows the error line. The model takes every fulfilled reply as well formed: its air temperature and its first condition are the `airTemp` and `condition` of an outcome.
- IEEE-754 behaviour such as NaN temperatures, which the strict comparison skips. Temperatures are reals.
- The debounce, the visibility listener, the midnight timer and `cacheKey`. These are timer and event wiring, and `cacheKey` is unused.
- Service-worker runtime mechanics: `waitUntil`, `respondWith`, `clients.claim()`, URL resolution of relative asset paths, and how `URL` derives an origin. Asset paths and request URLs are compared as already-resolved strings.
- `ShellCache.CacheStorage.Fetch`: the network's reply and the cached responses are not modelled. The answer says only where the response comes from. The matching rules of `caches.match` are reduced to two checks: the request is a GET (no `ignoreMethod`) and its URL is in some bucket. `Vary` headers, query-string matching options and the order in which buckets are searched are not modelled.
