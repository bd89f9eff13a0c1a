# Salah Time — a Dafny model of its offline cache and dashboard state

Salah Time is a small installable web app. It shows the day's six prayer times, a Qibla compass, a Hijri calendar and a Zakat calculator. Astronomy, Hijri conversion, geolocation and the orientation sensor all come from a library or the browser. This model covers the logic the repository itself owns:

- **The two service workers.** `public/sw.js` serves the cache generation `salah-time-v3`; the root `sw.js` serves `salah-time-v1`.
  - Both pre-cache the app shell on install: `/`, `/manifest.json`, `/icon-192.png` and `/icon-512.png`.
  - Both answer fetches cache-first, falling back to the network.
  - Only `public/sw.js` has an activate handler, which deletes every other generation.
- **The page component `SalahApp`** (`pages/index.js`).
  - Its state fields: `data`, `view`, `heading`, `hasPermission` and `installPrompt`, plus the registered orientation listeners.
  - The handlers that change those fields.
  - The derivations the prayers and calendar views render.

Modules:

- `Common` (`common.dfy`): `Option`, `Distinct` and `Subsequence`.
- `CacheApi` (`cache_api.dfy`): the browser's Cache Storage, the part of sections 5.4 and 5.5 of the W3C Service Workers specification that the workers use.
  - Storage is an ordered list of cache names, in creation order. Each name maps to a cache, which maps a URL to a `Response`.
  - `Storage` holds the value-level definitions. The class `CacheStorage` is the mutable `caches` object, and its methods are proved against those definitions.
  - `caches.match` searches every cache in creation order and answers from the first one that holds the request.
  - `cache.addAll` either stores every entry or stores none. It fails when any fetch is rejected, when a response status is outside 200..299 or is 206 (a partial response), or when a URL is listed twice. Storage quota failures are not modelled (see "Left out").
  - `caches.open` creates a missing cache, empty, even when the `addAll` that follows fails.
- `ShellWorker` (`shell_worker.dfy`): the install and fetch handlers both workers share, with the generation name as a parameter.
  - Install is tied to the value-level function `Installed`. Lemmas state that it is all-or-nothing and touches no other generation.
  - The fetch handler answers cache-first and writes nothing.
- `PublicWorker` (`public_worker.dfy`) and `RootWorker` (`root_worker.dfy`): each worker's own generation name and install handler.
  - `PublicWorker` also has the activate handler, tied to the function `Purged`. Lemmas state that the purge leaves only the current generation and is idempotent.
  - `RootWorker` also has a run over any sequence of events, in which the set of cache names only grows.
- `Dashboard` (`dashboard.dfy`): the class `SalahApp` with one method per handler. Each method's `modifies` frame lists only the fields that handler writes. The module also holds the pure row and calendar derivations.

Inputs taken as parameters:

- The network: a function from URL to fetch result.
- The results of the astronomy library.
- The time formatter.
- The Hijri day formatter.
- Today's day number.

Behaviour of the code worth noting:

- **Fetch searches every generation, not just the current one.** The code uses `caches.match`, which searches every stored cache in creation order. An older generation that holds the same URL is served first until activate deletes it; `StaleServedBeforeActivate` shows this.
- **No normalisation of the orientation heading.** The code writes `360 - alpha` unreduced, so an alpha of 0 gives 360.
- **A null `alpha` is not ignored.** It converts to 0, so the heading becomes 360 instead of keeping the previous value.
- **`hasPermission` is never set to false.** A denied request simply leaves it unchanged.
- **No row is highlighted after Isha.** No row is lit while `next` names none of the six rows: the initial `""`, or the library's `"none"`. There is no wrap-around to Fajr in this code.

## Model

| member | source | states |
|---|---|---|
| `CacheApi.FetchAll` | public/sw.js:14 | The fetches behind `addAll` succeed exactly when every URL's fetch resolves with a status in 200..299 other than 206. The result then holds those responses, in order. |
| `CacheApi.FilterOut` | public/sw.js:34 | `keys.filter(key => ...)`: the result holds exactly the listed names not in the filter set, in their original relative order, and stays free of duplicates. |
| `CacheApi.PutAll` | public/sw.js:14 | Storing a batch adds exactly the batch's URLs. It keeps every other entry. When the URLs are distinct, each is stored with its own response. |
| `CacheApi.FilterOutTwice` | public/sw.js:34 | Filtering names out in two steps is the same as filtering out both sets at once. |
| `CacheApi.Storage.Opened` | public/sw.js:12 | `caches.open` keeps every existing cache unchanged. It reuses an existing cache of that name, or appends a new empty one at the end of the order. |
| `CacheApi.Storage.AddedAll` | public/sw.js:12-14 | `addAll` is all-or-nothing. On success every listed URL holds its fetched response, and the cache gains no URL outside the batch. On failure storage is exactly as before. Other caches and unlisted entries never change. |
| `CacheApi.Storage.Without` | public/sw.js:34 | Removing a set of names leaves exactly the other caches, with their entries unchanged and their names in the same creation order. |
| `CacheApi.Storage.Deleted` | public/sw.js:34 | `caches.delete(name)` removes that name and only that name. Every other cache keeps its entries, and the remaining names keep their creation order. |
| `CacheApi.Storage.Match` | public/sw.js:22 | `caches.match` answers only a response some stored cache holds for the request. |
| `CacheApi.MatchFindsFirst` | public/sw.js:22 | `caches.match` answers `r` exactly when some cache holds `r` for the request and no cache created earlier holds the request. |
| `CacheApi.MatchMissIff` | public/sw.js:22-24 | `caches.match` misses exactly when no cache, current or stale, holds the request. |
| `CacheApi.CacheStorage.Open` | public/sw.js:12 | The in-place `caches.open` makes the storage equal to `Opened`. |
| `CacheApi.CacheStorage.AddAll` | public/sw.js:14 | The in-place `addAll` resolves exactly when `AddAllSucceeds` holds, and the storage becomes `AddedAll`. |
| `CacheApi.CacheStorage.Delete` | public/sw.js:34 | The in-place `caches.delete` resolves to whether the name existed, and the storage becomes `Deleted`. |
| `CacheApi.CacheStorage.Match` | public/sw.js:22 | The in-place `caches.match` changes nothing. It misses exactly when no cache holds the request. Otherwise it answers the response of the first cache, in creation order, that holds it. |
| `ShellWorker.Installed` | public/sw.js:12-14 | Install opens the generation and then adds all four assets. It leaves every other generation and its entries unchanged. The only name it can add is its own, appended last. |
| `ShellWorker.InstallAllOrNothing` | public/sw.js:12-14 | If every asset fetch succeeds, the generation holds all four assets with their fetched responses and gains no other URL. Otherwise it holds exactly what it held before, or nothing if it is new. |
| `ShellWorker.Install` | public/sw.js:10-17 | The install handler succeeds exactly when every asset fetch succeeds, and storage becomes `Installed`. |
| `ShellWorker.HandleFetch` | public/sw.js:20-27 | Without modifying storage, the handler takes one of two paths. If any generation holds the request, it answers the response of the first such generation in creation order, without using the network. Otherwise it answers exactly what the network gives. `sw.js` lines 17-21 are the same handler. |
| `PublicWorker.Install` | public/sw.js:10-17 | The install handler for `salah-time-v3` succeeds exactly when every asset fetch succeeds, and storage becomes `ShellWorker.Installed` for that generation. |
| `PublicWorker.Purged` | public/sw.js:30-38 | After activate, the only generation that can remain is `salah-time-v3`, with its entries unchanged. |
| `PublicWorker.FilterOutAllBut` | public/sw.js:34 | When every listed name other than `keep` is in the filter set, filtering a list of distinct names leaves `[keep]` if `keep` was listed, and `[]` otherwise. |
| `PublicWorker.PurgedOnlyCurrent` | public/sw.js:30-38 | After activate, the only name that can remain is `salah-time-v3`. It remains, with its entries untouched, whenever it existed. |
| `PublicWorker.PurgeIdempotent` | public/sw.js:30-38 | Activating twice gives the same storage as activating once. |
| `PublicWorker.MatchAfterPurge` | public/sw.js:22-24 | After activate, a fetch can be answered from the cache only with an entry of `salah-time-v3`. |
| `PublicWorker.StaleServedBeforeActivate` | public/sw.js:22-34 | In any storage where `salah-time-v1` was created before `salah-time-v3` and both hold `/`, the response served for `/` comes from `salah-time-v1` or a generation created before it. After activate, `salah-time-v3`'s response is served. |
| `PublicWorker.WithoutTwice` | public/sw.js:34 | Deleting one set of names, then another, is the same as deleting both at once. |
| `PublicWorker.DeletingStaleIsPurge` | public/sw.js:32-34 | Deleting the set of names that `keys().filter(key => key !== CACHE_NAME)` lists gives exactly `Purged`. |
| `PublicWorker.Activate` | public/sw.js:30-38 | The activate loop deletes each stale name in turn, and storage ends equal to `Purged` of the storage before. |
| `RootWorker.Install` | sw.js:10-14 | The install handler for `salah-time-v1` succeeds exactly when every asset fetch succeeds, and storage becomes `ShellWorker.Installed` for that generation. |
| `RootWorker.Step` | sw.js:10-21 | An install event can only append `salah-time-v1` and changes no other cache. A fetch event changes nothing. |
| `RootWorker.Run` | sw.js:10-21 | After any sequence of events, the only cache that can be new is `salah-time-v1`. |
| `RootWorker.NamesOnlyGrow` | sw.js:1-21 | Over any sequence of install and fetch events, no cache name is removed or reordered (the old names stay a prefix). No generation other than `salah-time-v1` changes. |
| `Dashboard.KeysAreLibraryNames` | pages/index.js:114-117 | Lower-casing the six row labels gives `fajr`, `sunrise`, `dhuhr`, `asr`, `maghrib` and `isha`. |
| `Dashboard.RowTime` | pages/index.js:117 | A row's time text is never empty. It is `--:--` when there are no times. Otherwise it is the formatted time, unless that text is empty. |
| `Dashboard.PrayerRows` | pages/index.js:114-119 | The prayers view renders six rows. Row `i` shows its prayer's label and the time text of that same prayer, and it is highlighted exactly when `data.next` is its lower-cased label. |
| `Dashboard.AtMostOneHighlighted` | pages/index.js:114-115 | A row is highlighted exactly when `data.next` is its lower-cased label. At most one row is highlighted, and none when `next` names no row, such as `""`. |
| `Dashboard.NoFixShowsPlaceholders` | pages/index.js:117 | Without a location fix, every one of the six rows shows `--:--`. |
| `Dashboard.FirstOfMonthIsDayOne` | pages/index.js:74-75 | `setDate(1)` lands on day 1 of `calDate`'s month. In any calendar where the day of the month goes up by one each day or starts again at 1, counting back by the day of the month less one reaches a day whose day of the month is 1. |
| `Dashboard.RenderCalendarDays` | pages/index.js:72-89 | Always exactly 30 cells, for the consecutive days from day 1 of `calDate`'s month, whatever the month's length. The first cell's day has day of the month 1. Each cell shows the Hijri day of its own day. A cell is marked today exactly when its day is today, so at most one cell is marked. |
| `Dashboard.HeadingFor` | pages/index.js:45-49 | The permission-path listener uses a truthy `webkitCompassHeading` unchanged. Otherwise, and always on the fallback path, the heading is `360 - alpha`, or 360 for a null alpha. An alpha in [0, 360) gives a heading in (0, 360]. |
| `Dashboard.HeadingNotNormalised` | pages/index.js:45-49 | There is no reduction modulo 360. An alpha of 0, or a null alpha, gives a heading of 360. |
| `Dashboard.ListenersAgreeWithoutCompass` | pages/index.js:45-49 | The fallback listener ignores `webkitCompassHeading`. The permission-path listener gives the same heading as the fallback one whenever that reading is 0 or missing. |
| `Dashboard.SalahApp.constructor` | pages/index.js:9-17 | The initial state is view `prayers`, heading 0, no permission, no install prompt, and no listeners. The data record is `{times: null, qibla: 0, city: "Jeddah", next: ""}`. |
| `Dashboard.SalahApp.SetView` | pages/index.js:199-202 | A navigation button sets the view to exactly its value. Its frame lets it write no other field, and no other handler's frame includes `view`. |
| `Dashboard.SalahApp.OnBeforeInstallPrompt` | pages/index.js:21-24 | The latest `beforeinstallprompt` event replaces the stored one. |
| `Dashboard.SalahApp.HandleInstall` | pages/index.js:29-37 | With no stored prompt, only the instructions are shown and nothing changes. Otherwise the stored prompt is shown, and it is cleared exactly when the outcome is `accepted`. |
| `Dashboard.SalahApp.StartCompass` | pages/index.js:40-51 | With `requestPermission`, permission is set and the compass listener is registered exactly on `"granted"`. Without it, permission is set and the alpha listener is registered unconditionally. `hasPermission` is never reset to false. |
| `Dashboard.SalahApp.OnOrientation` | pages/index.js:45-49 | With no listener the heading is kept. Otherwise it is the value the last registered listener computes. |
| `Dashboard.SalahApp.OnLocationFix` | pages/index.js:59-66 | A fix writes times, qibla and next together in one record, and the city stays `"Jeddah"`. No other field changes. |
| `Dashboard.InstallIsOneShot` | pages/index.js:29-37 | After an accepted prompt, the next click on the install bar finds no stored prompt and only shows instructions. |
| `Dashboard.DismissKeepsPrompt` | pages/index.js:29-37 | After a dismissed prompt, the next click prompts with the same stored event. |

## Left out

- Prayer-time astronomy, the Qibla bearing and the choice of next prayer (`PrayerTimes`, `Qibla`, `nextPrayer`). These come from a library, and the model takes their results as inputs to `OnLocationFix`.
- Hijri conversion (`getHijri` through `Intl.DateTimeFormat`) and the date-converter button. These are platform formatting: the calendar takes the Hijri day as a function parameter, and the converter is not modelled.
- JavaScript `Date` arithmetic, including the month buttons that mutate `calDate` with `setMonth` and the `toDateString` comparison. Days are abstract day numbers, and the caller supplies the day-of-the-month function (`getDate`), which may be any calendar that counts up by one or starts again at 1. The cell's Gregorian label is not modelled.
- The Zakat amount `(wealth * 0.025).toFixed(2)` and the `wealth`, `convDate` and `convertedResult` fields. This is floating-point formatting.
- The Qibla needle rotation `data.qibla - heading` and `Math.round(data.qibla)`. These are rendering only.
- `Dashboard.Truthy`: NaN readings are not modelled. Orientation values are reals, so the rule that NaN is falsy never applies.
- Platform I/O and wiring: `navigator.geolocation`, `serviceWorker.register`, adding and removing the `beforeinstallprompt` listener, `alert`, `console.log`, and `event.preventDefault`.
- The platform rule that an install prompt can be shown only once.
- The network: `fetch` is a function parameter, and which fetch rejects first in a parallel `addAll` is not modelled (only that the whole call fails).
- Request matching in `caches.match`. Requests are URLs, and the request method, `Vary` headers and match options are not modelled.
- Storage failures. `cache.addAll` also rejects, storing nothing, when the write exceeds the origin's storage quota. Storage in this model is unbounded.
- `CacheApi.CacheStorage.AddAll`: `ok` is `AddAllSucceeds` because storage is unbounded. On a real origin the call can also reject on a quota failure even when every fetch succeeds.
- `ShellWorker.Install`: `ok` holds whenever every asset fetch succeeds, because storage is unbounded. A quota failure on the write would also make install fail, and the generation would then keep its old entries.
- Response headers. `cache.addAll` also rejects a response whose `Vary` header is `*`. Responses carry no headers in this model, so that rejection is not modelled.
- Concurrency. This covers promise and event-loop interleaving, such as a new `beforeinstallprompt` arriving while a prompt is pending, and an install racing an activate. Each handler is modelled as running to completion.
- Markup and styling, and `_document.js`, which is static markup.
