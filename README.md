# Pollenprognos API client, modelled in Dafny

This project models the in-memory core of the Home Assistant
`pollenprognos` integration: the `PollenApi` client, which fetches three
resources of the Swedish pollen-forecast API (pollen types, regions,
forecasts) and keeps each in a cache that is filled once. The client builds
the pollen-type and city catalogs from the `items` of a response. It then
reshapes the first forecast item's `levelSeries` into a table that maps each
pollen type to a `{time: level}` dict. The constant tables of `const.py`
are modelled too: the severity scale, the sensor icons, the API host and
its endpoint paths.

Modules:

- `Wrappers` (wrappers.dfy): `Option` and `Result`.
- `PyJson` (py_json.dfy): decoded JSON values, and the Python operations
  the client applies to them (`.get`, `[key]`, `[0]`, iteration,
  hashability). Each of these returns the Python exception it would raise
  as a `Failure`.
- `Const` (const.dfy): `STATES`, `SENSOR_ICONS`, `BASE_URL` and
  `Endpoints`.
- `Api` (api.dfy): `PollenType` with its id-based `__eq__` and `__hash__`,
  `City`, catalog construction, the dict lookup by a raw `pollenId`, the
  initial table, the loop step and the fold, with the lemmas about them.
- `Client` (client.dfy): the `PollenApi` class. It has the three `Option`
  cache fields and a ghost log of issued requests. Its three accessors are
  proved against the functions of `Api`. The module also holds the
  imperative fold loop and the request URLs.

The network is a parameter. Each accessor takes `fetch: Request -> Option<Json>`,
which gives the body a GET request would return, or `None` when `request`
swallowed a failure. Python's `None` and a decoded JSON `null` are the same
object, so both reach the reshaping code as `JNull` (`PyJson.AsPython`).

Notes on the code as written, which the model follows:

- `HEADERS` (api.py:19-21) is defined, but no call passes it, so `request`
  runs with its default `headers={}`.
- When `request` swallows a failure it returns `None`. The `.get` at
  api.py:88, 100 or 117 then raises AttributeError, which escapes the
  accessor. The model returns `Failure(AttributeError)` and leaves the cache
  slot empty.
- The annotation `dict[PollenType, dict[str, int]]` (api.py:74) suggests
  integer levels. The loop stores each item's `level` value unchanged, so
  the model does too. No code in the client converts a level through
  `STATES`.
- `STATES` has no default entry, so `STATES.get` gives `None` for a code
  outside the eight. `Const.Severity` does the same.

## Model

| member | source | states |
|---|---|---|
| `Const.Severity` | custom_components/pollenprognos/const.py:17-26 | a code has an ordinal exactly when it is one of the eight codes of the scale; its ordinal is its position on the scale; every other string gives `None` |
| `Const.SeverityInjective` | custom_components/pollenprognos/const.py:17-26 | two codes with the same ordinal are the same code |
| `Const.SeverityValues` | custom_components/pollenprognos/const.py:17-26 | the ordinals used are exactly {0, …, 7} |
| `Const.SeverityIncreasing` | custom_components/pollenprognos/const.py:18-25 | ordinals rise strictly from `i.h.` (0) to `H+` (7) in the listed order |
| `Const.SensorIconsShape` | custom_components/pollenprognos/const.py:28-41 | every icon is `mdi:leaf` or `mdi:flower`, and a `default` entry exists |
| `Const.Path` | custom_components/pollenprognos/const.py:45-49 | every endpoint path starts with `/v1/` |
| `Const.PathInjective` | custom_components/pollenprognos/const.py:45-49 | the four endpoint paths are pairwise distinct |
| `Client.Url` | custom_components/pollenprognos/api.py:84-114 | the three request URLs as written at api.py:84, 96 and 114; what they are is stated by `Client.UrlsAgreeWithEndpoints` and `Client.ForecastUrl` |
| `Client.UrlsAgreeWithEndpoints` | custom_components/pollenprognos/api.py:84-96 | the hard-coded pollen-types and regions URLs equal `BASE_URL` plus the matching `Endpoints` path |
| `Client.ForecastUrl` | custom_components/pollenprognos/api.py:112-115 | a forecast URL starts with `BASE_URL` plus the forecasts path and contains `region_id=<region>&current=true` |
| `PyJson.NoResponseIsNull` | custom_components/pollenprognos/api.py:144-184 | the code after `request` cannot tell a failed request from a body that is the JSON literal `null`; every other body reaches it unchanged |
| `PyJson.FieldAgreesWithGet` | custom_components/pollenprognos/api.py:87-88 | where `item[key]` succeeds, `item.get(key, default)` gives the same value; on a dict without the key, `get` gives the default where the subscript raises KeyError; on anything but a dict both fail |
| `PyJson.FirstIsFirstIterated` | custom_components/pollenprognos/api.py:117 | on a list, `[0]` is the first element a loop over it would see, and fails exactly when that loop would see nothing |
| `PyJson.IterateRecords` | custom_components/pollenprognos/api.py:88 | a list yields its elements; an empty string or dict yields nothing; a non-empty string or dict fails with TypeError, because its first element is a string subscripted with a string; `None`, a bool or a number is not iterable and fails with TypeError |
| `Api.Eq` | custom_components/pollenprognos/api.py:34-39 | `PollenType.__eq__`, by id against a pollen type or a string and false against anything else; its properties are stated by `Api.EqIsEquivalence`, `Api.HashConsistentWithEq` and `Api.MatchesOnlyStrings` |
| `Api.Hash` | custom_components/pollenprognos/api.py:31-32 | `PollenType.__hash__` as the value hashed, `None` where the id is unhashable; its agreement with `__eq__` is `Api.HashConsistentWithEq` |
| `Api.EqIsEquivalence` | custom_components/pollenprognos/api.py:34-39 | equality between pollen types is reflexive, symmetric and transitive |
| `Api.HashConsistentWithEq` | custom_components/pollenprognos/api.py:31-39 | the hash depends on the id alone and agrees for every pair that compares equal, a pollen type and its id string included |
| `Api.MatchesOnlyStrings` | custom_components/pollenprognos/api.py:31-39 | a raw JSON key finds a pollen-type key exactly when it is a string equal to that key's id |
| `Api.Records` | custom_components/pollenprognos/api.py:86-89 | the comprehension succeeds exactly when every item is a dict with `id` and `name`; it yields one value per item, in order, built from those fields; otherwise it raises the error of the first bad item |
| `Api.CatalogItems` | custom_components/pollenprognos/api.py:88 | no response gives AttributeError, a response without `items` gives no items, and a list under `items` is taken as is |
| `Api.PollenTypesFrom` | custom_components/pollenprognos/api.py:86-89 | one `PollenType` per response item, in response order, with `id` and `name` copied verbatim; empty without `items`; AttributeError without a response |
| `Api.CitiesFrom` | custom_components/pollenprognos/api.py:98-101 | one `City` per region item, in order, with `region_id = item['id']`; empty without `items`; AttributeError without a response |
| `Api.Lookup` | custom_components/pollenprognos/api.py:119 | `forecast[pollenId]` finds an entry exactly when one key matches the raw id; it fails with KeyError otherwise, or with TypeError when the id is unhashable |
| `Api.InitialTable` | custom_components/pollenprognos/api.py:116 | the comprehension succeeds exactly when every id is hashable, and fails with TypeError otherwise |
| `Api.InitialTableKeys` | custom_components/pollenprognos/api.py:116 | one key per distinct id; each key is the first catalog entry with that id; keys come in order of first occurrence; every catalog id is present; every inner dict is empty |
| `Api.LevelSeries` | custom_components/pollenprognos/api.py:117 | no response gives AttributeError; an empty or missing `items` list gives IndexError; the series exists only when `items` is a non-empty list whose first element is a dict, and is then that dict's `levelSeries` as iterated, or nothing when the key is missing |
| `Api.Step` | custom_components/pollenprognos/api.py:118-119 | one pass of the loop body in Python's evaluation order; what it does is stated by `Api.StepKeys`, `Api.StepEffect`, `Api.StepFailureKeysOnly` and `Api.UnknownPollenId` |
| `Api.StepKeys` | custom_components/pollenprognos/api.py:118-119 | one pass of the loop body keeps the keys and their order |
| `Api.StepFailureKeysOnly` | custom_components/pollenprognos/api.py:118-119 | whether an item raises, and what, depends on the table's keys only, not on levels filed earlier |
| `Api.StepEffect` | custom_components/pollenprognos/api.py:119 | a pass files the item's level under the entry its `pollenId` finds, at its `time`; every other entry and time is unchanged |
| `Api.Fold` | custom_components/pollenprognos/api.py:117-119 | the whole loop, stopping at the first exception; what it computes is stated by `Api.FoldOutcome`, `Api.FoldLastWriteWins` and `Client.FoldLevelSeries` |
| `Api.FoldKeys` | custom_components/pollenprognos/api.py:117-119 | the loop keeps the keys and their order |
| `Api.FoldFailurePersists` | custom_components/pollenprognos/api.py:117-119 | once an item has raised, the later items change nothing |
| `Api.FoldOutcome` | custom_components/pollenprognos/api.py:117-119 | the loop succeeds exactly when every item is accepted against the initial keys; otherwise it raises the error of the first rejected item |
| `Api.FoldLastWriteWins` | custom_components/pollenprognos/api.py:117-119 | after the loop, an entry holds a time exactly when it held it before or some item filed it; it holds the level of the last item that filed that time under its key |
| `Api.BuildForecast` | custom_components/pollenprognos/api.py:116-119 | the initial table is built before the response is read, then the loop runs; the resulting table is described by `Api.ForecastContents` and `Api.EmptyItemsIsIndexError` |
| `Api.ForecastContents` | custom_components/pollenprognos/api.py:116-120 | the cached table has one key per distinct pollen-type id; `forecast[p][t]` is the level of the last `levelSeries` item with `pollenId == p.id` and `time == t`; entries without such items stay empty |
| `Api.EmptyItemsIsIndexError` | custom_components/pollenprognos/api.py:117 | a forecast response with an empty or missing `items` list raises IndexError |
| `Api.UnknownPollenId` | custom_components/pollenprognos/api.py:118-119 | a `pollenId` that is no key's id raises KeyError; an unhashable one raises TypeError |
| `Client.DefaultRegionFromResponse` | custom_components/pollenprognos/api.py:110-111 | without a region argument, the forecast is fetched for the `id` of the first item of the regions response, and fails with IndexError when that response lists no region; a region argument is used as given |
| `Client.PollenApi.constructor` | custom_components/pollenprognos/api.py:72-78 | all three caches start empty and no request has been made |
| `Client.PollenApi.GetPollenTypes` | custom_components/pollenprognos/api.py:80-90 | a filled cache is returned unchanged and no request is made; otherwise one request is made and its catalog is cached and returned; on an exception the slot stays empty |
| `Client.PollenApi.GetCities` | custom_components/pollenprognos/api.py:92-102 | the same for the city catalog and the regions request |
| `Client.PollenApi.GetForecast` | custom_components/pollenprognos/api.py:104-121 | a cached table is returned unchanged, whatever region is passed, with no request. Otherwise any missing catalog is loaded first; the region is resolved; exactly one forecast request is made; the table built from it is cached. Each exception ends the call and leaves the forecast slot empty. A returned table is keyed by the cached pollen-type catalog. Without a region argument, a successful call's last request is for the first cached city's region |
| `Client.PollenApi.FetchForecast` | custom_components/pollenprognos/api.py:110-120 | with both catalogs cached, the region is resolved (IndexError ends the call without a request); then exactly one forecast request is made for it, and the table built from the response and the cached catalog is cached on success; a returned table is keyed by that catalog |
| `Client.FoldLevelSeries` | custom_components/pollenprognos/api.py:117-119 | the in-place loop over the local table computes exactly the fold |
| `Client.PollenTypesTwice` | custom_components/pollenprognos/api.py:80-90 | on a new client, when the first call succeeds, the second returns the same catalog and issues no request; after a failed first call the second requests again and returns what the new response gives |
| `Client.CitiesTwice` | custom_components/pollenprognos/api.py:92-102 | the same for the city catalog and the regions request |
| `Client.DefaultRegionForecast` | custom_components/pollenprognos/api.py:104-121 | with pollen type `bjork`, city `r1` and one level `M` on `2024-05-01`, a call with no region requests region `r1` and returns `{bjork: {"2024-05-01": "M"}}` |

## Left out

- The transport inside `request` (api.py:144-184) is left out: the aiohttp
  session, the 10-second `async_timeout` guard, the put/patch/post branches
  and the four logging `except` branches. They are I/O and foreign library
  calls. The model keeps only their outcome: a body or nothing.
- `async`/`await` is left out, and so is the duplicate fetch when two first
  calls run concurrently. The model is sequential.
- `async_request_`, `async_get_data` and `async_get_data_with_params`
  (api.py:124-142) are left out. They are thin wrappers over `urllib.parse`
  and `request`, and nothing in the core calls them. `PollenApi.url` keeps
  the `_url` they read.
- The Home Assistant object, `async_get_clientsession` and the logger are
  left out. They are host-framework collaborators.
- `__repr__` methods are left out (presentation only), and so are the
  unused classes `Pollen` and `Forecast`, and the unused `sqlite3` import.
- `NAME`, `VERSION`, `DOMAIN`, `PLATFORMS` and the `CONF_*` keys of
  const.py are left out. They are configuration constants with no behaviour.
- Client.Url: a forecast URL is rendered only for a string region. Python's
  `str()` of other JSON values inside the f-string is not modelled, so the
  URL is `None` there. The request itself is still logged with the region
  value.
- PyJson.Json: numbers are integers, and floats are not modelled.
- Api.InitialTable, Api.InitialTableKeys, Api.ForecastContents: Python
  treats `true` and `1` (and `false` and `0`) as equal with equal hashes,
  so pollen types with ids `1` and `true` are one key of the comprehension
  at api.py:116. The model compares ids as JSON values and keeps two keys;
  "one key per distinct id" means distinct JSON values.
- Api.Step: for the same reason Python files levels at times `1` and `true`
  under one inner key; the model keeps them apart.
- Client.PollenApi.GetPollenTypes, Client.PollenApi.GetCities,
  Client.PollenApi.GetForecast: the accessors return the cached list or
  dict object itself (api.py:90, 102, 121), so a caller that mutates the
  result changes the cache. The model returns values, so this aliasing is
  not captured.
- Api.Row: an inner `{time: level}` dict is a Dafny `map`, so its insertion
  order is not modelled. The outer table keeps its insertion order.
