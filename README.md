# Football predictor dashboard: fetch-and-cache layer, in Dafny

This project models the deterministic core of a Streamlit dashboard that shows
football fixtures and predictions from a third-party sports API:

- **`utils/api_sports.py`** (modules `ApiSports`, `Text`, `Json`). This is the network-first client.
  - `_cache_path` maps a cache name to a file-safe path.
  - `_save_cache` / `_load_cache` are a timestamped key→(ts, data) store with an inclusive age check.
  - `APISportsClient._get` returns and caches a successful fetch. On failure it falls back to a cache entry that is within its TTL and not null, and otherwise re-raises.
  - The seven resource methods each derive a cache name, a query-parameter dict and a TTL.
- **`utils/fetch_data.py`** (module `FetchData`). This is the older cache-first variant.
  - It keeps a strict four-hour freshness window.
  - `get_leagues` keeps only the names of `TIER_ONE` competitions.
  - `get_fixtures` keeps only matches of the requested competition.
- **`app.py`** (module `App`). These are the pure derivations of the page: the league choice, unwrapping the `"response"` key, the kickoff-time slice with its `"TBD"` default, the default team names, the probability collection, the confidence (the largest all-digit percentage, or none) and the inclusive threshold decision.
- **`utils/predict.py`** (module `Predict`). This is the flag-driven heuristic predictor. Its random draws become bounded inputs.

How the model represents the environment:

- **Cache directory.** A `map` field on a class (`ApiSports.CacheDirectory`, `FetchData.CacheFolder`). It is keyed by file path. A file that does not read back as a record is a distinguished entry (`Corrupt` / `Unreadable`).
- **Clock.** An integer number of seconds, `now`, passed to each call.
- **Network.** For `api_sports.py`, a total function from (url, query parameters) to `Ok(json) | Err(cause)`. For `fetch_data.py`, the HTTP response (status and body) or a connection failure.
- **JSON.** The datatype `Json.Json`. Python `None` is `JNull`. Python exceptions are the `Failure` side of a `Result`.

Reading of `utils/fetch_data.py`: the file has lost its indentation, and the model reconstructs it as follows.

- `load_cache` returns the data inside `if os.path.exists(path):` and ends with `return None`.
- In `get_leagues`, the `elif cached:` belongs to `if resp.status_code == 200:`. That branch can never be taken, because a truthy cache has already returned. `return []` ends the function.
- In `get_fixtures`, `cache_data(...)` is the last statement under `if resp.status_code == 200:` and `return []` is at function level.

Reading of `utils/predict.py`, which has lost its indentation too: `predict` is eight independent top-level `if`s in source order. Two statements sit under the home rule (line 21) and two under the head-to-head rule (line 28); every other `if` has one. `return` is at method level.

Two facts about `api_sports.py`'s cache:

- The fallback after a failed request is bounded by the TTL. A stale entry is never served.
- Cache keys are not collision-free. `ApiSports.CachePathCollision`, `FixturesFalsyLeaguesCoincide`, `TeamFixturesStatusCollision` and `LeaguesShareOneEntry` prove the collisions.

## Model

| member | source | states |
|---|---|---|
| Text.Replace | utils/api_sports.py:14 | `s.replace(a, b)` keeps the length and replaces exactly the occurrences of `a` |
| ApiSports.SafeName | utils/api_sports.py:13-14 | every "/" and " " becomes "_", every other character is kept, length unchanged |
| ApiSports.SafeNameIsSafe | utils/api_sports.py:13-15 | the file name part never contains "/" or " " and keeps every other character of the name |
| ApiSports.CachePathCollision | utils/api_sports.py:13-15 | two names share a cache file iff they have equal length and agree at every position once "/" and " " read as "_" |
| ApiSports.LoadFresh | utils/api_sports.py:23-32 | a readable non-null record is returned iff its age `now - ts` is at most `max_age` (inclusive) |
| ApiSports.LoadMisses | utils/api_sports.py:23-35 | a missing file, an unreadable file and a too-old record all read as `None` |
| ApiSports.SaveThenLoad | utils/api_sports.py:17-32 | a record just written reads back at once under any non-negative maximum age |
| ApiSports.CacheDirectory.constructor | utils/api_sports.py:9-11 | the cache directory starts as it was left (empty or from a previous run) |
| ApiSports.CacheDirectory.Save | utils/api_sports.py:17-21 | `_save_cache` overwrites the entry for the name's path with `(now, data)`; every other entry is unchanged |
| ApiSports.NetworkFirst | utils/api_sports.py:46-52 | a successful fetch is returned exactly, whatever the cache holds, and overwrites the named entry |
| ApiSports.FetchedIsCached | utils/api_sports.py:46-52 | after a successful fetch an immediate `_load_cache` within the TTL returns the fetched value |
| ApiSports.FallbackLaw | utils/api_sports.py:53-60 | on fetch failure `_get` succeeds iff it has a cache name whose entry is fresh and not null, then returns that entry; otherwise it re-raises the original failure; the cache is unchanged |
| ApiSports.UnnamedBypassesCache | utils/api_sports.py:50-60 | with no (or an empty) cache name the cache is neither read nor written and the network outcome is the result |
| ApiSports.RepeatAfterOutage | utils/api_sports.py:44-60 | a second call that fails within the TTL of a successful first call returns the first call's data |
| ApiSports.CollidingNamesShareFallback | utils/api_sports.py:13-15 | a value saved under one name is served as the fallback for a colliding name |
| ApiSports.APISportsClient.constructor | utils/api_sports.py:38-42 | the client keeps the key and the `x-apisports-key` header |
| ApiSports.APISportsClient.Get | utils/api_sports.py:44-60 | `_get`'s result and new cache state are those of `Respond` on the network outcome for `Url(path)` and `params` |
| ApiSports.UrlJoinsBase | utils/api_sports.py:45 | `BASE.rstrip("/") + path` is the base URL followed by the path |
| ApiSports.APISportsClient.GetLeagues | utils/api_sports.py:63-67 | `get_leagues` is `_get` on the leagues request |
| ApiSports.APISportsClient.GetFixturesByDate | utils/api_sports.py:70-74 | `get_fixtures_by_date` is `_get` on the fixtures-by-date request |
| ApiSports.APISportsClient.GetPredictions | utils/api_sports.py:77-78 | `get_predictions` is `_get` on the predictions request |
| ApiSports.APISportsClient.GetStandings | utils/api_sports.py:81-82 | `get_standings` is `_get` on the standings request |
| ApiSports.APISportsClient.GetTeamStats | utils/api_sports.py:85-91 | `get_team_stats` is `_get` on the team-statistics request |
| ApiSports.APISportsClient.GetLineups | utils/api_sports.py:94-95 | `get_lineups` is `_get` on the lineups request |
| ApiSports.APISportsClient.GetTeamFixtures | utils/api_sports.py:98-104 | `get_team_fixtures` is `_get` on the team-fixtures request |
| ApiSports.LeaguesShareOneEntry | utils/api_sports.py:63-67 | every season uses the key "leagues" with a 24h TTL; `season` is sent only when truthy |
| ApiSports.FixturesParams | utils/api_sports.py:70-73 | `date` is always sent; `league` is sent iff the league id is truthy |
| ApiSports.FixturesFalsyLeaguesCoincide | utils/api_sports.py:70-74 | league id `None` and `0` give the same request and the key `fixtures_<date>_all` |
| ApiSports.FixturesKeysDistinct | utils/api_sports.py:74 | for one date, distinct truthy league ids, and a truthy id versus none, give distinct keys |
| ApiSports.TeamFixturesStatusCollision | utils/api_sports.py:98-104 | status `None` and status `"None"` share a cache key though only the latter sends `status` |
| ApiSports.TeamStatsZeroVersusNone | utils/api_sports.py:85-91 | league `0` and `None` send the same request but use different cache keys |
| ApiSports.TtlTable | utils/api_sports.py:63-104 | leagues 24h, team fixtures 6h, every other resource 3600s |
| Text.IntStrInjective | utils/api_sports.py:74 | `str` on integers is injective (ids in f-string keys never collide) |
| Text.ParseNatStr | app.py:128 | `int(str(n)) == n` for a natural number |
| FetchData.LoadCacheExpiry | utils/fetch_data.py:26-34 | a record is returned iff its age is strictly below `CACHE_EXPIRY_HOURS` (4h); otherwise `None` |
| FetchData.LoadCacheMissing | utils/fetch_data.py:26-34 | a missing file reads as `None`; an unreadable file raises |
| FetchData.CacheFolder.CacheData | utils/fetch_data.py:20-23 | `cache_data` overwrites the record for the file with `{timestamp: now, data}`; a file name holding "/" raises FileNotFoundError and writes nothing |
| FetchData.CacheFolder.GetLeagues | utils/fetch_data.py:37-52 | a truthy cached value is returned without using the response; on 200 the TIER_ONE names are cached and returned; on other statuses `[]`; errors propagate |
| FetchData.CacheFolder.GetFixtures | utils/fetch_data.py:55-68 | a truthy cache hit is returned; on 200 the competition's matches are cached, or FileNotFoundError is raised when the file name holds "/"; every other non-raising path returns `[]` |
| FetchData.Comprehension | utils/fetch_data.py:47 | a comprehension's output is never longer than its input |
| FetchData.ComprehensionAppend | utils/fetch_data.py:47 | a comprehension over `a + b` is the comprehension over `a` followed by that over `b` (first exception wins): input order is kept |
| FetchData.ComprehensionKeepsPassing | utils/fetch_data.py:66 | every element kept by `[m for m in xs if test(m)]` is in `xs` and passes the test |
| FetchData.TierOneSingle | utils/fetch_data.py:47 | one competition contributes its name iff its plan is TIER_ONE; the name of any other is never read, so it may be absent |
| FetchData.TierOneNamesExact | utils/fetch_data.py:45-47 | for competitions that each have a plan, and a name when the plan is TIER_ONE, the result is exactly the TIER_ONE names in input order |
| FetchData.LeagueMatchesSound | utils/fetch_data.py:64-66 | every match kept is from the response and has competition name equal to `league_name` |
| FetchData.LeagueMatchesExact | utils/fetch_data.py:64-66 | for readable matches the result is exactly the reference filter: the competition's matches in response order, each as often as it occurs |
| FetchData.LeagueMatchesComplete | utils/fetch_data.py:64-66 | every match of the response whose competition name equals `league_name` is kept |
| FetchData.FixturesFileSlash | utils/fetch_data.py:20-23 | the fixtures file name holds "/" (and so cannot be written) iff the date or the league name does |
| FetchData.FixturesFileNoSpaces | utils/fetch_data.py:56 | the fixtures file name has no space; league names differing only in " " vs "_" share a file |
| FetchData.FixturesDiscrepancy | utils/fetch_data.py:64-68 | on a first fetch with one matching match, `get_fixtures` caches it but returns `[]` |
| FetchData.GetFixturesIntended | utils/fetch_data.py:55-68 | corrected `get_fixtures`: on 200 returns the matches it caches (FileNotFoundError as in the original when the file name holds "/"); whatever it writes to the cache is what it returned |
| App.SelectLeague | app.py:70-77 | no choice (or an empty tuple) gives id `None` and "All Leagues"; a tuple gives positions 0 and 1 (IndexError for one element); another object gives its `id` attribute or `None` |
| App.UnwrapLaws | app.py:83 | a dict yields its "response" entry or `[]`; anything else passes through unchanged |
| App.KickoffTimeCases | app.py:98-99 | the time is characters 11-15 of the date; null or empty gives "TBD"; a non-empty date of at most 11 characters gives "" |
| App.TeamNameDefaults | app.py:100-101 | a missing team or name gives the default; a null name stays null |
| App.FixtureRowDefaults | app.py:94-101 | a fixture without date or team names renders with "TBD", "Home" and "Away"; a non-dict element raises |
| App.ProbabilitiesShape | app.py:119-123 | only home, draw and away are read, in that order; null values are skipped; values are stored as text plus "%" |
| App.CollectProbabilities | app.py:119-123 | the loop builds exactly the `probs` entries of the three keys |
| App.Numeric | app.py:128 | for a qualifying value, deleting every "%" gives the same number as stripping "%" from the ends |
| Text.RemoveIsStrip | app.py:128 | if no "%" remains after stripping, `replace("%", "")` equals `strip("%")` |
| App.Confidence | app.py:124-130 | `None` iff no value is all digits after stripping "%"; otherwise the largest such numeric value |
| App.IntProbabilityCounts | app.py:121-128 | a non-negative integer probability counts with its own value |
| App.NegativeProbabilityIgnored | app.py:121-128 | a negative integer probability never counts |
| App.DecideThreshold | app.py:132-138 | no confidence gives the plain caption; otherwise shown iff `conf >= min_conf` (inclusive), flagged below otherwise |
| App.ScenarioFiftyFive | app.py:119-138 | probabilities "55%", "25%", "20%" give confidence 55: shown at threshold 55, below threshold at 60 |
| App.PredictionCaptionCases | app.py:109-142 | an empty or missing response gives "no prediction returned"; no non-empty "predictions" list gives "no prediction data"; a numeric element raises |
| App.WinnerOfBlock | app.py:116 | the winner is null when absent, the truthy "name" of a "winner" dict, else the "winner" value; a non-dict "winner" raises AttributeError |
| App.PredictionCaptionOfBlock | app.py:109-138 | for a first element holding one block: a non-dict "winner" or "probability" raises AttributeError; otherwise the caption is the threshold decision on the block's confidence, naming the winner's truthy "name", else the "winner" value (null when absent) |
| Predict.Predictor.constructor | utils/predict.py:5-13 | the eight flags are stored as given |
| Predict.Predictor.Predict | utils/predict.py:16-41 | label is one of the three and fixed by the head-to-head and home rules (head-to-head wins); confidence is `min(raw, 99)` within 45..99; all flags off gives ("Draw", 50); head-to-head with an empty name raises IndexError |

## Left out

- HTTP transport (`requests.get`, `raise_for_status`, `r.json()`, timeouts, the API-key headers) is an abstract outcome. For `api_sports.py` it is a function of url and parameters; for `fetch_data.py` it is a response or a connection failure. A body that is not JSON counts as a transport failure.
- Filesystem and JSON encoding (`open`, `json.dump`/`json.load`, `os.makedirs` at import) are left out. The directory is an in-memory map. A file that does not read back as a written record is one distinguished entry. In `api_sports.py`, records lacking `ts` (read as time 0) or holding a numeric-string `ts` are not modelled.
- ApiSports.APISportsClient.Get: a failure of `_save_cache` itself inside the `try` is not modelled. It would divert a successful fetch to the cache fallback; writes are assumed to succeed.
- Sub-directories of `fetch_data.py`'s cache directory are assumed absent, so a file name holding "/" cannot be written. The model's own writes never create such a file. A starting directory handed to `FetchData.CacheFolder.constructor` may still hold one, and `load_cache` then reads it like any other file.
- `time.time()` floats are integer seconds.
- `random.randint` draws are inputs within their inclusive ranges (`Predict.Draws`).
- `previous_matches` is accepted by `predict` but never read, so it is not a parameter.
- Streamlit rendering, secrets loading, `st.stop`, sidebar widgets and the unused pandas/dateutil/math imports are left out.
- app.py lines 29-59 are not modelled. They call methods the client does not have and use names before they are defined.
- app.py as written raises NameError at line 30: `league_label` is used at module level, outside any `try`, before line 71 assigns it. Every derivation modelled in `App` (lines 70-138) is therefore unreachable in the page as written. The model treats them as the page evidently intends to run them.
- `league_choice` is never assigned anywhere in app.py. The model takes the choice as a parameter.
- App lines 146-173 are left out. They only display lineups and team statistics.
- `str.isdigit` is modelled on ASCII digits only.
- JSON floating-point numbers are not modelled.
- `str()` of a list or dict probability value is rendered as a bracketed placeholder. Only its first character, which is never a digit, matters.
- Indexing a dict with `0` is reported as `KeyError("0")`. Slicing a dict is reported as TypeError, which is the behaviour before Python 3.12.
- JSON objects are maps, so duplicate keys and key order are not modelled. Only the model's own `probs` list keeps insertion order.
- There is no concurrency in the code.

## Findings

| source | as written | input that shows it | evidently intended | confidence | as-written member | corrected member |
|---|---|---|---|---|---|---|
| utils/fetch_data.py:64-68 | after a 200 response `get_fixtures` caches the filtered matches and then returns `[]`, so a first request never shows fixtures | empty cache, status 200, body `{"matches": [{"competition": {"name": "Premier League"}}]}`, league "Premier League" | return the matches it has just cached | not executed; holds under either reading of the lost indentation | FetchData.FixturesDiscrepancy | FetchData.GetFixturesIntended |
