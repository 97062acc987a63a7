/** The network-first fetch-and-cache client of utils/api_sports.py.
    The cache directory is an in-memory map from file path to the record a
    file holds; the clock is an integer number of seconds; the HTTP call is
    a total function from (url, query parameters) to an abstract outcome. */
module ApiSports {
  import opened Wrappers
  import opened Json
  import opened Text

  const Base := "https://v3.football.api-sports.io"
  const CacheDir := "cache_api_sports"

  /** What one cache file holds: the record `_save_cache` writes, or bytes
      that do not read back as such a record. */
  datatype Entry = Record(ts: int, data: Json) | Corrupt

  /** One query-string value. */
  datatype Param = PInt(n: int) | PStr(s: string)

  type Params = seq<(string, Param)>

  /** Why a request failed: `raise_for_status` on a non-2xx status, or a
      transport failure (timeout, connection refused, body not JSON). */
  datatype FetchError = HttpStatus(code: int) | Transport

  datatype Fetch = Ok(data: Json) | Err(cause: FetchError)

  /** The remote API: the outcome of `requests.get(url, params=...)`. */
  type Network = (string, Params) -> Fetch

  // ---------------------------------------------------------------------
  // Cache file naming

  /** The character `_cache_path` writes for `c`. */
  function Canon(c: char): char {
    if c == '/' || c == ' ' then '_' else c
  }

  /** `name.replace("/", "_").replace(" ", "_")`. */
  function SafeName(name: string): (safe: string)
    ensures |safe| == |name|
    ensures forall i :: 0 <= i < |name| ==> safe[i] == Canon(name[i])
  {
    Replace(Replace(name, '/', '_'), ' ', '_')
  }

  /** `os.path.join(CACHE_DIR, f"{safe}.json")` on a POSIX system. */
  function CachePath(name: string): string {
    CacheDir + "/" + SafeName(name) + ".json"
  }

  /** The file name part of a cache path never holds a path separator or a
      space, and every other character of the name survives unchanged. */
  lemma SafeNameIsSafe(name: string)
    ensures forall i :: 0 <= i < |SafeName(name)| ==> SafeName(name)[i] != '/' && SafeName(name)[i] != ' '
    ensures forall i :: 0 <= i < |name| && name[i] != '/' && name[i] != ' ' ==> SafeName(name)[i] == name[i]
  {
  }

  /** Two names share a cache file exactly when they have the same length and
      agree at every position once "/" and " " are read as "_". */
  lemma {:induction false} CachePathCollision(a: string, b: string)
    ensures CachePath(a) == CachePath(b) <==>
            |a| == |b| && forall i :: 0 <= i < |a| ==> Canon(a[i]) == Canon(b[i])
  {
    var pre := CacheDir + "/";
    if CachePath(a) == CachePath(b) {
      var sa, sb := SafeName(a), SafeName(b);
      assert |sa| == |sb|;
      assert CachePath(a)[|pre|..|pre| + |sa|] == sa;
      assert CachePath(b)[|pre|..|pre| + |sb|] == sb;
      forall i | 0 <= i < |a| ensures Canon(a[i]) == Canon(b[i]) {
        assert sa[i] == sb[i];
      }
    }
    if |a| == |b| && forall i :: 0 <= i < |a| ==> Canon(a[i]) == Canon(b[i]) {
      assert SafeName(a) == SafeName(b);
    }
  }

  // ---------------------------------------------------------------------
  // The cache store

  /** `_load_cache(name, max_age_seconds)` read against the directory
      contents `files` at time `now`: the data of a readable record whose age
      is at most `maxAge`; `None` for a missing file, an unreadable file, a
      too-old record, or a record whose data is JSON null. */
  function Load(files: map<string, Entry>, name: string, maxAge: int, now: int): (r: Option<Json>)
    ensures r != Some(JNull)
  {
    var path := CachePath(name);
    if path !in files then None
    else match files[path]
      case Corrupt => None
      case Record(ts, data) => if now - ts <= maxAge && data != JNull then Some(data) else None
  }

  /** `_load_cache` returns the stored data if and only if a readable record
      exists and its age is within `maxAge`, the boundary included. */
  lemma LoadFresh(files: map<string, Entry>, name: string, maxAge: int, now: int)
    requires CachePath(name) in files && files[CachePath(name)].Record?
    requires files[CachePath(name)].data != JNull
    ensures Load(files, name, maxAge, now) == Some(files[CachePath(name)].data)
        <==> now - files[CachePath(name)].ts <= maxAge
  {
  }

  /** Absent, unreadable and too-old entries all read as `None`. */
  lemma LoadMisses(files: map<string, Entry>, name: string, maxAge: int, now: int)
    ensures CachePath(name) !in files ==> Load(files, name, maxAge, now) == None
    ensures CachePath(name) in files && files[CachePath(name)] == Corrupt ==> Load(files, name, maxAge, now) == None
    ensures CachePath(name) in files && files[CachePath(name)].Record? && now - files[CachePath(name)].ts > maxAge
            ==> Load(files, name, maxAge, now) == None
  {
  }

  /** A record written at `now` reads back at once under any non-negative
      maximum age. */
  lemma SaveThenLoad(files: map<string, Entry>, name: string, data: Json, maxAge: int, now: int)
    requires maxAge >= 0 && data != JNull
    ensures Load(files[CachePath(name) := Record(now, data)], name, maxAge, now) == Some(data)
  {
  }

  /** The cache directory: one file per cache path. */
  class CacheDirectory {
    var files: map<string, Entry>

    /** The directory as `os.makedirs` leaves it or an earlier run left it. */
    constructor (existing: map<string, Entry>)
      ensures files == existing
    {
      files := existing;
    }

    /** `_save_cache(name, data)` at time `now`: the file for `name` now holds
        `(now, data)`, and every other file is as it was. */
    method Save(name: string, data: Json, now: int)
      modifies this
      ensures files == old(files)[CachePath(name) := Record(now, data)]
      ensures forall p :: p in old(files) && p != CachePath(name) ==> p in files && files[p] == old(files)[p]
    {
      files := files[CachePath(name) := Record(now, data)];
    }
  }

  // ---------------------------------------------------------------------
  // The network-first policy of `_get`

  /** `if cache_name:` — `None` and the empty string are both falsy. */
  predicate Named(cacheName: Option<string>) {
    cacheName.Some? && cacheName.value != ""
  }

  /** What `_get` returns and what the cache directory holds afterwards,
      given the directory before, the cache name and TTL, the clock and the
      outcome of the HTTP call. */
  function Respond(files: map<string, Entry>, cacheName: Option<string>, ttl: int, now: int, outcome: Fetch)
    : (Result<Json, FetchError>, map<string, Entry>)
  {
    match outcome
    case Ok(data) =>
      (Success(data), if Named(cacheName) then files[CachePath(cacheName.value) := Record(now, data)] else files)
    case Err(cause) =>
      var cached := if Named(cacheName) then Load(files, cacheName.value, ttl, now) else None;
      (if cached.Some? then Success(cached.value) else Failure(cause), files)
  }

  /** Network first: a successful fetch is returned exactly, whatever the
      cache holds, and overwrites the entry for the cache name. */
  lemma NetworkFirst(files: map<string, Entry>, cacheName: Option<string>, ttl: int, now: int, data: Json)
    ensures Respond(files, cacheName, ttl, now, Ok(data)).0 == Success(data)
    ensures Named(cacheName) ==>
      Respond(files, cacheName, ttl, now, Ok(data)).1 == files[CachePath(cacheName.value) := Record(now, data)]
  {
  }

  /** After a successful fetch, an immediate `_load_cache` within the TTL
      returns the fetched value. */
  lemma FetchedIsCached(files: map<string, Entry>, name: string, ttl: int, now: int, data: Json)
    requires name != "" && ttl >= 0 && data != JNull
    ensures Load(Respond(files, Some(name), ttl, now, Ok(data)).1, name, ttl, now) == Some(data)
  {
    SaveThenLoad(files, name, data, ttl, now);
  }

  /** Fallback and failure laws: when the fetch fails, `_get` succeeds if and
      only if it has a cache name whose entry is fresh within the TTL and not
      null; then it returns that entry, otherwise it re-raises the original
      failure. The cache directory is left unchanged. */
  lemma FallbackLaw(files: map<string, Entry>, cacheName: Option<string>, ttl: int, now: int, cause: FetchError)
    ensures Respond(files, cacheName, ttl, now, Err(cause)).1 == files
    ensures Respond(files, cacheName, ttl, now, Err(cause)).0.Success?
        <==> Named(cacheName) && Load(files, cacheName.value, ttl, now).Some?
    ensures Respond(files, cacheName, ttl, now, Err(cause)).0.Success? ==>
      Respond(files, cacheName, ttl, now, Err(cause)).0.value == Load(files, cacheName.value, ttl, now).value
    ensures Respond(files, cacheName, ttl, now, Err(cause)).0.Failure? ==>
      Respond(files, cacheName, ttl, now, Err(cause)).0.error == cause
  {
  }

  /** Without a cache name the store is neither written nor consulted: the
      result is the network outcome itself. */
  lemma UnnamedBypassesCache(files: map<string, Entry>, cacheName: Option<string>, ttl: int, now: int, outcome: Fetch)
    requires !Named(cacheName)
    ensures Respond(files, cacheName, ttl, now, outcome).1 == files
    ensures Respond(files, cacheName, ttl, now, outcome).0 ==
      (if outcome.Ok? then Success(outcome.data) else Failure(outcome.cause))
  {
  }

  /** Two calls with the same cache name: the first fetch succeeds, the
      second fails within the TTL; the second returns the first's data. */
  lemma {:induction false} RepeatAfterOutage(files: map<string, Entry>, name: string, ttl: int,
                                             t1: int, t2: int, data: Json, cause: FetchError)
    requires name != "" && data != JNull && 0 <= t2 - t1 <= ttl
    ensures var after := Respond(files, Some(name), ttl, t1, Ok(data)).1;
            Respond(after, Some(name), ttl, t2, Err(cause)) == (Success(data), after)
  {
    var after := Respond(files, Some(name), ttl, t1, Ok(data)).1;
    assert after == files[CachePath(name) := Record(t1, data)];
    assert Load(after, name, ttl, t2) == Some(data);
  }

  /** Names that differ only in "/", " " versus "_" share one entry: a value
      saved under one is the fallback served under the other. */
  lemma CollidingNamesShareFallback(files: map<string, Entry>, a: string, b: string, ttl: int,
                                    now: int, data: Json, cause: FetchError)
    requires a != "" && |a| == |b| && forall i :: 0 <= i < |a| ==> Canon(a[i]) == Canon(b[i])
    requires data != JNull && ttl >= 0
    ensures var after := Respond(files, Some(a), ttl, now, Ok(data)).1;
            Respond(after, Some(b), ttl, now, Err(cause)).0 == Success(data)
  {
    CachePathCollision(a, b);
  }

  // ---------------------------------------------------------------------
  // Per-resource request derivation

  /** What a resource method hands to `_get`. */
  datatype Request = Request(path: string, params: Params, cacheName: string, ttl: int)

  /** `if x:` for an optional integer argument. */
  predicate TruthyInt(x: Option<int>) {
    x.Some? && x.value != 0
  }

  /** An f-string field `{x}` for an optional integer: `None` prints "None". */
  function OptIntStr(x: Option<int>): string {
    if x.Some? then IntStr(x.value) else "None"
  }

  /** An f-string field `{x}` for an optional string. */
  function OptStr(x: Option<string>): string {
    if x.Some? then x.value else "None"
  }

  /** The value of query parameter `name`, if the dict holds it. */
  function ParamValue(params: Params, name: string): Option<Param> {
    if params == [] then None
    else if params[0].0 == name then Some(params[0].1)
    else ParamValue(params[1..], name)
  }

  /** `get_leagues(season)`. */
  function LeaguesRequest(season: Option<int>): Request {
    var params := if TruthyInt(season) then [("season", PInt(season.value))] else [];
    Request("/leagues", params, "leagues", 24 * 3600)
  }

  /** `get_fixtures_by_date(date_iso, league_id)`. */
  function FixturesByDateRequest(dateIso: string, leagueId: Option<int>): Request {
    var params := [("date", PStr(dateIso))] + if TruthyInt(leagueId) then [("league", PInt(leagueId.value))] else [];
    var league := if TruthyInt(leagueId) then IntStr(leagueId.value) else "all";
    Request("/fixtures", params, "fixtures_" + dateIso + "_" + league, 3600)
  }

  /** `get_predictions(fixture_id)`. */
  function PredictionsRequest(fixtureId: int): Request {
    Request("/predictions", [("fixture", PInt(fixtureId))], "pred_" + IntStr(fixtureId), 3600)
  }

  /** `get_standings(league_id, season)`. */
  function StandingsRequest(leagueId: int, season: int): Request {
    Request("/standings", [("league", PInt(leagueId)), ("season", PInt(season))],
            "standings_" + IntStr(leagueId) + "_" + IntStr(season), 3600)
  }

  /** `get_team_stats(team_id, league_id, season)`. */
  function TeamStatsRequest(teamId: int, leagueId: Option<int>, season: Option<int>): Request {
    var params := [("team", PInt(teamId))]
      + (if TruthyInt(leagueId) then [("league", PInt(leagueId.value))] else [])
      + (if TruthyInt(season) then [("season", PInt(season.value))] else []);
    Request("/teams/statistics", params,
            "teamstats_" + IntStr(teamId) + "_" + OptIntStr(leagueId) + "_" + OptIntStr(season), 3600)
  }

  /** `get_lineups(fixture_id)`. */
  function LineupsRequest(fixtureId: int): Request {
    Request("/fixtures/lineups", [("fixture", PInt(fixtureId))], "lineup_" + IntStr(fixtureId), 3600)
  }

  /** `get_team_fixtures(team_id, season, status)`. */
  function TeamFixturesRequest(teamId: int, season: Option<int>, status: Option<string>): Request {
    var params := [("team", PInt(teamId))]
      + (if TruthyInt(season) then [("season", PInt(season.value))] else [])
      + (if status.Some? && status.value != "" then [("status", PStr(status.value))] else []);
    Request("/fixtures", params,
            "teamfixtures_" + IntStr(teamId) + "_" + OptIntStr(season) + "_" + OptStr(status), 6 * 3600)
  }

  /** Leagues are cached under one key for a day whatever the season, so
      seasons overwrite each other's entry while the request differs. */
  lemma LeaguesShareOneEntry(s1: Option<int>, s2: Option<int>)
    ensures LeaguesRequest(s1).cacheName == LeaguesRequest(s2).cacheName == "leagues"
    ensures LeaguesRequest(s1).ttl == 86400
    ensures ParamValue(LeaguesRequest(s1).params, "season") ==
      (if TruthyInt(s1) then Some(PInt(s1.value)) else None)
  {
  }

  /** The `league` parameter is sent exactly when the league id is truthy, and
      the `date` parameter always. */
  lemma FixturesParams(dateIso: string, leagueId: Option<int>)
    ensures ParamValue(FixturesByDateRequest(dateIso, leagueId).params, "date") == Some(PStr(dateIso))
    ensures ParamValue(FixturesByDateRequest(dateIso, leagueId).params, "league") ==
      (if TruthyInt(leagueId) then Some(PInt(leagueId.value)) else None)
  {
  }

  /** `league_id` None and 0 both give the key "..._all" and the same request. */
  lemma FixturesFalsyLeaguesCoincide(dateIso: string)
    ensures FixturesByDateRequest(dateIso, None) == FixturesByDateRequest(dateIso, Some(0))
    ensures FixturesByDateRequest(dateIso, None).cacheName == "fixtures_" + dateIso + "_all"
  {
  }

  /** For one date, distinct truthy league ids, and a truthy id versus no
      league, give distinct cache keys. */
  lemma FixturesKeysDistinct(dateIso: string, a: Option<int>, b: Option<int>)
    requires TruthyInt(a) && (TruthyInt(b) ==> a.value != b.value)
    ensures FixturesByDateRequest(dateIso, a).cacheName != FixturesByDateRequest(dateIso, b).cacheName
  {
    var pre := "fixtures_" + dateIso + "_";
    var ka, kb := FixturesByDateRequest(dateIso, a).cacheName, FixturesByDateRequest(dateIso, b).cacheName;
    var sa := IntStr(a.value);
    assert ka == pre + sa && ka[|pre|..] == sa;
    if TruthyInt(b) {
      IntStrInjective(a.value, b.value);
      assert kb == pre + IntStr(b.value) && kb[|pre|..] == IntStr(b.value);
    } else {
      assert sa[0] == '-' || IsDigit(sa[0]);
      assert ka[|pre|] == sa[0] && kb[|pre|] == 'a';
    }
  }

  /** Team fixtures with status None and with the string "None" share a
      cache key though only the second sends a `status` parameter. */
  lemma TeamFixturesStatusCollision(teamId: int, season: Option<int>)
    ensures TeamFixturesRequest(teamId, season, None).cacheName == TeamFixturesRequest(teamId, season, Some("None")).cacheName
    ensures ParamValue(TeamFixturesRequest(teamId, season, None).params, "status") == None
    ensures ParamValue(TeamFixturesRequest(teamId, season, Some("None")).params, "status") == Some(PStr("None"))
  {
    var pa := [("team", PInt(teamId))] + (if TruthyInt(season) then [("season", PInt(season.value))] else []);
    var rest := if TruthyInt(season) then [("season", PInt(season.value))] else [];
    assert pa[1..] == rest;
    assert ParamValue(rest, "status") == None by {
      if rest != [] {
        assert rest[1..] == [];
      }
    }
    assert TeamFixturesRequest(teamId, season, None).params == pa;
    assert TeamFixturesRequest(teamId, season, Some("None")).params == pa + [("status", PStr("None"))];
    ParamValueAppend(pa, [("status", PStr("None"))], "status");
  }

  /** Team statistics with league 0 and with no league send the same request
      but are cached under different keys ("0" versus "None"). */
  lemma TeamStatsZeroVersusNone(teamId: int, season: Option<int>)
    ensures TeamStatsRequest(teamId, Some(0), season).params == TeamStatsRequest(teamId, None, season).params
    ensures TeamStatsRequest(teamId, Some(0), season).cacheName != TeamStatsRequest(teamId, None, season).cacheName
  {
    var pre := "teamstats_" + IntStr(teamId) + "_";
    var k0 := TeamStatsRequest(teamId, Some(0), season).cacheName;
    var kn := TeamStatsRequest(teamId, None, season).cacheName;
    assert k0[|pre|] == '0' && kn[|pre|] == 'N';
  }

  /** The TTL of every resource: one day for leagues, six hours for team
      fixtures, one hour for everything else. */
  lemma TtlTable(season: Option<int>, dateIso: string, leagueId: Option<int>, id: int, status: Option<string>)
    ensures LeaguesRequest(season).ttl == 24 * 3600
    ensures TeamFixturesRequest(id, season, status).ttl == 6 * 3600
    ensures FixturesByDateRequest(dateIso, leagueId).ttl == PredictionsRequest(id).ttl
         == StandingsRequest(id, id).ttl == TeamStatsRequest(id, leagueId, season).ttl
         == LineupsRequest(id).ttl == 3600
  {
  }

  lemma {:induction false} ParamValueAppend(p: Params, q: Params, name: string)
    requires ParamValue(p, name) == None
    ensures ParamValue(p + q, name) == ParamValue(q, name)
  {
    if p != [] {
      assert (p + q)[1..] == p[1..] + q;
      ParamValueAppend(p[1..], q, name);
    } else {
      assert p + q == q;
    }
  }

  // ---------------------------------------------------------------------
  // The client

  /** `BASE.rstrip("/") + path`. */
  function Url(path: string): string {
    StripRight(Base, '/') + path
  }

  class APISportsClient {
    const key: string
    const headers: map<string, string>
    const cache: CacheDirectory

    /** `APISportsClient(api_key)`; the client shares the process-wide cache
        directory. */
    constructor (apiKey: string, cache: CacheDirectory)
      ensures key == apiKey && headers == map["x-apisports-key" := apiKey] && this.cache == cache
    {
      key := apiKey;
      headers := map["x-apisports-key" := apiKey];
      this.cache := cache;
    }

    /** `_get(path, params, cache_name, cache_ttl)` at time `now`. */
    method Get(path: string, params: Params, cacheName: Option<string>, ttl: int, now: int, network: Network)
      returns (r: Result<Json, FetchError>)
      modifies cache
      ensures (r, cache.files) == Respond(old(cache.files), cacheName, ttl, now, network(Url(path), params))
    {
      var outcome := network(Url(path), params);
      match outcome {
        case Ok(data) =>
          if Named(cacheName) {
            cache.Save(cacheName.value, data, now);
          }
          return Success(data);
        case Err(cause) =>
          if Named(cacheName) {
            var cached := Load(cache.files, cacheName.value, ttl, now);
            if cached.Some? {
              return Success(cached.value);
            }
          }
          return Failure(cause);
      }
    }

    /** Sends `q` through `_get` with its cache name. */
    method Send(q: Request, now: int, network: Network) returns (r: Result<Json, FetchError>)
      modifies cache
      ensures (r, cache.files) == Respond(old(cache.files), Some(q.cacheName), q.ttl, now, network(Url(q.path), q.params))
    {
      r := Get(q.path, q.params, Some(q.cacheName), q.ttl, now, network);
    }

    method GetLeagues(season: Option<int>, now: int, network: Network) returns (r: Result<Json, FetchError>)
      modifies cache
      ensures var q := LeaguesRequest(season);
        (r, cache.files) == Respond(old(cache.files), Some(q.cacheName), q.ttl, now, network(Url(q.path), q.params))
    {
      r := Send(LeaguesRequest(season), now, network);
    }

    method GetFixturesByDate(dateIso: string, leagueId: Option<int>, now: int, network: Network)
      returns (r: Result<Json, FetchError>)
      modifies cache
      ensures var q := FixturesByDateRequest(dateIso, leagueId);
        (r, cache.files) == Respond(old(cache.files), Some(q.cacheName), q.ttl, now, network(Url(q.path), q.params))
    {
      r := Send(FixturesByDateRequest(dateIso, leagueId), now, network);
    }

    method GetPredictions(fixtureId: int, now: int, network: Network) returns (r: Result<Json, FetchError>)
      modifies cache
      ensures var q := PredictionsRequest(fixtureId);
        (r, cache.files) == Respond(old(cache.files), Some(q.cacheName), q.ttl, now, network(Url(q.path), q.params))
    {
      r := Send(PredictionsRequest(fixtureId), now, network);
    }

    method GetStandings(leagueId: int, season: int, now: int, network: Network) returns (r: Result<Json, FetchError>)
      modifies cache
      ensures var q := StandingsRequest(leagueId, season);
        (r, cache.files) == Respond(old(cache.files), Some(q.cacheName), q.ttl, now, network(Url(q.path), q.params))
    {
      r := Send(StandingsRequest(leagueId, season), now, network);
    }

    method GetTeamStats(teamId: int, leagueId: Option<int>, season: Option<int>, now: int, network: Network)
      returns (r: Result<Json, FetchError>)
      modifies cache
      ensures var q := TeamStatsRequest(teamId, leagueId, season);
        (r, cache.files) == Respond(old(cache.files), Some(q.cacheName), q.ttl, now, network(Url(q.path), q.params))
    {
      r := Send(TeamStatsRequest(teamId, leagueId, season), now, network);
    }

    method GetLineups(fixtureId: int, now: int, network: Network) returns (r: Result<Json, FetchError>)
      modifies cache
      ensures var q := LineupsRequest(fixtureId);
        (r, cache.files) == Respond(old(cache.files), Some(q.cacheName), q.ttl, now, network(Url(q.path), q.params))
    {
      r := Send(LineupsRequest(fixtureId), now, network);
    }

    method GetTeamFixtures(teamId: int, season: Option<int>, status: Option<string>, now: int, network: Network)
      returns (r: Result<Json, FetchError>)
      modifies cache
      ensures var q := TeamFixturesRequest(teamId, season, status);
        (r, cache.files) == Respond(old(cache.files), Some(q.cacheName), q.ttl, now, network(Url(q.path), q.params))
    {
      r := Send(TeamFixturesRequest(teamId, season, status), now, network);
    }
  }

  /** The base URL has no trailing "/", so `rstrip` leaves it as it is. */
  lemma UrlJoinsBase(path: string)
    ensures Url(path) == Base + path
  {
    assert Base[|Base| - 1] == 'o';
  }
}
