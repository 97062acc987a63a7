/** The older, cache-first fetch layer of utils/fetch_data.py, against the
    football-data.org API. The file as stored has lost its indentation; the
    model reads it as follows: `load_cache` computes the age and returns the
    data inside `if os.path.exists(path):`, with `return None` after that
    block; in `get_leagues` the `elif cached:` pairs with
    `if resp.status_code == 200:` and `return []` closes the function; in
    `get_fixtures` `cache_data(...)` is the last statement inside
    `if resp.status_code == 200:` and `return []` is at function level. */
module FetchData {
  import opened Wrappers
  import opened Json
  import opened Text

  const CacheDir := "cache"
  const CacheExpiryHours := 4
  const LeaguesFile := "leagues.json"

  /** What one cache file holds: the record `cache_data` writes, or bytes
      that `json.load` cannot read as such a record. */
  datatype Record = Record(timestamp: int, data: Json) | Unreadable

  /** The outcome of `requests.get`: a response, or an exception. */
  datatype Http = Response(status: int, body: Json) | ConnectionFailed

  /** `os.path.join(CACHE_DIR, filename)`. */
  function Path(filename: string): string {
    CacheDir + "/" + filename
  }

  /** `load_cache(filename)` against the directory `files` at time `now`.
      `None` is JSON null. There is no `try`, so an unreadable file raises. */
  function LoadCache(files: map<string, Record>, filename: string, now: int): Result<Json, PyError> {
    var path := Path(filename);
    if path !in files then Success(JNull)
    else match files[path]
      case Unreadable => Failure(DecodeError)
      case Record(ts, data) =>
        var ageHours := (now - ts) as real / 3600.0;
        if ageHours < CacheExpiryHours as real then Success(data) else Success(JNull)
  }

  /** A record is returned exactly when it is strictly younger than four
      hours; at four hours it has expired. */
  lemma LoadCacheExpiry(files: map<string, Record>, filename: string, now: int)
    requires Path(filename) in files && files[Path(filename)].Record?
    ensures LoadCache(files, filename, now) ==
      Success(if now - files[Path(filename)].timestamp < 4 * 3600 then files[Path(filename)].data else JNull)
  {
    var age := now - files[Path(filename)].timestamp;
    assert (age as real / 3600.0 < 4.0) <==> age < 14400 by {
      assert age as real == (age as real / 3600.0) * 3600.0;
    }
  }

  /** A missing file reads as `None`; an unreadable one raises. */
  lemma LoadCacheMissing(files: map<string, Record>, filename: string, now: int)
    ensures Path(filename) !in files ==> LoadCache(files, filename, now) == Success(JNull)
    ensures Path(filename) in files && files[Path(filename)] == Unreadable ==>
      LoadCache(files, filename, now) == Failure(DecodeError)
  {
  }

  // ---------------------------------------------------------------------
  // List comprehensions

  /** `[project(x) for x in xs if test(x)]`: elements are visited in order,
      each tested and then (if kept) projected; the first exception raised
      by either ends the comprehension. */
  function Comprehension(xs: seq<Json>, test: Json -> Result<bool, PyError>,
                         project: Json -> Result<Json, PyError>): (r: Result<seq<Json>, PyError>)
    ensures r.Success? ==> |r.value| <= |xs|
  {
    if xs == [] then Success([])
    else match test(xs[0])
      case Failure(e) => Failure(e)
      case Success(keep) =>
        if !keep then Comprehension(xs[1..], test, project)
        else match project(xs[0])
          case Failure(e) => Failure(e)
          case Success(y) =>
            match Comprehension(xs[1..], test, project)
            case Failure(e) => Failure(e)
            case Success(ys) => Success([y] + ys)
  }

  /** A comprehension over a concatenation is the concatenation of the two
      comprehensions, an exception in the first part winning: the output
      keeps the input order. */
  lemma {:induction false} ComprehensionAppend(a: seq<Json>, b: seq<Json>, test: Json -> Result<bool, PyError>,
                                               project: Json -> Result<Json, PyError>)
    ensures Comprehension(a + b, test, project) ==
      match Comprehension(a, test, project)
      case Failure(e) => Failure(e)
      case Success(ya) =>
        match Comprehension(b, test, project)
        case Failure(e) => Failure(e)
        case Success(yb) => Success(ya + yb)
  {
    if a == [] {
      assert a + b == b;
      match Comprehension(b, test, project)
      case Failure(e) =>
      case Success(yb) => assert [] + yb == yb;
    } else {
      assert (a + b)[0] == a[0] && (a + b)[1..] == a[1..] + b;
      ComprehensionAppend(a[1..], b, test, project);
      match test(a[0])
      case Failure(e) =>
      case Success(keep) =>
        if keep {
          match project(a[0])
          case Failure(e) =>
          case Success(y) =>
            match Comprehension(a[1..], test, project)
            case Failure(e) =>
            case Success(ys) =>
              match Comprehension(b, test, project)
              case Failure(e) =>
              case Success(yb) => assert [y] + ys + yb == [y] + (ys + yb);
        }
    }
  }

  /** Every element kept passes the test and every output comes from the
      input, in input order: the output is a subsequence when `project` is
      the identity. */
  lemma {:induction false} ComprehensionKeepsPassing(xs: seq<Json>, test: Json -> Result<bool, PyError>)
    requires Comprehension(xs, test, Keep).Success?
    ensures forall y :: y in Comprehension(xs, test, Keep).value ==> y in xs && test(y) == Success(true)
  {
    if xs != [] {
      ComprehensionKeepsPassing(xs[1..], test);
      var rest := Comprehension(xs[1..], test, Keep).value;
      assert forall y :: y in rest ==> y in xs[1..];
      if test(xs[0]) == Success(true) {
        assert Comprehension(xs, test, Keep).value == [xs[0]] + rest;
      } else {
        assert Comprehension(xs, test, Keep).value == rest;
      }
    }
  }

  /** The identity projection `m` of `[m for m in ...]`. */
  function Keep(x: Json): Result<Json, PyError> {
    Success(x)
  }

  /** `c['plan'] == 'TIER_ONE'`. */
  function PlanIsTierOne(c: Json): Result<bool, PyError> {
    match Subscript(c, "plan")
    case Failure(e) => Failure(e)
    case Success(plan) => Success(plan == JStr("TIER_ONE"))
  }

  /** `c['name']`. */
  function NameOf(c: Json): Result<Json, PyError> {
    Subscript(c, "name")
  }

  /** `m['competition']['name'] == league_name`. */
  function CompetitionIs(leagueName: string): Json -> Result<bool, PyError> {
    m =>
      match Subscript(m, "competition")
      case Failure(e) => Failure(e)
      case Success(comp) =>
        match Subscript(comp, "name")
        case Failure(e) => Failure(e)
        case Success(name) => Success(name == JStr(leagueName))
  }

  /** Iterating a JSON value: a list gives its items, a string its one-letter
      strings; a dict gives its key strings, which both tests below subscript
      with a string and so reject with TypeError unless there are none;
      null, numbers and booleans are not iterable. */
  function ScanThen(j: Json, test: Json -> Result<bool, PyError>, project: Json -> Result<Json, PyError>)
    : Result<seq<Json>, PyError>
  {
    match j
    case JArr(xs) => Comprehension(xs, test, project)
    case JStr(s) => Comprehension(seq(|s|, i requires 0 <= i < |s| => JStr([s[i]])), test, project)
    case JObj(m) => if m == map[] then Success([]) else Failure(TypeError)
    case _ => Failure(TypeError)
  }

  /** `[c['name'] for c in data['competitions'] if c['plan'] == 'TIER_ONE']`. */
  function TierOneNames(data: Json): Result<seq<Json>, PyError> {
    match Subscript(data, "competitions")
    case Failure(e) => Failure(e)
    case Success(comps) => ScanThen(comps, PlanIsTierOne, NameOf)
  }

  /** `[m for m in data if m['competition']['name'] == league_name]`. */
  function LeagueMatches(data: Json, leagueName: string): Result<seq<Json>, PyError> {
    ScanThen(data, CompetitionIs(leagueName), Keep)
  }

  /** A competition the filter reads without raising: it has a plan, and a
      name when that plan is TIER_ONE (the name of any other is never read). */
  predicate Listable(c: map<string, Json>) {
    "plan" in c && (c["plan"] == JStr("TIER_ONE") ==> "name" in c)
  }

  /** One competition contributes its name when its plan is TIER_ONE and
      nothing otherwise; with the append law this pins the whole list. */
  lemma TierOneSingle(c: map<string, Json>)
    requires Listable(c)
    ensures Comprehension([JObj(c)], PlanIsTierOne, NameOf) ==
      Success(if c["plan"] == JStr("TIER_ONE") then [c["name"]] else [])
  {
    assert [JObj(c)][1..] == [];
    assert Comprehension([], PlanIsTierOne, NameOf) == Success([]);
    assert PlanIsTierOne(JObj(c)) == Success(c["plan"] == JStr("TIER_ONE"));
    if c["plan"] == JStr("TIER_ONE") {
      assert NameOf(JObj(c)) == Success(c["name"]);
      assert [c["name"]] + [] == [c["name"]];
    }
  }

  /** A competitions list of well-formed objects yields exactly the names of
      the TIER_ONE ones, in order. */
  lemma {:induction false} TierOneNamesExact(comps: seq<map<string, Json>>)
    requires forall k :: 0 <= k < |comps| ==> Listable(comps[k])
    ensures TierOneNames(JObj(map["competitions" := JArr(TierOneInput(comps))])) == Success(TierOneExpected(comps))
  {
    var xs := TierOneInput(comps);
    var test, project := PlanIsTierOne, NameOf;
    if comps != [] {
      TierOneNamesExact(comps[1..]);
      assert xs == [JObj(comps[0])] + TierOneInput(comps[1..]);
      ComprehensionAppend([JObj(comps[0])], TierOneInput(comps[1..]), test, project);
      TierOneSingle(comps[0]);
    }
  }

  function TierOneInput(comps: seq<map<string, Json>>): seq<Json> {
    seq(|comps|, k requires 0 <= k < |comps| => JObj(comps[k]))
  }

  /** The reference answer: the names of the TIER_ONE competitions, in order. */
  function TierOneExpected(comps: seq<map<string, Json>>): seq<Json>
    requires forall k :: 0 <= k < |comps| ==> Listable(comps[k])
  {
    if comps == [] then []
    else
      assert Listable(comps[0]); (if comps[0]["plan"] == JStr("TIER_ONE") then [comps[0]["name"]] else []) + TierOneExpected(comps[1..])
  }

  /** Every match kept belongs to the requested competition and was in the
      response. */
  lemma LeagueMatchesSound(xs: seq<Json>, leagueName: string)
    requires LeagueMatches(JArr(xs), leagueName).Success?
    ensures forall m :: m in LeagueMatches(JArr(xs), leagueName).value ==>
      m in xs && m.JObj? && "competition" in m.fields && m.fields["competition"].JObj?
      && "name" in m.fields["competition"].fields && m.fields["competition"].fields["name"] == JStr(leagueName)
  {
    ComprehensionKeepsPassing(xs, CompetitionIs(leagueName));
  }

  /** Every match of the response whose competition is `league_name` is
      kept: with `LeagueMatchesSound`, the filter is exact. */
  lemma LeagueMatchesComplete(xs: seq<Json>, leagueName: string, k: int)
    requires 0 <= k < |xs| && CompetitionIs(leagueName)(xs[k]) == Success(true)
    requires LeagueMatches(JArr(xs), leagueName).Success?
    ensures xs[k] in LeagueMatches(JArr(xs), leagueName).value
  {
    ComprehensionKeepsAll(xs, CompetitionIs(leagueName), k);
  }

  /** A match the filter reads without raising: a dict whose "competition"
      is a dict with a "name". */
  predicate MatchReadable(m: Json) {
    m.JObj? && "competition" in m.fields && m.fields["competition"].JObj?
    && "name" in m.fields["competition"].fields
  }

  /** The match belongs to the competition called `leagueName`. */
  predicate InLeague(m: Json, leagueName: string)
    requires MatchReadable(m)
  {
    m.fields["competition"].fields["name"] == JStr(leagueName)
  }

  /** The reference answer: the matches of the competition, in response
      order, each as often as it occurs. */
  function LeagueExpected(xs: seq<Json>, leagueName: string): seq<Json>
    requires forall k :: 0 <= k < |xs| ==> MatchReadable(xs[k])
  {
    if xs == [] then []
    else
      assert MatchReadable(xs[0]);
      (if InLeague(xs[0], leagueName) then [xs[0]] else []) + LeagueExpected(xs[1..], leagueName)
  }

  /** For readable matches the filter is exactly the reference: order and
      multiplicity are kept. */
  lemma {:induction false} LeagueMatchesExact(xs: seq<Json>, leagueName: string)
    requires forall k :: 0 <= k < |xs| ==> MatchReadable(xs[k])
    ensures LeagueMatches(JArr(xs), leagueName) == Success(LeagueExpected(xs, leagueName))
  {
    if xs != [] {
      LeagueMatchesExact(xs[1..], leagueName);
      assert MatchReadable(xs[0]);
      assert CompetitionIs(leagueName)(xs[0]) == Success(InLeague(xs[0], leagueName));
      var test := CompetitionIs(leagueName);
      var rest := LeagueExpected(xs[1..], leagueName);
      assert Comprehension(xs[1..], test, Keep) == Success(rest);
      if InLeague(xs[0], leagueName) {
        assert Keep(xs[0]) == Success(xs[0]);
        assert Comprehension(xs, test, Keep) == Success([xs[0]] + rest);
        assert LeagueExpected(xs, leagueName) == [xs[0]] + rest;
      } else {
        assert Comprehension(xs, test, Keep) == Success(rest);
        assert LeagueExpected(xs, leagueName) == [] + rest;
        assert [] + rest == rest;
      }
      assert LeagueMatches(JArr(xs), leagueName) == Comprehension(xs, test, Keep);
    }
  }

  /** An element that passes the test is in the output of a comprehension
      that completes. */
  lemma {:induction false} ComprehensionKeepsAll(xs: seq<Json>, test: Json -> Result<bool, PyError>, k: int)
    requires 0 <= k < |xs| && test(xs[k]) == Success(true)
    requires Comprehension(xs, test, Keep).Success?
    ensures xs[k] in Comprehension(xs, test, Keep).value
  {
    assert test(xs[0]).Success?;
    var rest := Comprehension(xs[1..], test, Keep);
    assert rest.Success?;
    if test(xs[0]) == Success(true) {
      assert Comprehension(xs, test, Keep).value == [xs[0]] + rest.value;
    } else {
      assert Comprehension(xs, test, Keep).value == rest.value;
    }
    if k > 0 {
      assert xs[1..][k - 1] == xs[k];
      ComprehensionKeepsAll(xs[1..], test, k - 1);
    }
  }

  /** `f"fixtures_{fixture_date}_{league_name}.json".replace(' ', '_')`. */
  function FixturesFile(fixtureDate: string, leagueName: string): string {
    Replace("fixtures_" + fixtureDate + "_" + leagueName + ".json", ' ', '_')
  }

  /** The fixtures file name holds no space; league names that differ only
      in " " versus "_" share a file. */
  lemma FixturesFileNoSpaces(fixtureDate: string, leagueName: string)
    ensures forall i :: 0 <= i < |FixturesFile(fixtureDate, leagueName)| ==> FixturesFile(fixtureDate, leagueName)[i] != ' '
    ensures FixturesFile(fixtureDate, leagueName) == FixturesFile(fixtureDate, Replace(leagueName, ' ', '_'))
  {
    var pre := "fixtures_" + fixtureDate + "_";
    var a := pre + leagueName + ".json";
    var b := pre + Replace(leagueName, ' ', '_') + ".json";
    assert |a| == |b|;
    forall i | 0 <= i < |a| ensures (if a[i] == ' ' then '_' else a[i]) == (if b[i] == ' ' then '_' else b[i]) {
      if i < |pre| {
      } else if i < |pre| + |leagueName| {
        assert a[i] == leagueName[i - |pre|] && b[i] == Replace(leagueName, ' ', '_')[i - |pre|];
      } else {
      }
    }
  }

  /** The fixtures file name holds a "/", and so cannot be written, exactly
      when the date or the league name does. */
  lemma FixturesFileSlash(fixtureDate: string, leagueName: string)
    ensures '/' in FixturesFile(fixtureDate, leagueName) <==> '/' in fixtureDate || '/' in leagueName
  {
    var s := "fixtures_" + fixtureDate + "_" + leagueName + ".json";
    var f := FixturesFile(fixtureDate, leagueName);
    assert '/' !in "fixtures_" && '/' !in "_" && '/' !in ".json";
    if '/' in f {
      var i :| 0 <= i < |f| && f[i] == '/';
      assert s[i] == '/';
    }
    if '/' in s {
      var i :| 0 <= i < |s| && s[i] == '/';
      assert f[i] == '/';
    }
  }

  // ---------------------------------------------------------------------
  // The cache directory and the two fetchers

  class CacheFolder {
    var files: map<string, Record>

    constructor (existing: map<string, Record>)
      ensures files == existing
    {
      files := existing;
    }

    /** `cache_data(filename, data)` at time `now`. A "/" in the file name
        names a sub-directory of the cache directory, which never exists, so
        `open(..., 'w')` raises before anything is written. */
    method CacheData(filename: string, data: Json, now: int) returns (r: Result<(), PyError>)
      modifies this
      ensures '/' in filename ==> r == Failure(FileNotFoundError) && files == old(files)
      ensures '/' !in filename ==> r == Success(()) && files == old(files)[Path(filename) := Record(now, data)]
    {
      if '/' in filename {
        return Failure(FileNotFoundError);
      }
      files := files[Path(filename) := Record(now, data)];
      return Success(());
    }

    /** `get_leagues(api_key)` at time `now`; `response` is what the request
        to `competitions` would give, and is used only after a cache miss. */
    method GetLeagues(now: int, response: Http) returns (r: Result<Json, PyError>)
      modifies this
      ensures var cached := LoadCache(old(files), LeaguesFile, now);
        cached.Failure? ==> r == Failure(cached.error) && files == old(files)
      ensures var cached := LoadCache(old(files), LeaguesFile, now);
        cached.Success? && Truthy(cached.value) ==> r == Success(cached.value) && files == old(files)
      ensures var cached := LoadCache(old(files), LeaguesFile, now);
        cached.Success? && !Truthy(cached.value) ==>
          match response
          case ConnectionFailed => r == Failure(RequestError) && files == old(files)
          case Response(status, body) =>
            if status != 200 then r == Success(JArr([])) && files == old(files)
            else match TierOneNames(body)
              case Failure(e) => r == Failure(e) && files == old(files)
              case Success(names) =>
                r == Success(JArr(names)) && files == old(files)[Path(LeaguesFile) := Record(now, JArr(names))]
    {
      var cached := LoadCache(files, LeaguesFile, now);
      if cached.Failure? {
        return Failure(cached.error);
      }
      if Truthy(cached.value) {
        return cached;
      }
      match response {
        case ConnectionFailed =>
          return Failure(RequestError);
        case Response(status, body) =>
          if status == 200 {
            var leagues := TierOneNames(body);
            if leagues.Failure? {
              return Failure(leagues.error);
            }
            // "leagues.json" holds no "/", so this write succeeds.
            assert '/' !in LeaguesFile;
            var _ := CacheData(LeaguesFile, JArr(leagues.value), now);
            return Success(JArr(leagues.value));
          } else if Truthy(cached.value) {
            // `elif cached:` cannot be taken: a truthy cache returned above.
            return cached;
          }
          return Success(JArr([]));
      }
    }

    /** `get_fixtures(api_key, fixture_date, league_name)` at time `now`;
        `fixtureDate` is the ISO form `str(date)` gives. */
    method GetFixtures(now: int, fixtureDate: string, leagueName: string, response: Http)
      returns (r: Result<Json, PyError>)
      modifies this
      ensures var cached := LoadCache(old(files), FixturesFile(fixtureDate, leagueName), now);
        cached.Failure? ==> r == Failure(cached.error) && files == old(files)
      ensures var cached := LoadCache(old(files), FixturesFile(fixtureDate, leagueName), now);
        cached.Success? && Truthy(cached.value) ==> r == Success(cached.value) && files == old(files)
      ensures var cached := LoadCache(old(files), FixturesFile(fixtureDate, leagueName), now);
        cached.Success? && !Truthy(cached.value) ==>
          match response
          case ConnectionFailed => r == Failure(RequestError) && files == old(files)
          case Response(status, body) =>
            if status != 200 then r == Success(JArr([])) && files == old(files)
            else match MatchesOf(body, leagueName)
              case Failure(e) => r == Failure(e) && files == old(files)
              case Success(ms) =>
                if '/' in FixturesFile(fixtureDate, leagueName) then
                  r == Failure(FileNotFoundError) && files == old(files)
                else
                  r == Success(JArr([]))
                  && files == old(files)[Path(FixturesFile(fixtureDate, leagueName)) := Record(now, JArr(ms))]
      ensures r.Success? && r.value != JArr([]) ==>
        r == LoadCache(old(files), FixturesFile(fixtureDate, leagueName), now) && Truthy(r.value)
    {
      var cacheFile := FixturesFile(fixtureDate, leagueName);
      var cached := LoadCache(files, cacheFile, now);
      if cached.Failure? {
        return Failure(cached.error);
      }
      if Truthy(cached.value) {
        return cached;
      }
      match response {
        case ConnectionFailed =>
          return Failure(RequestError);
        case Response(status, body) =>
          if status == 200 {
            var leagueMatches := MatchesOf(body, leagueName);
            if leagueMatches.Failure? {
              return Failure(leagueMatches.error);
            }
            var written := CacheData(cacheFile, JArr(leagueMatches.value), now);
            if written.Failure? {
              return Failure(written.error);
            }
          }
      }
      return Success(JArr([]));
    }
  }

  /** The same fetch as `GetFixtures`, returning on a 200 response the
      matches it caches, as the function's name promises. */
  method GetFixturesIntended(folder: CacheFolder, now: int, fixtureDate: string, leagueName: string, response: Http)
    returns (r: Result<Json, PyError>)
    modifies folder
    ensures var cached := LoadCache(old(folder.files), FixturesFile(fixtureDate, leagueName), now);
      cached.Success? && Truthy(cached.value) ==> r == cached && folder.files == old(folder.files)
    ensures var cached := LoadCache(old(folder.files), FixturesFile(fixtureDate, leagueName), now);
      cached.Success? && !Truthy(cached.value) && response.Response? && response.status == 200 ==>
        r == (match MatchesOf(response.body, leagueName)
              case Failure(e) => Failure(e)
              case Success(ms) =>
                if '/' in FixturesFile(fixtureDate, leagueName) then Failure(FileNotFoundError) else Success(JArr(ms)))
    ensures folder.files != old(folder.files) ==>
      r.Success? && Path(FixturesFile(fixtureDate, leagueName)) in folder.files
      && folder.files[Path(FixturesFile(fixtureDate, leagueName))] == Record(now, r.value)
  {
    var cacheFile := FixturesFile(fixtureDate, leagueName);
    var cached := LoadCache(folder.files, cacheFile, now);
    if cached.Failure? {
      return Failure(cached.error);
    }
    if Truthy(cached.value) {
      return cached;
    }
    match response {
      case ConnectionFailed =>
        return Failure(RequestError);
      case Response(status, body) =>
        if status == 200 {
          var leagueMatches := MatchesOf(body, leagueName);
          if leagueMatches.Failure? {
            return Failure(leagueMatches.error);
          }
          var written := folder.CacheData(cacheFile, JArr(leagueMatches.value), now);
          if written.Failure? {
            return Failure(written.error);
          }
          return Success(JArr(leagueMatches.value));
        }
    }
    return Success(JArr([]));
  }

  /** A first call for the Premier League on an empty cache, answered with
      one Premier League match: `get_fixtures` caches `[match]` and returns
      `[]`, where the intended version returns `[match]`. */
  method FixturesDiscrepancy() returns (asWritten: Result<Json, PyError>, stored: Record, intended: Result<Json, PyError>)
    ensures asWritten == Success(JArr([]))
    ensures stored.Record? && stored.data != JArr([]) && intended == Success(stored.data)
  {
    var game := JObj(map["competition" := JObj(map["name" := JStr("Premier League")])]);
    var body := JObj(map["matches" := JArr([game])]);
    assert [game][1..] == [];
    assert CompetitionIs("Premier League")(game) == Success(true);
    assert Comprehension([], CompetitionIs("Premier League"), Keep) == Success([]);
    assert Keep(game) == Success(game) && [game] + [] == [game];
    assert Comprehension([game], CompetitionIs("Premier League"), Keep) == Success([game]);
    assert MatchesOf(body, "Premier League") == Success([game]);
    var file := FixturesFile("2024-05-01", "Premier League");
    FixturesFileSlash("2024-05-01", "Premier League");
    assert '/' !in "2024-05-01" && '/' !in "Premier League";
    assert '/' !in file;
    var folder := new CacheFolder(map[]);
    asWritten := folder.GetFixtures(0, "2024-05-01", "Premier League", Response(200, body));
    stored := folder.files[Path(file)];
    var other := new CacheFolder(map[]);
    intended := GetFixturesIntended(other, 0, "2024-05-01", "Premier League", Response(200, body));
  }

  /** `resp.json().get('matches', [])` followed by the competition filter. */
  function MatchesOf(body: Json, leagueName: string): Result<seq<Json>, PyError> {
    match Get(body, "matches", JArr([]))
    case Failure(e) => Failure(e)
    case Success(data) => LeagueMatches(data, leagueName)
  }
}
