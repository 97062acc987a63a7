/** The deterministic derivations inside the Streamlit page app.py: the
    league choice, unwrapping the API's "response" key, the fixture row's
    kickoff time and team names, and the prediction caption with its
    confidence threshold. Rendering itself is not modelled. */
module App {
  import opened Wrappers
  import opened Json
  import opened Text

  // ---------------------------------------------------------------------
  // League choice

  /** What the sidebar may hold as `league_choice`: nothing (`None`), a
      tuple, or some other object with an optional `id` attribute. */
  datatype LeagueChoice = NoChoice | TupleChoice(items: seq<Json>) | ObjectChoice(id: Option<Json>)

  /** Lines 70-77: the league id and label derived from the choice, with
      `None` as JSON null; a one-element tuple raises on `league_choice[1]`. */
  method SelectLeague(choice: LeagueChoice) returns (r: Result<(Json, Json), PyError>)
    ensures choice == NoChoice || choice == TupleChoice([]) ==> r == Success((JNull, JStr("All Leagues")))
    ensures choice.TupleChoice? && |choice.items| == 1 ==> r == Failure(IndexError)
    ensures choice.TupleChoice? && |choice.items| >= 2 ==> r == Success((choice.items[0], choice.items[1]))
    ensures choice.ObjectChoice? ==> r == Success((choice.id.GetOr(JNull), JStr("All Leagues")))
  {
    var leagueId := JNull;
    var leagueLabel := JStr("All Leagues");
    var chosen := match choice
      case NoChoice => false
      case TupleChoice(items) => items != []
      case ObjectChoice(_) => true;
    if chosen {
      match choice {
        case NoChoice =>
        case TupleChoice(items) =>
          leagueId := items[0];
          if |items| < 2 {
            return Failure(IndexError);
          }
          leagueLabel := items[1];
        case ObjectChoice(id) =>
          leagueId := id.GetOr(JNull);
      }
    }
    return Success((leagueId, leagueLabel));
  }

  // ---------------------------------------------------------------------
  // Response unwrap

  /** `resp.get("response", []) if isinstance(resp, dict) else resp`. */
  function UnwrapResponse(resp: Json): Json {
    match resp
    case JObj(m) => if "response" in m then m["response"] else JArr([])
    case _ => resp
  }

  /** A dict yields its "response" entry, or an empty list when it has none;
      anything else passes through unchanged. */
  lemma UnwrapLaws(payload: Json, other: map<string, Json>, resp: Json)
    requires "response" !in other
    ensures UnwrapResponse(JObj(other["response" := payload])) == payload
    ensures UnwrapResponse(JObj(other)) == JArr([])
    ensures !resp.JObj? ==> UnwrapResponse(resp) == resp
  {
  }

  // ---------------------------------------------------------------------
  // Fixture rows

  /** The parts of one fixture line (lines 94-102). */
  datatype Row = Row(fixtureId: Json, kickoffTime: Json, home: Json, away: Json, leagueName: Json)

  /** `kickoff_local[11:16] if kickoff_local else "TBD"`. Slicing a string or
      list clamps; any other truthy value is not subscriptable. */
  function KickoffTime(kickoff: Json): Result<Json, PyError> {
    if !Truthy(kickoff) then Success(JStr("TBD"))
    else match kickoff
      case JStr(s) => Success(JStr(Slice(s, 11, 16)))
      case JArr(xs) => Success(JArr(Slice(xs, 11, 16)))
      case _ => Failure(TypeError)
  }

  /** The time of an ISO date-time is its characters 11 to 15; a missing,
      null or empty date shows "TBD"; a non-empty date of at most eleven
      characters shows an empty time, not "TBD". */
  lemma KickoffTimeCases(s: string)
    ensures |s| >= 16 ==> KickoffTime(JStr(s)) == Success(JStr(s[11..16]))
    ensures 0 < |s| <= 11 ==> KickoffTime(JStr(s)) == Success(JStr(""))
    ensures KickoffTime(JStr("")) == Success(JStr("TBD")) && KickoffTime(JNull) == Success(JStr("TBD"))
    ensures s != [] ==> KickoffTime(JStr(s)).Success? && |KickoffTime(JStr(s)).value.s| <= 5
  {
  }

  /** `teams.get(side, {}).get("name", default)`. */
  function TeamName(teams: Json, side: string, default: string): Result<Json, PyError> {
    match Get(teams, side, JObj(map[]))
    case Failure(e) => Failure(e)
    case Success(team) => Get(team, "name", JStr(default))
  }

  /** The default applies only when the key is missing: a team without a
      "name" is shown as the default, a team whose name is null as null. */
  lemma TeamNameDefaults(teams: map<string, Json>, team: map<string, Json>, side: string, default: string)
    ensures side !in teams ==> TeamName(JObj(teams), side, default) == Success(JStr(default))
    ensures "name" !in team ==> TeamName(JObj(teams[side := JObj(team)]), side, default) == Success(JStr(default))
    ensures TeamName(JObj(teams[side := JObj(team["name" := JNull])]), side, default) == Success(JNull)
  {
  }

  /** Lines 94-102 for one element `f` of the fixture list. */
  function FixtureRow(f: Json): Result<Row, PyError> {
    if !f.JObj? then Failure(AttributeError)
    else
      var fm := f.fields;
      var fixture := if "fixture" in fm then fm["fixture"] else JObj(map[]);
      var teams := if "teams" in fm then fm["teams"] else JObj(map[]);
      var league := if "league" in fm then fm["league"] else JObj(map[]);
      if !fixture.JObj? then Failure(AttributeError)
      else
        var xm := fixture.fields;
        var fixtureId := if "id" in xm then xm["id"] else JNull;
        var kickoffLocal := if "date" in xm then xm["date"] else JNull;
        match KickoffTime(kickoffLocal)
        case Failure(e) => Failure(e)
        case Success(kickoffTime) =>
          match TeamName(teams, "home", "Home")
          case Failure(e) => Failure(e)
          case Success(home) =>
            match TeamName(teams, "away", "Away")
            case Failure(e) => Failure(e)
            case Success(away) =>
              match Get(league, "name", JNull)
              case Failure(e) => Failure(e)
              case Success(leagueName) => Success(Row(fixtureId, kickoffTime, home, away, leagueName))
  }

  /** A fixture with no "date" and no team names still renders, with "TBD"
      and the "Home"/"Away" defaults; a fixture that is not a dict raises. */
  lemma FixtureRowDefaults(fixture: map<string, Json>, f: Json)
    requires "date" !in fixture
    ensures FixtureRow(JObj(map["fixture" := JObj(fixture)])) ==
      Success(Row(if "id" in fixture then fixture["id"] else JNull, JStr("TBD"), JStr("Home"), JStr("Away"), JNull))
    ensures !f.JObj? ==> FixtureRow(f) == Failure(AttributeError)
  {
  }

  // ---------------------------------------------------------------------
  // Prediction probabilities and confidence

  const ProbabilityKeys: seq<string> := ["home", "draw", "away"]

  /** One step of the loop at lines 120-123: the entry `key` adds, if any. */
  function ProbEntry(probability: map<string, Json>, key: string): seq<(string, string)> {
    if key in probability && probability[key] != JNull then [(key, PyStr(probability[key]) + "%")] else []
  }

  /** The `probs` dict after the loop has visited `keys`, in insertion order. */
  function ProbsOver(probability: map<string, Json>, keys: seq<string>): seq<(string, string)> {
    if keys == [] then [] else ProbsOver(probability, keys[..|keys| - 1]) + ProbEntry(probability, keys[|keys| - 1])
  }

  function Probabilities(probability: map<string, Json>): seq<(string, string)> {
    ProbsOver(probability, ProbabilityKeys)
  }

  /** Only home, draw and away are read, in that order; each present
      non-null value is stored as its text followed by "%". */
  lemma ProbabilitiesShape(probability: map<string, Json>)
    ensures Probabilities(probability) ==
      ProbEntry(probability, "home") + ProbEntry(probability, "draw") + ProbEntry(probability, "away")
    ensures forall e :: e in Probabilities(probability) ==>
      e.0 in ProbabilityKeys && e.0 in probability && probability[e.0] != JNull && e.1 == PyStr(probability[e.0]) + "%"
  {
    var ks := ProbabilityKeys;
    assert ks[..3][..2] == ["home", "draw"] && ks[..3][..2][..1] == ["home"] && ks[..3][..2][..1][..0] == [];
    assert ProbsOver(probability, ["home"]) == ProbEntry(probability, "home");
    assert ProbsOver(probability, ["home", "draw"]) == ProbEntry(probability, "home") + ProbEntry(probability, "draw");
    assert ks[..3] == ks;
  }

  /** Lines 119-123: the loop that fills `probs`, given the dict
      `block.get("probability", {})`. */
  method CollectProbabilities(probability: map<string, Json>) returns (probs: seq<(string, string)>)
    ensures probs == Probabilities(probability)
  {
    probs := [];
    for i := 0 to |ProbabilityKeys|
      invariant probs == ProbsOver(probability, ProbabilityKeys[..i])
    {
      var key := ProbabilityKeys[i];
      var val := if key in probability then probability[key] else JNull;
      if val != JNull {
        probs := probs + [(key, PyStr(val) + "%")];
      }
      assert ProbabilityKeys[..i + 1][..i] == ProbabilityKeys[..i];
    }
    assert ProbabilityKeys[..|ProbabilityKeys|] == ProbabilityKeys;
  }

  /** `v.strip("%").isdigit()`. */
  predicate Qualifies(v: string) {
    IsDigits(Strip(v, '%'))
  }

  /** `int(str(v).replace("%", ""))` for a qualifying value: since only the
      ends carried "%", deleting every "%" leaves the stripped digits. */
  function Numeric(v: string): (n: nat)
    requires Qualifies(v)
    ensures n == ParseNat(Strip(v, '%'))
  {
    RemoveIsStrip(v, '%');
    ParseNat(Remove(v, '%'))
  }

  /** The values of `probs`, in order. */
  function Values(probs: seq<(string, string)>): (vs: seq<string>)
    ensures |vs| == |probs| && forall i :: 0 <= i < |probs| ==> vs[i] == probs[i].1
  {
    if probs == [] then [] else [probs[0].1] + Values(probs[1..])
  }

  /** Lines 124-130: the largest numeric value among the qualifying ones, or
      `None` when none qualifies. */
  function Confidence(values: seq<string>): (c: Option<nat>)
    ensures c.None? <==> forall i :: 0 <= i < |values| ==> !Qualifies(values[i])
    ensures c.Some? ==> exists i :: 0 <= i < |values| && Qualifies(values[i]) && Numeric(values[i]) == c.value
    ensures c.Some? ==> forall i :: 0 <= i < |values| && Qualifies(values[i]) ==> Numeric(values[i]) <= c.value
  {
    if values == [] then None
    else
      var rest := Confidence(values[1..]);
      if !Qualifies(values[0]) then rest
      else if rest.Some? && rest.value >= Numeric(values[0]) then rest
      else Some(Numeric(values[0]))
  }

  /** A non-negative integer probability counts with its own value. */
  lemma IntProbabilityCounts(n: nat)
    ensures Qualifies(PyStr(JInt(n)) + "%") && Numeric(PyStr(JInt(n)) + "%") == n
  {
    var d := NatStr(n);
    var v := d + "%";
    assert v[..|v| - 1] == d;
    assert StripRight(v, '%') == StripRight(d, '%');
    assert StripLeft(v, '%') == v;
    assert StripRight(d, '%') == d;
    ParseNatStr(n);
  }

  /** A negative integer probability never counts. */
  lemma NegativeProbabilityIgnored(n: int)
    requires n < 0
    ensures !Qualifies(PyStr(JInt(n)) + "%")
  {
    var v := PyStr(JInt(n)) + "%";
    assert v[0] == '-';
    assert StripLeft(v, '%') == v;
    var t := StripRight(v, '%');
    StripRightKeepsHead(v, '%');
    assert t[0] == '-';
  }

  lemma {:induction false} StripRightKeepsHead(s: string, c: char)
    requires s != [] && s[0] != c
    ensures StripRight(s, c) != [] && StripRight(s, c)[0] == s[0]
  {
    if s[|s| - 1] == c {
      StripRightKeepsHead(s[..|s| - 1], c);
    }
  }

  // ---------------------------------------------------------------------
  // The caption

  /** What the page shows under a fixture (lines 132-144). */
  datatype Caption =
    | NoPredictionReturned
    | NoPredictionData
    | Plain(winner: Json, advice: Json)
    | Confident(winner: Json, confidence: nat, advice: Json)
    | BelowThreshold(confidence: nat, minConf: int)
    | PredictionError(error: PyError)

  /** `advice if advice else ''`. */
  function AdviceText(advice: Json): Json {
    if Truthy(advice) then advice else JStr("")
  }

  /** Lines 132-138: no confidence gives the plain caption; otherwise the
      confidence is shown when it reaches `min_conf` and flagged below it. */
  function Decide(conf: Option<nat>, minConf: int, winner: Json, advice: Json): Caption {
    if conf.None? then Plain(winner, AdviceText(advice))
    else if conf.value >= minConf then Confident(winner, conf.value, AdviceText(advice))
    else BelowThreshold(conf.value, minConf)
  }

  /** The threshold is inclusive, and an absent confidence is never treated
      as a low one. */
  lemma DecideThreshold(conf: Option<nat>, minConf: int, winner: Json, advice: Json)
    ensures conf.None? ==> Decide(conf, minConf, winner, advice).Plain?
    ensures conf.Some? ==> (Decide(conf, minConf, winner, advice).Confident? <==> conf.value >= minConf)
    ensures conf.Some? ==> (Decide(conf, minConf, winner, advice).BelowThreshold? <==> conf.value < minConf)
    ensures conf.Some? && conf.value >= minConf ==> Decide(conf, minConf, winner, advice).confidence == conf.value
  {
  }

  /** `needle in s` for strings. */
  predicate Substring(needle: string, s: string) {
    exists i :: 0 <= i <= |s| - |needle| && OccursAt(needle, s, i)
  }

  predicate OccursAt(needle: string, s: string, i: int)
    requires 0 <= i <= |s| - |needle|
  {
    s[i..i + |needle|] == needle
  }

  /** `key in p` for a JSON value. */
  function Contains(p: Json, key: string): Result<bool, PyError> {
    match p
    case JObj(m) => Success(key in m)
    case JArr(xs) => Success(JStr(key) in xs)
    case JStr(s) => Success(Substring(key, s))
    case _ => Failure(TypeError)
  }

  /** `pred_list[0]` for a truthy `pred_list`. */
  function First(j: Json): Result<Json, PyError> {
    match j
    case JArr(xs) => if xs != [] then Success(xs[0]) else Failure(IndexError)
    case JStr(s) => if s != [] then Success(JStr([s[0]])) else Failure(IndexError)
    case JObj(_) => Failure(KeyError("0"))
    case _ => Failure(TypeError)
  }

  /** Line 114-115: the first block of a non-empty "predictions" list, or
      `None` when `p` has none. */
  function PredictionBlock(p: Json): Result<Option<Json>, PyError> {
    match Contains(p, "predictions")
    case Failure(e) => Failure(e)
    case Success(has) =>
      if !has then Success(None)
      else match Subscript(p, "predictions")
        case Failure(e) => Failure(e)
        case Success(preds) => if preds.JArr? && preds.items != [] then Success(Some(preds.items[0])) else Success(None)
  }

  /** `block.get("winner", {}).get("name") or block.get("winner")`. */
  function Winner(block: Json): Result<Json, PyError> {
    match Get(block, "winner", JObj(map[]))
    case Failure(e) => Failure(e)
    case Success(w) =>
      match Get(w, "name", JNull)
      case Failure(e) => Failure(e)
      case Success(name) => if Truthy(name) then Success(name) else Get(block, "winner", JNull)
  }

  /** Lines 109-138 for the payload of `get_predictions`. */
  function EvaluatePrediction(predResp: Json, minConf: int): Result<Caption, PyError> {
    var predList := UnwrapResponse(predResp);
    if !Truthy(predList) then Success(NoPredictionReturned)
    else match First(predList)
      case Failure(e) => Failure(e)
      case Success(p) =>
        match PredictionBlock(p)
        case Failure(e) => Failure(e)
        case Success(None) => Success(NoPredictionData)
        case Success(Some(block)) =>
          match Winner(block)
          case Failure(e) => Failure(e)
          case Success(winner) =>
            // `block` is a dict here: `Winner` called `block.get`.
            var bm := block.fields;
            var advice := if "advice" in bm then bm["advice"] else JNull;
            var probability := if "probability" in bm then bm["probability"] else JObj(map[]);
            match probability
            case JObj(pm) => Success(Decide(Confidence(Values(Probabilities(pm))), minConf, winner, advice))
            case _ => Failure(AttributeError)
  }

  /** An exception anywhere in lines 108-138 becomes the error caption. */
  function PredictionCaption(predResp: Json, minConf: int): Caption {
    match EvaluatePrediction(predResp, minConf)
    case Success(c) => c
    case Failure(e) => PredictionError(e)
  }

  /** Probabilities "55%", "25%" and "20%" give confidence 55: shown at a
      threshold of 55, flagged below a threshold of 60. */
  lemma ScenarioFiftyFive(winner: Json, advice: Json)
    ensures var probability := map["home" := JStr("55%"), "draw" := JStr("25%"), "away" := JStr("20%")];
      var conf := Confidence(Values(Probabilities(probability)));
      conf == Some(55)
      && Decide(conf, 55, winner, advice) == Confident(winner, 55, AdviceText(advice))
      && Decide(conf, 60, winner, advice) == BelowThreshold(55, 60)
  {
    var probability := map["home" := JStr("55%"), "draw" := JStr("25%"), "away" := JStr("20%")];
    ScenarioValues(probability);
    ScenarioConfidence();
  }

  lemma ScenarioValues(probability: map<string, Json>)
    requires probability == map["home" := JStr("55%"), "draw" := JStr("25%"), "away" := JStr("20%")]
    ensures Values(Probabilities(probability)) == ["55%%", "25%%", "20%%"]
  {
    ProbabilitiesShape(probability);
    assert "55%" + "%" == "55%%" && "25%" + "%" == "25%%" && "20%" + "%" == "20%%";
    assert ProbEntry(probability, "home") == [("home", "55%%")];
    assert ProbEntry(probability, "draw") == [("draw", "25%%")];
    assert ProbEntry(probability, "away") == [("away", "20%%")];
  }

  lemma ScenarioConfidence()
    ensures Confidence(["55%%", "25%%", "20%%"]) == Some(55)
  {
    var vs := ["55%%", "25%%", "20%%"];
    PercentValue("55", 55);
    PercentValue("25", 25);
    PercentValue("20", 20);
    assert "55" + "%%" == "55%%" && "25" + "%%" == "25%%" && "20" + "%%" == "20%%";
    assert vs[1..] == ["25%%", "20%%"] && vs[1..][1..] == ["20%%"] && vs[1..][1..][1..] == [];
    assert Confidence(vs[1..][1..]) == Some(20);
    assert Confidence(vs[1..]) == Some(25);
  }

  /** A two-digit percentage written as the API writes it ("55%"), after the
      page appends its own "%", counts with its numeric value. */
  lemma PercentValue(d: string, n: nat)
    requires |d| == 2 && IsDigit(d[0]) && IsDigit(d[1]) && n == 10 * DigitValue(d[0]) + DigitValue(d[1])
    ensures Qualifies(d + "%%") && Numeric(d + "%%") == n
  {
    var v := d + "%%";
    assert StripLeft(v, '%') == v;
    var v3 := d + "%";
    assert v[..3] == v3 && v3[..2] == d;
    assert StripRight(v, '%') == StripRight(v3, '%');
    assert StripRight(v3, '%') == StripRight(d, '%');
    assert StripRight(d, '%') == d;
    assert Strip(v, '%') == d;
    assert d[..1] == [d[0]] && d[..1][..0] == [];
    assert ParseNat(d[..1]) == DigitValue(d[0]);
    assert ParseNat(d) == 10 * ParseNat(d[..1]) + DigitValue(d[1]);
  }

  /** The caption's outer cases: no "response" or an empty list gives "no
      prediction returned"; a first element without a non-empty
      "predictions" list gives "no prediction data"; a first element that is
      a number raises inside the `try`. */
  lemma PredictionCaptionCases(p: map<string, Json>, minConf: int)
    ensures PredictionCaption(JObj(map[]), minConf) == NoPredictionReturned
    ensures PredictionCaption(JArr([]), minConf) == NoPredictionReturned
    ensures "predictions" !in p ==> PredictionCaption(JArr([JObj(p)]), minConf) == NoPredictionData
    ensures "predictions" in p && !p["predictions"].JArr? ==> PredictionCaption(JArr([JObj(p)]), minConf) == NoPredictionData
    ensures PredictionCaption(JArr([JInt(1)]), minConf) == PredictionError(TypeError)
  {
  }

  /** For a payload whose first element holds one prediction block, the
      caption is the threshold decision on the confidence of the block's
      probabilities, naming the winner's truthy "name", else the "winner"
      value itself (null when absent); a "winner" or "probability" that is
      present but not a dict raises AttributeError inside the `try`. */
  lemma PredictionCaptionOfBlock(bm: map<string, Json>, minConf: int)
    ensures var resp := JObj(map["response" := JArr([JObj(map["predictions" := JArr([JObj(bm)])])])]);
      var advice := if "advice" in bm then bm["advice"] else JNull;
      if ("winner" in bm && !bm["winner"].JObj?) || ("probability" in bm && !bm["probability"].JObj?) then
        PredictionCaption(resp, minConf) == PredictionError(AttributeError)
      else
        var pm := if "probability" in bm then bm["probability"].fields else map[];
        var winner :=
          if "winner" !in bm then JNull
          else if "name" in bm["winner"].fields && Truthy(bm["winner"].fields["name"]) then bm["winner"].fields["name"]
          else bm["winner"];
        PredictionCaption(resp, minConf) == Decide(Confidence(Values(Probabilities(pm))), minConf, winner, advice)
  {
    var block := JObj(bm);
    var p := JObj(map["predictions" := JArr([block])]);
    var resp := JObj(map["response" := JArr([p])]);
    assert UnwrapResponse(resp) == JArr([p]) && First(JArr([p])) == Success(p);
    assert PredictionBlock(p) == Success(Some(block));
    WinnerOfBlock(bm);
  }

  /** `block.get("winner", {}).get("name") or block.get("winner")` for a
      dict block: null when absent, the truthy "name" of a "winner" dict,
      else the "winner" value; a non-dict "winner" has no `get`. */
  lemma WinnerOfBlock(bm: map<string, Json>)
    ensures "winner" !in bm ==> Winner(JObj(bm)) == Success(JNull)
    ensures "winner" in bm && !bm["winner"].JObj? ==> Winner(JObj(bm)) == Failure(AttributeError)
    ensures "winner" in bm && bm["winner"].JObj? ==>
      var w := bm["winner"].fields;
      Winner(JObj(bm)) == Success(if "name" in w && Truthy(w["name"]) then w["name"] else bm["winner"])
  {
  }
}
