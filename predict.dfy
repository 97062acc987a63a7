/** The heuristic predictor of utils/predict.py. Each `random.randint(a, b)`
    draw is an input constrained to its inclusive range `a..b`. */
module Predict {
  import opened Wrappers
  import opened Json

  /** The six random draws `predict` may consume, one per randomised flag. */
  datatype Draws = Draws(recentForm: int, goals: int, ml: int, injury: int, standing: int, xg: int)

  /** Each draw lies in the inclusive range of its `randint` call. */
  predicate InRange(d: Draws) {
    && 5 <= d.recentForm <= 10
    && 3 <= d.goals <= 8
    && 5 <= d.ml <= 10
    && 0 <= d.injury <= 5
    && 5 <= d.standing <= 15
    && 5 <= d.xg <= 10
  }

  const Labels: set<string> := {"Draw", "Home Win", "Away Win"}

  class Predictor {
    var homeAdv: bool
    var recentForm: bool
    var goalsModel: bool
    var headToHead: bool
    var mlModel: bool
    var injuryLineup: bool
    var leagueStanding: bool
    var xgModel: bool

    /** `Predictor.__init__`: stores the eight flags. */
    constructor (homeAdv: bool, recentForm: bool, goalsModel: bool, headToHead: bool,
                 mlModel: bool, injuryLineup: bool, leagueStanding: bool, xgModel: bool)
      ensures this.homeAdv == homeAdv && this.recentForm == recentForm && this.goalsModel == goalsModel
      ensures this.headToHead == headToHead && this.mlModel == mlModel && this.injuryLineup == injuryLineup
      ensures this.leagueStanding == leagueStanding && this.xgModel == xgModel
    {
      this.homeAdv := homeAdv;
      this.recentForm := recentForm;
      this.goalsModel := goalsModel;
      this.headToHead := headToHead;
      this.mlModel := mlModel;
      this.injuryLineup := injuryLineup;
      this.leagueStanding := leagueStanding;
      this.xgModel := xgModel;
    }

    /** Whether the home-advantage rule fires. */
    predicate HomeRule(home: string)
      reads this
    {
      homeAdv && |home| % 2 == 0
    }

    /** Whether the head-to-head rule fires (both names non-empty). */
    predicate AwayRule(home: string, away: string)
      reads this
      requires home != [] && away != []
    {
      headToHead && home[0] < away[0]
    }

    /** The confidence before the cap of 99: 50 plus every fired rule's
        contribution, minus the injury draw. */
    function Raw(home: string, away: string, d: Draws): int
      reads this
      requires !headToHead || (home != [] && away != [])
    {
      50
      + (if HomeRule(home) then 10 else 0)
      + (if recentForm then d.recentForm else 0)
      + (if goalsModel then d.goals else 0)
      + (if headToHead && AwayRule(home, away) then 5 else 0)
      + (if mlModel then d.ml else 0)
      - (if injuryLineup then d.injury else 0)
      + (if leagueStanding then d.standing else 0)
      + (if xgModel then d.xg else 0)
    }

    /** `predict(home, away, previous_matches)`; `previous_matches` is never
        read. With the head-to-head flag set, an empty team name raises
        IndexError at `home[0] < away[0]`. */
    method Predict(home: string, away: string, d: Draws) returns (r: Result<(string, int), PyError>)
      requires InRange(d)
      ensures r.Failure? <==> headToHead && (home == [] || away == [])
      ensures r.Failure? ==> r.error == IndexError
      ensures r.Success? ==> r.value.0 in Labels
      ensures r.Success? ==> 45 <= r.value.1 <= 99
      ensures r.Success? ==>
        r.value.0 == (if headToHead && AwayRule(home, away) then "Away Win"
                      else if HomeRule(home) then "Home Win"
                      else "Draw")
      ensures r.Success? ==> r.value.1 == if Raw(home, away, d) < 99 then Raw(home, away, d) else 99
      ensures (!homeAdv && !recentForm && !goalsModel && !headToHead && !mlModel && !injuryLineup
               && !leagueStanding && !xgModel) ==> r == Success(("Draw", 50))
    {
      var confidence := 50;
      var prediction := "Draw";
      if homeAdv && |home| % 2 == 0 {
        prediction := "Home Win";
        confidence := confidence + 10;
      }
      if recentForm {
        confidence := confidence + d.recentForm;
      }
      if goalsModel {
        confidence := confidence + d.goals;
      }
      if headToHead {
        if home == [] || away == [] {
          return Failure(IndexError);
        }
        if home[0] < away[0] {
          prediction := "Away Win";
          confidence := confidence + 5;
        }
      }
      if mlModel {
        confidence := confidence + d.ml;
      }
      if injuryLineup {
        confidence := confidence - d.injury;
      }
      if leagueStanding {
        confidence := confidence + d.standing;
      }
      if xgModel {
        confidence := confidence + d.xg;
      }
      return Success((prediction, if confidence < 99 then confidence else 99));
    }
  }
}
