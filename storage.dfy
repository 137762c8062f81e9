/** The persistence interface the core relies on (intraday_predictor/database.py),
    reduced to its observable effect: model parameters with defaults, predictions
    upserted by (target date, stock), outcomes written back onto a prediction,
    and an append-only log of evaluation metrics. */
module Storage {
  import opened TradingDays

  /** The six columns `insert_predictions` writes. */
  datatype PredictionRow = PredictionRow(
    predictionDate: Day,
    targetDate: Day,
    stock: string,
    entry: real,
    target: real,
    sl: real)

  /** A day's open/high/low/close/volume summary for one stock. */
  datatype Actuals = Actuals(open: real, high: real, low: real, close: real, volume: real)

  /** What `update_prediction_outcome` writes onto a prediction. */
  datatype OutcomeRecord = OutcomeRecord(actuals: Actuals, outcome: string, reason: string)

  /** One row of the `model_metrics` table. */
  datatype MetricsRow = MetricsRow(
    evalDate: Day,
    total: nat,
    targetHit: nat,
    slHit: nat,
    noEntry: nat,
    stagnant: nat,
    winRate: real,
    retrained: bool)

  /** The uniqueness key of the predictions table. */
  type Key = (Day, string)

  function KeyOf(r: PredictionRow): Key {
    (r.targetDate, r.stock)
  }

  const AtrMultiplierParam: string := "atr_multiplier"
  const RiskRewardParam: string := "risk_reward_ratio"

  /** `DEFAULT_MODEL_PARAMS`, overlaid by whatever is stored. */
  const DefaultParams: map<string, real> := map[
    AtrMultiplierParam := 1.5,
    RiskRewardParam := 2.0,
    "score_threshold" := 4.0,
    "prediction_count" := 5.0]

  /** Stored rows laid over the defaults, as `get_all_model_params` builds them. */
  function Overlay(stored: map<string, real>): (m: map<string, real>)
    ensures m.Keys == DefaultParams.Keys + stored.Keys
    ensures forall k :: k in stored ==> m[k] == stored[k]
    ensures forall k :: k in DefaultParams && k !in stored ==> m[k] == DefaultParams[k]
  {
    DefaultParams + stored
  }

  /** Rows written one after another, a later row replacing an earlier one with
      the same key. */
  function Upserted(m: map<Key, PredictionRow>, rows: seq<PredictionRow>): map<Key, PredictionRow>
    decreases |rows|
  {
    if rows == [] then m else Upserted(m[KeyOf(rows[0]) := rows[0]], rows[1..])
  }

  /** Keys no row mentions keep their old row; every row's key is present. */
  lemma {:induction false} UpsertedKeys(m: map<Key, PredictionRow>, rows: seq<PredictionRow>)
    ensures Upserted(m, rows).Keys == m.Keys + set r | r in rows :: KeyOf(r)
    ensures forall k :: k in m && (forall r :: r in rows ==> KeyOf(r) != k) ==> Upserted(m, rows)[k] == m[k]
    decreases |rows|
  {
    if rows != [] {
      UpsertedKeys(m[KeyOf(rows[0]) := rows[0]], rows[1..]);
      assert forall r :: r in rows <==> r == rows[0] || r in rows[1..];
    }
  }

  /** The row stored under a key is the last row written with that key. */
  lemma {:induction false} UpsertedLastWins(m: map<Key, PredictionRow>, rows: seq<PredictionRow>, i: nat)
    requires i < |rows|
    requires forall j :: i < j < |rows| ==> KeyOf(rows[j]) != KeyOf(rows[i])
    ensures KeyOf(rows[i]) in Upserted(m, rows)
    ensures Upserted(m, rows)[KeyOf(rows[i])] == rows[i]
    decreases |rows|
  {
    var m' := m[KeyOf(rows[0]) := rows[0]];
    if i == 0 {
      UpsertedKeys(m', rows[1..]);
      assert forall r :: r in rows[1..] ==> KeyOf(r) != KeyOf(rows[0]);
    } else {
      UpsertedLastWins(m', rows[1..], i - 1);
    }
  }

  class Store {
    /** Rows of `model_params`. */
    var params: map<string, real>
    /** Rows of `predictions`, by (target date, stock). */
    var predictions: map<Key, PredictionRow>
    /** The outcome columns of `predictions`, by the same key. */
    var outcomes: map<Key, OutcomeRecord>
    /** Rows of `model_metrics` in insertion order. */
    var metrics: seq<MetricsRow>

    constructor ()
      ensures params == map[] && predictions == map[] && outcomes == map[] && metrics == []
    {
      params := map[];
      predictions := map[];
      outcomes := map[];
      metrics := [];
    }

    /** `get_all_model_params`. */
    function AllParams(): (m: map<string, real>)
      reads this
      ensures m.Keys >= DefaultParams.Keys
      ensures m == Overlay(params)
    {
      Overlay(params)
    }

    /** `set_model_param`: insert or update one parameter. */
    method SetParam(name: string, value: real)
      modifies this
      ensures params == old(params)[name := value]
      ensures predictions == old(predictions) && outcomes == old(outcomes) && metrics == old(metrics)
    {
      params := params[name := value];
    }

    /** `insert_predictions`: each row replaces any row with its key. */
    method InsertPredictions(rows: seq<PredictionRow>)
      modifies this
      ensures predictions == Upserted(old(predictions), rows)
      ensures params == old(params) && outcomes == old(outcomes) && metrics == old(metrics)
    {
      var i := 0;
      while i < |rows|
        invariant 0 <= i <= |rows|
        invariant Upserted(predictions, rows[i..]) == Upserted(old(predictions), rows)
        invariant params == old(params) && outcomes == old(outcomes) && metrics == old(metrics)
      {
        assert rows[i..][1..] == rows[i + 1..];
        predictions := predictions[KeyOf(rows[i]) := rows[i]];
        i := i + 1;
      }
    }

    /** `update_prediction_outcome`: record what happened to one prediction;
        like the UPDATE it issues, it changes nothing when no stored
        prediction has the key. */
    method UpdateOutcome(key: Key, actuals: Actuals, outcome: string, reason: string)
      modifies this
      ensures outcomes == if key in old(predictions) then old(outcomes)[key := OutcomeRecord(actuals, outcome, reason)]
                          else old(outcomes)
      ensures params == old(params) && predictions == old(predictions) && metrics == old(metrics)
    {
      if key in predictions {
        outcomes := outcomes[key := OutcomeRecord(actuals, outcome, reason)];
      }
    }

    /** `insert_model_metrics`. */
    method InsertMetrics(row: MetricsRow)
      modifies this
      ensures metrics == old(metrics) + [row]
      ensures params == old(params) && predictions == old(predictions) && outcomes == old(outcomes)
    {
      metrics := metrics + [row];
    }
  }
}
