/** Failure prediction with the rule-based fallback (core/predictor.py). */
module Predictor {
  import opened Wrappers
  import Settings

  /** Which strategy produced a prediction. */
  datatype Mode = RuleBased | Ml

  /** The result dictionary of `predict`. */
  datatype Prediction = Prediction(predictionEnabled: bool, mode: Mode, failureProbability: real,
                                   confidence: real, highRisk: bool, message: string)

  /** `analysis.get(name, 0)` on the metric dictionary handed to the predictor. */
  function Lookup(analysis: map<string, real>, name: string): real {
    if name in analysis then analysis[name] else 0.0
  }

  /** Risk points of the three rules, with strict thresholds, capped at 100. */
  function RuleRisk(cpu: real, ram: real, disk: real): (risk: int)
    ensures 0 <= risk <= 100 && risk % 20 == 0
  {
    var risk := (if cpu > 85.0 then 40 else if cpu > 70.0 then 20 else 0)
              + (if ram > 90.0 then 40 else if ram > 75.0 then 20 else 0)
              + (if disk > 85.0 then 20 else 0);
    if risk < 100 then risk else 100
  }

  /** `PREDICTION_CONFIDENCE_THRESHOLD * 100`, the risk at which a prediction is high risk. */
  const HIGH_RISK_LEVEL: real := Settings.PREDICTION_CONFIDENCE_THRESHOLD * 100.0

  /** `_rule_based_prediction`: confidence grows from 60 with a quarter of the risk. */
  function RuleBasedPrediction(analysis: map<string, real>): (p: Prediction)
    ensures p.predictionEnabled && p.mode == RuleBased
    ensures p.confidence == 60.0 + p.failureProbability / 4.0
    ensures 60.0 <= p.confidence <= 85.0
    ensures p.failureProbability == RuleRisk(Lookup(analysis, "cpu"), Lookup(analysis, "ram"), Lookup(analysis, "disk")) as real
    ensures p.highRisk <==> p.failureProbability >= 75.0
  {
    var risk := RuleRisk(Lookup(analysis, "cpu"), Lookup(analysis, "ram"), Lookup(analysis, "disk"));
    Prediction(true, RuleBased, risk as real, 60.0 + risk as real / 4.0, risk as real >= HIGH_RISK_LEVEL,
               "Rule-based failure prediction active")
  }

  /**
   * The high-risk flag is set exactly when two rules fire at full weight, or one at full weight
   * and the other two at their lower weight.
   */
  lemma HighRiskIff(analysis: map<string, real>)
    ensures var cpu, ram, disk := Lookup(analysis, "cpu"), Lookup(analysis, "ram"), Lookup(analysis, "disk");
      RuleBasedPrediction(analysis).highRisk
      <==> (cpu > 85.0 && ram > 90.0) || (cpu > 85.0 && ram > 75.0 && disk > 85.0)
           || (cpu > 70.0 && ram > 90.0 && disk > 85.0)
  {
  }

  /** The cap at 100 never binds: the three rules add up to at most 100. */
  lemma CapNeverBinds(cpu: real, ram: real, disk: real)
    ensures RuleRisk(cpu, ram, disk)
         == (if cpu > 85.0 then 40 else if cpu > 70.0 then 20 else 0)
          + (if ram > 90.0 then 40 else if ram > 75.0 then 20 else 0)
          + (if disk > 85.0 then 20 else 0)
  {
  }

  /** Higher readings never lower the risk. */
  lemma RuleRiskMonotone(cpu: real, ram: real, disk: real, cpu': real, ram': real, disk': real)
    requires cpu <= cpu' && ram <= ram' && disk <= disk'
    ensures RuleRisk(cpu, ram, disk) <= RuleRisk(cpu', ram', disk')
  {
  }

  /** Missing readings count as 0: an empty analysis gives risk 0, confidence 60, no high risk. */
  lemma EmptyAnalysisIsCalm()
    ensures RuleBasedPrediction(map[]).failureProbability == 0.0
    ensures RuleBasedPrediction(map[]).confidence == 60.0
    ensures !RuleBasedPrediction(map[]).highRisk
  {
  }

  class FailurePredictor {
    /** `self.model_loaded`: whether a model was loaded at construction. */
    var modelLoaded: bool

    /** `modelLoads` says whether the model file exists and loads without error. */
    constructor(modelLoads: bool)
      ensures modelLoaded == (Settings.ENABLE_ML_PREDICTION && modelLoads)
    {
      modelLoaded := Settings.ENABLE_ML_PREDICTION && modelLoads;
    }

    /**
     * `predict`: the model's outcome when a model is loaded and inference succeeds (`mlOutcome`
     * is `None` when it raises); the rule-based prediction otherwise.
     */
    method Predict(analysis: map<string, real>, mlOutcome: Option<Prediction>) returns (result: Prediction)
      ensures !modelLoaded ==> result == RuleBasedPrediction(analysis)
      ensures modelLoaded && mlOutcome.None? ==> result == RuleBasedPrediction(analysis)
      ensures modelLoaded && mlOutcome.Some? ==> result == mlOutcome.value
    {
      if Settings.ENABLE_ML_PREDICTION && modelLoaded && mlOutcome.Some? {
        return mlOutcome.value;
      }
      result := RuleBasedPrediction(analysis);
    }
  }
}
