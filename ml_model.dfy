/** The stand-in fault classifier (`predict_fault`): a fixed threshold on the
    magnitude of the temperature difference. */
module MlModel {
  import opened Builtins

  /** Fault threshold, in degrees Celsius of difference. */
  const Threshold: real := 8.0

  /** The prediction record returned beside the success flag. */
  datatype Prediction = Prediction(fault: bool, score: real, threshold: real, decision: string)

  /** `predict_fault` applied to a record whose `diff_c` is `diff`. The first
      component is the success flag of the returned pair. */
  function PredictFault(diff: real): (r: (bool, Prediction))
    ensures r.0 && r.1.threshold == 8.0
    ensures r.1.fault <==> diff >= 8.0 || diff <= -8.0
    ensures r.1.score >= 0.0 && (r.1.score == diff || r.1.score == -diff)
    ensures r.1.decision == (if r.1.fault then "FAULT" else "NORMAL")
  {
    var score := Abs(diff);
    var fault := score >= Threshold;
    (true, Prediction(fault, score, Threshold, if fault then "FAULT" else "NORMAL"))
  }

  /** A fault exactly when the difference is at least 8 degrees in either
      direction; 8.0 itself is a fault. */
  lemma FaultIffAtThreshold(diff: real)
    ensures PredictFault(diff).1.fault <==> diff >= 8.0 || diff <= -8.0
    ensures PredictFault(8.0).1.fault && PredictFault(-8.0).1.fault
  {
  }

  /** The score is the magnitude of the difference, never negative. */
  lemma ScoreIsMagnitude(diff: real)
    ensures PredictFault(diff).1.score >= 0.0
    ensures PredictFault(diff).1.score == (if diff < 0.0 then -diff else diff)
  {
  }

  /** The decision text names the fault flag, and nothing else. */
  lemma DecisionMatchesFault(diff: real)
    ensures PredictFault(diff).1.decision == "FAULT" <==> PredictFault(diff).1.fault
    ensures PredictFault(diff).1.decision == "NORMAL" <==> !PredictFault(diff).1.fault
  {
  }

  /** The call always succeeds and reports the 8.0 threshold. */
  lemma AlwaysSucceeds(diff: real)
    ensures PredictFault(diff).0
    ensures PredictFault(diff).1.threshold == 8.0
  {
  }

  /** Only the size of the difference matters, not its sign. */
  lemma SignInsensitive(diff: real)
    ensures PredictFault(diff) == PredictFault(-diff)
  {
  }
}
