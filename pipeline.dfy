/** How the stages relate. The classifier's input record has the shape of
    the validator's success record, so if it is fed one, its verdict can be
    stated in terms of the raw temperatures; and the ingest endpoint reports
    the validator's outcome. */
module Pipeline {
  import opened Builtins
  import opened Validation
  import opened MlModel

  /** The `status` the ingest endpoint reports for a validation outcome:
      rejected, a warning when the record carries a `warning` key, else
      accepted. */
  function IngestStatus(v: Validated): (status: string)
    ensures status == "rejected" <==> v.Rejected?
    ensures status == "warning" <==> v.Accepted? && "warning" in ResultKeys(v)
  {
    if v.Rejected? then "rejected"
    else if "warning" in ResultKeys(v) then "warning"
    else "accepted"
  }

  /** The accept-with-warning answer is never given: every payload is either
      rejected or accepted. */
  lemma IngestNeverWarns(p: Payload)
    ensures IngestStatus(Validate(p)) != "warning"
    ensures IngestStatus(Validate(p)) == "accepted" <==> Validate(p).Accepted?
  {
    OutcomeKeys(p);
  }

  /** If fed a validated reading, the classifier reports a fault exactly when
      object and ambient temperatures differ by at least 8 degrees. */
  lemma ValidatedFault(p: Payload)
    requires Validate(p).Accepted?
    ensures p.ambient.Num? && p.obj.Num?
    ensures PredictFault(Validate(p).diff).1.fault <==> Abs(p.obj.value - p.ambient.value) >= 8.0
  {
    AcceptedRecord(p);
  }
}
