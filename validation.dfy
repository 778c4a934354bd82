/** The ingest payload validator (`validate_payload`): an ordered guard chain
    over the panel id and the two MLX90614 temperatures, then a success
    record carrying the temperature difference. */
module Validation {

  /** The one panel id the validator lets through. */
  const AuthorizedPanel: string := "ID_27_C_42"

  /** Inclusive physical bounds, in degrees Celsius. */
  const AmbientMin: real := -40.0
  const AmbientMax: real := 125.0
  const ObjectMin: real := -40.0
  const ObjectMax: real := 380.0

  /** One temperature field of `sensors.mlx90614`, as `float()` sees it:
      missing (or null, or a missing enclosing object), a value `float()`
      rejects with `ValueError`, or a number. */
  datatype TempField = Absent | NotNumeric | Num(value: real)

  /** The raw payload. A missing `panel_id` is the empty string. */
  datatype Payload = Payload(panelId: string, ambient: TempField, obj: TempField)

  /** The four rejection codes, in the order the checks run. */
  datatype RejectReason =
    | UnauthorizedPanel
    | MissingTemperatureValues
    | InvalidNumberFormat
    | ValuesOutOfRange

  /** The `reason` string each code is reported under. */
  function ReasonCode(r: RejectReason): string
  {
    match r
    case UnauthorizedPanel => "unauthorized_panel"
    case MissingTemperatureValues => "missing_temperature_values"
    case InvalidNumberFormat => "invalid_number_format"
    case ValuesOutOfRange => "values_out_of_range"
  }

  /** Outcome of validation: the `(False, {"reason": ...})` rejection or the
      `(True, {...})` success record. */
  datatype Validated =
    | Rejected(reason: RejectReason)
    | Accepted(panelId: string, ambient: real, obj: real, diff: real)

  /** The keys of the dictionary that comes back with the outcome. */
  function ResultKeys(v: Validated): set<string>
  {
    match v
    case Rejected(_) => {"reason"}
    case Accepted(_, _, _, _) => {"panel_id", "ambient_c", "object_c", "diff_c"}
  }

  predicate InBounds(amb: real, obj: real)
  {
    AmbientMin <= amb <= AmbientMax && ObjectMin <= obj <= ObjectMax
  }

  /** The validator: id check, presence check, number check, range check,
      each returning at the first failure. */
  function Validate(p: Payload): (v: Validated)
    ensures v.Accepted? ==> InBounds(v.ambient, v.obj)
    ensures v.Accepted? ==> v.panelId == AuthorizedPanel
  {
    if p.panelId != AuthorizedPanel then Rejected(UnauthorizedPanel)
    else if p.ambient.Absent? || p.obj.Absent? then Rejected(MissingTemperatureValues)
    else if p.ambient.NotNumeric? || p.obj.NotNumeric? then Rejected(InvalidNumberFormat)
    else
      var amb, obj := p.ambient.value, p.obj.value;
      if !(AmbientMin <= amb <= AmbientMax) || !(ObjectMin <= obj <= ObjectMax) then
        Rejected(ValuesOutOfRange)
      else
        Accepted(p.panelId, amb, obj, obj - amb)
  }

  // ---------------------------------------------------------------------
  // The four checks stated independently of one another, and the
  // guard-chain order over them.

  predicate IdOk(p: Payload) { p.panelId == AuthorizedPanel }
  predicate Present(p: Payload) { !p.ambient.Absent? && !p.obj.Absent? }
  predicate Numeric(p: Payload) { p.ambient.Num? && p.obj.Num? }
  predicate InRange(p: Payload)
  {
    p.ambient.Num? && p.obj.Num? && InBounds(p.ambient.value, p.obj.value)
  }

  /** Whether the check reported under `r` passes. */
  predicate Passes(p: Payload, r: RejectReason)
  {
    match r
    case UnauthorizedPanel => IdOk(p)
    case MissingTemperatureValues => Present(p)
    case InvalidNumberFormat => Numeric(p)
    case ValuesOutOfRange => InRange(p)
  }

  /** Position of each check in the chain. */
  function Rank(r: RejectReason): (k: nat)
    ensures k < 4
  {
    match r
    case UnauthorizedPanel => 0
    case MissingTemperatureValues => 1
    case InvalidNumberFormat => 2
    case ValuesOutOfRange => 3
  }

  /** `r` is the first check, in chain order, that the payload fails. */
  predicate FirstFailure(p: Payload, r: RejectReason)
  {
    !Passes(p, r) && forall q: RejectReason :: Rank(q) < Rank(r) ==> Passes(p, q)
  }

  /** A payload is rejected with exactly the reason of the first failing
      check, and accepted exactly when every check passes. */
  lemma ValidateIsFirstFailure(p: Payload, r: RejectReason)
    ensures Validate(p) == Rejected(r) <==> FirstFailure(p, r)
    ensures Validate(p).Accepted? <==> forall q: RejectReason :: Passes(p, q)
  {
    if FirstFailure(p, r) {
      // The checks ranked before `r` pass.
      match r
      case UnauthorizedPanel =>
      case MissingTemperatureValues =>
        assert Passes(p, UnauthorizedPanel);
      case InvalidNumberFormat =>
        assert Passes(p, UnauthorizedPanel) && Passes(p, MissingTemperatureValues);
      case ValuesOutOfRange =>
        assert Passes(p, UnauthorizedPanel) && Passes(p, MissingTemperatureValues);
        assert Passes(p, InvalidNumberFormat);
    }
    if Validate(p) == Rejected(r) {
      forall q: RejectReason | Rank(q) < Rank(r) ensures Passes(p, q) {
      }
    }
    if Validate(p).Accepted? {
      forall q: RejectReason ensures Passes(p, q) {
      }
    }
    if forall q: RejectReason :: Passes(p, q) {
      assert Passes(p, UnauthorizedPanel) && Passes(p, MissingTemperatureValues);
      assert Passes(p, InvalidNumberFormat) && Passes(p, ValuesOutOfRange);
    }
  }

  /** Any id other than the authorised one, the empty default included, is
      rejected as unauthorised, whatever the temperatures are. */
  lemma UnauthorizedFirst(p: Payload)
    requires p.panelId != AuthorizedPanel
    ensures Validate(p) == Rejected(UnauthorizedPanel)
    ensures ReasonCode(Validate(p).reason) == "unauthorized_panel"
  {
  }

  /** With the right id, a missing temperature is reported as missing even
      when the other one is not a number or out of range. */
  lemma MissingBeforeFormat(p: Payload)
    requires IdOk(p) && (p.ambient.Absent? || p.obj.Absent?)
    ensures Validate(p) == Rejected(MissingTemperatureValues)
  {
  }

  /** A present but unparsable temperature is a format error, checked only
      once both temperatures are present. */
  lemma FormatAfterPresence(p: Payload)
    requires IdOk(p) && Present(p) && (p.ambient.NotNumeric? || p.obj.NotNumeric?)
    ensures Validate(p) == Rejected(InvalidNumberFormat)
  {
  }

  /** Well-formed numbers are accepted exactly when both lie inside their
      inclusive bounds, and rejected as out of range otherwise. */
  lemma BoundsInclusive(amb: real, obj: real)
    ensures Validate(Payload(AuthorizedPanel, Num(amb), Num(obj))).Accepted?
        <==> -40.0 <= amb <= 125.0 && -40.0 <= obj <= 380.0
    ensures Validate(Payload(AuthorizedPanel, Num(amb), Num(obj))).Rejected?
        ==> Validate(Payload(AuthorizedPanel, Num(amb), Num(obj))).reason == ValuesOutOfRange
  {
  }

  /** The success record echoes the id and both readings and carries their
      exact difference. */
  lemma AcceptedRecord(p: Payload)
    requires Validate(p).Accepted?
    ensures Validate(p).panelId == p.panelId
    ensures p.ambient == Num(Validate(p).ambient) && p.obj == Num(Validate(p).obj)
    ensures Validate(p).diff == Validate(p).obj - Validate(p).ambient
  {
  }

  /** A rejection carries one key, `reason`; a success carries no `reason`;
      no outcome ever carries a `warning` key. */
  lemma OutcomeKeys(p: Payload)
    ensures Validate(p).Rejected? ==> ResultKeys(Validate(p)) == {"reason"}
    ensures Validate(p).Accepted? ==> "reason" !in ResultKeys(Validate(p))
    ensures "warning" !in ResultKeys(Validate(p))
  {
  }

  /** Bounds carry over to the difference: an accepted reading never differs
      by more than 420 degrees either way. */
  lemma AcceptedDiffBounds(p: Payload)
    requires Validate(p).Accepted?
    ensures -165.0 <= Validate(p).diff <= 420.0
  {
  }
}
