/** The event finaliser (`finalize_event`): maps the model's prediction class
    to a colour and status text, diagnoses a cause from the sensor readings
    for warnings and faults, and turns any exception raised on the way into
    a purple system-error result. */
module Finalize {
  import opened Builtins

  // Thresholds of the cause ladders.
  const TiltLimit: real := 0.25
  const TempDiffWarn: real := 2.0
  const TempDiffFault: real := 3.5

  /** The `prediction` field as `int()` sees it: missing (defaults to -1),
      an integer, or something `int()` raises on. */
  datatype PredictionField = Missing | Int(n: int) | NotInt

  /** The optional `data` object. An absent `data` is `NoData`. */
  datatype SensorData = SensorData(
    surface: Option<real>, ambient: Option<real>,
    ax: Option<real>, ay: Option<real>, az: Option<real>)

  const NoData: SensorData := SensorData(None, None, None, None, None)

  /** The exceptions the body can raise; `str(e)` of each is kept opaque. */
  datatype PyError =
    | NotAnInteger   // `int()` on the prediction field
    | NoneOperand    // a missing reading used in arithmetic or a comparison

  /** A computation that either yields a value or raises. */
  datatype Result<+T> = Ok(value: T) | Raise(error: PyError)

  datatype Color = Blue | Yellow | Red | Purple

  function ColorName(c: Color): string
  {
    match c
    case Blue => "blue"
    case Yellow => "yellow"
    case Red => "red"
    case Purple => "purple"
  }

  /** The diagnosed causes, one per branch of the ladders. */
  datatype Cause =
    | NoIssue
    | Fluctuation
    | Orientation
    | GeneralWarning
    | TemperatureDrop
    | Overheating
    | Tilt
    | UnidentifiedFault
    | InvalidModelOutput

  function CauseText(c: Cause): string
  {
    match c
    case NoIssue => "No issue detected"
    case Fluctuation => "Temperature fluctuation (possible insulation issue)"
    case Orientation => "Panel orientation abnormal (check fixing or wind movement)"
    case GeneralWarning => "General warning"
    case TemperatureDrop => "Fault due to surface temperature drop (possible thermal loss)"
    case Overheating => "Fault due to overheating (check exposure or insulation)"
    case Tilt => "Fault due to panel tilt or displacement"
    case UnidentifiedFault => "Unidentified fault condition"
    case InvalidModelOutput => "System error (invalid model output)"
  }

  /** The `reason` field: a diagnosed cause, or the text of the exception. */
  datatype Reason = Diagnosed(cause: Cause) | ExceptionText(error: PyError)

  /** The returned pair `(passed, {ok, color, status, reason})`. */
  datatype Finalized = Finalized(passed: bool, ok: bool, color: Color, status: string, reason: Reason)

  const HealthyStatus: string := "Installed and healthy (Normal operation)"
  const WarningStatus: string := "Warning (abnormal values detected)"
  const FaultStatus: string := "Confirmed fault (urgent action needed)"
  const PlatformErrorStatus: string := "Sensor/ML system/platform error"
  const ExceptionStatus: string := "System error (exception)"

  /** The colour each class is shown in: 0 blue, 2 yellow, 1 red, any other
      purple. */
  function ClassColor(n: int): Color
  {
    if n == 0 then Blue else if n == 2 then Yellow else if n == 1 then Red else Purple
  }

  // ---------------------------------------------------------------------
  // Evaluation of the source's expressions, exceptions included.

  /** `int(result.get("prediction", -1))`. */
  function ReadPrediction(f: PredictionField): Result<int>
  {
    match f
    case Missing => Ok(-1)
    case Int(n) => Ok(n)
    case NotInt => Raise(NotAnInteger)
  }

  /** One acceleration axis and the value it reads when the panel is at
      rest: `abs(ax - 1.0)`, `abs(ay)` and `abs(az + 0.08)` are its
      deviations. */
  datatype Axis = Axis(reading: Option<real>, rest: real)

  function Axes(d: SensorData): seq<Axis>
  {
    [Axis(d.ax, 1.0), Axis(d.ay, 0.0), Axis(d.az, -0.08)]
  }

  function Deviation(a: Axis): real
    requires a.reading.Some?
  {
    Abs(a.reading.value - a.rest)
  }

  /** The short-circuit `or` chain `dev(x) > limit or dev(y) > limit or ...`:
      axes are read left to right, the first deviation above `limit` ends the
      chain, and a missing reading reached before that raises. */
  function AnyAxisBeyond(axes: seq<Axis>, limit: real): (r: Result<bool>)
    ensures r.Raise? ==> r.error == NoneOperand
    decreases |axes|
  {
    if |axes| == 0 then Ok(false)
    else match axes[0].reading
      case None => Raise(NoneOperand)
      case Some(_) =>
        if Deviation(axes[0]) > limit then Ok(true) else AnyAxisBeyond(axes[1..], limit)
  }

  /** The warning ladder: temperature fluctuation first, then orientation,
      else a general warning. */
  function WarningCause(d: SensorData): Result<Cause>
  {
    if d.surface.None? || d.ambient.None? then Raise(NoneOperand)
    else if Abs(d.surface.value - d.ambient.value) > TempDiffWarn then Ok(Fluctuation)
    else match AnyAxisBeyond(Axes(d), TiltLimit)
      case Raise(e) => Raise(e)
      case Ok(tilted) => Ok(if tilted then Orientation else GeneralWarning)
  }

  /** The fault ladder: temperature drop, then overheating, then tilt against
      twice the warning limit, else unidentified. */
  function FaultCause(d: SensorData): Result<Cause>
  {
    if d.surface.None? || d.ambient.None? then Raise(NoneOperand)
    else
      var s, a := d.surface.value, d.ambient.value;
      if s < a - TempDiffFault then Ok(TemperatureDrop)
      else if s > a + TempDiffFault then Ok(Overheating)
      else match AnyAxisBeyond(Axes(d), TiltLimit * 2.0)
        case Raise(e) => Raise(e)
        case Ok(tilted) => Ok(if tilted then Tilt else UnidentifiedFault)
  }

  /** What a successful run of the body reports. */
  datatype Verdict = Verdict(color: Color, status: string, cause: Cause)

  /** The result for a class that was read, or the exception that the chosen
      branch raised. */
  function Classify(n: int, d: SensorData): Result<Verdict>
  {
    if n == 0 then Ok(Verdict(Blue, HealthyStatus, NoIssue))
    else if n == 2 then
      match WarningCause(d)
      case Raise(e) => Raise(e)
      case Ok(c) => Ok(Verdict(Yellow, WarningStatus, c))
    else if n == 1 then
      match FaultCause(d)
      case Raise(e) => Raise(e)
      case Ok(c) => Ok(Verdict(Red, FaultStatus, c))
    else Ok(Verdict(Purple, PlatformErrorStatus, InvalidModelOutput))
  }

  /** `finalize_event`: the body, with every exception caught and turned
      into a purple system-error result. The panel id is not used. */
  function FinalizeEvent(prediction: PredictionField, d: SensorData): (r: Finalized)
    ensures r.passed == r.ok
    ensures r.ok ==> prediction.Missing? || prediction.Int?
    ensures r.ok ==> r.color == ClassColor(if prediction.Int? then prediction.n else -1)
    ensures !r.ok ==> r.color == Purple && r.status == ExceptionStatus && r.reason.ExceptionText?
  {
    var body :=
      match ReadPrediction(prediction)
      case Raise(e) => Raise(e)
      case Ok(n) => Classify(n, d);
    match body
    case Ok(v) => Finalized(true, true, v.color, v.status, Diagnosed(v.cause))
    case Raise(e) => Finalized(false, false, Purple, ExceptionStatus, ExceptionText(e))
  }

  // ---------------------------------------------------------------------
  // The axis chain, characterised without reference to evaluation order.

  /** The first `i` axes are all present and within `limit`. */
  predicate Calm(axes: seq<Axis>, i: int, limit: real)
    requires 0 <= i <= |axes|
  {
    forall j :: 0 <= j < i ==> axes[j].reading.Some? && Deviation(axes[j]) <= limit
  }

  /** Calm over `i + 1` axes is a calm head followed by `i` calm axes. */
  lemma CalmShift(axes: seq<Axis>, i: int, limit: real)
    requires 0 < |axes| && 0 <= i < |axes|
    ensures Calm(axes, i + 1, limit)
        <==> axes[0].reading.Some? && Deviation(axes[0]) <= limit && Calm(axes[1..], i, limit)
  {
  }

  /** The chain is false exactly when every axis is present and within the
      limit; it raises exactly when a missing axis is reached while all
      before it are calm; it is true exactly when the first axis that is
      not calm is present and beyond the limit. */
  lemma {:induction false} AnyAxisBeyondSpec(axes: seq<Axis>, limit: real)
    ensures AnyAxisBeyond(axes, limit) == Ok(false) <==> Calm(axes, |axes|, limit)
    ensures AnyAxisBeyond(axes, limit).Raise?
        <==> exists i :: 0 <= i < |axes| && Calm(axes, i, limit) && axes[i].reading.None?
    ensures AnyAxisBeyond(axes, limit) == Ok(true)
        <==> exists i :: 0 <= i < |axes| && Calm(axes, i, limit)
                         && axes[i].reading.Some? && Deviation(axes[i]) > limit
    decreases |axes|
  {
    if |axes| == 0 {
      return;
    }
    var tail := axes[1..];
    AnyAxisBeyondSpec(tail, limit);
    assert Calm(axes, 0, limit);
    CalmShift(axes, |tail|, limit);
    if axes[0].reading.None? || Deviation(axes[0]) > limit {
      forall i | 0 < i <= |axes| ensures !Calm(axes, i, limit) {
        assert !(axes[0].reading.Some? && Deviation(axes[0]) <= limit);
      }
    } else {
      // The head is calm: every witness for `axes` is one for `tail`,
      // shifted by one, and back.
      forall i | 0 <= i < |tail| ensures Calm(axes, i + 1, limit) == Calm(tail, i, limit) {
        CalmShift(axes, i, limit);
      }
      if exists i :: 0 <= i < |axes| && Calm(axes, i, limit) && axes[i].reading.None? {
        var i :| 0 <= i < |axes| && Calm(axes, i, limit) && axes[i].reading.None?;
        assert i > 0;
        assert Calm(tail, i - 1, limit) && tail[i - 1].reading.None?;
      }
      if exists i :: 0 <= i < |tail| && Calm(tail, i, limit) && tail[i].reading.None? {
        var i :| 0 <= i < |tail| && Calm(tail, i, limit) && tail[i].reading.None?;
        assert Calm(axes, i + 1, limit) && axes[i + 1].reading.None?;
      }
      if exists i :: 0 <= i < |axes| && Calm(axes, i, limit)
                     && axes[i].reading.Some? && Deviation(axes[i]) > limit {
        var i :| 0 <= i < |axes| && Calm(axes, i, limit)
                 && axes[i].reading.Some? && Deviation(axes[i]) > limit;
        assert i > 0;
        assert Calm(tail, i - 1, limit) && tail[i - 1] == axes[i];
      }
      if exists i :: 0 <= i < |tail| && Calm(tail, i, limit)
                     && tail[i].reading.Some? && Deviation(tail[i]) > limit {
        var i :| 0 <= i < |tail| && Calm(tail, i, limit)
                 && tail[i].reading.Some? && Deviation(tail[i]) > limit;
        assert Calm(axes, i + 1, limit) && axes[i + 1] == tail[i];
      }
    }
  }

  /** Axes after the first one beyond the limit are never read: the chain
      gives the same answer whatever follows. */
  lemma {:induction false} UnreachedAxesIgnored(axes: seq<Axis>, rest: seq<Axis>, limit: real)
    requires AnyAxisBeyond(axes, limit) == Ok(true)
    ensures AnyAxisBeyond(axes + rest, limit) == Ok(true)
    decreases |axes|
  {
    assert (axes + rest)[0] == axes[0];
    if Deviation(axes[0]) <= limit {
      assert (axes + rest)[1..] == axes[1..] + rest;
      UnreachedAxesIgnored(axes[1..], rest, limit);
    }
  }

  // ---------------------------------------------------------------------
  // Properties of the finaliser.

  /** Class 0 reads no sensor: it is healthy and blue even with no data. */
  lemma NormalReadsNoSensor(d: SensorData)
    ensures FinalizeEvent(Int(0), d) == Finalized(true, true, Blue, HealthyStatus, Diagnosed(NoIssue))
    ensures FinalizeEvent(Int(0), d) == FinalizeEvent(Int(0), NoData)
    ensures Says(FinalizeEvent(Int(0), d), "No issue detected")
  {
  }

  /** A missing prediction, or any integer other than 0, 1 and 2, is an
      invalid model output: still `ok`, purple, and no sensor is read. */
  lemma InvalidClassReported(p: PredictionField, d: SensorData)
    requires p.Missing? || (p.Int? && p.n != 0 && p.n != 1 && p.n != 2)
    ensures FinalizeEvent(p, d)
         == Finalized(true, true, Purple, PlatformErrorStatus, Diagnosed(InvalidModelOutput))
    ensures Says(FinalizeEvent(p, d), "System error (invalid model output)")
  {
  }

  /** A prediction `int()` cannot convert is an exception, whatever the data. */
  lemma NonIntegerRaises(d: SensorData)
    ensures FinalizeEvent(NotInt, d) == Finalized(false, false, Purple, ExceptionStatus, ExceptionText(NotAnInteger))
  {
  }

  /** On the success path the colour and the status text are fixed by the
      class alone, whatever the sensors read. */
  lemma ClassFixesColourAndStatus(p: PredictionField, d1: SensorData, d2: SensorData)
    requires FinalizeEvent(p, d1).ok && FinalizeEvent(p, d2).ok
    ensures FinalizeEvent(p, d1).color == FinalizeEvent(p, d2).color
    ensures FinalizeEvent(p, d1).status == FinalizeEvent(p, d2).status
    ensures p == Int(0) ==> (ColorName(FinalizeEvent(p, d1).color) == "blue"
         && FinalizeEvent(p, d1).status == "Installed and healthy (Normal operation)")
    ensures p == Int(2) ==> (ColorName(FinalizeEvent(p, d1).color) == "yellow"
         && FinalizeEvent(p, d1).status == "Warning (abnormal values detected)")
    ensures p == Int(1) ==> (ColorName(FinalizeEvent(p, d1).color) == "red"
         && FinalizeEvent(p, d1).status == "Confirmed fault (urgent action needed)")
    ensures p != Int(0) && p != Int(1) && p != Int(2) ==>
        (ColorName(FinalizeEvent(p, d1).color) == "purple"
         && FinalizeEvent(p, d1).status == "Sensor/ML system/platform error")
  {
  }

  /** The result reports, as its `reason`, the cause text `text`. */
  predicate Says(r: Finalized, text: string)
  {
    r.reason.Diagnosed? && CauseText(r.reason.cause) == text
  }

  /** Readings with every sensor present. */
  function Full(s: real, a: real, x: real, y: real, z: real): SensorData
  {
    SensorData(Some(s), Some(a), Some(x), Some(y), Some(z))
  }

  /** Some axis deviates from the rest vector (1.0, 0, -0.08) by more than
      `limit`. */
  predicate Tilted(x: real, y: real, z: real, limit: real)
  {
    Abs(x - 1.0) > limit || Abs(y) > limit || Abs(z + 0.08) > limit
  }

  /** With every sensor present the chain is the plain disjunction. */
  lemma FullAxes(s: real, a: real, x: real, y: real, z: real, limit: real)
    ensures AnyAxisBeyond(Axes(Full(s, a, x, y, z)), limit) == Ok(Tilted(x, y, z, limit))
  {
    var xs := Axes(Full(s, a, x, y, z));
    var ys, zs := [Axis(Some(y), 0.0), Axis(Some(z), -0.08)], [Axis(Some(z), -0.08)];
    assert xs[1..] == ys && ys[1..] == zs && zs[1..] == [];
    assert AnyAxisBeyond(zs, limit) == Ok(Abs(z + 0.08) > limit);
    assert AnyAxisBeyond(ys, limit) == Ok(Abs(y) > limit || Abs(z + 0.08) > limit);
  }

  /** The warning ladder, first match wins: a difference strictly above 2.0
      degrees is a fluctuation whatever the axes say; otherwise any axis
      strictly beyond 0.25 is an orientation problem; otherwise it is a
      general warning. */
  lemma WarningLadder(s: real, a: real, x: real, y: real, z: real)
    ensures FinalizeEvent(Int(2), Full(s, a, x, y, z)).ok
    ensures Says(FinalizeEvent(Int(2), Full(s, a, x, y, z)),
                 "Temperature fluctuation (possible insulation issue)")
        <==> Abs(s - a) > 2.0
    ensures Says(FinalizeEvent(Int(2), Full(s, a, x, y, z)),
                 "Panel orientation abnormal (check fixing or wind movement)")
        <==> Abs(s - a) <= 2.0 && Tilted(x, y, z, 0.25)
    ensures Says(FinalizeEvent(Int(2), Full(s, a, x, y, z)), "General warning")
        <==> Abs(s - a) <= 2.0 && !Tilted(x, y, z, 0.25)
  {
    FullAxes(s, a, x, y, z, TiltLimit);
  }

  /** The fault ladder, first match wins: surface more than 3.5 degrees below
      ambient is a drop, more than 3.5 above is overheating, otherwise an
      axis strictly beyond 0.5 is a tilt, otherwise the fault is
      unidentified. There is no combined cause. */
  lemma FaultLadder(s: real, a: real, x: real, y: real, z: real)
    ensures FinalizeEvent(Int(1), Full(s, a, x, y, z)).ok
    ensures Says(FinalizeEvent(Int(1), Full(s, a, x, y, z)),
                 "Fault due to surface temperature drop (possible thermal loss)")
        <==> s < a - 3.5
    ensures Says(FinalizeEvent(Int(1), Full(s, a, x, y, z)),
                 "Fault due to overheating (check exposure or insulation)")
        <==> s > a + 3.5
    ensures Says(FinalizeEvent(Int(1), Full(s, a, x, y, z)), "Fault due to panel tilt or displacement")
        <==> a - 3.5 <= s <= a + 3.5 && Tilted(x, y, z, 0.5)
    ensures Says(FinalizeEvent(Int(1), Full(s, a, x, y, z)), "Unidentified fault condition")
        <==> a - 3.5 <= s <= a + 3.5 && !Tilted(x, y, z, 0.5)
  {
    FullAxes(s, a, x, y, z, TiltLimit * 2.0);
  }

  /** Temperature always beats tilt in a fault: a tilt diagnosis means the
      difference is within 3.5 degrees either way. */
  lemma FaultTiltMeansTemperatureNormal(d: SensorData)
    requires FinalizeEvent(Int(1), d).reason == Diagnosed(Tilt)
    ensures d.surface.Some? && d.ambient.Some?
    ensures Abs(d.surface.value - d.ambient.value) <= 3.5
  {
  }

  /** The axis limit of the ladder for class `n`. */
  function AxisLimit(n: int): real
  {
    if n == 2 then TiltLimit else TiltLimit * 2.0
  }

  /** The temperature rung of the ladder for class `n` matches. */
  predicate TemperatureRuleFires(n: int, s: real, a: real)
  {
    if n == 2 then Abs(s - a) > TempDiffWarn else s < a - TempDiffFault || s > a + TempDiffFault
  }

  /** The ladder for class 1 or 2 reaches a missing value: a temperature, or,
      when the temperature rung does not match, a missing axis while every
      axis before it is present and within the limit. */
  predicate ReachesMissing(n: int, d: SensorData)
  {
    d.surface.None? || d.ambient.None? ||
    (!TemperatureRuleFires(n, d.surface.value, d.ambient.value) &&
     exists i :: 0 <= i < 3 && Calm(Axes(d), i, AxisLimit(n)) && Axes(d)[i].reading.None?)
  }

  /** The finaliser fails with the exception result exactly when the
      prediction is not an integer, or the warning or fault ladder reaches a
      missing value; values the ladder never reaches cannot make it fail. */
  lemma FailsIffReachesMissing(p: PredictionField, d: SensorData)
    ensures !FinalizeEvent(p, d).ok
        <==> p.NotInt? || (p.Int? && (p.n == 1 || p.n == 2) && ReachesMissing(p.n, d))
    ensures !FinalizeEvent(p, d).ok && !p.NotInt? ==> FinalizeEvent(p, d).reason == ExceptionText(NoneOperand)
  {
    AnyAxisBeyondSpec(Axes(d), TiltLimit);
    AnyAxisBeyondSpec(Axes(d), TiltLimit * 2.0);
  }

  /** Once an axis is beyond the limit, the axes after it are not read:
      readings that agree on the temperatures and on the axes up to and
      including that one give the same result, whatever the later axes
      hold, missing included. */
  lemma LaterAxesUnread(n: int, d: SensorData, d': SensorData, k: nat)
    requires n == 1 || n == 2
    requires d.surface.Some? && d.ambient.Some?
    requires d'.surface == d.surface && d'.ambient == d.ambient
    requires k <= 3 && Axes(d')[..k] == Axes(d)[..k]
    requires AnyAxisBeyond(Axes(d)[..k], AxisLimit(n)) == Ok(true)
    ensures FinalizeEvent(Int(n), d).ok
    ensures FinalizeEvent(Int(n), d) == FinalizeEvent(Int(n), d')
  {
    var prefix := Axes(d)[..k];
    UnreachedAxesIgnored(prefix, Axes(d)[k..], AxisLimit(n));
    UnreachedAxesIgnored(prefix, Axes(d')[k..], AxisLimit(n));
    assert prefix + Axes(d)[k..] == Axes(d);
    assert prefix + Axes(d')[k..] == Axes(d');
  }

  /** In particular, an `accel_x` beyond the limit leaves `accel_y` and
      `accel_z` unread. */
  lemma FirstAxisShieldsOthers(n: int, d: SensorData)
    requires n == 1 || n == 2
    requires d.surface.Some? && d.ambient.Some? && d.ax.Some?
    requires Abs(d.ax.value - 1.0) > AxisLimit(n)
    ensures FinalizeEvent(Int(n), d).ok
    ensures FinalizeEvent(Int(n), d) == FinalizeEvent(Int(n), d.(ay := None, az := None))
  {
    var first := Axes(d)[..1];
    assert first[1..] == [];
    LaterAxesUnread(n, d, d.(ay := None, az := None), 1);
  }

  /** A matching temperature rung reads no axis at all. */
  lemma TemperatureRuleReadsNoAxis(n: int, d: SensorData)
    requires n == 1 || n == 2
    requires d.surface.Some? && d.ambient.Some?
    requires TemperatureRuleFires(n, d.surface.value, d.ambient.value)
    ensures FinalizeEvent(Int(n), d).ok
    ensures FinalizeEvent(Int(n), d) == FinalizeEvent(Int(n), d.(ax := None, ay := None, az := None))
  {
  }
}
