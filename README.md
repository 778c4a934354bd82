# Panel telemetry: validation, fault threshold and event finalisation

This project models, in Dafny, the reading-to-verdict path of a solar-panel
monitoring backend:

- **Validation** (`validation.dfy`, from `validate_payload`): a payload with a
  panel id and the two MLX90614 temperatures (ambient and object) goes through
  an ordered guard chain — authorised id `ID_27_C_42`, both temperatures
  present, both numeric, both inside inclusive physical bounds (ambient
  -40..125 °C, object -40..380 °C). The first failing guard decides the single
  rejection reason; otherwise the record echoes the id and readings and adds
  `diff_c = object - ambient`.
- **Threshold classifier** (`ml_model.dfy`, from `predict_fault`): fault iff
  `|diff_c| >= 8.0`, reported with score, threshold and a `FAULT`/`NORMAL`
  decision.
- **Event finaliser** (`finalize.dfy`, from `finalize_event`): the model's
  class (0 normal, 2 warning, 1 fault, anything else invalid) picks a colour
  and status text; for warnings and faults a first-match-wins ladder over the
  temperature difference and the deviation of the acceleration axes from the
  rest vector (1.0, 0, -0.08) picks the cause. Python exceptions are modelled
  as an explicit `Result` branch, evaluated in the source's order: the
  `or` chain over the axes is the recursive `AnyAxisBeyond`, which reads axes
  left to right and stops at the first one beyond the limit, so only values
  actually reached can raise. A raised exception becomes the `ok = False`,
  purple, "System error (exception)" result; the text of the exception is kept
  opaque as the kind of error (`NotAnInteger`, `NoneOperand`).
- **Pipeline** (`pipeline.dfy`): nothing in the code calls `predict_fault`
  (the predict endpoint uses a random forest with other keys), but the
  classifier's input record has the shape of the validator's success record;
  if it is fed one, its verdict is stated in terms of the raw temperatures.
  The module also holds the ingest endpoint's status choice (`app.py`), whose
  accept-with-warning branch is shown unreachable.

`builtins.dfy` holds `Option` (a dictionary `.get`) and Python's `abs`.

Temperatures and accelerations are Dafny `real`s: the code only compares them
against fixed decimal constants, so exact arithmetic is used in place of IEEE
doubles. The code has no per-panel status memory, no deduplication of
repeated events, no staleness sweep, no accept-with-warning band in the
validator, and no combined temperature-and-tilt cause; the model has none of
them either.

## Model

| member | source | states |
|---|---|---|
| `Builtins.Abs` | ml_model.py:5 | `abs` is non-negative and equals `x` or `-x` |
| `Validation.Validate` | oracle1_validation.py:1-29 | an accepted record lies within the inclusive bounds and carries the authorised id |
| `Validation.ValidateIsFirstFailure` | oracle1_validation.py:9-22 | rejected with reason `r` iff `r`'s check is the first one to fail in the order id, presence, format, range; accepted iff every check passes |
| `Validation.UnauthorizedFirst` | oracle1_validation.py:2-10 | any id other than `ID_27_C_42` (the empty default included) is rejected as `unauthorized_panel` whatever the temperatures |
| `Validation.MissingBeforeFormat` | oracle1_validation.py:3-13 | with the right id, a missing temperature gives `missing_temperature_values` even if the other is malformed |
| `Validation.FormatAfterPresence` | oracle1_validation.py:15-19 | a present but unparsable temperature gives `invalid_number_format`, once both are present |
| `Validation.BoundsInclusive` | oracle1_validation.py:21-22 | numbers are accepted iff -40 <= ambient <= 125 and -40 <= object <= 380, else `values_out_of_range` |
| `Validation.AcceptedRecord` | oracle1_validation.py:24-29 | success echoes the id and both readings and `diff_c` is exactly object minus ambient |
| `Validation.OutcomeKeys` | oracle1_validation.py:10-29 | a rejection has the single key `reason`, a success has no `reason`, no outcome has `warning` |
| `Validation.AcceptedDiffBounds` | oracle1_validation.py:21-28 | an accepted difference lies in -165..420 |
| `MlModel.PredictFault` | ml_model.py:2-12 | always succeeds with threshold 8.0; fault iff the difference is at least 8.0 either way; the score is the non-negative magnitude of the difference; the decision is `FAULT` on a fault, `NORMAL` otherwise |
| `MlModel.FaultIffAtThreshold` | ml_model.py:2-6 | fault iff the difference is at least 8.0 in either direction; exactly 8.0 is a fault |
| `MlModel.ScoreIsMagnitude` | ml_model.py:5-9 | the score is the magnitude of the difference and never negative |
| `MlModel.DecisionMatchesFault` | ml_model.py:11 | decision is `FAULT` iff fault, `NORMAL` iff not |
| `MlModel.AlwaysSucceeds` | ml_model.py:7-10 | the success flag is always true and the threshold reported is 8.0 |
| `MlModel.SignInsensitive` | ml_model.py:5 | a difference and its negation give identical output |
| `Finalize.AnyAxisBeyond` | oracle2_finalize.py:27 | the short-circuit axis chain can only raise the missing-operand error |
| `Finalize.AnyAxisBeyondSpec` | oracle2_finalize.py:27 | the chain is false iff every axis is present and within the limit, raises iff a missing axis is reached with all before it calm, true iff the first non-calm axis is present and beyond the limit |
| `Finalize.UnreachedAxesIgnored` | oracle2_finalize.py:38 | once the chain is true, appending further axes (whatever their readings) leaves it true |
| `Finalize.FullAxes` | oracle2_finalize.py:27 | with all axes present the chain is the plain disjunction of the three deviations exceeding the limit |
| `Finalize.FinalizeEvent` | oracle2_finalize.py:1-60 | the pair's flag equals `ok`; on success the colour is that of the class (missing = -1); on failure the result is purple, "System error (exception)", with the exception as reason |
| `Finalize.NormalReadsNoSensor` | oracle2_finalize.py:18-21 | class 0 is ok, blue, healthy, with reason "No issue detected", even with no data at all |
| `Finalize.InvalidClassReported` | oracle2_finalize.py:3-45 | a missing prediction or a class other than 0/1/2 is ok, purple, "System error (invalid model output)" |
| `Finalize.NonIntegerRaises` | oracle2_finalize.py:2-60 | a prediction `int()` rejects yields the exception result |
| `Finalize.ClassFixesColourAndStatus` | oracle2_finalize.py:18-45 | on success colour and status depend only on the class: 0 blue "Installed and healthy (Normal operation)", 2 yellow "Warning (abnormal values detected)", 1 red "Confirmed fault (urgent action needed)", any other purple "Sensor/ML system/platform error" |
| `Finalize.WarningLadder` | oracle2_finalize.py:11-30 | with all sensors present the reason text is "Temperature fluctuation …" iff the difference exceeds 2.0, "Panel orientation abnormal …" iff not and some axis deviation exceeds 0.25, "General warning" iff neither |
| `Finalize.FaultLadder` | oracle2_finalize.py:11-41 | with all sensors present the reason text is the surface-drop cause iff surface < ambient - 3.5, the overheating cause iff surface > ambient + 3.5, the tilt cause iff neither and some axis deviation exceeds 0.5, "Unidentified fault condition" otherwise |
| `Finalize.FaultTiltMeansTemperatureNormal` | oracle2_finalize.py:34-39 | a tilt fault implies both temperatures present and within 3.5 of each other |
| `Finalize.FailsIffReachesMissing` | oracle2_finalize.py:25-60 | the result is not ok iff the prediction is not an integer or the warning/fault ladder reaches a missing temperature or (temperature rung not matching) a missing axis before any axis beyond the limit |
| `Finalize.LaterAxesUnread` | oracle2_finalize.py:27-38 | once an axis is beyond the limit, readings that agree on the temperatures and on the axes up to that one give the same, ok, result whatever the later axes hold |
| `Finalize.FirstAxisShieldsOthers` | oracle2_finalize.py:27-38 | when `accel_x` is beyond the limit, `accel_y` and `accel_z` are not read: dropping them changes nothing and the result is ok |
| `Finalize.TemperatureRuleReadsNoAxis` | oracle2_finalize.py:25-37 | when the temperature rung matches, no axis is read: dropping all three changes nothing and the result is ok |
| `Pipeline.IngestStatus` | app.py:29-36 | the status is `rejected` iff validation rejects, and `warning` iff an accepted record carries a `warning` key |
| `Pipeline.IngestNeverWarns` | app.py:29-36 | the ingest endpoint never answers `warning`; it answers `accepted` iff validation accepts |
| `Pipeline.ValidatedFault` | ml_model.py:5-6 | if fed a validated reading, the classifier reports a fault iff the object and ambient temperatures differ by at least 8 |

## Left out

- HTTP transport, CORS, the admin key, JSON encoding and status codes of the ingest, train and predict endpoints; only the ingest status choice is modelled.
- The random-forest model, its training, the global model variable and loading or saving it to disk: foreign library and file I/O.
- The training script: it has no logic beyond calling the library.
- `float()` string parsing: a temperature is Absent, NotNumeric (`ValueError`) or a number; `float()` on a value that raises `TypeError` (a list or object), which the validator does not catch, is not modelled, nor are NaN and infinities.
- `int()` conversion of the prediction: the field is Missing, an integer, or a value `int()` raises on; truncation of float inputs by `int()` is not modelled.
- IEEE double rounding: temperatures and accelerations are exact reals.
- A `sensors` or `mlx90614` field that is present but not an object (null, a string, a list): the validator raises an uncaught `AttributeError` there, before the id check, so the source then returns no outcome at all; the payload type has only absent or object-shaped sensors.
- UnauthorizedFirst: "rejected whatever the temperatures" covers payloads whose `sensors` and `mlx90614` are absent or objects; with a non-object one the source raises before it reaches the id check.
- A `result` passed to the finaliser that is not an object, and a `data` field that is present but not an object: the source raises on the lookup, which is caught and becomes the purple exception result; the model's inputs are always object-shaped, so it does not represent these two exception paths.
- Sensor values that are present but not numbers (the arithmetic raises, and the exception result follows): sensor values are present numbers or missing.
- The text of `str(e)`: kept opaque as the kind of exception raised.
- The `panel_id` parameter of the finaliser: unused by the code.
- A missing `diff_c` key in the classifier's input (a `KeyError`): the classifier is modelled on the validator's success record, which always has it.
