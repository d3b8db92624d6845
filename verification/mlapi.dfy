/** The Flask ML API: required-field validation, the success and error envelopes,
    the string and number conversions of `preprocess_input_data`, the guard and
    exception order of `predict_yield`, the health endpoint, the two unimplemented
    endpoints and the error handlers. The regression model is opaque: its outcome
    is an input. */
module MlApi {
  import opened Values
  import Numbers

  /** An HTTP reply: status and JSON body; `None` is the empty text body. */
  datatype Response = Response(status: int, body: Option<Json>)

  /** `create_success_response(data, status_code)`. */
  function SuccessResponse(data: Json, status: int): (r: Response)
    ensures r.status == status && r.body.Some? && r.body.value.JObj?
    ensures Prop(r.body.value, "success") == Some(JBool(true))
    ensures Prop(r.body.value, "data") == Some(data)
    ensures Prop(r.body.value, "error").None?
  {
    Response(status, Some(JObj(map["success" := JBool(true), "data" := data])))
  }

  /** `create_error_response(message, status_code)`. */
  function ErrorResponse(message: string, status: int): (r: Response)
    ensures r.status == status && r.body.Some? && r.body.value.JObj?
    ensures Prop(r.body.value, "success") == Some(JBool(false))
    ensures PropOpt(Prop(r.body.value, "error"), "message") == Some(JStr(message))
    ensures Prop(r.body.value, "data").None? && Prop(r.body.value, "msg").None?
  {
    Response(status, Some(JObj(map["success" := JBool(false), "error" := JObj(map["message" := JStr(message)])])))
  }

  /** The fields `predict_yield` insists on; `State` is not among them. */
  const RequiredFields: seq<string> :=
    ["Crop", "Season", "Area", "Annual_Rainfall", "Fertilizer_Per_Hectare", "Pesticide_Per_Hectare"]

  /** `field not in data or data[field] is None` for one field, `None` when Python
      raises `TypeError`: `in` on a number, a boolean or `None`, or indexing a
      list or a string with the field name after `in` found it there. */
  function FieldMissing(data: Json, field: string): (r: Option<bool>)
    ensures data.JObj? ==> r == Some(field !in data.fields || data.fields[field] == JNull)
    ensures (data.JArr? || data.JStr?) ==> r != Some(false)
  {
    match data
    case JObj(m) => Some(field !in m || m[field] == JNull)
    case JArr(items) => if JStr(field) in items then None else Some(true)
    case JStr(s) => if IsSubstring(field, s) then None else Some(true)
    case _ => None
  }

  /** The list comprehension of `validate_required_fields`: the missing fields in
      the order of `fields`, or `None` when a test raises. */
  function MissingFields(data: Json, fields: seq<string>): (r: Option<seq<string>>)
    ensures r.Some? ==> |r.value| <= |fields|
    decreases |fields|
  {
    if fields == [] then Some([])
    else
      match FieldMissing(data, fields[0])
      case None => None
      case Some(miss) =>
        match MissingFields(data, fields[1..])
        case None => None
        case Some(rest) => Some(if miss then [fields[0]] + rest else rest)
  }

  /** The comprehension raises exactly when one of the tests raises, and otherwise
      lists exactly the missing fields. */
  lemma {:induction false} MissingFieldsMembers(data: Json, fields: seq<string>)
    ensures MissingFields(data, fields).None? <==> exists i :: 0 <= i < |fields| && FieldMissing(data, fields[i]).None?
    ensures MissingFields(data, fields).Some? ==>
      forall f :: f in MissingFields(data, fields).value <==> f in fields && FieldMissing(data, f) == Some(true)
    decreases |fields|
  {
    if fields != [] {
      MissingFieldsMembers(data, fields[1..]);
      assert forall f :: f in fields <==> f == fields[0] || f in fields[1..];
      if FieldMissing(data, fields[0]).Some? && MissingFields(data, fields[1..]).None? {
        var i :| 0 <= i < |fields[1..]| && FieldMissing(data, fields[1..][i]).None?;
        assert FieldMissing(data, fields[i + 1]).None?;
      }
      if MissingFields(data, fields).Some? {
        assert forall i :: 1 <= i < |fields| ==> fields[i] == fields[1..][i - 1];
      }
    }
  }

  /** The missing fields of a concatenated list are those of each part, one after
      the other: the required-list order is kept. */
  lemma {:induction false} MissingFieldsSplits(data: Json, a: seq<string>, b: seq<string>)
    ensures MissingFields(data, a + b) ==
      (if MissingFields(data, a).Some? && MissingFields(data, b).Some?
       then Some(MissingFields(data, a).value + MissingFields(data, b).value) else None)
    decreases |a|
  {
    if a == [] {
      assert a + b == b;
      assert MissingFields(data, a) == Some([]);
      if MissingFields(data, b).Some? {
        assert [] + MissingFields(data, b).value == MissingFields(data, b).value;
      }
    } else {
      var ab := a + b;
      assert ab[0] == a[0];
      assert ab[1..] == a[1..] + b;
      MissingFieldsSplits(data, a[1..], b);
      var head := FieldMissing(data, a[0]);
      var ra, rb, rab := MissingFields(data, a[1..]), MissingFields(data, b), MissingFields(data, a[1..] + b);
      if head.Some? && ra.Some? && rb.Some? {
        assert rab == Some(ra.value + rb.value);
        if head.value {
          assert MissingFields(data, a) == Some([a[0]] + ra.value);
          assert MissingFields(data, ab) == Some([a[0]] + (ra.value + rb.value));
          assert [a[0]] + (ra.value + rb.value) == ([a[0]] + ra.value) + rb.value;
        } else {
          assert MissingFields(data, a) == ra;
          assert MissingFields(data, ab) == rab;
        }
      }
    }
  }

  /** The outcome of `validate_required_fields`: `None` returned, a message
      returned, or an exception raised out of it. */
  datatype Validation = Valid | Invalid(message: string) | Raised

  const MissingPrefix := "Missing required fields: "

  /** `validate_required_fields(data, required_fields)`. */
  function ValidateRequiredFields(data: Json, fields: seq<string>): (v: Validation)
    ensures v.Raised? <==> MissingFields(data, fields).None?
    ensures data.JObj? ==> (v == Valid <==> forall f :: f in fields ==> f in data.fields && data.fields[f] != JNull)
    ensures v.Invalid? ==> MissingFields(data, fields).Some? && MissingFields(data, fields).value != []
    ensures v.Invalid? ==>
      StartsWith(v.message, MissingPrefix) &&
      v.message[|MissingPrefix|..] == Join(MissingFields(data, fields).value, ", ")
  {
    MissingFieldsMembers(data, fields);
    match MissingFields(data, fields)
    case None => Raised
    case Some(missing) =>
      assert missing != [] ==> missing[0] in missing;
      if missing != [] then Invalid(MissingPrefix + Join(missing, ", ")) else Valid
  }

  /** Python `str(v)` for the JSON values whose rendering is fixed; numbers,
      lists and dicts (`None` here) are not modelled. */
  function PyStr(v: Json): Option<string> {
    match v
    case JStr(s) => Some(s)
    case JNull => Some("None")
    case JBool(b) => Some(if b then "True" else "False")
    case _ => None
  }

  /** The outcome of Python `float(v)`. */
  datatype FloatResult = Float(value: real) | FloatValueError(text: string) | FloatTypeError

  /** `float(v)` on a JSON value: numbers as they are, booleans as 1 and 0, strings
      through the decimal grammar after `strip()`, and `TypeError` for `None`,
      lists and dicts. */
  function PyFloat(v: Json): (r: FloatResult)
    ensures v.JNum? ==> r == Float(v.n)
    ensures (v.JNull? || v.JArr? || v.JObj?) ==> r.FloatTypeError?
    ensures v.JStr? ==> !r.FloatTypeError?
  {
    match v
    case JNum(n) => Float(n)
    case JBool(b) => Float(if b then 1.0 else 0.0)
    case JStr(s) =>
      (match Numbers.DecimalLiteral(Trim(s))
       case Some(x) => Float(x)
       case None => FloatValueError(s))
    case _ => FloatTypeError
  }

  /** `d.get(k, default)`. */
  function GetOr(m: map<string, Json>, k: string, default: Json): (r: Json)
    ensures k in m ==> r == m[k]
    ensures k !in m ==> r == default
  {
    if k in m then m[k] else default
  }

  /** The one-row frame handed to the model. */
  datatype InputRow = InputRow(
    crop: Option<string>, season: Option<string>, state: Option<string>,
    area: real, rainfall: real, fertilizer: real, pesticide: real)

  /** The outcome of `preprocess_input_data`. */
  datatype Preprocessed = Row(row: InputRow) | RowValueError(text: string) | RowTypeError

  /** `str(·).strip()` of a value, when its rendering is modelled. */
  function StrippedText(v: Json): Option<string> {
    match PyStr(v)
    case Some(s) => Some(Trim(s))
    case None => None
  }

  /** The first failing `float` among four, in the order the dict literal evaluates. */
  function FirstFloats(a: FloatResult, b: FloatResult, c: FloatResult, d: FloatResult): (r: Option<FloatResult>)
    ensures r.None? <==> a.Float? && b.Float? && c.Float? && d.Float?
    ensures r.Some? ==> !r.value.Float?
    ensures var xs := [a, b, c, d];
      r.Some? ==> exists k :: 0 <= k < 4 && xs[k] == r.value && forall j :: 0 <= j < k ==> xs[j].Float?
  {
    var xs := [a, b, c, d];
    if !a.Float? then assert xs[0] == a; Some(a)
    else if !b.Float? then assert xs[1] == b; Some(b)
    else if !c.Float? then assert xs[2] == c; Some(c)
    else if !d.Float? then assert xs[3] == d; Some(d)
    else None
  }

  /** `float(data.get(k, 0))`. */
  function FloatField(m: map<string, Json>, k: string): FloatResult {
    PyFloat(GetOr(m, k, JNum(0.0)))
  }

  /** `str(data.get(k, default)).strip()`. */
  function TextField(m: map<string, Json>, k: string, default: string): (r: Option<string>)
    ensures k !in m ==> r == Some(Trim(default))
    ensures k in m && m[k].JStr? ==> r == Some(Trim(m[k].s))
    ensures k in m && m[k] == JNull ==> r == Some("None")
  {
    if k !in m then Some(Trim(default))
    else if m[k] == JNull then TrimOfTrimmed("None"); StrippedText(m[k])
    else StrippedText(m[k])
  }

  /** `preprocess_input_data(data)`: the strings stripped (State defaults to
      "Odisha" when the key is absent), the numbers through `float` (0 when absent);
      the first `float` that fails decides the error. */
  function Preprocess(m: map<string, Json>): (r: Preprocessed)
    ensures r.Row? ==> r.row.crop == TextField(m, "Crop", "") && r.row.season == TextField(m, "Season", "")
    ensures r.Row? ==> r.row.state == TextField(m, "State", "Odisha")
    ensures r.Row? <==> (FloatField(m, "Area").Float? && FloatField(m, "Annual_Rainfall").Float? &&
      FloatField(m, "Fertilizer_Per_Hectare").Float? && FloatField(m, "Pesticide_Per_Hectare").Float?)
    ensures r.Row? ==> FloatField(m, "Area") == Float(r.row.area) && FloatField(m, "Annual_Rainfall") == Float(r.row.rainfall)
    ensures r.Row? ==> FloatField(m, "Fertilizer_Per_Hectare") == Float(r.row.fertilizer)
    ensures r.Row? ==> FloatField(m, "Pesticide_Per_Hectare") == Float(r.row.pesticide)
  {
    var area := FloatField(m, "Area");
    var rain := FloatField(m, "Annual_Rainfall");
    var fert := FloatField(m, "Fertilizer_Per_Hectare");
    var pest := FloatField(m, "Pesticide_Per_Hectare");
    match FirstFloats(area, rain, fert, pest)
    case Some(FloatValueError(t)) => RowValueError(t)
    case Some(_) => RowTypeError
    case None =>
      Row(InputRow(
        TextField(m, "Crop", ""), TextField(m, "Season", ""), TextField(m, "State", "Odisha"),
        area.value, rain.value, fert.value, pest.value))
  }

  /** An absent `Area` is read as 0, and an absent `State` as "Odisha"; these are
      the values `Preprocess` puts in the row. */
  lemma PreprocessDefaults(m: map<string, Json>)
    requires "Area" !in m && "State" !in m
    ensures FloatField(m, "Area") == Float(0.0)
    ensures TextField(m, "State", "Odisha") == Some("Odisha")
  {
    assert FloatField(m, "Area") == Float(0.0);
    TrimOfTrimmed("Odisha");
  }

  /** Python `round(y, 4)` on an exact value: the nearest multiple of 1/10000,
      halves to the even neighbour. */
  function Round4(y: real): (r: real)
    ensures y - 0.00005 <= r <= y + 0.00005
    ensures (r * 10000.0).Floor as real == r * 10000.0
  {
    var scaled := y * 10000.0;
    var k := scaled.Floor;
    var frac := scaled - k as real;
    var n := if frac > 0.5 then k + 1 else if frac < 0.5 then k else if k % 2 == 0 then k else k + 1;
    n as real / 10000.0
  }

  /** What `model.predict` did: a value, or one of the exceptions the handler tells
      apart. */
  datatype Prediction = Predicted(y: real) | PredictKeyError(key: string) | PredictValueError(text: string) | PredictFailed

  /** The HTTP method of a request to the yield endpoint. */
  datatype Method = Options | Post

  /** The request body as `request.get_json()` sees it: unparsable (it raises), or
      a JSON value (`JNull` for a body of `null`). */
  datatype Body = Unparsable | JsonBody(json: Json)

  const ModelMissing := "Model is not available. Please contact support."
  const NoInput := "No input data provided in request body."
  const Internal := "An internal server error occurred."

  /** The `result` object of a successful prediction. */
  function ResultJson(y: real, m: map<string, Json>): (j: Json)
    ensures Prop(j, "unit") == Some(JStr("tons/hectare"))
    ensures Prop(j, "yield") == Some(JNum(Round4(y)))
    ensures Prop(j, "input_summary") == Some(JObj(map[
      "crop" := GetOr(m, "Crop", JNull), "season" := GetOr(m, "Season", JNull), "area" := GetOr(m, "Area", JNull)]))
  {
    JObj(map[
      "yield" := JNum(Round4(y)),
      "unit" := JStr("tons/hectare"),
      "input_summary" := JObj(map[
        "crop" := GetOr(m, "Crop", JNull),
        "season" := GetOr(m, "Season", JNull),
        "area" := GetOr(m, "Area", JNull)])])
  }

  /** The reply once preprocessing has produced `pre`: the model call and the
      exception mapping (`KeyError` and `ValueError` are 400, the rest 500). */
  function Respond(pre: Preprocessed, m: map<string, Json>, predict: Prediction): (r: Response)
    ensures r.status in {200, 400, 500}
    ensures pre.RowTypeError? ==> r == ErrorResponse(Internal, 500)
    ensures pre.RowValueError? ==> r.status == 400
    ensures pre.Row? && predict.Predicted? ==> r == SuccessResponse(ResultJson(predict.y, m), 200)
    ensures pre.Row? && (predict.PredictKeyError? || predict.PredictValueError?) ==> r.status == 400
    ensures pre.Row? && predict.PredictFailed? ==> r == ErrorResponse(Internal, 500)
  {
    match pre
    case RowTypeError => ErrorResponse(Internal, 500)
    case RowValueError(t) => ErrorResponse("Invalid data format: could not convert string to float: '" + t + "'", 400)
    case Row(_) =>
      match predict
      case Predicted(y) => SuccessResponse(ResultJson(y, m), 200)
      case PredictKeyError(k) => ErrorResponse("Missing required feature: '" + k + "'", 400)
      case PredictValueError(t) => ErrorResponse("Invalid data format: " + t, 400)
      case PredictFailed => ErrorResponse(Internal, 500)
  }

  /** `predict_yield` from a validated body on: preprocessing, then `Respond`. */
  function PredictFromFields(m: map<string, Json>, predict: Prediction): (r: Response)
    ensures r.status in {200, 400, 500}
    ensures Preprocess(m).RowTypeError? ==> r == ErrorResponse(Internal, 500)
    ensures Preprocess(m).RowValueError? ==> r.status == 400
    ensures Preprocess(m).Row? && predict.Predicted? ==> r == SuccessResponse(ResultJson(predict.y, m), 200)
    ensures Preprocess(m).Row? && predict.PredictFailed? ==> r == ErrorResponse(Internal, 500)
  {
    Respond(Preprocess(m), m, predict)
  }

  /** `predict_yield`: OPTIONS first, then the model check, then an empty body,
      then validation, then the prediction. */
  function PredictYield(verb: Method, body: Body, modelLoaded: bool, predict: Prediction): (r: Response)
    ensures verb == Options ==> r == Response(204, None)
    ensures verb == Post && !modelLoaded ==> r == ErrorResponse(ModelMissing, 503)
    ensures verb == Post && modelLoaded && body.Unparsable? ==> r == ErrorResponse(Internal, 500)
    ensures verb == Post && modelLoaded && body.JsonBody? && !PyTruthy(body.json) ==>
      r == ErrorResponse(NoInput, 400)
    ensures verb == Post && modelLoaded && body.JsonBody? && PyTruthy(body.json) ==>
      match ValidateRequiredFields(body.json, RequiredFields)
      case Raised => r == ErrorResponse(Internal, 500)
      case Invalid(msg) => r == ErrorResponse(msg, 400)
      case Valid => body.json.JObj? && r == PredictFromFields(body.json.fields, predict)
  {
    if verb == Options then Response(204, None)
    else if !modelLoaded then ErrorResponse(ModelMissing, 503)
    else
      match body
      case Unparsable => ErrorResponse(Internal, 500)
      case JsonBody(data) =>
        if !PyTruthy(data) then ErrorResponse(NoInput, 400)
        else
          match ValidateRequiredFields(data, RequiredFields)
          case Raised => ErrorResponse(Internal, 500)
          case Invalid(msg) => ErrorResponse(msg, 400)
          case Valid =>
            if data.JObj? then PredictFromFields(data.fields, predict)
            else ErrorResponse(Internal, 500)
  }

  /** The text under `error.message`, when there is one. */
  function ErrorText(body: Json): Option<string> {
    match PropOpt(Prop(body, "error"), "message")
    case Some(JStr(m)) => Some(m)
    case _ => None
  }

  /** A reply is an envelope whose `success` flag says whether the status is 200,
      and a failure carries a non-empty message under `error.message`. */
  predicate IsEnvelope(r: Response) {
    && r.body.Some?
    && Prop(r.body.value, "success") == Some(JBool(r.status == 200))
    && (r.status != 200 ==> ErrorText(r.body.value).Some? && ErrorText(r.body.value).value != "")
  }

  /** Every POST to the yield endpoint is answered with an envelope, and with one of
      the statuses 200, 400, 500 and 503. */
  lemma PostAnswersWithEnvelope(body: Body, modelLoaded: bool, predict: Prediction)
    ensures IsEnvelope(PredictYield(Post, body, modelLoaded, predict))
    ensures PredictYield(Post, body, modelLoaded, predict).status in {200, 400, 500, 503}
  {
    if modelLoaded && body.JsonBody? && PyTruthy(body.json) {
      var v := ValidateRequiredFields(body.json, RequiredFields);
      if v.Invalid? {
        assert v.message != [] by {
          assert StartsWith(v.message, MissingPrefix);
        }
        ErrorEnvelope(v.message, 400);
      } else if v.Valid? {
        FromFieldsAnswersWithEnvelope(body.json.fields, predict);
      }
    }
  }

  /** An error reply with a non-empty message is an envelope. */
  lemma ErrorEnvelope(msg: string, status: int)
    requires msg != "" && status != 200
    ensures IsEnvelope(ErrorResponse(msg, status))
  {
  }

  /** Every reply after validation is an envelope. */
  lemma FromFieldsAnswersWithEnvelope(m: map<string, Json>, predict: Prediction)
    ensures IsEnvelope(PredictFromFields(m, predict))
  {
    RespondAnswersWithEnvelope(Preprocess(m), m, predict);
  }

  /** Whatever preprocessing and the model produce, the reply is an envelope. */
  lemma RespondAnswersWithEnvelope(pre: Preprocessed, m: map<string, Json>, predict: Prediction)
    ensures IsEnvelope(Respond(pre, m, predict))
  {
    match pre
    case RowTypeError => ErrorEnvelope(Internal, 500);
    case RowValueError(t) =>
      ErrorEnvelope("Invalid data format: could not convert string to float: '" + t + "'", 400);
    case Row(_) =>
      match predict
      case Predicted(y) =>
      case PredictKeyError(k) => ErrorEnvelope("Missing required feature: '" + k + "'", 400);
      case PredictValueError(t) => ErrorEnvelope("Invalid data format: " + t, 400);
      case PredictFailed => ErrorEnvelope(Internal, 500);
  }

  /** A dict that lacks a required key, or holds `null` under one, never reaches
      the model; the reply is a 400 naming it. */
  lemma MissingKeyIsRejected(m: map<string, Json>, k: string, predict: Prediction)
    requires m != map[] && k in RequiredFields && (k !in m || m[k] == JNull)
    ensures PredictYield(Post, JsonBody(JObj(m)), true, predict).status == 400
    ensures PredictYield(Post, JsonBody(JObj(m)), true, predict).body.Some?
    ensures ValidateRequiredFields(JObj(m), RequiredFields).Invalid?
    ensures PredictYield(Post, JsonBody(JObj(m)), true, predict) ==
      ErrorResponse(ValidateRequiredFields(JObj(m), RequiredFields).message, 400)
  {
    assert FieldMissing(JObj(m), k) == Some(true);
    var v := ValidateRequiredFields(JObj(m), RequiredFields);
    var missing := MissingFields(JObj(m), RequiredFields);
    MissingFieldsMembers(JObj(m), RequiredFields);
    assert missing.Some? && k in missing.value;
    assert v.Invalid?;
    assert |m| > 0 by {
      var key :| key in m;
      assert key in m.Keys;
    }
    assert PyTruthy(JObj(m));
  }

  /** `GET /api/v1/health`: a success envelope reporting the model status. */
  function Health(modelLoaded: bool, port: int, debug: bool): (r: Response)
    ensures r.status == 200 && IsEnvelope(r)
    ensures PropOpt(Prop(r.body.value, "data"), "model_status") ==
      Some(JStr(if modelLoaded then "loaded" else "not loaded"))
  {
    SuccessResponse(JObj(map[
      "server" := JStr("Flask"),
      "port" := JNum(port as real),
      "debug" := JBool(debug),
      "model_status" := JStr(if modelLoaded then "loaded" else "not loaded")]), 200)
  }

  /** `Config.DEBUG`: the `DEBUG` environment variable (default "True"), compared
      to "true" without regard to case. */
  function DebugFlag(env: Option<string>): (d: bool)
    ensures env.None? ==> d
    ensures env.Some? && env.value in {"true", "True", "TRUE"} ==> d
    ensures env.Some? && |env.value| != 4 ==> !d
    ensures env.Some? ==> (d <==> IsTrueInAnyCase(env.value))
  {
    var v := env.GetOr("True");
    TrueInAnyCase(v);
    ToLower(v) == "true"
  }

  /** `v` spells "true" with each letter in either case. */
  predicate IsTrueInAnyCase(v: string) {
    |v| == 4 && v[0] in "tT" && v[1] in "rR" && v[2] in "uU" && v[3] in "eE"
  }

  /** Lower-casing gives "true" exactly for the sixteen casings of it. */
  lemma TrueInAnyCase(v: string)
    ensures ToLower(v) == "true" <==> IsTrueInAnyCase(v)
  {
    if |v| == 4 {
      var l := ToLower(v);
      assert l == "true" <==> l[0] == 't' && l[1] == 'r' && l[2] == 'u' && l[3] == 'e';
    }
  }

  const NotImplemented := "This endpoint is not yet implemented."

  /** `POST /api/v1/crops/recommend`, not yet implemented. */
  function RecommendCrop(): (r: Response)
    ensures r.status == 501 && IsEnvelope(r)
  {
    ErrorResponse(NotImplemented, 501)
  }

  /** `POST /api/v1/pests/identify`, not yet implemented. */
  function IdentifyPest(): (r: Response)
    ensures r.status == 501 && IsEnvelope(r)
  {
    ErrorResponse(NotImplemented, 501)
  }

  /** The error handlers registered for 404, 405 and 500. */
  datatype HttpError = NotFound | MethodNotAllowed | ServerError

  /** The reply of the registered error handler, with the status it handles. */
  function HandleError(e: HttpError): (r: Response)
    ensures IsEnvelope(r) && r.status != 200
    ensures r.status == (match e case NotFound => 404 case MethodNotAllowed => 405 case ServerError => 500)
  {
    match e
    case NotFound => ErrorResponse("The requested URL was not found on the server.", 404)
    case MethodNotAllowed => ErrorResponse("The method is not allowed for the requested URL.", 405)
    case ServerError => ErrorResponse("An unexpected internal server error occurred.", 500)
  }
}
