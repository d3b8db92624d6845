/** The yield-prediction page: the six-field form, the payload it posts to the ML
    API, reading the yield out of whatever shape the reply has, clamping and
    rounding it, the target and the percentage shown on the doughnut chart, and
    the error message chosen when anything fails. The request is an input. */
module YieldPrediction {
  import opened Values
  import Numbers

  /** The `farmInfo` form state. */
  datatype Form = Form(
    crop: string, season: string, state: string,
    rainfall: string, fertilizer: string, pesticide: string)

  /** The `name` attribute of an input. */
  datatype Field = Crop | Season | State | AnnualRainfall | FertilizerPerHectare | PesticidePerHectare

  /** The value of one form field. */
  function Get(f: Form, k: Field): string {
    match k
    case Crop => f.crop
    case Season => f.season
    case State => f.state
    case AnnualRainfall => f.rainfall
    case FertilizerPerHectare => f.fertilizer
    case PesticidePerHectare => f.pesticide
  }

  /** `handleInfoChange`: `{...prev, [name]: value}`. */
  function HandleInfoChange(f: Form, k: Field, v: string): (r: Form)
    ensures Get(r, k) == v
    ensures forall other :: other != k ==> Get(r, other) == Get(f, other)
  {
    match k
    case Crop => f.(crop := v)
    case Season => f.(season := v)
    case State => f.(state := v)
    case AnnualRainfall => f.(rainfall := v)
    case FertilizerPerHectare => f.(fertilizer := v)
    case PesticidePerHectare => f.(pesticide := v)
  }

  /** `parseNumber(v)`: `Number(v)` when finite, else 0. */
  function ParseNumber(v: string): real {
    Numbers.JsNumber(v).GetOr(0.0)
  }

  /** `parseNumber` reads whole numbers back. */
  lemma ParseNumberOfNat(n: nat)
    ensures ParseNumber(Numbers.NatToString(n)) == n as real
  {
    Numbers.JsNumberReadsNat(n);
  }

  /** `parseNumber` turns text that does not begin like a number into 0 rather than
      failing. */
  lemma ParseNumberOfText(v: string)
    requires Trim(v) != [] && !Numbers.IsDigit(Trim(v)[0], 10) && Trim(v)[0] !in "+-."
    ensures ParseNumber(v) == 0.0
  {
    Numbers.JsNumberRejectsText(v);
  }

  /** The request body, before it is written as JSON. */
  datatype Payload = Payload(
    crop: string, season: string, state: string,
    rainfall: real, fertilizer: real, pesticide: real)

  /** The state sent when the field is left empty. */
  const DefaultState := "Punjab"

  /** The payload built from the form. `farmInfo.State || "Punjab"` tests the raw
      text, so a field of blanks only is sent as "" rather than the default. */
  function BuildPayload(f: Form): (p: Payload)
    ensures p.crop == Trim(f.crop) && p.season == Trim(f.season)
    ensures f.state == "" ==> p.state == DefaultState
    ensures f.state != "" ==> p.state == Trim(f.state)
    ensures p.rainfall == ParseNumber(f.rainfall) && p.fertilizer == ParseNumber(f.fertilizer)
    ensures p.pesticide == ParseNumber(f.pesticide)
  {
    TrimOfTrimmed(DefaultState);
    Payload(
      Trim(f.crop), Trim(f.season), Trim(if f.state == "" then DefaultState else f.state),
      ParseNumber(f.rainfall), ParseNumber(f.fertilizer), ParseNumber(f.pesticide))
  }

  /** The keys of the JSON body the page posts. */
  const PayloadKeys: set<string> :=
    {"Crop", "Season", "State", "Annual_Rainfall", "Fertilizer_Per_Hectare", "Pesticide_Per_Hectare"}

  /** The payload as the JSON object axios sends. */
  function PayloadJson(p: Payload): (j: Json)
    ensures j.JObj? && j.fields.Keys == PayloadKeys && "Area" !in j.fields
    ensures j.fields["Crop"] == JStr(p.crop) && j.fields["Season"] == JStr(p.season)
    ensures j.fields["State"] == JStr(p.state)
    ensures j.fields["Annual_Rainfall"] == JNum(p.rainfall)
    ensures j.fields["Fertilizer_Per_Hectare"] == JNum(p.fertilizer)
    ensures j.fields["Pesticide_Per_Hectare"] == JNum(p.pesticide)
  {
    JObj(map[
      "Crop" := JStr(p.crop),
      "Season" := JStr(p.season),
      "State" := JStr(p.state),
      "Annual_Rainfall" := JNum(p.rainfall),
      "Fertilizer_Per_Hectare" := JNum(p.fertilizer),
      "Pesticide_Per_Hectare" := JNum(p.pesticide)])
  }

  /** `resp.data || {}`. */
  function ResponseData(body: Json): Json {
    if JsTruthy(body) then body else JObj(map[])
  }

  /** The first of `o1`, `o2` that is neither `undefined` nor `null`. */
  function Coalesce(o1: Option<Json>, o2: Option<Json>): (r: Option<Json>)
    ensures !IsNullish(o1) ==> r == o1
    ensures IsNullish(o1) ==> (if IsNullish(o2) then r.None? else r == o2)
  {
    if !IsNullish(o1) then o1 else if !IsNullish(o2) then o2 else None
  }

  /** The raw yield found in a reply body, `None` when the shape is not recognised.
      The places tried, in order: `data.data.yield` then `data.data.predicted_yield`
      (only when `data.success` and `data.data` are truthy), the top-level
      `data.yield`, `data.data.yield` (when `data.data` is truthy), and `data`
      itself when it is a number. Assigning `null` leaves `rawYield` null, so each
      step counts only when its value is neither `undefined` nor `null`. */
  function RawYield(body: Json): (r: Option<Json>)
    ensures r.None? || r.value != JNull
  {
    var data := ResponseData(body);
    var inner := Prop(data, "data");
    var enveloped :=
      if JsTruthyOpt(Prop(data, "success")) && JsTruthyOpt(inner)
      then Coalesce(PropOpt(inner, "yield"), PropOpt(inner, "predicted_yield"))
      else None;
    if enveloped.Some? then enveloped
    else if !IsNullish(Prop(data, "yield")) then Prop(data, "yield")
    else if JsTruthyOpt(inner) && !IsNullish(PropOpt(inner, "yield")) then PropOpt(inner, "yield")
    else if data.JNum? then Some(data)
    else None
  }

  /** An enveloped reply (`success` truthy, `data` an object) gives `data.yield`
      first, ahead of any top-level `yield`. */
  lemma EnvelopeYieldFirst(body: Json, inner: map<string, Json>)
    requires body.JObj? && JsTruthyOpt(Prop(body, "success")) && Prop(body, "data") == Some(JObj(inner))
    requires "yield" in inner && inner["yield"] != JNull
    ensures RawYield(body) == Some(inner["yield"])
  {
  }

  /** Without `data.yield`, an enveloped reply gives `data.predicted_yield`. */
  lemma EnvelopePredictedYield(body: Json, inner: map<string, Json>)
    requires body.JObj? && JsTruthyOpt(Prop(body, "success")) && Prop(body, "data") == Some(JObj(inner))
    requires "yield" !in inner && "predicted_yield" in inner && inner["predicted_yield"] != JNull
    ensures RawYield(body) == Some(inner["predicted_yield"])
  {
  }

  /** Without the envelope, a top-level `yield` comes first. */
  lemma TopLevelYield(body: Json)
    requires body.JObj? && !JsTruthyOpt(Prop(body, "success"))
    requires "yield" in body.fields && body.fields["yield"] != JNull
    ensures RawYield(body) == Some(body.fields["yield"])
  {
  }

  /** Without the envelope or a top-level `yield`, a truthy `data` member's own
      `yield` is used. */
  lemma DataYieldWithoutSuccess(body: Json, inner: map<string, Json>)
    requires body.JObj? && !JsTruthyOpt(Prop(body, "success")) && IsNullish(Prop(body, "yield"))
    requires Prop(body, "data") == Some(JObj(inner)) && "yield" in inner && inner["yield"] != JNull
    ensures RawYield(body) == Some(inner["yield"])
  {
  }

  /** A reply that is a non-zero number is the yield itself; other scalars, and an
      object with no `yield` anywhere, are not recognised. */
  lemma ScalarReplies(n: real, s: string, b: bool)
    requires n != 0.0
    ensures RawYield(JNum(n)) == Some(JNum(n))
    ensures RawYield(JNum(0.0)) == None && RawYield(JNull) == None
    ensures RawYield(JStr(s)) == None && RawYield(JBool(b)) == None
    ensures RawYield(JObj(map[])) == None
  {
  }

  /** `Number(v)` when finite; `None` is NaN or an infinity. Arrays are taken as
      non-numeric. */
  function ToNumber(v: Json): Option<real> {
    match v
    case JNull => Some(0.0)
    case JBool(b) => Some(if b then 1.0 else 0.0)
    case JNum(n) => Some(n)
    case JStr(s) => Numbers.JsNumber(s)
    case JArr(_) => None
    case JObj(_) => None
  }

  /** The trimmed crop name is "coconut" in any letter case. */
  predicate IsCoconut(crop: string) {
    ToLower(crop) == "coconut"
  }

  /** The shown prediction for a finite yield `y`: `max(0, y)`, rounded to a whole
      number for coconut (nuts per hectare) and to two decimals otherwise. */
  function Display(crop: string, y: real): (v: real)
    ensures v >= 0.0
    ensures var c := if y > 0.0 then y else 0.0;
      if IsCoconut(crop) then v == v.Floor as real && c - 0.5 < v <= c + 0.5
      else (v * 100.0) == (v * 100.0).Floor as real && c - 0.005 < v <= c + 0.005
  {
    var clamped := if y > 0.0 then y else 0.0;
    if IsCoconut(crop) then Numbers.RoundHalfUp(clamped) as real
    else
      var hundredths := Numbers.RoundHalfUp(clamped * 100.0);
      assert hundredths >= 0;
      hundredths as real / 100.0
  }

  /** Why a request failed, as axios reports it: a reply with an error status, a
      request without reply, or an error before or after the request (`message`). */
  datatype Failure = WithResponse(data: Json) | NoResponse | Plain(message: string)

  /** What the request brought: a reply body with a 2xx status, or a failure. */
  datatype Reply = Resolved(data: Json) | Rejected(failure: Failure)

  /** The result of reading a successful reply. */
  datatype Estimate = Predicted(value: real) | Failed(failure: Failure)

  const InvalidFormat := "Invalid response format from ML API"
  const NonNumeric := "Non-numeric yield returned"

  /** The `try` block after a 2xx reply, for the trimmed crop name of the payload. */
  function Interpret(crop: string, body: Json): (e: Estimate)
    ensures RawYield(body).None? ==> e == Failed(Plain(InvalidFormat))
    ensures RawYield(body).Some? && ToNumber(RawYield(body).value).None? ==> e == Failed(Plain(NonNumeric))
    ensures RawYield(body).Some? && ToNumber(RawYield(body).value).Some? ==>
      e == Predicted(Display(crop, ToNumber(RawYield(body).value).value))
    ensures e.Predicted? ==> e.value >= 0.0
  {
    match RawYield(body)
    case None => Failed(Plain(InvalidFormat))
    case Some(raw) =>
      match ToNumber(raw)
      case None => Failed(Plain(NonNumeric))
      case Some(y) => Predicted(Display(crop, y))
  }

  /** The message shown for a failure: the reply's `msg`, then its `error.message`,
      then "Server error"; "Server is not responding. …" without a reply; the
      error's own message, then "Unknown error", otherwise. It is never falsy, so
      the error banner always appears. */
  function ErrorMessage(f: Failure): (m: Json)
    ensures JsTruthy(m)
    ensures f.WithResponse? && JsTruthyOpt(Prop(f.data, "msg")) ==> Some(m) == Prop(f.data, "msg")
    ensures f.WithResponse? && !JsTruthyOpt(Prop(f.data, "msg")) && JsTruthyOpt(PropOpt(Prop(f.data, "error"), "message")) ==>
      Some(m) == PropOpt(Prop(f.data, "error"), "message")
    ensures f.WithResponse? && !JsTruthyOpt(Prop(f.data, "msg")) && !JsTruthyOpt(PropOpt(Prop(f.data, "error"), "message")) ==>
      m == JStr("Server error")
    ensures f.NoResponse? ==> m == JStr("Server is not responding. Please try again later.")
    ensures f.Plain? ==> m == JStr(if f.message != "" then f.message else "Unknown error")
  {
    match f
    case WithResponse(d) =>
      JsOr(Prop(d, "msg"), JsOr(PropOpt(Prop(d, "error"), "message"), JStr("Server error")))
    case NoResponse => JStr("Server is not responding. Please try again later.")
    case Plain(msg) => JStr(if msg != "" then msg else "Unknown error")
  }

  /** The page state. */
  datatype Page = Page(form: Form, prediction: Option<real>, isLoading: bool, errorMessage: Option<Json>)

  /** The page while the request is in flight: loading, nothing shown. */
  function Submitting(p: Page): (r: Page)
    ensures r.isLoading && r.prediction.None? && r.errorMessage.None? && r.form == p.form
  {
    p.(isLoading := true, errorMessage := None, prediction := None)
  }

  /** `handleGetEstimate` once the request has settled: exactly one of a prediction
      and an error message is shown, and loading is over. */
  function HandleGetEstimate(p: Page, reply: Reply): (r: Page)
    ensures !r.isLoading && r.form == p.form
    ensures r.prediction.Some? != r.errorMessage.Some?
    ensures r.prediction.Some? ==> r.prediction.value >= 0.0
    ensures r.errorMessage.Some? ==> JsTruthy(r.errorMessage.value)
    ensures reply.Rejected? ==> r.errorMessage == Some(ErrorMessage(reply.failure))
    ensures reply.Resolved? ==> (match Interpret(BuildPayload(p.form).crop, reply.data)
      case Predicted(v) => r.prediction == Some(v)
      case Failed(f) => r.errorMessage == Some(ErrorMessage(f)))
  {
    var estimate :=
      match reply
      case Rejected(f) => Failed(f)
      case Resolved(body) => Interpret(BuildPayload(p.form).crop, body);
    var start := Submitting(p);
    match estimate
    case Predicted(v) => start.(prediction := Some(v), isLoading := false)
    case Failed(f) => start.(errorMessage := Some(ErrorMessage(f)), isLoading := false)
  }

  /** `targetYield`: 5000 (nuts per hectare) for coconut, 5 (tons per hectare) otherwise. */
  function TargetYield(f: Form): (t: int)
    ensures t > 0
    ensures t == 5000 || t == 5
  {
    if IsCoconut(Trim(f.crop)) then 5000 else 5
  }

  /** The rounding branch taken at submission agrees with the target shown for the
      same form. */
  lemma TargetMatchesRounding(f: Form)
    ensures IsCoconut(BuildPayload(f).crop) <==> TargetYield(f) == 5000
  {
  }

  /** `yieldPercentage`: 0 when there is no (or a zero) prediction. */
  function YieldPercentage(p: Page): (pct: int)
    ensures p.prediction.None? ==> pct == 0
    ensures p.prediction.Some? && p.prediction.value >= 0.0 ==> pct >= 0
    ensures p.prediction.Some? && p.prediction.value != 0.0 ==>
      var q := p.prediction.value / TargetYield(p.form) as real * 100.0;
      q - 0.5 < pct as real <= q + 0.5
  {
    match p.prediction
    case None => 0
    case Some(v) =>
      if v == 0.0 then 0
      else
        var t := TargetYield(p.form);
        PercentSign(v, t);
        Numbers.RoundHalfUp(v / t as real * 100.0)
  }

  /** A non-negative yield against a positive target is a non-negative percentage. */
  lemma PercentSign(v: real, t: int)
    requires t > 0
    ensures v >= 0.0 ==> v / t as real * 100.0 >= 0.0
  {
    if v >= 0.0 {
      var q := v / t as real;
      assert q * t as real == v;
    }
  }

  /** For one form, a larger non-negative prediction never shows a smaller
      percentage. */
  lemma PercentageMonotone(p: Page, q: Page)
    requires p.form == q.form && p.prediction.Some? && q.prediction.Some?
    requires 0.0 <= p.prediction.value <= q.prediction.value
    ensures YieldPercentage(p) <= YieldPercentage(q)
  {
    var t := TargetYield(p.form);
    if p.prediction.value != 0.0 {
      ShareMonotone(p.prediction.value, q.prediction.value, t);
    } else {
      PercentSign(q.prediction.value, t);
    }
  }

  /** A prediction equal to the target shows 100 percent. */
  lemma TargetShowsHundred(p: Page)
    requires p.prediction == Some(TargetYield(p.form) as real)
    ensures YieldPercentage(p) == 100
  {
    WholeIsHundred(TargetYield(p.form));
  }

  /** A positive amount is 100 percent of itself. */
  lemma WholeIsHundred(t: int)
    requires t > 0
    ensures Numbers.RoundHalfUp(t as real / t as real * 100.0) == 100
  {
    assert t as real / t as real == 1.0;
  }

  /** Against a positive target, the share in percent grows with the prediction. */
  lemma ShareMonotone(a: real, b: real, t: int)
    requires 0.0 <= a <= b && t > 0
    ensures a / t as real * 100.0 <= b / t as real * 100.0
  {
    var qa, qb := a / t as real, b / t as real;
    assert qa * t as real == a && qb * t as real == b;
  }

  /** The doughnut's "remaining" slice, `Math.max(0, 100 - pct)`. */
  function Remaining(pct: int): (r: int)
    ensures r >= 0
    ensures pct <= 100 ==> pct + r == 100
    ensures pct > 100 ==> r == 0
  {
    if 100 - pct > 0 then 100 - pct else 0
  }

  /** After any submission the chart's two slices are non-negative. */
  lemma ChartSlicesNonNegative(p: Page, reply: Reply)
    ensures YieldPercentage(HandleGetEstimate(p, reply)) >= 0
    ensures Remaining(YieldPercentage(HandleGetEstimate(p, reply))) >= 0
  {
  }
}
