/** The crop recommender page: the seven-field soil and climate form, the
    request it posts, the outcome handling and reset. */
module CropRecommender {
  import opened Values

  /** The `formData` state. */
  datatype Form = Form(
    nitrogen: string, phosphorus: string, potassium: string,
    temperature: string, humidity: string, ph: string, rainfall: string)

  /** A key of `formData`. */
  datatype Field = Nitrogen | Phosphorus | Potassium | Temperature | Humidity | Ph | Rainfall

  const EmptyForm := Form("", "", "", "", "", "", "")

  /** The page state; `JNull` is the `null` result. */
  datatype Page = Page(form: Form, loading: bool, result: Json)

  const Recommended := "Recommendation generated successfully! 🌾"
  const RecommendFailed := "Failed to get recommendation"
  const ConnectionError := "Connection error. Please ensure the ML API is running."

  /** The value of one field. */
  function Get(f: Form, k: Field): string {
    match k
    case Nitrogen => f.nitrogen
    case Phosphorus => f.phosphorus
    case Potassium => f.potassium
    case Temperature => f.temperature
    case Humidity => f.humidity
    case Ph => f.ph
    case Rainfall => f.rainfall
  }

  /** The property name of a field in `formData` and in the posted JSON. */
  function Key(k: Field): string {
    match k
    case Nitrogen => "nitrogen"
    case Phosphorus => "phosphorus"
    case Potassium => "potassium"
    case Temperature => "temperature"
    case Humidity => "humidity"
    case Ph => "ph"
    case Rainfall => "rainfall"
  }

  /** The field an input's `name` attribute designates, if any. */
  function FieldNamed(name: string): (r: Option<Field>)
    ensures r.Some? ==> Key(r.value) == name
  {
    match name
    case "nitrogen" => Some(Nitrogen)
    case "phosphorus" => Some(Phosphorus)
    case "potassium" => Some(Potassium)
    case "temperature" => Some(Temperature)
    case "humidity" => Some(Humidity)
    case "ph" => Some(Ph)
    case "rainfall" => Some(Rainfall)
    case _ => None
  }

  /** Keys and names are inverse: every field is found by its key, and distinct
      fields have distinct keys. */
  lemma KeyRoundTrip(k: Field, j: Field)
    ensures FieldNamed(Key(k)) == Some(k)
    ensures k != j ==> Key(k) != Key(j)
  {
  }

  /** `handleChange`: `{...formData, [name]: value}` for the input named `name`. */
  function HandleChange(f: Form, k: Field, v: string): (r: Form)
    ensures Get(r, k) == v
    ensures forall other :: other != k ==> Get(r, other) == Get(f, other)
  {
    match k
    case Nitrogen => f.(nitrogen := v)
    case Phosphorus => f.(phosphorus := v)
    case Potassium => f.(potassium := v)
    case Temperature => f.(temperature := v)
    case Humidity => f.(humidity := v)
    case Ph => f.(ph := v)
    case Rainfall => f.(rainfall := v)
  }

  /** A descriptor of `inputFields`: the `name` it binds and its caption. */
  datatype InputField = InputField(name: string, caption: string)

  /** `inputFields`, in display order. */
  const InputFields: seq<InputField> := [
    InputField("nitrogen", "Nitrogen (N)"),
    InputField("phosphorus", "Phosphorus (P)"),
    InputField("potassium", "Potassium (K)"),
    InputField("temperature", "Temperature"),
    InputField("humidity", "Humidity"),
    InputField("ph", "pH Level"),
    InputField("rainfall", "Rainfall")
  ]

  /** The fields in the order `formData` declares them. */
  const FieldOrder: seq<Field> := [Nitrogen, Phosphorus, Potassium, Temperature, Humidity, Ph, Rainfall]

  /** The descriptors name exactly the seven `formData` keys, in declaration order,
      so every rendered input edits a field and every field has an input. */
  lemma InputFieldsNameTheForm()
    ensures |InputFields| == |FieldOrder| == 7
    ensures forall i :: 0 <= i < 7 ==> InputFields[i].name == Key(FieldOrder[i])
    ensures forall i :: 0 <= i < 7 ==> FieldNamed(InputFields[i].name) == Some(FieldOrder[i])
    ensures forall k: Field :: k in FieldOrder
  {
    forall k: Field ensures k in FieldOrder {
      match k
      case Nitrogen => assert FieldOrder[0] == k;
      case Phosphorus => assert FieldOrder[1] == k;
      case Potassium => assert FieldOrder[2] == k;
      case Temperature => assert FieldOrder[3] == k;
      case Humidity => assert FieldOrder[4] == k;
      case Ph => assert FieldOrder[5] == k;
      case Rainfall => assert FieldOrder[6] == k;
    }
  }

  /** `JSON.stringify(formData)`: one string member per field. */
  function RequestBody(f: Form): (j: Json)
    ensures j.JObj?
    ensures forall k :: Key(k) in j.fields && j.fields[Key(k)] == JStr(Get(f, k))
    ensures forall name :: name in j.fields ==> FieldNamed(name).Some?
  {
    JObj(map[
      "nitrogen" := JStr(f.nitrogen), "phosphorus" := JStr(f.phosphorus),
      "potassium" := JStr(f.potassium), "temperature" := JStr(f.temperature),
      "humidity" := JStr(f.humidity), "ph" := JStr(f.ph), "rainfall" := JStr(f.rainfall)])
  }

  /** The page while the request is in flight: loading, and the old result gone. */
  function Submitting(p: Page): (r: Page)
    ensures r.loading && r.result == JNull && r.form == p.form
  {
    p.(loading := true, result := JNull)
  }

  /** What `handleSubmit` leaves behind: the page and the toast shown. */
  datatype Effect = Effect(page: Page, toast: Toast)

  /** `handleSubmit` given the outcome of its request. An ok reply is stored
      whatever it is; a non-ok `null` body throws at `data.error` and lands in
      the `catch`. */
  function HandleSubmit(p: Page, reply: Fetched): (e: Effect)
    ensures !e.page.loading && e.page.form == p.form
    ensures reply.Answered? && reply.ok ==> e.page.result == reply.body && e.toast == Success(Recommended)
    ensures reply.Answered? && !reply.ok && reply.body != JNull ==>
      e.page.result == JNull && e.toast == Error(Some(JsOr(Prop(reply.body, "error"), JStr(RecommendFailed))))
    ensures reply.Threw? || (!reply.ok && reply.body == JNull) ==>
      e.page.result == JNull && e.toast == Error(Some(JStr(ConnectionError)))
    ensures e.toast.Error? ==> JsTruthyOpt(e.toast.shown)
  {
    var start := Submitting(p);
    var done := start.(loading := false);
    match reply
    case Threw => Effect(done, Error(Some(JStr(ConnectionError))))
    case Answered(ok, body) =>
      if ok then Effect(done.(result := body), Success(Recommended))
      else if body == JNull then Effect(done, Error(Some(JStr(ConnectionError))))
      else Effect(done, Error(Some(JsOr(Prop(body, "error"), JStr(RecommendFailed)))))
  }

  /** A non-ok reply with a `null` body is handled exactly like a failed request. */
  lemma NullRejectionIsConnectionError(p: Page)
    ensures HandleSubmit(p, Answered(false, JNull)) == HandleSubmit(p, Threw)
  {
  }

  /** `handleReset`: all seven fields blank and no result. */
  function HandleReset(p: Page): (r: Page)
    ensures forall k :: Get(r.form, k) == ""
    ensures r.result == JNull && r.loading == p.loading
  {
    p.(form := EmptyForm, result := JNull)
  }

  /** A result appears only after an ok reply: any failure leaves none, whatever was
      shown before. */
  lemma ResultOnlyFromOk(p: Page, reply: Fetched)
    ensures HandleSubmit(p, reply).page.result != JNull ==> reply.Answered? && reply.ok
  {
  }
}
