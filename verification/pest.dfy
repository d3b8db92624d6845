/** The pest identifier page: choosing an image, the submit guard, the outcome of
    the identification request, reset, and the pest name shown. Reading the file
    for the preview (`FileReader`) is an event of its own, `PreviewLoaded`. */
module PestIdentifier {
  import opened Values

  /** A chosen file: its name and its MIME `type` ("" when the browser cannot tell). */
  datatype File = File(name: string, mimeType: string)

  /** The page state; `JNull` is the `null` result. */
  datatype Page = Page(selectedImage: Option<File>, previewUrl: Option<string>, loading: bool, result: Json)

  /** The page as first rendered. */
  const Initial := Page(None, None, false, JNull)

  const InvalidFile := "Please select a valid image file"
  const NoImage := "Please select an image first"
  const Identified := "Pest identified successfully! 🐛"
  const IdentifyFailed := "Failed to identify pest"
  const ConnectionError := "Connection error. Please ensure the ML API is running."

  /** The file test of `handleFileSelect`: present, with a type starting with
      `image/` (case-sensitive). */
  predicate Accepts(file: Option<File>) {
    file.Some? && StartsWith(file.value.mimeType, "image/")
  }

  /** What a handler leaves behind: the page and the toast shown, if any. */
  datatype Effect = Effect(page: Page, toast: Option<Toast>)

  /** `handleFileSelect(file)`; a drop or an input change with no file passes
      `undefined`, that is `None`. */
  function HandleFileSelect(p: Page, file: Option<File>): (e: Effect)
    ensures Accepts(file) ==>
      e.page == p.(selectedImage := file, result := JNull) && e.toast.None?
    ensures !Accepts(file) ==> e.page == p && e.toast == Some(Error(Some(JStr(InvalidFile))))
  {
    if file.Some? && StartsWith(file.value.mimeType, "image/")
    then Effect(p.(selectedImage := file, result := JNull), None)
    else Effect(p, Some(Error(Some(JStr(InvalidFile)))))
  }

  /** Which MIME types pass: any `image/` subtype, nothing else, and no upper-case
      spelling. */
  lemma AcceptsExamples(name: string, sub: string)
    ensures Accepts(Some(File(name, "image/" + sub)))
    ensures !Accepts(Some(File(name, "")))
    ensures !Accepts(Some(File(name, "application/pdf")))
    ensures !Accepts(Some(File(name, "IMAGE/PNG")))
    ensures !Accepts(None)
  {
    assert ("image/" + sub)[..6] == "image/";
    assert "application/pdf"[..6] != "image/" by {
      assert "application/pdf"[0] != "image/"[0];
    }
    assert "IMAGE/PNG"[..6] != "image/" by {
      assert "IMAGE/PNG"[0] != "image/"[0];
    }
  }

  /** The reader's `onloadend`: the preview shows the file's data URL. */
  function PreviewLoaded(p: Page, dataUrl: string): (r: Page)
    ensures r.previewUrl == Some(dataUrl)
    ensures r.selectedImage == p.selectedImage && r.result == p.result && r.loading == p.loading
  {
    p.(previewUrl := Some(dataUrl))
  }

  /** Whether `handleSubmit` sends a request: only with an image selected. */
  predicate CanSubmit(p: Page) {
    p.selectedImage.Some?
  }

  /** The page while the identification request is in flight. */
  function Submitting(p: Page): (r: Page)
    ensures r.loading && r.selectedImage == p.selectedImage && r.result == p.result
  {
    p.(loading := true)
  }

  /** `handleSubmit` given the outcome of its request (ignored when no image is
      selected, since then no request is made). An ok reply is stored whatever it
      is; a non-ok `null` body throws at `data.error` and lands in the `catch`. */
  function HandleSubmit(p: Page, reply: Fetched): (e: Effect)
    ensures !CanSubmit(p) ==> e == Effect(p, Some(Error(Some(JStr(NoImage)))))
    ensures CanSubmit(p) ==> !e.page.loading && e.page.selectedImage == p.selectedImage
    ensures CanSubmit(p) ==> e.page.previewUrl == p.previewUrl
    ensures CanSubmit(p) && reply.Answered? && reply.ok ==>
      e.page.result == reply.body && e.toast == Some(Success(Identified))
    ensures CanSubmit(p) && reply.Answered? && !reply.ok && reply.body != JNull ==>
      e.page.result == p.result && e.toast == Some(Error(Some(JsOr(Prop(reply.body, "error"), JStr(IdentifyFailed)))))
    ensures CanSubmit(p) && (reply.Threw? || (!reply.ok && reply.body == JNull)) ==>
      e.page.result == p.result && e.toast == Some(Error(Some(JStr(ConnectionError))))
  {
    if p.selectedImage.None? then Effect(p, Some(Error(Some(JStr(NoImage)))))
    else
      var done := Submitting(p).(loading := false);
      match reply
      case Threw => Effect(done, Some(Error(Some(JStr(ConnectionError)))))
      case Answered(ok, body) =>
        if ok then Effect(done.(result := body), Some(Success(Identified)))
        else if body == JNull then Effect(done, Some(Error(Some(JStr(ConnectionError)))))
        else Effect(done, Some(Error(Some(JsOr(Prop(body, "error"), JStr(IdentifyFailed))))))
  }

  /** A non-ok reply with a `null` body is handled exactly like a failed request. */
  lemma NullRejectionIsConnectionError(p: Page)
    ensures HandleSubmit(p, Answered(false, JNull)) == HandleSubmit(p, Threw)
  {
  }

  /** A failed identification always says something: the error toast is never
      empty. */
  lemma FailureToastIsTruthy(p: Page, reply: Fetched)
    requires CanSubmit(p) && !(reply.Answered? && reply.ok)
    ensures HandleSubmit(p, reply).toast.Some? && HandleSubmit(p, reply).toast.value.Error?
    ensures JsTruthyOpt(HandleSubmit(p, reply).toast.value.shown)
  {
  }

  /** `handleReset`: image, preview and result are cleared. */
  function HandleReset(p: Page): (r: Page)
    ensures r.selectedImage.None? && r.previewUrl.None? && r.result == JNull
    ensures r.loading == p.loading
  {
    p.(selectedImage := None, previewUrl := None, result := JNull)
  }

  /** After a reset the page is back to its first rendering (when idle), and a
      submission is refused until an image is chosen again. */
  lemma ResetReturnsToInitial(p: Page, file: Option<File>, reply: Fetched)
    requires !p.loading
    ensures HandleReset(p) == Initial
    ensures HandleSubmit(HandleReset(p), reply).page == Initial
    ensures Accepts(file) ==> CanSubmit(HandleFileSelect(HandleReset(p), file).page)
  {
  }

  /** The name shown for a result: `predicted_pest`, falling back to `pest_name`.
      A shown name is always one of the result's own fields, and the name is
      blank exactly when both fields are. */
  function DisplayedPestName(result: Json): (r: Option<Json>)
    ensures JsTruthyOpt(Prop(result, "predicted_pest")) ==> r == Prop(result, "predicted_pest")
    ensures !JsTruthyOpt(Prop(result, "predicted_pest")) ==> r == Prop(result, "pest_name")
    ensures r.Some? ==> result.JObj? && r.value in result.fields.Values
    ensures JsTruthyOpt(r) <==> JsTruthyOpt(Prop(result, "predicted_pest")) || JsTruthyOpt(Prop(result, "pest_name"))
  {
    var predicted := Prop(result, "predicted_pest");
    if JsTruthyOpt(predicted) then predicted else Prop(result, "pest_name")
  }

  /** After an ok identification the name on screen comes from the reply itself,
      and it is shown whenever the reply names the pest in either field. */
  lemma ShownNameComesFromReply(p: Page, body: Json)
    requires CanSubmit(p)
    ensures var shown := DisplayedPestName(HandleSubmit(p, Answered(true, body)).page.result);
      && (shown.Some? ==> body.JObj? && shown.value in body.fields.Values)
      && (JsTruthyOpt(shown) <==> JsTruthyOpt(Prop(body, "predicted_pest")) || JsTruthyOpt(Prop(body, "pest_name")))
  {
  }

  /** Both names present: the predicted one wins; an empty predicted name does not. */
  lemma PestNamePrecedence(a: string, b: string)
    ensures a != "" ==>
      DisplayedPestName(JObj(map["predicted_pest" := JStr(a), "pest_name" := JStr(b)])) == Some(JStr(a))
    ensures DisplayedPestName(JObj(map["predicted_pest" := JStr(""), "pest_name" := JStr(b)])) == Some(JStr(b))
  {
  }
}
