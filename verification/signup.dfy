/** The registration page: the four-field form, and the submit handler that posts
    it to `/api/auth/register`. The reply is an input; on success the token goes
    to the session store through `storeTokenInLS`. */
module Signup {
  import opened Values
  import Auth

  /** The `user` form state. */
  datatype Form = Form(username: string, email: string, phone: string, password: string)

  /** The `name` attribute of an input. */
  datatype Field = Username | Email | Phone | Password

  const EmptyForm := Form("", "", "", "")

  /** The value of one field. */
  function Get(f: Form, k: Field): string {
    match k
    case Username => f.username
    case Email => f.email
    case Phone => f.phone
    case Password => f.password
  }

  /** `handleInput`: `{...user, [name]: value}`. */
  function HandleInput(f: Form, k: Field, v: string): (r: Form)
    ensures Get(r, k) == v
    ensures forall other :: other != k ==> Get(r, other) == Get(f, other)
  {
    match k
    case Username => f.(username := v)
    case Email => f.(email := v)
    case Phone => f.(phone := v)
    case Password => f.(password := v)
  }

  /** The page state. */
  datatype Page = Page(form: Form, isLoading: bool)

  /** Everything the handler leaves behind: page, session store, toast, navigation. */
  datatype Effect = Effect(page: Page, auth: Auth.Store, toast: Toast, navigateTo: Option<string>)

  const ConnectionError := "Connection error. Please try again."
  const Welcome := "Registration Successful! Welcome to AgroCare AI! 🎉"

  /** The page while the request is in flight. */
  function Submitting(p: Page): (r: Page)
    ensures r.isLoading && r.form == p.form
  {
    p.(isLoading := true)
  }

  /** The text shown for a rejected registration: `extraDetails` when truthy,
      otherwise `message` (possibly `undefined`). Whatever is shown is one of the
      reply's own fields, and the toast says something exactly when one of the
      two fields does. */
  function RejectionText(body: Json): (r: Option<Json>)
    ensures JsTruthyOpt(Prop(body, "extraDetails")) ==> r == Prop(body, "extraDetails")
    ensures !JsTruthyOpt(Prop(body, "extraDetails")) ==> r == Prop(body, "message")
    ensures r.Some? ==> body.JObj? && r.value in body.fields.Values
    ensures JsTruthyOpt(r) <==> JsTruthyOpt(Prop(body, "extraDetails")) || JsTruthyOpt(Prop(body, "message"))
  {
    var extra := Prop(body, "extraDetails");
    if JsTruthyOpt(extra) then extra else Prop(body, "message")
  }

  /** `storeTokenInLS(res_data.token)`: a string token is stored as is; a missing one
      is stored as `undefined`. */
  function StoreReplyToken(auth: Auth.Store, body: Json): Auth.Store {
    match Prop(body, "token")
    case Some(JStr(t)) => Auth.StoreTokenInLS(auth, t)
    case _ => Auth.StoreAbsentToken(auth)
  }

  /** Whether the reply reaches the success branch: an ok reply whose body is not
      `null`, since `null.token` throws before anything is stored. */
  predicate Registered(reply: Fetched) {
    reply.Answered? && reply.ok && reply.body != JNull
  }

  /** `handleSubmit` from the moment the reply is known to the `finally` block.
      Reading `token` or `extraDetails` of a `null` body throws, which lands in the
      `catch` like a failed request. */
  function HandleSubmit(p: Page, auth: Auth.Store, reply: Fetched): (e: Effect)
    ensures !e.page.isLoading
    ensures Registered(reply) ==>
      e.page.form == EmptyForm && e.navigateTo == Some("/dashboard") && e.toast.Success?
    ensures reply.Answered? && reply.ok && Prop(reply.body, "token").Some? && Prop(reply.body, "token").value.JStr? ==>
      e.auth == Auth.StoreTokenInLS(auth, Prop(reply.body, "token").value.s)
    ensures !Registered(reply) ==>
      e.auth == auth && e.page.form == p.form && e.navigateTo.None? && e.toast.Error?
    ensures reply.Answered? && !reply.ok && reply.body != JNull ==> e.toast == Error(RejectionText(reply.body))
    ensures reply.Threw? || reply.body == JNull ==> e.toast == Error(Some(JStr(ConnectionError)))
  {
    var done := p.(isLoading := false);
    match reply
    case Threw => Effect(done, auth, Error(Some(JStr(ConnectionError))), None)
    case Answered(ok, body) =>
      if body == JNull then Effect(done, auth, Error(Some(JStr(ConnectionError))), None)
      else if ok then Effect(done.(form := EmptyForm), StoreReplyToken(auth, body), Success(Welcome), Some("/dashboard"))
      else Effect(done, auth, Error(RejectionText(body)), None)
  }

  /** A `null` reply body, ok or not, is handled exactly like a failed request. */
  lemma NullReplyIsConnectionError(p: Page, auth: Auth.Store, ok: bool)
    ensures HandleSubmit(p, auth, Answered(ok, JNull)) == HandleSubmit(p, auth, Threw)
  {
  }

  /** A successful registration that returns a token logs the user in with exactly
      that token, persisted; a failed one leaves the session store untouched. */
  lemma RegistrationLogsIn(p: Page, auth: Auth.Store, body: Json, t: string)
    requires Prop(body, "token") == Some(JStr(t)) && t != ""
    ensures Auth.IsLoggedIn(HandleSubmit(p, auth, Answered(true, body)).auth.session)
    ensures Auth.Synced(HandleSubmit(p, auth, Answered(true, body)).auth)
    ensures HandleSubmit(p, auth, Answered(true, body)).auth.session.token == t
  {
  }
}
