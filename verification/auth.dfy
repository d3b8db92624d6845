/** The client session store (`AuthProvider`): the bearer token, the admin flag,
    the cached profile and the loading gate, with the token mirrored in the
    browser's persistent storage under `accessToken`. The request to `/api/user`
    is an input: its outcome is given, not performed. */
module Auth {
  import opened Values

  /** The persistent storage key that holds the token. */
  const TokenKey := "accessToken"

  /** The browser's persistent key-value storage (`localStorage`). */
  type Storage = map<string, string>

  /** The in-memory state; `JNull` stands for `null`. */
  datatype Session = Session(token: string, isAdmin: Json, userData: Json, loading: bool)

  /** The in-memory state together with the persistent storage. */
  datatype Store = Store(session: Session, storage: Storage)

  /** `isLoggedIn`: a non-empty token is held (its validity is not implied). */
  predicate IsLoggedIn(s: Session) {
    s.token != ""
  }

  /** The provider renders its children only once loading is over. */
  predicate RendersChildren(st: Store) {
    !st.session.loading
  }

  /** The persisted token agrees with the in-memory one; an absent key means "". */
  predicate Synced(st: Store) {
    if TokenKey in st.storage then st.storage[TokenKey] == st.session.token
    else st.session.token == ""
  }

  /** The logged-out state `removeTokenFromLS` leaves behind. */
  predicate LoggedOut(st: Store) {
    && st.session.token == ""
    && st.session.userData == JNull
    && st.session.isAdmin == JBool(false)
    && TokenKey !in st.storage
  }

  /** The initial state, read from persistent storage at start-up. */
  function Init(storage: Storage): (st: Store)
    ensures st.storage == storage && Synced(st)
    ensures IsLoggedIn(st.session) <==> TokenKey in storage && storage[TokenKey] != ""
    ensures st.session.userData == JNull && st.session.isAdmin == JBool(false)
    ensures !RendersChildren(st)
  {
    var token := if TokenKey in storage then storage[TokenKey] else "";
    Store(Session(token, JBool(false), JNull, true), storage)
  }

  /** `tokenBearer`: the `Authorization` header value. */
  function TokenBearer(s: Session): (h: string)
    ensures h != "" <==> IsLoggedIn(s)
    ensures h != "" ==> StartsWith(h, "Bearer ") && h[|"Bearer "|..] == s.token
  {
    if s.token != "" then "Bearer " + s.token else ""
  }

  /** `storeTokenInLS(t)`: the token is set in memory and persisted. */
  function StoreTokenInLS(st: Store, t: string): (r: Store)
    ensures r.session.token == t && TokenKey in r.storage && r.storage[TokenKey] == t
    ensures Synced(r)
    ensures IsLoggedIn(r.session) <==> t != ""
    ensures r.session == st.session.(token := t)
    ensures forall k :: k != TokenKey ==> (k in r.storage <==> k in st.storage)
    ensures forall k :: k != TokenKey && k in st.storage ==> r.storage[k] == st.storage[k]
  {
    Store(st.session.(token := t), st.storage[TokenKey := t])
  }

  /** `storeTokenInLS(undefined)`, as a registration reply without a token does:
      the in-memory token is `undefined` (falsy, so it reads as ""), while storage
      receives the text "undefined". */
  function StoreAbsentToken(st: Store): (r: Store)
    ensures !IsLoggedIn(r.session) && !Synced(r)
    ensures TokenKey in r.storage && r.storage[TokenKey] == "undefined"
  {
    Store(st.session.(token := ""), st.storage[TokenKey := "undefined"])
  }

  /** `removeTokenFromLS()`: back to the logged-out state; other storage keys and
      the loading flag are untouched. */
  function RemoveTokenFromLS(st: Store): (r: Store)
    ensures LoggedOut(r) && Synced(r) && !IsLoggedIn(r.session)
    ensures r.session.loading == st.session.loading
    ensures r.storage == st.storage - {TokenKey}
  {
    Store(Session("", JBool(false), JNull, st.session.loading), st.storage - {TokenKey})
  }

  /** `data.isAdmin || false`. */
  function AdminFlag(body: Json): (r: Json)
    ensures JsTruthy(r) || r == JBool(false)
    ensures JsTruthyOpt(Prop(body, "isAdmin")) ==> r == body.fields["isAdmin"]
    ensures !JsTruthyOpt(Prop(body, "isAdmin")) ==> r == JBool(false)
  {
    JsOr(Prop(body, "isAdmin"), JBool(false))
  }

  /** `AuthenticateUser()` given the outcome of its request. With no token no
      request is made; an ok reply caches the profile (a `null` reply is cached and
      then `null.isAdmin` throws, so the flag is kept); a non-ok reply logs out; a
      thrown error changes nothing but the loading flag. */
  function AuthenticateUser(st: Store, c: Fetched): (r: Store)
    ensures RendersChildren(r)
    ensures st.session.token == "" ==> r == st.(session := st.session.(loading := false))
    ensures st.session.token != "" && c.Answered? && !c.ok ==>
      r == RemoveTokenFromLS(st).(session := RemoveTokenFromLS(st).session.(loading := false))
    ensures c.Answered? && c.ok ==> r.session.token == st.session.token && r.storage == st.storage
    ensures st.session.token != "" && c.Answered? && c.ok ==> r.session.userData == c.body
    ensures st.session.token != "" && c.Answered? && c.ok && c.body != JNull ==>
      r.session.isAdmin == AdminFlag(c.body)
    ensures st.session.token != "" && c == Answered(true, JNull) ==> r.session.isAdmin == st.session.isAdmin
    ensures c.Threw? ==> r == st.(session := st.session.(loading := false))
  {
    var done := st.session.(loading := false);
    if st.session.token == "" then st.(session := done)
    else
      match c
      case Threw => st.(session := done)
      case Answered(ok, body) =>
        if !ok then
          var out := RemoveTokenFromLS(st);
          out.(session := out.session.(loading := false))
        else if body == JNull then st.(session := done.(userData := JNull))
        else st.(session := done.(userData := body, isAdmin := AdminFlag(body)))
  }

  /** Application start: the initial state followed by the first liveness check. */
  function Start(storage: Storage, c: Fetched): Store {
    AuthenticateUser(Init(storage), c)
  }

  /** Something that can happen to the store: `storeTokenInLS(t)` (followed by the
      liveness check its token change triggers), `removeTokenFromLS()`, or an
      explicit `AuthenticateUser()` call. */
  datatype Step = SetToken(t: string, c: Fetched) | ClearToken | Liveness(c: Fetched)

  /** One step. The effect runs on token changes only, so storing the same token
      again makes no request; a logout caused by the check changes the token to ""
      and the re-run it triggers only clears the (already clear) loading flag. */
  function Apply(st: Store, step: Step): Store {
    match step
    case SetToken(t, c) =>
      var stored := StoreTokenInLS(st, t);
      if t != st.session.token then AuthenticateUser(stored, c) else stored
    case ClearToken => RemoveTokenFromLS(st)
    case Liveness(c) => AuthenticateUser(st, c)
  }

  /** The store after a sequence of steps, first to last. */
  function Run(st: Store, steps: seq<Step>): Store
    decreases |steps|
  {
    if steps == [] then st else Run(Apply(st, steps[0]), steps[1..])
  }

  /** Removing the token twice is the same as removing it once. */
  lemma RemoveIdempotent(st: Store)
    ensures RemoveTokenFromLS(RemoveTokenFromLS(st)) == RemoveTokenFromLS(st)
  {
    assert RemoveTokenFromLS(st).storage - {TokenKey} == st.storage - {TokenKey};
  }

  /** Two liveness checks in a row with the same outcome leave the same state as one. */
  lemma AuthenticateIdempotent(st: Store, c: Fetched)
    ensures AuthenticateUser(AuthenticateUser(st, c), c) == AuthenticateUser(st, c)
  {
    var r := AuthenticateUser(st, c);
    if st.session.token != "" && c.Answered? && !c.ok {
      assert r.storage - {TokenKey} == r.storage;
    }
  }

  /** A failed request does not log out: the session survives a network error. */
  lemma NetworkFailureKeepsSession(st: Store)
    ensures IsLoggedIn(AuthenticateUser(st, Threw).session) <==> IsLoggedIn(st.session)
    ensures AuthenticateUser(st, Threw).session.userData == st.session.userData
    ensures AuthenticateUser(st, Threw).session.isAdmin == st.session.isAdmin
  {
  }

  /** A rejected token collapses the session exactly as `removeTokenFromLS` does. */
  lemma RejectionLogsOut(st: Store, body: Json)
    requires IsLoggedIn(st.session)
    ensures LoggedOut(AuthenticateUser(st, Answered(false, body)))
    ensures AuthenticateUser(st, Answered(false, body)).storage == RemoveTokenFromLS(st).storage
  {
  }

  /** Every step keeps the persisted token in agreement with the in-memory one. */
  lemma ApplyKeepsSynced(st: Store, step: Step)
    requires Synced(st)
    ensures Synced(Apply(st, step))
  {
  }

  /** Once loading is over it never starts again, whatever happens next. */
  lemma ApplyKeepsRendering(st: Store, step: Step)
    requires RendersChildren(st)
    ensures RendersChildren(Apply(st, step))
  {
  }

  /** Any run of steps keeps storage and memory in agreement. */
  lemma {:induction false} RunKeepsSynced(st: Store, steps: seq<Step>)
    requires Synced(st)
    ensures Synced(Run(st, steps))
    decreases |steps|
  {
    if steps != [] {
      ApplyKeepsSynced(st, steps[0]);
      RunKeepsSynced(Apply(st, steps[0]), steps[1..]);
    }
  }

  /** After start-up the children are rendered for good, and the persisted token
      always agrees with the in-memory one. */
  lemma {:induction false} RunAfterStart(storage: Storage, c: Fetched, steps: seq<Step>)
    ensures RendersChildren(Run(Start(storage, c), steps))
    ensures Synced(Run(Start(storage, c), steps))
    decreases |steps|
  {
    RunRenders(Start(storage, c), steps);
    RunKeepsSynced(Start(storage, c), steps);
  }

  /** Any run from a rendering state keeps rendering. */
  lemma {:induction false} RunRenders(st: Store, steps: seq<Step>)
    requires RendersChildren(st)
    ensures RendersChildren(Run(st, steps))
    decreases |steps|
  {
    if steps != [] {
      ApplyKeepsRendering(st, steps[0]);
      RunRenders(Apply(st, steps[0]), steps[1..]);
    }
  }

  /** A registration reply without a token leaves the session logged out in memory
      but persists "undefined", so the next start-up reads back a non-empty token
      and reports the user as logged in. */
  lemma AbsentTokenLooksLoggedInAfterReload(st: Store)
    ensures !IsLoggedIn(StoreAbsentToken(st).session)
    ensures IsLoggedIn(Init(StoreAbsentToken(st).storage).session)
  {
  }
}
