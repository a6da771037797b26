/** The three HTTP handlers and `ResponseSession`, as functions from the cache
    contents, the clock and everything the handler learns from outside the
    process to the new cache contents and the replies written, in order. */
module Handlers {
  import opened Options
  import opened Http
  import opened Users
  import opened Cache

  /** What `ResponseSession` learns from outside the process: the identifier
      `uuid.NewV4` produced (None when it failed), the result of `os.Hostname`
      (None when it failed), whether the `SETEX` succeeded and whether
      `json.Marshal` succeeded. */
  datatype Mint = Mint(uuid: Option<string>, hostname: Option<string>, setexOk: bool, marshalOk: bool)

  /** The cache after a request and the replies written, in the order written. */
  datatype Outcome = Outcome(store: Store, replies: seq<Reply>)

  const WrongMethod := "Wrong HTTP method"
  const BadBody := "Bad JSON body"
  const WrongCredentials := "Wrong user or password"
  const LoginRequired := "You need to login to get a SessionID"
  const SessionExpired := "SessionID expired, please login"
  const InternalError := "Internal Server Error"
  const NoHostName := "NoHostName"
  /** The body `Refresh` writes by hand for a wrong method. */
  const BadMethodText := "{\"message\": \"Bad method\"}"

  function Greeting(user: string): string
  {
    "Hi " + user + "!"
  }

  function Origin(hostname: Option<string>): string
  {
    if hostname.Some? then hostname.value else NoHostName
  }

  /** The identifier `mint` would store, if it produced one. */
  function MintedKeys(mint: Mint): set<string>
  {
    if mint.uuid.Some? then {mint.uuid.value} else {}
  }

  /** `ResponseSession(w, username)` at second `now`. Exactly one reply. A 201
      is written only when every outside step succeeded, and then the session
      the client receives is valid in the cache for exactly the seconds up to
      the expiration it is told. The cache changes at most under the minted
      identifier, and only once `SETEX` succeeded (even if encoding fails later). */
  function SessionStep(store: Store, now: int, username: string, mint: Mint): (o: Outcome)
    ensures |o.replies| == 1
    ensures o.replies[0].code == StatusCreated <==> mint.uuid.Some? && mint.setexOk && mint.marshalOk
    ensures o.replies[0].code != StatusCreated ==> o.replies[0] == ResponseMessage(StatusInternalServerError, InternalError)
    ensures o.replies[0].code == StatusCreated ==>
      && o.replies[0].body.SessionJson?
      && var s := o.replies[0].body.session;
         && s == Session(mint.uuid.value, now + Ttl, Origin(mint.hostname))
         && (forall t :: now <= t < s.expiration ==> Lookup(o.store, t, s.sessionID) == Some(username))
         && (forall t :: s.expiration <= t ==> Lookup(o.store, t, s.sessionID) == None)
    ensures o.store - MintedKeys(mint) == store - MintedKeys(mint)
    ensures o.store != store ==> mint.uuid.Some? && mint.setexOk
  {
    var exp := now + Ttl;
    var origin := Origin(mint.hostname);
    if mint.uuid.None? then
      Outcome(store, [ResponseMessage(StatusInternalServerError, InternalError)])
    else
      var sessionID := mint.uuid.value;
      if !mint.setexOk then
        Outcome(store, [ResponseMessage(StatusInternalServerError, InternalError)])
      else
        var stored := Setex(store, now, sessionID, Ttl, username);
        if !mint.marshalOk then
          Outcome(stored, [ResponseMessage(StatusInternalServerError, InternalError)])
        else
          Outcome(stored, [Reply(StatusCreated, SessionJson(Session(sessionID, exp, origin)))])
  }

  /** `Login`: exactly one reply; a session is issued only for credentials
      that match `users_db`, and the cache changes at most under the minted
      identifier. */
  function LoginStep(store: Store, now: int, httpMethod: string, creds: Option<Credentials>, mint: Mint): (o: Outcome)
    ensures |o.replies| == 1
    ensures o.replies[0].code == StatusCreated ==> creds.Some? && Verify(creds.value)
    ensures o.store != store ==> httpMethod == MethodPost && creds.Some? && Verify(creds.value)
    ensures o.store - MintedKeys(mint) == store - MintedKeys(mint)
  {
    if httpMethod != MethodPost then
      Outcome(store, [ResponseMessage(StatusBadRequest, WrongMethod)])
    else if creds.None? then
      Outcome(store, [ResponseMessage(StatusBadRequest, BadBody)])
    else if !Verify(creds.value) then
      Outcome(store, [ResponseMessage(StatusUnauthorized, WrongCredentials)])
    else
      SessionStep(store, now, creds.value.username, mint)
  }

  /** `Profile`: never changes the cache, and writes exactly one reply. */
  function ProfileStep(store: Store, now: int, httpMethod: string, sessionID: string, getOk: bool): (o: Outcome)
    ensures o.store == store
    ensures |o.replies| == 1
  {
    if httpMethod != MethodGet then
      Outcome(store, [ResponseMessage(StatusBadRequest, WrongMethod)])
    else if sessionID == "" then
      Outcome(store, [ResponseMessage(StatusUnauthorized, LoginRequired)])
    else if !getOk then
      Outcome(store, [ResponseMessage(StatusInternalServerError, InternalError)])
    else
      match Lookup(store, now, sessionID)
      case None => Outcome(store, [ResponseMessage(StatusUnauthorized, LoginRequired)])
      case Some(user) => Outcome(store, [ResponseMessage(StatusOK, Greeting(user))])
  }

  /** `Refresh`, as written: after a successful `GET` it runs `ResponseSession`
      and then `DEL`s the presented ID whatever `ResponseSession` wrote; a
      failing `DEL` appends a 500 after it. Only the presented and the minted
      identifiers can change. */
  function RefreshStep(store: Store, now: int, httpMethod: string, sessionID: string,
                       getOk: bool, mint: Mint, delOk: bool): (o: Outcome)
    ensures 1 <= |o.replies| <= 2
    ensures |o.replies| == 2 ==> !delOk && o.replies[1] == ResponseMessage(StatusInternalServerError, InternalError)
    ensures o.store - ({sessionID} + MintedKeys(mint)) == store - ({sessionID} + MintedKeys(mint))
  {
    if httpMethod != MethodPost then
      Outcome(store, [Reply(StatusBadRequest, Json(BadMethodText))])
    else if sessionID == "" then
      Outcome(store, [ResponseMessage(StatusUnauthorized, LoginRequired)])
    else if !getOk then
      Outcome(store, [ResponseMessage(StatusInternalServerError, InternalError)])
    else
      match Lookup(store, now, sessionID)
      case None => Outcome(store, [ResponseMessage(StatusUnauthorized, SessionExpired)])
      case Some(user) =>
        var issued := SessionStep(store, now, user, mint);
        if delOk then
          Outcome(Del(issued.store, sessionID), issued.replies)
        else
          Outcome(issued.store, issued.replies + [ResponseMessage(StatusInternalServerError, InternalError)])
  }
}
