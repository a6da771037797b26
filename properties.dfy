/** What each handler promises for one request, stated over all inputs. */
module HandlerProperties {
  import opened Options
  import opened Http
  import opened Users
  import opened Cache
  import opened Handlers

  /** A `Login` that is not a POST, or whose body does not decode, is a 400
      and leaves the cache alone. */
  lemma LoginRejectsBadRequest(store: Store, now: int, httpMethod: string, creds: Option<Credentials>, mint: Mint)
    ensures httpMethod != MethodPost ==>
      LoginStep(store, now, httpMethod, creds, mint) == Outcome(store, [ResponseMessage(StatusBadRequest, WrongMethod)])
    ensures httpMethod == MethodPost && creds.None? ==>
      LoginStep(store, now, httpMethod, creds, mint) == Outcome(store, [ResponseMessage(StatusBadRequest, BadBody)])
  {
  }

  /** Credentials that do not match `users_db` give one and the same outcome,
      whether the user is unknown or the password is wrong: a 401 and no cache write. */
  lemma LoginRejectsWrongCredentials(store: Store, now: int, creds: Credentials, mint: Mint)
    requires !Verify(creds)
    ensures LoginStep(store, now, MethodPost, Some(creds), mint)
         == Outcome(store, [ResponseMessage(StatusUnauthorized, WrongCredentials)])
  {
  }

  /** A `Login` with matching credentials and working collaborators adds exactly
      one entry, the fresh identifier mapped to the user until `now + 120`, and
      answers 201 with that same expiration. No other key changes. */
  lemma LoginIssuesSession(store: Store, now: int, creds: Credentials, mint: Mint)
    requires Verify(creds)
    requires mint.uuid.Some? && mint.setexOk && mint.marshalOk
    requires mint.uuid.value !in store
    ensures var o := LoginStep(store, now, MethodPost, Some(creds), mint);
      && o.store == store[mint.uuid.value := Entry(creds.username, now + Ttl)]
      && o.store.Keys == store.Keys + {mint.uuid.value}
      && |o.store| == |store| + 1
      && o.replies == [Reply(StatusCreated, SessionJson(Session(mint.uuid.value, now + Ttl, Origin(mint.hostname))))]
  {
  }

  /** `Profile` answers 200 "Hi <user>!" exactly when a GET presents an ID that
      maps, unexpired, to that user; 401 when the ID is empty, absent or
      expired; 500 when the cache fails; 400 for any other method. */
  lemma ProfileAnswers(store: Store, now: int, httpMethod: string, sessionID: string, getOk: bool)
    ensures var r := ProfileStep(store, now, httpMethod, sessionID, getOk).replies[0];
      && (httpMethod != MethodGet <==> r == ResponseMessage(StatusBadRequest, WrongMethod))
      && (r.code == StatusOK <==>
            httpMethod == MethodGet && sessionID != "" && getOk && Lookup(store, now, sessionID).Some?)
      && (r.code == StatusOK ==> r == ResponseMessage(StatusOK, Greeting(Lookup(store, now, sessionID).value)))
      && (r == ResponseMessage(StatusUnauthorized, LoginRequired) <==>
            httpMethod == MethodGet && (sessionID == "" || (getOk && Lookup(store, now, sessionID).None?)))
      && (r == ResponseMessage(StatusInternalServerError, InternalError) <==>
            httpMethod == MethodGet && sessionID != "" && !getOk)
  {
  }

  /** `Refresh` with a wrong method, an empty header, a failing `GET` or an ID
      that is absent or expired writes one reply and leaves the cache alone. */
  lemma RefreshRejects(store: Store, now: int, httpMethod: string, sessionID: string, getOk: bool, mint: Mint, delOk: bool)
    ensures httpMethod != MethodPost ==>
      RefreshStep(store, now, httpMethod, sessionID, getOk, mint, delOk)
        == Outcome(store, [Reply(StatusBadRequest, Json(BadMethodText))])
    ensures httpMethod == MethodPost && sessionID == "" ==>
      RefreshStep(store, now, httpMethod, sessionID, getOk, mint, delOk)
        == Outcome(store, [ResponseMessage(StatusUnauthorized, LoginRequired)])
    ensures httpMethod == MethodPost && sessionID != "" && !getOk ==>
      RefreshStep(store, now, httpMethod, sessionID, getOk, mint, delOk)
        == Outcome(store, [ResponseMessage(StatusInternalServerError, InternalError)])
    ensures httpMethod == MethodPost && sessionID != "" && getOk && Lookup(store, now, sessionID).None? ==>
      RefreshStep(store, now, httpMethod, sessionID, getOk, mint, delOk)
        == Outcome(store, [ResponseMessage(StatusUnauthorized, SessionExpired)])
  {
  }

  /** A successful `Refresh` of a live ID `oldID` mapped to `u`, with a fresh
      identifier `n`: `n` maps to `u` for a full new TTL, `oldID` is gone, no
      other key changes, and the one reply is the new session. */
  lemma RefreshRotates(store: Store, now: int, oldID: string, mint: Mint)
    requires oldID != "" && Lookup(store, now, oldID).Some?
    requires mint.uuid.Some? && mint.setexOk && mint.marshalOk
    requires mint.uuid.value !in store
    ensures var o := RefreshStep(store, now, MethodPost, oldID, true, mint, true);
      var n, u := mint.uuid.value, Lookup(store, now, oldID).value;
      && n != oldID
      && (forall t :: now <= t < now + Ttl ==> Lookup(o.store, t, n) == Some(u))
      && (forall t :: Lookup(o.store, t, oldID) == None)
      && o.store - {oldID, n} == store - {oldID, n}
      && o.store.Keys == store.Keys - {oldID} + {n}
      && o.replies == [Reply(StatusCreated, SessionJson(Session(n, now + Ttl, Origin(mint.hostname))))]
  {
    var n := mint.uuid.value;
    var issued := SessionStep(store, now, Lookup(store, now, oldID).value, mint);
    assert issued.store == store[n := Entry(Lookup(store, now, oldID).value, now + Ttl)];
  }

  /** Issuing then validating: the ID a successful `Login` returns greets the
      same user on `Profile` at every second before the expiration it came
      with, and is refused from that second on, however often it was used. */
  lemma IssueThenValidate(store: Store, now: int, creds: Credentials, mint: Mint, t: int)
    requires Verify(creds)
    requires mint.uuid.Some? && mint.setexOk && mint.marshalOk && mint.uuid.value != ""
    ensures var o := LoginStep(store, now, MethodPost, Some(creds), mint);
      var p := ProfileStep(o.store, t, MethodGet, mint.uuid.value, true);
      && o.replies[0].body.SessionJson?
      && (now <= t < o.replies[0].body.session.expiration ==>
            p.replies == [ResponseMessage(StatusOK, Greeting(creds.username))])
      && (o.replies[0].body.session.expiration <= t ==>
            p.replies == [ResponseMessage(StatusUnauthorized, LoginRequired)])
  {
  }

  /** Rotation keeps the user and changes the identifier: after a successful
      `Refresh`, `Profile` refuses the oldID ID and greets the same user under
      the new one until the new expiration. */
  lemma RotateThenValidate(store: Store, now: int, oldID: string, mint: Mint, t: int)
    requires oldID != "" && Lookup(store, now, oldID).Some?
    requires mint.uuid.Some? && mint.setexOk && mint.marshalOk
    requires mint.uuid.value !in store && mint.uuid.value != ""
    requires now <= t < now + Ttl
    ensures var o := RefreshStep(store, now, MethodPost, oldID, true, mint, true);
      && ProfileStep(o.store, t, MethodGet, oldID, true).replies
           == [ResponseMessage(StatusUnauthorized, LoginRequired)]
      && ProfileStep(o.store, t, MethodGet, mint.uuid.value, true).replies
           == [ResponseMessage(StatusOK, Greeting(Lookup(store, now, oldID).value))]
  {
    RefreshRotates(store, now, oldID, mint);
  }
}
