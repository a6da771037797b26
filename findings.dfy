/** Two defects of `Refresh` as written, each shown on the as-written model,
    and a corrected rotation with the property the design promises proved. */
module Findings {
  import opened Options
  import opened Http
  import opened Cache
  import opened Handlers

  /** After a rotation attempt on `presented` (bound to `user`), the client
      holds a live session for `user`: the one it presented, or the one the
      first reply handed it. */
  predicate HoldsSession(o: Outcome, now: int, user: string, presented: string)
  {
    || Lookup(o.store, now, presented) == Some(user)
    || (&& |o.replies| > 0
        && o.replies[0].code == StatusCreated
        && o.replies[0].body.SessionJson?
        && Lookup(o.store, now, o.replies[0].body.session.sessionID) == Some(user))
  }

  /** As written, rotation fails open: when `ResponseSession` fails at any
      step (identifier, `SETEX` or encoding), `Refresh` still deletes the old
      ID, and the client is left with no session at all. */
  lemma RefreshLosesSessionOnFailedIssue(store: Store, now: int, sessionID: string, mint: Mint)
    requires sessionID != "" && Lookup(store, now, sessionID).Some?
    requires !(mint.uuid.Some? && mint.setexOk && mint.marshalOk)
    ensures var o := RefreshStep(store, now, MethodPost, sessionID, true, mint, true);
      && o.replies == [ResponseMessage(StatusInternalServerError, InternalError)]
      && !HoldsSession(o, now, Lookup(store, now, sessionID).value, sessionID)
  {
  }

  /** As written, a failing `DEL` after a successful issue writes a second
      reply, a 500, after the 201 that already carries the new session. */
  lemma RefreshRepliesTwiceOnFailedDel(store: Store, now: int, sessionID: string, mint: Mint)
    requires sessionID != "" && Lookup(store, now, sessionID).Some?
    requires mint.uuid.Some? && mint.setexOk && mint.marshalOk
    ensures var o := RefreshStep(store, now, MethodPost, sessionID, true, mint, false);
      && |o.replies| == 2
      && o.replies[0].code == StatusCreated
      && o.replies[1] == ResponseMessage(StatusInternalServerError, InternalError)
  {
  }

  /** `Refresh` as evidently intended: the old ID is deleted only once the
      client has been sent its new session, and a failing `DEL` is tolerated
      silently (the old ID lingers until its own expiry). */
  function RefreshFailSafeStep(store: Store, now: int, httpMethod: string, sessionID: string,
                               getOk: bool, mint: Mint, delOk: bool): (o: Outcome)
    ensures |o.replies| == 1
    ensures o.store - ({sessionID} + MintedKeys(mint)) == store - ({sessionID} + MintedKeys(mint))
    ensures sessionID in store && sessionID !in o.store ==> o.replies[0].code == StatusCreated
  {
    if httpMethod != MethodPost then
      Outcome(store, [Reply(StatusBadRequest, Json(BadMethodText))])
    else if sessionID == "" then
      Outcome(store, [ResponseMessage(StatusUnauthorized, LoginRequired)])
    else if !getOk then
      Outcome(store, [ResponseMessage(StatusInternalServerError, InternalError)])
    else
      match Lookup(store, now, sessionID)
      case None => Outcome(store, [ResponseMessage(StatusUnauthorized, SessionExpired)])
      case Some(user) =>
        var issued := SessionStep(store, now, user, mint);
        if issued.replies[0].code == StatusCreated && delOk then
          Outcome(Del(issued.store, sessionID), issued.replies)
        else
          issued
  }

  /** The corrected rotation is fail-safe: whatever fails, the client of a
      live session still holds a live session for the same user afterwards,
      and it leaves the presented ID valid whenever it did not answer 201. */
  lemma FailSafeRefreshKeepsSession(store: Store, now: int, sessionID: string, mint: Mint, delOk: bool)
    requires sessionID != "" && Lookup(store, now, sessionID).Some?
    requires mint.uuid.Some? ==> mint.uuid.value !in store
    ensures var o := RefreshFailSafeStep(store, now, MethodPost, sessionID, true, mint, delOk);
      var user := Lookup(store, now, sessionID).value;
      && HoldsSession(o, now, user, sessionID)
      && (o.replies[0].code != StatusCreated ==> Lookup(o.store, now, sessionID) == Some(user))
  {
    var user := Lookup(store, now, sessionID).value;
    var issued := SessionStep(store, now, user, mint);
    if issued.replies[0].code == StatusCreated {
      var n := mint.uuid.value;
      assert n != sessionID;
      assert Lookup(issued.store, now, n) == Some(user);
    } else {
      assert sessionID in store - MintedKeys(mint);
    }
  }

  /** The corrected rotation tolerates a failing `DEL`: after a successful
      issue it writes the single 201, and the old ID stays live with its user
      until its own expiry. */
  lemma FailSafeRefreshToleratesFailedDel(store: Store, now: int, sessionID: string, mint: Mint)
    requires sessionID != "" && Lookup(store, now, sessionID).Some?
    requires mint.uuid.Some? && mint.setexOk && mint.marshalOk
    requires mint.uuid.value !in store
    ensures var o := RefreshFailSafeStep(store, now, MethodPost, sessionID, true, mint, false);
      && o.replies == [Reply(StatusCreated, SessionJson(Session(mint.uuid.value, now + Ttl, Origin(mint.hostname))))]
      && Lookup(o.store, now, sessionID) == Lookup(store, now, sessionID)
      && Lookup(o.store, now, mint.uuid.value) == Lookup(store, now, sessionID)
  {
    assert sessionID != mint.uuid.value;
  }
}
