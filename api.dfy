/** The server process: the Redis connection `cache` that every handler
    updates in place, and the clock it reads. Each handler is a method that
    follows the Go code statement by statement and is proved to match the
    step function of module Handlers. */
module Api {
  import opened Options
  import opened Http
  import opened Users
  import opened Cache
  import opened Handlers
  import Lifecycle

  class SessionApi {
    /** The contents of the Redis cache. */
    var store: Store
    /** The current Unix second, as `time.Now()` and Redis see it. */
    var now: int

    /** The cache holds only users of `users_db`, none beyond one TTL ahead. */
    ghost predicate Valid()
      reads this
    {
      Lifecycle.Inv(Lifecycle.State(store, now))
    }

    /** A server started at second `start` against a cache that already holds
        `initial` (sessions left by an earlier run, say). `main` never clears
        the cache; the model asks only that what is there was written by this
        service: names of `users_db`, each for at most one TTL ahead. */
    constructor (initial: Store, start: int)
      requires Lifecycle.Inv(Lifecycle.State(initial, start))
      ensures Valid() && store == initial && now == start
    {
      store := initial;
      now := start;
    }

    /** The clock moves on; Redis drops keys by itself, which reads treat as absent. */
    method Advance(seconds: nat)
      requires Valid()
      modifies this
      ensures Valid() && store == old(store) && now == old(now) + seconds
    {
      now := now + seconds;
    }

    /** `ResponseSession(w, username)`: mints an identifier, `SETEX`es it for
        120 seconds and writes the session, or a 500 at the first failing step. */
    method ResponseSession(username: string, mint: Mint) returns (reply: Reply)
      requires Valid() && username in UsersDb
      modifies this
      ensures Valid() && now == old(now)
      ensures Outcome(store, [reply]) == SessionStep(old(store), now, username, mint)
    {
      var exp := now + Ttl;
      var hostname := Origin(mint.hostname);
      if mint.uuid.None? {
        reply := ResponseMessage(StatusInternalServerError, InternalError);
        return;
      }
      var sessionID := mint.uuid.value;
      if !mint.setexOk {
        reply := ResponseMessage(StatusInternalServerError, InternalError);
        return;
      }
      store := Setex(store, now, sessionID, Ttl, username);
      if !mint.marshalOk {
        reply := ResponseMessage(StatusInternalServerError, InternalError);
        return;
      }
      reply := Reply(StatusCreated, SessionJson(Session(sessionID, exp, hostname)));
    }

    /** `Login`: method check, body check, password check, then `ResponseSession`. */
    method Login(httpMethod: string, creds: Option<Credentials>, mint: Mint) returns (replies: seq<Reply>)
      requires Valid()
      modifies this
      ensures Valid() && now == old(now)
      ensures Outcome(store, replies) == LoginStep(old(store), now, httpMethod, creds, mint)
    {
      if httpMethod != MethodPost {
        replies := [ResponseMessage(StatusBadRequest, WrongMethod)];
        return;
      }
      if creds.None? {
        replies := [ResponseMessage(StatusBadRequest, BadBody)];
        return;
      }
      var c := creds.value;
      if !Verify(c) {
        replies := [ResponseMessage(StatusUnauthorized, WrongCredentials)];
        return;
      }
      var reply := ResponseSession(c.username, mint);
      replies := [reply];
    }

    /** `Profile`: reads the cache and changes nothing, so it has no `modifies`
        clause; it greets the user exactly when the presented ID is live. */
    method Profile(httpMethod: string, sessionID: string, getOk: bool) returns (replies: seq<Reply>)
      ensures Outcome(store, replies) == ProfileStep(store, now, httpMethod, sessionID, getOk)
      ensures |replies| == 1
      ensures replies[0].code == StatusOK <==>
        httpMethod == MethodGet && sessionID != "" && getOk && sessionID in store && now < store[sessionID].expiry
      ensures replies[0].code == StatusOK ==> replies[0] == ResponseMessage(StatusOK, Greeting(store[sessionID].user))
    {
      if httpMethod != MethodGet {
        replies := [ResponseMessage(StatusBadRequest, WrongMethod)];
        return;
      }
      if sessionID == "" {
        replies := [ResponseMessage(StatusUnauthorized, LoginRequired)];
        return;
      }
      if !getOk {
        replies := [ResponseMessage(StatusInternalServerError, InternalError)];
        return;
      }
      var redisResponse := Lookup(store, now, sessionID);
      if redisResponse.None? {
        replies := [ResponseMessage(StatusUnauthorized, LoginRequired)];
        return;
      }
      replies := [ResponseMessage(StatusOK, Greeting(redisResponse.value))];
    }

    /** `Refresh`, as written: `GET` the old ID, `ResponseSession` for its user,
        then `DEL` the old ID whatever `ResponseSession` did, and write a second
        reply, a 500, when the `DEL` fails. */
    method Refresh(httpMethod: string, sessionID: string, getOk: bool, mint: Mint, delOk: bool)
      returns (replies: seq<Reply>)
      requires Valid()
      modifies this
      ensures Valid() && now == old(now)
      ensures Outcome(store, replies) == RefreshStep(old(store), now, httpMethod, sessionID, getOk, mint, delOk)
    {
      if httpMethod != MethodPost {
        replies := [Reply(StatusBadRequest, Json(BadMethodText))];
        return;
      }
      if sessionID == "" {
        replies := [ResponseMessage(StatusUnauthorized, LoginRequired)];
        return;
      }
      var redisResponse := Lookup(store, now, sessionID);
      if !getOk {
        replies := [ResponseMessage(StatusInternalServerError, InternalError)];
        return;
      }
      if redisResponse.None? {
        replies := [ResponseMessage(StatusUnauthorized, SessionExpired)];
        return;
      }
      var reply := ResponseSession(redisResponse.value, mint);
      replies := [reply];
      if !delOk {
        replies := replies + [ResponseMessage(StatusInternalServerError, InternalError)];
        return;
      }
      store := Del(store, sessionID);
    }
  }
}
