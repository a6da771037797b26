/** Concrete request sequences, mostly against a cache that starts empty. */
module Scenarios {
  import opened Options
  import opened Http
  import opened Users
  import opened Cache
  import opened Handlers

  const Host := Some("api-1")

  /** Hugo logs in with the right password and is greeted on `Profile`. */
  lemma HugoLogsInAndIsGreeted()
    ensures var login := LoginStep(map[], 1000, MethodPost, Some(Credentials("Hugo", "Hugo123")), Mint(Some("6ba7b810"), Host, true, true));
      && login.replies == [Reply(StatusCreated, SessionJson(Session("6ba7b810", 1120, "api-1")))]
      && ProfileStep(login.store, 1000, MethodGet, "6ba7b810", true).replies
           == [Reply(StatusOK, Json("{\"message\": \"Hi Hugo!\"}"))]
  {
    assert "Hugo" in UsersDb;
    assert Greeting("Hugo") == "Hi Hugo!";
    assert MessageBody("Hi Hugo!") == "{\"message\": \"Hi Hugo!\"}";
  }

  /** A wrong password is a 401 and stores nothing. */
  lemma WrongPasswordIsRefused(store: Store, now: int)
    ensures LoginStep(store, now, MethodPost, Some(Credentials("Hugo", "wrong")), Mint(Some("6ba7b810"), Host, true, true))
         == Outcome(store, [ResponseMessage(StatusUnauthorized, "Wrong user or password")])
  {
    assert UsersDb["Hugo"] == "Hugo123" != "wrong";
  }

  /** An empty `SessionID` header is a 401 before the cache is asked. */
  lemma EmptyHeaderIsRefused(store: Store, now: int, getOk: bool)
    ensures ProfileStep(store, now, MethodGet, "", getOk).replies
         == [ResponseMessage(StatusUnauthorized, "You need to login to get a SessionID")]
  {
  }

  /** Paco refreshes: the new ID is greeted, the old one is refused. */
  lemma RefreshMovesPacoToNewId()
    ensures var start := map["old-id" := Entry("Paco", 1100)];
      var r := RefreshStep(start, 1000, MethodPost, "old-id", true, Mint(Some("new-id"), Host, true, true), true);
      && r.replies == [Reply(StatusCreated, SessionJson(Session("new-id", 1120, "api-1")))]
      && ProfileStep(r.store, 1001, MethodGet, "old-id", true).replies
           == [ResponseMessage(StatusUnauthorized, LoginRequired)]
      && ProfileStep(r.store, 1001, MethodGet, "new-id", true).replies
           == [ResponseMessage(StatusOK, "Hi Paco!")]
  {
    var start := map["old-id" := Entry("Paco", 1100)];
    assert "new-id" != "old-id";
    var issued := SessionStep(start, 1000, "Paco", Mint(Some("new-id"), Host, true, true));
    assert issued.store == start["new-id" := Entry("Paco", 1120)];
    assert Greeting("Paco") == "Hi Paco!";
  }

  /** `Profile` wants GET and `Refresh` wants POST; either way round is a 400. */
  lemma WrongMethodsAreRefused(store: Store, now: int, sessionID: string, mint: Mint)
    ensures ProfileStep(store, now, MethodPost, sessionID, true).replies[0].code == StatusBadRequest
    ensures RefreshStep(store, now, MethodGet, sessionID, true, mint, true)
         == Outcome(store, [Reply(StatusBadRequest, Json("{\"message\": \"Bad method\"}"))])
  {
  }
}
