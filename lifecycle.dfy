/** The server over time: any sequence of requests and clock ticks, and what
    holds of the cache across all of them. */
module Lifecycle {
  import opened Options
  import opened Http
  import opened Users
  import opened Cache
  import opened Handlers

  datatype State = State(store: Store, now: int)

  /** One thing that can happen to the server: the clock moves on, or a
      request arrives together with everything its handler learns from outside. */
  datatype Event =
    | Advance(seconds: nat)
    | LoginCall(httpMethod: string, creds: Option<Credentials>, mint: Mint)
    | ProfileCall(httpMethod: string, sessionID: string, getOk: bool)
    | RefreshCall(httpMethod: string, sessionID: string, getOk: bool, mint: Mint, delOk: bool)

  /** The replies the handler of `e` writes in state `s`. */
  function Replies(s: State, e: Event): seq<Reply>
  {
    match e
    case Advance(_) => []
    case LoginCall(m, c, mint) => LoginStep(s.store, s.now, m, c, mint).replies
    case ProfileCall(m, id, ok) => ProfileStep(s.store, s.now, m, id, ok).replies
    case RefreshCall(m, id, ok, mint, delOk) => RefreshStep(s.store, s.now, m, id, ok, mint, delOk).replies
  }

  function Step(s: State, e: Event): (s': State)
    ensures s'.now >= s.now
  {
    match e
    case Advance(seconds) => State(s.store, s.now + seconds)
    case LoginCall(m, c, mint) => State(LoginStep(s.store, s.now, m, c, mint).store, s.now)
    case ProfileCall(m, id, ok) => State(ProfileStep(s.store, s.now, m, id, ok).store, s.now)
    case RefreshCall(m, id, ok, mint, delOk) => State(RefreshStep(s.store, s.now, m, id, ok, mint, delOk).store, s.now)
  }

  /** The state after `evs`, in order. The clock never goes back. */
  function Run(s: State, evs: seq<Event>): (s': State)
    ensures s'.now >= s.now
    decreases |evs|
  {
    if evs == [] then s else Run(Step(s, evs[0]), evs[1..])
  }

  /** The identifiers `e` asks `uuid.NewV4` for. */
  function Minted(e: Event): set<string>
  {
    match e
    case LoginCall(_, _, mint) => MintedKeys(mint)
    case RefreshCall(_, _, _, mint, _) => MintedKeys(mint)
    case _ => {}
  }

  /** Every identifier minted along `evs` is new: not among `seen`, the
      identifiers used before, nor any minted earlier in `evs`. This is what
      a random 128-bit identifier is relied on for. */
  ghost predicate MintsFresh(s: State, evs: seq<Event>, seen: set<string>)
    decreases |evs|
  {
    evs == [] ||
    (Minted(evs[0]) !! seen && MintsFresh(Step(s, evs[0]), evs[1..], seen + Minted(evs[0])))
  }

  /** The cache only ever holds users of `users_db`, and no session outlives
      one TTL from the present. */
  ghost predicate Inv(s: State)
  {
    forall k :: k in s.store ==> s.store[k].user in UsersDb && s.store[k].expiry <= s.now + Ttl
  }

  lemma StepPreservesInv(s: State, e: Event)
    requires Inv(s)
    ensures Inv(Step(s, e))
  {
    match e
    case Advance(_) =>
    case LoginCall(m, c, mint) =>
    case ProfileCall(m, id, ok) =>
    case RefreshCall(m, id, ok, mint, delOk) =>
      var o := RefreshStep(s.store, s.now, m, id, ok, mint, delOk);
      forall k | k in o.store ensures o.store[k].user in UsersDb && o.store[k].expiry <= s.now + Ttl {
        if k !in MintedKeys(mint) && k != id {
          assert k in o.store - ({id} + MintedKeys(mint));
        }
      }
  }

  /** Across any sequence of requests and ticks the cache holds only users of
      `users_db`, each for at most one TTL ahead of the clock. */
  lemma {:induction false} RunPreservesInv(s: State, evs: seq<Event>)
    requires Inv(s)
    ensures Inv(Run(s, evs))
    decreases |evs|
  {
    if evs != [] {
      StepPreservesInv(s, evs[0]);
      RunPreservesInv(Step(s, evs[0]), evs[1..]);
    }
  }

  /** One step rewrites no identifier used before it: an old key is either
      kept as it was or deleted, and the only new key is a minted one. */
  lemma StepKeepsEntries(s: State, e: Event, seen: set<string>)
    requires s.store.Keys <= seen && Minted(e) !! seen
    ensures Step(s, e).store.Keys <= seen + Minted(e)
    ensures forall k :: k in seen && k in Step(s, e).store ==> k in s.store && Step(s, e).store[k] == s.store[k]
  {
    var s' := Step(s, e);
    match e
    case Advance(_) =>
    case ProfileCall(_, _, _) =>
    case LoginCall(m, c, mint) =>
      forall k | k in seen && k in s'.store ensures k in s.store && s'.store[k] == s.store[k] {
        assert k in s'.store - MintedKeys(mint);
      }
    case RefreshCall(m, id, ok, mint, delOk) =>
      forall k | k in seen && k in s'.store ensures k in s.store && s'.store[k] == s.store[k] {
        if k != id {
          assert k in s'.store - ({id} + MintedKeys(mint));
        } else {
          assert RefreshStep(s.store, s.now, m, id, ok, mint, delOk).store == s.store || Lookup(s.store, s.now, id).Some?;
        }
      }
  }

  /** No identifier is ever extended or reassigned: along any sequence with
      fresh identifiers, a key known at the start that is still present at the
      end holds the entry, user and expiry, it held at the start. */
  lemma {:induction false} RunKeepsEntries(s: State, evs: seq<Event>, seen: set<string>)
    requires s.store.Keys <= seen && MintsFresh(s, evs, seen)
    ensures forall k :: k in seen && k in Run(s, evs).store ==> k in s.store && Run(s, evs).store[k] == s.store[k]
    decreases |evs|
  {
    if evs != [] {
      StepKeepsEntries(s, evs[0], seen);
      RunKeepsEntries(Step(s, evs[0]), evs[1..], seen + Minted(evs[0]));
    }
  }

  /** Absent stays absent: an identifier in use before (`seen`) that is
      deleted or expired never validates again, whatever requests follow.
      In particular no request slides a session's expiry forward. */
  lemma NeverResurrected(s: State, evs: seq<Event>, seen: set<string>, id: string)
    requires s.store.Keys <= seen && MintsFresh(s, evs, seen)
    requires id in seen && Lookup(s.store, s.now, id).None?
    ensures Lookup(Run(s, evs).store, Run(s, evs).now, id).None?
  {
    RunKeepsEntries(s, evs, seen);
  }

  /** A session alive at the start stays bound to its user and lapses at its
      original expiry: after that second, no sequence of requests revives it. */
  lemma ExpiresOnTime(s: State, evs: seq<Event>, seen: set<string>, id: string)
    requires s.store.Keys <= seen && MintsFresh(s, evs, seen)
    requires id in s.store
    ensures var f := Run(s, evs);
      && (Lookup(f.store, f.now, id).Some? ==> Lookup(f.store, f.now, id).value == s.store[id].user)
      && (f.now >= s.store[id].expiry ==> Lookup(f.store, f.now, id).None?)
  {
    RunKeepsEntries(s, evs, seen);
  }

  /** All user names of `users_db` need no escaping. */
  lemma UsersAreJsonSafe(user: string)
    requires user in UsersDb
    ensures JsonSafe(user)
  {
    assert user == "Hugo" || user == "Paco" || user == "Luis";
  }

  lemma SafeMessageIsWellFormed(message: string)
    requires JsonSafe(message)
    ensures WellFormedMessage(MessageBody(message))
  {
    MessageBodyRoundTrip(message);
  }

  /** The fixed messages of the handlers need no escaping (three lemmas, to
      keep each proof over string literals small). */
  lemma RejectionMessagesAreWellFormed()
    ensures WellFormedMessage(MessageBody(WrongMethod)) && WellFormedMessage(MessageBody(BadBody))
    ensures WellFormedMessage(MessageBody(WrongCredentials)) && WellFormedMessage(BadMethodText)
  {
    assert JsonSafe(WrongMethod) && JsonSafe(BadBody) && JsonSafe(WrongCredentials) && JsonSafe("Bad method");
    SafeMessageIsWellFormed(WrongMethod);
    SafeMessageIsWellFormed(BadBody);
    SafeMessageIsWellFormed(WrongCredentials);
    SafeMessageIsWellFormed("Bad method");
    assert MessageBody("Bad method") == BadMethodText;
  }

  lemma LoginRequiredIsWellFormed()
    ensures WellFormedMessage(MessageBody(LoginRequired))
  {
    assert JsonSafe(LoginRequired);
    SafeMessageIsWellFormed(LoginRequired);
  }

  lemma FailureMessagesAreWellFormed()
    ensures WellFormedMessage(MessageBody(SessionExpired)) && WellFormedMessage(MessageBody(InternalError))
  {
    assert JsonSafe(SessionExpired);
    SafeMessageIsWellFormed(SessionExpired);
    assert JsonSafe(InternalError);
    SafeMessageIsWellFormed(InternalError);
  }

  /** A greeting for a user of `users_db` is a well-formed body. */
  lemma GreetingIsWellFormed(user: string)
    requires user in UsersDb
    ensures WellFormedMessage(MessageBody(Greeting(user)))
  {
    UsersAreJsonSafe(user);
    JsonSafeConcat("Hi ", user);
    JsonSafeConcat("Hi " + user, "!");
    SafeMessageIsWellFormed(Greeting(user));
  }

  /** Every message body a handler writes is well-formed JSON, although
      `ResponseMessage` escapes nothing: the only variable text is a user name
      read back from the cache, and the cache holds only names of `users_db`. */
  lemma RepliesAreWellFormed(s: State, e: Event)
    requires Inv(s)
    ensures forall r :: r in Replies(s, e) && r.body.Json? ==> WellFormedMessage(r.body.text)
  {
    RejectionMessagesAreWellFormed();
    LoginRequiredIsWellFormed();
    FailureMessagesAreWellFormed();
    match e
    case Advance(_) =>
    case LoginCall(m, c, mint) =>
    case ProfileCall(m, id, ok) =>
      var user := Lookup(s.store, s.now, id);
      if m == MethodGet && id != "" && ok && user.Some? {
        GreetingIsWellFormed(user.value);
      }
    case RefreshCall(m, id, ok, mint, delOk) =>
  }
}
