/** The Redis session cache as the handlers use it: `GET`, `SETEX` and `DEL` on
    string keys, with the server's expiry applied on reads. */
module Cache {
  import opened Options

  /** The value stored under a session ID, and the absolute second at which Redis drops it. */
  datatype Entry = Entry(user: string, expiry: int)

  /** Keys whose expiry has passed may still be present; every read treats them as gone. */
  type Store = map<string, Entry>

  /** The TTL the handlers give every session, in seconds (`"120"` in the SETEX call). */
  const Ttl: nat := 120

  /** `GET key` at second `now`: the stored user name, or nil (None) when the key
      never existed, was deleted or has expired. The three are indistinguishable.
      This is the model's definition of `GET`; its contract only spells it out
      for the callers, whose contracts are all stated through `Lookup`. */
  function Lookup(store: Store, now: int, key: string): (r: Option<string>)
    ensures r.Some? <==> key in store && now < store[key].expiry
    ensures r.Some? ==> r.value == store[key].user
  {
    if key in store && now < store[key].expiry then Some(store[key].user) else None
  }

  /** `SETEX key ttl value` at second `now`: the key reads as `value` for exactly
      `ttl` seconds from now and no other key is touched. */
  function Setex(store: Store, now: int, key: string, ttl: nat, value: string): (r: Store)
    ensures forall t :: now <= t < now + ttl ==> Lookup(r, t, key) == Some(value)
    ensures forall t :: now + ttl <= t ==> Lookup(r, t, key) == None
    ensures r - {key} == store - {key}
  {
    store[key := Entry(value, now + ttl)]
  }

  /** `DEL key`: the key reads as absent from then on, no other key is touched,
      and deleting an absent key changes nothing. */
  function Del(store: Store, key: string): (r: Store)
    ensures forall t :: Lookup(r, t, key) == None
    ensures r - {key} == store - {key}
    ensures key !in store ==> r == store
  {
    store - {key}
  }
}
