/** The loading TTL cache of kubeconfigs. */
module Kubeconfig {
  import opened Domain
  import opened Jitter

  type Bytes = seq<bv8>
  type Secret = map<string, Bytes>

  /** The kubeconfig secret of each runtime at each instant; None when the lookup fails. */
  type Secrets = (int, string) -> Option<Secret>

  /** An item of the cache: its value was read from the secret at `readAt` and stored `ttl` before `expiresAt`. */
  datatype Item = Item(value: Bytes, readAt: int, ttl: int, expiresAt: int)

  datatype GetResult = Found(value: Bytes) | NotFound | Panicked

  function StoredAt(item: Item): int
  {
    item.expiresAt - item.ttl
  }

  /** A lifetime that is not positive never ends. */
  predicate Expired(item: Item, now: int)
  {
    0 < item.ttl && item.expiresAt < now
  }

  /** getKubeConfigFromSecret: a secret without a config entry, or with an empty one, counts as an error. */
  function ConfigAt(secrets: Secrets, now: int, runtimeID: string): (r: Option<Bytes>)
    ensures r.Some? ==> r.value != []
  {
    var secret := secrets(now, runtimeID);
    if secret.Some? && "config" in secret.value && secret.value["config"] != [] then Some(secret.value["config"])
    else None
  }

  /** There is no secret, no config entry in it, or an empty one. */
  predicate Configless(secrets: Secrets, at: int, runtimeID: string)
  {
    var secret := secrets(at, runtimeID);
    secret.None? || "config" !in secret.value || secret.value["config"] == []
  }

  /** The config entry of the secret was this value then. */
  predicate SecretHeld(secrets: Secrets, at: int, runtimeID: string, value: Bytes)
  {
    var secret := secrets(at, runtimeID);
    secret.Some? && "config" in secret.value && secret.value["config"] == value
  }

  /** How long a kubeconfig loaded under `ttl` may live. */
  predicate Lifetime(ttl: int, life: int)
  {
    0 < life && WithinBounds(ttl, life)
  }

  /** `value` is what the secret held at some earlier instant. */
  ghost predicate Genuine(secrets: Secrets, now: int, runtimeID: string, value: Bytes)
  {
    exists at :: at <= now && SecretHeld(secrets, at, runtimeID, value)
  }

  /** That instant is no further back than a lifetime, plus the time between reading and storing. */
  ghost predicate Fresh(secrets: Secrets, ttl: int, lag: nat, now: int, runtimeID: string, value: Bytes)
  {
    exists life, at :: Lifetime(ttl, life) && now - life - lag <= at <= now && SecretHeld(secrets, at, runtimeID, value)
  }

  class KubeconfigProvider {
    const ttl: int
    var cache: map<string, Item>
    ghost var clock: int
    /** The longest it has taken from reading a secret to storing its config. */
    ghost var lag: nat

    /** Every item is a truthful, non-empty copy of the secret at the instant it was read. */
    ghost predicate Valid(secrets: Secrets)
      reads this
    {
      && 0 < ttl <= MAX_DURATION
      && forall id :: id in cache ==> Truthful(secrets, id, cache[id])
    }

    ghost predicate Truthful(secrets: Secrets, id: string, item: Item)
      reads this
    {
      && (!CanOverflow(ttl) ==> Lifetime(ttl, item.ttl))
      && item.readAt <= StoredAt(item) <= clock && StoredAt(item) <= item.readAt + lag
      && item.value != [] && SecretHeld(secrets, item.readAt, id, item.value)
    }

    constructor (secrets: Secrets, ttl: int)
      requires 0 < ttl <= MAX_DURATION
      ensures Valid(secrets) && cache == map[] && this.ttl == ttl
    {
      this.ttl := ttl;
      cache := map[];
    }

    /** Items that outlive `now`. */
    ghost function Unexpired(now: int): map<string, Item>
      reads this
    {
      map id | id in cache && !Expired(cache[id], now) :: cache[id]
    }

    method DeleteExpired(now: int)
      modifies this`cache
      ensures cache == old(Unexpired(now))
    {
      var todo := cache.Keys;
      while todo != {}
        invariant todo <= old(cache).Keys
        invariant forall id :: id in cache <==> id in old(cache) && (id in todo || !Expired(old(cache)[id], now))
        invariant forall id :: id in cache ==> cache[id] == old(cache)[id]
        decreases todo
      {
        var id :| id in todo;
        if id in cache && Expired(cache[id], now) { cache := cache - {id}; }
        todo := todo - {id};
      }
    }

    /** The loader that runs on a miss: it has read the secret at `read` and stores the config at `stored`.
        `draw` is the random draw of the jitter. */
    method Load(runtimeID: string, read: int, stored: int, draw: nat, secrets: Secrets) returns (r: GetResult)
      requires Valid(secrets) && clock <= read <= stored && Drawn(ttl, draw)
      modifies this
      ensures Valid(secrets) && clock == stored && (lag == old(lag) || old(lag) < lag == stored - read)
      ensures r.NotFound? <==> Configless(secrets, read, runtimeID)
      ensures r.Panicked? <==> !Configless(secrets, read, runtimeID) && Panics(ttl)
      ensures && (r.Found? ==> SecretHeld(secrets, read, runtimeID, r.value) && runtimeID in cache && StoredAt(cache[runtimeID]) == stored
                               && cache[runtimeID].value == r.value && cache[runtimeID].readAt == read)
              && cache - {runtimeID} == old(cache) - {runtimeID}
              && (!r.Found? ==> cache == old(cache))
    {
      clock := stored;
      var config := ConfigAt(secrets, read, runtimeID);
      if config.None? { return NotFound; }
      PanicsIff(ttl, draw);
      var life := JitterTTL(ttl, draw);
      if life.None? { return Panicked; }
      if stored - read > lag { lag := stored - read; }
      if !CanOverflow(ttl) { NoOverflow(ttl, draw); }
      cache := cache[runtimeID := Item(config.value, read, life.value, stored + life.value)];
      return Found(config.value);
    }

    /** What an item that has not expired stands for. */
    lemma Served(secrets: Secrets, id: string)
      requires Valid(secrets) && id in cache && !Expired(cache[id], clock)
      ensures cache[id].value != [] && Genuine(secrets, clock, id, cache[id].value)
      ensures !CanOverflow(ttl) ==> Fresh(secrets, ttl, lag, clock, id, cache[id].value)
    {
      var item := cache[id];
      assert !CanOverflow(ttl) ==> clock - item.ttl - lag <= item.readAt <= clock;
    }

    /** Get at instant `now`, and the loader on a miss. */
    method Get(runtimeID: string, now: int, read: int, stored: int, draw: nat, secrets: Secrets) returns (r: GetResult)
      requires Valid(secrets) && clock <= now <= read <= stored && Drawn(ttl, draw)
      modifies this
      ensures Valid(secrets) && (lag == old(lag) || old(lag) < lag == stored - read)
      // what is served
      ensures r.Found? ==> r.value != [] && Genuine(secrets, clock, runtimeID, r.value)
      ensures r.Found? && !CanOverflow(ttl) ==> Fresh(secrets, ttl, lag, clock, runtimeID, r.value)
      // an item serves until it expires
      ensures runtimeID in old(cache) && now <= old(cache)[runtimeID].expiresAt ==> r == Found(old(cache)[runtimeID].value)
      // a hit serves the stored item and leaves its expiry alone; a miss loads
      ensures runtimeID in old(Unexpired(now)) ==>
                clock == now && lag == old(lag) && r == Found(old(cache)[runtimeID].value) && cache == old(Unexpired(now))
      ensures runtimeID !in old(Unexpired(now)) ==>
                && clock == stored
                && (r.NotFound? <==> Configless(secrets, read, runtimeID))
                && (r.Panicked? <==> !Configless(secrets, read, runtimeID) && Panics(ttl))
                && (r.Found? ==> SecretHeld(secrets, read, runtimeID, r.value) && runtimeID in cache && StoredAt(cache[runtimeID]) == stored)
                && cache - {runtimeID} == old(Unexpired(now)) - {runtimeID}
                && (!r.Found? ==> cache == old(Unexpired(now)))
    {
      DeleteExpired(now);
      clock := now;
      if runtimeID in cache {
        r := Found(cache[runtimeID].value);
      } else {
        r := Load(runtimeID, read, stored, draw, secrets);
      }
      if r.Found? { Served(secrets, runtimeID); }
    }
  }
}
