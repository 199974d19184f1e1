// What the server keeps in Redis: a client whose keys expire, and the three
// stores built on it. `up` says whether Redis answers the command.

module Stores {
  import opened Clock
  import opened Types
  import opened OAuth
  import opened Requests

  class Redis<V> {
    var entries: map<Id, Expiring<V>>

    constructor ()
      ensures entries == map[]
    {
      entries := map[];
    }

    function Live(now: Time): map<Id, Expiring<V>>
      reads this
    {
      Unexpired(entries, now)
    }

    method Set(key: Id, value: V, ttl: Time, now: Time, up: bool) returns (ok: bool)
      requires 0 < ttl
      modifies this
      ensures ok == up
      ensures Live(now) == if ok then old(Live(now))[key := Expiring(value, now + ttl)] else old(Live(now))
    {
      ok := up;
      if ok {
        entries := entries[key := Expiring(value, now + ttl)];
      }
    }

    method Get(key: Id, now: Time, up: bool) returns (found: Option<V>)
      ensures found == if up && key in Live(now) then Some(Live(now)[key].value) else None
    {
      found := if up && key in entries && now < entries[key].deadline then Some(entries[key].value) else None;
    }

    method Del(key: Id, now: Time, up: bool)
      modifies this
      ensures Live(now) == if up then Without(old(Live(now)), key) else old(Live(now))
    {
      if up {
        entries := Without(entries, key);
      }
    }

    /** Reads and removes in one command. */
    method GetDel(key: Id, now: Time, up: bool) returns (found: Option<V>)
      modifies this
      ensures found == if up && key in old(Live(now)) then Some(old(Live(now))[key].value) else None
      ensures Live(now) == if up then Without(old(Live(now)), key) else old(Live(now))
    {
      found := Get(key, now, up);
      Del(key, now, up);
    }
  }

  /** As time passes, a store forgets exactly what the server's clock step drops. */
  lemma ExpiryIsLazy<V>(entries: map<Id, Expiring<V>>, now: Time, later: Time)
    requires now <= later
    ensures Unexpired(Unexpired(entries, now), later) == Unexpired(entries, later)
  {
  }

  class PrincipalCache {
    const redis: Redis<Owner>
    const ttl: Time := PRINCIPAL_CACHE_TTL

    constructor (redis: Redis<Owner>)
      ensures this.redis == redis
    {
      this.redis := redis;
    }

    method Get(session: Id, now: Time, up: bool) returns (found: Option<Owner>)
      ensures found == if up && session in redis.Live(now) then Some(redis.Live(now)[session].value) else None
    {
      found := redis.Get(session, now, up);
    }

    method Put(session: Id, principal: Owner, now: Time, up: bool)
      modifies redis
      ensures redis.Live(now) ==
        if up then old(redis.Live(now))[session := Expiring(principal, now + PRINCIPAL_CACHE_TTL)] else old(redis.Live(now))
    {
      var _ := redis.Set(session, principal, ttl, now, up);
    }

    method Delete(session: Id, now: Time, up: bool)
      modifies redis
      ensures redis.Live(now) == if up then Without(old(redis.Live(now)), session) else old(redis.Live(now))
    {
      redis.Del(session, now, up);
    }
  }

  class ChallengeStore {
    const redis: Redis<Challenge>

    constructor (redis: Redis<Challenge>)
      ensures this.redis == redis
    {
      this.redis := redis;
    }

    method Store(token: Id, c: Challenge, now: Time, up: bool) returns (ok: bool)
      modifies redis
      ensures ok == up
      ensures redis.Live(now) ==
        if ok then old(redis.Live(now))[token := Expiring(c, now + CHALLENGE_TTL)] else old(redis.Live(now))
    {
      ok := redis.Set(token, c, CHALLENGE_TTL, now, up);
    }

    method Consume(token: Id, now: Time, up: bool) returns (found: Option<Challenge>)
      modifies redis
      ensures found == if up && token in old(redis.Live(now)) then Some(old(redis.Live(now))[token].value) else None
      ensures redis.Live(now) == if up then Without(old(redis.Live(now)), token) else old(redis.Live(now))
    {
      found := redis.GetDel(token, now, up);
    }
  }

  class CodeStore {
    const redis: Redis<Code>

    constructor (redis: Redis<Code>)
      ensures this.redis == redis
    {
      this.redis := redis;
    }

    /** A code that has expired already is refused. */
    method Store(code: Id, c: Code, now: Time, up: bool) returns (ok: bool)
      modifies redis
      ensures ok == (up && now < c.expiresAt)
      ensures redis.Live(now) ==
        if ok then old(redis.Live(now))[code := Expiring(c, c.expiresAt)] else old(redis.Live(now))
    {
      var ttl := c.expiresAt - now;
      if ttl <= 0 {
        return false;
      }
      ok := redis.Set(code, c, ttl, now, up);
    }

    method Consume(code: Id, now: Time, up: bool) returns (found: Option<Code>)
      modifies redis
      ensures found == if up && code in old(redis.Live(now)) then Some(old(redis.Live(now))[code].value) else None
      ensures redis.Live(now) == if up then Without(old(redis.Live(now)), code) else old(redis.Live(now))
    {
      found := redis.GetDel(code, now, up);
    }
  }
}
