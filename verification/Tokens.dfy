// The token service: issuing under the active key, and verifying. A signature
// is ideal: what verifies is exactly what was issued.

module Tokens {
  import opened Clock
  import opened Types
  import opened Keys
  import opened Requests

  /** A signed token names the key it was signed with in its header. */
  datatype Jwt = Jwt(kid: Id, claims: Token)

  class JWTService {
    const keys: KeyRepository
    /** What a signature check accepts. */
    var issued: set<Jwt>

    constructor (keys: KeyRepository)
      ensures this.keys == keys && issued == {}
    {
      this.keys := keys;
      issued := {};
    }

    ghost function Claims(): set<Token>
      reads this
    {
      set j | j in issued :: j.claims
    }

    ghost predicate HasActive()
      reads keys
    {
      exists k :: k in keys.keys && keys.keys[k].active
    }

    method Issue(session: Id, owner: Owner, ttl: Time, now: Time, up: bool) returns (t: Option<Jwt>)
      modifies this
      ensures t.Some? <==> up && exists k :: k in keys.keys && keys.keys[k].active
      ensures t.Some? ==> t.value.kid in keys.keys && keys.keys[t.value.kid].active
      ensures t.Some? ==>
        forall k :: k in keys.keys && keys.keys[k].active ==> keys.keys[k].createdAt <= keys.keys[t.value.kid].createdAt
      ensures t.Some? ==> t.value.claims == Token(session, owner, NumericDate(now), NumericDate(now + ttl))
      ensures issued == if t.Some? then old(issued) + {t.value} else old(issued)
      ensures Claims() == if t.Some? then old(Claims()) + {t.value.claims} else old(Claims())
    {
      t := None;
      var kid := keys.GetActive(up);
      if kid.Some? {
        t := Some(Jwt(kid.value, Token(session, owner, NumericDate(now), NumericDate(now + ttl))));
        issued := issued + {t.value};
      }
    }

    /** Accepted from its not-before time until it expires, as long as its key row is there. */
    method Verify(t: Jwt, now: Time, up: bool) returns (claims: Option<Token>)
      ensures claims == if up && t in issued && t.kid in keys.keys && t.claims.notBefore <= now < t.claims.expires
                        then Some(t.claims) else None
    {
      var key := keys.GetByID(t.kid, up);
      if key.None? || t !in issued || now < t.claims.notBefore || t.claims.expires <= now {
        return None;
      }
      return Some(t.claims);
    }
  }
}
