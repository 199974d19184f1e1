// Values shared by the tables, the caches and the protocol.

module Types {
  import opened Clock

  datatype Option<+T> = None | Some(value: T)

  /** Row identifiers, process identifiers and random tokens: names compared for equality only. */
  type Id = nat

  /** A SHA-256 digest, idealised as injective: the digest determines what was hashed. */
  datatype Digest = Sha256(preimage: Id)

  /** What every session, challenge, code, cache entry and token says about whom it belongs to. */
  datatype Owner = Owner(tenant: Id, identity: Id, user: Id)

  datatype Device = Device(ipAddress: Option<string>, userAgent: string)

  datatype Session = Session(
    owner: Owner,
    refreshHash: Digest,
    parent: Option<Id>,
    device: Device,
    expiresAt: Time,
    revokedAt: Option<Time>,
    createdAt: Time)

  function NewRow(owner: Owner, hash: Digest, parent: Option<Id>, device: Device, now: Time): Session {
    Session(owner, hash, parent, device, now + REFRESH_TOKEN_TTL, None, now)
  }

  /** What an access token says about a session. */
  datatype Token = Token(session: Id, owner: Owner, notBefore: Time, expires: Time)

  function AccessToken(id: Id, owner: Owner, now: Time): Token {
    Token(id, owner, NumericDate(now), NumericDate(now + ACCESS_TOKEN_TTL))
  }

  /** A value in Redis and the time at which its key disappears. */
  datatype Expiring<+V> = Expiring(value: V, deadline: Time)

  /** The keys Redis still answers for. */
  function Unexpired<V>(m: map<Id, Expiring<V>>, now: Time): map<Id, Expiring<V>> {
    map k | k in m && now < m[k].deadline :: m[k]
  }

  function Without<V>(m: map<Id, V>, id: Id): map<Id, V> {
    m - {id}
  }

  /** There is always a name not in use yet. */
  lemma {:induction false} Unused(s: set<Id>) returns (n: Id)
    ensures forall k :: k in s ==> k < n
    decreases s
  {
    n := 0;
    if s != {} {
      var k :| k in s;
      var m := Unused(s - {k});
      n := if k < m then m else k + 1;
      assert forall j :: j in s && j != k ==> j in s - {k};
    }
  }
}
