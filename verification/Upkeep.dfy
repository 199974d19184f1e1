// What the requests that open nothing and act for nobody leave behind: the
// clock, administration, policies, factors and the cleanup.

module Upkeep {
  import opened Clock
  import opened Types
  import opened Sessions
  import opened Directory
  import opened Requests

  /** As time passes, exactly the entries whose deadline it reaches are gone. */
  lemma TickAnswer(env: Env, w: World, dt: nat)
    ensures
      var v := Handle(env, w, Tick(dt)).world;
      && v == w.(now := w.now + dt, cache := v.cache, challenges := v.challenges, codes := v.codes)
      && (forall k :: k in v.cache <==> k in w.cache && w.now + dt < w.cache[k].deadline)
      && (forall k :: k in v.cache ==> v.cache[k] == w.cache[k])
      && (forall k :: k in v.challenges <==> k in w.challenges && w.now + dt < w.challenges[k].deadline)
      && (forall k :: k in v.challenges ==> v.challenges[k] == w.challenges[k])
      && (forall k :: k in v.codes <==> k in w.codes && w.now + dt < w.codes[k].deadline)
      && (forall k :: k in v.codes ==> v.codes[k] == w.codes[k])
  {
  }

  /** An enrolled factor is unverified and of type totp; it is verified by a code that fits its own
      secret and by nothing else; and it is gone once it is removed. */
  lemma FactorAnswer(env: Env, w: World, f: Id, identity: Id, secret: Id, valid: set<Id>)
    ensures Handle(env, w, Enroll(f, identity, secret)).world ==
      if f in w.factors then w else w.(factors := w.factors[f := Factor(identity, "totp", secret, false)])
    ensures
      var v := Handle(env, w, VerifyEnrollment(f, valid)).world;
      && v == w.(factors := v.factors) && v.factors.Keys == w.factors.Keys
      && (forall k :: k in w.factors ==>
            v.factors[k] == w.factors[k].(verified := w.factors[k].verified || (k == f && w.factors[k].secret in valid)))
    ensures
      var v := Handle(env, w, Unenroll(f)).world;
      v == w.(factors := v.factors) && v.factors == w.factors - {f}
  {
  }

  lemma PolicyAnswer(env: Env, w: World, tenant: Id, mfa: bool)
    ensures
      var v := Handle(env, w, PutPolicy(tenant, mfa)).world;
      && v == w.(requireMfa := v.requireMfa)
      && (forall t :: t in v.requireMfa <==> if t == tenant then mfa else t in w.requireMfa)
  {
  }

  /** The cleanup deletes exactly the rows that expired or were revoked more than thirty days ago, or
      nothing if that would leave a row without its parent. */
  lemma CleanupAnswer(env: Env, w: World, down: set<Access>)
    ensures
      var v, cutoff := Handle(env, w, Cleanup(down)).world, w.now - 30 * DAY;
      var refused := exists k ::
        && k in w.rows && w.rows[k].expiresAt >= cutoff && (w.rows[k].revokedAt.Some? ==> w.rows[k].revokedAt.value >= cutoff)
        && w.rows[k].parent.Some? && w.rows[k].parent.value in w.rows
        && (|| w.rows[w.rows[k].parent.value].expiresAt < cutoff
            || (w.rows[w.rows[k].parent.value].revokedAt.Some? && w.rows[w.rows[k].parent.value].revokedAt.value < cutoff));
      && v == w.(rows := v.rows)
      && (DeleteSessions in down || refused ==> v.rows == w.rows)
      && (DeleteSessions !in down && !refused ==>
            && (forall k :: k in v.rows <==>
                  k in w.rows && w.rows[k].expiresAt >= cutoff && (w.rows[k].revokedAt.Some? ==> w.rows[k].revokedAt.value >= cutoff))
            && (forall k :: k in v.rows ==> v.rows[k] == w.rows[k]))
  {
    CleanupStep(env, w, Cleanup(down));
    hide Handle;
    var cutoff := w.now - 30 * DAY;
    assert Orphans(w.rows, cutoff) <==> exists k ::
      && k in w.rows && !Qualifies(w.rows[k], cutoff)
      && w.rows[k].parent.Some? && w.rows[k].parent.value in w.rows && Qualifies(w.rows[w.rows[k].parent.value], cutoff);
  }
}
