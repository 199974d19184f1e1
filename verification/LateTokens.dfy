// The fifteen minutes and a delay that a session can be used after its first
// revocation are used up: a token issued as late as it may be is accepted until
// the last second.

module LateTokens {
  import opened Clock
  import opened Types
  import opened Sessions
  import opened Granularity
  import Requests
  import Siblings
  import SP = SessionProtocol
  import SG = SessionGuarantees

  lemma OneMoreStep(delay: nat, w: SP.State, e: SP.Event)
    requires SP.Reachable(delay, w)
    ensures SP.Reachable(delay, SP.Step(delay, w, e))
  {
    hide SP.Run, SP.Step;
    Siblings.Onward(delay, w, [e]);
    RunOne(delay, w, e);
  }

  /** A session is inserted and, before its token is issued, logged out. */
  lemma RevokedBeforeIssue(delay: nat, owner: Owner) returns (w: SP.State)
    ensures SP.Reachable(delay, w) && w.now == 0 && 10 in w.births && w.births[10].at == 0
    ensures 1 in w.procs && w.procs[1] == SP.Minting(10, owner)
    ensures 10 in w.revocations && w.revocations[10] == 0
  {
    hide SP.Run, SP.Step;
    var device, hash := Device(None, ""), Sha256(20);
    assert SP.Reachable(delay, SP.START) by {
      Idle(delay, SP.START, []);
    }
    RootStamped(delay, SP.START, 1, owner, device, hash);
    OneMoreStep(delay, SP.START, SP.StampRoot(1, owner, hash, device));
    var stamped := SP.Step(delay, SP.START, SP.StampRoot(1, owner, hash, device));
    RootInserted(delay, stamped, 1, 10);
    OneMoreStep(delay, stamped, SP.InsertRow(1, 10));
    var inserted := SP.Step(delay, stamped, SP.InsertRow(1, 10));
    LogoutLooks(delay, inserted, 5, 10);
    OneMoreStep(delay, inserted, SP.LogoutLookup(5, 10));
    var looked := SP.Step(delay, inserted, SP.LogoutLookup(5, 10));
    LogoutRevokes(delay, looked, 5);
    OneMoreStep(delay, looked, SP.LogoutRevoke(5));
    w := SP.Step(delay, looked, SP.LogoutRevoke(5));
  }

  lemma IssuesLate(delay: nat, w: SP.State, pid: Id)
    requires pid in w.procs && w.procs[pid].Minting? && w.procs[pid].id in w.births
    requires w.now <= w.births[w.procs[pid].id].at + delay
    ensures var p := w.procs[pid];
      SP.Step(delay, w, SP.IssueToken(pid, true)) == w.(tokens := w.tokens + {AccessToken(p.id, p.owner, w.now)})
  {
  }

  lemma Waits(delay: nat, w: SP.State, dt: nat)
    ensures SP.Step(delay, w, SP.Tick(dt)) == w.(now := w.now + dt)
  {
  }

  /** For every delay, some run lets a bearer through as a revoked session within the last second that
      `RevocationBound` leaves. */
  lemma RevocationBoundIsReached(delay: nat)
    ensures exists w, token: Token ::
      && SP.Reachable(delay, w) && token.session in w.revocations
      && SP.Authenticates(delay, w, SP.Bearer(token), token.session)
      && w.revocations[token.session] + ACCESS_TOKEN_TTL + delay - SECOND <= w.now
  {
    hide SP.Run, SP.Step;
    var owner := Owner(1, 2, 3);
    var revoked := RevokedBeforeIssue(delay, owner);
    Waits(delay, revoked, delay);
    OneMoreStep(delay, revoked, SP.Tick(delay));
    var late := SP.Step(delay, revoked, SP.Tick(delay));
    IssuesLate(delay, late, 1);
    OneMoreStep(delay, late, SP.IssueToken(1, true));
    var issued := SP.Step(delay, late, SP.IssueToken(1, true));
    var token := AccessToken(10, owner, delay);
    var rest := token.expires - 1 - delay;
    Waits(delay, issued, rest);
    OneMoreStep(delay, issued, SP.Tick(rest));
    var w := SP.Step(delay, issued, SP.Tick(rest));
    assert SP.Authenticates(delay, w, SP.Bearer(token), token.session);
  }
}
