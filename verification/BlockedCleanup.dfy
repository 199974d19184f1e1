// One user who keeps refreshing, and cleanups that begin and end at any points
// of it: none of them ever deletes a row.

module BlockedCleanup {
  import opened Clock
  import opened Types
  import opened Sessions
  import opened Granularity
  import opened Siblings
  import Requests
  import SP = SessionProtocol
  import SG = SessionGuarantees

  // ----- Cleanups that change nothing -----

  predicate IsSweep(e: SP.Event) {
    e.SweepStart? || e.SweepDelete?
  }

  /** `events` are the events of `user`, in order, with the steps of cleanups anywhere between them. */
  predicate Weaves(events: seq<SP.Event>, user: seq<SP.Event>, workers: set<Id>)
    decreases |events|
  {
    if events == [] then user == []
    else
      || (IsSweep(events[0]) && events[0].pid in workers && Weaves(events[1..], user, workers))
      || (user != [] && events[0] == user[0] && Weaves(events[1..], user[1..], workers))
  }

  /** A request event of somebody who is not a cleanup, or the passing of time. */
  predicate Own(e: SP.Event, workers: set<Id>) {
    !IsSweep(e) && (e.Tick? || e.Evict? || e.CacheHit? || e.Bearer? || e.pid !in workers)
  }

  /** No cleanup whose cutoff was read by now would delete a row. */
  ghost predicate Unsweepable(w: SP.State) {
    forall cutoff :: cutoff + SESSION_RETENTION <= w.now ==> Sweep(w.rows, cutoff) == w.rows
  }

  /** The same at every point of a run. */
  ghost predicate Guarded(delay: nat, w: SP.State, events: seq<SP.Event>)
    decreases |events|
  {
    Unsweepable(w) && (events != [] ==> Guarded(delay, SP.Step(delay, w, events[0]), events[1..]))
  }

  /** `v` is `w` with cleanups under way. */
  ghost predicate Beside(w: SP.State, v: SP.State, workers: set<Id>) {
    && v == w.(procs := v.procs)
    && (forall p :: p in workers ==> p !in w.procs)
    && (forall p :: p in workers && p in v.procs ==>
          v.procs[p].Sweeping? && v.procs[p].cutoff + SESSION_RETENTION <= v.now)
    && (forall p :: p !in workers ==> (p in w.procs <==> p in v.procs))
    && (forall p :: p !in workers && p in w.procs ==> v.procs[p] == w.procs[p])
  }

  lemma SweepsBeside(delay: nat, w: SP.State, v: SP.State, e: SP.Event, workers: set<Id>)
    requires Beside(w, v, workers) && Unsweepable(w) && IsSweep(e) && e.pid in workers
    ensures Beside(w, SP.Step(delay, v, e), workers)
  {
    hide Sweep;
  }

  lemma GoesOnBeside(delay: nat, w: SP.State, v: SP.State, e: SP.Event, workers: set<Id>)
    requires Beside(w, v, workers) && Own(e, workers)
    ensures Beside(SP.Step(delay, w, e), SP.Step(delay, v, e), workers)
  {
    if e.Tick? || e.Evict? || e.CacheHit? || e.Bearer? {
      PassesBeside(delay, w, v, e, workers);
    } else {
      hide SP.StartStep, SP.ResumeStep, Beside;
      SameRequests(w, v, e.pid, workers);
      if e.StampRoot? || e.Lookup? || e.LogoutLookup? || e.HeaderLookup? {
        StartsBeside(w, v, e, workers);
      } else if e.pid in w.procs {
        ResumesBeside(delay, w, v, e, workers);
      }
    }
  }

  lemma SameRequests(w: SP.State, v: SP.State, pid: Id, workers: set<Id>)
    requires Beside(w, v, workers) && pid !in workers
    ensures pid in w.procs <==> pid in v.procs
  {
  }

  lemma PassesBeside(delay: nat, w: SP.State, v: SP.State, e: SP.Event, workers: set<Id>)
    requires Beside(w, v, workers) && (e.Tick? || e.Evict? || e.CacheHit? || e.Bearer?)
    ensures Beside(SP.Step(delay, w, e), SP.Step(delay, v, e), workers)
  {
    hide SP.StartStep, SP.ResumeStep;
  }

  lemma ResumesBeside(delay: nat, w: SP.State, v: SP.State, e: SP.Event, workers: set<Id>)
    requires Refreshing(e) || Opening(e) || Leaving(e) || Presenting(e)
    requires Beside(w, v, workers) && e.pid !in workers && e.pid in w.procs
    ensures Beside(SP.ResumeStep(delay, w, e), SP.ResumeStep(delay, v, e), workers)
  {
    hide SP.ResumeStep, SP.Alone;
    if Refreshing(e) {
      RefreshingAlike(delay, w, v, e);
    } else if Opening(e) {
      OpeningAlike(delay, w, v, e);
    } else if Leaving(e) {
      LeavingAlike(delay, w, v, e);
    } else {
      PresentingAlike(delay, w, v, e);
    }
    MovedBeside(w, v, SP.ResumeStep(delay, w, e), SP.ResumeStep(delay, v, e), e.pid, workers);
  }

  lemma StartsBeside(w: SP.State, v: SP.State, e: SP.Event, workers: set<Id>)
    requires Beside(w, v, workers) && (e.StampRoot? || e.Lookup? || e.LogoutLookup? || e.HeaderLookup?) && e.pid !in workers
    ensures Beside(SP.StartStep(w, e), SP.StartStep(v, e), workers)
  {
  }

  /** The same request is at the same place in both, and all but the requests under way is the same. */
  predicate Alike(w: SP.State, v: SP.State, pid: Id) {
    && v == w.(procs := v.procs)
    && (pid in w.procs <==> pid in v.procs) && (pid in w.procs ==> v.procs[pid] == w.procs[pid])
  }

  lemma MovedBeside(w: SP.State, v: SP.State, w': SP.State, v': SP.State, pid: Id, workers: set<Id>)
    requires Beside(w, v, workers) && pid !in workers && Alike(w', v', pid) && v'.now == v.now
    requires SP.Alone(w, w', pid) && SP.Alone(v, v', pid)
    ensures Beside(w', v', workers)
  {
    forall p | p != pid ensures p in w'.procs <==> (p in w.procs && w'.procs[p] == w.procs[p]) {
      assert p in w.procs + w'.procs ==> p in w.procs;
    }
    forall p | p != pid ensures p in v'.procs <==> (p in v.procs && v'.procs[p] == v.procs[p]) {
      assert p in v.procs + v'.procs ==> p in v.procs;
    }
  }

  predicate Refreshing(e: SP.Event) {
    e.Check? || e.RevokeParent? || e.ForgetParent? || e.StampChild?
  }

  predicate Opening(e: SP.Event) {
    e.Abort? || e.InsertRow? || e.IssueToken?
  }

  predicate Presenting(e: SP.Event) {
    e.HeaderCheck? || e.HeaderPut?
  }

  predicate Leaving(e: SP.Event) {
    e.LogoutRevoke? || e.LogoutForget?
  }

  lemma RefreshingAlike(delay: nat, w: SP.State, v: SP.State, e: SP.Event)
    requires Refreshing(e) && Alike(w, v, e.pid) && e.pid in w.procs
    ensures Alike(SP.ResumeStep(delay, w, e), SP.ResumeStep(delay, v, e), e.pid)
    ensures SP.ResumeStep(delay, v, e).now == v.now
  {
    hide SP.CheckStep, SP.RevokeParentStep, SP.ForgetParentStep, SP.StampChildStep;
    match e
    case Check(pid) => CheckAlike(w, v, pid);
    case RevokeParent(pid) => RevokeParentAlike(w, v, pid);
    case ForgetParent(pid, works) => ForgetParentAlike(w, v, pid, works);
    case StampChild(pid, hash) => StampChildAlike(w, v, pid, hash);
  }

  lemma CheckAlike(w: SP.State, v: SP.State, pid: Id)
    requires Alike(w, v, pid) && pid in w.procs
    ensures Alike(SP.CheckStep(w, pid), SP.CheckStep(v, pid), pid) && SP.CheckStep(v, pid).now == v.now
  {
    hide Usable;
  }

  lemma RevokeParentAlike(w: SP.State, v: SP.State, pid: Id)
    requires Alike(w, v, pid) && pid in w.procs
    ensures Alike(SP.RevokeParentStep(w, pid), SP.RevokeParentStep(v, pid), pid) && SP.RevokeParentStep(v, pid).now == v.now
  {
    hide RevokeRow;
  }

  lemma ForgetParentAlike(w: SP.State, v: SP.State, pid: Id, works: bool)
    requires Alike(w, v, pid) && pid in w.procs
    ensures Alike(SP.ForgetParentStep(w, pid, works), SP.ForgetParentStep(v, pid, works), pid) && SP.ForgetParentStep(v, pid, works).now == v.now
  {
  }

  lemma StampChildAlike(w: SP.State, v: SP.State, pid: Id, hash: Digest)
    requires Alike(w, v, pid) && pid in w.procs
    ensures Alike(SP.StampChildStep(w, pid, hash), SP.StampChildStep(v, pid, hash), pid) && SP.StampChildStep(v, pid, hash).now == v.now
  {
  }

  lemma OpeningAlike(delay: nat, w: SP.State, v: SP.State, e: SP.Event)
    requires Opening(e) && Alike(w, v, e.pid) && e.pid in w.procs
    ensures Alike(SP.ResumeStep(delay, w, e), SP.ResumeStep(delay, v, e), e.pid)
    ensures SP.ResumeStep(delay, v, e).now == v.now
  {
    hide SP.InsertStep, SP.IssueStep;
    match e
    case InsertRow(pid, id) => InsertAlike(w, v, pid, id);
    case IssueToken(pid, again) => IssueAlike(delay, w, v, pid, again);
    case Abort(_) =>
  }

  lemma InsertAlike(w: SP.State, v: SP.State, pid: Id, id: Id)
    requires Alike(w, v, pid) && pid in w.procs
    ensures Alike(SP.InsertStep(w, pid, id), SP.InsertStep(v, pid, id), pid) && SP.InsertStep(v, pid, id).now == v.now
  {
    hide Insertable;
  }

  lemma IssueAlike(delay: nat, w: SP.State, v: SP.State, pid: Id, again: bool)
    requires Alike(w, v, pid) && pid in w.procs
    ensures Alike(SP.IssueStep(delay, w, pid, again), SP.IssueStep(delay, v, pid, again), pid)
    ensures SP.IssueStep(delay, v, pid, again).now == v.now
  {
  }

  lemma LeavingAlike(delay: nat, w: SP.State, v: SP.State, e: SP.Event)
    requires Leaving(e) && Alike(w, v, e.pid) && e.pid in w.procs
    ensures Alike(SP.ResumeStep(delay, w, e), SP.ResumeStep(delay, v, e), e.pid)
    ensures SP.ResumeStep(delay, v, e).now == v.now
  {
    hide SP.LogoutRevokeStep, SP.LogoutForgetStep;
    match e
    case LogoutRevoke(pid) => LogoutRevokeAlike(w, v, pid);
    case LogoutForget(pid, works) => LogoutForgetAlike(w, v, pid, works);
  }

  lemma LogoutRevokeAlike(w: SP.State, v: SP.State, pid: Id)
    requires Alike(w, v, pid) && pid in w.procs
    ensures Alike(SP.LogoutRevokeStep(w, pid), SP.LogoutRevokeStep(v, pid), pid) && SP.LogoutRevokeStep(v, pid).now == v.now
  {
    hide RevokeRow;
  }

  lemma LogoutForgetAlike(w: SP.State, v: SP.State, pid: Id, works: bool)
    requires Alike(w, v, pid) && pid in w.procs
    ensures Alike(SP.LogoutForgetStep(w, pid, works), SP.LogoutForgetStep(v, pid, works), pid) && SP.LogoutForgetStep(v, pid, works).now == v.now
  {
  }

  lemma PresentingAlike(delay: nat, w: SP.State, v: SP.State, e: SP.Event)
    requires Presenting(e) && Alike(w, v, e.pid) && e.pid in w.procs
    ensures Alike(SP.ResumeStep(delay, w, e), SP.ResumeStep(delay, v, e), e.pid)
    ensures SP.ResumeStep(delay, v, e).now == v.now
  {
    hide SP.HeaderCheckStep, SP.HeaderPutStep;
    HeaderCheckAlike(w, v, e.pid);
    if e.HeaderPut? {
      HeaderPutAlike(delay, w, v, e.pid, e.works);
    }
  }

  lemma HeaderCheckAlike(w: SP.State, v: SP.State, pid: Id)
    requires Alike(w, v, pid) && pid in w.procs
    ensures Alike(SP.HeaderCheckStep(w, pid), SP.HeaderCheckStep(v, pid), pid) && SP.HeaderCheckStep(v, pid).now == v.now
  {
    hide Usable;
  }

  lemma HeaderPutAlike(delay: nat, w: SP.State, v: SP.State, pid: Id, works: bool)
    requires Alike(w, v, pid) && pid in w.procs
    ensures Alike(SP.HeaderPutStep(delay, w, pid, works), SP.HeaderPutStep(delay, v, pid, works), pid)
    ensures SP.HeaderPutStep(delay, v, pid, works).now == v.now
  {
  }

  /** Where no cleanup has anything to delete, cleanups woven in anywhere leave no trace but their own
      requests under way. */
  lemma {:induction false} WovenRun(delay: nat, w: SP.State, v: SP.State, events: seq<SP.Event>, user: seq<SP.Event>,
                                    workers: set<Id>)
    requires Beside(w, v, workers) && Weaves(events, user, workers) && Guarded(delay, w, user)
    requires forall e :: e in user ==> Own(e, workers)
    ensures Beside(SP.Run(delay, w, user), SP.Run(delay, v, events), workers)
    decreases |events|
  {
    hide SP.Step, Beside, Unsweepable;
    if events != [] {
      if IsSweep(events[0]) && events[0].pid in workers && Weaves(events[1..], user, workers) {
        SweepsBeside(delay, w, v, events[0], workers);
        WovenRun(delay, w, SP.Step(delay, v, events[0]), events[1..], user, workers);
      } else {
        assert user[0] in user;
        GoesOnBeside(delay, w, v, user[0], workers);
        WovenRun(delay, SP.Step(delay, w, user[0]), SP.Step(delay, v, user[0]), events[1..], user[1..], workers);
      }
    }
  }

  lemma {:induction false} GuardedConcat(delay: nat, w: SP.State, a: seq<SP.Event>, b: seq<SP.Event>)
    requires Guarded(delay, w, a) && Guarded(delay, SP.Run(delay, w, a), b)
    ensures Guarded(delay, w, a + b)
    decreases |a|
  {
    hide SP.Step, Unsweepable;
    if a == [] {
      assert a + b == b;
    } else {
      assert (a + b)[0] == a[0] && (a + b)[1..] == a[1..] + b;
      GuardedConcat(delay, SP.Step(delay, w, a[0]), a[1..], b);
    }
  }

  // ----- A family that keeps rotating -----

  /** Sessions 0 to n, each rotated into the next after six days; the last one is live. */
  ghost predicate Piled(rows: Rows, born: set<Id>, n: nat) {
    && (forall k :: k in born || k in rows ==> k <= n)
    && (forall k: nat :: k <= n ==>
          && k in born && k in rows && rows[k].parent == (if k == 0 then None else Some(k - 1))
          && rows[k].expiresAt == 6 * DAY * k + REFRESH_TOKEN_TTL
          && rows[k].revokedAt == (if k < n then Some(6 * DAY * (k + 1)) else None))
  }

  ghost predicate Steady(w: SP.State, n: nat) {
    w.procs == map[] && w.now == 6 * DAY * n && Piled(w.rows, w.births.Keys, n)
  }

  /** The whole table is one lineage, and its youngest session is not past the cutoff. */
  ghost predicate Linear(rows: Rows, now: Time, n: nat) {
    && (forall k: nat :: k in rows <==> k <= n)
    && (forall k: nat :: 0 < k <= n ==> rows[k].parent == Some(k - 1))
    && !Qualifies(rows[n], now - SESSION_RETENTION)
  }

  lemma LinearUnsweepable(w: SP.State, n: nat)
    requires Linear(w.rows, w.now, n)
    ensures Unsweepable(w)
  {
    forall cutoff | cutoff + SESSION_RETENTION <= w.now ensures Sweep(w.rows, cutoff) == w.rows {
      if k: nat :| k <= n && Qualifies(w.rows[k], cutoff) {
        var chain := seq(n - k + 1, i requires 0 <= i <= n - k => n - i);
        assert Lineage(w.rows, chain);
        StraddlingChainOrphans(w.rows, cutoff, chain);
      } else {
        assert Kept(w.rows, cutoff) == w.rows;
      }
    }
  }

  /** An event that neither inserts nor deletes and takes no time. */
  predicate Quiet(e: SP.Event) {
    !e.Tick? && !e.InsertRow? && !e.SweepDelete?
  }

  lemma QuietStep(delay: nat, w: SP.State, e: SP.Event, n: nat)
    requires Linear(w.rows, w.now, n) && Quiet(e)
    ensures var v := SP.Step(delay, w, e); v.now == w.now && Linear(v.rows, v.now, n)
  {
    hide SP.Step;
    SP.TableAfterStep(delay, w, e);
    QuietTime(delay, w, e);
  }

  lemma QuietTime(delay: nat, w: SP.State, e: SP.Event)
    requires !e.Tick?
    ensures SP.Step(delay, w, e).now == w.now
  {
  }

  lemma {:induction false} GuardedQuiet(delay: nat, w: SP.State, events: seq<SP.Event>, n: nat)
    requires Linear(w.rows, w.now, n) && forall e :: e in events ==> Quiet(e)
    ensures Guarded(delay, w, events)
    ensures var v := SP.Run(delay, w, events); v.now == w.now && Linear(v.rows, v.now, n)
    decreases |events|
  {
    hide SP.Step, Linear, Unsweepable;
    LinearUnsweepable(w, n);
    if events != [] {
      assert events[0] in events;
      QuietStep(delay, w, events[0], n);
      GuardedQuiet(delay, SP.Step(delay, w, events[0]), events[1..], n);
    }
  }

  function Ticks(dts: seq<nat>): seq<SP.Event> {
    if dts == [] then [] else [SP.Tick(dts[0])] + Ticks(dts[1..])
  }

  function Sum(dts: seq<nat>): nat {
    if dts == [] then 0 else dts[0] + Sum(dts[1..])
  }

  lemma {:induction false} GuardedTicks(delay: nat, w: SP.State, dts: seq<nat>, n: nat)
    requires (forall k: nat :: k in w.rows <==> k <= n) && (forall k: nat :: 0 < k <= n ==> w.rows[k].parent == Some(k - 1))
    requires Usable(w.rows[n], w.now + Sum(dts))
    ensures Guarded(delay, w, Ticks(dts))
    ensures SP.Run(delay, w, Ticks(dts)) == w.(now := w.now + Sum(dts))
    decreases |dts|
  {
    hide Unsweepable;
    LinearUnsweepable(w, n);
    if dts != [] {
      var v := SP.Step(delay, w, SP.Tick(dts[0]));
      GuardedTicks(delay, v, dts[1..], n);
      assert Ticks(dts)[0] == SP.Tick(dts[0]) && Ticks(dts)[1..] == Ticks(dts[1..]);
    }
  }

  // ----- The user's run -----

  const USER: Id := 1

  function Turn(n: nat, dts: seq<nat>): seq<SP.Event> {
    Ticks(dts) + RefreshSteps(USER, n, false, Requests.Draw(n + 1, n + 1, n + 1), true)
  }

  /** One login, and then n refreshes, each when the times `dts` have passed since the one before. */
  function UserRun(n: nat, dts: seq<nat>): seq<SP.Event> {
    if n == 0 then OpenSteps(USER, Owner(1, 2, 3), Device(None, ""), Requests.Draw(0, 1, 2))
    else UserRun(n - 1, dts) + Turn(n - 1, dts)
  }

  lemma OpeningSteady(delay: nat)
    ensures Guarded(delay, SP.START, UserRun(0, [])) && Steady(SP.Run(delay, SP.START, UserRun(0, [])), 0)
  {
    hide SP.Step;
    var owner, device, d := Owner(1, 2, 3), Device(None, ""), Requests.Draw(0, 1, 2);
    var row := NewRow(owner, Sha256(1), None, device, 0);
    OpenRun(delay, SP.START, USER, owner, device, d);
    RootStamped(delay, SP.START, USER, owner, device, Sha256(1));
    var stamped := SP.Set(SP.START, USER, SP.Stamped(row));
    RootInserted(delay, stamped, USER, 0);
    var inserted := SP.Set(SP.Inserted(stamped, 0, row), USER, SP.Minting(0, owner));
    Issued(delay, inserted, USER);
    LinearUnsweepable(inserted, 0);
    LinearUnsweepable(SP.Step(delay, inserted, SP.IssueToken(USER, false)), 0);
    var events := UserRun(0, []);
    assert events == [SP.StampRoot(USER, owner, Sha256(1), device), SP.InsertRow(USER, 0), SP.IssueToken(USER, false)];
    assert Unsweepable(SP.START) && Unsweepable(stamped);
    assert events[1..] == [SP.InsertRow(USER, 0), SP.IssueToken(USER, false)] && events[1..][1..] == [SP.IssueToken(USER, false)];
  }

  lemma PiledNext(rows: Rows, born: set<Id>, n: nat, row: Session)
    requires Piled(rows, born, n) && row.parent == Some(n) && row.revokedAt.None?
    requires row.expiresAt == 6 * DAY * (n + 1) + REFRESH_TOKEN_TTL
    ensures Piled(RevokeRow(rows, n, 6 * DAY * (n + 1))[n + 1 := row], born + {n + 1}, n + 1)
  {
  }

  lemma LastUsable(rows: Rows, born: set<Id>, n: nat)
    requires Piled(rows, born, n)
    ensures n in rows && Usable(rows[n], 6 * DAY * (n + 1)) && n + 1 !in rows && n + 1 !in born
  {
  }

  lemma SteadyLinear(w: SP.State, n: nat)
    requires Steady(w, n)
    ensures Linear(w.rows, w.now, n)
  {
  }

  lemma RefreshSteady(delay: nat, w: SP.State, n: nat)
    requires w.procs == map[] && w.now == 6 * DAY * (n + 1) && Piled(w.rows, w.births.Keys, n)
    ensures Steady(SP.Run(delay, w, RefreshSteps(USER, n, false, Requests.Draw(n + 1, n + 1, n + 1), true)), n + 1)
  {
    hide SP.Run, SP.Step, RefreshSteps, Piled, Usable;
    var d := Requests.Draw(n + 1, n + 1, n + 1);
    LastUsable(w.rows, w.births.Keys, n);
    PiledNext(w.rows, w.births.Keys, n, NewRow(w.rows[n].owner, Sha256(n + 1), Some(n), w.rows[n].device, w.now));
    RefreshRun(delay, w, USER, n, false, d, true);
    var v := SP.Run(delay, w, RefreshSteps(USER, n, false, d, true));
    assert v.births.Keys == w.births.Keys + {n + 1};
  }

  lemma IssueKeepsTable(delay: nat, w: SP.State)
    ensures var v := SP.Step(delay, w, SP.IssueToken(USER, false)); v.now == w.now && v.rows == w.rows
  {
  }

  /** Up to its insert a refresh leaves the family as it is, and from there on it is one longer. */
  lemma RefreshGuarded(delay: nat, w: SP.State, n: nat)
    requires w.procs == map[] && w.now == 6 * DAY * (n + 1) && Piled(w.rows, w.births.Keys, n)
    ensures Guarded(delay, w, RefreshSteps(USER, n, false, Requests.Draw(n + 1, n + 1, n + 1), true))
  {
    hide SP.Step, Piled, Linear, Unsweepable;
    var d := Requests.Draw(n + 1, n + 1, n + 1);
    var steps := RefreshSteps(USER, n, false, d, true);
    var quiet := [SP.Lookup(USER, n, false), SP.Check(USER), SP.RevokeParent(USER), SP.ForgetParent(USER, true),
                  SP.StampChild(USER, Sha256(n + 1))];
    var rest := [SP.InsertRow(USER, n + 1), SP.IssueToken(USER, false)];
    assert steps == quiet + rest;
    assert Linear(w.rows, w.now, n) by { PiledLinear(w, n); }
    GuardedQuiet(delay, w, quiet, n);
    RefreshSteady(delay, w, n);
    RunConcat(delay, w, quiet, rest);
    var u := SP.Run(delay, w, quiet);
    LinearUnsweepable(u, n);
    var inserted := SP.Step(delay, u, SP.InsertRow(USER, n + 1));
    var issued := SP.Step(delay, inserted, SP.IssueToken(USER, false));
    RunTwo(delay, u, SP.InsertRow(USER, n + 1), SP.IssueToken(USER, false));
    SteadyLinear(issued, n + 1);
    IssueKeepsTable(delay, inserted);
    LinearUnsweepable(inserted, n + 1);
    LinearUnsweepable(issued, n + 1);
    assert rest[1..] == [SP.IssueToken(USER, false)] && rest[1..][1..] == [];
    assert Guarded(delay, issued, []) && Guarded(delay, inserted, [SP.IssueToken(USER, false)]);
    GuardedConcat(delay, w, quiet, rest);
  }

  lemma PiledLinear(w: SP.State, n: nat)
    requires Piled(w.rows, w.births.Keys, n) && w.now == 6 * DAY * (n + 1)
    ensures Linear(w.rows, w.now, n)
  {
  }

  lemma TurnSteady(delay: nat, w: SP.State, n: nat, dts: seq<nat>)
    requires Steady(w, n) && Sum(dts) == 6 * DAY
    ensures Guarded(delay, w, Turn(n, dts)) && Steady(SP.Run(delay, w, Turn(n, dts)), n + 1)
  {
    hide SP.Step, RefreshSteps, Unsweepable;
    var d := Requests.Draw(n + 1, n + 1, n + 1);
    GuardedTicks(delay, w, dts, n);
    hide SP.Run, Guarded;
    var later := SP.Run(delay, w, Ticks(dts));
    RefreshGuarded(delay, later, n);
    RefreshSteady(delay, later, n);
    GuardedConcat(delay, w, Ticks(dts), RefreshSteps(USER, n, false, d, true));
    RunConcat(delay, w, Ticks(dts), RefreshSteps(USER, n, false, d, true));
  }

  lemma {:induction false} UserSteady(delay: nat, n: nat, dts: seq<nat>)
    requires Sum(dts) == 6 * DAY
    ensures Guarded(delay, SP.START, UserRun(n, dts)) && Steady(SP.Run(delay, SP.START, UserRun(n, dts)), n)
  {
    hide SP.Run, SP.Step, Turn, Guarded;
    if n == 0 {
      OpeningSteady(delay);
    } else {
      UserSteady(delay, n - 1, dts);
      TurnSteady(delay, SP.Run(delay, SP.START, UserRun(n - 1, dts)), n - 1, dts);
      GuardedConcat(delay, SP.START, UserRun(n - 1, dts), Turn(n - 1, dts));
      RunConcat(delay, SP.START, UserRun(n - 1, dts), Turn(n - 1, dts));
    }
  }

  lemma {:induction false} UserOwns(n: nat, dts: seq<nat>, workers: set<Id>)
    requires USER !in workers
    ensures forall e :: e in UserRun(n, dts) ==> Own(e, workers)
  {
    if n > 0 {
      UserOwns(n - 1, dts, workers);
      TicksOwn(dts, workers);
    }
  }

  lemma {:induction false} TicksOwn(dts: seq<nat>, workers: set<Id>)
    ensures forall e :: e in Ticks(dts) ==> Own(e, workers)
  {
    if dts != [] {
      TicksOwn(dts[1..], workers);
    }
  }

  /** Every session ever inserted is still there: a usable one, and n before it, all but the last
      seven sessions past retention. */
  ghost predicate NothingDeleted(w: SP.State, n: nat) {
    && w.now == 6 * DAY * n && w.rows.Keys == w.births.Keys && |w.rows| == n + 1
    && n in w.rows && Usable(w.rows[n], w.now)
    && (forall k: nat :: k <= n ==> k in w.rows && (Qualifies(w.rows[k], w.now - SESSION_RETENTION) <==> k + 7 <= n))
  }

  /** A user who refreshes every six days keeps the cleanup from ever deleting anything: however many
      cleanups are begun and finished, and wherever in the run. */
  lemma {:induction false} CleanupCanBeBlocked(delay: nat, n: nat, dts: seq<nat>, events: seq<SP.Event>, workers: set<Id>)
    requires Sum(dts) == 6 * DAY && USER !in workers && Weaves(events, UserRun(n, dts), workers)
    ensures NothingDeleted(SP.Run(delay, SP.START, events), n)
  {
    hide SP.Run, SP.Step, Guarded, UserRun, Weaves, Steady, Qualifies;
    UserSteady(delay, n, dts);
    UserOwns(n, dts, workers);
    assert Beside(SP.START, SP.START, workers);
    WovenRun(delay, SP.START, SP.START, events, UserRun(n, dts), workers);
    SteadyTable(SP.Run(delay, SP.START, UserRun(n, dts)), n);
  }

  lemma SteadyTable(w: SP.State, n: nat)
    requires Steady(w, n)
    ensures NothingDeleted(w, n)
  {
    var rows, born := w.rows, w.births.Keys;
    assert forall k: nat :: k in rows <==> k <= n;
    assert forall k: nat :: k in born <==> k <= n;
    Counted(rows.Keys, n + 1);
    forall k: nat | k <= n ensures k in rows && (Qualifies(rows[k], w.now - SESSION_RETENTION) <==> k + 7 <= n) {
      PastRetention(rows[k], k, n);
    }
  }

  lemma PastRetention(row: Session, k: nat, n: nat)
    requires k <= n && row.expiresAt == 6 * DAY * k + REFRESH_TOKEN_TTL
    requires row.revokedAt == if k < n then Some(6 * DAY * (k + 1)) else None
    ensures Qualifies(row, 6 * DAY * n - SESSION_RETENTION) <==> k + 7 <= n
  {
  }

  lemma {:induction false} Counted(s: set<Id>, n: nat)
    requires forall k: nat :: k in s <==> k < n
    ensures |s| == n
  {
    if n > 0 {
      Counted(s - {n - 1}, n - 1);
    }
  }

  /** A cleanup after every single event is one such run. */
  function CleanedThroughout(user: seq<SP.Event>, worker: Id): seq<SP.Event> {
    if user == [] then [] else [user[0], SP.SweepStart(worker), SP.SweepDelete(worker)] + CleanedThroughout(user[1..], worker)
  }

  lemma {:induction false} CleanedThroughoutWeaves(user: seq<SP.Event>, worker: Id)
    ensures Weaves(CleanedThroughout(user, worker), user, {worker})
  {
    if user != [] {
      var events := CleanedThroughout(user, worker);
      CleanedThroughoutWeaves(user[1..], worker);
      assert events[1..][1..][1..] == CleanedThroughout(user[1..], worker);
    }
  }
}
