// When a session can still get a child under concurrency, and what that allows:
// a family with two live ends.

module Siblings {
  import opened Clock
  import opened Types
  import opened Sessions
  import opened Granularity
  import Requests
  import SP = SessionProtocol
  import SG = SessionGuarantees

  /** A refresh under way that will insert a child of `id` unless it is abandoned: it looked the
      session up unrevoked and has not expired since, or it is past its check. */
  predicate Carries(p: SP.Proc, id: Id, now: Time) {
    match p
    case Looked(i, row, _, _) => i == id && Usable(row, now)
    case Checked(i, _, _, _) => i == id
    case ParentRevoked(i, _, _) => i == id
    case ParentForgotten(i, _) => i == id
    case Stamped(row) => row.parent == Some(id)
    case _ => false
  }

  ghost predicate Carried(w: SP.State, id: Id) {
    exists pid :: pid in w.procs && Carries(w.procs[pid], id, w.now)
  }

  /** The session is there, and is either still usable or carried by a refresh under way. */
  ghost predicate Growable(w: SP.State, id: Id) {
    id in w.rows && (Usable(w.rows[id], w.now) || Carried(w, id))
  }

  /** Some continuation adds a session, unknown so far, as a child. */
  ghost predicate Grows(delay: nat, w: SP.State, id: Id) {
    exists events, child :: child !in w.births && IsChild(SP.Run(delay, w, events).rows, child, id)
  }

  // ----- What cannot grow stays so -----

  lemma NoNewCarrier(delay: nat, w: SP.State, e: SP.Event, id: Id, pid: Id)
    requires SP.RowsOk(w) && !Carried(w, id) && id in w.rows && !Usable(w.rows[id], w.now)
    requires pid in SP.Step(delay, w, e).procs && w.now <= SP.Step(delay, w, e).now
    ensures !Carries(SP.Step(delay, w, e).procs[pid], id, SP.Step(delay, w, e).now)
  {
    hide SP.Step, SP.RowsOk;
    var v := SP.Step(delay, w, e);
    SP.StepMovesOne(delay, w, e, pid);
    if pid in w.procs {
      assert !Carries(w.procs[pid], id, w.now);
      if v.procs[pid] != w.procs[pid] {
        if e.InsertRow? {
          InsertEndsCarrying(delay, w, e);
        } else {
          SP.MovesOn(delay, w, e);
        }
      }
    } else {
      StartsCarrying(delay, w, e);
    }
  }

  lemma InsertEndsCarrying(delay: nat, w: SP.State, e: SP.Event)
    requires e.InsertRow? && e.pid in w.procs
    ensures var v := SP.Step(delay, w, e);
      e.pid in v.procs ==> v.procs[e.pid] == w.procs[e.pid] || v.procs[e.pid].Minting?
  {
  }

  lemma StartsCarrying(delay: nat, w: SP.State, e: SP.Event)
    requires SP.Moves(e) && e.pid !in w.procs && e.pid in SP.Step(delay, w, e).procs
    ensures
      var next := SP.Step(delay, w, e).procs[e.pid];
      && SP.Step(delay, w, e).now == w.now
      && (next.Looked? ==> next.id in w.rows && next.row == w.rows[next.id])
      && (next.Stamped? ==> next.row.parent.None?)
      && !next.Checked? && !next.ParentRevoked? && !next.ParentForgotten?
  {
  }

  lemma ChildrenAfter(w: SP.State, e: SP.Event, id: Id, child: Id)
    requires IsChild(SP.TableAfter(w, e).rows, child, id)
    ensures IsChild(w.rows, child, id)
      || (e.InsertRow? && e.pid in w.procs && Carries(w.procs[e.pid], id, w.now) && id in w.rows)
  {
    hide Straddled;
  }

  lemma NoNewChild(delay: nat, w: SP.State, e: SP.Event, id: Id, child: Id)
    requires !Growable(w, id) && IsChild(SP.Step(delay, w, e).rows, child, id)
    ensures IsChild(w.rows, child, id)
  {
    hide SP.Step, SP.TableAfter, Carries, Usable;
    SP.TableAfterStep(delay, w, e);
    ChildrenAfter(w, e, id, child);
  }

  lemma StillSettled(delay: nat, w: SP.State, e: SP.Event, id: Id)
    requires SP.Inv(delay, w) && id in w.births && !Growable(w, id)
    ensures var v := SP.Step(delay, w, e); id in v.births && !Growable(v, id)
  {
    hide SP.Step, SP.Forest, SP.ProcsOk, SP.CacheOk, SP.TokensOk, SP.RowsOk, Carries;
    var v := SP.Step(delay, w, e);
    SP.StepEvolves(delay, w, e);
    if id in w.rows && id in v.rows {
      assert SP.SameRow(w.rows[id], v.rows[id]);
      forall pid | pid in v.procs ensures !Carries(v.procs[pid], id, v.now) {
        NoNewCarrier(delay, w, e, id, pid);
      }
    }
  }

  lemma SettledStep(delay: nat, w: SP.State, e: SP.Event, id: Id)
    requires SP.Inv(delay, w) && id in w.births && !Growable(w, id)
    ensures var v := SP.Step(delay, w, e);
      && id in v.births && !Growable(v, id)
      && forall child :: IsChild(v.rows, child, id) ==> IsChild(w.rows, child, id)
  {
    hide SP.Step, SP.Inv, Growable;
    StillSettled(delay, w, e, id);
    forall child | IsChild(SP.Step(delay, w, e).rows, child, id) ensures IsChild(w.rows, child, id) {
      NoNewChild(delay, w, e, id, child);
    }
  }

  lemma {:induction false} SettledRun(delay: nat, w: SP.State, events: seq<SP.Event>, id: Id)
    requires SP.Inv(delay, w) && id in w.births && !Growable(w, id)
    ensures forall child :: IsChild(SP.Run(delay, w, events).rows, child, id) ==> IsChild(w.rows, child, id)
    decreases |events|
  {
    hide SP.Step, SP.Inv, Growable;
    if events != [] {
      SettledStep(delay, w, events[0], id);
      SP.InvStep(delay, w, events[0]);
      SettledRun(delay, SP.Step(delay, w, events[0]), events[1..], id);
    }
  }

  // ----- What can grow does, in some continuation -----

  lemma CheckedOn(delay: nat, w: SP.State, pid: Id)
    requires pid in w.procs && w.procs[pid].Looked? && Usable(w.procs[pid].row, w.now)
    ensures var p := w.procs[pid];
      SP.Run(delay, w, [SP.Check(pid)]) == SP.Set(w, pid, SP.Checked(p.id, p.row, p.at, p.viaGrant))
  {
    RunOne(delay, w, SP.Check(pid));
  }

  lemma ForgottenOn(delay: nat, w: SP.State, pid: Id)
    requires pid in w.procs && w.procs[pid].ParentRevoked?
    ensures var p := w.procs[pid];
      SP.Run(delay, w, [SP.ForgetParent(pid, false)]) == SP.Set(w, pid, SP.ParentForgotten(p.id, p.row))
  {
    RunOne(delay, w, SP.ForgetParent(pid, false));
  }

  lemma InsertedOn(delay: nat, w: SP.State, pid: Id, child: Id)
    requires pid in w.procs && w.procs[pid].Stamped? && child !in w.births && Insertable(w.rows, child, w.procs[pid].row)
    ensures SP.Run(delay, w, [SP.InsertRow(pid, child)]).rows == w.rows[child := w.procs[pid].row]
  {
    RunOne(delay, w, SP.InsertRow(pid, child));
  }

  /** The rest of a refresh that carries the session, from wherever it is. */
  lemma CarrierDelivers(delay: nat, w: SP.State, pid: Id, id: Id, child: Id) returns (events: seq<SP.Event>)
    requires id in w.rows && pid in w.procs && Carries(w.procs[pid], id, w.now)
    requires child !in w.births && child !in w.rows
    ensures IsChild(SP.Run(delay, w, events).rows, child, id)
  {
    hide SP.Run, SP.Step, SG.Rotation;
    var hash := Sha256(child);
    match w.procs[pid]
    case Looked(_, _, _, _) =>
      CheckedOn(delay, w, pid);
      var checked := SP.Run(delay, w, [SP.Check(pid)]);
      SG.RotationCompletes(delay, checked, pid, child, hash, true);
      RunConcat(delay, w, [SP.Check(pid)], SG.Rotation(pid, child, hash, true));
      events := [SP.Check(pid)] + SG.Rotation(pid, child, hash, true);
    case Checked(_, _, _, _) =>
      SG.RotationCompletes(delay, w, pid, child, hash, true);
      events := SG.Rotation(pid, child, hash, true);
    case ParentRevoked(_, _, _) =>
      ForgottenOn(delay, w, pid);
      SG.ChildInserted(delay, SP.Run(delay, w, [SP.ForgetParent(pid, false)]), pid, child, hash);
      RunConcat(delay, w, [SP.ForgetParent(pid, false)], [SP.StampChild(pid, hash), SP.InsertRow(pid, child)]);
      events := [SP.ForgetParent(pid, false)] + [SP.StampChild(pid, hash), SP.InsertRow(pid, child)];
    case ParentForgotten(_, _) =>
      SG.ChildInserted(delay, w, pid, child, hash);
      events := [SP.StampChild(pid, hash), SP.InsertRow(pid, child)];
    case Stamped(_) =>
      InsertedOn(delay, w, pid, child);
      events := [SP.InsertRow(pid, child)];
  }

  lemma UsableDelivers(delay: nat, w: SP.State, id: Id, child: Id) returns (events: seq<SP.Event>)
    requires id in w.rows && Usable(w.rows[id], w.now) && child !in w.births && child !in w.rows
    ensures IsChild(SP.Run(delay, w, events).rows, child, id)
  {
    hide SP.Run, SP.Step, SG.Rotation;
    var pid := Unused(w.procs.Keys);
    var first := [SP.Lookup(pid, id, false), SP.Check(pid)];
    CheckPasses(delay, w, pid, id, false);
    SG.RotationCompletes(delay, SP.Run(delay, w, first), pid, child, Sha256(child), true);
    RunConcat(delay, w, first, SG.Rotation(pid, child, Sha256(child), true));
    events := first + SG.Rotation(pid, child, Sha256(child), true);
  }

  /** Exactly when a session can still get a child: it is in the table, and it is usable or some
      refresh looked it up while it was and has not inserted yet. So once a session is revoked,
      every further child of it comes from a lookup made before its first revocation. */
  lemma FurtherChildIff(delay: nat, w: SP.State, id: Id)
    requires SP.Reachable(delay, w) && id in w.births
    ensures Grows(delay, w, id) <==> Growable(w, id)
  {
    hide SP.Run, SP.Inv, SP.RowsOk, Carries;
    SP.ReachableInv(delay, w);
    RowsAreBorn(delay, w);
    if Growable(w, id) {
      var child := Unused(w.births.Keys + w.rows.Keys);
      var events;
      if Usable(w.rows[id], w.now) {
        events := UsableDelivers(delay, w, id, child);
      } else {
        var pid :| pid in w.procs && Carries(w.procs[pid], id, w.now);
        events := CarrierDelivers(delay, w, pid, id, child);
      }
      assert child !in w.births && IsChild(SP.Run(delay, w, events).rows, child, id);
    } else {
      NoGrowth(delay, w, id);
    }
  }

  /** After the first revocation only the refreshes that already carry the session can fork it. */
  lemma FurtherChildAfterRevocationIff(delay: nat, w: SP.State, id: Id)
    requires SP.Reachable(delay, w) && id in w.revocations && id in w.rows
    ensures Grows(delay, w, id) <==> Carried(w, id)
  {
    hide SP.Run, Grows, Carried;
    SP.ReachableInv(delay, w);
    FurtherChildIff(delay, w, id);
  }

  lemma NoGrowth(delay: nat, w: SP.State, id: Id)
    requires SP.Inv(delay, w) && id in w.births && !Growable(w, id)
    ensures !Grows(delay, w, id)
  {
    hide SP.Run, SP.Inv, Growable;
    RowsAreBorn(delay, w);
    forall events, child | child !in w.births ensures !IsChild(SP.Run(delay, w, events).rows, child, id) {
      SettledRun(delay, w, events, id);
    }
  }

  lemma RowsAreBorn(delay: nat, w: SP.State)
    requires SP.Inv(delay, w)
    ensures forall id :: id in w.rows ==> id in w.births
  {
  }

  // ----- Two live ends -----

  lemma Onward(delay: nat, w: SP.State, events: seq<SP.Event>)
    requires SP.Reachable(delay, w)
    ensures SP.Reachable(delay, SP.Run(delay, w, events))
  {
    var before :| w == SP.Run(delay, SP.START, before);
    RunConcat(delay, SP.START, before, events);
  }

  lemma TwoChecked(delay: nat, w: SP.State, p: Id, q: Id, id: Id)
    requires p != q && p !in w.procs && q !in w.procs && id in w.rows && Usable(w.rows[id], w.now)
    ensures
      var v := SP.Run(delay, SP.Run(delay, w, [SP.Lookup(p, id, false), SP.Check(p)]), [SP.Lookup(q, id, false), SP.Check(q)]);
      v == w.(procs := w.procs[p := SP.Checked(id, w.rows[id], w.now, false)][q := SP.Checked(id, w.rows[id], w.now, false)])
  {
    hide SP.Run, SP.Step;
    CheckPasses(delay, w, p, id, false);
    CheckPasses(delay, SP.Run(delay, w, [SP.Lookup(p, id, false), SP.Check(p)]), q, id, false);
  }

  /** So one child to a session, which holds of atomic requests, does not survive interleaving:
      some run ends with two live children of one session. */
  lemma RotationCanFork(delay: nat)
    ensures exists w, parent, a, b ::
      && SP.Reachable(delay, w) && a != b && IsChild(w.rows, a, parent) && IsChild(w.rows, b, parent)
      && Usable(w.rows[a], w.now) && Usable(w.rows[b], w.now)
  {
    hide SP.Run, SP.Step, SG.Rotation;
    var owner, device, d := Owner(1, 2, 3), Device(None, ""), Requests.Draw(10, 20, 30);
    assert SP.Reachable(delay, SP.START) by {
      Idle(delay, SP.START, []);
    }
    OpenRun(delay, SP.START, 1, owner, device, d);
    var rooted := SP.Run(delay, SP.START, OpenSteps(1, owner, device, d));
    Onward(delay, SP.START, OpenSteps(1, owner, device, d));
    TwoChecked(delay, rooted, 4, 5, 10);
    var first := SP.Run(delay, rooted, [SP.Lookup(4, 10, false), SP.Check(4)]);
    var both := SP.Run(delay, first, [SP.Lookup(5, 10, false), SP.Check(5)]);
    Onward(delay, rooted, [SP.Lookup(4, 10, false), SP.Check(4)]);
    Onward(delay, first, [SP.Lookup(5, 10, false), SP.Check(5)]);
    SG.OverlappingRefreshesFork(delay, both, 4, 5, 11, 12, Sha256(21), Sha256(22));
    var one := SP.Run(delay, both, SG.Rotation(4, 11, Sha256(21), true));
    Onward(delay, both, SG.Rotation(4, 11, Sha256(21), true));
    Onward(delay, one, SG.Rotation(5, 12, Sha256(22), true));
  }
}
