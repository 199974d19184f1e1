// One-time-password factors: enrollment, and the search through an identity's
// verified factors.

module Totp {
  import opened Types
  import opened Requests

  class TOTPService {
    var factors: map<Id, Factor>

    constructor ()
      ensures factors == map[]
    {
      factors := map[];
    }

    method Enroll(id: Id, identity: Id, secret: Id, up: bool) returns (ok: bool)
      modifies this
      ensures ok == (up && id !in old(factors))
      ensures factors == if ok then old(factors)[id := Factor(identity, "totp", secret, false)] else old(factors)
    {
      ok := up && id !in factors;
      if ok {
        factors := factors[id := Factor(identity, "totp", secret, false)];
      }
    }

    /** `valid` holds the secrets that the presented code fits at this moment. */
    method VerifyEnrollment(id: Id, valid: set<Id>, up: bool) returns (ok: bool)
      modifies this
      ensures ok == (up && id in old(factors) && old(factors)[id].secret in valid)
      ensures factors == if ok then old(factors)[id := old(factors)[id].(verified := true)] else old(factors)
    {
      ok := up && id in factors && factors[id].secret in valid;
      if ok {
        factors := factors[id := factors[id].(verified := true)];
      }
    }

    method Unenroll(id: Id, up: bool) returns (ok: bool)
      modifies this
      ensures ok == up
      ensures factors == if ok then Without(old(factors), id) else old(factors)
    {
      ok := up;
      if ok {
        factors := Without(factors, id);
      }
    }

    /** The rows of one query, in some order. */
    method GetVerifiedByIdentity(identity: Id) returns (list: seq<Factor>)
      ensures forall f :: f in list ==>
        exists id :: id in factors && factors[id] == f && f.identity == identity && f.verified
      ensures forall id :: id in factors && factors[id].identity == identity && factors[id].verified ==>
        factors[id] in list
      ensures list != [] <==> exists f :: f in factors && factors[f].identity == identity && factors[f].verified
    {
      list := [];
      var rest := factors.Keys;
      while rest != {}
        invariant rest <= factors.Keys
        invariant forall f :: f in list ==>
          exists id :: id in factors && factors[id] == f && f.identity == identity && f.verified
        invariant forall id :: id in factors && id !in rest && factors[id].identity == identity && factors[id].verified ==>
          factors[id] in list
        decreases rest
      {
        var id :| id in rest;
        if factors[id].identity == identity && factors[id].verified {
          list := list + [factors[id]];
        }
        rest := rest - {id};
      }
      if list != [] {
        assert list[0] in list;
      }
    }

    /** A code is accepted exactly when it fits a verified factor of type totp. */
    method Verify(identity: Id, valid: set<Id>, up: bool) returns (ok: bool)
      ensures ok <==> up && exists f :: f in factors && factors[f].identity == identity && factors[f].verified
                                          && factors[f].factorType == "totp" && factors[f].secret in valid
    {
      if !up {
        return false;
      }
      var list := GetVerifiedByIdentity(identity);
      for i := 0 to |list|
        invariant forall j :: 0 <= j < i ==> !(list[j].factorType == "totp" && list[j].secret in valid)
      {
        if list[i].factorType != "totp" {
          continue;
        }
        if list[i].secret in valid {
          assert list[i] in list;
          return true;
        }
      }
      return false;
    }
  }
}
