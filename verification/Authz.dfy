/** Cedar evaluation of the embedded policies, and the middleware around it. */
module Authz {
  import opened Wrappers
  import opened Authn

  datatype Action = PublishArtifact | RequestRegistration | RequestTrustModification | ReadEvidence | QueryEvidence

  /** What a policy can look at: principal, action, the resource's trust attribute and the group names. */
  datatype Request = Request(principal: Principal, action: Action, trusted: bool, adminGroup: string, auditorGroup: string)

  datatype Effect = Permit | Forbid

  datatype Policy = Policy(effect: Effect, applies: Request -> bool)

  type PolicySet = map<string, Policy>

  const ADMIN_SCOPE := "complytime:admin"
  const AUDIT_SCOPE := "complytime:audit"

  predicate Admin(q: Request) {
    ADMIN_SCOPE in q.principal.scopes || q.adminGroup in q.principal.groups
  }

  predicate Auditor(q: Request) {
    AUDIT_SCOPE in q.principal.scopes || q.auditorGroup in q.principal.groups || Admin(q)
  }

  /** The six policies of `base.cedar`, in file order. */
  function BasePolicies(): PolicySet {
    map["policy0" := Policy(Permit, (q: Request) => q.action.PublishArtifact? && q.principal.publisher && q.trusted),
        "policy1" := Policy(Forbid, (q: Request) => q.action.PublishArtifact? && !q.trusted),
        "policy2" := Policy(Permit, (q: Request) => q.action.RequestRegistration? && Admin(q)),
        "policy3" := Policy(Permit, (q: Request) => q.action.RequestTrustModification? && Admin(q)),
        "policy4" := Policy(Permit, (q: Request) => q.action.QueryEvidence? && Auditor(q)),
        "policy5" := Policy(Permit, (q: Request) => q.action.ReadEvidence? && Auditor(q))]
  }

  ghost predicate Hit(ps: PolicySet, effect: Effect, q: Request) {
    exists id :: id in ps && ps[id].effect == effect && ps[id].applies(q)
  }

  /** Cedar's rule: some permit applies and no forbid does. */
  ghost predicate Allowed(ps: PolicySet, q: Request) {
    Hit(ps, Permit, q) && !Hit(ps, Forbid, q)
  }

  /** The authoriser visits the policies in whatever order the map yields; the answer does not depend on it. */
  method Authorize(ps: PolicySet, order: seq<string>, q: Request) returns (allow: bool)
    requires forall id :: id in order <==> id in ps
    ensures allow <==> Allowed(ps, q)
  {
    var permitted, forbidden := false, false;
    for k := 0 to |order|
      invariant permitted <==> exists i :: 0 <= i < k && ps[order[i]].effect == Permit && ps[order[i]].applies(q)
      invariant forbidden <==> exists i :: 0 <= i < k && ps[order[i]].effect == Forbid && ps[order[i]].applies(q)
    {
      var p := ps[order[k]];
      if p.applies(q) {
        permitted := permitted || p.effect == Permit;
        forbidden := forbidden || p.effect == Forbid;
      }
    }
    forall id | id in ps ensures exists i :: 0 <= i < |order| && order[i] == id {
      assert id in order;
    }
    return permitted && !forbidden;
  }

  /** Under the base policies a publish is allowed exactly for a publisher the subject trusts. */
  lemma PublishAllowedIff(q: Request)
    requires q.action.PublishArtifact?
    ensures Allowed(BasePolicies(), q) <==> q.principal.publisher && q.trusted
  {
    var ps := BasePolicies();
    if q.principal.publisher && q.trusted {
      assert ps["policy0"].applies(q);
    }
    if !q.trusted {
      assert ps["policy1"].applies(q);
    }
  }

  /** The other actions: exactly for admins, or for auditors and admins. */
  lemma OtherActionsAllowedIff(q: Request)
    requires !q.action.PublishArtifact?
    ensures Allowed(BasePolicies(), q)
       <==> if q.action.RequestRegistration? || q.action.RequestTrustModification? then Admin(q) else Auditor(q)
  {
    var ps := BasePolicies();
    match q.action
    case RequestRegistration => assert ps["policy2"].applies(q) <==> Admin(q);
    case RequestTrustModification => assert ps["policy3"].applies(q) <==> Admin(q);
    case QueryEvidence => assert ps["policy4"].applies(q) <==> Auditor(q);
    case ReadEvidence => assert ps["policy5"].applies(q) <==> Auditor(q);
  }

  predicate Untrusted(q: Request) {
    q.action.PublishArtifact? && !q.trusted
  }

  /** Some overlay policy applies to some untrusted publish. */
  ghost predicate Reaches(extra: PolicySet) {
    exists id, q :: id in extra && Untrusted(q) && extra[id].applies(q)
  }

  /** While the floor keeps its id, no overlay whatever allows an untrusted publish. */
  lemma FloorStands(extra: PolicySet, q: Request)
    requires "policy1" !in extra && Untrusted(q)
    ensures !Allowed(BasePolicies() + extra, q)
  {
    var ps := BasePolicies() + extra;
    assert ps["policy1"] == BasePolicies()["policy1"] && ps["policy1"].applies(q);
  }

  lemma FloorReplaced(extra: PolicySet, id: string, q: Request)
    requires "policy1" in extra && (forall i :: i in extra ==> extra[i].effect == Permit)
    requires id in extra && Untrusted(q) && extra[id].applies(q)
    ensures Allowed(BasePolicies() + extra, q)
  {
    var ps := BasePolicies() + extra;
    assert ps[id] == extra[id];
    forall i | i in ps ensures ps[i].effect == Permit {
    }
  }

  lemma NothingReaches(extra: PolicySet, q: Request)
    requires !Reaches(extra) && Untrusted(q)
    ensures !Allowed(BasePolicies() + extra, q)
  {
    var ps := BasePolicies() + extra;
    forall id | id in ps && ps[id].effect == Permit ensures !ps[id].applies(q) {
      if id in extra {
        assert ps[id] == extra[id];
      } else {
        assert ps[id] == BasePolicies()[id];
      }
    }
  }

  /**
   * The safety floor, exactly: an overlay of permits lets no untrusted publish through if and only
   * if it leaves the floor's own id alone or none of its policies applies to an untrusted publish.
   */
  lemma FloorIff(extra: PolicySet)
    requires forall id :: id in extra ==> extra[id].effect == Permit
    ensures (forall q :: Untrusted(q) ==> !Allowed(BasePolicies() + extra, q)) <==> "policy1" !in extra || !Reaches(extra)
  {
    if "policy1" !in extra {
      forall q | Untrusted(q) ensures !Allowed(BasePolicies() + extra, q) {
        FloorStands(extra, q);
      }
    } else if Reaches(extra) {
      var id, q :| id in extra && Untrusted(q) && extra[id].applies(q);
      FloorReplaced(extra, id, q);
    } else {
      forall q | Untrusted(q) ensures !Allowed(BasePolicies() + extra, q) {
        NothingReaches(extra, q);
      }
    }
  }

  /** Whatever policies are added under fresh ids, no untrusted publish is allowed. */
  lemma FloorHolds(extra: PolicySet, q: Request)
    requires extra.Keys !! BasePolicies().Keys && Untrusted(q)
    ensures !Allowed(BasePolicies() + extra, q)
  {
    assert "policy1" in BasePolicies().Keys;
    FloorStands(extra, q);
  }

  /** Permits under fresh ids only ever add: everything allowed before stays allowed. */
  lemma ExtraPermitsOnlyAdd(extra: PolicySet, q: Request)
    requires extra.Keys !! BasePolicies().Keys && forall id :: id in extra ==> extra[id].effect == Permit
    requires Allowed(BasePolicies(), q)
    ensures Allowed(BasePolicies() + extra, q)
  {
    var ps := BasePolicies() + extra;
    var id :| id in BasePolicies() && BasePolicies()[id].effect == Permit && BasePolicies()[id].applies(q);
    assert ps[id] == BasePolicies()[id];
  }

  /** One permit under the floor's id removes it. */
  lemma ReusedIdDropsFloor(q: Request)
    requires Untrusted(q)
    ensures Allowed(BasePolicies() + map["policy1" := Policy(Permit, (r: Request) => true)], q)
  {
    var extra: PolicySet := map["policy1" := Policy(Permit, (r: Request) => true)];
    assert extra["policy1"].applies(q);
    FloorReplaced(extra, "policy1", q);
  }

  datatype Verdict = Pass | Unauthorized | Forbidden

  predicate SubjectOptional(a: Action) {
    !a.PublishArtifact?
  }

  /**
   * The middleware: identity, mapped route, subject or its placeholder, trust lookup (skipped for
   * every action but publishing, fail-closed on error), then the policy decision.
   */
  ghost function Middleware(ps: PolicySet, p: Principal, action: Option<Action>, subject: string,
                            lookup: string -> Option<bool>, adminGroup: string, auditorGroup: string): Verdict
  {
    if p.issuer == "" || p.sub == "" then Unauthorized
    else if action.None? then Forbidden
    else if subject == "" && !SubjectOptional(action.value) then Forbidden
    else
      var resource := if subject == "" then "*" else subject;
      var trusted := if SubjectOptional(action.value) then Some(false) else lookup(resource);
      if trusted.None? then Forbidden
      else if Allowed(ps, Request(p, action.value, trusted.value, adminGroup, auditorGroup)) then Pass
      else Forbidden
  }

  /**
   * A publish passes exactly for an identified, publisher-class principal that the lookup reports
   * as trusted for the named subject; scopes, groups and group names do not matter.
   */
  lemma PublishPassesIff(p: Principal, subject: string, lookup: string -> Option<bool>, adminGroup: string, auditorGroup: string)
    ensures Middleware(BasePolicies(), p, Some(PublishArtifact), subject, lookup, adminGroup, auditorGroup) == Pass
       <==> p.issuer != "" && p.sub != "" && subject != "" && p.publisher && lookup(subject) == Some(true)
  {
    if lookup(subject).Some? {
      PublishAllowedIff(Request(p, PublishArtifact, lookup(subject).value, adminGroup, auditorGroup));
    }
  }
}
