/**
 Governance documents of src/governance.rs: project policies and the change requests that
 two administrators approve. Request ids are numbers drawn fresh; a payload is a policy or
 some other text, and its digest is injective, so comparing digests is comparing payloads.
 */
module Governance {
  import opened Common
  import opened Text
  import opened GovernancePolicy
  import opened SchedulerCore

  datatype ActionKind = PolicyUpsert | OtherAction(name: string)

  datatype Payload = PolicyPayload(policy: Policy) | OtherPayload(text: string)

  datatype Status = PendingSecondApproval | Approved | Applied

  datatype Approval = Approval(actor: string, at: nat)

  datatype Request = Request(id: nat, action: ActionKind, target: string, payload: Payload, reason: string,
                             status: Status, requestedBy: string, approvals: seq<Approval>,
                             createdAt: nat, updatedAt: nat, appliedAt: Option<nat>)

  datatype Document = Document(policies: map<string, Policy>, requests: map<nat, Request>)

  datatype Input = Input(action: ActionKind, target: string, payload: Payload, payloadBytes: nat, reason: string)

  // ---- Operations on a document -----------------------------------------------------------------

  predicate Supported(action: ActionKind) {
    action.PolicyUpsert?
    || action.name in ["provider.allowlist_change", "routing.cloud_first", "budget.hard_limit",
                       "identity.permission", "model.production_promotion", "data_egress.change",
                       "database.major_migration", "secret.rotation"]
  }

  predicate ValidInput(input: Input) {
    && Supported(input.action) && !IsBlank(input.target) && |input.target| <= 240
    && 8 <= |Trim(input.reason)| && |input.reason| <= 1000 && input.payloadBytes <= 65536
  }

  function NewRequest(id: nat, actor: string, input: Input, now: nat): Request {
    Request(id, input.action, input.target, input.payload, Trim(input.reason), PendingSecondApproval, actor,
            [Approval(actor, now)], now, now, None)
  }

  predicate ApprovedBy(r: Request, actor: string) {
    exists i :: 0 <= i < |r.approvals| && r.approvals[i].actor == actor
  }

  function Approve(doc: Document, id: nat, actor: string, now: nat): Result<Document, Error> {
    if id !in doc.requests then Err(NotFound)
    else if doc.requests[id].status == Applied then Err(Conflict)
    else if ApprovedBy(doc.requests[id], actor) then Err(SameApprover)
    else
      var r := doc.requests[id];
      var approved := r.(approvals := r.approvals + [Approval(actor, now)], status := Approved, updatedAt := now);
      Ok(doc.(requests := doc.requests[id := approved]))
  }

  /** `change_for_application`: enough approvals for the deployment's approval mode. */
  function Applicable(doc: Document, id: nat, dual: bool): Result<Request, Error> {
    if id !in doc.requests then Err(NotFound)
    else
      var r := doc.requests[id];
      if (r.status == Approved || (!dual && r.status == PendingSecondApproval))
         && |r.approvals| >= (if dual then 2 else 1)
      then Ok(r) else Err(Forbidden)
  }

  function MarkedApplied(r: Request, now: nat): Request {
    r.(status := Applied, appliedAt := Some(now), updatedAt := now)
  }

  function MarkApplied(doc: Document, id: nat, dual: bool, now: nat): Result<Document, Error> {
    var r := Applicable(doc, id, dual);
    if r.Err? then Err(r.error) else Ok(doc.(requests := doc.requests[id := MarkedApplied(r.value, now)]))
  }

  function VerifyApproved(doc: Document, id: nat, action: ActionKind, target: string, payload: Payload): Result<Request, Error> {
    var r := Applicable(doc, id, true);
    if r.Err? then r
    else if r.value.action != action || r.value.target != target || r.value.payload != payload then Err(Forbidden)
    else r
  }

  /** The policy a checked request carries, stamped by the actor who applies it. */
  function PolicyOf(r: Request, actor: string, now: nat): Result<Policy, Error> {
    if r.action != PolicyUpsert || !r.payload.PolicyPayload? || !ValidPolicy(r.payload.policy) then Err(InvalidRequest)
    else Ok(r.payload.policy.(updatedBy := actor, updatedAt := now))
  }

  function WithPolicy(doc: Document, p: Policy): Document {
    doc.(policies := doc.policies[p.tenant.Key() := p])
  }

  /** The second half of applying the change `id`, whose request was read in the first half. */
  function ApplyPolicy(doc: Document, id: nat, r: Request, actor: string, now: nat): Result<Document, Error> {
    var p := PolicyOf(r, actor, now);
    if p.Err? then Err(p.error)
    else if id !in doc.requests then Err(NotFound)
    else
      var applied := MarkedApplied(doc.requests[id], now);
      Ok(WithPolicy(doc, p.value).(requests := doc.requests[id := applied]))
  }

  function EffectivePolicy(doc: Document, tenant: Tenant): Policy {
    if tenant.Key() in doc.policies then doc.policies[tenant.Key()] else FailClosed(tenant)
  }

  // ---- What every operation keeps ------------------------------------------------------------------

  ghost predicate DistinctApprovers(approvals: seq<Approval>) {
    forall i, j :: 0 <= i < |approvals| && 0 <= j < |approvals| && approvals[i].actor == approvals[j].actor ==> i == j
  }

  /** Approvals come from different administrators, and the status counts them. */
  ghost predicate RequestOk(r: Request) {
    && DistinctApprovers(r.approvals) && |r.approvals| >= 1 && r.approvals[0].actor == r.requestedBy
    && (r.status == PendingSecondApproval ==> |r.approvals| == 1)
    && (r.status == Approved ==> |r.approvals| >= 2)
  }

  predicate PolicyOk(key: string, p: Policy) {
    ValidPolicy(p) && p.tenant.Key() == key
  }

  ghost predicate DocOk(doc: Document) {
    && (forall key :: key in doc.policies ==> PolicyOk(key, doc.policies[key]))
    && (forall id :: id in doc.requests ==> doc.requests[id].id == id && RequestOk(doc.requests[id]))
  }

  lemma NewRequestOk(id: nat, actor: string, input: Input, now: nat)
    ensures RequestOk(NewRequest(id, actor, input, now))
  {
  }

  lemma ApproveKeepsOk(doc: Document, id: nat, actor: string, now: nat)
    requires DocOk(doc) && Approve(doc, id, actor, now).Ok?
    ensures DocOk(Approve(doc, id, actor, now).value)
    ensures Approve(doc, id, actor, now).value.requests[id].status == Approved
  {
    hide PolicyOk;
    assert RequestOk(doc.requests[id]);
    var r := Approve(doc, id, actor, now).value.requests[id];
    assert RequestOk(r);
  }

  lemma MarkKeepsOk(doc: Document, id: nat, dual: bool, now: nat)
    requires DocOk(doc) && MarkApplied(doc, id, dual, now).Ok?
    ensures DocOk(MarkApplied(doc, id, dual, now).value)
  {
  }

  lemma ApplyPolicyKeepsOk(doc: Document, id: nat, r: Request, actor: string, now: nat)
    requires DocOk(doc) && ApplyPolicy(doc, id, r, actor, now).Ok?
    ensures DocOk(ApplyPolicy(doc, id, r, actor, now).value)
  {
  }

  lemma CreateKeepsOk(doc: Document, r: Request)
    requires DocOk(doc) && RequestOk(r)
    ensures DocOk(doc.(requests := doc.requests[r.id := r]))
  {
  }

  /** A tenant is governed by a valid policy of its own, or by the closed default. */
  lemma EffectivePolicyIsOwn(doc: Document, tenant: Tenant)
    requires DocOk(doc) && tenant.Valid()
    ensures var p := EffectivePolicy(doc, tenant);
            && p.tenant == tenant && (!p.cloudEnabled ==> p.maximumMode == LocalStrict)
            && (p == FailClosed(tenant) || ValidPolicy(p))
  {
    hide ValidIdentifier, ValidList, RequestOk;
    if tenant.Key() in doc.policies {
      var p := doc.policies[tenant.Key()];
      assert PolicyOk(tenant.Key(), p);
      TenantKeysAreDistinct(p.tenant, tenant);
    }
  }

  /** What was verified is approved by two different administrators and is what was asked. */
  lemma VerifiedIsApproved(doc: Document, id: nat, action: ActionKind, target: string, payload: Payload)
    requires DocOk(doc) && VerifyApproved(doc, id, action, target, payload).Ok?
    ensures var r := VerifyApproved(doc, id, action, target, payload).value;
            && r.id == id && r.action == action && r.target == target && r.payload == payload && r.status == Approved
            && exists i, j :: 0 <= i < j < |r.approvals| && r.approvals[i].actor != r.approvals[j].actor
  {
    var r := doc.requests[id];
    assert RequestOk(r);
    assert r.approvals[0].actor != r.approvals[1].actor;
  }

  // ---- The store ---------------------------------------------------------------------------------------

  /** What a compare-and-swap reports. */
  datatype Reported = Saved(revision: nat) | NotSaved

  class GovernanceStore {
    var doc: Document
    var revision: nat

    constructor (loaded: Document, at: nat)
      ensures doc == loaded && revision == at
    {
      doc, revision := loaded, at;
    }

    /** Keep the new document and revision, or put the previous document back. */
    method SaveOrRestore(previous: Document, reported: Reported) returns (r: Result<(), Error>)
      modifies this
      ensures r == if reported.Saved? then Ok(()) else Err(SaveFailed)
      ensures doc == if reported.Saved? then old(doc) else previous
      ensures revision == if reported.Saved? then reported.revision else old(revision)
    {
      if reported.NotSaved? {
        doc := previous;
        return Err(SaveFailed);
      }
      revision := reported.revision;
      return Ok(());
    }

    method CreateChangeRequest(id: nat, actor: string, input: Input, now: nat, reported: Reported)
      returns (r: Result<Request, Error>)
      modifies this
      ensures !ValidInput(input) ==> r == Err(InvalidRequest) && doc == old(doc) && revision == old(revision)
      ensures ValidInput(input) ==> r == if reported.Saved? then Ok(NewRequest(id, actor, input, now)) else Err(SaveFailed)
      ensures ValidInput(input) ==>
                doc == if reported.Saved?
                       then old(doc).(requests := old(doc).requests[id := NewRequest(id, actor, input, now)]) else old(doc)
      ensures ValidInput(input) ==> revision == if reported.Saved? then reported.revision else old(revision)
    {
      hide Supported, IsBlank, Trim;
      if !ValidInput(input) { return Err(InvalidRequest); }
      var request := NewRequest(id, actor, input, now);
      var previous := doc;
      doc := doc.(requests := doc.requests[id := request]);
      var s := SaveOrRestore(previous, reported);
      return if s.Ok? then Ok(request) else Err(s.error);
    }

    method ApproveChangeRequest(id: nat, actor: string, now: nat, reported: Reported) returns (r: Result<Request, Error>)
      modifies this
      ensures var e := Approve(old(doc), id, actor, now);
              && doc == (if e.Ok? && reported.Saved? then e.value else old(doc))
              && revision == (if e.Ok? && reported.Saved? then reported.revision else old(revision))
              && (e.Err? ==> r == Err(e.error))
              && (e.Ok? ==> r == if reported.Saved? then Ok(e.value.requests[id]) else Err(SaveFailed))
    {
      var previous := doc;
      if id !in doc.requests { return Err(NotFound); }
      var request := doc.requests[id];
      if request.status == Applied { return Err(Conflict); }
      for i := 0 to |request.approvals|
        invariant forall j :: 0 <= j < i ==> request.approvals[j].actor != actor
      {
        if request.approvals[i].actor == actor {
          assert ApprovedBy(request, actor);
          return Err(SameApprover);
        }
      }
      request := request.(approvals := request.approvals + [Approval(actor, now)], status := Approved, updatedAt := now);
      doc := doc.(requests := doc.requests[id := request]);
      var s := SaveOrRestore(previous, reported);
      return if s.Ok? then Ok(request) else Err(s.error);
    }

    method MarkChangeApplied(id: nat, dual: bool, now: nat, reported: Reported) returns (r: Result<(), Error>)
      modifies this
      ensures var e := MarkApplied(old(doc), id, dual, now);
              && doc == (if e.Ok? && reported.Saved? then e.value else old(doc))
              && revision == (if e.Ok? && reported.Saved? then reported.revision else old(revision))
              && r == if e.Err? then Err(e.error) else if reported.Saved? then Ok(()) else Err(SaveFailed)
    {
      var previous := doc;
      if id !in doc.requests { return Err(NotFound); }
      var request := doc.requests[id];
      var minimum := if dual then 2 else 1;
      var allowed := request.status == Approved || (!dual && request.status == PendingSecondApproval);
      if !allowed || |request.approvals| < minimum { return Err(Forbidden); }
      doc := doc.(requests := doc.requests[id := request.(status := Applied, appliedAt := Some(now), updatedAt := now)]);
      r := SaveOrRestore(previous, reported);
    }

    /** The second lock section of `apply_project_policy`. Were the request gone by then, the
        policy would stay in memory unsaved; runs show that it is never gone. */
    method FinishPolicy(id: nat, request: Request, actor: string, now: nat, reported: Reported)
      returns (r: Result<Policy, Error>)
      modifies this
      ensures var p, e := PolicyOf(request, actor, now), ApplyPolicy(old(doc), id, request, actor, now);
              && doc == (if e.Ok? then if reported.Saved? then e.value else old(doc)
                         else if p.Ok? then WithPolicy(old(doc), p.value) else old(doc))
              && revision == (if e.Ok? && reported.Saved? then reported.revision else old(revision))
              && (e.Err? ==> r == Err(e.error))
              && (e.Ok? ==> r == if reported.Saved? then p else Err(SaveFailed))
    {
      hide ValidPolicy;
      var policy := PolicyOf(request, actor, now);
      if policy.Err? { return policy; }
      var previous := doc;
      doc := WithPolicy(doc, policy.value);
      if id !in doc.requests { return Err(NotFound); }
      doc := doc.(requests := doc.requests[id := MarkedApplied(doc.requests[id], now)]);
      var s := SaveOrRestore(previous, reported);
      return if s.Ok? then policy else Err(s.error);
    }
  }
}
