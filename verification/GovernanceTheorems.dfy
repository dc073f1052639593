/** What holds over every run of the governance stores, and with it that data stays local. */
module GovernanceTheorems {
  import opened Common
  import opened GovernancePolicy
  import opened Governance
  import opened GovernanceRuns
  import SchedulerMachine
  import SchedulerTheorems

  // ---- No lost updates ---------------------------------------------------------------------------------

  /** A stale instance never changes the store, whatever the store reports. */
  lemma StaleNeverCommits(w: World, s: Step)
    requires w.log != [] && s.ChangeStep? && s.i in w.instances
    requires w.instances[s.i].revision != Stored(w).revision
    ensures Next(w, s).log == w.log
  {
  }

  /** Stored documents are never rewritten. */
  lemma {:induction false} LogsGrow(ws: seq<World>, steps: seq<Step>, j: nat, k: nat)
    requires IsRun(ws, steps) && j <= k < |ws|
    ensures ws[j].log <= ws[k].log
  {
    hide Possible, Effect, Applicable, AfterError, Finished;
    if j < k {
      LogsGrow(ws, steps, j, k - 1);
    }
  }

  /** In every run, whatever documents come from outside: an instance at the stored revision
      holds the stored document, and every document an instance ever committed is its change
      applied to the document just before. */
  lemma NoLostUpdates(ws: seq<World>, steps: seq<Step>, k: nat)
    requires IsRun(ws, steps) && k < |ws|
    ensures ws[k].log != [] && Increasing(ws[k].log)
    ensures forall i :: i in ws[k].instances && ws[k].instances[i].revision == Stored(ws[k]).revision ==>
              ws[k].instances[i].doc == Stored(ws[k]).doc
    ensures forall n :: 0 < n < |ws[k].log| ==> BuildsOn(ws[k].log, n)
  {
    hide IsRun, BuildsOn;
    RunsKeepInv(ws, steps, k);
    forall i | i in ws[k].instances && ws[k].instances[i].revision == Stored(ws[k]).revision
      ensures ws[k].instances[i].doc == Stored(ws[k]).doc
    {
      CurrentMeansSame(ws[k], i);
    }
  }

  function Replay(doc: Document, changes: seq<Change>): Result<Document, Error> {
    if changes == [] then Ok(doc)
    else
      var before := Replay(doc, changes[..|changes| - 1]);
      if before.Err? then before else Effect(before.value, changes[|changes| - 1])
  }

  /** Between outside writes, the stored document is all committed changes in sequence: no
      change of one instance undoes or skips another's. */
  lemma {:induction false} HistoryReplays(log: seq<Entry>, a: nat, b: nat, changes: seq<Change>)
    requires LogOk(log) && a <= b < |log| && |changes| == b - a
    requires forall n :: a < n <= b ==> log[n].change == Some(changes[n - a - 1])
    ensures Replay(log[a].doc, changes) == Ok(log[b].doc)
    decreases b
  {
    hide Effect;
    if a < b {
      HistoryReplays(log, a, b - 1, changes[..|changes| - 1]);
      assert BuildsOn(log, b);
    }
  }

  // ---- How often a change is applied ---------------------------------------------------------------------

  predicate Applies(c: Option<Change>, id: nat) {
    c.Some? && (c.value.PolicyChange? || c.value.MarkChange?) && c.value.id == id
  }

  /** How many of the documents after the first `a` and up to `b` applied the change `id`. */
  function Applications(log: seq<Entry>, a: nat, b: nat, id: nat): nat
    requires a <= b < |log|
    decreases b
  {
    if b == a then 0
    else Applications(log, a, b - 1, id) + if Applies(log[b].change, id) then 1 else 0
  }

  /** The entries after `a` up to `b` are changes by instances, none of which recreates `id`. */
  ghost predicate OwnChanges(log: seq<Entry>, a: nat, b: nat, id: nat)
    requires a <= b < |log|
  {
    forall n :: a < n <= b ==> log[n].change.Some? && !(log[n].change.value.CreateChange? && log[n].change.value.id == id)
  }

  predicate IsApplied(doc: Document, id: nat) {
    id in doc.requests && doc.requests[id].status == Applied
  }

  /** A change moves a request to applied exactly by applying it, never back, and marking
      refuses a request that is applied already. Applying a policy does not. */
  lemma AppliedByApplying(doc: Document, c: Change, id: nat)
    requires Effect(doc, c).Ok? && id in doc.requests && !(c.CreateChange? && c.id == id)
    ensures id in Effect(doc, c).value.requests
    ensures IsApplied(Effect(doc, c).value, id) <==> IsApplied(doc, id) || Applies(Some(c), id)
    ensures Applies(Some(c), id) && IsApplied(doc, id) ==> c.PolicyChange?
  {
    hide ValidPolicy;
  }

  lemma {:induction false} AppliedIffApplication(log: seq<Entry>, a: nat, b: nat, id: nat)
    requires LogOk(log) && a <= b < |log| && OwnChanges(log, a, b, id)
    requires id in log[a].doc.requests && !IsApplied(log[a].doc, id)
    ensures id in log[b].doc.requests && (IsApplied(log[b].doc, id) <==> Applications(log, a, b, id) > 0)
    decreases b
  {
    hide Effect;
    if a < b {
      AppliedIffApplication(log, a, b - 1, id);
      assert BuildsOn(log, b);
      AppliedByApplying(log[b - 1].doc, log[b].change.value, id);
    }
  }

  /** A change is applied at most once exactly if no policy change is committed while the
      document it is committed on has it as applied already: the check that the second half
      of applying a policy does not repeat. */
  lemma {:induction false} AppliedOnceIff(log: seq<Entry>, a: nat, b: nat, id: nat)
    requires LogOk(log) && a <= b < |log| && OwnChanges(log, a, b, id)
    requires id in log[a].doc.requests && !IsApplied(log[a].doc, id)
    ensures Applications(log, a, b, id) <= 1 <==>
              forall n :: a < n <= b && log[n].change.value.PolicyChange? && log[n].change.value.id == id ==>
                !IsApplied(log[n - 1].doc, id)
    decreases b
  {
    hide Effect;
    if a < b {
      AppliedOnceIff(log, a, b - 1, id);
      AppliedIffApplication(log, a, b - 1, id);
      assert BuildsOn(log, b);
      AppliedByApplying(log[b - 1].doc, log[b].change.value, id);
    }
  }

  // A change applied twice, so that an older policy replaces a newer one.

  const OWNER: Tenant := Tenant("o", "p", "e")

  const OPEN: Policy := Policy(OWNER, SchedulerCore.CloudFirst, PublicData, [], [], [], [], true, "", 0)

  const CLOSED: Policy := Policy(OWNER, SchedulerCore.LocalStrict, PublicData, [], [], [], [], false, "", 0)

  function ApprovedRequest(id: nat, p: Policy): Request {
    Request(id, PolicyUpsert, "t", PolicyPayload(p), "", Approved, "x", [Approval("x", 0), Approval("y", 0)], 0, 0, None)
  }

  const BOTH_APPROVED: Document := Document(map[], map[1 := ApprovedRequest(1, OPEN), 2 := ApprovedRequest(2, CLOSED)])

  lemma PoliciesAreValid()
    ensures ValidPolicy(OPEN) && ValidPolicy(CLOSED)
  {
    assert |"o"| == |"p"| == |"e"| == 1;
  }

  /** The document after changes 1, 2 and 1 again were applied to the approved requests. */
  lemma AppliedInTurn()
    ensures var first := ApplyPolicy(BOTH_APPROVED, 1, ApprovedRequest(1, OPEN), "x", 10);
            first.Ok?
            && var second := ApplyPolicy(first.value, 2, ApprovedRequest(2, CLOSED), "x", 20);
               second.Ok? && OWNER.Key() in second.value.policies
               && second.value.policies[OWNER.Key()].maximumMode == SchedulerCore.LocalStrict
               && var third := ApplyPolicy(second.value, 1, ApprovedRequest(1, OPEN), "x", 30);
                  third.Ok? && OWNER.Key() in third.value.policies
                  && third.value.policies[OWNER.Key()].maximumMode == SchedulerCore.CloudFirst
  {
    PoliciesAreValid();
    hide ValidPolicy, Tenant.Key;
  }

  lemma BothApprovedIsOk()
    ensures DocOk(BOTH_APPROVED)
  {
    assert "x" != "y" by { assert "x"[0] != "y"[0]; }
    assert RequestOk(ApprovedRequest(1, OPEN)) && RequestOk(ApprovedRequest(2, CLOSED));
  }

  /** One instance, alone with the store. */
  function Alone(log: seq<Entry>, doc: Document, revision: nat, checked: multiset<Check>): (w: World)
    ensures w.log == log
  {
    World(log, map[0 := Instance(doc, revision, checked)])
  }

  lemma OneByOne<T>(a: T, b: T)
    ensures multiset{} + multiset{a} == multiset{a} && multiset{a} + multiset{a} == multiset{a, a}
    ensures multiset{a, a} + multiset{b} == multiset{a, b} + multiset{a} == multiset{a, a, b}
    ensures multiset{a} + multiset{b} == multiset{a, b}
  {
  }

  lemma LoadLeads(log: seq<Entry>)
    requires log != []
    ensures Possible(World(log, map[]), LoadStep(0))
    ensures Next(World(log, map[]), LoadStep(0)) == Alone(log, log[|log| - 1].doc, log[|log| - 1].revision, multiset{})
  {
  }

  lemma CheckLeads(log: seq<Entry>, doc: Document, revision: nat, checked: multiset<Check>, id: nat, r: Request)
    requires log != [] && Applicable(doc, id, true) == Ok(r)
    ensures Possible(Alone(log, doc, revision, checked), CheckStep(0, id, true))
    ensures Next(Alone(log, doc, revision, checked), CheckStep(0, id, true))
            == Alone(log, doc, revision, checked + multiset{Check(id, r)})
  {
  }

  lemma ApplyLeads(log: seq<Entry>, doc: Document, revision: nat, checked: multiset<Check>, c: Change)
    requires log != [] && log[|log| - 1].revision == revision && c.PolicyChange? && Effect(doc, c).Ok?
    ensures var before, next := checked + multiset{Check(c.id, c.request)}, Effect(doc, c).value;
            && Possible(Alone(log, doc, revision, before), ChangeStep(0, c, Reports))
            && Next(Alone(log, doc, revision, before), ChangeStep(0, c, Reports))
               == Alone(log + [Entry(revision + 1, next, Some(c))], next, revision + 1, checked)
  {
    hide Effect;
    assert checked + multiset{Check(c.id, c.request)} - multiset{Check(c.id, c.request)} == checked;
  }

  /** Two calls have checked a policy change before either applies it. The first applies it,
      another change is applied, the second call applies it again. */
  lemma TwiceRun(doc: Document, first: Change, second: Change, again: Change)
    returns (ws: seq<World>, steps: seq<Step>)
    requires first.PolicyChange? && second.PolicyChange? && again.PolicyChange?
    requires again.id == first.id && again.request == first.request
    requires Applicable(doc, first.id, true) == Ok(first.request) && Applicable(doc, second.id, true) == Ok(second.request)
    requires Effect(doc, first).Ok? && Effect(Effect(doc, first).value, second).Ok?
    requires Effect(Effect(Effect(doc, first).value, second).value, again).Ok?
    ensures IsRun(ws, steps) && |ws| == 8 && ws[0].log[0].doc == doc
    ensures var d1 := Effect(doc, first).value;
            var d2 := Effect(d1, second).value;
            ws[7].log == [Entry(0, doc, None), Entry(1, d1, Some(first)), Entry(2, d2, Some(second)),
                          Entry(3, Effect(d2, again).value, Some(again))]
  {
    hide Effect, Applicable, Next, Possible, Alone;
    var d1 := Effect(doc, first).value;
    var d2 := Effect(d1, second).value;
    var d3 := Effect(d2, again).value;
    var l0 := [Entry(0, doc, None)];
    var l1 := l0 + [Entry(1, d1, Some(first))];
    var l2 := l1 + [Entry(2, d2, Some(second))];
    var l3 := l2 + [Entry(3, d3, Some(again))];
    var k1, k2 := Check(first.id, first.request), Check(second.id, second.request);
    steps := [LoadStep(0), CheckStep(0, k1.id, true), CheckStep(0, k1.id, true), CheckStep(0, k2.id, true),
              ChangeStep(0, first, Reports), ChangeStep(0, second, Reports), ChangeStep(0, again, Reports)];
    ws := [World(l0, map[]), Alone(l0, doc, 0, multiset{}), Alone(l0, doc, 0, multiset{k1}),
           Alone(l0, doc, 0, multiset{k1, k1}), Alone(l0, doc, 0, multiset{k1, k1, k2}),
           Alone(l1, d1, 1, multiset{k1, k2}), Alone(l2, d2, 2, multiset{k1}), Alone(l3, d3, 3, multiset{})];
    OneByOne(k1, k2);
    LoadLeads(l0);
    CheckLeads(l0, doc, 0, multiset{}, k1.id, k1.request);
    CheckLeads(l0, doc, 0, multiset{k1}, k1.id, k1.request);
    CheckLeads(l0, doc, 0, multiset{k1, k1}, k2.id, k2.request);
    ApplyLeads(l0, doc, 0, multiset{k1, k2}, first);
    ApplyLeads(l1, d1, 1, multiset{k1}, second);
    ApplyLeads(l2, d2, 2, multiset{}, again);
  }

  lemma TwoOfThree(log: seq<Entry>)
    requires |log| == 4 && Applies(log[1].change, 1) && !Applies(log[2].change, 1) && Applies(log[3].change, 1)
    ensures Applications(log, 0, 3, 1) == 2
  {
    assert Applications(log, 0, 1, 1) == 1 && Applications(log, 0, 2, 1) == 1;
  }

  /** A run in which change 1 is checked by two calls, both calls apply it, and between them
      change 2 closes the policy that change 1 opened: the second application opens it again. */
  lemma OldPolicyCanReturn() returns (ws: seq<World>, steps: seq<Step>)
    ensures IsRun(ws, steps) && DocOk(ws[0].log[0].doc) && |ws| == 8 && |ws[7].log| == 4
    ensures Applications(ws[7].log, 0, 3, 1) == 2
    ensures OWNER.Key() in ws[7].log[2].doc.policies && OWNER.Key() in ws[7].log[3].doc.policies
    ensures ws[7].log[2].doc.policies[OWNER.Key()].maximumMode == SchedulerCore.LocalStrict
    ensures ws[7].log[3].doc.policies[OWNER.Key()].maximumMode == SchedulerCore.CloudFirst
  {
    AppliedInTurn();
    BothApprovedIsOk();
    hide ApplyPolicy, DocOk, Tenant.Key, Applications, IsRun;
    var first := PolicyChange(1, ApprovedRequest(1, OPEN), "x", 10);
    var second := PolicyChange(2, ApprovedRequest(2, CLOSED), "x", 20);
    var again := PolicyChange(1, ApprovedRequest(1, OPEN), "x", 30);
    ws, steps := TwiceRun(BOTH_APPROVED, first, second, again);
    TwoOfThree(ws[7].log);
  }

  // ---- Two administrators --------------------------------------------------------------------------------

  ghost predicate AppliedTwice(doc: Document) {
    forall id :: IsApplied(doc, id) ==> |doc.requests[id].approvals| >= 2
  }

  ghost predicate MemoryTwice(inst: Instance) {
    && AppliedTwice(inst.doc)
    && (forall c :: c in inst.checked ==> c.id in inst.doc.requests && |inst.doc.requests[c.id].approvals| >= 2)
  }

  ghost predicate TwiceInv(w: World) {
    && (forall k :: 0 <= k < |w.log| ==> AppliedTwice(w.log[k].doc))
    && (forall i :: i in w.instances ==> MemoryTwice(w.instances[i]))
  }

  /** Every application requires both approvals, also outside, and request ids are fresh. */
  ghost predicate DualStep(w: World, s: Step) {
    match s
    case CheckStep(_, _, dual) => dual
    case ChangeStep(i, c, _) =>
      && (c.MarkChange? ==> c.dual)
      && (c.CreateChange? ==> c.request.status != Applied && i in w.instances && c.id !in w.instances[i].doc.requests)
    case OutsideStep(doc, _) => AppliedTwice(doc)
    case LoadStep(_) => true
  }

  /** No change takes an approval back. */
  lemma ApprovalsGrow(doc: Document, c: Change, id: nat)
    requires Effect(doc, c).Ok? && id in doc.requests && !(c.CreateChange? && c.id == id)
    ensures id in Effect(doc, c).value.requests
    ensures doc.requests[id].approvals <= Effect(doc, c).value.requests[id].approvals
  {
    hide ValidPolicy;
  }

  lemma EffectKeepsApplied(inst: Instance, c: Change)
    requires MemoryTwice(inst) && Effect(inst.doc, c).Ok?
    requires c.CreateChange? ==> c.request.status != Applied
    requires c.PolicyChange? ==> Check(c.id, c.request) in inst.checked
    requires c.MarkChange? ==> c.dual
    ensures AppliedTwice(Effect(inst.doc, c).value)
  {
    hide ValidPolicy;
  }

  lemma EffectKeepsTwice(inst: Instance, c: Change, revision: nat)
    requires MemoryTwice(inst) && Effect(inst.doc, c).Ok?
    requires c.CreateChange? ==> c.id !in inst.doc.requests && c.request.status != Applied
    requires c.PolicyChange? ==> Check(c.id, c.request) in inst.checked
    requires c.MarkChange? ==> c.dual
    ensures AppliedTwice(Effect(inst.doc, c).value)
    ensures MemoryTwice(Finished(inst, c).(doc := Effect(inst.doc, c).value, revision := revision))
  {
    hide Effect, AppliedTwice;
    EffectKeepsApplied(inst, c);
    var next := Effect(inst.doc, c).value;
    forall k | k in inst.checked ensures k.id in next.requests && |next.requests[k.id].approvals| >= 2 {
      ApprovalsGrow(inst.doc, c, k.id);
    }
  }

  lemma FinishedKeepsTwice(inst: Instance, c: Change)
    requires MemoryTwice(inst)
    ensures MemoryTwice(Finished(inst, c)) && Finished(inst, c).doc == inst.doc
    ensures Finished(inst, c).(doc := inst.doc) == Finished(inst, c)
  {
  }

  lemma CheckKeepsTwice(inst: Instance, id: nat)
    requires MemoryTwice(inst) && Applicable(inst.doc, id, true).Ok?
    ensures MemoryTwice(inst.(checked := inst.checked + multiset{Check(id, Applicable(inst.doc, id, true).value)}))
  {
  }

  lemma LoadedTwice(doc: Document, revision: nat)
    requires AppliedTwice(doc)
    ensures MemoryTwice(Instance(doc, revision, multiset{}))
  {
  }

  lemma StepKeepsTwice(w: World, s: Step)
    requires Inv(w) && TwiceInv(w) && Possible(w, s) && DualStep(w, s)
    ensures TwiceInv(Next(w, s))
  {
    hide Effect, AppliedTwice, MemoryTwice, LogOk, Sees, AfterError, Finished, Applicable;
    LogIsOk(w);
    match s
    case LoadStep(_) =>
      LoadedTwice(Stored(w).doc, Stored(w).revision);
    case CheckStep(i, id, dual) =>
      if i in w.instances && Applicable(w.instances[i].doc, id, true).Ok? {
        CheckKeepsTwice(w.instances[i], id);
      }
    case ChangeStep(i, c, _) =>
      var inst := w.instances[i];
      FinishedKeepsTwice(inst, c);
      if Effect(inst.doc, c).Err? {
        ErrorsLeaveMemory(inst, c);
      } else {
        EffectKeepsTwice(inst, c, Stored(w).revision + 1);
      }
    case OutsideStep(_, _) =>
  }

  predicate ByTwo(r: Request) {
    exists i, j :: 0 <= i < j < |r.approvals| && r.approvals[i].actor != r.approvals[j].actor
  }

  lemma {:induction false} RunsKeepTwice(ws: seq<World>, steps: seq<Step>, k: nat)
    requires IsRun(ws, steps) && AppliedTwice(ws[0].log[0].doc) && k < |ws|
    requires forall n :: 0 <= n < |steps| ==> DualStep(ws[n], steps[n])
    ensures TwiceInv(ws[k])
  {
    hide Next, Possible, AppliedTwice, DualStep;
    if k > 0 {
      RunsKeepTwice(ws, steps, k - 1);
      RunsKeepInv(ws, steps, k - 1);
      StepKeepsTwice(ws[k - 1], steps[k - 1]);
    }
  }

  lemma TwiceMeansByTwo(doc: Document, id: nat)
    requires DocOk(doc) && AppliedTwice(doc) && IsApplied(doc, id)
    ensures ByTwo(doc.requests[id])
  {
    var r := doc.requests[id];
    assert RequestOk(r);
    assert r.approvals[0].actor != r.approvals[1].actor;
  }

  /** Where both approvals are required throughout, no change is ever applied, in the store or
      in any memory, without the approval of two different administrators. */
  lemma TwoPersonRule(ws: seq<World>, steps: seq<Step>, k: nat, id: nat)
    requires IsRun(ws, steps) && DocOk(ws[0].log[0].doc) && AppliedTwice(ws[0].log[0].doc) && k < |ws|
    requires forall n :: 0 <= n < |steps| ==> Orderly(steps[n]) && DualStep(ws[n], steps[n])
    ensures forall n :: 0 <= n < |ws[k].log| && IsApplied(ws[k].log[n].doc, id) ==> ByTwo(ws[k].log[n].doc.requests[id])
    ensures forall i :: i in ws[k].instances && IsApplied(ws[k].instances[i].doc, id) ==>
              ByTwo(ws[k].instances[i].doc.requests[id])
  {
    hide IsRun, Orderly, DualStep, DocOk, AppliedTwice, ByTwo;
    RunsKeepTwice(ws, steps, k);
    OrderlyRunsKeepDocs(ws, steps, k);
    forall n | 0 <= n < |ws[k].log| && IsApplied(ws[k].log[n].doc, id) ensures ByTwo(ws[k].log[n].doc.requests[id]) {
      TwiceMeansByTwo(ws[k].log[n].doc, id);
    }
    forall i | i in ws[k].instances && IsApplied(ws[k].instances[i].doc, id)
      ensures ByTwo(ws[k].instances[i].doc.requests[id])
    {
      TwiceMeansByTwo(ws[k].instances[i].doc, id);
    }
  }

  // ---- Data stays local ---------------------------------------------------------------------------------------

  /** Whatever document a store holds: unknown or sensitive data, or a project without cloud,
      is only ever tried on local providers in their order, and no scheduler run answers such
      a request with an overflow to the cloud. */
  lemma DataStaysLocal(doc: Document, tenant: Tenant, requested: Option<SchedulerCore.HybridMode>, data: Classification,
                       attempts: seq<Attempt>, cfg: SchedulerCore.Config, states: seq<SchedulerMachine.Sys>,
                       actions: seq<SchedulerMachine.Action>, n: nat, t: nat)
    requires data.ForcesLocal() || !EffectivePolicy(doc, tenant).cloudEnabled
    requires EffectiveMode(EffectivePolicy(doc, tenant), requested, data).Ok?
    requires SchedulerMachine.IsRun(cfg, states, actions) && n < |states| && t in states[n].threads
    requires states[n].threads[t].mode == EffectiveMode(EffectivePolicy(doc, tenant), requested, data).value
    requires var tried := Tried(EffectivePolicy(doc, tenant), states[n].threads[t].mode, attempts);
             states[n].threads[t].cloud ==> exists x :: 0 <= x < |tried| && !tried[x].Local()
    ensures var p, mode := EffectivePolicy(doc, tenant), states[n].threads[t].mode;
            && Tried(p, mode, attempts) == Authorized(p, Side(attempts, true))
            && (forall x :: 0 <= x < |Tried(p, mode, attempts)| ==> Tried(p, mode, attempts)[x].Local())
            && states[n].threads[t].pc != SchedulerMachine.Done(SchedulerMachine.Overflow)
  {
    hide EffectivePolicy, Tried, Authorized, Side, Attempt.Local, SchedulerMachine.IsRun;
    TriesOnlyLocal(EffectivePolicy(doc, tenant), states[n].threads[t].mode, attempts);
    SchedulerTheorems.LocalStrictNeverOverflows(cfg, states, actions, n);
  }

  /** In every run into which nothing out of order comes, every instance grants such requests
      local-strict mode and nothing else. */
  lemma LocalModeOverRuns(ws: seq<World>, steps: seq<Step>, k: nat, i: nat, tenant: Tenant,
                          requested: Option<SchedulerCore.HybridMode>, data: Classification)
    requires IsRun(ws, steps) && DocOk(ws[0].log[0].doc) && k < |ws| && i in ws[k].instances && tenant.Valid()
    requires forall n :: 0 <= n < |steps| ==> Orderly(steps[n])
    requires data.ForcesLocal() || !EffectivePolicy(ws[k].instances[i].doc, tenant).cloudEnabled
    ensures var m := EffectiveMode(EffectivePolicy(ws[k].instances[i].doc, tenant), requested, data);
            m.Ok? ==> m.value == SchedulerCore.LocalStrict
  {
    hide IsRun, Orderly, DocOk, EffectivePolicy, EffectiveMode, Tenant.Valid, ValidPolicy;
    OrderlyRunsKeepDocs(ws, steps, k);
    EffectivePolicyIsOwn(ws[k].instances[i].doc, tenant);
    StaysLocalStrict(EffectivePolicy(ws[k].instances[i].doc, tenant), requested, data);
  }
}
