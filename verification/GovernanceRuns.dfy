/**
 Any number of governance-store instances and outside writers sharing one revisioned store.
 The store accepts a document only if the caller's revision is the stored one, and then
 raises the revision; a write may take effect and still be reported as failed. Documents
 from outside, and the one the store starts with, may hold anything.
 The log of all documents ever stored is history that nobody reads.
 */
module GovernanceRuns {
  import opened Common
  import opened GovernancePolicy
  import opened Governance

  datatype Change =
    | CreateChange(id: nat, request: Request)
    | ApproveChange(id: nat, actor: string, now: nat)
    | MarkChange(id: nat, dual: bool, now: nat)
    | PolicyChange(id: nat, request: Request, actor: string, now: nat)

  /** The document a change tries to save. */
  function Effect(doc: Document, c: Change): Result<Document, Error> {
    match c
    case CreateChange(id, r) => Ok(doc.(requests := doc.requests[id := r]))
    case ApproveChange(id, actor, now) => Approve(doc, id, actor, now)
    case MarkChange(id, dual, now) => MarkApplied(doc, id, dual, now)
    case PolicyChange(id, r, actor, now) => ApplyPolicy(doc, id, r, actor, now)
  }

  /** A change that passed the first half of applying a policy: its id and what was read. */
  datatype Check = Check(id: nat, request: Request)

  /** `checked` holds the calls that are between the two halves. */
  datatype Instance = Instance(doc: Document, revision: nat, checked: multiset<Check>)

  /** One stored document, and the change it came from unless it came from outside. */
  datatype Entry = Entry(revision: nat, doc: Document, change: Option<Change>)

  datatype World = World(log: seq<Entry>, instances: map<nat, Instance>)

  datatype Step =
    | LoadStep(i: nat)
    | CheckStep(i: nat, id: nat, dual: bool)
    | ChangeStep(i: nat, change: Change, fate: Fate)
    | OutsideStep(doc: Document, revision: nat)

  function Stored(w: World): Entry
    requires w.log != []
  {
    w.log[|w.log| - 1]
  }

  /** The memory an erroneous change leaves behind. */
  function AfterError(doc: Document, c: Change): Document {
    if c.PolicyChange? && PolicyOf(c.request, c.actor, c.now).Ok? then
      WithPolicy(doc, PolicyOf(c.request, c.actor, c.now).value)
    else doc
  }

  predicate Commits(w: World, s: Step)
    requires w.log != []
  {
    && s.ChangeStep? && s.i in w.instances && s.fate != Refuses
    && w.instances[s.i].revision == Stored(w).revision && Effect(w.instances[s.i].doc, s.change).Ok?
  }

  /** The instance after its call, apart from what a reported save adds: the call that was
      between the halves of applying a policy is over. */
  function Finished(inst: Instance, c: Change): Instance {
    if c.PolicyChange? then inst.(checked := inst.checked - multiset{Check(c.id, c.request)}) else inst
  }

  function Next(w: World, s: Step): World
    requires w.log != []
  {
    match s
    case LoadStep(i) => w.(instances := w.instances[i := Instance(Stored(w).doc, Stored(w).revision, multiset{})])
    case CheckStep(i, id, dual) =>
      if i in w.instances && Applicable(w.instances[i].doc, id, dual).Ok? then
        var inst := w.instances[i];
        var check := Check(id, Applicable(inst.doc, id, dual).value);
        w.(instances := w.instances[i := inst.(checked := inst.checked + multiset{check})])
      else w
    case ChangeStep(i, c, fate) =>
      if i !in w.instances then w
      else
        var inst := Finished(w.instances[i], c);
        var e := Effect(inst.doc, c);
        if e.Err? then w.(instances := w.instances[i := inst.(doc := AfterError(inst.doc, c))])
        else if !Commits(w, s) then w.(instances := w.instances[i := inst])
        else
          var revision := Stored(w).revision + 1;
          World(w.log + [Entry(revision, e.value, Some(c))],
                w.instances[i := if fate == Reports then inst.(doc := e.value, revision := revision) else inst])
    case OutsideStep(doc, revision) => w.(log := w.log + [Entry(revision, doc, None)])
  }

  /** Policies are applied only after their check, and outside writers raise the revision. */
  predicate Possible(w: World, s: Step)
    requires w.log != []
  {
    match s
    case ChangeStep(i, c, _) =>
      i in w.instances && (c.PolicyChange? ==> Check(c.id, c.request) in w.instances[i].checked)
    case OutsideStep(_, revision) => revision > Stored(w).revision
    case _ => true
  }

  ghost predicate IsRun(ws: seq<World>, steps: seq<Step>) {
    && |ws| == |steps| + 1 && ws[0].instances == map[] && |ws[0].log| == 1 && ws[0].log[0].change == None
    && forall k :: 0 <= k < |steps| ==> ws[k].log != [] && Possible(ws[k], steps[k]) && ws[k + 1] == Next(ws[k], steps[k])
  }

  // ---- What every step keeps ---------------------------------------------------------------------------

  ghost predicate Increasing(log: seq<Entry>) {
    forall i, j :: 0 <= i < j < |log| ==> log[i].revision < log[j].revision
  }

  /** The instance holds the document that was stored under its revision. */
  ghost predicate Sees(log: seq<Entry>, inst: Instance) {
    exists k :: 0 <= k < |log| && log[k].revision == inst.revision && log[k].doc == inst.doc
  }

  /** The checked requests are still there. */
  ghost predicate ChecksHold(inst: Instance) {
    forall c :: c in inst.checked ==> c.id in inst.doc.requests
  }

  /** An instance's entry is its change applied to the entry just before. */
  predicate BuildsOn(log: seq<Entry>, k: nat)
    requires 0 < k < |log|
  {
    log[k].change.Some? ==>
      Effect(log[k - 1].doc, log[k].change.value) == Ok(log[k].doc) && log[k].revision == log[k - 1].revision + 1
  }

  ghost predicate LogOk(log: seq<Entry>) {
    log != [] && Increasing(log) && forall k :: 0 < k < |log| ==> BuildsOn(log, k)
  }

  ghost predicate InstancesOk(w: World) {
    forall i :: i in w.instances ==> Sees(w.log, w.instances[i]) && ChecksHold(w.instances[i])
  }

  ghost predicate Inv(w: World) {
    LogOk(w.log) && InstancesOk(w)
  }

  /** Change requests never disappear. */
  lemma RequestsStay(doc: Document, c: Change)
    requires Effect(doc, c).Ok?
    ensures doc.requests.Keys <= Effect(doc, c).value.requests.Keys
  {
    hide ValidPolicy;
  }

  lemma AppendKeepsLog(log: seq<Entry>, e: Entry)
    requires LogOk(log) && e.revision > log[|log| - 1].revision
    requires e.change.Some? ==> Effect(log[|log| - 1].doc, e.change.value) == Ok(e.doc)
                                && e.revision == log[|log| - 1].revision + 1
    ensures LogOk(log + [e])
  {
    hide Effect;
    forall k | 0 < k < |log + [e]| ensures BuildsOn(log + [e], k) {
      if k < |log| {
        assert BuildsOn(log, k);
      }
    }
  }

  lemma AppendKeepsSight(log: seq<Entry>, e: Entry, inst: Instance)
    requires Sees(log, inst)
    ensures Sees(log + [e], inst)
  {
    var k :| 0 <= k < |log| && log[k].revision == inst.revision && log[k].doc == inst.doc;
    assert (log + [e])[k] == log[k];
  }

  lemma SeesLast(log: seq<Entry>, e: Entry, inst: Instance)
    requires inst.doc == e.doc && inst.revision == e.revision
    ensures Sees(log + [e], inst)
  {
    assert (log + [e])[|log|] == e;
  }

  /** An instance whose revision is the stored one holds exactly the stored document. */
  lemma CurrentMeansSame(w: World, i: nat)
    requires Inv(w) && i in w.instances && w.instances[i].revision == Stored(w).revision
    ensures w.instances[i].doc == Stored(w).doc
  {
    hide BuildsOn;
    var k :| 0 <= k < |w.log| && w.log[k].revision == w.instances[i].revision && w.log[k].doc == w.instances[i].doc;
  }

  /** A change that runs into an error leaves the memory alone: the checked request of a
      policy change is always found again. */
  lemma ErrorsLeaveMemory(inst: Instance, c: Change)
    requires ChecksHold(inst) && Effect(inst.doc, c).Err?
    requires c.PolicyChange? ==> Check(c.id, c.request) in inst.checked
    ensures AfterError(inst.doc, c) == inst.doc
  {
    hide ValidPolicy;
  }

  lemma FinishedIsOk(log: seq<Entry>, inst: Instance, c: Change)
    requires Sees(log, inst) && ChecksHold(inst)
    ensures Sees(log, Finished(inst, c)) && ChecksHold(Finished(inst, c))
  {
    var k :| 0 <= k < |log| && log[k].revision == inst.revision && log[k].doc == inst.doc;
  }

  lemma LogIsOk(w: World)
    requires Inv(w)
    ensures LogOk(w.log) && w.log != []
  {
  }

  lemma CommitKeepsInv(w: World, s: Step)
    requires Inv(w) && Possible(w, s) && Commits(w, s)
    ensures Inv(Next(w, s))
  {
    hide BuildsOn, Increasing, Sees, LogOk, Effect;
    LogIsOk(w);
    var inst := Finished(w.instances[s.i], s.change);
    FinishedIsOk(w.log, w.instances[s.i], s.change);
    CurrentMeansSame(w, s.i);
    RequestsStay(inst.doc, s.change);
    var e := Entry(Stored(w).revision + 1, Effect(inst.doc, s.change).value, Some(s.change));
    AppendKeepsLog(w.log, e);
    forall i | i in w.instances ensures Sees(w.log + [e], w.instances[i]) {
      AppendKeepsSight(w.log, e, w.instances[i]);
    }
    AppendKeepsSight(w.log, e, inst);
    SeesLast(w.log, e, inst.(doc := e.doc, revision := e.revision));
  }

  lemma SeesStored(w: World, inst: Instance)
    requires w.log != [] && inst.doc == Stored(w).doc && inst.revision == Stored(w).revision
    ensures Sees(w.log, inst)
  {
  }

  lemma CheckKeepsSight(w: World, inst: Instance, id: nat, dual: bool)
    requires Sees(w.log, inst) && ChecksHold(inst) && Applicable(inst.doc, id, dual).Ok?
    ensures var next := inst.(checked := inst.checked + multiset{Check(id, Applicable(inst.doc, id, dual).value)});
            Sees(w.log, next) && ChecksHold(next)
  {
    var k :| 0 <= k < |w.log| && w.log[k].revision == inst.revision && w.log[k].doc == inst.doc;
  }

  lemma FinishedDoc(inst: Instance, c: Change)
    ensures Finished(inst, c).doc == inst.doc && Finished(inst, c).revision == inst.revision
  {
  }

  lemma StepKeepsInv(w: World, s: Step)
    requires Inv(w) && Possible(w, s)
    ensures Inv(Next(w, s))
  {
    hide Sees, LogOk, Effect, Applicable, Finished, AfterError;
    LogIsOk(w);
    match s
    case LoadStep(i) =>
      SeesStored(w, Instance(Stored(w).doc, Stored(w).revision, multiset{}));
    case CheckStep(i, id, dual) =>
      if i in w.instances && Applicable(w.instances[i].doc, id, dual).Ok? {
        CheckKeepsSight(w, w.instances[i], id, dual);
      }
    case ChangeStep(i, c, fate) =>
      FinishedIsOk(w.log, w.instances[i], c);
      FinishedDoc(w.instances[i], c);
      if Commits(w, s) {
        CommitKeepsInv(w, s);
      } else if Effect(w.instances[i].doc, c).Err? {
        ErrorsLeaveMemory(w.instances[i], c);
      }
    case OutsideStep(doc, revision) =>
      var e := Entry(revision, doc, None);
      AppendKeepsLog(w.log, e);
      forall i | i in w.instances ensures Sees(w.log + [e], w.instances[i]) {
        AppendKeepsSight(w.log, e, w.instances[i]);
      }
  }

  lemma {:induction false} RunsKeepInv(ws: seq<World>, steps: seq<Step>, k: nat)
    requires IsRun(ws, steps) && k < |ws|
    ensures Inv(ws[k])
  {
    hide Next, Possible;
    if k > 0 {
      RunsKeepInv(ws, steps, k - 1);
      StepKeepsInv(ws[k - 1], steps[k - 1]);
    }
  }

  // ---- Documents in order -------------------------------------------------------------------------------

  /** A step that brings in no document and no request that is out of order. */
  ghost predicate Orderly(s: Step) {
    match s
    case ChangeStep(_, c, _) => c.CreateChange? ==> c.request.id == c.id && RequestOk(c.request)
    case OutsideStep(doc, _) => DocOk(doc)
    case _ => true
  }

  ghost predicate AllDocsOk(log: seq<Entry>) {
    forall k :: 0 <= k < |log| ==> DocOk(log[k].doc)
  }

  lemma EffectKeepsOk(doc: Document, c: Change)
    requires DocOk(doc) && Effect(doc, c).Ok? && (c.CreateChange? ==> c.request.id == c.id && RequestOk(c.request))
    ensures DocOk(Effect(doc, c).value)
  {
    hide DocOk, RequestOk, Approve, MarkApplied, ApplyPolicy;
    match c
    case CreateChange(_, r) => CreateKeepsOk(doc, r);
    case ApproveChange(id, actor, now) => ApproveKeepsOk(doc, id, actor, now);
    case MarkChange(id, dual, now) => MarkKeepsOk(doc, id, dual, now);
    case PolicyChange(id, r, actor, now) => ApplyPolicyKeepsOk(doc, id, r, actor, now);
  }

  lemma NextLog(w: World, s: Step)
    requires Inv(w) && Possible(w, s)
    ensures Next(w, s).log ==
              if Commits(w, s)
              then w.log + [Entry(Stored(w).revision + 1, Effect(w.instances[s.i].doc, s.change).value, Some(s.change))]
              else if s.OutsideStep? then w.log + [Entry(s.revision, s.doc, None)]
              else w.log
  {
    hide Effect, AfterError, Applicable, Sees, LogOk;
    LogIsOk(w);
  }

  lemma StepKeepsDocs(w: World, s: Step)
    requires Inv(w) && Possible(w, s) && Orderly(s) && AllDocsOk(w.log)
    ensures AllDocsOk(Next(w, s).log)
  {
    hide DocOk, Effect, Next, Sees, BuildsOn, RequestOk;
    NextLog(w, s);
    if Commits(w, s) {
      CurrentMeansSame(w, s.i);
      EffectKeepsOk(w.instances[s.i].doc, s.change);
    }
  }

  /** Where nothing out of order comes in, every document ever stored, and every document in
      memory, is in order. */
  lemma {:induction false} OrderlyRunsKeepDocs(ws: seq<World>, steps: seq<Step>, k: nat)
    requires IsRun(ws, steps) && DocOk(ws[0].log[0].doc) && k < |ws|
    requires forall n :: 0 <= n < |steps| ==> Orderly(steps[n])
    ensures AllDocsOk(ws[k].log)
    ensures forall i :: i in ws[k].instances ==> DocOk(ws[k].instances[i].doc)
  {
    hide Next, Possible, DocOk, Orderly;
    RunsKeepInv(ws, steps, k);
    if k > 0 {
      OrderlyRunsKeepDocs(ws, steps, k - 1);
      RunsKeepInv(ws, steps, k - 1);
      StepKeepsDocs(ws[k - 1], steps[k - 1]);
    }
    forall i | i in ws[k].instances ensures DocOk(ws[k].instances[i].doc) {
      assert Sees(ws[k].log, ws[k].instances[i]);
    }
  }
}
