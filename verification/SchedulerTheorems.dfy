/**
 The scheduler's guarantees, stated over whole runs: every state of every
 interleaving of any number of requests.
 */
module SchedulerTheorems {
  import opened Common
  import opened SchedulerCore
  import opened SchedulerMachine
  import opened SchedulerExclusion
  import opened SchedulerQueues
  import opened SchedulerFairness
  import opened SchedulerWakeups

  ghost predicate ClassInv(s: Sys, class_: WorkloadClass) {
    QueueInv(s, class_) && HeadInv(s, class_)
  }

  ghost predicate Inv(s: Sys) {
    ClassInv(s, Interactive) && ClassInv(s, Batch) && CountInv(s) && WakeInv(s)
  }

  lemma InitialInv()
    ensures Inv(Initial())
  {
    var s := Initial();
    assert s.shared.core.Queue(Interactive) == [] && s.shared.core.Queue(Batch) == [];
  }

  lemma KeepsInv(cfg: Config, s: Sys, a: Action)
    requires cfg.Accepted() && Enabled(s, a) && Exclusive(s) && Inv(s)
    requires s.shared.core.nextId <= U64_MAX && !Clashes(s, a, Next(cfg, s, a))
    ensures Inv(Next(cfg, s, a))
  {
    hide Step, Next, QueueInv, HeadInv, CountInv, WakeInv, Exclusive, Clashes;
    KeepsQueueInv(cfg, s, a, Interactive);
    KeepsQueueInv(cfg, s, a, Batch);
    KeepsHeadInv(cfg, s, a, Interactive);
    KeepsHeadInv(cfg, s, a, Batch);
    KeepsCountInv(cfg, s, a);
    KeepsWakeInv(cfg, s, a);
  }

  /** How many requests have entered a queue before state `k` of a run. */
  ghost function Enqueued(states: seq<Sys>, actions: seq<Action>, k: nat): nat
    requires |states| == |actions| + 1 && k < |states|
  {
    if k == 0 then 0
    else Enqueued(states, actions, k - 1) + if Enters(states[k - 1], actions[k - 1], states[k]) then 1 else 0
  }

  /** No request has entered a queue under a taken id before state `k`. */
  ghost predicate Unclashed(states: seq<Sys>, actions: seq<Action>, k: nat)
    requires |states| == |actions| + 1 && k < |states|
  {
    forall j :: 0 <= j < k ==> !Clashes(states[j], actions[j], states[j + 1])
  }

  /** The counter of queue ids counts the enqueues until it is exhausted. */
  lemma {:induction false} NextIdCounts(cfg: Config, states: seq<Sys>, actions: seq<Action>, k: nat)
    requires IsRun(cfg, states, actions) && k < |states|
    ensures states[k].shared.core.nextId
            == if Enqueued(states, actions, k) <= U64_MAX then Enqueued(states, actions, k) else U64_MAX
  {
    hide Next, Enters;
    if k > 0 {
      NextIdCounts(cfg, states, actions, k - 1);
      NextIdMoves(cfg, states[k - 1], actions[k - 1]);
    }
  }

  /** The first clash takes more enqueues than there are ids. */
  lemma {:induction false} FewNeverClash(cfg: Config, states: seq<Sys>, actions: seq<Action>, k: nat)
    requires IsRun(cfg, states, actions) && k < |states| && Enqueued(states, actions, k) <= U64_MAX
    ensures Unclashed(states, actions, k)
  {
    hide Next, Enters;
    if k > 0 {
      FewNeverClash(cfg, states, actions, k - 1);
      NextIdCounts(cfg, states, actions, k - 1);
    }
  }

  lemma {:induction false} RunsKeepInv(cfg: Config, states: seq<Sys>, actions: seq<Action>, k: nat)
    requires cfg.Accepted() && IsRun(cfg, states, actions) && k < |states| && Unclashed(states, actions, k)
    ensures Inv(states[k])
  {
    hide Step, Next, Inv, Exclusive, Clashes;
    if k == 0 {
      InitialInv();
    } else {
      NextIdCounts(cfg, states, actions, k - 1);
      RunsKeepInv(cfg, states, actions, k - 1);
      RunsAreExclusive(cfg, states, actions, k - 1);
      assert !Clashes(states[k - 1], actions[k - 1], states[k - 1 + 1]);
      KeepsInv(cfg, states[k - 1], actions[k - 1]);
    }
  }

  // ---- No lost wake-up --------------------------------------------------------------------------------

  /** With the permit free and a queue non-empty, the next request waits, and it has a stored
      notification, is about to check, or is about to be notified. */
  ghost predicate Wakes(s: Sys) {
    s.shared.permitFree && Front(s.shared.core).Some? ==>
      Waiter(s, Front(s.shared.core).value) && Served(s, Front(s.shared.core).value)
  }

  lemma FrontWaits(s: Sys)
    requires QueueInv(s, Interactive) && QueueInv(s, Batch)
    ensures Front(s.shared.core).Some? ==> Waiter(s, Front(s.shared.core).value)
  {
  }

  lemma NoLostWakeup(cfg: Config, states: seq<Sys>, actions: seq<Action>, k: nat)
    requires cfg.Accepted() && IsRun(cfg, states, actions) && k < |states| && Unclashed(states, actions, k)
    ensures Wakes(states[k])
  {
    hide IsRun, Waits, HeadInv, CountInv, Served, Unclashed;
    RunsKeepInv(cfg, states, actions, k);
    FrontWaits(states[k]);
  }

  /** Nothing but a deadline can move any thread any more. */
  ghost predicate Stuck(s: Sys) {
    forall t :: t in s.threads ==>
      s.threads[t].pc.Done? || (s.threads[t].pc.Sleeping? && t !in s.shared.stored)
  }

  /** Every request has been answered, and the permit is free again. */
  ghost predicate AllDone(s: Sys) {
    && (forall t :: t in s.threads ==> s.threads[t].pc.Done?)
    && s.shared.permitFree && Front(s.shared.core) == None
  }

  lemma WaiterIsQueued(s: Sys, t: nat)
    requires QueueInv(s, Interactive) && QueueInv(s, Batch)
    ensures Waiter(s, t) ==> Front(s.shared.core).Some?
  {
  }

  /** The scheduler never deadlocks: when no thread can move without a deadline, every
      request has been answered, so no request sleeps beside a free permit. */
  lemma StuckMeansAllDone(cfg: Config, states: seq<Sys>, actions: seq<Action>, k: nat)
    requires cfg.Accepted() && IsRun(cfg, states, actions) && k < |states| && Unclashed(states, actions, k)
    requires Stuck(states[k])
    ensures AllDone(states[k])
  {
    hide Step, Next, CountInv, HeadInv, Unclashed;
    var s := states[k];
    RunsKeepInv(cfg, states, actions, k);
    RunsAreExclusive(cfg, states, actions, k);
    assert forall t :: !Holder(s, t);
    FrontWaits(s);
    assert forall f :: !Awake(s, f);
    assert forall t, f :: !Notifier(s, t, f);
    forall t | t in s.threads ensures s.threads[t].pc.Done? {
      WaiterIsQueued(s, t);
    }
  }

  // ---- Accounting and order ---------------------------------------------------------------------------

  /** The queue limits and the limit per user hold in every state of every run. */
  lemma {:induction false} QueuesAreBounded(cfg: Config, states: seq<Sys>, actions: seq<Action>, k: nat)
    requires IsRun(cfg, states, actions) && k < |states|
    ensures BoundInv(cfg, states[k])
  {
    hide Next;
    if k > 0 {
      QueuesAreBounded(cfg, states, actions, k - 1);
      KeepsBoundInv(cfg, states[k - 1], actions[k - 1]);
    }
  }

  /** Per-user counters count the user's entries in both queues, and ids strictly increase. */
  ghost predicate Accounted(c: Core) {
    && (forall u :: Get(c.queued, u) == CountUser(c.interactive, u) + CountUser(c.batch, u))
    && Increasing(c.interactive) && Increasing(c.batch)
  }

  lemma QueueAccounting(cfg: Config, states: seq<Sys>, actions: seq<Action>, k: nat)
    requires cfg.Accepted() && IsRun(cfg, states, actions) && k < |states| && Unclashed(states, actions, k)
    ensures Accounted(states[k].shared.core)
  {
    hide IsRun, Unclashed, WakeInv, HeadInv, CountUser;
    RunsKeepInv(cfg, states, actions, k);
    var s := states[k];
    assert QueueInv(s, Interactive) && QueueInv(s, Batch);
    assert s.shared.core.Queue(Interactive) == s.shared.core.interactive;
    assert s.shared.core.Queue(Batch) == s.shared.core.batch;
  }

  /** A clash puts two entries with one id into the queue. */
  lemma ClashBreaksOrder(cfg: Config, s: Sys, a: Action)
    requires Enabled(s, a) && Clashes(s, a, Next(cfg, s, a)) && s.shared.core.nextId <= U64_MAX
    ensures !Accounted(Next(cfg, s, a).shared.core)
  {
    hide Step, CountUser;
    var class_, s' := s.threads[a.t].class_, Next(cfg, s, a);
    StepEnters(cfg, s.shared, a.t, s.threads[a.t], a.timedOut, a.elapsedMs, class_);
    var q, q' := s.shared.core.Queue(class_), s'.shared.core.Queue(class_);
    var e :| e in q && e.id >= U64_MAX;
    var i :| 0 <= i < |q| && q[i] == e;
    assert q'[i].id >= q'[|q|].id;
    assert !Increasing(q');
    assert q' == s'.shared.core.interactive || q' == s'.shared.core.batch;
  }

  /** The accounting is right in all states of a run exactly if no enqueue used a taken id. */
  lemma {:induction false} AccountedIffUnclashed(cfg: Config, states: seq<Sys>, actions: seq<Action>, k: nat)
    requires cfg.Accepted() && IsRun(cfg, states, actions) && k < |states|
    ensures (forall j :: 0 <= j <= k ==> Accounted(states[j].shared.core)) <==> Unclashed(states, actions, k)
  {
    hide Next, Accounted, Clashes;
    if k == 0 {
      QueueAccounting(cfg, states, actions, 0);
    } else {
      AccountedIffUnclashed(cfg, states, actions, k - 1);
      NextIdCounts(cfg, states, actions, k - 1);
      if Clashes(states[k - 1], actions[k - 1], states[k]) {
        ClashBreaksOrder(cfg, states[k - 1], actions[k - 1]);
      } else if Unclashed(states, actions, k - 1) {
        QueueAccounting(cfg, states, actions, k);
      }
    }
  }

  /** What was granted from a queue is in id order, and older than what still waits there. */
  ghost predicate GrantsInOrder(s: Sys, class_: WorkloadClass) {
    var log, q := s.shared.Grants(class_), s.shared.core.Queue(class_);
    && (forall i, j :: 0 <= i < j < |log| ==> log[i] < log[j])
    && (forall g, e :: g in log && e in q ==> g <= e.id)
  }

  lemma {:induction false} RunsKeepGrants(cfg: Config, states: seq<Sys>, actions: seq<Action>, k: nat, class_: WorkloadClass)
    requires cfg.Accepted() && IsRun(cfg, states, actions) && k < |states| && Enqueued(states, actions, k) <= U64_MAX
    ensures GrantInv(states[k], class_)
  {
    hide Step, Next, QueueInv, HeadInv, CountInv, WakeInv, Enters;
    if k == 0 {
      assert states[0].shared.Grants(class_) == [];
    } else {
      hide GrantInv;
      RunsKeepGrants(cfg, states, actions, k - 1, class_);
      FewNeverClash(cfg, states, actions, k - 1);
      RunsKeepInv(cfg, states, actions, k - 1);
      NextIdCounts(cfg, states, actions, k - 1);
      KeepsGrantInv(cfg, states[k - 1], actions[k - 1], class_);
    }
  }

  /** Same-queue grants follow enqueue order over every run. */
  lemma GrantsFollowEnqueueOrder(cfg: Config, states: seq<Sys>, actions: seq<Action>, k: nat, class_: WorkloadClass)
    requires cfg.Accepted() && IsRun(cfg, states, actions) && k < |states| && Enqueued(states, actions, k) <= U64_MAX
    ensures GrantsInOrder(states[k], class_)
  {
    hide IsRun, Enqueued;
    RunsKeepGrants(cfg, states, actions, k, class_);
  }

  // ---- Overflow stays with requests that may leave the machine ------------------------------------

  ghost predicate OverflowInv(s: Sys) {
    forall t :: t in s.threads && s.threads[t].pc == Done(Overflow) ==>
      s.threads[t].mode != LocalStrict && s.threads[t].cloud
  }

  lemma StepOverflow(cfg: Config, s: Shared, t: nat, th: Thread, timedOut: bool, elapsedMs: nat)
    requires th.pc != Done(Overflow)
    ensures Step(cfg, s, t, th, timedOut, elapsedMs).pc == Done(Overflow) ==> th.mode != LocalStrict && th.cloud
  {
  }

  /** A local-strict request, or one without a cloud alternative, is never answered
      with an overflow to the cloud. */
  lemma {:induction false} LocalStrictNeverOverflows(cfg: Config, states: seq<Sys>, actions: seq<Action>, k: nat)
    requires IsRun(cfg, states, actions) && k < |states|
    ensures OverflowInv(states[k])
  {
    hide Step;
    if k > 0 {
      LocalStrictNeverOverflows(cfg, states, actions, k - 1);
      var s, a := states[k - 1], actions[k - 1];
      if a.Run? && s.threads[a.t].pc != Done(Overflow) {
        StepOverflow(cfg, s.shared, a.t, s.threads[a.t], a.timedOut, a.elapsedMs);
      }
    }
  }
}
