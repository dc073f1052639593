/**
 Each queue grants in enqueue order: over every interleaving the ids granted from a
 queue strictly increase, and everything granted is older than everything still
 waiting in that queue.
 */
module SchedulerFairness {
  import opened Common
  import opened SchedulerCore
  import opened SchedulerMachine
  import opened SchedulerQueues

  /** A request that passed its front check, or was granted, heads its own queue. */
  ghost predicate HeadInv(s: Sys, class_: WorkloadClass) {
    forall t :: t in s.threads && s.threads[t].class_ == class_
                && (s.threads[t].pc.TryingPermit? || s.threads[t].pc.Granted?)
                ==> IsHead(s.shared.core.Queue(class_), s.threads[t].id)
  }

  ghost predicate LogOrder(log: seq<nat>, q: seq<Entry>, nextId: nat) {
    && (forall i, j :: 0 <= i < j < |log| ==> log[i] < log[j])
    && (forall g :: g in log ==> g <= nextId)
    && (forall g, e :: g in log && e in q ==> g <= e.id)
  }

  /** The grant log of a queue increases, and no queued request was passed over: what
      was granted before is older than everything still waiting. */
  ghost predicate GrantInv(s: Sys, class_: WorkloadClass) {
    var log, q := s.shared.Grants(class_), s.shared.core.Queue(class_);
    && LogOrder(log, q, s.shared.core.nextId)
    && (forall e :: e in q && e.id in log && e.owner in s.threads ==> s.threads[e.owner].pc.Granted?)
  }

  /** A step that passes the front check found its request at the head of its queue. */
  lemma StepToFront(cfg: Config, s: Shared, t: nat, th: Thread, timedOut: bool, elapsedMs: nat)
    ensures var e := Step(cfg, s, t, th, timedOut, elapsedMs);
            && (e.pc.TryingPermit? ==> IsHead(s.core.Queue(th.class_), th.id))
            && (e.pc.Granted? ==> th.pc.TryingPermit?)
            && (th.pc.TryingPermit? && !s.permitFree ==> !e.pc.Granted?)
  {
  }

  lemma StepGrants(cfg: Config, s: Shared, t: nat, th: Thread, timedOut: bool, elapsedMs: nat, class_: WorkloadClass)
    ensures var e := Step(cfg, s, t, th, timedOut, elapsedMs);
            e.shared.Grants(class_) ==
              if e.pc.Granted? && th.class_ == class_ then s.Grants(class_) + [th.id] else s.Grants(class_)
  {
    hide EstimatedWaitMs, RemoveQueued, TryStart, Release, StartRunning, IsFront;
  }

  /** With increasing ids, the entry that carries a waiting request's id is its own. */
  lemma HeadIsOwn(s: Sys, class_: WorkloadClass, t: nat)
    requires QueueInv(s, class_) && Waiter(s, t) && s.threads[t].class_ == class_
    requires IsHead(s.shared.core.Queue(class_), s.threads[t].id)
    ensures s.shared.core.Queue(class_)[0].owner == t
  {
  }

  lemma SameHead(q: seq<Entry>, r: seq<Entry>)
    requires Increasing(q) && Increasing(r) && |q| > 0 && q[0] in r
    requires forall e :: e in r ==> e in q
    ensures |r| > 0 && r[0] == q[0]
  {
    var k :| 0 <= k < |r| && r[k] == q[0];
    assert r[0] in r;
    var j :| 0 <= j < |q| && q[j] == r[0];
  }

  lemma QueueInvIncreasing(s: Sys, class_: WorkloadClass)
    requires QueueInv(s, class_)
    ensures Increasing(s.shared.core.Queue(class_))
  {
  }

  /** Nobody else's step takes a request from the head of its queue. */
  lemma StaysHead(cfg: Config, s: Sys, a: Action, class_: WorkloadClass, t: nat)
    requires Enabled(s, a) && QueueInv(s, class_) && Waiter(s, t) && s.threads[t].class_ == class_
    requires t != a.t && IsHead(s.shared.core.Queue(class_), s.threads[t].id)
    ensures IsHead(Next(cfg, s, a).shared.core.Queue(class_), s.threads[t].id)
  {
    hide Step, QueueInv, RemoveQueued;
    var q := s.shared.core.Queue(class_);
    var q' := Next(cfg, s, a).shared.core.Queue(class_);
    if Departs(s, a) {
      HeadIsOwn(s, class_, t);
      DepartedQueue(cfg, s, a, class_);
      assert Increasing(q) by { QueueInvIncreasing(s, class_); }
      SameHead(q, q');
    } else if Enters(s, a, Next(cfg, s, a)) {
      StepEnters(cfg, s.shared, a.t, s.threads[a.t], a.timedOut, a.elapsedMs, class_);
    } else if a.Run? {
      StepElsewhere(cfg, s.shared, a.t, s.threads[a.t], a.timedOut, a.elapsedMs);
    }
  }

  predicate Grants(s: Sys, a: Action, s': Sys) {
    && a.Run? && a.t in s.threads && a.t in s'.threads
    && s.threads[a.t].pc.TryingPermit? && s'.threads[a.t].pc.Granted?
  }

  lemma KeepsHeadInv(cfg: Config, s: Sys, a: Action, class_: WorkloadClass)
    requires Enabled(s, a) && QueueInv(s, class_) && HeadInv(s, class_)
    ensures HeadInv(Next(cfg, s, a), class_)
  {
    hide Step, QueueInv, IsHead;
    var s' := Next(cfg, s, a);
    forall t | t in s'.threads && s'.threads[t].class_ == class_
               && (s'.threads[t].pc.TryingPermit? || s'.threads[t].pc.Granted?)
      ensures IsHead(s'.shared.core.Queue(class_), s'.threads[t].id)
    {
      if t != a.t {
        assert Waiter(s, t);
        StaysHead(cfg, s, a, class_, t);
      } else {
        var th := s.threads[t];
        StepToFront(cfg, s.shared, t, th, a.timedOut, a.elapsedMs);
        if Leaves(th.pc) {
          StepLeaves(cfg, s.shared, t, th, a.timedOut, a.elapsedMs);
        } else {
          StepElsewhere(cfg, s.shared, t, th, a.timedOut, a.elapsedMs);
        }
      }
    }
  }

  lemma LogAppend(log: seq<nat>, q: seq<Entry>, nextId: nat)
    requires LogOrder(log, q, nextId) && Increasing(q) && |q| > 0
    requires q[0].id !in log && q[0].id <= nextId
    ensures LogOrder(log + [q[0].id], q, nextId)
    ensures forall e :: e in q && e.id in log + [q[0].id] ==> e.id in log || e == q[0]
  {
    assert q[0] in q;
    assert forall i :: 0 <= i < |log| ==> log[i] in log;
  }

  lemma KeepsGrantOnGrant(cfg: Config, s: Sys, a: Action, class_: WorkloadClass)
    requires Enabled(s, a) && QueueInv(s, class_) && HeadInv(s, class_) && GrantInv(s, class_)
    requires Grants(s, a, Next(cfg, s, a))
    ensures GrantInv(Next(cfg, s, a), class_)
  {
    hide Step, LogOrder, Increasing;
    var th, q := s.threads[a.t], s.shared.core.Queue(class_);
    StepGrants(cfg, s.shared, a.t, th, a.timedOut, a.elapsedMs, class_);
    StepElsewhere(cfg, s.shared, a.t, th, a.timedOut, a.elapsedMs);
    if th.class_ == class_ {
      assert Waiter(s, a.t);
      HeadIsOwn(s, class_, a.t);
      assert q[0] in q;
      LogAppend(s.shared.Grants(class_), q, s.shared.core.nextId);
    }
  }

  lemma KeepsGrantOtherwise(cfg: Config, s: Sys, a: Action, class_: WorkloadClass)
    requires Enabled(s, a) && QueueInv(s, class_) && GrantInv(s, class_)
    requires var s' := Next(cfg, s, a); !Grants(s, a, s') && !Enters(s, a, s') && !Departs(s, a)
    ensures GrantInv(Next(cfg, s, a), class_)
  {
    hide Step;
    if a.Run? {
      var th := s.threads[a.t];
      StepToFront(cfg, s.shared, a.t, th, a.timedOut, a.elapsedMs);
      StepGrants(cfg, s.shared, a.t, th, a.timedOut, a.elapsedMs, class_);
      StepElsewhere(cfg, s.shared, a.t, th, a.timedOut, a.elapsedMs);
    }
    assert forall e :: e in s.shared.core.Queue(class_) ==> Waiter(s, e.owner);
  }

  lemma KeepsGrantOnEnter(cfg: Config, s: Sys, a: Action, class_: WorkloadClass)
    requires Enabled(s, a) && QueueInv(s, class_) && GrantInv(s, class_)
    requires Enters(s, a, Next(cfg, s, a)) && s.shared.core.nextId < U64_MAX
    ensures GrantInv(Next(cfg, s, a), class_)
  {
    hide Step;
    StepEnters(cfg, s.shared, a.t, s.threads[a.t], a.timedOut, a.elapsedMs, class_);
    assert forall e :: e in s.shared.core.Queue(class_) ==> Waiter(s, e.owner);
    assert !Waiter(s, a.t);
  }

  lemma KeepsGrantOnDepart(cfg: Config, s: Sys, a: Action, class_: WorkloadClass)
    requires Enabled(s, a) && QueueInv(s, class_) && GrantInv(s, class_) && Departs(s, a)
    ensures GrantInv(Next(cfg, s, a), class_)
  {
    hide Step, RemoveQueued, QueueInv, Increasing;
    StepLeaves(cfg, s.shared, a.t, s.threads[a.t], a.timedOut, a.elapsedMs);
    DepartedQueue(cfg, s, a, class_);
    assert Next(cfg, s, a).shared.Grants(class_) == s.shared.Grants(class_);
  }

  lemma KeepsGrantInv(cfg: Config, s: Sys, a: Action, class_: WorkloadClass)
    requires Enabled(s, a) && QueueInv(s, class_) && HeadInv(s, class_) && GrantInv(s, class_)
    requires Enters(s, a, Next(cfg, s, a)) ==> s.shared.core.nextId < U64_MAX
    ensures GrantInv(Next(cfg, s, a), class_)
  {
    hide Step, QueueInv, HeadInv, GrantInv;
    if Departs(s, a) {
      KeepsGrantOnDepart(cfg, s, a, class_);
    } else if Enters(s, a, Next(cfg, s, a)) {
      KeepsGrantOnEnter(cfg, s, a, class_);
    } else if Grants(s, a, Next(cfg, s, a)) {
      KeepsGrantOnGrant(cfg, s, a, class_);
    } else {
      KeepsGrantOtherwise(cfg, s, a, class_);
    }
  }
}
