/**
 What the two queues keep over every interleaving: each waiting request has exactly
 one entry, ids strictly increase, the per-user counters count the entries, every
 bound holds, and each queue grants in the order of its ids.

 Queue ids come from a saturating 64-bit counter, so one enqueue keeps a queue in
 order exactly if the counter is below its maximum or no waiting entry has that id.
 */
module SchedulerQueues {
  import opened Common
  import opened SchedulerCore
  import opened SchedulerMachine

  ghost predicate Waiter(s: Sys, t: nat) {
    t in s.threads && Waits(s.threads[t].pc)
  }

  ghost predicate Increasing(q: seq<Entry>) {
    forall i, j :: 0 <= i < j < |q| ==> q[i].id < q[j].id
  }

  ghost predicate EntryOk(s: Sys, class_: WorkloadClass, e: Entry) {
    && Waiter(s, e.owner)
    && s.threads[e.owner].class_ == class_
    && s.threads[e.owner].id == e.id
    && s.threads[e.owner].user == e.user
  }

  ghost predicate QueueInv(s: Sys, class_: WorkloadClass) {
    var q := s.shared.core.Queue(class_);
    && Increasing(q)
    && (forall e :: e in q ==> e.id <= s.shared.core.nextId && EntryOk(s, class_, e))
    && (forall t :: Waiter(s, t) && s.threads[t].class_ == class_ ==>
          Entry(s.threads[t].id, t, s.threads[t].user) in q)
  }

  // ---- Sequence facts --------------------------------------------------------------------

  lemma RemoveAtKeeps(q: seq<Entry>, i: nat)
    requires Increasing(q) && i < |q|
    ensures Increasing(RemoveAt(q, i))
    ensures forall e :: e in RemoveAt(q, i) <==> e in q && e != q[i]
  {
  }

  /** In a queue with increasing ids, looking an entry up by id finds that entry. */
  lemma PositionFinds(q: seq<Entry>, e: Entry)
    requires Increasing(q) && e in q
    ensures Position(q, e.id) < |q| && q[Position(q, e.id)] == e
  {
  }

  // ---- The three kinds of step --------------------------------------------------------------

  predicate SameQueues(c: Core, d: Core) {
    c.interactive == d.interactive && c.batch == d.batch && c.queued == d.queued && c.nextId == d.nextId
  }

  predicate Leaves(pc: Pc) {
    pc.Granted? || pc.Expiring?
  }

  /** Before a request waits in a queue. */
  predicate Arriving(pc: Pc) {
    pc.Start? || pc.FastHeld? || pc.FastGiveBack? || pc.Estimating? || pc.Enqueuing? || pc.Done?
  }

  lemma ArrivingElsewhere(cfg: Config, s: Shared, t: nat, th: Thread, timedOut: bool, elapsedMs: nat)
    requires Arriving(th.pc)
    ensures var e := Step(cfg, s, t, th, timedOut, elapsedMs);
            (th.pc.Enqueuing? && e.pc.EnqueueNotify?) ||
            (SameQueues(s.core, e.shared.core) && e.id == th.id && (Waits(th.pc) <==> Waits(e.pc)))
  {
    hide EstimatedWaitMs, RemoveQueued, IsFront, Decrement, NextServiceMs, Get, Position, RemoveAt, Release, Front;
  }

  lemma OthersElsewhere(cfg: Config, s: Shared, t: nat, th: Thread, timedOut: bool, elapsedMs: nat)
    requires !Leaves(th.pc) && !Arriving(th.pc)
    ensures var e := Step(cfg, s, t, th, timedOut, elapsedMs);
            SameQueues(s.core, e.shared.core) && e.id == th.id && (Waits(th.pc) <==> Waits(e.pc))
  {
    hide EstimatedWaitMs, RemoveQueued, IsFront, Decrement, NextServiceMs, Get, Position, RemoveAt, Enqueue, TryStart;
  }

  /** A step that neither enters nor leaves a queue changes nothing about them. */
  lemma StepElsewhere(cfg: Config, s: Shared, t: nat, th: Thread, timedOut: bool, elapsedMs: nat)
    requires !Leaves(th.pc)
    ensures var e := Step(cfg, s, t, th, timedOut, elapsedMs);
            (th.pc.Enqueuing? && e.pc.EnqueueNotify?) ||
            (SameQueues(s.core, e.shared.core) && e.id == th.id && (Waits(th.pc) <==> Waits(e.pc)))
  {
    hide Step;
    if Arriving(th.pc) {
      ArrivingElsewhere(cfg, s, t, th, timedOut, elapsedMs);
    } else {
      OthersElsewhere(cfg, s, t, th, timedOut, elapsedMs);
    }
  }

  /** A step that enters a queue appends the request's entry under a new id. */
  lemma StepEnters(cfg: Config, s: Shared, t: nat, th: Thread, timedOut: bool, elapsedMs: nat, class_: WorkloadClass)
    requires th.pc.Enqueuing? && Step(cfg, s, t, th, timedOut, elapsedMs).pc.EnqueueNotify?
    ensures var e := Step(cfg, s, t, th, timedOut, elapsedMs);
            && e.id == e.shared.core.nextId == SaturatingAdd(s.core.nextId, 1)
            && e.shared.core.queued == s.core.queued[th.user := Get(s.core.queued, th.user) + 1]
            && Get(s.core.queued, th.user) < cfg.queuedPerUser
            && e.shared.core.running == s.core.running
            && e.shared.permitFree == s.permitFree
            && (th.class_ == class_ ==>
                  && |s.core.Queue(class_)| < cfg.Limit(class_)
                  && e.shared.core.Queue(class_) == s.core.Queue(class_) + [Entry(e.id, t, th.user)])
            && (th.class_ != class_ ==> e.shared.core.Queue(class_) == s.core.Queue(class_))
            && e.shared.Grants(class_) == s.Grants(class_)
  {
  }

  lemma StepLeaves(cfg: Config, s: Shared, t: nat, th: Thread, timedOut: bool, elapsedMs: nat)
    requires Leaves(th.pc)
    ensures var e := Step(cfg, s, t, th, timedOut, elapsedMs);
            && e == Effect(e.pc, th.id, s.(core := RemoveQueued(s.core, th.id, th.class_, th.user)))
            && !Waits(e.pc) && AboutToNotify(e.pc)
            && e.shared.core.nextId == s.core.nextId
            && e.shared.core.queued == Decrement(s.core.queued, th.user)
  {
    hide EstimatedWaitMs, Position, RemoveAt, Enqueue, TryStart, Release, StartRunning, IsFront, Decrement;
  }

  predicate Enters(s: Sys, a: Action, s': Sys) {
    && a.Run? && a.t in s.threads && a.t in s'.threads
    && s.threads[a.t].pc.Enqueuing? && s'.threads[a.t].pc.EnqueueNotify?
  }

  predicate Departs(s: Sys, a: Action) {
    a.Run? && a.t in s.threads && Leaves(s.threads[a.t].pc)
  }

  /** Only an enqueue moves the counter of queue ids. */
  lemma NextIdMoves(cfg: Config, s: Sys, a: Action)
    requires Enabled(s, a)
    ensures var s' := Next(cfg, s, a);
            s'.shared.core.nextId
            == if Enters(s, a, s') then SaturatingAdd(s.shared.core.nextId, 1) else s.shared.core.nextId
  {
    hide Step;
    if Departs(s, a) {
      StepLeaves(cfg, s.shared, a.t, s.threads[a.t], a.timedOut, a.elapsedMs);
    } else if Enters(s, a, Next(cfg, s, a)) {
      StepEnters(cfg, s.shared, a.t, s.threads[a.t], a.timedOut, a.elapsedMs, Batch);
    } else if a.Run? {
      StepElsewhere(cfg, s.shared, a.t, s.threads[a.t], a.timedOut, a.elapsedMs);
    }
  }

  /** The next id is not taken: the counter is not exhausted, or nobody in the queue has its
      largest value. */
  predicate Fresh(c: Core, class_: WorkloadClass) {
    c.nextId < U64_MAX || forall e :: e in c.Queue(class_) ==> e.id < U64_MAX
  }

  /** An enqueue under an id that is taken. */
  predicate Clashes(s: Sys, a: Action, s': Sys) {
    Enters(s, a, s') && !Fresh(s.shared.core, s.threads[a.t].class_)
  }

  /** One enqueue keeps a queue's ids in strictly increasing order exactly if the next id is
      not taken. */
  lemma EnqueueKeepsOrderIff(cfg: Config, c: Core, user: string, class_: WorkloadClass, owner: nat)
    requires c.nextId <= U64_MAX && Increasing(c.Queue(class_)) && forall e :: e in c.Queue(class_) ==> e.id <= c.nextId
    requires Enqueue(cfg, c, user, class_, owner).Queued?
    ensures Increasing(Enqueue(cfg, c, user, class_, owner).core.Queue(class_)) <==> Fresh(c, class_)
  {
    var q, r := c.Queue(class_), Enqueue(cfg, c, user, class_, owner);
    var q' := r.core.Queue(class_);
    assert q' == q + [Entry(r.id, owner, user)] && r.id == SaturatingAdd(c.nextId, 1);
    if c.nextId == U64_MAX && Increasing(q') {
      forall e | e in q ensures e.id < U64_MAX {
        var i :| 0 <= i < |q| && q[i] == e;
        assert q'[i].id < q'[|q|].id;
      }
    }
  }

  // ---- Preservation --------------------------------------------------------------------------

  lemma SameWaiters(s: Sys, s': Sys, class_: WorkloadClass)
    requires QueueInv(s, class_)
    requires s'.shared.core.Queue(class_) == s.shared.core.Queue(class_) && s'.shared.core.nextId == s.shared.core.nextId
    requires forall t :: Waiter(s', t) <==> Waiter(s, t)
    requires forall t :: Waiter(s, t) ==> t in s'.threads && s'.threads[t] == s.threads[t].(pc := s'.threads[t].pc)
    ensures QueueInv(s', class_)
  {
    hide Waits, Increasing;
    var q := s.shared.core.Queue(class_);
    forall e | e in q ensures EntryOk(s', class_, e) {
      assert EntryOk(s, class_, e);
    }
    forall t | Waiter(s', t) && s'.threads[t].class_ == class_
      ensures Entry(s'.threads[t].id, t, s'.threads[t].user) in q
    {
      assert Waiter(s, t);
    }
  }

  lemma KeepsQueueElsewhere(cfg: Config, s: Sys, a: Action, class_: WorkloadClass)
    requires Enabled(s, a) && QueueInv(s, class_)
    requires var s' := Next(cfg, s, a); !Departs(s, a) && !Enters(s, a, s')
    ensures QueueInv(Next(cfg, s, a), class_)
  {
    hide Step, QueueInv;
    if a.Run? {
      StepElsewhere(cfg, s.shared, a.t, s.threads[a.t], a.timedOut, a.elapsedMs);
    }
    SameWaiters(s, Next(cfg, s, a), class_);
  }

  /** The queue of a state in which `t` has just queued under the next id. */
  lemma EnteredQueueInv(s: Sys, s': Sys, class_: WorkloadClass, t: nat)
    requires QueueInv(s, class_) && !Waiter(s, t) && Waiter(s', t)
    requires t in s.threads && s'.threads == s.threads[t := s'.threads[t]]
    requires s'.threads[t].class_ == s.threads[t].class_ && s'.threads[t].user == s.threads[t].user
    requires s'.threads[t].id == s'.shared.core.nextId >= s.shared.core.nextId
    requires s.threads[t].class_ == class_ ==> forall e :: e in s.shared.core.Queue(class_) ==> e.id < s'.threads[t].id
    requires s'.shared.core.Queue(class_) == s.shared.core.Queue(class_)
               + if s.threads[t].class_ == class_ then [Entry(s'.threads[t].id, t, s.threads[t].user)] else []
    ensures QueueInv(s', class_)
  {
    hide Waits;
    var q, q' := s.shared.core.Queue(class_), s'.shared.core.Queue(class_);
    forall e | e in q' ensures e.id <= s'.shared.core.nextId && EntryOk(s', class_, e) {
      assert e in q ==> EntryOk(s, class_, e) && e.owner != t;
    }
    forall u | Waiter(s', u) && s'.threads[u].class_ == class_
      ensures Entry(s'.threads[u].id, u, s'.threads[u].user) in q'
    {
      if u == t {
        assert q'[|q|] == Entry(s'.threads[t].id, t, s.threads[t].user);
      } else {
        assert Waiter(s, u);
      }
    }
  }

  lemma IdsAreCounted(s: Sys, class_: WorkloadClass)
    requires QueueInv(s, class_)
    ensures forall e :: e in s.shared.core.Queue(class_) ==> e.id <= s.shared.core.nextId
  {
  }

  lemma KeepsQueueOnEnter(cfg: Config, s: Sys, a: Action, class_: WorkloadClass)
    requires Enabled(s, a) && QueueInv(s, class_)
    requires Enters(s, a, Next(cfg, s, a)) && s.shared.core.nextId <= U64_MAX && !Clashes(s, a, Next(cfg, s, a))
    ensures QueueInv(Next(cfg, s, a), class_)
  {
    hide Step, Position, QueueInv;
    var s' := Next(cfg, s, a);
    StepEnters(cfg, s.shared, a.t, s.threads[a.t], a.timedOut, a.elapsedMs, class_);
    IdsAreCounted(s, class_);
    EnteredQueueInv(s, s', class_, a.t);
  }

  /** Leaving takes the request's own entry out of its queue and nothing else. */
  lemma DepartedQueue(cfg: Config, s: Sys, a: Action, class_: WorkloadClass)
    requires Enabled(s, a) && QueueInv(s, class_) && Departs(s, a)
    ensures var q, q' := s.shared.core.Queue(class_), Next(cfg, s, a).shared.core.Queue(class_);
            Increasing(q') && forall e :: e in q' <==> e in q && e.owner != a.t
  {
    hide Step, Position, RemoveAt;
    var th := s.threads[a.t];
    var q, mine := s.shared.core.Queue(class_), Entry(th.id, a.t, th.user);
    StepLeaves(cfg, s.shared, a.t, th, a.timedOut, a.elapsedMs);
    assert Waiter(s, a.t);
    assert forall e :: e in q && e.owner == a.t ==> e == mine && th.class_ == class_;
    if th.class_ == class_ {
      PositionFinds(q, mine);
      RemoveAtKeeps(q, Position(q, th.id));
    }
  }

  lemma KeepsQueueOnDepart(cfg: Config, s: Sys, a: Action, class_: WorkloadClass)
    requires Enabled(s, a) && QueueInv(s, class_) && Departs(s, a)
    ensures QueueInv(Next(cfg, s, a), class_)
  {
    hide Step, RemoveQueued, Increasing;
    var s' := Next(cfg, s, a);
    StepLeaves(cfg, s.shared, a.t, s.threads[a.t], a.timedOut, a.elapsedMs);
    DepartedQueue(cfg, s, a, class_);
    assert forall t :: Waiter(s', t) <==> Waiter(s, t) && t != a.t;
  }

  lemma KeepsQueueInv(cfg: Config, s: Sys, a: Action, class_: WorkloadClass)
    requires Enabled(s, a) && QueueInv(s, class_)
    requires s.shared.core.nextId <= U64_MAX && !Clashes(s, a, Next(cfg, s, a))
    ensures QueueInv(Next(cfg, s, a), class_)
  {
    if Departs(s, a) {
      KeepsQueueOnDepart(cfg, s, a, class_);
    } else if Enters(s, a, Next(cfg, s, a)) {
      KeepsQueueOnEnter(cfg, s, a, class_);
    } else {
      KeepsQueueElsewhere(cfg, s, a, class_);
    }
  }

  // ---- Per-user counters and bounds ------------------------------------------------------------

  ghost predicate CountInv(s: Sys) {
    var c := s.shared.core;
    && (forall u :: Get(c.queued, u) == CountUser(c.interactive, u) + CountUser(c.batch, u))
    && (forall u :: u in c.queued ==> c.queued[u] > 0)
  }

  ghost predicate BoundInv(cfg: Config, s: Sys) {
    var c := s.shared.core;
    && |c.interactive| <= cfg.interactiveLimit && |c.batch| <= cfg.batchLimit
    && (forall u :: u in c.queued ==> c.queued[u] <= cfg.queuedPerUser)
  }

  /** Leaving a queue shortens it by the request's own entry. */
  lemma DepartedCount(cfg: Config, s: Sys, a: Action, class_: WorkloadClass, user: string)
    requires Enabled(s, a) && QueueInv(s, class_) && Departs(s, a)
    ensures var th, q, q' := s.threads[a.t], s.shared.core.Queue(class_), Next(cfg, s, a).shared.core.Queue(class_);
            CountUser(q, user) ==
              CountUser(q', user) + (if th.class_ == class_ && th.user == user then 1 else 0)
  {
    hide Step, Position, CountUser;
    var th := s.threads[a.t];
    var q, mine := s.shared.core.Queue(class_), Entry(th.id, a.t, th.user);
    StepLeaves(cfg, s.shared, a.t, th, a.timedOut, a.elapsedMs);
    if th.class_ == class_ {
      assert Waiter(s, a.t);
      PositionFinds(q, mine);
      CountUserRemoveAt(q, Position(q, th.id), user);
    }
  }

  lemma EnteredCount(cfg: Config, s: Sys, a: Action, class_: WorkloadClass, user: string)
    requires Enabled(s, a) && Enters(s, a, Next(cfg, s, a))
    ensures var th, q, q' := s.threads[a.t], s.shared.core.Queue(class_), Next(cfg, s, a).shared.core.Queue(class_);
            CountUser(q', user) ==
              CountUser(q, user) + (if th.class_ == class_ && th.user == user then 1 else 0)
  {
  }

  lemma KeepsCountOnDepart(cfg: Config, s: Sys, a: Action)
    requires Enabled(s, a) && CountInv(s) && QueueInv(s, Interactive) && QueueInv(s, Batch) && Departs(s, a)
    ensures CountInv(Next(cfg, s, a))
  {
    hide Step, CountUser, QueueInv, RemoveQueued, Waits;
    var s' := Next(cfg, s, a);
    StepLeaves(cfg, s.shared, a.t, s.threads[a.t], a.timedOut, a.elapsedMs);
    forall u ensures Get(s'.shared.core.queued, u)
                     == CountUser(s'.shared.core.interactive, u) + CountUser(s'.shared.core.batch, u) {
      DepartedCount(cfg, s, a, Interactive, u);
      DepartedCount(cfg, s, a, Batch, u);
    }
  }

  lemma KeepsCountInv(cfg: Config, s: Sys, a: Action)
    requires Enabled(s, a) && CountInv(s) && QueueInv(s, Interactive) && QueueInv(s, Batch)
    ensures CountInv(Next(cfg, s, a))
  {
    hide Step, CountUser, QueueInv, RemoveQueued, Waits;
    var s' := Next(cfg, s, a);
    if Departs(s, a) {
      KeepsCountOnDepart(cfg, s, a);
    } else if Enters(s, a, s') {
      StepEnters(cfg, s.shared, a.t, s.threads[a.t], a.timedOut, a.elapsedMs, Batch);
      forall u ensures Get(s'.shared.core.queued, u)
                       == CountUser(s'.shared.core.interactive, u) + CountUser(s'.shared.core.batch, u) {
        EnteredCount(cfg, s, a, Interactive, u);
        EnteredCount(cfg, s, a, Batch, u);
      }
    } else if a.Run? {
      StepElsewhere(cfg, s.shared, a.t, s.threads[a.t], a.timedOut, a.elapsedMs);
    }
  }

  lemma DepartedLength(cfg: Config, s: Sys, a: Action, class_: WorkloadClass)
    requires Enabled(s, a) && Departs(s, a)
    ensures |Next(cfg, s, a).shared.core.Queue(class_)| <= |s.shared.core.Queue(class_)|
  {
    hide Step;
    StepLeaves(cfg, s.shared, a.t, s.threads[a.t], a.timedOut, a.elapsedMs);
  }

  lemma KeepsBoundInv(cfg: Config, s: Sys, a: Action)
    requires Enabled(s, a) && BoundInv(cfg, s)
    ensures BoundInv(cfg, Next(cfg, s, a))
  {
    hide Step, RemoveQueued;
    if Departs(s, a) {
      StepLeaves(cfg, s.shared, a.t, s.threads[a.t], a.timedOut, a.elapsedMs);
      DepartedLength(cfg, s, a, Interactive);
      DepartedLength(cfg, s, a, Batch);
    } else if Enters(s, a, Next(cfg, s, a)) {
      StepEnters(cfg, s.shared, a.t, s.threads[a.t], a.timedOut, a.elapsedMs, Interactive);
      StepEnters(cfg, s.shared, a.t, s.threads[a.t], a.timedOut, a.elapsedMs, Batch);
    } else if a.Run? {
      StepElsewhere(cfg, s.shared, a.t, s.threads[a.t], a.timedOut, a.elapsedMs);
    }
  }
}
