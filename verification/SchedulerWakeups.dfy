/**
 No lost wake-up. In every interleaving, whenever the execution permit is free and
 somebody waits, the request to be served next has a stored notification or is about
 to check again, or another thread is about to notify it. A scheduler in which no
 thread can move therefore has nobody waiting.
 */
module SchedulerWakeups {
  import opened Common
  import opened SchedulerCore
  import opened SchedulerMachine
  import opened SchedulerExclusion
  import opened SchedulerQueues

  ghost predicate Notifier(s: Sys, t: nat, f: nat) {
    t in s.threads && (AboutToNotify(s.threads[t].pc) || SendsTo(s.threads[t].pc, f))
  }

  ghost predicate Awake(s: Sys, f: nat) {
    f in s.threads && (s.threads[f].pc.Checking? || s.threads[f].pc.TryingPermit?)
  }

  ghost predicate Served(s: Sys, f: nat) {
    f in s.shared.stored || Awake(s, f) || exists t :: Notifier(s, t, f)
  }

  ghost predicate WakeInv(s: Sys) {
    s.shared.permitFree && Front(s.shared.core).Some? ==> Served(s, Front(s.shared.core).value)
  }

  // ---- What single steps do to notifications --------------------------------------------------

  lemma StepNotifies(cfg: Config, s: Shared, t: nat, th: Thread, timedOut: bool, elapsedMs: nat, f: nat)
    ensures var e := Step(cfg, s, t, th, timedOut, elapsedMs);
            && (AboutToNotify(th.pc) && Front(s.core) == Some(f) ==> SendsTo(e.pc, f))
            && (SendsTo(th.pc, f) ==> f in e.shared.stored)
  {
  }

  /** A stored notification is used up only by its owner, which then checks again. */
  lemma StepKeepsStored(cfg: Config, s: Shared, t: nat, th: Thread, timedOut: bool, elapsedMs: nat, f: nat)
    requires f in s.stored && !th.pc.Enqueuing?
    ensures var e := Step(cfg, s, t, th, timedOut, elapsedMs);
            f in e.shared.stored || (t == f && e.pc.Checking?)
  {
  }

  lemma StepFreesPermit(cfg: Config, s: Shared, t: nat, th: Thread, timedOut: bool, elapsedMs: nat)
    requires !th.pc.FastGiveBack?
    ensures var e := Step(cfg, s, t, th, timedOut, elapsedMs);
            !s.permitFree && e.shared.permitFree ==> AboutToNotify(e.pc)
  {
  }

  /** With the permit free, the front request passes its check and then gets the permit. */
  lemma StepOfFront(cfg: Config, s: Shared, t: nat, th: Thread, timedOut: bool, elapsedMs: nat)
    requires s.permitFree
    requires th.pc.Checking? ==> IsFront(cfg, s.core, th.id, th.class_, th.user)
    requires th.pc.Checking? || th.pc.TryingPermit?
    ensures var e := Step(cfg, s, t, th, timedOut, elapsedMs);
            e.pc.TryingPermit? || !e.shared.permitFree
  {
  }

  lemma FreePermitMeansNobodyRuns(s: Sys)
    requires Exclusive(s) && s.shared.permitFree
    ensures s.shared.core.running == map[]
  {
    assert forall t :: LeaseOf(s, t) ==> Holder(s, t);
  }

  lemma FrontPassesCheck(cfg: Config, s: Sys, f: nat)
    requires cfg.Accepted() && Exclusive(s) && s.shared.permitFree
    requires QueueInv(s, Interactive) && QueueInv(s, Batch)
    requires Front(s.shared.core) == Some(f)
    ensures f in s.threads
    ensures IsFront(cfg, s.shared.core, s.threads[f].id, s.threads[f].class_, s.threads[f].user)
  {
    FreePermitMeansNobodyRuns(s);
    var c := s.shared.core;
    var class_ := if c.interactive != [] then Interactive else Batch;
    assert c.Queue(class_)[0] in c.Queue(class_);
    assert EntryOk(s, class_, c.Queue(class_)[0]);
  }

  // ---- Preservation -----------------------------------------------------------------------------

  lemma NewNotifierServes(s: Sys, t: nat)
    requires t in s.threads && AboutToNotify(s.threads[t].pc)
    ensures WakeInv(s)
  {
    if Front(s.shared.core).Some? {
      assert Notifier(s, t, Front(s.shared.core).value);
    }
  }

  /** A step that leaves the front and the free permit as they were keeps it served. */
  lemma StaysServed(cfg: Config, s: Sys, a: Action, f: nat)
    requires cfg.Accepted() && Enabled(s, a) && a.Run? && Exclusive(s)
    requires QueueInv(s, Interactive) && QueueInv(s, Batch)
    requires Front(s.shared.core) == Some(f) && s.shared.permitFree && Served(s, f)
    requires Next(cfg, s, a).shared.permitFree
    requires !s.threads[a.t].pc.Enqueuing?
    ensures Served(Next(cfg, s, a), f)
  {
    hide Step, QueueInv, Exclusive, Front;
    var s', th := Next(cfg, s, a), s.threads[a.t];
    if f in s.shared.stored {
      StepKeepsStored(cfg, s.shared, a.t, th, a.timedOut, a.elapsedMs, f);
    } else if Awake(s, f) {
      if a.t == f {
        FrontPassesCheck(cfg, s, f);
        StepOfFront(cfg, s.shared, f, th, a.timedOut, a.elapsedMs);
      }
      assert Awake(s', f);
    } else {
      var w :| Notifier(s, w, f);
      StepNotifies(cfg, s.shared, a.t, th, a.timedOut, a.elapsedMs, f);
      assert w != a.t || SendsTo(th.pc, f) || SendsTo(s'.threads[w].pc, f);
      assert f in s'.shared.stored || Notifier(s', w, f);
    }
  }

  lemma ArrivalStaysServed(cfg: Config, s: Sys, a: Action, f: nat)
    requires Enabled(s, a) && a.Arrive? && Served(s, f)
    ensures Served(Next(cfg, s, a), f)
  {
    var s' := Next(cfg, s, a);
    if f !in s.shared.stored && !Awake(s, f) {
      var w :| Notifier(s, w, f);
      assert Notifier(s', w, f);
    }
  }

  /** A request turned away at the queue limits leaves everybody else as they were. */
  lemma RefusedStaysServed(cfg: Config, s: Sys, a: Action, f: nat)
    requires Enabled(s, a) && a.Run? && Served(s, f)
    requires s.threads[a.t].pc.Enqueuing? && !Next(cfg, s, a).threads[a.t].pc.EnqueueNotify?
    ensures Served(Next(cfg, s, a), f)
  {
    hide EstimatedWaitMs, RemoveQueued, TryStart, Release, StartRunning, IsFront, Front;
    var s' := Next(cfg, s, a);
    assert s'.shared == s.shared;
    if f !in s.shared.stored && !Awake(s, f) {
      var w :| Notifier(s, w, f);
      assert Notifier(s', w, f);
    }
  }

  lemma KeepsWakeInv(cfg: Config, s: Sys, a: Action)
    requires cfg.Accepted() && Enabled(s, a) && Exclusive(s) && WakeInv(s)
    requires QueueInv(s, Interactive) && QueueInv(s, Batch)
    ensures WakeInv(Next(cfg, s, a))
  {
    hide Step, QueueInv, RemoveQueued;
    var s' := Next(cfg, s, a);
    if a.Arrive? {
      if s.shared.permitFree && Front(s.shared.core).Some? {
        ArrivalStaysServed(cfg, s, a, Front(s.shared.core).value);
      }
    } else {
      var th := s.threads[a.t];
      StepFreesPermit(cfg, s.shared, a.t, th, a.timedOut, a.elapsedMs);
      if Departs(s, a) {
        StepLeaves(cfg, s.shared, a.t, th, a.timedOut, a.elapsedMs);
        NewNotifierServes(s', a.t);
      } else if AboutToNotify(s'.threads[a.t].pc) {
        NewNotifierServes(s', a.t);
      } else {
        StepElsewhere(cfg, s.shared, a.t, th, a.timedOut, a.elapsedMs);
        assert Front(s'.shared.core) == Front(s.shared.core);
        if s'.shared.permitFree && Front(s.shared.core).Some? {
          if th.pc.Enqueuing? {
            RefusedStaysServed(cfg, s, a, Front(s.shared.core).value);
          } else {
            StaysServed(cfg, s, a, Front(s.shared.core).value);
          }
        }
      }
    }
  }
}
