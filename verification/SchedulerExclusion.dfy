/**
 Mutual exclusion and running counts over every interleaving: at most one request
 holds the execution permit, the permit is free exactly when nobody holds it, and
 the running counters count exactly the live lease.
 */
module SchedulerExclusion {
  import opened SchedulerCore
  import opened SchedulerMachine

  ghost predicate Holder(s: Sys, t: nat) {
    t in s.threads && Holds(s.threads[t].pc)
  }

  ghost predicate LeaseOf(s: Sys, t: nat) {
    t in s.threads && s.threads[t].pc.Leased?
  }

  ghost predicate PermitInv(s: Sys) {
    && (forall t :: Holder(s, t) ==> !s.shared.permitFree)
    && (forall t, u :: Holder(s, t) && Holder(s, u) ==> t == u)
    && (s.shared.permitFree || exists t :: Holder(s, t))
  }

  ghost predicate RunningInv(s: Sys) {
    && (forall t :: LeaseOf(s, t) ==> s.shared.core.running == map[s.threads[t].user := 1])
    && (s.shared.core.running == map[] || exists t :: LeaseOf(s, t))
  }

  /** The permit-return branch of the fast path is never entered. */
  ghost predicate NoGiveBack(s: Sys) {
    forall t :: t in s.threads ==> !s.threads[t].pc.FastGiveBack?
  }

  ghost predicate Exclusive(s: Sys) {
    PermitInv(s) && RunningInv(s) && NoGiveBack(s)
  }

  lemma HolderStep(cfg: Config, s: Shared, t: nat, th: Thread, timedOut: bool, elapsedMs: nat)
    requires Holds(th.pc)
    ensures var e := Step(cfg, s, t, th, timedOut, elapsedMs);
            if Holds(e.pc) then e.shared.permitFree == s.permitFree else e.shared.permitFree
  {
    hide EstimatedWaitMs, RemoveQueued, IsFront, Release, Enqueue, TryStart, StartRunning, Front;
  }

  lemma OtherStep(cfg: Config, s: Shared, t: nat, th: Thread, timedOut: bool, elapsedMs: nat)
    requires !Holds(th.pc)
    ensures var e := Step(cfg, s, t, th, timedOut, elapsedMs);
            if Holds(e.pc) then s.permitFree && !e.shared.permitFree else e.shared.permitFree == s.permitFree
  {
    hide EstimatedWaitMs, RemoveQueued, IsFront, Release, Enqueue, TryStart, StartRunning, Front;
  }

  /** A step takes the permit only when it is free and returns it only by giving up
      the right to hold it. */
  lemma StepPermit(cfg: Config, s: Shared, t: nat, th: Thread, timedOut: bool, elapsedMs: nat)
    ensures var e := Step(cfg, s, t, th, timedOut, elapsedMs);
            && (!Holds(th.pc) && Holds(e.pc) ==> s.permitFree && !e.shared.permitFree)
            && (Holds(th.pc) && !Holds(e.pc) ==> e.shared.permitFree)
            && ((Holds(th.pc) <==> Holds(e.pc)) ==> e.shared.permitFree == s.permitFree)
  {
    hide Step, Holds;
    if Holds(th.pc) {
      HolderStep(cfg, s, t, th, timedOut, elapsedMs);
    } else {
      OtherStep(cfg, s, t, th, timedOut, elapsedMs);
    }
  }

  /** A step of a thread without the permit leaves the running counters alone. */
  lemma StepWithoutPermit(cfg: Config, s: Shared, t: nat, th: Thread, timedOut: bool, elapsedMs: nat)
    requires !Holds(th.pc)
    ensures var e := Step(cfg, s, t, th, timedOut, elapsedMs);
            !e.pc.Leased? && !e.pc.FastGiveBack? && e.shared.core.running == s.core.running
  {
    hide EstimatedWaitMs, IsFront, Decrement, Position, RemoveAt;
  }

  /** A step of the permit's holder counts itself exactly while its lease lives. */
  lemma StepWithPermit(cfg: Config, s: Shared, t: nat, th: Thread, timedOut: bool, elapsedMs: nat)
    requires cfg.Accepted() && Holds(th.pc) && !th.pc.FastGiveBack?
    requires s.core.running == if th.pc.Leased? then map[th.user := 1] else map[]
    ensures var e := Step(cfg, s, t, th, timedOut, elapsedMs);
            && !e.pc.FastGiveBack?
            && e.shared.core.running == if e.pc.Leased? then map[th.user := 1] else map[]
  {
    hide EstimatedWaitMs, IsFront, Position, RemoveAt, Enqueue;
  }

  lemma KeepsPermitInv(cfg: Config, s: Sys, a: Action)
    requires Enabled(s, a) && PermitInv(s)
    ensures PermitInv(Next(cfg, s, a))
  {
    hide Step;
    var s' := Next(cfg, s, a);
    assert forall t :: t != a.t ==> (Holder(s', t) <==> Holder(s, t));
    if a.Run? {
      StepPermit(cfg, s.shared, a.t, s.threads[a.t], a.timedOut, a.elapsedMs);
      var e := Step(cfg, s.shared, a.t, s.threads[a.t], a.timedOut, a.elapsedMs);
      assert s'.shared == e.shared && s'.threads[a.t].pc == e.pc;
      assert Holder(s', a.t) == Holds(e.pc) && Holder(s, a.t) == Holds(s.threads[a.t].pc);
    }
    forall t | Holder(s', t) ensures !s'.shared.permitFree {
      if t != a.t {
        assert Holder(s, t);
        assert Holder(s, a.t) ==> t == a.t;
      }
    }
    forall t, u | Holder(s', t) && Holder(s', u) ensures t == u {
      assert t != a.t ==> Holder(s, t);
      assert u != a.t ==> Holder(s, u);
    }
    if !s'.shared.permitFree && !Holder(s', a.t) {
      var t :| Holder(s, t);
      assert Holder(s', t);
    }
  }

  lemma KeepsRunningInv(cfg: Config, s: Sys, a: Action)
    requires cfg.Accepted() && Enabled(s, a) && Exclusive(s)
    ensures RunningInv(Next(cfg, s, a)) && NoGiveBack(Next(cfg, s, a))
  {
    hide Step;
    var s' := Next(cfg, s, a);
    assert forall t :: t != a.t ==> (LeaseOf(s', t) <==> LeaseOf(s, t));
    if Holder(s, a.t) {
      assert forall t :: LeaseOf(s, t) ==> Holder(s, t);
      StepWithPermit(cfg, s.shared, a.t, s.threads[a.t], a.timedOut, a.elapsedMs);
    } else if a.Run? {
      StepWithoutPermit(cfg, s.shared, a.t, s.threads[a.t], a.timedOut, a.elapsedMs);
    }
    if s'.shared.core.running != map[] && !LeaseOf(s', a.t) {
      var t :| LeaseOf(s, t);
      assert LeaseOf(s', t);
    }
  }

  /** Exclusion holds in every state of every run, whatever the interleaving. */
  lemma {:induction false} RunsAreExclusive(cfg: Config, states: seq<Sys>, actions: seq<Action>, k: nat)
    requires cfg.Accepted() && IsRun(cfg, states, actions) && k < |states|
    ensures Exclusive(states[k])
  {
    if k > 0 {
      RunsAreExclusive(cfg, states, actions, k - 1);
      KeepsPermitInv(cfg, states[k - 1], actions[k - 1]);
      KeepsRunningInv(cfg, states[k - 1], actions[k - 1]);
    }
  }

  /** At most one lease is live, the running counters sum to at most the number of
      permits in use, and the permit-return branch of the fast path is unreachable. */
  lemma AtMostOneLease(cfg: Config, states: seq<Sys>, actions: seq<Action>, k: nat)
    requires cfg.Accepted() && IsRun(cfg, states, actions) && k < |states|
    ensures forall t, u :: LeaseOf(states[k], t) && LeaseOf(states[k], u) ==> t == u
    ensures SumValues(states[k].shared.core.running) <= if states[k].shared.permitFree then 0 else 1
    ensures forall t :: t in states[k].threads ==> !states[k].threads[t].pc.FastGiveBack?
  {
    RunsAreExclusive(cfg, states, actions, k);
    var s := states[k];
    assert forall t :: LeaseOf(s, t) ==> Holder(s, t);
    if s.shared.core.running != map[] {
      var t :| LeaseOf(s, t);
      var user := s.threads[t].user;
      assert s.shared.core.running.Keys == {user};
      SumOverRemove({user}, s.shared.core.running, user);
      assert {user} - {user} == {};
    }
  }
}
