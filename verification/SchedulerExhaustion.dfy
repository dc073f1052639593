/**
 The counter of queue ids is exact for as long as it lasts: what `SchedulerTheorems`
 proves of the queues holds after `n` enqueues in every run exactly if `n` is at most
 the largest 64-bit number. One enqueue later a run gives two waiting requests the same
 id. The second leaves the queue with the first one's entry, and in the end the first
 sleeps beside a free permit with nobody left to wake it.
 */
module SchedulerExhaustion {
  import opened Common
  import opened SchedulerCore
  import opened SchedulerMachine
  import opened SchedulerQueues
  import opened SchedulerTheorems

  /** Some run leads to `s` with `n` enqueues. */
  ghost predicate Reaches(cfg: Config, s: Sys, n: nat) {
    exists states, actions ::
      IsRun(cfg, states, actions) && states[|actions|] == s && Enqueued(states, actions, |actions|) == n
  }

  lemma {:induction false} EnqueuedPrefix(states: seq<Sys>, actions: seq<Action>, s: Sys, a: Action, k: nat)
    requires |states| == |actions| + 1 && k < |states|
    ensures Enqueued(states + [s], actions + [a], k) == Enqueued(states, actions, k)
  {
    hide Enters;
    if k > 0 {
      EnqueuedPrefix(states, actions, s, a, k - 1);
    }
  }

  lemma ReachesNext(cfg: Config, s: Sys, a: Action, n: nat)
    requires Reaches(cfg, s, n) && Enabled(s, a)
    ensures Reaches(cfg, Next(cfg, s, a), n + if Enters(s, a, Next(cfg, s, a)) then 1 else 0)
  {
    hide Next, Enters, Enabled;
    var states, actions :|
      IsRun(cfg, states, actions) && states[|actions|] == s && Enqueued(states, actions, |actions|) == n;
    var s' := Next(cfg, s, a);
    EnqueuedPrefix(states, actions, s', a, |actions|);
    assert IsRun(cfg, states + [s'], actions + [a]);
    assert Enqueued(states + [s'], actions + [a], |actions| + 1) == n + if Enters(s, a, s') then 1 else 0;
  }

  lemma StartReaches(cfg: Config)
    ensures Reaches(cfg, Initial(), 0)
  {
    var actions: seq<Action> := [];
    assert IsRun(cfg, [Initial()], actions) && Enqueued([Initial()], actions, 0) == 0;
  }

  // ---- Pieces of a run ----------------------------------------------------------------------------------

  /** All requests of the run below are alike: interactive, local-strict, by one user. */
  function Request(id: nat, pc: Pc): Thread {
    Thread("w", LocalStrict, Interactive, false, id, pc)
  }

  function Moved(s: Sys, t: nat, pc: Pc, shared: Shared): Sys
    requires t in s.threads
  {
    Sys(shared, s.threads[t := s.threads[t].(pc := pc)])
  }

  /** One step of a thread that is not about to enter a queue. */
  lemma Goes(cfg: Config, s: Sys, n: nat, t: nat, timedOut: bool) returns (s': Sys)
    requires Reaches(cfg, s, n) && t in s.threads && !s.threads[t].pc.Enqueuing?
    ensures Reaches(cfg, s', n)
    ensures var e := Step(cfg, s.shared, t, s.threads[t], timedOut, 0);
            e.id == s.threads[t].id ==> s' == Moved(s, t, e.pc, e.shared)
  {
    hide Step;
    var a := Run(t, timedOut, 0);
    s' := Next(cfg, s, a);
    ReachesNext(cfg, s, a, n);
    assert !Enters(s, a, s');
  }

  lemma Arrives(cfg: Config, s: Sys, n: nat, t: nat) returns (s': Sys)
    requires Reaches(cfg, s, n) && t !in s.threads
    ensures Reaches(cfg, s', n) && s' == s.(threads := s.threads[t := Request(0, Start)])
  {
    var a := Arrive(t, "w", LocalStrict, Interactive, false);
    s' := Next(cfg, s, a);
    ReachesNext(cfg, s, a, n);
  }

  lemma EntersQueue(cfg: Config, s: Sys, n: nat, t: nat) returns (s': Sys)
    requires Reaches(cfg, s, n) && t in s.threads && s.threads[t] == Request(0, Enqueuing)
    requires Enqueue(cfg, s.shared.core, "w", Interactive, t).Queued?
    ensures Reaches(cfg, s', n + 1)
    ensures var e := Enqueue(cfg, s.shared.core, "w", Interactive, t);
            s' == Sys(s.shared.(core := e.core, stored := s.shared.stored - {t}),
                      s.threads[t := Request(e.id, EnqueueNotify)])
  {
    hide Enqueue;
    var a := Run(t, false, 0);
    s' := Next(cfg, s, a);
    ReachesNext(cfg, s, a, n);
  }

  /** A new request finds the permit taken and enters the queue. */
  lemma Joins(cfg: Config, s: Sys, n: nat, t: nat) returns (s': Sys)
    requires Reaches(cfg, s, n) && t !in s.threads && !s.shared.permitFree
    requires Enqueue(cfg, s.shared.core, "w", Interactive, t).Queued?
    ensures Reaches(cfg, s', n + 1)
    ensures var e := Enqueue(cfg, s.shared.core, "w", Interactive, t);
            s' == Sys(s.shared.(core := e.core, stored := s.shared.stored - {t}),
                      s.threads[t := Request(e.id, EnqueueNotify)])
  {
    hide Enqueue, Reaches, EstimatedWaitMs;
    var s1 := Arrives(cfg, s, n, t);
    var s2 := Goes(cfg, s1, n, t, false);
    var s3 := Goes(cfg, s2, n, t, false);
    assert s3 == Sys(s.shared, s.threads[t := Request(0, Enqueuing)]);
    s' := EntersQueue(cfg, s3, n, t);
  }

  lemma Announces(cfg: Config, s: Sys, n: nat, t: nat) returns (s': Sys)
    requires Reaches(cfg, s, n) && t in s.threads && s.threads[t].pc.EnqueueNotify?
    ensures Reaches(cfg, s', n) && s' == Moved(s, t, Checking, s.shared.Send(Front(s.shared.core)))
  {
    hide Front, Reaches;
    var s1 := Goes(cfg, s, n, t, false);
    s' := Goes(cfg, s1, n, t, false);
  }

  /** Not at the front: sleep, or leave if the deadline has passed. */
  lemma Rests(cfg: Config, s: Sys, n: nat, t: nat, timedOut: bool) returns (s': Sys)
    requires Reaches(cfg, s, n) && t in s.threads && s.threads[t].pc.Checking?
    requires !IsFront(cfg, s.shared.core, s.threads[t].id, s.threads[t].class_, s.threads[t].user)
    ensures Reaches(cfg, s', n) && s' == Moved(s, t, if timedOut then Expiring else Sleeping, s.shared)
  {
    hide IsFront, Reaches;
    var s1 := Goes(cfg, s, n, t, false);
    s' := Goes(cfg, s1, n, t, timedOut);
  }

  lemma Expires(cfg: Config, s: Sys, n: nat, t: nat) returns (s': Sys)
    requires Reaches(cfg, s, n) && t in s.threads && s.threads[t].pc.Expiring? && s.threads[t].mode == LocalStrict
    ensures Reaches(cfg, s', n)
    ensures var th := s.threads[t];
            var next := s.shared.(core := RemoveQueued(s.shared.core, th.id, th.class_, th.user));
            s' == Moved(s, t, Done(RateLimited), next.Send(Front(next.core)))
  {
    hide RemoveQueued, Front, Reaches;
    var s1 := Goes(cfg, s, n, t, false);
    var s2 := Goes(cfg, s1, n, t, false);
    s' := Goes(cfg, s2, n, t, false);
  }

  /** At the front with the permit free: take the permit. */
  lemma Takes(cfg: Config, s: Sys, n: nat, t: nat) returns (s': Sys)
    requires Reaches(cfg, s, n) && t in s.threads && s.threads[t].pc.Checking? && s.shared.permitFree
    requires IsFront(cfg, s.shared.core, s.threads[t].id, s.threads[t].class_, s.threads[t].user)
    ensures Reaches(cfg, s', n)
    ensures var th := s.threads[t];
            s' == Moved(s, t, Granted, s.shared.(permitFree := false).LogGrant(th.class_, th.id))
  {
    hide IsFront, Reaches;
    var s1 := Goes(cfg, s, n, t, false);
    s' := Goes(cfg, s1, n, t, false);
  }

  /** From the permit to the lease. */
  lemma Leases(cfg: Config, s: Sys, n: nat, t: nat) returns (s': Sys)
    requires Reaches(cfg, s, n) && t in s.threads && s.threads[t].pc.Granted?
    ensures Reaches(cfg, s', n)
    ensures var th := s.threads[t];
            var next := s.shared.(core := RemoveQueued(s.shared.core, th.id, th.class_, th.user));
            s' == Moved(s, t, Leased, next.Send(Front(next.core)).(core := StartRunning(next.core, th.user)))
  {
    hide RemoveQueued, Front, StartRunning, Reaches;
    var s1 := Goes(cfg, s, n, t, false);
    var s2 := Goes(cfg, s1, n, t, false);
    var s3 := Goes(cfg, s2, n, t, false);
    s' := Goes(cfg, s3, n, t, false);
  }

  lemma Finishes(cfg: Config, s: Sys, n: nat, t: nat) returns (s': Sys)
    requires Reaches(cfg, s, n) && t in s.threads && s.threads[t].pc.Leased?
    ensures Reaches(cfg, s', n)
    ensures var next := s.shared.(core := Release(s.shared.core, s.threads[t].user, 0), permitFree := true);
            s' == Moved(s, t, Done(Finished), next.Send(Front(next.core)))
  {
    hide Release, Front, Reaches;
    var s1 := Goes(cfg, s, n, t, false);
    var s2 := Goes(cfg, s1, n, t, false);
    var s3 := Goes(cfg, s2, n, t, false);
    s' := Goes(cfg, s3, n, t, false);
  }

  // ---- Up to the maximum ----------------------------------------------------------------------------------

  /** Request 0 holds the lease, and every one of the `n` others has come and timed out. */
  ghost predicate Held(s: Sys, n: nat) {
    && (forall t: nat :: t in s.threads <==> t <= n)
    && (forall t :: 0 < t <= n ==> s.threads[t].pc.Done?)
    && s.threads[0] == Request(0, Leased)
    && !s.shared.permitFree && s.shared.interactiveGrants == []
    && s.shared.core == Core(map["w" := 1], map[], [], [], n, 5000)
  }

  lemma TimesOut(cfg: Config, s: Sys, n: nat) returns (s': Sys)
    requires cfg.Accepted() && n < U64_MAX && Held(s, n) && Reaches(cfg, s, n)
    ensures Held(s', n + 1) && Reaches(cfg, s', n + 1)
  {
    hide Reaches;
    var t, q := n + 1, [Entry(n + 1, n + 1, "w")];
    var s1 := Joins(cfg, s, n, t);
    assert s1.shared.core == Core(map["w" := 1], map["w" := 1], q, [], n + 1, 5000);
    var s2 := Announces(cfg, s1, n + 1, t);
    var s3 := Rests(cfg, s2, n + 1, t, true);
    s' := Expires(cfg, s3, n + 1, t);
    assert Position(q, n + 1) == 0 && RemoveAt(q, 0) == [];
    assert s'.shared.core == Core(map["w" := 1], map[], [], [], n + 1, 5000);
  }

  lemma FirstHeld(cfg: Config) returns (s: Sys)
    requires cfg.Accepted()
    ensures Held(s, 0) && Reaches(cfg, s, 0)
  {
    hide Reaches;
    StartReaches(cfg);
    var s1 := Arrives(cfg, Initial(), 0, 0);
    var s2 := Goes(cfg, s1, 0, 0, false);
    s := Goes(cfg, s2, 0, 0, false);
    assert s.shared.core == Core(map["w" := 1], map[], [], [], 0, 5000);
  }

  lemma {:induction false} ReachesHeld(cfg: Config, n: nat) returns (s: Sys)
    requires cfg.Accepted() && n <= U64_MAX
    ensures Held(s, n) && Reaches(cfg, s, n)
  {
    hide Reaches, Held;
    if n == 0 {
      s := FirstHeld(cfg);
    } else {
      var before := ReachesHeld(cfg, n - 1);
      s := TimesOut(cfg, before, n - 1);
    }
  }

  // ---- One enqueue too many ---------------------------------------------------------------------------------

  const FIRST: nat := U64_MAX

  const SECOND: nat := U64_MAX + 1

  const FIRST_ENTRY: Entry := Entry(U64_MAX, FIRST, "w")

  const SECOND_ENTRY: Entry := Entry(U64_MAX, SECOND, "w")

  /** Two requests got the largest id. These are the program counters of them and of request 0. */
  ghost predicate Twins(s: Sys, zero: Pc, first: Pc, second: Pc) {
    && (forall t: nat :: t in s.threads <==> t <= SECOND)
    && (forall t :: 0 < t < FIRST ==> s.threads[t].pc.Done?)
    && s.threads[0] == Request(0, zero)
    && s.threads[FIRST] == Request(U64_MAX, first) && s.threads[SECOND] == Request(U64_MAX, second)
  }

  ghost predicate Queues(c: Core, running: map<string, nat>, queued: nat, q: seq<Entry>) {
    c.running == running && c.queued == map["w" := queued] && c.interactive == q && c.batch == []
  }

  lemma BothQueue(cfg: Config) returns (s: Sys)
    requires cfg.Accepted()
    ensures Reaches(cfg, s, U64_MAX + 1) && Twins(s, Leased, EnqueueNotify, EnqueueNotify)
    ensures Queues(s.shared.core, map["w" := 1], 2, [FIRST_ENTRY, SECOND_ENTRY])
    ensures s.shared.interactiveGrants == []
  {
    hide Reaches;
    var s0 := ReachesHeld(cfg, U64_MAX - 1);
    var s1 := Joins(cfg, s0, U64_MAX - 1, FIRST);
    assert s1.shared.core == Core(map["w" := 1], map["w" := 1], [FIRST_ENTRY], [], U64_MAX, 5000);
    s := Joins(cfg, s1, U64_MAX, SECOND);
  }

  /** Request 0 is done, and the second request is about to check. */
  lemma PermitIsFree(cfg: Config) returns (s: Sys)
    requires cfg.Accepted()
    ensures Reaches(cfg, s, U64_MAX + 1) && Twins(s, Done(Finished), EnqueueNotify, Checking)
    ensures Queues(s.shared.core, map[], 2, [FIRST_ENTRY, SECOND_ENTRY])
    ensures s.shared.permitFree && s.shared.interactiveGrants == [] && FIRST in s.shared.stored
  {
    hide Reaches, NextServiceMs;
    var s0 := BothQueue(cfg);
    var s1 := Finishes(cfg, s0, U64_MAX + 1, 0);
    assert Queues(s1.shared.core, map[], 2, [FIRST_ENTRY, SECOND_ENTRY]);
    s := Announces(cfg, s1, U64_MAX + 1, SECOND);
  }

  /** The second request is granted with the first one's entry: its own stays behind. */
  lemma SecondIsGranted(cfg: Config) returns (s: Sys)
    requires cfg.Accepted()
    ensures Reaches(cfg, s, U64_MAX + 1) && Twins(s, Done(Finished), EnqueueNotify, Leased)
    ensures Queues(s.shared.core, map["w" := 1], 1, [SECOND_ENTRY])
    ensures !s.shared.permitFree && s.shared.interactiveGrants == [U64_MAX] && FIRST in s.shared.stored
  {
    hide Reaches;
    var q := [FIRST_ENTRY, SECOND_ENTRY];
    var s0 := PermitIsFree(cfg);
    var s1 := Takes(cfg, s0, U64_MAX + 1, SECOND);
    s := Leases(cfg, s1, U64_MAX + 1, SECOND);
    assert Position(q, U64_MAX) == 0 && RemoveAt(q, 0) == [SECOND_ENTRY];
  }

  /** The first request has used up its wake-up and sleeps. */
  lemma FirstSleeps(cfg: Config) returns (s: Sys)
    requires cfg.Accepted()
    ensures Reaches(cfg, s, U64_MAX + 1) && Twins(s, Done(Finished), Sleeping, Leased)
    ensures Queues(s.shared.core, map["w" := 1], 1, [SECOND_ENTRY])
    ensures s.shared.interactiveGrants == [U64_MAX] && FIRST !in s.shared.stored
  {
    hide Reaches;
    var s0 := SecondIsGranted(cfg);
    var s1 := Announces(cfg, s0, U64_MAX + 1, FIRST);
    var s2 := Rests(cfg, s1, U64_MAX + 1, FIRST, false);
    var s3 := Goes(cfg, s2, U64_MAX + 1, FIRST, false);
    assert s3 == Moved(s2, FIRST, Checking, s2.shared.(stored := s2.shared.stored - {FIRST}));
    s := Rests(cfg, s3, U64_MAX + 1, FIRST, false);
  }

  /** Everybody else is done, the permit is free, and the first request sleeps on. */
  lemma FirstIsLost(cfg: Config) returns (s: Sys)
    requires cfg.Accepted()
    ensures Reaches(cfg, s, U64_MAX + 1) && Twins(s, Done(Finished), Sleeping, Done(Finished))
    ensures Queues(s.shared.core, map[], 1, [SECOND_ENTRY])
    ensures s.shared.permitFree && s.shared.interactiveGrants == [U64_MAX] && FIRST !in s.shared.stored
  {
    hide Reaches, NextServiceMs;
    var s0 := FirstSleeps(cfg);
    s := Finishes(cfg, s0, U64_MAX + 1, SECOND);
  }

  /** Only its deadline moves it, and then the same id is granted again. */
  lemma GrantedAgain(cfg: Config) returns (s: Sys)
    requires cfg.Accepted()
    ensures Reaches(cfg, s, U64_MAX + 1) && s.shared.interactiveGrants == [U64_MAX, U64_MAX]
  {
    hide Reaches;
    var s0 := FirstIsLost(cfg);
    var s1 := Goes(cfg, s0, U64_MAX + 1, FIRST, true);
    s := Takes(cfg, s1, U64_MAX + 1, FIRST);
  }

  // ---- The exact condition ----------------------------------------------------------------------------------

  lemma GoodUntilExhausted(cfg: Config, s: Sys, m: nat, class_: WorkloadClass)
    requires cfg.Accepted() && Reaches(cfg, s, m) && m <= U64_MAX
    ensures Wakes(s) && (Stuck(s) ==> AllDone(s)) && Accounted(s.shared.core) && GrantsInOrder(s, class_)
  {
    hide Next, Enqueued, Unclashed, Wakes, Stuck, AllDone, Accounted, GrantsInOrder;
    var states, actions :|
      IsRun(cfg, states, actions) && states[|actions|] == s && Enqueued(states, actions, |actions|) == m;
    FewNeverClash(cfg, states, actions, |actions|);
    NoLostWakeup(cfg, states, actions, |actions|);
    if Stuck(s) {
      StuckMeansAllDone(cfg, states, actions, |actions|);
    }
    QueueAccounting(cfg, states, actions, |actions|);
    GrantsFollowEnqueueOrder(cfg, states, actions, |actions|, class_);
  }

  /** No wake-up is lost in any run with at most `n` enqueues exactly if `n` ids are there. */
  lemma WakesIff(cfg: Config, n: nat)
    requires cfg.Accepted()
    ensures (forall s, m: nat :: Reaches(cfg, s, m) && m <= n ==> Wakes(s)) <==> n <= U64_MAX
  {
    hide Reaches, AllDone, Accounted, GrantsInOrder;
    forall s, m: nat | Reaches(cfg, s, m) && m <= U64_MAX ensures Wakes(s) {
      GoodUntilExhausted(cfg, s, m, Interactive);
    }
    var lost := FirstIsLost(cfg);
    assert !Wakes(lost);
  }

  /** No run with at most `n` enqueues leaves a request asleep for good exactly if `n` ids are there. */
  lemma StuckMeansAllDoneIff(cfg: Config, n: nat)
    requires cfg.Accepted()
    ensures (forall s, m: nat :: Reaches(cfg, s, m) && m <= n && Stuck(s) ==> AllDone(s)) <==> n <= U64_MAX
  {
    hide Reaches, Wakes, Accounted, GrantsInOrder;
    forall s, m: nat | Reaches(cfg, s, m) && m <= U64_MAX && Stuck(s) ensures AllDone(s) {
      GoodUntilExhausted(cfg, s, m, Interactive);
    }
    var lost := FirstIsLost(cfg);
    assert Stuck(lost) && !AllDone(lost);
  }

  /** Counters count entries and ids increase in every run with at most `n` enqueues exactly if
      `n` ids are there. */
  lemma AccountedIff(cfg: Config, n: nat)
    requires cfg.Accepted()
    ensures (forall s, m: nat :: Reaches(cfg, s, m) && m <= n ==> Accounted(s.shared.core)) <==> n <= U64_MAX
  {
    hide Reaches, AllDone, Wakes, GrantsInOrder;
    forall s, m: nat | Reaches(cfg, s, m) && m <= U64_MAX ensures Accounted(s.shared.core) {
      GoodUntilExhausted(cfg, s, m, Interactive);
    }
    var twins := BothQueue(cfg);
    assert twins.shared.core.interactive[0].id == twins.shared.core.interactive[1].id;
    assert !Accounted(twins.shared.core);
  }

  /** Grants follow enqueue order in every run with at most `n` enqueues exactly if `n` ids are there. */
  lemma GrantsInOrderIff(cfg: Config, n: nat)
    requires cfg.Accepted()
    ensures (forall s, m: nat :: Reaches(cfg, s, m) && m <= n ==> GrantsInOrder(s, Interactive) && GrantsInOrder(s, Batch))
            <==> n <= U64_MAX
  {
    hide Reaches, AllDone, Wakes, Accounted;
    forall s, m: nat | Reaches(cfg, s, m) && m <= U64_MAX
      ensures GrantsInOrder(s, Interactive) && GrantsInOrder(s, Batch)
    {
      GoodUntilExhausted(cfg, s, m, Interactive);
      GoodUntilExhausted(cfg, s, m, Batch);
    }
    var again := GrantedAgain(cfg);
    assert again.shared.Grants(Interactive)[0] == again.shared.Grants(Interactive)[1];
    assert !GrantsInOrder(again, Interactive);
  }
}
