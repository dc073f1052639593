/**
 `LocalScheduler::acquire` and `LocalLease::drop` as a step machine
 (src/governance.rs:730-848, 863-942). Every request is a thread with a program
 counter; taking the semaphore, each lock section and each `notify_one` is one
 step, so steps of different requests interleave in every order. A waiting request
 runs until it is granted or its deadline passes.
 */
module SchedulerMachine {
  import opened Common
  import opened SchedulerCore

  datatype Outcome = Finished | Overflow | RateLimited

  datatype Pc =
    | Start                          // about to try the semaphore
    | FastHeld                       // holds the permit, about to count itself
    | FastGiveBack                   // about to return the permit without running (line 753)
    | Estimating                     // about to read the estimated wait
    | Enqueuing                      // about to enter a queue
    | EnqueueNotify                  // queued; notify_next about to read the front
    | EnqueueSend(target: Option<nat>)
    | Checking                       // about to evaluate is_front
    | TryingPermit                   // was front, about to try the semaphore
    | DeadlineCheck
    | Sleeping                       // awaiting its notification or its deadline
    | Granted                        // holds the permit, about to leave the queue
    | GrantNotify
    | GrantSend(target: Option<nat>)
    | GrantCount                     // about to count itself as running
    | Leased
    | Releasing                      // uncounted, about to return the permit
    | ReleaseNotify
    | ReleaseSend(target: Option<nat>)
    | Expiring                       // deadline passed, about to leave the queue
    | ExpireNotify
    | ExpireSend(target: Option<nat>)
    | Done(outcome: Outcome)

  datatype Thread = Thread(user: string, mode: HybridMode, class_: WorkloadClass, cloud: bool, id: nat, pc: Pc)

  /** `stored` holds the requests whose `Notify` has a stored wake-up. The two grant
      logs are history: the ids taken from each queue, in the order of their grants. */
  datatype Shared = Shared(core: Core, permitFree: bool, stored: set<nat>,
                           interactiveGrants: seq<nat>, batchGrants: seq<nat>)
  {
    function Grants(class_: WorkloadClass): seq<nat> {
      if class_ == Interactive then interactiveGrants else batchGrants
    }

    function LogGrant(class_: WorkloadClass, id: nat): Shared {
      if class_ == Interactive then this.(interactiveGrants := interactiveGrants + [id])
      else this.(batchGrants := batchGrants + [id])
    }

    function Send(target: Option<nat>): Shared {
      if target.None? then this else this.(stored := stored + {target.value})
    }
  }

  datatype Sys = Sys(shared: Shared, threads: map<nat, Thread>)

  datatype Action =
    | Arrive(t: nat, user: string, mode: HybridMode, class_: WorkloadClass, cloud: bool)
    | Run(t: nat, timedOut: bool, elapsedMs: nat)

  predicate MayOverflow(th: Thread) {
    (th.mode == LocalFirst || th.mode == Balanced) && th.cloud
  }

  /** What one step of a thread does: its next program counter, its queue id, and
      the shared state it leaves behind. */
  datatype Effect = Effect(pc: Pc, id: nat, shared: Shared)

  function Stay(s: Shared, th: Thread, pc: Pc): Effect {
    Effect(pc, th.id, s)
  }

  function EnqueueStep(cfg: Config, s: Shared, t: nat, th: Thread): Effect {
    match Enqueue(cfg, s.core, th.user, th.class_, t)
    case UserLimit => Effect(Done(RateLimited), th.id, s)
    case QueueFull => Effect(Done(if MayOverflow(th) then Overflow else RateLimited), th.id, s)
    case Queued(core, id) => Effect(EnqueueNotify, id, s.(core := core, stored := s.stored - {t}))
  }

  ghost function Step(cfg: Config, s: Shared, t: nat, th: Thread, timedOut: bool, elapsedMs: nat): Effect {
    match th.pc
    case Start =>
      if s.permitFree then Effect(FastHeld, th.id, s.(permitFree := false)) else Stay(s, th, Estimating)
    case FastHeld =>
      var (c, ok) := TryStart(cfg, s.core, th.user);
      Effect(if ok then Leased else FastGiveBack, th.id, s.(core := c))
    case FastGiveBack => Effect(Estimating, th.id, s.(permitFree := true))
    case Estimating =>
      if MayOverflow(th) && EstimatedWaitMs(s.core, th.class_) > cfg.overflowAfterMs
      then Stay(s, th, Done(Overflow)) else Stay(s, th, Enqueuing)
    case Enqueuing => EnqueueStep(cfg, s, t, th)
    case EnqueueNotify => Stay(s, th, EnqueueSend(Front(s.core)))
    case EnqueueSend(target) => Effect(Checking, th.id, s.Send(target))
    case Checking =>
      Stay(s, th, if IsFront(cfg, s.core, th.id, th.class_, th.user) then TryingPermit else DeadlineCheck)
    case TryingPermit =>
      if s.permitFree then Effect(Granted, th.id, s.(permitFree := false).LogGrant(th.class_, th.id))
      else Stay(s, th, DeadlineCheck)
    case DeadlineCheck => Stay(s, th, if timedOut then Expiring else Sleeping)
    case Sleeping =>
      if t in s.stored then Effect(Checking, th.id, s.(stored := s.stored - {t}))
      else Stay(s, th, if timedOut then Checking else Sleeping)
    case Granted =>
      Effect(GrantNotify, th.id, s.(core := RemoveQueued(s.core, th.id, th.class_, th.user)))
    case GrantNotify => Stay(s, th, GrantSend(Front(s.core)))
    case GrantSend(target) => Effect(GrantCount, th.id, s.Send(target))
    case GrantCount => Effect(Leased, th.id, s.(core := StartRunning(s.core, th.user)))
    case Leased => Effect(Releasing, th.id, s.(core := Release(s.core, th.user, elapsedMs)))
    case Releasing => Effect(ReleaseNotify, th.id, s.(permitFree := true))
    case ReleaseNotify => Stay(s, th, ReleaseSend(Front(s.core)))
    case ReleaseSend(target) => Effect(Done(Finished), th.id, s.Send(target))
    case Expiring =>
      Effect(ExpireNotify, th.id, s.(core := RemoveQueued(s.core, th.id, th.class_, th.user)))
    case ExpireNotify => Stay(s, th, ExpireSend(Front(s.core)))
    case ExpireSend(target) =>
      Effect(Done(if th.mode != LocalStrict && th.cloud then Overflow else RateLimited), th.id, s.Send(target))
    case Done(_) => Stay(s, th, th.pc)
  }

  predicate Enabled(s: Sys, a: Action) {
    a.Arrive? <==> a.t !in s.threads
  }

  ghost function Next(cfg: Config, s: Sys, a: Action): Sys
    requires Enabled(s, a)
  {
    match a
    case Arrive(t, user, mode, class_, cloud) =>
      s.(threads := s.threads[t := Thread(user, mode, class_, cloud, 0, Start)])
    case Run(t, timedOut, elapsedMs) =>
      var e := Step(cfg, s.shared, t, s.threads[t], timedOut, elapsedMs);
      Sys(e.shared, s.threads[t := s.threads[t].(pc := e.pc, id := e.id)])
  }

  function Initial(): Sys {
    Sys(Shared(Core(map[], map[], [], [], 0, 5000), true, {}, [], []), map[])
  }

  /** The states of a run: it starts with an idle scheduler and every state follows
      from the one before by an enabled action. */
  ghost predicate IsRun(cfg: Config, states: seq<Sys>, actions: seq<Action>) {
    && |states| == |actions| + 1
    && states[0] == Initial()
    && forall i :: 0 <= i < |actions| ==>
         Enabled(states[i], actions[i]) && states[i + 1] == Next(cfg, states[i], actions[i])
  }

  // ---- What a program counter implies --------------------------------------------------

  predicate Holds(pc: Pc) {
    pc.FastHeld? || pc.FastGiveBack? || pc.Granted? || pc.GrantNotify? || pc.GrantSend? || pc.GrantCount?
    || pc.Leased? || pc.Releasing?
  }

  predicate Waits(pc: Pc) {
    pc.EnqueueNotify? || pc.EnqueueSend? || pc.Checking? || pc.TryingPermit? || pc.DeadlineCheck?
    || pc.Sleeping? || pc.Granted? || pc.Expiring?
  }

  predicate AboutToNotify(pc: Pc) {
    pc.EnqueueNotify? || pc.GrantNotify? || pc.ReleaseNotify? || pc.ExpireNotify?
  }

  predicate SendsTo(pc: Pc, f: nat) {
    && (pc.EnqueueSend? || pc.GrantSend? || pc.ReleaseSend? || pc.ExpireSend?)
    && pc.target == Some(f)
  }
}
