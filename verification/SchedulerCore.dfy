/**
 The state behind the local scheduler's mutex and the lock sections that read or
 change it (`SchedulerState` in src/governance.rs). Every lock section is given
 twice: as a function on values, which the step machine of `SchedulerMachine`
 uses, and as a method of the class `LocalScheduler`, which changes the fields in
 place as the source does and is proved to compute that function.
 */
module SchedulerCore {
  import opened Common

  datatype WorkloadClass = Interactive | Batch

  datatype HybridMode = LocalStrict | LocalFirst | Balanced | CloudFirst

  /** The limits `from_env` accepts: all are fixed except the batch queue's. */
  datatype Config = Config(executingPerUser: nat, queuedPerUser: nat, interactiveLimit: nat,
                           batchLimit: nat, overflowAfterMs: nat)
  {
    predicate Accepted() {
      executingPerUser == 1 && queuedPerUser == 2 && interactiveLimit == 16 && overflowAfterMs == 5000
    }

    function Limit(class_: WorkloadClass): nat {
      if class_ == Interactive then interactiveLimit else batchLimit
    }
  }

  /** A queued request. `owner` stands for its `Notify` handle, which only the
      enqueuing request waits on; `user` is the user that request runs for. */
  datatype Entry = Entry(id: nat, owner: nat, user: string)

  datatype Core = Core(running: map<string, nat>, queued: map<string, nat>,
                       interactive: seq<Entry>, batch: seq<Entry>, nextId: nat, serviceMs: nat)
  {
    function Queue(class_: WorkloadClass): seq<Entry> {
      if class_ == Interactive then interactive else batch
    }

    function WithQueue(class_: WorkloadClass, q: seq<Entry>): Core {
      if class_ == Interactive then this.(interactive := q) else this.(batch := q)
    }
  }

  function Get(m: map<string, nat>, user: string): nat {
    if user in m then m[user] else 0
  }

  /** Subtract one, saturating, and drop the key when it reaches zero. */
  function Decrement(m: map<string, nat>, user: string): map<string, nat> {
    if user !in m then m
    else if m[user] <= 1 then m - {user}
    else m[user := m[user] - 1]
  }

  // ---- Lock sections as functions -------------------------------------------------

  /** The fast path's section: count the request if its user may run another one. */
  function TryStart(cfg: Config, c: Core, user: string): (Core, bool) {
    var n := Get(c.running, user);
    if n < cfg.executingPerUser then (c.(running := c.running[user := n + 1]), true)
    else (c.(running := c.running[user := n]), false)
  }

  ghost function SumOver(keys: set<string>, m: map<string, nat>): nat
    requires keys <= m.Keys
  {
    if keys == {} then 0
    else
      var k :| k in keys;
      m[k] + SumOver(keys - {k}, m)
  }

  ghost function SumValues(m: map<string, nat>): nat {
    SumOver(m.Keys, m)
  }

  ghost function EstimatedWaitMs(c: Core, class_: WorkloadClass): nat {
    SaturatingMul(c.serviceMs,
                  |c.interactive| + (if class_ == Batch then |c.batch| else 0) + SumValues(c.running))
  }

  datatype Admission = UserLimit | QueueFull | Queued(core: Core, id: nat)

  function Enqueue(cfg: Config, c: Core, user: string, class_: WorkloadClass, owner: nat): Admission {
    if Get(c.queued, user) >= cfg.queuedPerUser then UserLimit
    else if |c.Queue(class_)| >= cfg.Limit(class_) then QueueFull
    else
      var id := SaturatingAdd(c.nextId, 1);
      var c1 := c.(nextId := id, queued := c.queued[user := Get(c.queued, user) + 1]);
      Queued(c1.WithQueue(class_, c.Queue(class_) + [Entry(id, owner, user)]), id)
  }

  predicate IsHead(q: seq<Entry>, id: nat) {
    |q| > 0 && q[0].id == id
  }

  predicate IsFront(cfg: Config, c: Core, id: nat, class_: WorkloadClass, user: string) {
    && Get(c.running, user) < cfg.executingPerUser
    && match class_
       case Interactive => IsHead(c.interactive, id)
       case Batch => c.interactive == [] && IsHead(c.batch, id)
  }

  /** Index of the first entry with this id, or the length when there is none. */
  function Position(q: seq<Entry>, id: nat): (i: nat)
    ensures i <= |q|
    ensures i < |q| ==> q[i].id == id
    ensures forall j :: 0 <= j < i ==> q[j].id != id
  {
    if q == [] || q[0].id == id then 0 else 1 + Position(q[1..], id)
  }

  function RemoveAt(q: seq<Entry>, i: nat): seq<Entry> {
    if i < |q| then q[..i] + q[i + 1..] else q
  }

  function RemoveQueued(c: Core, id: nat, class_: WorkloadClass, user: string): Core {
    var q := c.Queue(class_);
    c.WithQueue(class_, RemoveAt(q, Position(q, id))).(queued := Decrement(c.queued, user))
  }

  /** The request `notify_next` picks: interactive first, else batch. */
  function Front(c: Core): Option<nat> {
    if c.interactive != [] then Some(c.interactive[0].owner)
    else if c.batch != [] then Some(c.batch[0].owner)
    else None
  }

  function StartRunning(c: Core, user: string): Core {
    c.(running := c.running[user := Get(c.running, user) + 1])
  }

  function NextServiceMs(current: nat, elapsedMs: nat): nat {
    var e := if elapsedMs > 1 then elapsedMs else 1;
    if current == 0 then e else SaturatingAdd(SaturatingMul(current, 4), e) / 5
  }

  function Release(c: Core, user: string, elapsedMs: nat): Core {
    c.(running := Decrement(c.running, user), serviceMs := NextServiceMs(c.serviceMs, elapsedMs))
  }

  // ---- Counting a user's entries ---------------------------------------------------

  function CountUser(q: seq<Entry>, user: string): nat {
    if q == [] then 0
    else CountUser(q[..|q| - 1], user) + (if q[|q| - 1].user == user then 1 else 0)
  }

  lemma {:induction false} CountUserConcat(a: seq<Entry>, b: seq<Entry>, user: string)
    ensures CountUser(a + b, user) == CountUser(a, user) + CountUser(b, user)
  {
    if b == [] {
      assert a + b == a;
    } else {
      CountUserConcat(a, b[..|b| - 1], user);
      assert (a + b)[..|a + b| - 1] == a + b[..|b| - 1];
    }
  }

  lemma CountUserAppend(q: seq<Entry>, e: Entry, user: string)
    ensures CountUser(q + [e], user) == CountUser(q, user) + (if e.user == user then 1 else 0)
  {
  }

  /** Taking the entry at `i` out lowers its own user's count by one and no other's. */
  lemma CountUserRemoveAt(q: seq<Entry>, i: nat, user: string)
    requires i < |q|
    ensures CountUser(RemoveAt(q, i), user) + (if q[i].user == user then 1 else 0) == CountUser(q, user)
  {
    CountUserConcat(q[..i], q[i + 1..], user);
    CountUserAppend(q[..i], q[i], user);
    CountUserConcat(q[..i] + [q[i]], q[i + 1..], user);
    assert q == (q[..i] + [q[i]]) + q[i + 1..];
  }

  // ---- The sum of a counter map does not depend on the order of iteration ------------

  lemma {:induction false} SumOverRemove(keys: set<string>, m: map<string, nat>, k: string)
    requires k in keys && keys <= m.Keys
    ensures SumOver(keys, m) == m[k] + SumOver(keys - {k}, m)
  {
    var p :| p in keys && SumOver(keys, m) == m[p] + SumOver(keys - {p}, m);
    if p != k {
      SumOverRemove(keys - {p}, m, k);
      SumOverRemove(keys - {k}, m, p);
      assert keys - {p} - {k} == keys - {k} - {p};
    }
  }

  // ---- The scheduler object ----------------------------------------------------------

  /** The retained queue: everything but the first entry with this id. */
  method DropEntry(q: seq<Entry>, id: nat) returns (kept: seq<Entry>)
    ensures kept == RemoveAt(q, Position(q, id))
  {
    var i := 0;
    while i < |q| && q[i].id != id
      invariant i <= |q|
      invariant forall j :: 0 <= j < i ==> q[j].id != id
    {
      i := i + 1;
    }
    hide Position;
    assert i == Position(q, id);
    kept := if i < |q| then q[..i] + q[i + 1..] else q;
  }

  method CountDown(counts: map<string, nat>, user: string) returns (rest: map<string, nat>)
    ensures rest == Decrement(counts, user)
  {
    rest := counts;
    if user in counts {
      if counts[user] <= 1 {
        rest := counts - {user};
      } else {
        rest := counts[user := counts[user] - 1];
      }
    }
  }

  /** The record behind the mutex; each method is one lock section. */
  class LocalScheduler {
    var running: map<string, nat>
    var queued: map<string, nat>
    var interactive: seq<Entry>
    var batch: seq<Entry>
    var nextId: nat
    var serviceMs: nat

    ghost function State(): Core
      reads this
    {
      Core(running, queued, interactive, batch, nextId, serviceMs)
    }

    constructor ()
      ensures State() == Core(map[], map[], [], [], 0, 5000)
    {
      running, queued, interactive, batch, nextId, serviceMs := map[], map[], [], [], 0, 5000;
    }

    method TryStartRequest(cfg: Config, user: string) returns (ok: bool)
      modifies this
      ensures (State(), ok) == TryStart(cfg, old(State()), user)
    {
      var n := if user in running then running[user] else 0;
      ok := n < cfg.executingPerUser;
      running := running[user := if ok then n + 1 else n];
    }

    method EstimateWait(class_: WorkloadClass) returns (waitMs: nat)
      ensures waitMs == EstimatedWaitMs(State(), class_)
    {
      var ahead := |interactive|;
      if class_ == Batch {
        ahead := ahead + |batch|;
      }
      var rest := running.Keys;
      ghost var before := ahead;
      while rest != {}
        invariant rest <= running.Keys
        invariant ahead + SumOver(rest, running) == before + SumValues(running)
      {
        var k :| k in rest;
        SumOverRemove(rest, running, k);
        ahead := ahead + running[k];
        rest := rest - {k};
      }
      waitMs := SaturatingMul(serviceMs, ahead);
    }

    method EnqueueRequest(cfg: Config, user: string, class_: WorkloadClass, owner: nat)
      returns (admitted: Admission)
      modifies this
      ensures admitted == Enqueue(cfg, old(State()), user, class_, owner)
      ensures State() == if admitted.Queued? then admitted.core else old(State())
    {
      var mine := if user in queued then queued[user] else 0;
      if mine >= cfg.queuedPerUser {
        return UserLimit;
      }
      var length := if class_ == Interactive then |interactive| else |batch|;
      if length >= cfg.Limit(class_) {
        return QueueFull;
      }
      nextId := SaturatingAdd(nextId, 1);
      queued := queued[user := mine + 1];
      var entry := Entry(nextId, owner, user);
      if class_ == Interactive {
        interactive := interactive + [entry];
      } else {
        batch := batch + [entry];
      }
      admitted := Queued(Core(running, queued, interactive, batch, nextId, serviceMs), nextId);
    }

    method CheckFront(cfg: Config, id: nat, class_: WorkloadClass, user: string) returns (front: bool)
      ensures front == IsFront(cfg, State(), id, class_, user)
    {
      if user in running && running[user] >= cfg.executingPerUser {
        return false;
      }
      if cfg.executingPerUser == 0 {
        return false;
      }
      match class_
      case Interactive =>
        front := |interactive| > 0 && interactive[0].id == id;
      case Batch =>
        front := |interactive| == 0 && |batch| > 0 && batch[0].id == id;
    }

    method RemoveRequest(id: nat, class_: WorkloadClass, user: string)
      modifies this
      ensures State() == RemoveQueued(old(State()), id, class_, user)
    {
      hide Position, Decrement;
      var q := if class_ == Interactive then interactive else batch;
      q := DropEntry(q, id);
      if class_ == Interactive {
        interactive := q;
      } else {
        batch := q;
      }
      queued := CountDown(queued, user);
    }

    method PickFront() returns (owner: Option<nat>)
      ensures owner == Front(State())
    {
      if |interactive| > 0 {
        return Some(interactive[0].owner);
      }
      if |batch| > 0 {
        return Some(batch[0].owner);
      }
      owner := None;
    }

    method CountRunning(user: string)
      modifies this
      ensures State() == StartRunning(old(State()), user)
    {
      running := running[user := (if user in running then running[user] else 0) + 1];
    }

    method ReleaseRequest(user: string, elapsedMs: nat)
      modifies this
      ensures State() == Release(old(State()), user, elapsedMs)
    {
      if user in running {
        if running[user] <= 1 {
          running := running - {user};
        } else {
          running := running[user := running[user] - 1];
        }
      }
      var e := if elapsedMs > 1 then elapsedMs else 1;
      if serviceMs == 0 {
        serviceMs := e;
      } else {
        serviceMs := SaturatingAdd(SaturatingMul(serviceMs, 4), e) / 5;
      }
    }
  }
}
