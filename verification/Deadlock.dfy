/** A lock manager that runs any number of the store's transactions, and why it never deadlocks. */
module Deadlock {
  import opened Tables
  import opened Locks

  /** A running transaction: it holds the first `held` locks of its program and, if any are left,
      asks for the next one; `since` orders requests in time. */
  datatype Task = Task(kind: Kind, program: seq<Lock>, held: nat, since: nat)

  datatype System = System(tasks: map<nat, Task>, clock: nat)

  predicate Waiting(task: Task) {
    task.held < |task.program|
  }

  function Wanted(task: Task): Lock
    requires Waiting(task)
  {
    task.program[task.held]
  }

  predicate Conflict(a: Lock, b: Lock) {
    a.on == b.on && (a.mode == Exclusive || b.mode == Exclusive)
  }

  ghost predicate Sane(world: World, task: Task) {
    task.held <= |task.program| && Shape(world, task.kind, task.program)
  }

  ghost predicate Valid(world: World, sys: System) {
    forall t :: t in sys.tasks ==> Sane(world, sys.tasks[t])
  }

  ghost predicate HoldsAgainst(task: Task, lock: Lock) {
    exists i :: 0 <= i < task.held && i < |task.program| && Conflict(task.program[i], lock)
  }

  /** `u` asked earlier for the same lock, and `t` has to queue behind it. */
  predicate Behind(world: World, t: Task, u: Task) {
    && Waiting(t) && Waiting(u) && Conflict(Wanted(u), Wanted(t)) && u.since < t.since
    && (world.readersQueue || Wanted(t).mode == Exclusive)
  }

  /** `t` cannot be granted its next lock because of `u`. */
  ghost predicate WaitsFor(world: World, sys: System, t: nat, u: nat) {
    && t in sys.tasks && u in sys.tasks && t != u && Waiting(sys.tasks[t])
    && (HoldsAgainst(sys.tasks[u], Wanted(sys.tasks[t])) || Behind(world, sys.tasks[t], sys.tasks[u]))
  }

  /** No two tasks hold conflicting locks. */
  ghost predicate Exclusion(sys: System) {
    forall t, u :: t in sys.tasks && u in sys.tasks && t != u ==> Apart(sys.tasks[t], sys.tasks[u])
  }

  ghost predicate Apart(a: Task, b: Task) {
    forall i, j :: 0 <= i < a.held && 0 <= j < b.held && i < |a.program| && j < |b.program| ==>
      !Conflict(a.program[i], b.program[j])
  }

  // ----- deadlock -----

  ghost predicate WaitsInside(world: World, sys: System, some: set<nat>, t: nat) {
    exists u :: u in some && WaitsFor(world, sys, t, u)
  }

  /** Every task of the set waits for another one of it. A cycle of waits is such a set. */
  ghost predicate Deadlocked(world: World, sys: System, some: set<nat>) {
    && some != {} && (forall t :: t in some ==> t in sys.tasks && Waiting(sys.tasks[t]))
    && forall t {:trigger WaitsInside(world, sys, some, t)} :: t in some ==> WaitsInside(world, sys, some, t)
  }

  /** No running park shares its job with an external-nonce retry. */
  ghost predicate ParksApart(sys: System) {
    forall t, u :: t in sys.tasks && u in sys.tasks && sys.tasks[t].kind.Retry? && sys.tasks[u].kind.Park? ==>
      sys.tasks[t].kind.owner != DvnRow(sys.tasks[u].kind.g)
  }

  /** Shared requests do not queue behind waiting writers wherever such a retry runs. */
  ghost predicate ReadersPass(world: World, sys: System) {
    world.readersQueue ==> forall t :: t in sys.tasks ==> !sys.tasks[t].kind.Retry?
  }

  lemma {:induction false} Earliest(sys: System, some: set<nat>) returns (first: nat)
    requires some != {} && forall t :: t in some ==> t in sys.tasks
    ensures first in some && forall u :: u in some ==> sys.tasks[first].since <= sys.tasks[u].since
  {
    var pick :| pick in some;
    var rest := some - {pick};
    first := pick;
    if rest == {} {
      forall u | u in some ensures u == pick { assert u == pick || u in rest; }
    } else {
      var other := Earliest(sys, rest);
      if sys.tasks[other].since < sys.tasks[pick].since { first := other; }
      forall u | u in some ensures sys.tasks[first].since <= sys.tasks[u].since { assert u == pick || u in rest; }
    }
  }

  /** Whatever a deadlocked task wants is held inside the deadlock. */
  lemma HolderInside(world: World, sys: System, some: set<nat>, t: nat) returns (h: nat, i: nat)
    requires Deadlocked(world, sys, some) && t in some
    ensures h in some && i < sys.tasks[h].held && sys.tasks[h].program[i].on == Wanted(sys.tasks[t]).on
  {
    var rivals := set u | u in some && Wanted(sys.tasks[u]).on == Wanted(sys.tasks[t]).on;
    assert t in rivals;
    var first := Earliest(sys, rivals);
    assert WaitsInside(world, sys, some, first);
    var u :| u in some && WaitsFor(world, sys, first, u);
    assert Behind(world, sys.tasks[first], sys.tasks[u]) ==> u in rivals;
    var n :| 0 <= n < sys.tasks[u].held && n < |sys.tasks[u].program| && Conflict(sys.tasks[u].program[n], Wanted(sys.tasks[first]));
    h, i := u, n;
  }

  /** A shared request that does not queue waits for a writer inside the deadlock. */
  lemma WriterInside(world: World, sys: System, some: set<nat>, t: nat) returns (h: nat, i: nat)
    requires Deadlocked(world, sys, some) && t in some && !world.readersQueue && Wanted(sys.tasks[t]).mode == Share
    ensures h in some && i < sys.tasks[h].held && i < |sys.tasks[h].program|
    ensures sys.tasks[h].program[i] == Lock(Wanted(sys.tasks[t]).on, Exclusive)
  {
    assert WaitsInside(world, sys, some, t);
    var u :| u in some && WaitsFor(world, sys, t, u);
    var n :| 0 <= n < sys.tasks[u].held && n < |sys.tasks[u].program| && Conflict(sys.tasks[u].program[n], Wanted(sys.tasks[t]));
    h, i := u, n;
  }

  /** An external-nonce retry that has gated and now asks for the job. */
  predicate AtOwner(task: Task) {
    task.kind.Retry? && task.held == |task.program| - 1
  }

  /** A reconciliation that asks for an outbox row. */
  predicate AtRow(task: Task) {
    task.kind.Reconcile? && task.held >= 2
  }

  /** The holder of the retry's job wants to share a carrier that the retry shares: nobody can be
      writing it. */
  lemma CarrierFree(world: World, t: Task, x: Task, m: nat, lock: Lock, same: bool)
    requires Sane(world, t) && AtOwner(t) && lock in CarriersOf(world, t.kind.owner)
    requires m < x.held && m < |x.program| && if same then x == t else Apart(t, x)
    ensures x.program[m] != Lock(lock.on, Exclusive)
  {
    ScopeIsShared(OnePathway(world.keyOf(t.kind.owner.guid)), lock);
    var n :| 0 <= n < |t.program| - 1 && t.program[..|t.program| - 1][n] == lock;
    assert t.program[n] == lock;
  }

  /** A retry waiting for its job is in no deadlock: whoever holds the job finds every pause carrier
      free to share, and a packet is the last thing anyone locks. */
  lemma OwnerNotDeadlocked(world: World, sys: System, some: set<nat>, t: nat)
    requires Valid(world, sys) && Exclusion(sys) && ParksApart(sys) && ReadersPass(world, sys)
    requires Deadlocked(world, sys, some) && t in some
    ensures !AtOwner(sys.tasks[t])
  {
    if AtOwner(sys.tasks[t]) {
      var h, i := HolderInside(world, sys, some, t);
      JobHolderWants(world, sys.tasks[t], sys.tasks[h], i);
      if Wanted(sys.tasks[h]).on.PacketRow? {
        var x, n := HolderInside(world, sys, some, h);
        PacketHolderDone(world, sys.tasks[x], n);
      } else {
        var x, m := WriterInside(world, sys, some, h);
        CarrierFree(world, sys.tasks[t], sys.tasks[x], m, Wanted(sys.tasks[h]), x == t);
      }
    }
  }

  lemma JobHolderWants(world: World, t: Task, h: Task, i: nat)
    requires Sane(world, t) && AtOwner(t) && Sane(world, h) && Waiting(h) && i < h.held && h.program[i].on == t.kind.owner
    requires h.kind.Park? ==> t.kind.owner != DvnRow(h.kind.g)
    ensures Wanted(h) in CarriersOf(world, t.kind.owner) || Wanted(h).on.PacketRow?
    ensures Wanted(h) in CarriersOf(world, t.kind.owner) ==> Wanted(h).mode == Share
  {
    assert h.program[i].on == t.kind.owner && h.program[h.held] == Wanted(h);
    if Wanted(h) in CarriersOf(world, t.kind.owner) { ScopeIsShared(OnePathway(world.keyOf(t.kind.owner.guid)), Wanted(h)); }
  }

  lemma PacketHolderDone(world: World, x: Task, n: nat)
    requires Sane(world, x) && n < x.held && x.program[n].on.PacketRow?
    ensures !Waiting(x)
  {
  }

  /** Apart from those two, what a task holds is below what it wants. */
  lemma HeldBelowWanted(world: World, task: Task, i: nat)
    requires Sane(world, task) && Waiting(task) && i < task.held && !AtOwner(task) && !AtRow(task)
    ensures Below(task.program[i].on, Wanted(task).on)
  {
    if task.kind.Retry? {
      var gated := task.program[..|task.program| - 1];
      assert gated[i] == task.program[i] && gated[task.held] == Wanted(task);
    }
  }

  lemma BelowTransitive(a: Resource, b: Resource, c: Resource)
    requires Below(a, b) && Below(b, c)
    ensures Below(a, c)
  {
  }

  /** Some task wants a lock that no other one's wish is above. */
  lemma {:induction false} Topmost(sys: System, some: set<nat>) returns (top: nat)
    requires some != {} && forall t :: t in some ==> t in sys.tasks && Waiting(sys.tasks[t])
    ensures top in some && forall u :: u in some ==> !Below(Wanted(sys.tasks[top]).on, Wanted(sys.tasks[u]).on)
  {
    var pick :| pick in some;
    var rest := some - {pick};
    if rest == {} {
      top := pick;
      forall u | u in some ensures u == pick { assert u == pick || u in rest; }
    } else {
      var other := Topmost(sys, rest);
      var rises := Below(Wanted(sys.tasks[other]).on, Wanted(sys.tasks[pick]).on);
      top := if rises then pick else other;
      forall u | u in some ensures !Below(Wanted(sys.tasks[top]).on, Wanted(sys.tasks[u]).on) {
        assert u == pick || u in rest;
        if rises && Below(Wanted(sys.tasks[pick]).on, Wanted(sys.tasks[u]).on) {
          BelowTransitive(Wanted(sys.tasks[other]).on, Wanted(sys.tasks[pick]).on, Wanted(sys.tasks[u]).on);
        }
      }
    }
  }

  /** Two tasks cannot both hold the signer key of one lane. */
  lemma OneSignerHolder(a: Task, b: Task)
    requires a.held > 0 && b.held > 0 && a.program != [] && b.program != []
    requires a.program[0].mode == Exclusive && b.program[0] == a.program[0]
    ensures !Apart(a, b)
  {
    assert Conflict(a.program[0], b.program[0]);
  }

  lemma OneRowHolder(world: World, t: Task, h: Task, i: nat, same: bool)
    requires Sane(world, t) && Sane(world, h) && AtRow(t) && Waiting(t) && h.kind.Reconcile?
    requires i < h.held && if same then h == t else Apart(t, h)
    ensures h.program[i].on != Wanted(t).on
  {
    if !same && h.program[0] == t.program[0] { OneSignerHolder(t, h); }
  }

  /** A deadlocked reconciliation waits for a row whose holder wants something above all rows. */
  lemma BeyondTheRow(world: World, sys: System, some: set<nat>, t: nat) returns (h: nat)
    requires Valid(world, sys) && Exclusion(sys) && ParksApart(sys) && ReadersPass(world, sys)
    requires Deadlocked(world, sys, some) && t in some && AtRow(sys.tasks[t])
    ensures h in some && Class(Wanted(sys.tasks[h]).on) > 3
  {
    var i;
    h, i := HolderInside(world, sys, some, t);
    OwnerNotDeadlocked(world, sys, some, h);
    if sys.tasks[h].kind.Reconcile? { OneRowHolder(world, sys.tasks[t], sys.tasks[h], i, h == t); }
    WantsRow(world, sys.tasks[t]);
    HeldBelowWanted(world, sys.tasks[h], i);
  }

  lemma WantsRow(world: World, t: Task)
    requires Sane(world, t) && Waiting(t) && AtRow(t)
    ensures Wanted(t).on.OutboxRow? && t.program[0].on.SignerKey?
  {
  }

  /** Nobody else can want the cursor that a reconciliation holds. */
  lemma CursorUncontested(world: World, t: Task, h: Task, same: bool)
    requires Sane(world, t) && Waiting(t) && Sane(world, h) && Waiting(h) && AtRow(h)
    requires if same then h == t else Apart(t, h)
    ensures Wanted(t).on != h.program[1].on
  {
    if same { WantsRow(world, t); } else if t.held > 0 && t.program[0] == h.program[0] { OneSignerHolder(t, h); }
  }

  /** No set of running transactions is deadlocked. */
  lemma NoDeadlock(world: World, sys: System, some: set<nat>)
    requires Valid(world, sys) && Exclusion(sys) && ParksApart(sys) && ReadersPass(world, sys)
    ensures !Deadlocked(world, sys, some)
  {
    if Deadlocked(world, sys, some) {
      var t := Topmost(sys, some);
      var h, i := HolderInside(world, sys, some, t);
      OwnerNotDeadlocked(world, sys, some, h);
      if !AtRow(sys.tasks[h]) {
        HeldBelowWanted(world, sys.tasks[h], i);
      } else if i == 0 {
        WantsRow(world, sys.tasks[h]);
      } else if i == 1 {
        CursorUncontested(world, sys.tasks[t], sys.tasks[h], t == h);
      } else {
        var x := BeyondTheRow(world, sys, some, h);
        RowBelow(world, sys.tasks[h], i);
      }
    }
  }

  lemma RowBelow(world: World, h: Task, i: nat)
    requires Sane(world, h) && AtRow(h) && 2 <= i < h.held
    ensures Class(h.program[i].on) == 3
  {
  }

  // ----- whole schedules -----

  /** A transaction starts, is granted its next lock, or ends (commit, rollback or error), which
      releases everything it holds. */
  datatype Event = Begin(t: nat, txn: Txn) | Grant(t: nat) | Finish(t: nat)

  ghost predicate Possible(world: World, sys: System, e: Event) {
    match e
    case Begin(t, txn) => t !in sys.tasks && Consistent(world, txn)
    case Grant(t) => t in sys.tasks && Waiting(sys.tasks[t]) && forall u :: u in sys.tasks ==> !WaitsFor(world, sys, t, u)
    case Finish(t) => t in sys.tasks
  }

  function Happen(sys: System, e: Event): System {
    match e
    case Begin(t, txn) => System(sys.tasks[t := Task(KindOf(txn), Program(txn), 0, sys.clock)], sys.clock + 1)
    case Grant(t) =>
      if t !in sys.tasks then sys
      else System(sys.tasks[t := sys.tasks[t].(held := sys.tasks[t].held + 1, since := sys.clock)], sys.clock + 1)
    case Finish(t) => sys.(tasks := sys.tasks - {t})
  }

  datatype Schedule = Idle | After(before: Schedule, e: Event)

  ghost function Reached(s: Schedule): System {
    match s
    case Idle => System(map[], 0)
    case After(before, e) => Happen(Reached(before), e)
  }

  ghost predicate Feasible(world: World, s: Schedule) {
    s.After? ==> Feasible(world, s.before) && Possible(world, Reached(s.before), s.e)
  }

  lemma GrantKeepsApart(world: World, sys: System, t: nat, u: nat)
    requires Exclusion(sys) && t in sys.tasks && u in sys.tasks && t != u
    requires Waiting(sys.tasks[t]) && !WaitsFor(world, sys, t, u)
    ensures Apart(sys.tasks[t].(held := sys.tasks[t].held + 1, since := sys.clock), sys.tasks[u])
    ensures Apart(sys.tasks[u], sys.tasks[t].(held := sys.tasks[t].held + 1, since := sys.clock))
  {
    var (a, b) := (sys.tasks[t], sys.tasks[u]);
    assert Apart(a, b) && Apart(b, a);
    assert !HoldsAgainst(b, a.program[a.held]);
  }

  lemma ExclusionStep(world: World, sys: System, e: Event)
    requires Exclusion(sys) && Possible(world, sys, e)
    ensures Exclusion(Happen(sys, e))
  {
    var sys' := Happen(sys, e);
    forall t, u | t in sys'.tasks && u in sys'.tasks && t != u ensures Apart(sys'.tasks[t], sys'.tasks[u]) {
      if e.Grant? && t == e.t {
        GrantKeepsApart(world, sys, t, u);
      } else if e.Grant? && u == e.t {
        GrantKeepsApart(world, sys, u, t);
      } else if t in sys.tasks && u in sys.tasks {
        assert Apart(sys.tasks[t], sys.tasks[u]);
      }
    }
  }

  lemma {:induction false} LocksExclude(world: World, s: Schedule)
    requires Feasible(world, s)
    ensures Exclusion(Reached(s))
  {
    if s.After? {
      LocksExclude(world, s.before);
      ExclusionStep(world, Reached(s.before), s.e);
    }
  }

  lemma {:induction false} StaysValid(world: World, s: Schedule)
    requires Feasible(world, s)
    ensures Valid(world, Reached(s))
  {
    if s.After? {
      StaysValid(world, s.before);
      if s.e.Begin? { ProgramShape(world, s.e.txn); }
    }
  }

  /** No schedule of any number of transactions deadlocks, external-nonce retries and reconciliations
      included, as long as no running park shares its job with a running retry and shared requests
      do not queue behind waiting writers where such a retry runs. */
  lemma NeverDeadlocks(world: World, s: Schedule, some: set<nat>)
    requires Feasible(world, s) && ParksApart(Reached(s)) && ReadersPass(world, Reached(s))
    ensures !Deadlocked(world, Reached(s), some)
  {
    StaysValid(world, s);
    LocksExclude(world, s);
    NoDeadlock(world, Reached(s), some);
  }

  ghost predicate CanGoOn(world: World, sys: System, t: nat) {
    && t in sys.tasks
    && (!Waiting(sys.tasks[t]) || forall u :: u in sys.tasks ==> !WaitsFor(world, sys, t, u))
  }

  lemma FreeTask(world: World, sys: System) returns (t: nat)
    requires sys.tasks != map[] && !Deadlocked(world, sys, sys.tasks.Keys)
    ensures CanGoOn(world, sys, t)
  {
    assert sys.tasks.Keys != {};
    if free :| free in sys.tasks && !Waiting(sys.tasks[free]) {
      t := free;
    } else {
      t :| t in sys.tasks.Keys && !WaitsInside(world, sys, sys.tasks.Keys, t);
      forall u | u in sys.tasks ensures !WaitsFor(world, sys, t, u) {
        assert u in sys.tasks.Keys;
      }
    }
  }

  /** As long as anything runs, something can go on: a task that wants no further lock, or one whose
      next lock can be granted at once. */
  lemma SomethingGoesOn(world: World, s: Schedule) returns (t: nat)
    requires Feasible(world, s) && ParksApart(Reached(s)) && ReadersPass(world, Reached(s)) && Reached(s).tasks != map[]
    ensures CanGoOn(world, Reached(s), t)
  {
    NeverDeadlocks(world, s, Reached(s).tasks.Keys);
    t := FreeTask(world, Reached(s));
  }

  /** A cycle of waits, of any length, would be a deadlock. */
  lemma NoWaitCycle(world: World, s: Schedule, cycle: seq<nat>)
    requires Feasible(world, s) && ParksApart(Reached(s)) && ReadersPass(world, Reached(s))
    requires |cycle| >= 2 && forall i :: 0 <= i < |cycle| - 1 ==> WaitsFor(world, Reached(s), cycle[i], cycle[i + 1])
    ensures cycle[0] != cycle[|cycle| - 1]
  {
    if cycle[0] == cycle[|cycle| - 1] {
      CycleIsDeadlock(world, Reached(s), cycle);
      NeverDeadlocks(world, s, MembersOf(cycle));
    }
  }

  function MembersOf(cycle: seq<nat>): set<nat> {
    set i | 0 <= i < |cycle| - 1 :: cycle[i]
  }

  lemma CycleIsDeadlock(world: World, sys: System, cycle: seq<nat>)
    requires |cycle| >= 2 && forall i :: 0 <= i < |cycle| - 1 ==> WaitsFor(world, sys, cycle[i], cycle[i + 1])
    requires cycle[0] == cycle[|cycle| - 1]
    ensures Deadlocked(world, sys, MembersOf(cycle))
  {
    var some := MembersOf(cycle);
    assert cycle[0] in some;
    forall t | t in some ensures t in sys.tasks && Waiting(sys.tasks[t]) && WaitsInside(world, sys, some, t) {
      var i :| 0 <= i < |cycle| - 1 && cycle[i] == t;
      assert WaitsFor(world, sys, cycle[i], cycle[i + 1]) && cycle[i + 1] in some;
    }
  }

  // ----- why parks have to be apart -----

  /** Two tasks, numbered 0 and 1. */
  function Pair(a: Task, b: Task, clock: nat): System {
    System(map[0 := a, 1 := b], clock)
  }

  lemma GrantsFirst(world: World, s: Schedule, a: Task, b: Task, clock: nat) returns (next: Schedule)
    requires Feasible(world, s) && Reached(s) == Pair(a, b, clock) && Waiting(a) && b.held == 0
    requires Waiting(b) ==> !Conflict(Wanted(b), Wanted(a))
    ensures Feasible(world, next) && Reached(next) == Pair(a.(held := a.held + 1, since := clock), b, clock + 1)
  {
    next := After(s, Grant(0));
    assert !HoldsAgainst(b, Wanted(a));
  }

  lemma GrantsSecond(world: World, s: Schedule, a: Task, b: Task, clock: nat) returns (next: Schedule)
    requires Feasible(world, s) && Reached(s) == Pair(a, b, clock) && Waiting(b)
    requires !HoldsAgainst(a, Wanted(b)) && b.since < a.since
    ensures Feasible(world, next) && Reached(next) == Pair(a, b.(held := b.held + 1, since := clock), clock + 1)
  {
    next := After(s, Grant(1));
  }

  lemma BothBegin(world: World, x: Txn, y: Txn) returns (s: Schedule)
    requires Consistent(world, x) && Consistent(world, y)
    ensures Feasible(world, s)
    ensures Reached(s) == Pair(Task(KindOf(x), Program(x), 0, 0), Task(KindOf(y), Program(y), 0, 1), 2)
  {
    var first := After(Idle, Begin(0, x));
    assert Feasible(world, Idle) && Reached(first) == System(map[0 := Task(KindOf(x), Program(x), 0, 0)], 1);
    s := After(first, Begin(1, y));
  }

  /** The first task takes all its locks but the last while the second has taken none. */
  lemma AllButOne(world: World, s: Schedule, a: Task, b: Task) returns (next: Schedule)
    requires Feasible(world, s) && |a.program| == 5 && b.program != [] && a.held == b.held == 0
    requires Reached(s) == Pair(a, b, 2) && forall i :: 0 <= i < 4 ==> !Conflict(b.program[0], a.program[i])
    ensures Feasible(world, next) && Reached(next) == Pair(a.(held := 4, since := 5), b, 6)
  {
    next := GrantsFirst(world, s, a, b, 2);
    next := GrantsFirst(world, next, a.(held := 1, since := 2), b, 3);
    next := GrantsFirst(world, next, a.(held := 2, since := 3), b, 4);
    next := GrantsFirst(world, next, a.(held := 3, since := 4), b, 5);
  }

  lemma EachHoldsTheOther(world: World, a: Task, b: Task, clock: nat, i: nat, j: nat)
    requires Waiting(a) && Waiting(b) && i < a.held && j < b.held
    requires Conflict(a.program[i], Wanted(b)) && Conflict(b.program[j], Wanted(a))
    ensures Deadlocked(world, Pair(a, b, clock), {0, 1})
  {
    var sys := Pair(a, b, clock);
    assert HoldsAgainst(a, Wanted(b)) && HoldsAgainst(b, Wanted(a));
    assert WaitsFor(world, sys, 0, 1) && WaitsFor(world, sys, 1, 0);
    assert WaitsInside(world, sys, {0, 1}, 0) && WaitsInside(world, sys, {0, 1}, 1);
  }

  /** If a park could match the job of a running retry, each would hold what the other wants. */
  lemma SharedParkWouldDeadlock(world: World, id: nat, g: Guid) returns (s: Schedule)
    requires world.keyOf(g).src < world.keyOf(g).dst
    ensures Feasible(world, s) && Deadlocked(world, Reached(s), {0, 1}) && !ParksApart(Reached(s))
  {
    var key := world.keyOf(g);
    var retry, park := ExternalRetryTxn(id, OnePathway(key), DvnRow(g)), DvnParkTxn(g, key);
    var p := [Lock(OutboxRow(id), Exclusive), Lock(ChainRow(key.src), Share), Lock(ChainRow(key.dst), Share),
              Lock(PathwayRow(key), Share), Lock(DvnRow(g), Exclusive)];
    var q := [Lock(DvnRow(g), Exclusive), Lock(PathwayRow(key), Exclusive)];
    assert Program(retry) == p && Program(park) == q;
    var (a, b) := (Task(Retry(DvnRow(g)), p, 0, 0), Task(Park(g), q, 0, 1));
    s := BothBegin(world, retry, park);
    s := AllButOne(world, s, a, b);
    s := GrantsSecond(world, s, a.(held := 4, since := 5), b, 6);
    EachHoldsTheOther(world, a.(held := 4, since := 5), b.(held := 1, since := 6), 7, 3, 0);
  }
}
