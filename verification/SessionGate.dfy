/** The per-session turn gate of backend/modules/agent/session_gate.py, on top of `asyncio.Lock`.

    Operations on different sessions touch different dictionary entries, so the protocol is
    stated for one session's `Slot` and the class below lifts it to the dictionaries.  A call of
    `acquire` is split at its suspension points; every call has the ticket number of its arrival. */
module SessionGate {
  import opened Common

  /** The future a parked caller waits on: `Woken` has a result its caller has not seen yet,
      `Dropped` was cancelled while waiting, `WokenDropped` had its caller cancelled after waking. */
  datatype Fut = Waiting | Woken | Dropped | WokenDropped

  /** `guarded`: parked in the branch of `acquire` that gives the waiter count back on cancellation. */
  datatype Parked = Parked(ticket: nat, guarded: bool, fut: Fut)

  datatype Lock = Lock(locked: bool, queue: seq<Parked>)

  datatype Slot = Slot(
    lock: Option<Lock>,       // _locks entry
    waiters: Option<int>,     // _waiters entry
    holders: set<nat>,        // calls that returned and have not released
    lost: seq<Parked>,        // callers parked on a lock object already taken out of _locks
    nextTicket: nat,
    grants: seq<nat>)         // tickets in the order the gate let them through

  const IDLE := Slot(None, None, {}, [], 0, [])

  // ---------- asyncio.Lock ----------

  function WakeFirst(q: seq<Parked>): seq<Parked> {
    if q != [] && q[0].fut == Waiting then q[0 := q[0].(fut := Woken)] else q
  }

  function Without(q: seq<Parked>, i: nat): seq<Parked>
    requires i < |q|
  {
    q[..i] + q[i + 1..]
  }

  predicate FreeForAll(l: Lock) {
    !l.locked && forall i :: 0 <= i < |l.queue| ==> l.queue[i].fut == Dropped
  }

  // ---------- the gate ----------

  function Count(x: Slot, default: int): int {
    if x.waiters.Some? then x.waiters.value else default
  }

  function OneLess(x: Slot): Slot {
    var n := Count(x, 1) - 1;
    x.(waiters := Some(if n > 0 then n else 0))
  }

  function CleanupIfIdle(x: Slot): Slot {
    if Count(x, 0) > 0 then x
    else if x.lock.Some? && x.lock.value.locked then x
    else x.(lock := None, waiters := None,
            lost := if x.lock.Some? then x.lost + x.lock.value.queue else x.lost)
  }

  function CountedIn(x: Slot): Slot {
    x.(lock := if x.lock.Some? then x.lock else Some(Lock(false, [])),
       waiters := Some(Count(x, 0) + 1), nextTicket := x.nextTicket + 1)
  }

  /** `acquire` up to its first suspension, or to its end when the lock is free. */
  function Arrive(x: Slot): Slot {
    var x1 := CountedIn(x);
    var lock := x1.lock.value;
    if FreeForAll(lock) then
      x1.(lock := Some(lock.(locked := true)), holders := x.holders + {x.nextTicket},
          grants := x.grants + [x.nextTicket])
    else
      x1.(lock := Some(lock.(queue := lock.queue + [Parked(x.nextTicket, lock.locked, Waiting)])))
  }

  /** A woken caller runs: it takes the lock and `acquire` returns. */
  function Resume(x: Slot, i: nat): Slot
    requires x.lock.Some? && i < |x.lock.value.queue|
  {
    var l := x.lock.value;
    var t := l.queue[i].ticket;
    x.(lock := Some(Lock(true, Without(l.queue, i))), holders := x.holders + {t}, grants := x.grants + [t])
  }

  /** `Task.cancel()` on a parked caller. */
  function Interrupted(f: Fut): Fut {
    match f
    case Waiting => Dropped
    case Woken => WokenDropped
    case _ => f
  }

  function InterruptCaller(x: Slot, i: nat): Slot
    requires x.lock.Some? && i < |x.lock.value.queue|
  {
    var l := x.lock.value;
    x.(lock := Some(l.(queue := l.queue[i := l.queue[i].(fut := Interrupted(l.queue[i].fut))])))
  }

  /** The cancelled caller runs: it leaves the queue, wakes the next if nobody holds the lock,
      and gives its count back if it was parked in the guarded branch. */
  function Unwind(x: Slot, i: nat): Slot
    requires x.lock.Some? && i < |x.lock.value.queue|
  {
    var x1 := LeaveQueue(x, i);
    if x.lock.value.queue[i].guarded then CleanupIfIdle(OneLess(x1)) else x1
  }

  function LeaveQueue(x: Slot, i: nat): Slot
    requires x.lock.Some? && i < |x.lock.value.queue|
  {
    var l := x.lock.value;
    var q := Without(l.queue, i);
    x.(lock := Some(l.(queue := if l.locked then q else WakeFirst(q))))
  }

  function ReleaseBy(x: Slot, t: nat): Slot {
    if x.lock.None? || !x.lock.value.locked then x.(holders := x.holders - {t})
    else
      var x1 := OneLess(x);
      CleanupIfIdle(x1.(lock := Some(Lock(false, WakeFirst(x.lock.value.queue))), holders := x.holders - {t}))
  }

  datatype GateOp = ArriveOp | ResumeOp(i: nat) | InterruptOp(i: nat) | UnwindOp(i: nat) | ReleaseOp(t: nat)

  function FutOf(x: Slot, i: nat): Option<Fut> {
    if x.lock.Some? && i < |x.lock.value.queue| then Some(x.lock.value.queue[i].fut) else None
  }

  predicate CanStep(x: Slot, op: GateOp) {
    match op
    case ArriveOp => true
    case ResumeOp(i) => FutOf(x, i) == Some(Woken)
    case InterruptOp(i) => FutOf(x, i).Some?
    case UnwindOp(i) => FutOf(x, i) == Some(Dropped) || FutOf(x, i) == Some(WokenDropped)
    case ReleaseOp(t) => t in x.holders
  }

  function GateStep(x: Slot, op: GateOp): Slot
    requires CanStep(x, op)
  {
    match op
    case ArriveOp => Arrive(x)
    case ResumeOp(i) => Resume(x, i)
    case InterruptOp(i) => InterruptCaller(x, i)
    case UnwindOp(i) => Unwind(x, i)
    case ReleaseOp(t) => ReleaseBy(x, t)
  }

  ghost predicate GateRuns(x: Slot, ops: seq<GateOp>)
    decreases |ops|
  {
    ops == [] || (CanStep(x, ops[0]) && GateRuns(GateStep(x, ops[0]), ops[1..]))
  }

  ghost function AfterGate(x: Slot, ops: seq<GateOp>): Slot
    requires GateRuns(x, ops)
    decreases |ops|
  {
    if ops == [] then x else AfterGate(GateStep(x, ops[0]), ops[1..])
  }

  // ---------- invariant ----------

  predicate Undropped(f: Fut) { f == Waiting || f == Woken }

  /** Only the head of a free lock's queue can have been woken, and then it was. */
  ghost predicate HeadIsNext(l: Lock) {
    && (forall i :: 0 <= i < |l.queue| && (i > 0 || l.locked) ==>
        l.queue[i].fut == Waiting || l.queue[i].fut == Dropped)
    && (!l.locked && l.queue != [] ==> l.queue[0].fut != Waiting)
  }

  /** The queue is in arrival order and behind everybody already let through. */
  ghost predicate Ordered(q: seq<Parked>, nextTicket: nat, grants: seq<nat>) {
    && (forall i, j :: 0 <= i < j < |q| ==> q[i].ticket < q[j].ticket)
    && (forall i :: 0 <= i < |q| ==> q[i].ticket < nextTicket)
    && (forall i, j :: 0 <= i < j < |grants| ==> grants[i] < grants[j])
    && (forall i :: 0 <= i < |grants| ==> grants[i] < nextTicket)
    && (forall i, j :: 0 <= i < |grants| && 0 <= j < |q| && Undropped(q[j].fut) ==> grants[i] < q[j].ticket)
  }

  function Queue(x: Slot): seq<Parked> { if x.lock.Some? then x.lock.value.queue else [] }

  /** Callers inside `acquire` or holding the gate. */
  function InUse(x: Slot): nat { |Queue(x)| + |x.holders| }

  ghost predicate Consistent(x: Slot) {
    && |x.holders| <= 1 && x.lost == []
    && (x.lock.Some? <==> x.waiters.Some?)
    && (x.holders != {} <==> x.lock.Some? && x.lock.value.locked)
    && (x.lock.Some? ==> HeadIsNext(x.lock.value))
    && InUse(x) <= Count(x, 0)
    && Ordered(Queue(x), x.nextTicket, x.grants)
  }

  ghost predicate GateInv(x: Slot) {
    Consistent(x) && (x.lock.Some? ==> x.waiters.value > 0)
  }

  lemma {:induction false} RemovedOrdered(q: seq<Parked>, i: nat, nextTicket: nat, grants: seq<nat>)
    requires i < |q| && Ordered(q, nextTicket, grants)
    ensures Ordered(Without(q, i), nextTicket, grants)
  {
    var r := Without(q, i);
    forall k | 0 <= k < |r| ensures r[k] == q[if k < i then k else k + 1] {}
  }

  lemma {:induction false} ArriveKeeps(x: Slot)
    requires GateInv(x)
    ensures GateInv(Arrive(x))
  {
    var lock := if x.lock.Some? then x.lock.value else Lock(false, []);
    if FreeForAll(lock) { EnterKeeps(x, lock); } else { ParkKeeps(x, lock); }
  }

  lemma {:induction false} EnterKeeps(x: Slot, lock: Lock)
    requires GateInv(x) && lock == (if x.lock.Some? then x.lock.value else Lock(false, [])) && FreeForAll(lock)
    ensures GateInv(Arrive(x))
  {
    JoinedOrdered(Queue(x), x.nextTicket, x.grants, true);
    assert x.holders == {} && x.holders + {x.nextTicket} == {x.nextTicket};
  }

  lemma {:induction false} ParkKeeps(x: Slot, lock: Lock)
    requires GateInv(x) && lock == (if x.lock.Some? then x.lock.value else Lock(false, [])) && !FreeForAll(lock)
    ensures GateInv(Arrive(x))
  {
    JoinedOrdered(Queue(x), x.nextTicket, x.grants, lock.locked);
    assert HeadIsNext(lock.(queue := lock.queue + [Parked(x.nextTicket, lock.locked, Waiting)]));
  }

  /** A new ticket goes last, and if nobody undropped is waiting it may be let through at once. */
  lemma {:induction false} JoinedOrdered(q: seq<Parked>, nextTicket: nat, grants: seq<nat>, guarded: bool)
    requires Ordered(q, nextTicket, grants)
    ensures Ordered(q + [Parked(nextTicket, guarded, Waiting)], nextTicket + 1, grants)
    ensures (forall i :: 0 <= i < |q| ==> q[i].fut == Dropped) ==> Ordered(q, nextTicket + 1, grants + [nextTicket])
  {
  }

  lemma {:induction false} ResumeKeeps(x: Slot, i: nat)
    requires GateInv(x) && CanStep(x, ResumeOp(i))
    ensures GateInv(Resume(x, i))
  {
    RemovedOrdered(Queue(x), i, x.nextTicket, x.grants);
    assert i == 0 && x.holders == {};
  }

  lemma {:induction false} InterruptKeeps(x: Slot, i: nat)
    requires GateInv(x) && CanStep(x, InterruptOp(i))
    ensures GateInv(InterruptCaller(x, i))
  {
  }

  lemma {:induction false} UnwindKeeps(x: Slot, i: nat)
    requires GateInv(x) && CanStep(x, UnwindOp(i))
    ensures GateInv(Unwind(x, i))
  {
    LeaveQueueKeeps(x, i);
    CleanupKeeps(OneLess(LeaveQueue(x, i)));
  }

  lemma {:induction false} LeaveQueueKeeps(x: Slot, i: nat)
    requires GateInv(x) && CanStep(x, UnwindOp(i))
    ensures GateInv(LeaveQueue(x, i)) && InUse(LeaveQueue(x, i)) < Count(x, 0)
  {
    RemovedOrdered(Queue(x), i, x.nextTicket, x.grants);
    WokenOrdered(Without(Queue(x), i), x.nextTicket, x.grants);
    RemovedHead(x.lock.value, i);
  }

  lemma {:induction false} RemovedHead(l: Lock, i: nat)
    requires HeadIsNext(l) && i < |l.queue| && !Undropped(l.queue[i].fut)
    ensures HeadIsNext(l.(queue := if l.locked then Without(l.queue, i) else WakeFirst(Without(l.queue, i))))
  {
    var q := Without(l.queue, i);
    forall k | 0 <= k < |q| ensures q[k] == l.queue[if k < i then k else k + 1] {}
  }

  lemma {:induction false} WokenOrdered(q: seq<Parked>, nextTicket: nat, grants: seq<nat>)
    requires Ordered(q, nextTicket, grants)
    ensures Ordered(WakeFirst(q), nextTicket, grants) && |WakeFirst(q)| == |q|
  {
  }

  lemma {:induction false} CleanupKeeps(x: Slot)
    requires Consistent(x)
    ensures GateInv(CleanupIfIdle(x))
  {
    if x.lock.Some? && Count(x, 0) <= 0 {
      assert |x.holders| == 0 && |Queue(x)| == 0;
      assert x.holders == {} && Queue(x) == [];
    }
  }

  lemma {:induction false} ReleaseKeeps(x: Slot, t: nat)
    requires GateInv(x) && CanStep(x, ReleaseOp(t))
    ensures GateInv(ReleaseBy(x, t))
  {
    var x1 := OneLess(x).(lock := Some(Lock(false, WakeFirst(x.lock.value.queue))), holders := x.holders - {t});
    assert |x.holders - {t}| == 0;
    WokenOrdered(x.lock.value.queue, x.nextTicket, x.grants);
    CleanupKeeps(x1);
  }

  /** `release` does not ask who calls it; it does no harm exactly when the caller holds the gate or
      nobody does. */
  lemma {:induction false} ReleaseKeepsIff(x: Slot, caller: nat)
    requires GateInv(x)
    ensures GateInv(ReleaseBy(x, caller)) <==> caller in x.holders || x.holders == {}
  {
    if caller in x.holders {
      ReleaseKeeps(x, caller);
    } else {
      assert x.holders - {caller} == x.holders;
      if x.holders != {} {
        var y := ReleaseBy(x, caller);
        assert y.holders == x.holders && !(y.lock.Some? && y.lock.value.locked);
      }
    }
  }

  lemma {:induction false} GateStepKeeps(x: Slot, op: GateOp)
    requires GateInv(x) && CanStep(x, op)
    ensures GateInv(GateStep(x, op))
  {
    match op
    case ArriveOp => ArriveKeeps(x);
    case ResumeOp(i) => ResumeKeeps(x, i);
    case InterruptOp(i) => InterruptKeeps(x, i);
    case UnwindOp(i) => UnwindKeeps(x, i);
    case ReleaseOp(t) => ReleaseKeeps(x, t);
  }

  lemma {:induction false} GateRunKeeps(x: Slot, ops: seq<GateOp>)
    requires GateInv(x) && GateRuns(x, ops)
    ensures GateInv(AfterGate(x, ops))
    decreases |ops|
  {
    if ops != [] {
      GateStepKeeps(x, ops[0]);
      GateRunKeeps(GateStep(x, ops[0]), ops[1..]);
    }
  }

  // ---------- what the gate promises, over every run ----------

  lemma {:induction false} IdleInv()
    ensures GateInv(IDLE)
  {
  }

  /** At most one turn at a time, served strictly in arrival order; and no caller is ever left
      parked on a lock object that `_cleanup_if_idle` has taken out of the dictionary. */
  lemma {:induction false} OneTurnAtATimeInOrder(ops: seq<GateOp>, t: nat, u: nat, i: nat, j: nat)
    requires GateRuns(IDLE, ops)
    ensures var x := AfterGate(IDLE, ops);
            && (t in x.holders && u in x.holders ==> t == u)
            && (i < j < |x.grants| ==> x.grants[i] < x.grants[j])
            && x.lost == []
  {
    IdleInv();
    GateRunKeeps(IDLE, ops);
    AtMostOne(AfterGate(IDLE, ops).holders, t, u);
  }

  lemma {:induction false} AtMostOne(holders: set<nat>, t: nat, u: nat)
    requires |holders| <= 1
    ensures t in holders && u in holders ==> t == u
  {
    if t in holders && u in holders { SubsetSize({t, u}, holders); }
  }

  /** Whoever is let through passes no waiting caller that arrived before it. */
  lemma {:induction false} NobodyIsOvertaken(ops: seq<GateOp>, op: GateOp, k: nat)
    requires GateRuns(IDLE, ops) && CanStep(AfterGate(IDLE, ops), op)
    requires var x := GateStep(AfterGate(IDLE, ops), op);
             k < |Queue(x)| && Undropped(Queue(x)[k].fut) && |x.grants| > |AfterGate(IDLE, ops).grants|
    ensures var x := GateStep(AfterGate(IDLE, ops), op);
            x.grants[|x.grants| - 1] < Queue(x)[k].ticket
  {
    IdleInv();
    GateRunKeeps(IDLE, ops);
    GateStepKeeps(AfterGate(IDLE, ops), op);
  }

  /** A free gate with callers parked is never stuck: its first caller is woken or on its way out,
      and when that caller runs, the gate is taken or again free with a caller ready (or none). */
  lemma {:induction false} FreeGateMovesOn(ops: seq<GateOp>)
    requires GateRuns(IDLE, ops)
    requires var x := AfterGate(IDLE, ops); x.holders == {} && Queue(x) != []
    ensures var x := AfterGate(IDLE, ops);
            && (CanStep(x, ResumeOp(0)) || CanStep(x, UnwindOp(0)))
            && (CanStep(x, ResumeOp(0)) ==> GateStep(x, ResumeOp(0)).holders == {Queue(x)[0].ticket})
            && (CanStep(x, UnwindOp(0)) ==> |Queue(GateStep(x, UnwindOp(0)))| == |Queue(x)| - 1)
  {
    IdleInv();
    GateRunKeeps(IDLE, ops);
    FreeGate(AfterGate(IDLE, ops));
  }

  lemma {:induction false} FreeGate(x: Slot)
    requires GateInv(x) && x.holders == {} && Queue(x) != []
    ensures CanStep(x, ResumeOp(0)) || CanStep(x, UnwindOp(0))
    ensures CanStep(x, ResumeOp(0)) ==> GateStep(x, ResumeOp(0)).holders == {Queue(x)[0].ticket}
    ensures CanStep(x, UnwindOp(0)) ==> |Queue(GateStep(x, UnwindOp(0)))| == |Queue(x)| - 1
  {
    if CanStep(x, UnwindOp(0)) { UnwindQueue(x, 0); }
  }

  lemma {:induction false} UnwindQueue(x: Slot, i: nat)
    requires GateInv(x) && CanStep(x, UnwindOp(i))
    ensures |Queue(Unwind(x, i))| == |Queue(x)| - 1
    ensures Unwind(x, i).holders == x.holders
  {
    LeaveQueueKeeps(x, i);
    var x1 := LeaveQueue(x, i);
    assert |Queue(x1)| == |Queue(x)| - 1;
    CleanupQueue(OneLess(x1));
  }

  lemma {:induction false} CleanupQueue(x: Slot)
    requires Consistent(x)
    ensures |Queue(CleanupIfIdle(x))| == |Queue(x)| && CleanupIfIdle(x).holders == x.holders
  {
  }

  // ---------- no residue, and the one way to leave some ----------

  /** The waiter count says how many callers are inside `acquire` or hold the gate. */
  ghost predicate CountExact(x: Slot) {
    InUse(x) == Count(x, 0)
  }

  function Surplus(x: Slot): int { Count(x, 0) - InUse(x) }

  lemma {:induction false} SurplusNeverShrinks(x: Slot, op: GateOp)
    requires GateInv(x) && CanStep(x, op)
    ensures Surplus(GateStep(x, op)) == Surplus(x) + if op.UnwindOp? && !Queue(x)[op.i].guarded then 1 else 0
  {
    match op
    case ArriveOp => ArriveSurplus(x);
    case ResumeOp(i) => ResumeKeeps(x, i);
    case UnwindOp(i) => UnwindSurplus(x, i);
    case ReleaseOp(t) => ReleaseSurplus(x, t);
    case InterruptOp(_) =>
  }

  lemma {:induction false} CleanupSurplus(x: Slot)
    requires Consistent(x)
    ensures Surplus(CleanupIfIdle(x)) == Surplus(x)
  {
    if Count(x, 0) <= 0 {
      assert |x.holders| == 0 && |Queue(x)| == 0;
    }
  }

  lemma {:induction false} ArriveSurplus(x: Slot)
    requires GateInv(x)
    ensures Surplus(Arrive(x)) == Surplus(x)
  {
    if x.holders == {} {
      assert {} + {x.nextTicket} == {x.nextTicket};
    }
  }

  lemma {:induction false} UnwindSurplus(x: Slot, i: nat)
    requires GateInv(x) && CanStep(x, UnwindOp(i))
    ensures Surplus(Unwind(x, i)) == Surplus(x) + if Queue(x)[i].guarded then 0 else 1
  {
    LeaveQueueKeeps(x, i);
    assert InUse(LeaveQueue(x, i)) == InUse(x) - 1;
    CleanupSurplus(OneLess(LeaveQueue(x, i)));
  }

  lemma {:induction false} ReleaseSurplus(x: Slot, t: nat)
    requires GateInv(x) && CanStep(x, ReleaseOp(t))
    ensures Surplus(ReleaseBy(x, t)) == Surplus(x)
  {
    var woken := WakeFirst(x.lock.value.queue);
    var x1 := OneLess(x).(lock := Some(Lock(false, woken)), holders := x.holders - {t});
    assert |x.holders - {t}| == |x.holders| - 1;
    WokenOrdered(x.lock.value.queue, x.nextTicket, x.grants);
    assert Consistent(x1);
    CleanupSurplus(x1);
  }

  // ---------- who gives the count back, told from the arrival ----------

  /** The tickets of the callers that arrived while somebody held the gate. */
  ghost function ArrivedHeld(x: Slot, ops: seq<GateOp>, held: set<nat>): set<nat>
    requires GateRuns(x, ops)
    decreases |ops|
  {
    if ops == [] then held else ArrivedHeld(GateStep(x, ops[0]), ops[1..], HeldAfter(x, ops[0], held))
  }

  ghost function HeldAfter(x: Slot, op: GateOp, held: set<nat>): set<nat> {
    if op.ArriveOp? && x.holders != {} then held + {x.nextTicket} else held
  }

  /** The branch each parked caller is in is told by who held the gate when it arrived. */
  ghost predicate BranchesAgree(x: Slot, held: set<nat>) {
    && (forall t :: t in held ==> t < x.nextTicket)
    && (forall i :: 0 <= i < |Queue(x)| ==> (Queue(x)[i].guarded <==> Queue(x)[i].ticket in held))
  }

  lemma {:induction false} StepBranches(x: Slot, op: GateOp, held: set<nat>)
    requires GateInv(x) && CanStep(x, op) && BranchesAgree(x, held)
    ensures BranchesAgree(GateStep(x, op), HeldAfter(x, op, held))
  {
    match op
    case ArriveOp => ArriveBranches(x, held);
    case ResumeOp(i) => RemovedBranches(x, i);
    case InterruptOp(_) =>
    case UnwindOp(i) => UnwindBranches(x, i, held);
    case ReleaseOp(t) => ReleaseBranches(x, t, held);
  }

  lemma {:induction false} ArriveBranches(x: Slot, held: set<nat>)
    requires GateInv(x) && BranchesAgree(x, held)
    ensures BranchesAgree(Arrive(x), HeldAfter(x, ArriveOp, held))
  {
    var q := Queue(Arrive(x));
    forall i | 0 <= i < |q| ensures q[i].guarded <==> q[i].ticket in HeldAfter(x, ArriveOp, held) {
      if i < |Queue(x)| { assert q[i] == Queue(x)[i] && q[i].ticket < x.nextTicket; }
    }
  }

  lemma {:induction false} RemovedBranches(x: Slot, i: nat)
    requires x.lock.Some? && i < |Queue(x)|
    ensures forall k :: 0 <= k < |Without(Queue(x), i)| ==>
              Without(Queue(x), i)[k] == Queue(x)[if k < i then k else k + 1]
  {
  }

  lemma {:induction false} UnwindBranches(x: Slot, i: nat, held: set<nat>)
    requires GateInv(x) && CanStep(x, UnwindOp(i)) && BranchesAgree(x, held)
    ensures BranchesAgree(Unwind(x, i), held)
  {
    RemovedBranches(x, i);
    var x1 := LeaveQueue(x, i);
    assert BranchesAgree(x1, held);
    CleanupBranches(OneLess(x1), held);
  }

  lemma {:induction false} CleanupBranches(x: Slot, held: set<nat>)
    requires BranchesAgree(x, held)
    ensures BranchesAgree(CleanupIfIdle(x), held)
  {
  }

  lemma {:induction false} ReleaseBranches(x: Slot, t: nat, held: set<nat>)
    requires GateInv(x) && CanStep(x, ReleaseOp(t)) && BranchesAgree(x, held)
    ensures BranchesAgree(ReleaseBy(x, t), held)
  {
    var x1 := OneLess(x).(lock := Some(Lock(false, WakeFirst(Queue(x)))), holders := x.holders - {t});
    assert BranchesAgree(x1, held);
    CleanupBranches(x1, held);
  }

  lemma {:induction false} RunBranches(x: Slot, ops: seq<GateOp>, held: set<nat>)
    requires GateInv(x) && GateRuns(x, ops) && BranchesAgree(x, held)
    ensures BranchesAgree(AfterGate(x, ops), ArrivedHeld(x, ops, held))
    decreases |ops|
  {
    if ops != [] {
      GateStepKeeps(x, ops[0]);
      StepBranches(x, ops[0], held);
      RunBranches(GateStep(x, ops[0]), ops[1..], HeldAfter(x, ops[0], held));
    }
  }

  /** When a cancelled caller gives its count back: exactly if somebody held the gate when it arrived.  No
      other step of any run makes the count wrong. */
  lemma {:induction false} CountStaysExactIff(ops: seq<GateOp>, op: GateOp)
    requires GateRuns(IDLE, ops) && CanStep(AfterGate(IDLE, ops), op) && CountExact(AfterGate(IDLE, ops))
    ensures var x := AfterGate(IDLE, ops);
            CountExact(GateStep(x, op))
            <==> (op.UnwindOp? ==> Queue(x)[op.i].ticket in ArrivedHeld(IDLE, ops, {}))
  {
    IdleInv();
    GateRunKeeps(IDLE, ops);
    RunBranches(IDLE, ops, {});
    StaysExactIff(AfterGate(IDLE, ops), op, ArrivedHeld(IDLE, ops, {}));
  }

  lemma {:induction false} StaysExactIff(x: Slot, op: GateOp, held: set<nat>)
    requires GateInv(x) && CountExact(x) && CanStep(x, op) && BranchesAgree(x, held)
    ensures CountExact(GateStep(x, op)) <==> (op.UnwindOp? ==> Queue(x)[op.i].ticket in held)
  {
    SurplusNeverShrinks(x, op);
  }

  /** Every caller that leaves the queue cancelled is one that arrived while the gate was held. */
  ghost predicate OnlyHeldUnwind(x: Slot, ops: seq<GateOp>, held: set<nat>)
    requires GateRuns(x, ops)
    decreases |ops|
  {
    ops == [] ||
    (&& (ops[0].UnwindOp? ==> Queue(x)[ops[0].i].ticket in held)
     && OnlyHeldUnwind(GateStep(x, ops[0]), ops[1..], HeldAfter(x, ops[0], held)))
  }

  lemma {:induction false} SurplusFrom(x: Slot, ops: seq<GateOp>, held: set<nat>)
    requires GateInv(x) && GateRuns(x, ops) && BranchesAgree(x, held)
    ensures GateInv(AfterGate(x, ops)) && Surplus(AfterGate(x, ops)) >= Surplus(x)
    ensures Surplus(AfterGate(x, ops)) == Surplus(x) <==> OnlyHeldUnwind(x, ops, held)
    decreases |ops|
  {
    if ops != [] {
      GateStepKeeps(x, ops[0]);
      SurplusNeverShrinks(x, ops[0]);
      StepBranches(x, ops[0], held);
      SurplusFrom(GateStep(x, ops[0]), ops[1..], HeldAfter(x, ops[0], held));
    }
  }

  /** The surplus of the count never shrinks along a run, and stays zero exactly when all callers that
      were cancelled in the queue had arrived while the gate was held. */
  lemma {:induction false} SurplusOnRuns(ops: seq<GateOp>, more: seq<GateOp>)
    requires GateRuns(IDLE, ops) && GateRuns(AfterGate(IDLE, ops), more)
    ensures 0 <= Surplus(AfterGate(IDLE, ops)) <= Surplus(AfterGate(AfterGate(IDLE, ops), more))
    ensures Surplus(AfterGate(IDLE, ops)) == 0 <==> OnlyHeldUnwind(IDLE, ops, {})
  {
    IdleInv();
    SurplusFrom(IDLE, ops, {});
    RunBranches(IDLE, ops, {});
    var x := AfterGate(IDLE, ops);
    SurplusFrom(x, more, ArrivedHeld(IDLE, ops, {}));
    assert Surplus(IDLE) == 0;
  }

  /** The lock object of a session nobody uses is reclaimed, on exactly these runs; otherwise it stays in
      the dictionary for good. */
  lemma {:induction false} ReclaimedIff(ops: seq<GateOp>)
    requires GateRuns(IDLE, ops) && InUse(AfterGate(IDLE, ops)) == 0
    ensures AfterGate(IDLE, ops).lock == None && AfterGate(IDLE, ops).waiters == None <==> OnlyHeldUnwind(IDLE, ops, {})
  {
    IdleInv();
    SurplusFrom(IDLE, ops, {});
  }

  /** Whoever has to wait arrives while the gate is held. */
  ghost predicate WaitsOnlyWhenHeld(x: Slot, ops: seq<GateOp>)
    requires GateRuns(x, ops)
    decreases |ops|
  {
    ops == [] ||
    (&& (ops[0].ArriveOp? && Queue(GateStep(x, ops[0])) != Queue(x) ==> x.holders != {})
     && WaitsOnlyWhenHeld(GateStep(x, ops[0]), ops[1..]))
  }

  /** So in ordinary use, whoever is cancelled and whenever, nothing is left when all have gone. */
  lemma {:induction false} OrdinaryUseIsReclaimed(ops: seq<GateOp>)
    requires GateRuns(IDLE, ops) && InUse(AfterGate(IDLE, ops)) == 0 && WaitsOnlyWhenHeld(IDLE, ops)
    ensures AfterGate(IDLE, ops).lock == None && AfterGate(IDLE, ops).waiters == None
  {
    IdleInv();
    OrdinaryUnwinds(IDLE, ops, {});
    ReclaimedIff(ops);
  }

  lemma {:induction false} OrdinaryUnwinds(x: Slot, ops: seq<GateOp>, held: set<nat>)
    requires GateInv(x) && GateRuns(x, ops) && BranchesAgree(x, held) && WaitsOnlyWhenHeld(x, ops)
    requires forall i :: 0 <= i < |Queue(x)| ==> Queue(x)[i].ticket in held
    ensures OnlyHeldUnwind(x, ops, held)
    decreases |ops|
  {
    if ops != [] {
      GateStepKeeps(x, ops[0]);
      StepBranches(x, ops[0], held);
      StepTickets(x, ops[0], held);
      OrdinaryUnwinds(GateStep(x, ops[0]), ops[1..], HeldAfter(x, ops[0], held));
    }
  }

  /** Only an arrival brings a ticket into the queue. */
  lemma {:induction false} StepTickets(x: Slot, op: GateOp, held: set<nat>)
    requires GateInv(x) && CanStep(x, op) && forall i :: 0 <= i < |Queue(x)| ==> Queue(x)[i].ticket in held
    requires op.ArriveOp? && Queue(GateStep(x, op)) != Queue(x) ==> x.holders != {}
    ensures var q := Queue(GateStep(x, op)); forall i :: 0 <= i < |q| ==> q[i].ticket in HeldAfter(x, op, held)
  {
    match op
    case ArriveOp =>
    case ResumeOp(i) => RemovedBranches(x, i);
    case InterruptOp(_) =>
    case UnwindOp(i) => UnwindTickets(x, i, held);
    case ReleaseOp(t) => ReleaseDoes(x, t);
  }

  lemma {:induction false} UnwindTickets(x: Slot, i: nat, held: set<nat>)
    requires GateInv(x) && CanStep(x, UnwindOp(i)) && forall k :: 0 <= k < |Queue(x)| ==> Queue(x)[k].ticket in held
    ensures var q := Queue(Unwind(x, i)); forall k :: 0 <= k < |q| ==> q[k].ticket in held
  {
    UnwindDoes(x, i);
    RemovedBranches(x, i);
  }

  // ---------- what each step does ----------

  /** Arriving: the caller is let in at once if nobody holds the gate and every queued future is cancelled,
      and otherwise waits behind everybody.  Either way it is counted. */
  lemma {:induction false} ArriveDoes(x: Slot)
    requires GateInv(x)
    ensures var y := GateStep(x, ArriveOp); var t := x.nextTicket;
            && Count(y, 0) == Count(x, 0) + 1 && y.nextTicket == t + 1
            && if x.holders == {} && forall i :: 0 <= i < |Queue(x)| ==> Queue(x)[i].fut == Dropped
               then y.holders == {t} && y.grants == x.grants + [t] && Queue(y) == Queue(x)
               else && y.holders == x.holders && y.grants == x.grants && |Queue(y)| == |Queue(x)| + 1
                    && Queue(y)[..|Queue(x)|] == Queue(x)
                    && Queue(y)[|Queue(x)|].ticket == t && Queue(y)[|Queue(x)|].fut == Waiting
  {
    var lock := if x.lock.Some? then x.lock.value else Lock(false, []);
    assert lock.queue == Queue(x) && (lock.locked <==> x.holders != {});
    if x.holders == {} { assert x.holders + {x.nextTicket} == {x.nextTicket}; }
  }

  /** A woken caller that runs leaves the queue, holds the gate and is the last let through. */
  lemma {:induction false} ResumeDoes(x: Slot, i: nat)
    requires GateInv(x) && CanStep(x, ResumeOp(i))
    ensures var y := GateStep(x, ResumeOp(i)); var t := Queue(x)[i].ticket;
            && i == 0 && Queue(y) == Queue(x)[1..] && y.holders == {t} && y.grants == x.grants + [t]
            && Count(y, 0) == Count(x, 0) && y.nextTicket == x.nextTicket
  {
    ResumeKeeps(x, i);
    assert Without(Queue(x), 0) == Queue(x)[1..];
    assert x.holders == {};
    assert x.holders + {Queue(x)[i].ticket} == {Queue(x)[i].ticket};
  }

  /** Cancelling a caller marks its future and nothing else. */
  lemma {:induction false} InterruptDoes(x: Slot, i: nat, k: nat)
    requires GateInv(x) && CanStep(x, InterruptOp(i)) && k < |Queue(x)|
    ensures var y := GateStep(x, InterruptOp(i));
            && |Queue(y)| == |Queue(x)|
            && (k != i ==> Queue(y)[k] == Queue(x)[k])
            && Queue(y)[i].ticket == Queue(x)[i].ticket && !Undropped(Queue(y)[i].fut)
            && (Queue(y)[i].fut == WokenDropped <==> Queue(x)[i].fut == Woken || Queue(x)[i].fut == WokenDropped)
            && y.holders == x.holders && y.grants == x.grants && y.waiters == x.waiters && y.nextTicket == x.nextTicket
  {
  }

  /** q with its first caller woken if nobody has the gate and that caller waits. */
  ghost predicate NextIsWoken(r: seq<Parked>, q: seq<Parked>, free: bool) {
    && |r| == |q|
    && (forall k :: 0 <= k < |q| ==> r[k].ticket == q[k].ticket && (k > 0 || !free ==> r[k].fut == q[k].fut))
    && (free && q != [] ==> r[0].fut == if q[0].fut == Waiting then Woken else q[0].fut)
  }

  /** A cancelled caller that runs leaves the queue; if nobody holds the gate, the first one left is woken. */
  lemma {:induction false} UnwindDoes(x: Slot, i: nat)
    requires GateInv(x) && CanStep(x, UnwindOp(i))
    ensures var y := GateStep(x, UnwindOp(i));
            && NextIsWoken(Queue(y), Queue(x)[..i] + Queue(x)[i + 1..], x.holders == {})
            && y.holders == x.holders && y.grants == x.grants && y.nextTicket == x.nextTicket
  {
    LeaveQueueKeeps(x, i);
    LeaveQueueWakes(x, i);
    CleanupQueueSame(OneLess(LeaveQueue(x, i)));
  }

  lemma {:induction false} LeaveQueueWakes(x: Slot, i: nat)
    requires x.lock.Some? && i < |x.lock.value.queue|
    ensures NextIsWoken(Queue(LeaveQueue(x, i)), Queue(x)[..i] + Queue(x)[i + 1..], !x.lock.value.locked)
  {
  }

  lemma {:induction false} CleanupQueueSame(x: Slot)
    requires Consistent(x)
    ensures var y := CleanupIfIdle(x); Queue(y) == Queue(x) && y.holders == x.holders && y.grants == x.grants
  {
    if Count(x, 0) <= 0 { assert |Queue(x)| == 0; }
  }

  /** The holder's release frees the gate and wakes the first one that waits. */
  lemma {:induction false} ReleaseDoes(x: Slot, t: nat)
    requires GateInv(x) && CanStep(x, ReleaseOp(t))
    ensures var y := GateStep(x, ReleaseOp(t));
            && y.holders == {} && NextIsWoken(Queue(y), Queue(x), true)
            && y.grants == x.grants && y.nextTicket == x.nextTicket
  {
    var x1 := OneLess(x).(lock := Some(Lock(false, WakeFirst(Queue(x)))), holders := x.holders - {t});
    assert |x.holders - {t}| == 0;
    WokenOrdered(Queue(x), x.nextTicket, x.grants);
    CleanupQueueSame(x1);
  }

  /** Giving back never takes the count below zero, in whatever state. */
  lemma {:induction false} CountNeverNegative(x: Slot, t: nat)
    requires Count(x, 0) >= 0
    ensures Count(ReleaseBy(x, t), 0) >= 0
    ensures forall i :: 0 <= i < |Queue(x)| ==> Count(Unwind(x, i), 0) >= 0
  {
    forall i | 0 <= i < |Queue(x)| ensures Count(Unwind(x, i), 0) >= 0 { assert x.lock.Some?; }
  }

  /** A release in whatever state, by whoever: its caller no longer holds the gate, and a gate that is not
      there or free stays as it is. */
  lemma {:induction false} ReleaseAtAnyTime(x: Slot, t: nat)
    ensures var y := ReleaseBy(x, t);
            && y.holders == x.holders - {t} && y.grants == x.grants && y.nextTicket == x.nextTicket
            && (x.lock.None? || !x.lock.value.locked ==> y.lock == x.lock && y.waiters == x.waiters && y.lost == x.lost)
  {
  }

  /** Reclaiming, in whatever state: lock and count go exactly if nobody is counted and the lock, if there is
      one, is free; otherwise nothing happens. */
  lemma {:induction false} ReclaimDoes(x: Slot)
    ensures var y := CleanupIfIdle(x); var idle := Count(x, 0) <= 0 && (x.lock.Some? ==> !x.lock.value.locked);
            && (idle ==> y.lock == None && y.waiters == None && y.lost == x.lost + Queue(x))
            && (!idle ==> y == x)
            && y.holders == x.holders && y.grants == x.grants && y.nextTicket == x.nextTicket
  {
  }

  ghost predicate LastGrantedHolds(x: Slot) {
    x.holders != {} ==> x.grants != [] && x.holders == {x.grants[|x.grants| - 1]}
  }

  lemma {:induction false} StepLastGranted(x: Slot, op: GateOp)
    requires GateInv(x) && CanStep(x, op) && LastGrantedHolds(x)
    ensures LastGrantedHolds(GateStep(x, op))
  {
    match op
    case ArriveOp => ArriveDoes(x);
    case ResumeOp(i) => ResumeDoes(x, i);
    case InterruptOp(i) => InterruptDoes(x, i, i);
    case UnwindOp(i) => UnwindDoes(x, i);
    case ReleaseOp(t) => ReleaseDoes(x, t);
  }

  lemma {:induction false} LastGrantedFrom(x: Slot, ops: seq<GateOp>)
    requires GateInv(x) && GateRuns(x, ops) && LastGrantedHolds(x)
    ensures LastGrantedHolds(AfterGate(x, ops))
    decreases |ops|
  {
    if ops != [] {
      GateStepKeeps(x, ops[0]);
      StepLastGranted(x, ops[0]);
      LastGrantedFrom(GateStep(x, ops[0]), ops[1..]);
    }
  }

  /** In every run whoever holds the gate is the one let through last. */
  lemma {:induction false} HolderIsLastGranted(ops: seq<GateOp>)
    requires GateRuns(IDLE, ops)
    ensures LastGrantedHolds(AfterGate(IDLE, ops))
  {
    IdleInv();
    LastGrantedFrom(IDLE, ops);
  }

  lemma {:induction false} GateRunsCons(x: Slot, op: GateOp, rest: seq<GateOp>)
    requires CanStep(x, op) && GateRuns(GateStep(x, op), rest)
    ensures GateRuns(x, [op] + rest) && AfterGate(x, [op] + rest) == AfterGate(GateStep(x, op), rest)
  {
    assert ([op] + rest)[1..] == rest;
  }

  /** The second caller is woken but has not run; a third has just parked unguarded. */
  const HAND_OFF :=
    Slot(Some(Lock(false, [Parked(1, true, Woken), Parked(2, false, Waiting)])), Some(2), {}, [], 3, [0])

  /** Such a run: the third caller arrives between a release and the woken second caller's turn,
      and is cancelled.  Everybody has left, and the lock is still there. */
  lemma {:induction false} LockCanLeak()
    ensures var ops := [ArriveOp] + ([ArriveOp] + ([ReleaseOp(0)] + ([ArriveOp] + LEAK_TAIL)));
            GateRuns(IDLE, ops) && InUse(AfterGate(IDLE, ops)) == 0 && AfterGate(IDLE, ops).lock.Some?
  {
    var x1 := GateStep(IDLE, ArriveOp);
    var x2 := GateStep(x1, ArriveOp);
    assert x2.lock.value.queue == [Parked(1, true, Waiting)] && x2.holders == {0};
    var x3 := GateStep(x2, ReleaseOp(0));
    assert x3.lock.value.queue == [Parked(1, true, Woken)] && x3.holders == {};
    assert x3.lock.value.queue[0].fut != Dropped;
    assert x3.waiters == Some(1) && x3.grants == [0] && x3.nextTicket == 2;
    assert GateStep(x3, ArriveOp).lock.value.queue == HAND_OFF.lock.value.queue;
    assert GateStep(x3, ArriveOp) == HAND_OFF;
    LeakFromHandOff();
    GateRunsCons(x3, ArriveOp, LEAK_TAIL);
    GateRunsCons(x2, ReleaseOp(0), [ArriveOp] + LEAK_TAIL);
    GateRunsCons(x1, ArriveOp, [ReleaseOp(0)] + ([ArriveOp] + LEAK_TAIL));
    GateRunsCons(IDLE, ArriveOp, [ArriveOp] + ([ReleaseOp(0)] + ([ArriveOp] + LEAK_TAIL)));
  }

  const LEAK_TAIL: seq<GateOp> := [ResumeOp(0)] + ([InterruptOp(0)] + ([UnwindOp(0)] + ([ReleaseOp(1)] + [])))

  lemma {:induction false} LeakFromHandOff()
    ensures GateRuns(HAND_OFF, LEAK_TAIL)
    ensures InUse(AfterGate(HAND_OFF, LEAK_TAIL)) == 0 && AfterGate(HAND_OFF, LEAK_TAIL).lock.Some?
  {
    var x5 := GateStep(HAND_OFF, ResumeOp(0));
    assert x5.lock.value.queue == [Parked(2, false, Waiting)] && x5.holders == {1};
    var x6 := GateStep(x5, InterruptOp(0));
    var x7 := GateStep(x6, UnwindOp(0));
    assert x7.lock.value.queue == [];
    assert GateStep(x7, ReleaseOp(1)).holders == {};
    GateRunsCons(x7, ReleaseOp(1), []);
    GateRunsCons(x6, UnwindOp(0), [ReleaseOp(1)] + []);
    GateRunsCons(x5, InterruptOp(0), [UnwindOp(0)] + ([ReleaseOp(1)] + []));
    GateRunsCons(HAND_OFF, ResumeOp(0), [InterruptOp(0)] + ([UnwindOp(0)] + ([ReleaseOp(1)] + [])));
  }

  // ---------- the dictionaries ----------

  /** What the dictionaries do not keep: see the fields of `Slot`. */
  datatype History = History(holders: set<nat>, lost: seq<Parked>, grants: seq<nat>)

  class SessionTurnGate {
    var locks: map<string, Lock>
    var waiters: map<string, int>
    var tickets: map<string, nat>     // names the future of each call
    ghost var past: map<string, History>

    ghost function View(s: string): Slot
      reads this
    {
      var p := if s in past then past[s] else History({}, [], []);
      Slot(if s in locks then Some(locks[s]) else None, if s in waiters then Some(waiters[s]) else None,
           p.holders, p.lost, if s in tickets then tickets[s] else 0, p.grants)
    }

    constructor ()
      ensures forall s :: View(s) == IDLE
    {
      locks, waiters, tickets, past := map[], map[], map[], map[];
    }

    ghost method LetThrough(s: string, ticket: nat)
      modifies this`past
      ensures var x := old(View(s)); View(s) == x.(holders := x.holders + {ticket}, grants := x.grants + [ticket])
      ensures forall o :: o != s ==> View(o) == old(View(o))
    {
      var p := View(s);
      past := past[s := History(p.holders + {ticket}, p.lost, p.grants + [ticket])];
    }

    ghost method GiveUp(s: string, ticket: nat)
      modifies this`past
      ensures var x := old(View(s)); View(s) == x.(holders := x.holders - {ticket})
      ensures forall o :: o != s ==> View(o) == old(View(o))
    {
      var p := View(s);
      past := past[s := History(p.holders - {ticket}, p.lost, p.grants)];
    }

    method GiveBackCount(s: string)
      modifies this`waiters
      ensures View(s) == OneLess(old(View(s)))
      ensures forall o :: o != s ==> View(o) == old(View(o))
    {
      var n := (if s in waiters then waiters[s] else 1) - 1;
      waiters := waiters[s := if 0 >= n then 0 else n];
    }

    method ReclaimIfIdle(s: string)
      modifies this
      ensures View(s) == CleanupIfIdle(old(View(s)))
      ensures forall o :: o != s ==> View(o) == old(View(o))
    {
      if (if s in waiters then waiters[s] else 0) > 0 {
        return;
      }
      if s in locks && locks[s].locked {
        return;
      }
      ghost var p := View(s);
      past := past[s := History(p.holders, if s in locks then p.lost + locks[s].queue else p.lost, p.grants)];
      locks := locks - {s};
      waiters := waiters - {s};
    }

    /** `acquire` until it returns (`entered`) or parks. */
    method AcquireStart(s: string) returns (ticket: nat, entered: bool)
      modifies this
      ensures View(s) == GateStep(old(View(s)), ArriveOp)
      ensures forall o :: o != s ==> View(o) == old(View(o))
      ensures ticket == old(View(s)).nextTicket
      ensures entered <==> View(s).grants == old(View(s)).grants + [ticket]
    {
      ticket := CountIn(s);
      var lock := locks[s];
      entered := FreeForAll(lock);
      if entered {
        locks := locks[s := lock.(locked := true)];
        LetThrough(s, ticket);
      } else {
        locks := locks[s := lock.(queue := lock.queue + [Parked(ticket, lock.locked, Waiting)])];
      }
    }

    /** The lock of the session, made if there is none, and one more waiter. */
    method CountIn(s: string) returns (ticket: nat)
      modifies this`locks, this`waiters, this`tickets
      ensures ticket == old(View(s)).nextTicket && s in locks
      ensures View(s) == CountedIn(old(View(s)))
      ensures forall o :: o != s ==> View(o) == old(View(o))
    {
      if s !in locks {
        locks := locks[s := Lock(false, [])];
      }
      waiters := waiters[s := (if s in waiters then waiters[s] else 0) + 1];
      ticket := if s in tickets then tickets[s] else 0;
      tickets := tickets[s := ticket + 1];
    }

    /** The parked call at place i of the queue runs after its future was completed. */
    method AcquireResume(s: string, i: nat)
      requires CanStep(View(s), ResumeOp(i))
      modifies this
      ensures View(s) == GateStep(old(View(s)), ResumeOp(i))
      ensures forall o :: o != s ==> View(o) == old(View(o))
    {
      var queue := locks[s].queue;
      locks := locks[s := Lock(true, Without(queue, i))];
      LetThrough(s, queue[i].ticket);
    }

    /** The parked call at place i runs with `CancelledError`. */
    method AcquireCancelled(s: string, i: nat)
      requires CanStep(View(s), UnwindOp(i))
      modifies this
      ensures View(s) == GateStep(old(View(s)), UnwindOp(i))
      ensures forall o :: o != s ==> View(o) == old(View(o))
    {
      var lock := locks[s];
      var rest := Without(lock.queue, i);
      locks := locks[s := lock.(queue := if lock.locked then rest else WakeFirst(rest))];
      if lock.queue[i].guarded {
        GiveBackCount(s);
        ReclaimIfIdle(s);
      }
    }

    /** `release`, which does not ask who calls it. */
    method Release(s: string, ghost caller: nat)
      modifies this
      ensures View(s) == ReleaseBy(old(View(s)), caller)
      ensures forall o :: o != s ==> View(o) == old(View(o))
    {
      GiveUp(s, caller);
      if s !in locks || !locks[s].locked {
        return;
      }
      GiveBackCount(s);
      locks := locks[s := Lock(false, WakeFirst(locks[s].queue))];
      ReclaimIfIdle(s);
    }
  }
}
