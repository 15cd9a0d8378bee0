/** The bounded blocking queue as a transition system: a mutex, two condition variables and
    any number of threads with program counters.  One step is one thread's move between two
    points at which other threads can interfere. */
module QueueProtocol {
  import Arith

  datatype Timeout = Try | Timed | Forever

  datatype Op = Push(value: int, timeout: Timeout) | Pop(timeout: Timeout)

  datatype Wake = Signalled | Spurious | TimedOut

  datatype Ret = OK | RETRY | TIMEUP | DONE | ERROR

  datatype PC =
    | Idle
    | Enter(op: Op)                 // about to read `terminated` without the lock
    | Lock(op: Op)                  // waiting for the mutex
    | Hold(op: Op)                  // has the mutex, about to test the queue
    | Asleep(op: Op)                // in the wait, neither signalled nor timed out
    | Waking(op: Op, wake: Wake)    // woken, waiting to get the mutex back
    | Woken(op: Op, wake: Wake)     // has the mutex again, still counted as a waiter
    | Ready(op: Op, signalled: bool) // has the mutex, about to move an element
    | Unlock(ret: Ret)              // has the mutex, about to release it
    | UnlockIntr                    // has the mutex, woken for nothing
    | Recheck                       // released the mutex, about to read `terminated`
    | Return(ret: Ret)              // about to return
    | TermLock | TermHold           // setting `terminated`
    | BcastLock(term: bool) | BcastHold(term: bool) | BcastUnlock(term: bool)

  datatype Owner = Free | By(tid: nat)

  datatype State = State(
    data: seq<int>, nelts: nat, head: nat, tail: nat,   // head: next empty (`in`), tail: next filled (`out`)
    fullWaiters: int, emptyWaiters: int, terminated: bool,
    owner: Owner, pcs: seq<PC>,
    pushed: seq<int>, popped: seq<int>,                 // everything ever stored and loaded, in order
    broadcast: bool, termReturned: bool)                // after `terminated`: all woken; call returned

  function Init(bounds: nat, threads: nat): State {
    State(seq(bounds, _ => 0), 0, 0, 0, 0, 0, false, Free, seq(threads, _ => Idle), [], [], false, false)
  }

  /** How the environment resolves a step. */
  datatype Choice = Call(op: Op) | CallTerm | CallInterrupt | Go(wake: nat) | WakeUp | Expire

  function Bounds(s: State): nat { |s.data| }

  predicate Full(s: State) { s.nelts == Bounds(s) }

  predicate Empty(s: State) { s.nelts == 0 }

  predicate AsleepPop(pc: PC) { pc.Asleep? && pc.op.Pop? }

  predicate AsleepPush(pc: PC) { pc.Asleep? && pc.op.Push? }

  function Move(s: State, i: nat, pc: PC): State
    requires i < |s.pcs|
  {
    s.(pcs := s.pcs[i := pc])
  }

  /** The next index of the ring. */
  function Advance(s: State, k: nat): nat { if k + 1 >= Bounds(s) then k + 1 - Bounds(s) else k + 1 }

  /** What a step does besides moving elements and waking others: the thread's next point, the
      mutex, the changes of the two waiter counters, and whether it sets `terminated` or
      returns from `ogs_queue_term`. */
  datatype Effect = Effect(pc: PC, owner: Owner, full: int, empty: int, term: bool, ret: bool)

  function Goto(pc: PC, owner: Owner): Effect { Effect(pc, owner, 0, 0, false, false) }

  /** The tests of `queue_push` and `queue_pop` on first getting the mutex. */
  function HoldEffect(op: Op, owner: Owner, blocked: bool, terminated: bool): Effect {
    if !blocked then Goto(Ready(op, false), owner)
    else if op.timeout == Try then Goto(Unlock(RETRY), owner)
    else if terminated then Goto(UnlockIntr, owner)
    else if op.Push? then Goto(Asleep(op), Free).(full := 1) else Goto(Asleep(op), Free).(empty := 1)
  }

  /** Back from the wait with the mutex. */
  function WokenEffect(op: Op, wake: Wake, owner: Owner, blocked: bool): Effect {
    var pc := if wake == TimedOut then Unlock(TIMEUP) else if blocked then UnlockIntr else Ready(op, wake == Signalled);
    if op.Push? then Goto(pc, owner).(full := -1) else Goto(pc, owner).(empty := -1)
  }

  predicate Blocked(s: State, op: Op) { if op.Push? then Full(s) else Empty(s) }

  /** Every step but the two that change the ring or wake everybody. */
  function LocalEffect(s: State, i: nat, pc: PC, ch: Choice): Effect {
    var take := if s.owner.Free? then By(i) else s.owner;
    match pc
    case Idle =>
      Goto(if ch.Call? then Enter(ch.op) else if ch.CallTerm? then TermLock
           else if ch.CallInterrupt? then BcastLock(false) else Idle, s.owner)
    case Enter(op) => Goto(if s.terminated then Return(DONE) else Lock(op), s.owner)
    case Lock(op) => Goto(if s.owner.Free? then Hold(op) else pc, take)
    case Hold(op) => HoldEffect(op, s.owner, Blocked(s, op), s.terminated)
    case Asleep(op) =>
      Goto(if ch.WakeUp? then Waking(op, Spurious)
           else if ch.Expire? && op.timeout == Timed then Waking(op, TimedOut) else pc, s.owner)
    case Waking(op, wake) => Goto(if s.owner.Free? then Woken(op, wake) else pc, take)
    case Woken(op, wake) => WokenEffect(op, wake, s.owner, Blocked(s, op))
    case Unlock(ret) => Goto(Return(ret), Free)
    case UnlockIntr => Goto(Recheck, Free)
    case Recheck => Goto(Return(if s.terminated then DONE else ERROR), s.owner)
    case Return(_) => Goto(Idle, s.owner)
    case TermLock => Goto(if s.owner.Free? then TermHold else pc, take)
    case TermHold => Goto(BcastLock(true), Free).(term := true)
    case BcastLock(term) => Goto(if s.owner.Free? then BcastHold(term) else pc, take)
    case BcastUnlock(term) => Goto(Idle, Free).(ret := term)
    case Ready(_, _) => Goto(pc, s.owner)
    case BcastHold(_) => Goto(pc, s.owner)
  }

  function DoLocal(s: State, i: nat, e: Effect): State
    requires i < |s.pcs|
  {
    Move(s, i, e.pc).(owner := e.owner, fullWaiters := s.fullWaiters + e.full, emptyWaiters := s.emptyWaiters + e.empty,
                      terminated := s.terminated || e.term, termReturned := s.termReturned || e.ret)
  }

  /** A signal wakes one sleeper of the condition, if there is one; `w` says which. */
  function SignalPop(s: State, w: nat): State {
    if w < |s.pcs| && AsleepPop(s.pcs[w]) then Move(s, w, Waking(s.pcs[w].op, Signalled)) else s
  }

  function SignalPush(s: State, w: nat): State {
    if w < |s.pcs| && AsleepPush(s.pcs[w]) then Move(s, w, Waking(s.pcs[w].op, Signalled)) else s
  }

  /** `w` is a legal choice: a sleeper unless nobody sleeps. */
  ghost predicate LegalPop(s: State, w: nat) {
    (w < |s.pcs| && AsleepPop(s.pcs[w])) || forall j :: 0 <= j < |s.pcs| ==> !AsleepPop(s.pcs[j])
  }

  ghost predicate LegalPush(s: State, w: nat) {
    (w < |s.pcs| && AsleepPush(s.pcs[w])) || forall j :: 0 <= j < |s.pcs| ==> !AsleepPush(s.pcs[j])
  }

  function Store(s: State, v: int): State
    requires s.head < |s.data|
  {
    s.(data := s.data[s.head := v], head := Advance(s, s.head), nelts := s.nelts + 1, pushed := s.pushed + [v])
  }

  function Load(s: State): State
    requires s.tail < |s.data| && s.nelts > 0
  {
    s.(nelts := s.nelts - 1, tail := Advance(s, s.tail), popped := s.popped + [s.data[s.tail]])
  }

  function DoReady(s: State, i: nat, op: Op, w: nat): State
    requires i < |s.pcs| && (if op.Push? then s.head < |s.data| else s.tail < |s.data| && s.nelts > 0)
  {
    var s' := Move(s, i, Unlock(OK));
    if op.Push? then
      var s1 := Store(s', op.value);
      if s.emptyWaiters != 0 then SignalPop(s1, w) else s1
    else
      var s1 := Load(s');
      if s.fullWaiters != 0 then SignalPush(s1, w) else s1
  }

  function WakeAll(pcs: seq<PC>): (r: seq<PC>)
    ensures |r| == |pcs|
    ensures forall j :: 0 <= j < |pcs| ==> r[j] == if pcs[j].Asleep? then Waking(pcs[j].op, Signalled) else pcs[j]
  {
    seq(|pcs|, j requires 0 <= j < |pcs| => if pcs[j].Asleep? then Waking(pcs[j].op, Signalled) else pcs[j])
  }

  function DoBroadcast(s: State, i: nat, term: bool): State
    requires i < |s.pcs|
  {
    s.(pcs := WakeAll(s.pcs)[i := BcastUnlock(term)], broadcast := s.broadcast || term)
  }

  ghost predicate ReadyEnabled(s: State, op: Op, ch: Choice) {
    ch.Go? && (if op.Push? then s.head < |s.data| && LegalPop(s, ch.wake)
               else s.tail < |s.data| && s.nelts > 0 && LegalPush(s, ch.wake))
  }

  /** One step of thread `i`.  A step that is not enabled leaves the state as it is. */
  ghost function Do(s: State, i: nat, ch: Choice): State {
    if i >= |s.pcs| then s
    else match s.pcs[i]
      case Ready(op, _) => if ReadyEnabled(s, op, ch) then DoReady(s, i, op, ch.wake) else s
      case BcastHold(term) => DoBroadcast(s, i, term)
      case pc => DoLocal(s, i, LocalEffect(s, i, pc, ch))
  }

  /** A whole run: any threads, in any order, with any choices. */
  ghost function Run(s: State, steps: seq<(nat, Choice)>): State
    decreases |steps|
  {
    if steps == [] then s else Run(Do(s, steps[0].0, steps[0].1), steps[1..])
  }

  // ---------------------------------------------------------------- counting threads

  function Count(pcs: seq<PC>, f: PC -> bool): nat
    decreases |pcs|
  {
    if pcs == [] then 0 else (if f(pcs[0]) then 1 else 0) + Count(pcs[1..], f)
  }

  lemma {:induction false} CountMove(pcs: seq<PC>, i: nat, pc: PC, f: PC -> bool)
    requires i < |pcs|
    ensures Count(pcs[i := pc], f) == Count(pcs, f) - (if f(pcs[i]) then 1 else 0) + (if f(pc) then 1 else 0)
    decreases |pcs|
  {
    if i > 0 {
      assert pcs[i := pc][1..] == pcs[1..][i - 1 := pc];
      CountMove(pcs[1..], i - 1, pc, f);
    } else {
      assert pcs[i := pc][1..] == pcs[1..];
    }
  }

  lemma {:induction false} CountSame(pcs: seq<PC>, pcs': seq<PC>, f: PC -> bool)
    requires |pcs| == |pcs'| && forall j :: 0 <= j < |pcs| ==> f(pcs[j]) == f(pcs'[j])
    ensures Count(pcs, f) == Count(pcs', f)
    decreases |pcs|
  {
    if pcs != [] { CountSame(pcs[1..], pcs'[1..], f); }
  }

  lemma {:induction false} CountMember(pcs: seq<PC>, i: nat, f: PC -> bool)
    requires i < |pcs| && f(pcs[i])
    ensures Count(pcs, f) > 0
    decreases |pcs|
  {
    if i > 0 { CountMember(pcs[1..], i - 1, f); }
  }

  lemma {:induction false} CountWitness(pcs: seq<PC>, f: PC -> bool) returns (i: nat)
    requires Count(pcs, f) > 0
    ensures i < |pcs| && f(pcs[i])
    decreases |pcs|
  {
    if f(pcs[0]) { i := 0; } else { i := CountWitness(pcs[1..], f); i := i + 1; }
  }

  // ---------------------------------------------------------------- the invariant

  predicate Holding(pc: PC) {
    pc.Hold? || pc.Woken? || pc.Ready? || pc.Unlock? || pc.UnlockIntr? || pc.TermHold? || pc.BcastHold? || pc.BcastUnlock?
  }

  predicate WaitingPop(pc: PC) { (pc.Asleep? || pc.Waking? || pc.Woken?) && pc.op.Pop? }

  predicate WaitingPush(pc: PC) { (pc.Asleep? || pc.Waking? || pc.Woken?) && pc.op.Push? }

  /** A popper that has been signalled and has not had its turn yet. */
  predicate SignalledPop(pc: PC) {
    ((pc.Waking? || pc.Woken?) && pc.op.Pop? && pc.wake == Signalled) || (pc.Ready? && pc.op.Pop? && pc.signalled)
  }

  predicate SignalledPush(pc: PC) {
    ((pc.Waking? || pc.Woken?) && pc.op.Push? && pc.wake == Signalled) || (pc.Ready? && pc.op.Push? && pc.signalled)
  }

  /** The slot `k` places after `tail` in a ring of `b` slots. */
  ghost function Slot(tail: nat, k: nat, b: nat): (r: nat)
    requires tail < b && k <= b
    ensures r == (tail + k) % b < b
  {
    if tail + k < b then Arith.DivModUnique(tail + k, b, 0, tail + k); tail + k
    else Arith.DivModUnique(tail + k, b, 1, tail + k - b); tail + k - b
  }

  /** The elements in the ring, oldest first. */
  ghost function Contents(s: State): seq<int>
    requires s.nelts <= Bounds(s) && (s.nelts > 0 ==> s.tail < Bounds(s))
  {
    seq(s.nelts, k requires 0 <= k < s.nelts => s.data[Slot(s.tail, k, Bounds(s))])
  }

  ghost predicate RingInv(s: State) {
    s.nelts <= Bounds(s) &&
    (Bounds(s) > 0 ==> s.tail < Bounds(s) && s.head == Slot(s.tail, s.nelts, Bounds(s))) &&
    s.pushed == s.popped + Contents(s)
  }

  ghost predicate MutexInv(s: State) {
    forall j :: 0 <= j < |s.pcs| ==> (Holding(s.pcs[j]) <==> s.owner == By(j))
  }

  ghost predicate ReadyInv(s: State) {
    forall j :: 0 <= j < |s.pcs| && s.pcs[j].Ready? ==> if s.pcs[j].op.Push? then s.nelts < Bounds(s) else s.nelts > 0
  }

  ghost predicate WaiterInv(s: State) {
    s.emptyWaiters == Count(s.pcs, WaitingPop) && s.fullWaiters == Count(s.pcs, WaitingPush)
  }

  /** No wake-up is lost: while a popper sleeps unsignalled there are at most as many elements
      as signalled poppers still to run, and dually for pushers and free slots. */
  ghost predicate WakeInv(s: State) {
    (Count(s.pcs, AsleepPop) > 0 ==> s.nelts <= Count(s.pcs, SignalledPop)) &&
    (Count(s.pcs, AsleepPush) > 0 ==> Bounds(s) - s.nelts <= Count(s.pcs, SignalledPush))
  }

  ghost predicate TermInv(s: State) {
    (s.termReturned ==> s.broadcast) && (s.broadcast ==> s.terminated) &&
    (s.broadcast ==> forall j :: 0 <= j < |s.pcs| ==> !s.pcs[j].Asleep?) &&
    forall j :: 0 <= j < |s.pcs| ==>
      ((s.pcs[j] == BcastLock(true) || s.pcs[j] == BcastHold(true)) ==> s.terminated) &&
      (s.pcs[j] == BcastUnlock(true) ==> s.broadcast)
  }

  ghost predicate Inv(s: State) {
    RingInv(s) && MutexInv(s) && ReadyInv(s) && WaiterInv(s) && WakeInv(s) && TermInv(s)
  }

  // ---------------------------------------------------------------- every step keeps it

  lemma {:induction false} CountZero(pcs: seq<PC>, f: PC -> bool)
    requires forall j :: 0 <= j < |pcs| ==> !f(pcs[j])
    ensures Count(pcs, f) == 0
    decreases |pcs|
  {
    if pcs != [] { CountZero(pcs[1..], f); }
  }

  lemma InitInv(bounds: nat, threads: nat)
    ensures Inv(Init(bounds, threads))
  {
    var s := Init(bounds, threads);
    CountZero(s.pcs, WaitingPop); CountZero(s.pcs, WaitingPush);
    CountZero(s.pcs, AsleepPop); CountZero(s.pcs, AsleepPush);
  }

  function One(b: bool): int { if b then 1 else 0 }

  /** Everything the invariant needs to know about a local step. */
  lemma LocalFacts(s: State, i: nat, pc: PC, ch: Choice)
    requires !pc.Ready? && !pc.BcastHold? && (Holding(pc) <==> s.owner == By(i))
    ensures var e := LocalEffect(s, i, pc, ch);
            (Holding(e.pc) <==> e.owner == By(i)) &&
            (e.owner == s.owner || (s.owner == By(i) && e.owner.Free?) || (s.owner.Free? && e.owner == By(i))) &&
            (e.pc.Ready? ==> !Blocked(s, e.pc.op)) &&
            e.full == One(WaitingPush(e.pc)) - One(WaitingPush(pc)) &&
            e.empty == One(WaitingPop(e.pc)) - One(WaitingPop(pc)) &&
            (e.pc.Asleep? ==> pc == e.pc || (Blocked(s, e.pc.op) && !s.terminated)) &&
            (SignalledPop(pc) && !SignalledPop(e.pc) ==> Empty(s))
            && (SignalledPush(pc) && !SignalledPush(e.pc) ==> Full(s)) &&
            (e.pc == BcastLock(true) || e.pc == BcastHold(true) ==> e.term || pc == BcastLock(true)) &&
            (e.pc != BcastUnlock(true)) && (e.ret ==> pc == BcastUnlock(true))
  {}

  ghost predicate LocalStep(s: State, i: nat) { i < |s.pcs| && !s.pcs[i].Ready? && !s.pcs[i].BcastHold? }

  lemma DoIsLocal(s: State, i: nat, ch: Choice)
    requires LocalStep(s, i)
    ensures Do(s, i, ch) == DoLocal(s, i, LocalEffect(s, i, s.pcs[i], ch))
  {
    hide DoLocal, LocalEffect;
  }

  lemma OwnerAt(s: State, i: nat)
    requires i < |s.pcs| && MutexInv(s)
    ensures Holding(s.pcs[i]) <==> s.owner == By(i)
  {}

  lemma LocalMutex(s: State, i: nat, ch: Choice)
    requires LocalStep(s, i) && MutexInv(s) && ReadyInv(s) && TermInv(s) && s.nelts <= Bounds(s)
    ensures var s' := DoLocal(s, i, LocalEffect(s, i, s.pcs[i], ch)); MutexInv(s') && ReadyInv(s') && TermInv(s')
  {
    hide LocalEffect;
    OwnerAt(s, i);
    LocalFacts(s, i, s.pcs[i], ch);
  }

  /** The counts that the invariant speaks of, before and after one thread moves. */
  lemma MoveCounts(pcs: seq<PC>, i: nat, pc: PC)
    requires i < |pcs|
    ensures Count(pcs[i := pc], WaitingPop) == Count(pcs, WaitingPop) - One(WaitingPop(pcs[i])) + One(WaitingPop(pc))
    ensures Count(pcs[i := pc], WaitingPush) == Count(pcs, WaitingPush) - One(WaitingPush(pcs[i])) + One(WaitingPush(pc))
    ensures Count(pcs[i := pc], AsleepPop) == Count(pcs, AsleepPop) - One(AsleepPop(pcs[i])) + One(AsleepPop(pc))
    ensures Count(pcs[i := pc], AsleepPush) == Count(pcs, AsleepPush) - One(AsleepPush(pcs[i])) + One(AsleepPush(pc))
    ensures Count(pcs[i := pc], SignalledPop) == Count(pcs, SignalledPop) - One(SignalledPop(pcs[i])) + One(SignalledPop(pc))
    ensures Count(pcs[i := pc], SignalledPush) == Count(pcs, SignalledPush) - One(SignalledPush(pcs[i])) + One(SignalledPush(pc))
  {
    CountMove(pcs, i, pc, WaitingPop); CountMove(pcs, i, pc, WaitingPush);
    CountMove(pcs, i, pc, AsleepPop); CountMove(pcs, i, pc, AsleepPush);
    CountMove(pcs, i, pc, SignalledPop); CountMove(pcs, i, pc, SignalledPush);
  }

  lemma LocalCounts(s: State, i: nat, ch: Choice)
    requires LocalStep(s, i) && MutexInv(s) && WaiterInv(s) && WakeInv(s) && s.nelts <= Bounds(s)
    ensures var s' := DoLocal(s, i, LocalEffect(s, i, s.pcs[i], ch)); WaiterInv(s') && WakeInv(s')
  {
    hide LocalEffect, Count;
    OwnerAt(s, i);
    LocalFacts(s, i, s.pcs[i], ch);
    MoveCounts(s.pcs, i, LocalEffect(s, i, s.pcs[i], ch).pc);
  }

  lemma LocalRing(s: State, i: nat, e: Effect)
    requires RingInv(s) && i < |s.pcs|
    ensures RingInv(DoLocal(s, i, e))
  {
    assert Contents(DoLocal(s, i, e)) == Contents(s);
  }

  // ---------------------------------------------------------------- moving an element

  lemma StoreRing(s: State, v: int)
    requires RingInv(s) && s.nelts < Bounds(s)
    ensures s.head < Bounds(s) && RingInv(Store(s, v))
  {
    assert Contents(Store(s, v)) == Contents(s) + [v];
  }

  lemma LoadRing(s: State)
    requires RingInv(s) && s.nelts > 0
    ensures s.tail < Bounds(s) && RingInv(Load(s))
  {
    assert Contents(s) == [s.data[s.tail]] + Contents(Load(s));
  }

  lemma AsleepWaits(pcs: seq<PC>)
    ensures Count(pcs, AsleepPop) > 0 ==> Count(pcs, WaitingPop) > 0
    ensures Count(pcs, AsleepPush) > 0 ==> Count(pcs, WaitingPush) > 0
  {
    if Count(pcs, AsleepPop) > 0 { var j := CountWitness(pcs, AsleepPop); CountMember(pcs, j, WaitingPop); }
    if Count(pcs, AsleepPush) > 0 { var j := CountWitness(pcs, AsleepPush); CountMember(pcs, j, WaitingPush); }
  }

  lemma LegalAsleep(s: State, w: nat)
    ensures LegalPop(s, w) && Count(s.pcs, AsleepPop) > 0 ==> w < |s.pcs| && AsleepPop(s.pcs[w])
    ensures LegalPush(s, w) && Count(s.pcs, AsleepPush) > 0 ==> w < |s.pcs| && AsleepPush(s.pcs[w])
  {
    if Count(s.pcs, AsleepPop) > 0 { var j := CountWitness(s.pcs, AsleepPop); }
    if Count(s.pcs, AsleepPush) > 0 { var j := CountWitness(s.pcs, AsleepPush); }
  }

  ghost predicate ReadyStep(s: State, i: nat, ch: Choice) {
    i < |s.pcs| && s.pcs[i].Ready? && ReadyEnabled(s, s.pcs[i].op, ch)
  }

  lemma ReadyPushCounts(s: State, i: nat, ch: Choice)
    requires ReadyStep(s, i, ch) && WaiterInv(s) && WakeInv(s) && s.pcs[i].op.Push?
    ensures var s' := DoReady(s, i, s.pcs[i].op, ch.wake); WaiterInv(s') && WakeInv(s')
  {
    hide Count, LegalPop, LegalPush, Store, Load;
    var op, w := s.pcs[i].op, ch.wake;
    AsleepWaits(s.pcs);
    LegalAsleep(s, w);
    MoveCounts(s.pcs, i, Unlock(OK));
    StoreLoad(Move(s, i, Unlock(OK)), op);
    if w < |s.pcs| && AsleepPop(s.pcs[w]) { MoveCounts(s.pcs[i := Unlock(OK)], w, Waking(s.pcs[w].op, Signalled)); }
  }

  lemma ReadyPopCounts(s: State, i: nat, ch: Choice)
    requires ReadyStep(s, i, ch) && WaiterInv(s) && WakeInv(s) && s.pcs[i].op.Pop?
    ensures var s' := DoReady(s, i, s.pcs[i].op, ch.wake); WaiterInv(s') && WakeInv(s')
  {
    hide Count, LegalPop, LegalPush, Store, Load;
    var op, w := s.pcs[i].op, ch.wake;
    AsleepWaits(s.pcs);
    LegalAsleep(s, w);
    MoveCounts(s.pcs, i, Unlock(OK));
    StoreLoad(Move(s, i, Unlock(OK)), op);
    if w < |s.pcs| && AsleepPush(s.pcs[w]) { MoveCounts(s.pcs[i := Unlock(OK)], w, Waking(s.pcs[w].op, Signalled)); }
  }

  /** Moving an element touches no thread and no counter. */
  lemma StoreLoad(s: State, op: Op)
    ensures op.Push? && s.head < |s.data| ==>
              var s' := Store(s, op.value); s' == s.(data := s'.data, head := s'.head, nelts := s.nelts + 1, pushed := s'.pushed)
                                            && |s'.data| == |s.data|
    ensures op.Pop? && s.tail < |s.data| && s.nelts > 0 ==>
              var s' := Load(s); s' == s.(nelts := s.nelts - 1, tail := s'.tail, popped := s'.popped)
  {}

  lemma ReadyOthers(s: State, i: nat, ch: Choice)
    requires ReadyStep(s, i, ch) && MutexInv(s) && ReadyInv(s) && TermInv(s)
    ensures var s' := DoReady(s, i, s.pcs[i].op, ch.wake); MutexInv(s') && ReadyInv(s') && TermInv(s')
  {
    hide MutexInv, ReadyInv, TermInv, LegalPop, LegalPush, DoReady;
    ReadyMutex(s, i, ch);
    ReadyReady(s, i, ch);
    ReadyTerm(s, i, ch);
  }

  lemma ReadyMutex(s: State, i: nat, ch: Choice)
    requires ReadyStep(s, i, ch) && MutexInv(s)
    ensures MutexInv(DoReady(s, i, s.pcs[i].op, ch.wake))
  {
    hide Store, Load, LegalPop, LegalPush;
    StoreLoad(Move(s, i, Unlock(OK)), s.pcs[i].op);
  }

  lemma ReadyReady(s: State, i: nat, ch: Choice)
    requires ReadyStep(s, i, ch) && MutexInv(s) && ReadyInv(s)
    ensures ReadyInv(DoReady(s, i, s.pcs[i].op, ch.wake))
  {
    hide Store, Load, LegalPop, LegalPush;
    StoreLoad(Move(s, i, Unlock(OK)), s.pcs[i].op);
  }

  lemma ReadyTerm(s: State, i: nat, ch: Choice)
    requires ReadyStep(s, i, ch) && TermInv(s)
    ensures TermInv(DoReady(s, i, s.pcs[i].op, ch.wake))
  {
    hide Store, Load, LegalPop, LegalPush;
    StoreLoad(Move(s, i, Unlock(OK)), s.pcs[i].op);
  }

  lemma ReadyRing(s: State, i: nat, ch: Choice)
    requires ReadyStep(s, i, ch) && RingInv(s) && ReadyInv(s)
    ensures RingInv(DoReady(s, i, s.pcs[i].op, ch.wake))
  {
    hide RingInv, Store, Load;
    var op := s.pcs[i].op;
    var s0 := Move(s, i, Unlock(OK));
    SameRing(s, s0);
    if op.Push? {
      StoreRing(s0, op.value);
      SameRing(Store(s0, op.value), DoReady(s, i, op, ch.wake));
    } else {
      LoadRing(s0);
      SameRing(Load(s0), DoReady(s, i, op, ch.wake));
    }
  }

  lemma SameRing(s: State, s': State)
    requires RingInv(s) && s'.data == s.data && s'.nelts == s.nelts && s'.head == s.head && s'.tail == s.tail
    requires s'.pushed == s.pushed && s'.popped == s.popped
    ensures RingInv(s')
  {
    assert Contents(s') == Contents(s);
  }

  // ---------------------------------------------------------------- waking everybody

  lemma BroadcastKeeps(s: State, i: nat, term: bool)
    requires i < |s.pcs| && s.pcs[i] == BcastHold(term) && Inv(s)
    ensures Inv(DoBroadcast(s, i, term))
  {
    hide Count, Slot;
    var s' := DoBroadcast(s, i, term);
    var woken := WakeAll(s.pcs);
    CountSame(s.pcs, woken, WaitingPop); CountSame(s.pcs, woken, WaitingPush);
    CountZero(woken, AsleepPop); CountZero(woken, AsleepPush);
    MoveCounts(woken, i, BcastUnlock(term));
    SameRing(s, s');
  }

  // ---------------------------------------------------------------- whole runs

  /** Every step of every thread keeps the invariant. */
  lemma StepKeeps(s: State, i: nat, ch: Choice)
    requires Inv(s)
    ensures Inv(Do(s, i, ch))
  {
    hide RingInv, MutexInv, ReadyInv, WaiterInv, WakeInv, TermInv, LocalEffect, DoLocal, DoReady, DoBroadcast;
    if LocalStep(s, i) {
      DoIsLocal(s, i, ch);
      RingBounds(s);
      LocalMutex(s, i, ch);
      LocalCounts(s, i, ch);
      LocalRing(s, i, LocalEffect(s, i, s.pcs[i], ch));
    } else if i < |s.pcs| && s.pcs[i].BcastHold? {
      BroadcastKeeps(s, i, s.pcs[i].term);
    } else if ReadyStep(s, i, ch) {
      if s.pcs[i].op.Push? { ReadyPushCounts(s, i, ch); } else { ReadyPopCounts(s, i, ch); }
      ReadyOthers(s, i, ch);
      ReadyRing(s, i, ch);
    }
  }

  lemma RingBounds(s: State)
    requires RingInv(s)
    ensures s.nelts <= Bounds(s)
  {}

  lemma {:induction false} RunKeeps(s: State, steps: seq<(nat, Choice)>)
    requires Inv(s)
    ensures Inv(Run(s, steps))
    decreases |steps|
  {
    hide Inv, Do;
    if steps != [] {
      StepKeeps(s, steps[0].0, steps[0].1);
      RunKeeps(Do(s, steps[0].0, steps[0].1), steps[1..]);
    }
  }

  /** First in, first out: in every run the popped values are a prefix of the pushed ones, and
      what lies between is in the ring. */
  lemma Fifo(bounds: nat, threads: nat, steps: seq<(nat, Choice)>)
    ensures var s := Run(Init(bounds, threads), steps);
            s.nelts <= Bounds(s) && s.popped <= s.pushed && |s.pushed| == |s.popped| + s.nelts &&
            (Bounds(s) > 0 ==> s.tail < Bounds(s) && s.head == (s.tail + s.nelts) % Bounds(s)) &&
            forall k :: 0 <= k < s.nelts ==> s.pushed[|s.popped| + k] == s.data[Slot(s.tail, k, Bounds(s))]
  {
    hide Run, Init, Inv;
    InitInv(bounds, threads);
    RunKeeps(Init(bounds, threads), steps);
    var s := Run(Init(bounds, threads), steps);
    InvRing(s);
    assert forall k :: 0 <= k < s.nelts ==> s.pushed[|s.popped| + k] == Contents(s)[k];
  }

  lemma InvRing(s: State)
    requires Inv(s)
    ensures RingInv(s)
  {}

  /** A thread that has found room, or an element, can always go on: the element is moved within
      the ring, and whoever is asleep on the other side can be signalled. */
  lemma ReadyGoesOn(bounds: nat, threads: nat, steps: seq<(nat, Choice)>, i: nat) returns (w: nat)
    requires var s := Run(Init(bounds, threads), steps); i < |s.pcs| && s.pcs[i].Ready?
    ensures var s := Run(Init(bounds, threads), steps);
            RingInv(s) && ReadyStep(s, i, Go(w)) && Do(s, i, Go(w)).pcs[i] == Unlock(OK)
            && if s.pcs[i].op.Push? then Do(s, i, Go(w)).pushed == s.pushed + [s.pcs[i].op.value]
               else s.nelts > 0 && Do(s, i, Go(w)).popped == s.popped + [Contents(s)[0]]
  {
    hide Run, Init, Inv;
    InitInv(bounds, threads);
    RunKeeps(Init(bounds, threads), steps);
    w := ReadyCan(Run(Init(bounds, threads), steps), i);
  }

  lemma ReadyCan(s: State, i: nat) returns (w: nat)
    requires Inv(s) && i < |s.pcs| && s.pcs[i].Ready?
    ensures ReadyStep(s, i, Go(w)) && Do(s, i, Go(w)).pcs[i] == Unlock(OK) && RingInv(s)
    ensures if s.pcs[i].op.Push? then Do(s, i, Go(w)).pushed == s.pushed + [s.pcs[i].op.value]
            else s.nelts > 0 && Do(s, i, Go(w)).popped == s.popped + [Contents(s)[0]]
  {
    hide WaiterInv, WakeInv, TermInv, MutexInv;
    w := 0;
    if s.pcs[i].op.Push? {
      if j :| 0 <= j < |s.pcs| && AsleepPop(s.pcs[j]) { w := j; }
    } else {
      if j :| 0 <= j < |s.pcs| && AsleepPush(s.pcs[j]) { w := j; }
    }
  }

  /** No lost wake-up: while a popper sleeps unsignalled, there are no more elements than
      signalled poppers on their way, so a waiting element always has a taker; and dually. */
  lemma NoLostWakeUp(bounds: nat, threads: nat, steps: seq<(nat, Choice)>, i: nat)
    requires var s := Run(Init(bounds, threads), steps); i < |s.pcs| && s.pcs[i].Asleep?
    ensures var s := Run(Init(bounds, threads), steps);
            if s.pcs[i].op.Pop? then
              s.nelts <= Count(s.pcs, SignalledPop) &&
              (s.nelts > 0 ==> exists j :: 0 <= j < |s.pcs| && SignalledPop(s.pcs[j]))
            else
              Bounds(s) - s.nelts <= Count(s.pcs, SignalledPush) &&
              (s.nelts < Bounds(s) ==> exists j :: 0 <= j < |s.pcs| && SignalledPush(s.pcs[j]))
  {
    hide Run, Init;
    InitInv(bounds, threads);
    RunKeeps(Init(bounds, threads), steps);
    var s := Run(Init(bounds, threads), steps);
    if s.pcs[i].op.Pop? {
      CountMember(s.pcs, i, AsleepPop);
      if s.nelts > 0 { var j := CountWitness(s.pcs, SignalledPop); }
    } else {
      CountMember(s.pcs, i, AsleepPush);
      if s.nelts < Bounds(s) { var j := CountWitness(s.pcs, SignalledPush); }
    }
  }

  lemma StepTermReturned(s: State, i: nat, ch: Choice)
    requires s.termReturned
    ensures Do(s, i, ch).termReturned
  {
    hide LocalEffect, LegalPop, LegalPush;
  }

  lemma {:induction false} RunTermReturned(s: State, steps: seq<(nat, Choice)>)
    requires s.termReturned
    ensures Run(s, steps).termReturned
    decreases |steps|
  {
    hide Do;
    if steps != [] {
      StepTermReturned(s, steps[0].0, steps[0].1);
      RunTermReturned(Do(s, steps[0].0, steps[0].1), steps[1..]);
    }
  }

  lemma {:induction false} RunConcat(s: State, a: seq<(nat, Choice)>, b: seq<(nat, Choice)>)
    ensures Run(s, a + b) == Run(Run(s, a), b)
    decreases |a|
  {
    hide Do;
    if a == [] {
      assert a + b == b;
    } else {
      assert (a + b)[1..] == a[1..] + b;
      RunConcat(Do(s, a[0].0, a[0].1), a[1..], b);
    }
  }

  /** Once `ogs_queue_term` has returned, no thread is asleep, now or after any further steps,
      whatever it had read before. */
  lemma NobodySleepsAfterTerm(bounds: nat, threads: nat, before: seq<(nat, Choice)>, after: seq<(nat, Choice)>)
    requires Run(Init(bounds, threads), before).termReturned
    ensures var s := Run(Init(bounds, threads), before + after);
            forall j :: 0 <= j < |s.pcs| ==> !s.pcs[j].Asleep?
  {
    hide Run, Init;
    var s0 := Init(bounds, threads);
    InitInv(bounds, threads);
    RunKeeps(s0, before + after);
    RunConcat(s0, before, after);
    RunTermReturned(Run(s0, before), after);
  }

  // ---------------------------------------------------------------- what an operation returns

  /** The operation that a thread is in. */
  datatype Within = None | In(op: Op)

  function OpAt(pc: PC): Within {
    match pc
    case Enter(op) => In(op)
    case Lock(op) => In(op)
    case Hold(op) => In(op)
    case Asleep(op) => In(op)
    case Waking(op, _) => In(op)
    case Woken(op, _) => In(op)
    case Ready(op, _) => In(op)
    case _ => None
  }

  /** Only an operation that may wait waits, and only one with a limit times out. */
  ghost predicate WaitInv(s: State) {
    forall j :: 0 <= j < |s.pcs| ==>
      var pc := s.pcs[j];
      (pc.Asleep? ==> pc.op.timeout != Try)
      && (pc.Waking? || pc.Woken? ==> pc.op.timeout != Try && (pc.wake == TimedOut ==> pc.op.timeout == Timed))
  }

  lemma DoIsReady(s: State, i: nat, ch: Choice)
    requires i < |s.pcs| && s.pcs[i].Ready?
    ensures Do(s, i, ch) == if ReadyEnabled(s, s.pcs[i].op, ch) then DoReady(s, i, s.pcs[i].op, ch.wake) else s
  {
    hide DoReady, ReadyEnabled, LocalEffect, DoBroadcast, DoLocal;
  }

  lemma DoIsBroadcast(s: State, i: nat, ch: Choice)
    requires i < |s.pcs| && s.pcs[i].BcastHold?
    ensures Do(s, i, ch) == DoBroadcast(s, i, s.pcs[i].term)
  {
    hide DoReady, ReadyEnabled, LocalEffect, DoBroadcast, DoLocal;
  }

  /** The threads after an element has been moved. */
  lemma ReadyPCs(s: State, i: nat, op: Op, w: nat)
    requires i < |s.pcs| && s.pcs[i].Ready?
             && (if op.Push? then s.head < |s.data| else s.tail < |s.data| && s.nelts > 0)
    ensures var s' := DoReady(s, i, op, w);
            |s'.pcs| == |s.pcs| && s'.pcs[i] == Unlock(OK) && s'.terminated == s.terminated
            && s'.termReturned == s.termReturned
    ensures var s' := DoReady(s, i, op, w);
            forall j :: 0 <= j < |s.pcs| && j != i ==>
              s'.pcs[j] == s.pcs[j]
              || (j == w && s.pcs[j].Asleep? && (op.Push? <==> s.pcs[j].op.Pop?) && s'.pcs[j] == Waking(s.pcs[j].op, Signalled))
  {
    hide Store, Load;
    StoreLoad(Move(s, i, Unlock(OK)), op);
  }

  lemma ReadyAt(s: State, i: nat, ch: Choice)
    requires i < |s.pcs| && s.pcs[i].Ready?
    ensures var s', op := Do(s, i, ch), s.pcs[i].op;
            s' == s || (ch.Go? && |s'.pcs| == |s.pcs| && s'.pcs[i] == Unlock(OK)
                        && s'.terminated == s.terminated && s'.termReturned == s.termReturned
                        && forall j :: 0 <= j < |s.pcs| && j != i ==>
                             s'.pcs[j] == s.pcs[j]
                             || (j == ch.wake && s.pcs[j].Asleep? && (op.Push? <==> s.pcs[j].op.Pop?)
                                 && s'.pcs[j] == Waking(s.pcs[j].op, Signalled)))
  {
    hide DoReady, LegalPop, LegalPush, Do;
    DoIsReady(s, i, ch);
    if ReadyEnabled(s, s.pcs[i].op, ch) { ReadyPCs(s, i, s.pcs[i].op, ch.wake); }
  }

  lemma LocalPCs(s: State, i: nat, ch: Choice)
    requires LocalStep(s, i)
    ensures var e, s' := LocalEffect(s, i, s.pcs[i], ch), Do(s, i, ch);
            s'.pcs == s.pcs[i := e.pc] && s'.owner == e.owner && (s'.terminated <==> s.terminated || e.term)
            && (s'.termReturned <==> s.termReturned || e.ret) && s'.pushed == s.pushed && s'.popped == s.popped
  {
    hide LocalEffect;
    DoIsLocal(s, i, ch);
  }

  lemma OthersPC(s: State, i: nat, ch: Choice, j: nat)
    requires j < |s.pcs| && j != i
    ensures var pc, pc' := s.pcs[j], Do(s, i, ch).pcs[j];
            |Do(s, i, ch).pcs| == |s.pcs| && (pc' == pc || (pc.Asleep? && pc' == Waking(pc.op, Signalled)))
  {
    hide Do, LocalEffect, DoReady;
    SamePCs(s, i, ch);
    if LocalStep(s, i) {
      LocalPCs(s, i, ch);
    } else if i < |s.pcs| && s.pcs[i].Ready? {
      ReadyAt(s, i, ch);
    } else if i < |s.pcs| {
      DoIsBroadcast(s, i, ch);
    }
  }

  lemma WaitStep(s: State, i: nat, ch: Choice)
    requires WaitInv(s)
    ensures WaitInv(Do(s, i, ch))
  {
    hide Do;
    var s' := Do(s, i, ch);
    SamePCs(s, i, ch);
    forall j | 0 <= j < |s'.pcs|
      ensures var pc := s'.pcs[j];
              (pc.Asleep? ==> pc.op.timeout != Try)
              && (pc.Waking? || pc.Woken? ==> pc.op.timeout != Try && (pc.wake == TimedOut ==> pc.op.timeout == Timed))
    {
      if j == i { OwnWait(s, i, ch); } else { OthersPC(s, i, ch, j); }
    }
  }

  lemma SamePCs(s: State, i: nat, ch: Choice)
    ensures |Do(s, i, ch).pcs| == |s.pcs| && (i >= |s.pcs| ==> Do(s, i, ch) == s)
  {
    hide LocalEffect, DoReady, DoLocal, DoBroadcast, ReadyEnabled;
    if LocalStep(s, i) {
      LocalPCs(s, i, ch);
    } else if i < |s.pcs| && s.pcs[i].Ready? {
      ReadyAt(s, i, ch);
    } else if i < |s.pcs| {
      DoIsBroadcast(s, i, ch);
      BroadcastSize(s, i);
    }
  }

  lemma BroadcastSize(s: State, i: nat)
    requires i < |s.pcs| && s.pcs[i].BcastHold?
    ensures var s' := DoBroadcast(s, i, s.pcs[i].term);
            |s'.pcs| == |s.pcs| && s'.pcs[i] == BcastUnlock(s.pcs[i].term)
            && s'.terminated == s.terminated && s'.termReturned == s.termReturned && s'.pushed == s.pushed
            && s'.popped == s.popped
            && forall j :: 0 <= j < |s.pcs| ==> !s'.pcs[j].Asleep?
  {}

  lemma OwnWait(s: State, i: nat, ch: Choice)
    requires WaitInv(s) && i < |s.pcs|
    ensures |Do(s, i, ch).pcs| == |s.pcs|
    ensures var pc := Do(s, i, ch).pcs[i];
            (pc.Asleep? ==> pc.op.timeout != Try)
            && (pc.Waking? || pc.Woken? ==> pc.op.timeout != Try && (pc.wake == TimedOut ==> pc.op.timeout == Timed))
  {
    hide Do;
    SamePCs(s, i, ch);
    if OpAt(s.pcs[i]).In? {
      StepOutcome(s, i, ch);
      StepWaits(s, i, ch);
    } else {
      StepReturn(s, i, ch);
    }
  }

  lemma StepWaits(s: State, i: nat, ch: Choice)
    requires i < |s.pcs| && OpAt(s.pcs[i]).In?
    ensures |Do(s, i, ch).pcs| == |s.pcs|
    ensures var pc, pc' := s.pcs[i], Do(s, i, ch).pcs[i];
            (pc'.Asleep? ==> pc.Asleep? || pc.Hold?) && (pc'.Waking? ==> pc.Asleep? || pc.Waking?)
            && (pc'.Woken? ==> pc.Waking?)
  {
    hide Do, DoReady, DoBroadcast;
    SamePCs(s, i, ch);
    if LocalStep(s, i) {
      LocalPCs(s, i, ch);
    } else {
      ReadyAt(s, i, ch);
    }
  }

  lemma {:induction false} RunWaits(s: State, steps: seq<(nat, Choice)>)
    requires WaitInv(s)
    ensures WaitInv(Run(s, steps))
    decreases |steps|
  {
    hide WaitInv, Do;
    if steps != [] {
      WaitStep(s, steps[0].0, steps[0].1);
      RunWaits(Do(s, steps[0].0, steps[0].1), steps[1..]);
    }
  }

  /** In every run, no operation that must not wait is ever asleep, and only operations with a
      time limit have timed out. */
  lemma TryNeverWaits(bounds: nat, threads: nat, steps: seq<(nat, Choice)>, i: nat)
    requires i < |Run(Init(bounds, threads), steps).pcs|
    ensures var pc := Run(Init(bounds, threads), steps).pcs[i];
            (pc.Asleep? || pc.Waking? || pc.Woken? ==> pc.op.timeout != Try)
            && ((pc.Waking? || pc.Woken?) && pc.wake == TimedOut ==> pc.op.timeout == Timed)
  {
    hide Run;
    RunWaits(Init(bounds, threads), steps);
  }

  /** In every run, what a step does to the elements: a thread that comes to return OK has stored
      its own value, or taken the oldest element, and no other step stores or takes anything. */
  lemma MovedExactly(bounds: nat, threads: nat, steps: seq<(nat, Choice)>, i: nat, ch: Choice)
    ensures var s, s' := Run(Init(bounds, threads), steps), Run(Init(bounds, threads), steps + [(i, ch)]);
            |s'.pcs| == |s.pcs|
            && if i < |s.pcs| && s'.pcs[i] == Unlock(OK) && s.pcs[i] != Unlock(OK) then
                 OpAt(s.pcs[i]).In? && var op := OpAt(s.pcs[i]).op;
                 if op.Push? then
                   s.nelts < Bounds(s) && s'.pushed == s.pushed + [op.value] && s'.popped == s.popped
                 else
                   s.nelts > 0 && |s.popped| < |s.pushed| && s'.popped == s.popped + [s.pushed[|s.popped|]]
                   && s'.pushed == s.pushed
               else s'.pushed == s.pushed && s'.popped == s.popped
  {
    hide Run, Init, Inv, Do;
    InitInv(bounds, threads);
    RunKeeps(Init(bounds, threads), steps);
    RunOnce(Init(bounds, threads), steps, i, ch);
    SamePCs(Run(Init(bounds, threads), steps), i, ch);
    MovedStep(Run(Init(bounds, threads), steps), i, ch);
  }

  lemma RunOnce(s: State, steps: seq<(nat, Choice)>, i: nat, ch: Choice)
    ensures Run(s, steps + [(i, ch)]) == Do(Run(s, steps), i, ch)
  {
    hide Do;
    RunConcat(s, steps, [(i, ch)]);
    assert [(i, ch)][1..] == [];
  }

  lemma MovedStep(s: State, i: nat, ch: Choice)
    requires Inv(s)
    ensures var s' := Do(s, i, ch);
            |s'.pcs| == |s.pcs|
            && if i < |s.pcs| && s'.pcs[i] == Unlock(OK) && s.pcs[i] != Unlock(OK) then
                 OpAt(s.pcs[i]).In? && var op := OpAt(s.pcs[i]).op;
                 if op.Push? then
                   s.nelts < Bounds(s) && s'.pushed == s.pushed + [op.value] && s'.popped == s.popped
                 else
                   s.nelts > 0 && |s.popped| < |s.pushed| && s'.popped == s.popped + [s.pushed[|s.popped|]]
                   && s'.pushed == s.pushed
               else s'.pushed == s.pushed && s'.popped == s.popped
  {
    hide Do, DoReady, DoBroadcast, LocalEffect, ReadyEnabled, WaiterInv, WakeInv, TermInv, MutexInv, RingInv, ReadyInv;
    SamePCs(s, i, ch);
    if LocalStep(s, i) {
      LocalPCs(s, i, ch);
      if s.pcs[i] != Unlock(OK) { LocalNotOK(s, i, s.pcs[i], ch); }
    } else if i < |s.pcs| && s.pcs[i].Ready? {
      DoIsReady(s, i, ch);
      if ReadyStep(s, i, ch) { ReadyMoves(s, i, ch); }
    } else if i < |s.pcs| {
      DoIsBroadcast(s, i, ch);
      BroadcastSize(s, i);
    }
  }

  lemma LocalNotOK(s: State, i: nat, pc: PC, ch: Choice)
    requires !pc.Ready? && pc != Unlock(OK)
    ensures LocalEffect(s, i, pc, ch).pc != Unlock(OK)
  {}

  lemma ReadyMoves(s: State, i: nat, ch: Choice)
    requires ReadyStep(s, i, ch) && RingInv(s) && ReadyInv(s)
    ensures var s', op := DoReady(s, i, s.pcs[i].op, ch.wake), s.pcs[i].op;
            |s'.pcs| == |s.pcs| && s'.pcs[i] == Unlock(OK)
            && if op.Push? then s.nelts < Bounds(s) && s'.pushed == s.pushed + [op.value] && s'.popped == s.popped
               else s.nelts > 0 && |s.popped| < |s.pushed| && s'.popped == s.popped + [s.pushed[|s.popped|]]
                    && s'.pushed == s.pushed
  {
    hide LegalPop, LegalPush;
    ReadyPCs(s, i, s.pcs[i].op, ch.wake);
    if s.nelts > 0 { assert s.pushed[|s.popped|] == Contents(s)[0] == s.data[s.tail]; }
  }

  /** In every state, where a step leads a thread that is in an operation. */
  lemma StepOutcome(s: State, i: nat, ch: Choice)
    requires i < |s.pcs| && OpAt(s.pcs[i]).In?
    ensures |Do(s, i, ch).pcs| == |s.pcs|
    ensures var pc, pc', op := s.pcs[i], Do(s, i, ch).pcs[i], OpAt(s.pcs[i]).op;
            var room := if op.Push? then s.nelts != Bounds(s) else s.nelts != 0;
            (OpAt(pc').In? ==> OpAt(pc').op == op)
            && (pc.Enter? ==> pc' == if s.terminated then Return(DONE) else Lock(op))
            && (pc.Hold? && room ==> pc'.Ready?)
            && (pc.Woken? && pc.wake != TimedOut && room ==> pc'.Ready?)
            && (pc.Hold? && !room ==> if op.timeout == Try then pc' == Unlock(RETRY)
                                      else if s.terminated then pc' == UnlockIntr else pc' == Asleep(op))
            && (pc.Woken? && pc.wake != TimedOut && !room ==> pc' == UnlockIntr)
            && (pc' == Unlock(RETRY) ==> pc.Hold? && op.timeout == Try && !room)
            && (pc' == Unlock(TIMEUP) <==> pc.Woken? && pc.wake == TimedOut)
            && (pc' == Unlock(OK) ==> pc.Ready?)
            && (pc.Lock? ==> pc' == if s.owner.Free? then Hold(op) else pc)
            && (pc.Waking? ==> pc' == if s.owner.Free? then Woken(op, pc.wake) else pc)
            && (pc.Asleep? ==> pc' == if ch.WakeUp? then Waking(op, Spurious)
                                      else if ch.Expire? && op.timeout == Timed then Waking(op, TimedOut) else pc)
  {
    hide Do, DoReady, DoBroadcast, ReadyEnabled;
    SamePCs(s, i, ch);
    if LocalStep(s, i) {
      LocalPCs(s, i, ch);
    } else {
      ReadyAt(s, i, ch);
    }
  }

  /** In every state, how an operation begins and how it returns. */
  lemma StepReturn(s: State, i: nat, ch: Choice)
    requires i < |s.pcs| && !OpAt(s.pcs[i]).In?
    ensures |Do(s, i, ch).pcs| == |s.pcs|
    ensures var pc, pc' := s.pcs[i], Do(s, i, ch).pcs[i];
            (OpAt(pc').In? ==> pc.Idle? && ch == Call(OpAt(pc').op) && pc'.Enter?)
            && (pc.Unlock? ==> pc' == Return(pc.ret) && Do(s, i, ch).owner == Free)
            && (pc.UnlockIntr? ==> pc' == Recheck && Do(s, i, ch).owner == Free)
            && (pc.Recheck? ==> pc' == Return(if s.terminated then DONE else ERROR))
            && (pc.Return? ==> pc' == Idle) && (pc.Idle? && ch.Call? ==> pc' == Enter(ch.op))
            && (pc'.Return? ==> pc.Unlock? || pc.Recheck?)
            && !pc'.Unlock?
  {
    hide Do, DoReady, DoBroadcast, ReadyEnabled;
    SamePCs(s, i, ch);
    if LocalStep(s, i) {
      LocalPCs(s, i, ch);
    } else {
      DoIsBroadcast(s, i, ch);
      BroadcastSize(s, i);
    }
  }

  /** In every state, termination is set by exactly one kind of step, and everybody is woken by
      exactly one kind; nobody else is woken but by a signal. */
  lemma StepTerm(s: State, i: nat, ch: Choice)
    requires i < |s.pcs|
    ensures var pc, s' := s.pcs[i], Do(s, i, ch);
            |s'.pcs| == |s.pcs| && (s'.terminated <==> s.terminated || pc == TermHold)
            && (pc == TermHold ==> s'.pcs[i] == BcastLock(true))
            && (pc.BcastHold? ==> s'.pcs[i] == BcastUnlock(pc.term) && forall j :: 0 <= j < |s.pcs| ==> !s'.pcs[j].Asleep?)
            && (pc.BcastUnlock? ==> s'.pcs[i] == Idle && (s'.termReturned <==> s.termReturned || pc.term))
            && (pc.TermLock? && s.owner.Free? ==> s'.pcs[i] == TermHold)
            && (pc.BcastLock? && s.owner.Free? ==> s'.pcs[i] == BcastHold(pc.term))
            && (pc.Idle? && ch.CallTerm? ==> s'.pcs[i] == TermLock)
            && (pc.Idle? && ch.CallInterrupt? ==> s'.pcs[i] == BcastLock(false))
            && forall j :: 0 <= j < |s.pcs| && j != i && s'.pcs[j] != s.pcs[j] ==>
                 s.pcs[j].Asleep? && (pc.BcastHold? || (pc.Ready? && ch == Go(j) && (pc.op.Push? <==> s.pcs[j].op.Pop?)))
  {
    hide Do, DoReady, DoBroadcast, ReadyEnabled;
    SamePCs(s, i, ch);
    if LocalStep(s, i) {
      LocalPCs(s, i, ch);
    } else if s.pcs[i].Ready? {
      ReadyAt(s, i, ch);
    } else {
      DoIsBroadcast(s, i, ch);
      BroadcastSize(s, i);
      BroadcastOthers(s, i);
    }
  }

  lemma BroadcastOthers(s: State, i: nat)
    requires i < |s.pcs| && s.pcs[i].BcastHold?
    ensures var s' := DoBroadcast(s, i, s.pcs[i].term);
            forall j :: 0 <= j < |s.pcs| && j != i ==> s'.pcs[j] == s.pcs[j] || s.pcs[j].Asleep?
  {}
}
