/** The timer manager as a value: the running timers with their timeouts, in firing order.
    Timer.dfy proves the tree-based code against these functions. */
module TimerQueue {
  import opened Sequences
  import opened RbShape
  import opened RbTree

  datatype Entry = Entry(timer: Node, timeout: int)

  type Queue = seq<Entry>

  ghost predicate Sorted(q: Queue) {
    forall i, j :: 0 <= i < j < |q| ==> q[i].timeout <= q[j].timeout
  }

  ghost predicate OncePerTimer(q: Queue) {
    forall i, j :: 0 <= i < j < |q| ==> q[i].timer != q[j].timer
  }

  ghost predicate Running(q: Queue, t: Node) {
    exists i :: 0 <= i < |q| && q[i].timer == t
  }

  function DropTimer(q: Queue, t: Node): Queue {
    if q == [] then [] else if q[0].timer == t then q[1..] else [q[0]] + DropTimer(q[1..], t)
  }

  /** A new entry goes behind every entry with the same or an earlier timeout. */
  function InsertTimer(q: Queue, e: Entry): Queue {
    if q != [] && q[0].timeout <= e.timeout then [q[0]] + InsertTimer(q[1..], e) else [e] + q
  }

  // ---------------------------------------------------------------- what start and stop keep

  lemma {:induction false} InsertSplit(a: Queue, b: Queue, e: Entry)
    requires forall i :: 0 <= i < |a| ==> a[i].timeout <= e.timeout
    requires b != [] ==> b[0].timeout > e.timeout
    ensures InsertTimer(a + b, e) == a + [e] + b
  {
    if a == [] {
      assert a + b == b && [e] + b == a + [e] + b;
    } else {
      assert (a + b)[1..] == a[1..] + b;
      InsertSplit(a[1..], b, e);
      assert [a[0]] + (a[1..] + [e] + b) == a + [e] + b;
    }
  }

  /** Equal timeouts keep start order: the entry lands after every timeout that is not later. */
  lemma {:induction false} InsertPlace(q: Queue, e: Entry) returns (k: nat)
    requires Sorted(q)
    ensures k <= |q| && InsertTimer(q, e) == q[..k] + [e] + q[k..]
    ensures forall i :: 0 <= i < k ==> q[i].timeout <= e.timeout
    ensures forall i :: k <= i < |q| ==> q[i].timeout > e.timeout
    ensures Sorted(InsertTimer(q, e))
  {
    k := 0;
    while k < |q| && q[k].timeout <= e.timeout
      invariant k <= |q| && forall i :: 0 <= i < k ==> q[i].timeout <= e.timeout
    {
      k := k + 1;
    }
    assert q[..k] + q[k..] == q;
    InsertSplit(q[..k], q[k..], e);
    SplitSorted(q, k, e);
  }

  lemma SplitSorted(q: Queue, k: nat, e: Entry)
    requires Sorted(q) && k <= |q| && (k > 0 ==> q[k - 1].timeout <= e.timeout)
             && (k < |q| ==> e.timeout < q[k].timeout)
    ensures Sorted(q[..k] + [e] + q[k..])
  {
    var d := q[..k] + [e] + q[k..];
    assert forall i :: 0 <= i < |d| ==> d[i] == if i < k then q[i] else if i == k then e else q[i - 1];
  }

  lemma {:induction false} DropSplit(a: Queue, e: Entry, b: Queue)
    requires forall i :: 0 <= i < |a| ==> a[i].timer != e.timer
    ensures DropTimer(a + [e] + b, e.timer) == a + b
  {
    var s := a + [e] + b;
    if a == [] {
      assert s[1..] == b && a + b == b;
    } else {
      assert s[1..] == a[1..] + [e] + b;
      DropSplit(a[1..], e, b);
      assert [a[0]] + (a[1..] + b) == a + b;
    }
  }

  /** Dropping a timer takes out its one entry and nothing else. */
  lemma DropPlace(q: Queue, t: Node) returns (k: nat)
    requires OncePerTimer(q)
    ensures Running(q, t) ==> k < |q| && q[k].timer == t && DropTimer(q, t) == q[..k] + q[k + 1..]
    ensures !Running(q, t) ==> DropTimer(q, t) == q
  {
    k := 0;
    if Running(q, t) {
      k :| 0 <= k < |q| && q[k].timer == t;
      assert q == q[..k] + [q[k]] + q[k + 1..];
      DropSplit(q[..k], q[k], q[k + 1..]);
    } else {
      DropAbsent(q, t);
    }
  }

  lemma {:induction false} DropAbsent(q: Queue, t: Node)
    requires !Running(q, t)
    ensures DropTimer(q, t) == q
  {
    if q != [] {
      assert q[0].timer != t;
      DropAbsent(q[1..], t);
    }
  }

  lemma DroppedAt(q: Queue, k: nat)
    requires k < |q| && OncePerTimer(q)
    ensures OncePerTimer(q[..k] + q[k + 1..]) && (Sorted(q) ==> Sorted(q[..k] + q[k + 1..]))
  {
    var d := q[..k] + q[k + 1..];
    assert forall i :: 0 <= i < |d| ==> d[i] == q[if i < k then i else i + 1];
  }

  lemma DroppedRunning(q: Queue, k: nat, u: Node)
    requires k < |q| && OncePerTimer(q)
    ensures Running(q[..k] + q[k + 1..], u) <==> Running(q, u) && u != q[k].timer
  {
    var d := q[..k] + q[k + 1..];
    if Running(q, u) && u != q[k].timer {
      var i :| 0 <= i < |q| && q[i].timer == u;
      assert d[if i < k then i else i - 1] == q[i];
    }
    if Running(d, u) {
      var i :| 0 <= i < |d| && d[i].timer == u;
      assert d[i] == q[if i < k then i else i + 1];
    }
  }

  lemma DropKeeps(q: Queue, t: Node, u: Node)
    requires OncePerTimer(q)
    ensures OncePerTimer(DropTimer(q, t))
    ensures Sorted(q) ==> Sorted(DropTimer(q, t))
    ensures Running(DropTimer(q, t), u) <==> Running(q, u) && u != t
  {
    hide *;
    var k := DropPlace(q, t);
    if Running(q, t) {
      DroppedAt(q, k);
      DroppedRunning(q, k, u);
    }
  }

  lemma InsertedAt(q: Queue, e: Entry, k: nat)
    requires k <= |q| && OncePerTimer(q) && !Running(q, e.timer)
    ensures OncePerTimer(q[..k] + [e] + q[k..])
  {
    var d := q[..k] + [e] + q[k..];
    assert forall i :: 0 <= i < |d| ==> d[i] == if i < k then q[i] else if i == k then e else q[i - 1];
  }

  lemma InsertedRunning(q: Queue, e: Entry, k: nat, u: Node)
    requires k <= |q|
    ensures Running(q[..k] + [e] + q[k..], u) <==> Running(q, u) || u == e.timer
  {
    var d := q[..k] + [e] + q[k..];
    assert d[k] == e;
    if Running(q, u) {
      var i :| 0 <= i < |q| && q[i].timer == u;
      assert d[if i < k then i else i + 1] == q[i];
    }
    if Running(d, u) && u != e.timer {
      var i :| 0 <= i < |d| && d[i].timer == u;
      assert d[i] == q[if i < k then i else i - 1];
    }
  }

  lemma InsertKeeps(q: Queue, e: Entry, u: Node)
    requires Sorted(q) && OncePerTimer(q) && !Running(q, e.timer)
    ensures Sorted(InsertTimer(q, e)) && OncePerTimer(InsertTimer(q, e))
    ensures Running(InsertTimer(q, e), u) <==> Running(q, u) || u == e.timer
  {
    hide *;
    var k := InsertPlace(q, e);
    InsertedAt(q, e, k);
    InsertedRunning(q, e, k, u);
  }

  // ---------------------------------------------------------------- expiry

  function Due(q: Queue, now: int): Queue {
    if q == [] || q[0].timeout > now then [] else [q[0]] + Due(q[1..], now)
  }

  /** The due entries are a prefix, and they are exactly the entries whose time has come. */
  lemma {:induction false} DueExactly(q: Queue, now: int)
    requires Sorted(q)
    ensures |Due(q, now)| <= |q| && Due(q, now) == q[..|Due(q, now)|]
    ensures forall i :: 0 <= i < |q| ==> (q[i].timeout <= now <==> i < |Due(q, now)|)
  {
    if q != [] && q[0].timeout <= now {
      DueExactly(q[1..], now);
      assert forall i :: 0 < i < |q| ==> q[i] == q[1..][i - 1];
    }
  }

  /** What a callback may do to the timers. */
  datatype Action = StartTimer(timer: Node, clock: int, duration: int) | StopTimer(timer: Node)

  /** The callback of each timer; a timer without an entry has a null callback. */
  type Callbacks = map<Node, seq<Action>>

  function Apply(q: Queue, a: Action): Queue {
    match a
    case StartTimer(t, clock, duration) => InsertTimer(DropTimer(q, t), Entry(t, clock + duration))
    case StopTimer(t) => DropTimer(q, t)
  }

  /** The entries of the other timers, in their order. */
  function Others(q: Queue, t: Node): Queue {
    if q == [] then [] else (if q[0].timer == t then [] else [q[0]]) + Others(q[1..], t)
  }

  /** Timer t now has its one entry at place k, for time x: behind everything up to x, before
      everything later.  The other timers are as they were. */
  ghost predicate StartedAt(q: Queue, q': Queue, t: Node, x: int, k: nat) {
    && k < |q'| && q'[k] == Entry(t, x)
    && (forall i :: 0 <= i < k ==> q'[i].timeout <= x) && (forall i :: k < i < |q'| ==> q'[i].timeout > x)
    && Others(q', t) == Others(q, t) && OncePerTimer(q')
  }

  ghost predicate Restarted(q: Queue, q': Queue, t: Node, x: int) {
    exists k :: StartedAt(q, q', t, x, k)
  }

  lemma {:induction false} OthersJoin(a: Queue, b: Queue, t: Node)
    ensures Others(a + b, t) == Others(a, t) + Others(b, t)
  {
    if a == [] {
      assert a + b == b;
    } else {
      assert (a + b)[0] == a[0] && (a + b)[1..] == a[1..] + b;
      OthersJoin(a[1..], b, t);
    }
  }

  lemma {:induction false} OthersAbsent(q: Queue, t: Node)
    requires forall i :: 0 <= i < |q| ==> q[i].timer != t
    ensures Others(q, t) == q
  {
    if q != [] { OthersAbsent(q[1..], t); }
  }

  /** Dropping a timer leaves exactly the others. */
  lemma {:induction false} DropOthers(q: Queue, t: Node)
    requires OncePerTimer(q)
    ensures DropTimer(q, t) == Others(q, t)
  {
    if q != [] {
      if q[0].timer == t {
        assert forall i :: 0 <= i < |q[1..]| ==> q[1..][i] == q[i + 1];
        OthersAbsent(q[1..], t);
      } else {
        DropOthers(q[1..], t);
      }
    }
  }

  /** Starting a timer arms it once, at the clock plus the duration and behind equal timeouts;
      stopping it leaves exactly the other timers. */
  lemma ApplyMeans(q: Queue, a: Action)
    requires Sorted(q) && OncePerTimer(q)
    ensures a.StartTimer? ==> Restarted(q, Apply(q, a), a.timer, a.clock + a.duration)
    ensures a.StopTimer? ==> Apply(q, a) == Others(q, a.timer)
  {
    hide DropTimer, InsertTimer, Others;
    var t, d := a.timer, DropTimer(q, a.timer);
    DropOthers(q, t);
    if a.StartTimer? {
      var e := Entry(t, a.clock + a.duration);
      DropKeeps(q, t, t);
      InsertKeeps(d, e, t);
      var k := InsertPlace(d, e);
      StartPlace(q, d, e, k);
    }
  }

  lemma StartPlace(q: Queue, d: Queue, e: Entry, k: nat)
    requires d == Others(q, e.timer) && k <= |d| && !Running(d, e.timer) && OncePerTimer(d[..k] + [e] + d[k..])
    requires forall i :: 0 <= i < k ==> d[i].timeout <= e.timeout
    requires forall i :: k <= i < |d| ==> d[i].timeout > e.timeout
    ensures StartedAt(q, d[..k] + [e] + d[k..], e.timer, e.timeout, k)
  {
    hide Others, OncePerTimer;
    var q' := d[..k] + [e] + d[k..];
    assert forall i :: 0 <= i < |q'| ==> q'[i] == if i < k then d[i] else if i == k then e else d[i - 1];
    OthersAround(d, e, k);
  }

  lemma OthersAround(d: Queue, e: Entry, k: nat)
    requires k <= |d| && !Running(d, e.timer)
    ensures Others(d[..k] + [e] + d[k..], e.timer) == d
  {
    hide Others;
    var a, b := d[..k], d[k..];
    OthersJoin(a + [e], b, e.timer);
    OthersJoin(a, [e], e.timer);
    OthersNone(e);
    OthersAbsent(a, e.timer);
    OthersAbsent(b, e.timer);
    assert a + [] + b == d;
  }

  lemma OthersNone(e: Entry)
    ensures Others([e], e.timer) == []
  {}

  function RunScript(q: Queue, script: seq<Action>): Queue
    decreases |script|
  {
    if script == [] then q else RunScript(Apply(q, script[0]), script[1..])
  }

  function ScriptOf(cbs: Callbacks, t: Node): seq<Action> { if t in cbs then cbs[t] else [] }

  /** Every timer whose time has come fires, no other, each once and in the order of their times. */
  lemma FiredOnce(q: Queue, now: int)
    requires Sorted(q) && OncePerTimer(q)
    ensures var fired := TimersOf(Due(q, now));
            NoDup(fired) && forall t :: t in fired <==> exists i :: 0 <= i < |q| && q[i].timer == t && q[i].timeout <= now
    ensures forall i, j :: 0 <= i < j < |Due(q, now)| ==> Due(q, now)[i].timeout <= Due(q, now)[j].timeout
  {
    hide Due;
    DueExactly(q, now);
    var due := Due(q, now);
    var fired := TimersOf(due);
    assert |fired| == |due| && forall i :: 0 <= i < |due| ==> fired[i] == due[i].timer == q[i].timer;
    forall t ensures t in fired <==> exists i :: 0 <= i < |q| && q[i].timer == t && q[i].timeout <= now {
      if t in fired {
        var i :| 0 <= i < |fired| && fired[i] == t;
        assert q[i].timer == t && q[i].timeout <= now;
      }
      if i :| 0 <= i < |q| && q[i].timer == t && q[i].timeout <= now { assert fired[i] == t; }
    }
  }

  /** One turn of the firing loop: stop the timer, then run its callback. */
  function FireOne(q: Queue, t: Node, cbs: Callbacks): Queue { RunScript(DropTimer(q, t), ScriptOf(cbs, t)) }

  /** The queue after the turns of all the timers in `due`. */
  function FireAll(q: Queue, due: seq<Node>, cbs: Callbacks): Queue
    decreases |due|
  {
    if due == [] then q else FireAll(FireOne(q, due[0], cbs), due[1..], cbs)
  }

  function TimersOf(q: Queue): (r: seq<Node>)
    ensures |r| == |q| && forall i :: 0 <= i < |q| ==> r[i] == q[i].timer
  {
    seq(|q|, i requires 0 <= i < |q| => q[i].timer)
  }

  // ---------------------------------------------------------------- which due timers still run at their turn

  /** A start is to the time at which the timer is due. */
  datatype LastOp = Untouched | Started(due: int) | Stopped

  function OpOf(a: Action): LastOp {
    if a.StartTimer? then Started(a.clock + a.duration) else Stopped
  }

  /** The last thing a script does to `t`, starting from `op`. */
  function LastOn(script: seq<Action>, t: Node, op: LastOp): LastOp
    decreases |script|
  {
    if script == [] then op
    else LastOn(script[1..], t, if script[0].timer == t then OpOf(script[0]) else op)
  }

  /** The last thing that the callbacks of the timers in `due` do to `t`. */
  function LastBefore(due: seq<Node>, cbs: Callbacks, t: Node, op: LastOp): LastOp
    decreases |due|
  {
    if due == [] then op else LastBefore(due[1..], cbs, t, LastOn(ScriptOf(cbs, due[0]), t, op))
  }

  predicate Alive(op: LastOp, before: bool) {
    match op
    case Untouched => before
    case Started(_) => true
    case Stopped => false
  }

  lemma ApplyKeeps(q: Queue, a: Action, u: Node)
    requires Sorted(q) && OncePerTimer(q)
    ensures Sorted(Apply(q, a)) && OncePerTimer(Apply(q, a))
    ensures Running(Apply(q, a), u) <==> if a.timer == u then a.StartTimer? else Running(q, u)
  {
    DropKeeps(q, a.timer, u);
    DropKeeps(q, a.timer, a.timer);
    if a.StartTimer? {
      InsertKeeps(DropTimer(q, a.timer), Entry(a.timer, a.clock + a.duration), u);
    }
  }

  lemma {:induction false} ScriptKeeps(q: Queue, script: seq<Action>, u: Node, op: LastOp, before: bool)
    requires Sorted(q) && OncePerTimer(q) && (Running(q, u) <==> Alive(op, before))
    ensures Sorted(RunScript(q, script)) && OncePerTimer(RunScript(q, script))
    ensures Running(RunScript(q, script), u) <==> Alive(LastOn(script, u, op), before)
    decreases |script|
  {
    if script != [] {
      ApplyKeeps(q, script[0], u);
      var op' := if script[0].timer == u then OpOf(script[0]) else op;
      ScriptKeeps(Apply(q, script[0]), script[1..], u, op', before);
    }
  }

  /** After the turns of the timers in `due`, another timer `u` runs exactly when the last thing
      their callbacks did to it was a start, or they did nothing to it and it ran before. */
  lemma {:induction false} FireAllRunning(q: Queue, due: seq<Node>, cbs: Callbacks, u: Node, op: LastOp, before: bool)
    requires Sorted(q) && OncePerTimer(q) && u !in due && (Running(q, u) <==> Alive(op, before))
    ensures Sorted(FireAll(q, due, cbs)) && OncePerTimer(FireAll(q, due, cbs))
    ensures Running(FireAll(q, due, cbs), u) <==> Alive(LastBefore(due, cbs, u, op), before)
    decreases |due|
  {
    if due != [] {
      DropKeeps(q, due[0], u);
      ScriptKeeps(DropTimer(q, due[0]), ScriptOf(cbs, due[0]), u, op, before);
      FireAllRunning(FireOne(q, due[0], cbs), due[1..], cbs, u, LastOn(ScriptOf(cbs, due[0]), u, op), before);
    }
  }

  // ---------------------------------------------------------------- which timers run afterwards, and until when

  ghost predicate Armed(q: Queue, t: Node, x: int) {
    exists i :: 0 <= i < |q| && q[i] == Entry(t, x)
  }

  /** Timer t is in q as the last operation on it says; q0 is the queue before any. */
  ghost predicate Status(q: Queue, t: Node, op: LastOp, q0: Queue) {
    forall x :: Armed(q, t, x) <==> match op
                                    case Untouched => Armed(q0, t, x)
                                    case Started(due) => x == due
                                    case Stopped => false
  }

  lemma {:induction false} OthersArmed(q: Queue, t: Node, u: Node, x: int)
    ensures Armed(Others(q, t), u, x) <==> Armed(q, u, x) && u != t
  {
    if q != [] {
      OthersArmed(q[1..], t, u, x);
      ArmedParts([q[0]], q[1..], u, x);
      assert q == [q[0]] + q[1..];
      ArmedParts(if q[0].timer == t then [] else [q[0]], Others(q[1..], t), u, x);
    }
  }

  lemma ArmedParts(a: Queue, b: Queue, u: Node, x: int)
    ensures Armed(a + b, u, x) <==> Armed(a, u, x) || Armed(b, u, x)
    ensures |a| == 1 ==> (Armed(a, u, x) <==> a[0] == Entry(u, x))
  {
    if Armed(a, u, x) {
      var i :| 0 <= i < |a| && a[i] == Entry(u, x);
      assert (a + b)[i] == Entry(u, x);
    }
    if Armed(b, u, x) {
      var i :| 0 <= i < |b| && b[i] == Entry(u, x);
      assert (a + b)[|a| + i] == Entry(u, x);
    }
  }

  lemma RestartArmed(q: Queue, q': Queue, t: Node, x: int, u: Node, y: int)
    requires Restarted(q, q', t, x)
    ensures Armed(q', u, y) <==> if u == t then y == x else Armed(q, u, y)
  {
    hide Others;
    var k :| StartedAt(q, q', t, x, k);
    OthersArmed(q, t, u, y);
    OthersArmed(q', t, u, y);
    if u == t && Armed(q', u, y) {
      var i :| 0 <= i < |q'| && q'[i] == Entry(u, y);
      assert i == k;
    }
  }

  lemma ApplyStatus(q: Queue, a: Action, u: Node, op: LastOp, q0: Queue)
    requires Sorted(q) && OncePerTimer(q) && Status(q, u, op, q0)
    ensures Status(Apply(q, a), u, if a.timer == u then OpOf(a) else op, q0)
  {
    hide Apply, Armed, Restarted, Others;
    ApplyMeans(q, a);
    forall x ensures Armed(Apply(q, a), u, x) <==> if a.timer != u then Armed(q, u, x) else OpOf(a) == Started(x) {
      if a.StartTimer? {
        RestartArmed(q, Apply(q, a), a.timer, a.clock + a.duration, u, x);
      } else {
        OthersArmed(q, a.timer, u, x);
      }
    }
  }

  lemma {:induction false} ScriptStatus(q: Queue, script: seq<Action>, u: Node, op: LastOp, q0: Queue)
    requires Sorted(q) && OncePerTimer(q) && Status(q, u, op, q0)
    ensures Sorted(RunScript(q, script)) && OncePerTimer(RunScript(q, script))
    ensures Status(RunScript(q, script), u, LastOn(script, u, op), q0)
    decreases |script|
  {
    if script != [] {
      hide Status, Apply, OpOf;
      ApplyKeeps(q, script[0], u);
      ApplyStatus(q, script[0], u, op, q0);
      ScriptStatus(Apply(q, script[0]), script[1..], u, if script[0].timer == u then OpOf(script[0]) else op, q0);
    }
  }

  /** A timer that is not due itself runs after the turns of the due ones exactly as the last
      operation of a callback on it says, or as before if there is none. */
  lemma {:induction false} OtherAfter(q: Queue, due: seq<Node>, cbs: Callbacks, u: Node, op: LastOp, q0: Queue)
    requires Sorted(q) && OncePerTimer(q) && u !in due && Status(q, u, op, q0)
    ensures Sorted(FireAll(q, due, cbs)) && OncePerTimer(FireAll(q, due, cbs))
    ensures Status(FireAll(q, due, cbs), u, LastBefore(due, cbs, u, op), q0)
    decreases |due|
  {
    if due != [] {
      hide Status, RunScript, LastOn, Apply;
      TurnStatus(q, due[0], cbs, u, op, q0);
      OtherAfter(FireOne(q, due[0], cbs), due[1..], cbs, u, LastOn(ScriptOf(cbs, due[0]), u, op), q0);
    }
  }

  /** One turn: the timer is stopped, and then its callback runs. */
  lemma TurnStatus(q: Queue, t: Node, cbs: Callbacks, u: Node, op: LastOp, q0: Queue)
    requires Sorted(q) && OncePerTimer(q) && Status(q, u, op, q0)
    ensures Sorted(FireOne(q, t, cbs)) && OncePerTimer(FireOne(q, t, cbs))
    ensures Status(FireOne(q, t, cbs), u, LastOn(ScriptOf(cbs, t), u, if u == t then Stopped else op), q0)
  {
    hide Status, RunScript, LastOn;
    ApplyKeeps(q, StopTimer(t), u);
    ApplyStatus(q, StopTimer(t), u, op, q0);
    ScriptStatus(Apply(q, StopTimer(t)), ScriptOf(cbs, t), u, if u == t then Stopped else op, q0);
  }

  /** A due timer runs afterwards exactly when the last operation on it, by its own callback or a
      later one, is a start, and then until the time of that start. */
  lemma {:induction false} DueAfter(q: Queue, due: seq<Node>, cbs: Callbacks, k: nat)
    requires Sorted(q) && OncePerTimer(q) && NoDup(due) && k < |due|
    ensures forall x :: Armed(FireAll(q, due, cbs), due[k], x) <==> LastBefore(due[k..], cbs, due[k], Stopped) == Started(x)
    ensures Running(FireAll(q, due, cbs), due[k]) <==> LastBefore(due[k..], cbs, due[k], Stopped).Started?
    decreases |due|
  {
    hide Status, RunScript, LastOn, Armed;
    var u, rest, after := due[k], due[1..], FireAll(q, due, cbs);
    SelfStatus(q, u);
    SelfStatus(q, due[0]);
    TurnStatus(q, due[0], cbs, u, Untouched, q);
    assert forall i, j :: 0 <= i < j < |rest| ==> rest[i] != rest[j] by {
      assert forall i :: 0 <= i < |rest| ==> rest[i] == due[i + 1];
    }
    if k == 0 {
      assert due[0..] == due;
      assert u !in rest by { assert forall i :: 0 <= i < |rest| ==> rest[i] == due[i + 1]; }
      OtherAfter(FireOne(q, u, cbs), rest, cbs, u, LastOn(ScriptOf(cbs, u), u, Stopped), q);
      var op := LastOn(ScriptOf(cbs, u), u, Stopped);
      TouchedOn(ScriptOf(cbs, u), u, Stopped);
      TouchedBefore(rest, cbs, u, op);
      StatusMeans(after, u, LastBefore(rest, cbs, u, op), q);
    } else {
      assert rest[k - 1..] == due[k..] && rest[k - 1] == u;
      DueAfter(FireOne(q, due[0], cbs), rest, cbs, k - 1);
    }
  }

  lemma SelfStatus(q: Queue, u: Node)
    ensures Status(q, u, Untouched, q)
  {}

  lemma {:induction false} TouchedOn(script: seq<Action>, u: Node, op: LastOp)
    requires op != Untouched
    ensures LastOn(script, u, op) != Untouched
    decreases |script|
  {
    if script != [] { TouchedOn(script[1..], u, if script[0].timer == u then OpOf(script[0]) else op); }
  }

  lemma {:induction false} TouchedBefore(due: seq<Node>, cbs: Callbacks, u: Node, op: LastOp)
    requires op != Untouched
    ensures LastBefore(due, cbs, u, op) != Untouched
    decreases |due|
  {
    if due != [] {
      TouchedOn(ScriptOf(cbs, due[0]), u, op);
      TouchedBefore(due[1..], cbs, u, LastOn(ScriptOf(cbs, due[0]), u, op));
    }
  }

  lemma StatusMeans(q: Queue, u: Node, op: LastOp, q0: Queue)
    requires Status(q, u, op, q0) && op != Untouched
    ensures forall x :: Armed(q, u, x) <==> op == Started(x)
    ensures Running(q, u) <==> op.Started?
  {
    if op.Started? {
      assert Armed(q, u, op.due);
    }
    if Running(q, u) {
      var i :| 0 <= i < |q| && q[i].timer == u;
      assert Armed(q, u, q[i].timeout);
    }
  }

  /** The turns follow one another, and the operations of a callback too. */
  lemma {:induction false} TurnsInOrder(q: Queue, a: seq<Node>, b: seq<Node>, cbs: Callbacks)
    ensures FireAll(q, a + b, cbs) == FireAll(FireAll(q, a, cbs), b, cbs)
    decreases |a|
  {
    hide FireOne;
    if a == [] {
      assert a + b == b;
    } else {
      assert (a + b)[0] == a[0] && (a + b)[1..] == a[1..] + b;
      TurnsInOrder(FireOne(q, a[0], cbs), a[1..], b, cbs);
    }
  }

  lemma {:induction false} StepsInOrder(q: Queue, a: seq<Action>, b: seq<Action>)
    ensures RunScript(q, a + b) == RunScript(RunScript(q, a), b)
    ensures |b| == 1 ==> RunScript(q, a + b) == Apply(RunScript(q, a), b[0])
    decreases |a|
  {
    hide Apply;
    if a == [] {
      assert a + b == b;
    } else {
      assert (a + b)[0] == a[0] && (a + b)[1..] == a[1..] + b;
      StepsInOrder(Apply(q, a[0]), a[1..], b);
    }
  }

  /** A timer that its own callback starts again runs until the new time. */
  lemma RestartsItself(t: Node)
    ensures var cbs: Callbacks := map[t := [StartTimer(t, 1, 10)]]; FireAll([Entry(t, 1)], [t], cbs) == [Entry(t, 11)]
  {
    var q := [Entry(t, 1)];
    var cbs: Callbacks := map[t := [StartTimer(t, 1, 10)]];
    assert DropTimer(q, t) == [];
    assert RunScript([], [StartTimer(t, 1, 10)]) == RunScript(Apply([], StartTimer(t, 1, 10)), []);
    assert FireAll(q, [t], cbs) == FireAll(FireOne(q, t, cbs), [], cbs);
  }

  /** Exactly when the `k`-th due timer is still running at its turn.  It fires either way. */
  lemma RunningAtTurn(q: Queue, now: int, cbs: Callbacks, k: nat)
    requires Sorted(q) && OncePerTimer(q) && k < |Due(q, now)|
    ensures var due := TimersOf(Due(q, now));
            Running(FireAll(q, due[..k], cbs), due[k]) <==> LastBefore(due[..k], cbs, due[k], Untouched) != Stopped
  {
    DueExactly(q, now);
    var due := TimersOf(Due(q, now));
    assert q[k].timer == due[k];
    assert forall i :: 0 <= i < k ==> due[..k][i] == q[i].timer;
    FireAllRunning(q, due[..k], cbs, due[k], Untouched, true);
    LastNeverUntouched(due[..k], cbs, due[k]);
  }

  lemma LastNeverUntouched(due: seq<Node>, cbs: Callbacks, t: Node)
    ensures Alive(LastBefore(due, cbs, t, Untouched), true) <==> LastBefore(due, cbs, t, Untouched) != Stopped
  {}

  /** A due timer that an earlier callback stops is fired all the same. */
  lemma StoppedTimerStillFires(a: Node, b: Node)
    requires a != b
    ensures var q := [Entry(a, 1), Entry(b, 1)];
            var cbs: Callbacks := map[a := [StopTimer(b)]];
            TimersOf(Due(q, 1)) == [a, b] && !Running(FireAll(q, [a], cbs), b)
  {
    var q := [Entry(a, 1), Entry(b, 1)];
    var cbs: Callbacks := map[a := [StopTimer(b)]];
    assert q[1..] == [Entry(b, 1)] && q[1..][1..] == [];
    assert Due(q[1..], 1) == [Entry(b, 1)];
    assert Due(q, 1) == q;
    assert DropTimer(q, a) == [Entry(b, 1)];
    assert RunScript([Entry(b, 1)], [StopTimer(b)]) == RunScript([], []);
    assert FireAll(q, [a], cbs) == FireAll(FireOne(q, a, cbs), [], cbs);
  }

  /** With callbacks that leave the timers alone, expiry removes exactly the due entries. */
  lemma {:induction false} QuietExpiry(q: Queue, k: nat, cbs: Callbacks)
    requires OncePerTimer(q) && k <= |q| && forall t :: t in cbs ==> cbs[t] == []
    ensures FireAll(q, TimersOf(q[..k]), cbs) == q[k..]
    decreases k
  {
    if k > 0 {
      var due := TimersOf(q[..k]);
      assert due[1..] == TimersOf(q[1..][..k - 1]);
      QuietExpiry(q[1..], k - 1, cbs);
    }
  }
}
