/** The timer manager: timers in a red-black tree ordered by timeout. */
module Timer {
  import opened Sequences
  import opened RbShape
  import opened RbTree
  import opened TimerQueue

  const NO_WAIT_TIME := 0
  const INFINITE_TIME := -1

  type Times = map<Node, int>

  ghost function QueueOf(s: seq<Node>, time: Times): (q: Queue)
    ensures |q| == |s| && forall i :: 0 <= i < |s| ==> q[i] == Entry(s[i], if s[i] in time then time[s[i]] else 0)
  {
    seq(|s|, i requires 0 <= i < |s| => Entry(s[i], if s[i] in time then time[s[i]] else 0))
  }

  lemma QueueConcat(a: seq<Node>, b: seq<Node>, time: Times)
    ensures QueueOf(a + b, time) == QueueOf(a, time) + QueueOf(b, time)
  {}

  lemma {:induction false} QueueWithout(s: seq<Node>, t: Node, time: Times)
    ensures QueueOf(Without(s, t), time) == DropTimer(QueueOf(s, time), t)
  {
    if s != [] {
      QueueWithout(s[1..], t, time);
      assert s == [s[0]] + s[1..];
      QueueConcat([s[0]], s[1..], time);
      QueueConcat([s[0]], Without(s[1..], t), time);
    }
  }

  ghost predicate AllUpTo(q: Queue, limit: int) { forall i :: 0 <= i < |q| ==> q[i].timeout <= limit }

  ghost predicate AllAfter(q: Queue, limit: int) { forall i :: 0 <= i < |q| ==> limit < q[i].timeout }

  /** A node of a sorted sequence separates the early from the late ones. */
  lemma Separates(a: seq<Node>, x: Node, b: seq<Node>, time: Times, limit: int)
    requires Sorted(QueueOf(a + [x] + b, time)) && x in time
    ensures limit < time[x] ==> AllAfter(QueueOf([x] + b, time), limit)
    ensures time[x] <= limit ==> AllUpTo(QueueOf(a + [x], time), limit)
  {
    var q := QueueOf(a + [x] + b, time);
    assert q[|a|] == Entry(x, time[x]);
    assert forall i :: 0 <= i < |b| + 1 ==> QueueOf([x] + b, time)[i] == q[|a| + i];
    assert forall i :: 0 <= i < |a| + 1 ==> QueueOf(a + [x], time)[i] == q[i];
  }

  lemma QueueOnce(s: seq<Node>, time: Times)
    requires NoDup(s)
    ensures OncePerTimer(QueueOf(s, time))
  {}

  lemma QueueAgree(s: seq<Node>, time: Times, time': Times)
    requires forall t :: t in s ==> t in time && t in time' && time[t] == time'[t]
    ensures QueueOf(s, time) == QueueOf(s, time')
  {}

  lemma PlugSplit(p: Path<Node>, t: Tree<Node>)
    requires t.Bin?
    ensures InOrder(Plug(p, t)) == (Before(p) + InOrder(t.left)) + [t.elem] + (InOrder(t.right) + After(p))
  {
    PlugInOrder(p, t);
    Regroup(Before(p), InOrder(t.left), t.elem, InOrder(t.right), After(p));
  }

  lemma Assoc(a: seq<Node>, b: seq<Node>, c: seq<Node>)
    ensures a + (b + c) == a + b + c
  {}

  lemma QueueInsert(a: seq<Node>, x: Node, b: seq<Node>, time: Times)
    requires x in time && AllUpTo(QueueOf(a, time), time[x]) && AllAfter(QueueOf(b, time), time[x])
    ensures QueueOf(a + [x] + b, time) == InsertTimer(QueueOf(a + b, time), Entry(x, time[x]))
  {
    hide InsertTimer;
    QueueConcat(a, b, time);
    QueueConcat(a, [x], time);
    QueueConcat(a + [x], b, time);
    InsertSplit(QueueOf(a, time), QueueOf(b, time), Entry(x, time[x]));
  }

  lemma NewLeaf(p: Path<Node>, x: Node)
    requires RedBlack(Plug(p, Leaf))
    ensures Inserting(p, Bin(Leaf, x, Red, Leaf))
  {
    PlugRedBlack(p, Leaf);
  }

  class TimerMgr {
    const tree: RbTree
    var avail: nat
    ghost var timers: set<Node>

    ghost function Times(): Times
      reads this`timers, timers`timeout
    {
      map t | t in timers :: t.timeout
    }

    ghost function Queue(): Queue
      reads this`timers, tree`shape, timers`timeout
    {
      QueueOf(InOrder(tree.shape), Times())
    }

    /** A timer is marked running exactly when it is in the tree, and the tree is sorted. */
    ghost predicate Valid()
      reads this, tree, timers, tree.nodes
    {
      tree.Valid() && tree.nodes <= timers &&
      (forall t :: t in timers ==> (t.running <==> t in tree.nodes)) &&
      Sorted(Queue())
    }

    constructor (capacity: nat)
      ensures Valid() && timers == {} && avail == capacity && Queue() == [] && fresh(tree)
    {
      tree := new RbTree();
      avail := capacity;
      timers := {};
    }

    /** The search of `add_timer_node`: the empty place behind every timeout that is not later. */
    method FindPlace(timeout: int) returns (parent: Node?, side: Side, ghost p: Path<Node>)
      requires tree.Valid() && tree.nodes <= timers && Sorted(Queue())
      ensures At(p, Leaf, tree.root, tree.Mem()) && Plug(p, Leaf) == tree.shape
      ensures parent == Above(p, null) && (p.Step? ==> side == p.side)
      ensures AllUpTo(QueueOf(Before(p), Times()), timeout) && AllAfter(QueueOf(After(p), Times()), timeout)
    {
      hide Rep, PathRep, Distinct, PathDistinct, PathElems, Elems, Focus, Plug, RedBlack, At, InOrder, QueueOf, Sorted;
      var cur := tree.root;
      parent, side := null, L;
      ghost var t := tree.shape;
      p := Top;
      AtRoot(t, tree.root, tree.Mem());
      PlugTop(t);
      while cur != null
        invariant At(p, t, tree.root, tree.Mem()) && Plug(p, t) == tree.shape
        invariant cur == RootOf(t) && parent == Above(p, null) && (p.Step? ==> side == p.side)
        invariant AllUpTo(QueueOf(Before(p), Times()), timeout) && AllAfter(QueueOf(After(p), Times()), timeout)
        decreases t
      {
        tree.NodeReads(p, t);
        PlugSplit(p, t);
        ghost var x := t.elem;
        ghost var a, b := Before(p) + InOrder(t.left), InOrder(t.right) + After(p);
        Separates(a, x, b, Times(), timeout);
        parent := cur;
        if timeout < cur.timeout {
          side := L;
          AtUp(L, x, t.color, t.right, p, t.left, tree.root, tree.Mem());
          Assoc([x], InOrder(t.right), After(p));
          p, t := Step(L, x, t.color, t.right, p), t.left;
          cur := cur.left;
        } else {
          side := R;
          AtUp(R, x, t.color, t.left, p, t.right, tree.root, tree.Mem());
          p, t := Step(R, x, t.color, t.left, p), t.right;
          cur := cur.right;
        }
        PlugUp(p, t);
      }
    }

    /** The queue reads only the timeouts of the timers in the tree. */
    lemma QueueReads(time: Times)
      requires tree.Valid() && tree.nodes <= timers
      requires forall t :: t in tree.nodes ==> t in time && time[t] == t.timeout
      ensures QueueOf(InOrder(tree.shape), time) == Queue()
      ensures Members(InOrder(tree.shape)) == tree.nodes && NoDup(InOrder(tree.shape)) && OncePerTimer(Queue())
    {
      ElemsOfInOrder(tree.shape);
      InOrderNoDuplicates(tree.shape);
      assert forall t :: t in InOrder(tree.shape) ==> t in Members(InOrder(tree.shape));
      QueueAgree(InOrder(tree.shape), time, Times());
      QueueOnce(InOrder(tree.shape), Times());
    }

    /** `add_timer_node`, with the clock reading `now`. */
    method AddTimerNode(timer: Node, now: int, duration: int)
      requires tree.Valid() && tree.nodes <= timers && Sorted(Queue())
      requires timer in timers && timer !in tree.nodes
      modifies tree, timers`parent, timers`left, timers`right, timers`color, timer`timeout
      ensures tree.Valid() && tree.nodes == old(tree.nodes) + {timer}
      ensures timer.timeout == now + duration
      ensures Queue() == InsertTimer(old(Queue()), Entry(timer, now + duration))
    {
      hide Rep, PathRep, Distinct, PathDistinct, PathElems, Elems, Focus, Plug, RedBlack, At, InOrder, QueueOf, Sorted,
           Inserting, Before, After, InsertTimer;
      ghost var time0 := Times();
      QueueReads(time0);
      timer.timeout := now + duration;
      QueueReads(time0);
      ghost var time := Times();
      var parent, side;
      ghost var p;
      parent, side, p := FindPlace(timer.timeout);
      NewLeaf(p, timer);
      PlaceOutside(p, timer);
      ghost var nodes0 := tree.nodes;
      tree.LinkNode(timer, parent, side, p);
      NewLeafElems(p, timer, nodes0);
      tree.InsertColor(timer, p, Bin(Leaf, timer, Red, Leaf));
      assert Times() == time;
      PlaceOrder(p, timer, time);
    }

    /** The free place does not mention a node outside the tree. */
    lemma PlaceOutside(p: Path<Node>, timer: Node)
      requires tree.Valid() && Plug(p, Leaf) == tree.shape && timer !in tree.nodes
      ensures timer !in PathElems(p) && Elems(Plug(p, Leaf)) == tree.nodes
    {
      PlugElems(p, Leaf);
    }

    lemma NewLeafElems(p: Path<Node>, timer: Node, nodes0: set<Node>)
      requires Elems(Plug(p, Leaf)) == nodes0
      ensures Elems(Plug(p, Bin(Leaf, timer, Red, Leaf))) == nodes0 + {timer}
    {
      PlugElems(p, Leaf);
      PlugElems(p, Bin(Leaf, timer, Red, Leaf));
    }

    lemma PlaceOrder(p: Path<Node>, timer: Node, time: Times)
      requires timer in time && AllUpTo(QueueOf(Before(p), time), time[timer])
               && AllAfter(QueueOf(After(p), time), time[timer])
      ensures QueueOf(InOrder(Plug(p, Bin(Leaf, timer, Red, Leaf))), time)
              == InsertTimer(QueueOf(InOrder(Plug(p, Leaf)), time), Entry(timer, time[timer]))
    {
      hide Plug, Before, After;
      PlugInOrder(p, Leaf);
      PlugInOrder(p, Bin(Leaf, timer, Red, Leaf));
      assert Before(p) + [] + After(p) == Before(p) + After(p);
      assert InOrder(Bin(Leaf, timer, Red, Leaf)) == [timer];
      QueueInsert(Before(p), timer, After(p), time);
    }

    /** Taking a running timer out of the tree. */
    method Unlink(timer: Node)
      requires tree.Valid() && tree.nodes <= timers && Sorted(Queue()) && timer in tree.nodes
      modifies tree, timers`parent, timers`left, timers`right, timers`color
      ensures tree.Valid() && tree.nodes == old(tree.nodes) - {timer}
      ensures Queue() == DropTimer(old(Queue()), timer) && Sorted(Queue())
    {
      hide Rep, PathRep, Distinct, PathDistinct, PathElems, Elems, Focus, RedBlack, At, InOrder, QueueOf, Sorted,
           Without;
      ghost var time := Times();
      QueueReads(time);
      QueueWithout(InOrder(tree.shape), timer, time);
      DropKeeps(Queue(), timer, timer);
      tree.Delete(timer);
      assert Times() == time;
    }

    /** `ogs_timer_start`: restarting a running timer moves it. */
    method Start(timer: Node, now: int, duration: int)
      requires Valid() && timer in timers && duration != 0
      modifies tree, timers
      ensures Valid() && timer.running
      ensures timer.timeout == now + duration && Restarted(old(Queue()), Queue(), timer, now + duration)
      ensures forall t :: t in timers && t != timer ==> t.timeout == old(t.timeout) && t.running == old(t.running)
      ensures Queue() == Apply(old(Queue()), StartTimer(timer, now, duration))
    {
      hide Rep, PathRep, Distinct, PathDistinct, PathElems, Elems, Focus, RedBlack, At, InOrder, QueueOf, Sorted,
           DropTimer, InsertTimer, Members, NoDup, OncePerTimer, Restarted, Others;
      ghost var q := Queue();
      QueueReads(Times());
      ApplyMeans(q, StartTimer(timer, now, duration));
      RunningInTree(timer);
      if timer.running {
        Unlink(timer);
      } else {
        DropAbsent(Queue(), timer);
      }
      assert Queue() == DropTimer(q, timer);
      QueueReads(Times());
      DropKeeps(q, timer, timer);
      InsertKeeps(DropTimer(q, timer), Entry(timer, now + duration), timer);
      ghost var time := Times();
      timer.running := true;
      assert Times() == time;
      AddTimerNode(timer, now, duration);
    }

    /** `ogs_timer_stop`: nothing happens to a timer that is not running. */
    method Stop(timer: Node)
      requires Valid() && timer in timers
      modifies tree, timers
      ensures Valid() && !timer.running
      ensures Queue() == Others(old(Queue()), timer)
      ensures forall t :: t in timers && t != timer ==> t.timeout == old(t.timeout) && t.running == old(t.running)
      ensures Queue() == Apply(old(Queue()), StopTimer(timer))
    {
      hide Rep, PathRep, Distinct, PathDistinct, PathElems, Elems, Focus, RedBlack, At, InOrder, QueueOf, Sorted,
           DropTimer, Members, NoDup, OncePerTimer, Others;
      QueueReads(Times());
      DropOthers(Queue(), timer);
      RunningInTree(timer);
      if !timer.running {
        DropAbsent(Queue(), timer);
        return;
      }
      ghost var time := Times();
      timer.running := false;
      assert Times() == time;
      Unlink(timer);
    }

    lemma RunningInTree(t: Node)
      requires tree.Valid() && tree.nodes <= timers
      ensures Running(Queue(), t) <==> t in tree.nodes
    {
      QueueReads(Times());
      var s := InOrder(tree.shape);
      if t in tree.nodes {
        assert t in Members(s);
        var i :| 0 <= i < |s| && s[i] == t;
        assert Queue()[i].timer == t;
      }
      if Running(Queue(), t) {
        var i :| 0 <= i < |Queue()| && Queue()[i].timer == t;
        assert s[i] in Members(s);
      }
    }

    /** `ogs_timer_add`: a stopped timer from the pool, or null when the pool is empty. */
    method Add() returns (timer: Node?)
      requires Valid()
      modifies this`avail, this`timers
      ensures Valid() && Queue() == old(Queue())
      ensures old(avail) == 0 ==> timer == null && timers == old(timers) && avail == 0
      ensures old(avail) > 0 ==>
                timer != null && fresh(timer) && !timer.running && timers == old(timers) + {timer}
                && avail == old(avail) - 1
    {
      hide Rep, PathRep, Distinct, PathDistinct, PathElems, Elems, Focus, RedBlack, At, InOrder, QueueOf, Sorted,
           Members, NoDup, OncePerTimer;
      if avail == 0 {
        return null;
      }
      avail := avail - 1;
      ghost var time, q := Times(), Queue();
      QueueReads(time);
      timer := new Node();
      assert tree.Valid() && timer !in tree.nodes;
      timers := timers + {timer};
      QueueReads(time);
      assert Queue() == q && Sorted(q);
    }

    /** `ogs_timer_delete`: the timer is stopped and goes back to the pool. */
    method DeleteTimer(timer: Node)
      requires Valid() && timer in timers
      modifies this`avail, this`timers, tree, timers
      ensures Valid() && timers == old(timers) - {timer} && avail == old(avail) + 1
      ensures Queue() == DropTimer(old(Queue()), timer)
    {
      hide Rep, PathRep, Distinct, PathDistinct, PathElems, Elems, Focus, RedBlack, At, InOrder, QueueOf, Sorted,
           Members, NoDup, OncePerTimer;
      Stop(timer);
      ghost var time := Times();
      QueueReads(time);
      avail := avail + 1;
      timers := timers - {timer};
      QueueReads(time);
    }

    /** `ogs_timer_mgr_next`: how long the event loop may sleep. */
    method NextTimeout(now: int) returns (wait: int)
      requires Valid()
      ensures wait == -1 <==> forall t :: t in timers ==> !t.running
      ensures wait == 0 <==> exists t :: t in timers && t.running && t.timeout <= now
      ensures wait != -1 && wait != 0 ==>
                wait > 0 && (exists t :: t in timers && t.running && t.timeout == now + wait) &&
                forall t :: t in timers && t.running ==> now + wait <= t.timeout
    {
      QueueReads(Times());
      ghost var s := InOrder(tree.shape);
      var first := tree.First();
      if first == null {
        assert tree.nodes == {};
        return INFINITE_TIME;
      }
      assert s[0] in Members(s);
      forall t | t in timers && t.running ensures first.timeout <= t.timeout {
        assert t in Members(s);
        var i :| 0 <= i < |s| && s[i] == t;
        assert Queue()[0] == Entry(first, first.timeout) && Queue()[i] == Entry(t, t.timeout);
      }
      if first.timeout > now {
        return first.timeout - now;
      } else {
        return NO_WAIT_TIME;
      }
    }

    /** The collecting loop of `ogs_timer_mgr_expire`. */
    method CollectDue(now: int) returns (list: seq<Node>)
      requires Valid()
      ensures list == TimersOf(Due(Queue(), now)) && forall i :: 0 <= i < |list| ==> list[i] in timers
    {
      hide Rep, PathRep, Distinct, PathDistinct, PathElems, Elems, Focus, RedBlack, At, InOrder, Due, Sorted, QueueOf,
           NoDup, OncePerTimer;
      QueueReads(Times());
      ghost var s, q := InOrder(tree.shape), Queue();
      DueExactly(q, now);
      assert forall i :: 0 <= i < |s| ==> s[i] in Members(s);
      list := [];
      var rbnode := tree.First();
      while rbnode != null && rbnode.timeout <= now
        invariant |list| <= |s| && list == s[..|list|]
        invariant rbnode == if |list| < |s| then s[|list|] else null
        invariant forall i :: 0 <= i < |list| ==> q[i].timeout <= now
        decreases |s| - |list|
      {
        assert q[|list|] == Entry(rbnode, rbnode.timeout);
        assert InOrder(tree.shape)[|list|] == rbnode;
        var next := tree.Next(rbnode, |list|);
        list := list + [rbnode];
        rbnode := next;
      }
      ghost var k := |list|;
      assert k < |s| ==> q[k] == Entry(s[k], s[k].timeout);
      assert k < |s| ==> !(k < |Due(q, now)|);
      assert k > 0 ==> q[k - 1].timeout <= now && k - 1 < |Due(q, now)|;
      assert |Due(q, now)| == k;
    }

    ghost predicate CallsOn(script: seq<Action>)
      reads this`timers
    {
      forall i :: 0 <= i < |script| ==> script[i].timer in timers && (script[i].StartTimer? ==> script[i].duration != 0)
    }

    /** A callback, as the sequence of timer operations it performs. */
    method RunCallback(script: seq<Action>)
      requires Valid() && CallsOn(script)
      modifies tree, timers
      ensures Valid() && timers == old(timers) && Queue() == RunScript(old(Queue()), script)
    {
      hide Apply;
      ghost var q := Queue();
      var i := 0;
      while i < |script|
        invariant 0 <= i <= |script| && Valid() && timers == old(timers) && CallsOn(script)
        invariant RunScript(Queue(), script[i..]) == RunScript(q, script)
      {
        assert script[i..][1..] == script[i + 1..];
        match script[i] {
          case StartTimer(t, clock, duration) => Start(t, clock, duration);
          case StopTimer(t) => Stop(t);
        }
        i := i + 1;
      }
    }

    /** `ogs_timer_mgr_expire`; `fired` logs the callbacks in the order of their calls. */
    method Expire(now: int, cbs: Callbacks) returns (fired: seq<Node>)
      requires Valid() && forall t :: t in cbs ==> CallsOn(cbs[t])
      modifies tree, timers
      ensures Valid() && fired == TimersOf(Due(old(Queue()), now))
      ensures Queue() == FireAll(old(Queue()), fired, cbs) && timers == old(timers)
      ensures forall k :: 0 <= k < |fired| ==>
                fired[k] in timers && (fired[k].running <==> LastBefore(fired[k..], cbs, fired[k], Stopped).Started?)
      ensures forall k :: 0 <= k < |fired| && fired[k].running ==>
                LastBefore(fired[k..], cbs, fired[k], Stopped) == Started(fired[k].timeout)
      ensures forall t :: t in timers && t !in fired ==>
                var op := LastBefore(fired, cbs, t, Untouched);
                (t.running <==> op.Started? || (op.Untouched? && old(t.running)))
                && (t.running ==> t.timeout == if op.Started? then op.due else old(t.timeout))
    {
      hide RunScript, Due, FireAll, LastBefore, Sorted, OncePerTimer, Armed, QueueOf, InOrder, NoDup, Valid, Queue;
      ghost var q := Queue();
      BeforeFiring(now);
      fired := CollectDue(now);
      FireList(fired, cbs);
      ArmedIs();
      AfterFiring(q, fired, cbs);
      forall t | t in timers && t !in fired && LastBefore(fired, cbs, t, Untouched).Untouched?
        ensures t.running == old(t.running) && (t.running ==> t.timeout == old(t.timeout))
      {
        assert Armed(q, t, t.timeout) <==> old(t.running) && old(t.timeout) == t.timeout;
        assert Armed(q, t, old(t.timeout)) <==> old(t.running);
      }
    }

    /** The firing loop. */
    method FireList(list: seq<Node>, cbs: Callbacks)
      requires Valid() && (forall t :: t in cbs ==> CallsOn(cbs[t])) && forall i :: 0 <= i < |list| ==>
                 list[i] in timers
      modifies tree, timers
      ensures Valid() && timers == old(timers) && Queue() == FireAll(old(Queue()), list, cbs)
    {
      hide FireOne, Valid, Queue;
      ghost var q := Queue();
      var i := 0;
      while i < |list|
        invariant 0 <= i <= |list| && Valid() && timers == old(timers)
        invariant FireAll(Queue(), list[i..], cbs) == FireAll(q, list, cbs)
        invariant forall t :: t in cbs ==> CallsOn(cbs[t])
      {
        assert list[i..][1..] == list[i + 1..];
        Fire(list[i], cbs);
        i := i + 1;
      }
    }

    lemma BeforeFiring(now: int)
      requires Valid()
      ensures Sorted(Queue()) && OncePerTimer(Queue()) && NoDup(TimersOf(Due(Queue(), now)))
      ensures forall t, x :: t in timers ==> (Armed(Queue(), t, x) <==> t.running && t.timeout == x)
    {
      ArmedIs();
      QueueReads(Times());
      FiredNoDup(Queue(), now);
    }

    /** One turn: the timer is stopped, and then its callback runs. */
    method Fire(timer: Node, cbs: Callbacks)
      requires Valid() && timer in timers && forall t :: t in cbs ==> CallsOn(cbs[t])
      modifies tree, timers
      ensures Valid() && timers == old(timers) && Queue() == FireOne(old(Queue()), timer, cbs)
    {
      hide RunScript;
      Stop(timer);
      if timer in cbs {
        RunCallback(cbs[timer]);
      } else {
        EmptyScript(Queue());
      }
    }

    /** The queue holds the running timers with their timeouts. */
    lemma ArmedIs()
      requires Valid()
      ensures forall t, x :: t in timers ==> (Armed(Queue(), t, x) <==> t.running && t.timeout == x)
    {
      QueueReads(Times());
      var s := InOrder(tree.shape);
      forall t, x | t in timers ensures Armed(Queue(), t, x) <==> t.running && t.timeout == x {
        if t.running {
          assert t in Members(s);
          var i :| 0 <= i < |s| && s[i] == t;
          assert Queue()[i] == Entry(t, t.timeout);
        }
        if Armed(Queue(), t, x) {
          var i :| 0 <= i < |Queue()| && Queue()[i] == Entry(t, x);
          assert s[i] in Members(s);
        }
      }
    }

    lemma FiredNoDup(q: Queue, now: int)
      requires Sorted(q) && OncePerTimer(q)
      ensures NoDup(TimersOf(Due(q, now)))
    {
      hide Due;
      FiredOnce(q, now);
    }

    lemma AfterFiring(q: Queue, fired: seq<Node>, cbs: Callbacks)
      requires Sorted(q) && OncePerTimer(q) && NoDup(fired) && Queue() == FireAll(q, fired, cbs)
      requires forall t, x :: t in timers ==> (Armed(Queue(), t, x) <==> t.running && t.timeout == x)
      ensures forall k :: 0 <= k < |fired| && fired[k] in timers ==>
                (fired[k].running <==> LastBefore(fired[k..], cbs, fired[k], Stopped).Started?)
                && (fired[k].running ==> LastBefore(fired[k..], cbs, fired[k], Stopped) == Started(fired[k].timeout))
      ensures forall t :: t in timers && t !in fired ==>
                var op := LastBefore(fired, cbs, t, Untouched);
                (op.Started? ==> t.running && t.timeout == op.due) && (op.Stopped? ==> !t.running)
                && (op.Untouched? ==> forall x :: t.running && t.timeout == x <==> Armed(q, t, x))
    {
      hide FireAll, LastBefore, Sorted, OncePerTimer, Armed, NoDup, Queue, Status;
      forall k | 0 <= k < |fired| && fired[k] in timers
        ensures (fired[k].running <==> LastBefore(fired[k..], cbs, fired[k], Stopped).Started?)
        ensures fired[k].running ==> LastBefore(fired[k..], cbs, fired[k], Stopped) == Started(fired[k].timeout)
      {
        DueAfter(q, fired, cbs, k);
        var op := LastBefore(fired[k..], cbs, fired[k], Stopped);
        if op.Started? { assert Armed(Queue(), fired[k], op.due); }
        if fired[k].running { assert Armed(Queue(), fired[k], fired[k].timeout); }
      }
      forall t | t in timers && t !in fired
        ensures var op := LastBefore(fired, cbs, t, Untouched);
                (op.Started? ==> t.running && t.timeout == op.due) && (op.Stopped? ==> !t.running)
                && (op.Untouched? ==> forall x :: t.running && t.timeout == x <==> Armed(q, t, x))
      {
        SelfStatus(q, t);
        OtherAfter(q, fired, cbs, t, Untouched, q);
        var op := LastBefore(fired, cbs, t, Untouched);
        StatusArmed(Queue(), t, op, q);
        if op.Started? { assert Armed(Queue(), t, op.due); }
        if t.running { assert Armed(Queue(), t, t.timeout); }
      }
    }

    lemma StatusArmed(a: Queue, t: Node, op: LastOp, q0: Queue)
      requires Status(a, t, op, q0)
      ensures op.Started? ==> forall x :: Armed(a, t, x) <==> x == op.due
      ensures op.Stopped? ==> forall x :: !Armed(a, t, x)
      ensures op.Untouched? ==> forall x :: Armed(a, t, x) <==> Armed(q0, t, x)
    {}

    lemma EmptyScript(q: Queue)
      ensures RunScript(q, []) == q
    {}
  }
}
