/**
 * The fixed-size worker pool of p11-kit (common/tpool.c).
 *
 * Tasks wait in a singly linked FIFO list (head, tail, next pointers) guarded by a lock; each
 * worker thread repeatedly pops the head task, hands its data to the pool's dispatcher and
 * frees the task. Freeing the pool stops the workers and cancels what is still queued.
 *
 * Threads are modelled sequentially: one call of WorkerStep is one iteration of one worker's
 * loop, taken atomically. The heap cells of the list are modelled as an arena `cells` of every
 * task ever queued, in push order, with `next` holding each cell's next pointer. The callbacks
 * of a task and the dispatcher are recorded, in call order, in the event log `log`.
 */
module Tpool {
  import opened Wrappers

  /** A non-null p11_destroyer, as an opaque token. */
  type Callback = nat

  /** struct _p11_tpool_task: the data and its two optional callbacks. */
  datatype Task<D> = Task(data: D, destroyer: Option<Callback>, canceller: Option<Callback>)

  /** A call the pool makes: the dispatcher on a task's data, or one of its callbacks. */
  datatype Event<D> =
    | Dispatched(data: D)
    | Destroyed(fn: Callback, data: D)
    | Cancelled(fn: Callback, data: D)

  /** _p11_tpool_task_free: the destroyer runs on the data if it is set. */
  function FreeEvents<D>(t: Task<D>): seq<Event<D>> {
    if t.destroyer.Some? then [Destroyed(t.destroyer.value, t.data)] else []
  }

  /** One iteration of a worker on task t: dispatch, then free. */
  function RunEvents<D>(t: Task<D>): seq<Event<D>> {
    [Dispatched(t.data)] + FreeEvents(t)
  }

  /** A task left over at p11_tpool_free: the canceller, if set, then the task is freed, so its
      destroyer, if set, runs too. */
  function CancelEvents<D>(t: Task<D>): seq<Event<D>> {
    (if t.canceller.Some? then [Cancelled(t.canceller.value, t.data)] else []) + FreeEvents(t)
  }

  /** Running the tasks ts in order. */
  function RunAll<D>(ts: seq<Task<D>>): seq<Event<D>> {
    if ts == [] then [] else RunEvents(ts[0]) + RunAll(ts[1..])
  }

  /** Cancelling the tasks ts in order. */
  function CancelAll<D>(ts: seq<Task<D>>): seq<Event<D>> {
    if ts == [] then [] else CancelEvents(ts[0]) + CancelAll(ts[1..])
  }

  lemma {:induction false} RunAllAppend<D>(a: seq<Task<D>>, b: seq<Task<D>>)
    ensures RunAll(a + b) == RunAll(a) + RunAll(b)
  {
    if a == [] {
      assert a + b == b;
    } else {
      assert (a + b)[0] == a[0] && (a + b)[1..] == a[1..] + b;
      calc {
        RunAll(a + b);
        RunEvents(a[0]) + RunAll(a[1..] + b);
        { RunAllAppend(a[1..], b); }
        RunEvents(a[0]) + (RunAll(a[1..]) + RunAll(b));
        (RunEvents(a[0]) + RunAll(a[1..])) + RunAll(b);
        RunAll(a) + RunAll(b);
      }
    }
  }

  lemma {:induction false} CancelAllAppend<D>(a: seq<Task<D>>, b: seq<Task<D>>)
    ensures CancelAll(a + b) == CancelAll(a) + CancelAll(b)
  {
    if a == [] {
      assert a + b == b;
    } else {
      assert (a + b)[0] == a[0] && (a + b)[1..] == a[1..] + b;
      calc {
        CancelAll(a + b);
        CancelEvents(a[0]) + CancelAll(a[1..] + b);
        { CancelAllAppend(a[1..], b); }
        CancelEvents(a[0]) + (CancelAll(a[1..]) + CancelAll(b));
        (CancelEvents(a[0]) + CancelAll(a[1..])) + CancelAll(b);
        CancelAll(a) + CancelAll(b);
      }
    }
  }

  /** Running one more task of c extends the log by that task's events. */
  lemma RunAllSnoc<D>(c: seq<Task<D>>, n: nat)
    requires n < |c|
    ensures RunAll(c[..n + 1]) == RunAll(c[..n]) + RunEvents(c[n])
  {
    assert c[..n + 1] == c[..n] + [c[n]];
    RunAllAppend(c[..n], [c[n]]);
    assert RunAll([c[n]]) == RunEvents(c[n]) + RunAll([]);
  }

  /** Cancelling one more task of c extends the log by that task's events. */
  lemma CancelAllSnoc<D>(c: seq<Task<D>>, n: nat)
    requires n < |c|
    ensures CancelAll(c[..n + 1]) == CancelAll(c[..n]) + CancelEvents(c[n])
  {
    assert c[..n + 1] == c[..n] + [c[n]];
    CancelAllAppend(c[..n], [c[n]]);
    assert CancelAll([c[n]]) == CancelEvents(c[n]) + CancelAll([]);
  }

  /** The three kinds of calls, to count them apart. */
  datatype Kind = DispatchKind | DestroyKind | CancelKind

  function KindOf<D>(e: Event<D>): Kind {
    match e
    case Dispatched(_) => DispatchKind
    case Destroyed(_, _) => DestroyKind
    case Cancelled(_, _) => CancelKind
  }

  /** The events of one kind in a log, in order. */
  function Only<D>(log: seq<Event<D>>, k: Kind): seq<Event<D>> {
    if log == [] then []
    else (if KindOf(log[0]) == k then [log[0]] else []) + Only(log[1..], k)
  }

  lemma {:induction false} OnlyAppend<D>(a: seq<Event<D>>, b: seq<Event<D>>, k: Kind)
    ensures Only(a + b, k) == Only(a, k) + Only(b, k)
  {
    if a == [] {
      assert a + b == b;
    } else {
      var h := if KindOf(a[0]) == k then [a[0]] else [];
      assert (a + b)[0] == a[0] && (a + b)[1..] == a[1..] + b;
      calc {
        Only(a + b, k);
        h + Only(a[1..] + b, k);
        { OnlyAppend(a[1..], b, k); }
        h + (Only(a[1..], k) + Only(b, k));
        (h + Only(a[1..], k)) + Only(b, k);
        Only(a, k) + Only(b, k);
      }
    }
  }

  /** One dispatch of each task, in order. */
  function Dispatches<D>(ts: seq<Task<D>>): seq<Event<D>> {
    if ts == [] then [] else [Dispatched(ts[0].data)] + Dispatches(ts[1..])
  }

  /** One destroyer call for each task that has a destroyer, in order. */
  function Destructions<D>(ts: seq<Task<D>>): seq<Event<D>> {
    if ts == [] then [] else FreeEvents(ts[0]) + Destructions(ts[1..])
  }

  /** One canceller call for each task that has a canceller, in order. */
  function Cancellations<D>(ts: seq<Task<D>>): seq<Event<D>> {
    if ts == [] then []
    else
      (if ts[0].canceller.Some? then [Cancelled(ts[0].canceller.value, ts[0].data)] else [])
        + Cancellations(ts[1..])
  }

  lemma {:induction false} DestructionsAppend<D>(a: seq<Task<D>>, b: seq<Task<D>>)
    ensures Destructions(a + b) == Destructions(a) + Destructions(b)
  {
    if a == [] {
      assert a + b == b;
    } else {
      assert (a + b)[1..] == a[1..] + b;
      DestructionsAppend(a[1..], b);
    }
  }

  lemma {:induction false} RunAllOnly<D>(ts: seq<Task<D>>, k: Kind)
    ensures Only(RunAll(ts), k) ==
      match k
      case DispatchKind => Dispatches(ts)
      case DestroyKind => Destructions(ts)
      case CancelKind => []
  {
    if ts != [] {
      RunAllOnly(ts[1..], k);
      OnlyAppend(RunEvents(ts[0]), RunAll(ts[1..]), k);
      OnlyAppend([Dispatched(ts[0].data)], FreeEvents(ts[0]), k);
    }
  }

  /** Running tasks dispatches each exactly once, in order, runs each destroyer exactly once,
      and runs no canceller. */
  lemma RunAllAccounting<D>(ts: seq<Task<D>>)
    ensures Only(RunAll(ts), DispatchKind) == Dispatches(ts)
    ensures Only(RunAll(ts), DestroyKind) == Destructions(ts)
    ensures Only(RunAll(ts), CancelKind) == []
  {
    RunAllOnly(ts, DispatchKind);
    RunAllOnly(ts, DestroyKind);
    RunAllOnly(ts, CancelKind);
  }

  lemma {:induction false} CancelAllNoDispatch<D>(ts: seq<Task<D>>)
    ensures Only(CancelAll(ts), DispatchKind) == []
  {
    if ts != [] {
      var t := ts[0];
      var c := if t.canceller.Some? then [Cancelled(t.canceller.value, t.data)] else [];
      CancelAllNoDispatch(ts[1..]);
      OnlyAppend(CancelEvents(t), CancelAll(ts[1..]), DispatchKind);
      OnlyAppend(c, FreeEvents(t), DispatchKind);
    }
  }

  lemma {:induction false} CancelAllDestroys<D>(ts: seq<Task<D>>)
    ensures Only(CancelAll(ts), DestroyKind) == Destructions(ts)
  {
    if ts != [] {
      var t := ts[0];
      var c := if t.canceller.Some? then [Cancelled(t.canceller.value, t.data)] else [];
      CancelAllDestroys(ts[1..]);
      OnlyAppend(CancelEvents(t), CancelAll(ts[1..]), DestroyKind);
      OnlyAppend(c, FreeEvents(t), DestroyKind);
    }
  }

  lemma {:induction false} CancelAllCancels<D>(ts: seq<Task<D>>)
    ensures Only(CancelAll(ts), CancelKind) == Cancellations(ts)
  {
    if ts != [] {
      var t := ts[0];
      var c := if t.canceller.Some? then [Cancelled(t.canceller.value, t.data)] else [];
      CancelAllCancels(ts[1..]);
      OnlyAppend(CancelEvents(t), CancelAll(ts[1..]), CancelKind);
      OnlyAppend(c, FreeEvents(t), CancelKind);
    }
  }

  /** Cancelling tasks never dispatches them, runs each canceller exactly once and each
      destroyer exactly once. */
  lemma CancelAllAccounting<D>(ts: seq<Task<D>>)
    ensures Only(CancelAll(ts), DispatchKind) == []
    ensures Only(CancelAll(ts), DestroyKind) == Destructions(ts)
    ensures Only(CancelAll(ts), CancelKind) == Cancellations(ts)
  {
    CancelAllNoDispatch(ts);
    CancelAllDestroys(ts);
    CancelAllCancels(ts);
  }

  /** What p11_tpool_free leaves in the log when the first m queued tasks ran and the rest were
      cancelled: each task is dispatched or cancelled, never both, the dispatched ones come
      first and in queue order, and every task's destroyer runs exactly once either way. */
  lemma FreeAccounting<D>(ts: seq<Task<D>>, m: nat)
    requires m <= |ts|
    ensures var log := RunAll(ts[..m]) + CancelAll(ts[m..]);
      && Only(log, DispatchKind) == Dispatches(ts[..m])
      && Only(log, CancelKind) == Cancellations(ts[m..])
      && Only(log, DestroyKind) == Destructions(ts)
  {
    FreeDispatches(ts[..m], ts[m..]);
    FreeCancels(ts[..m], ts[m..]);
    FreeDestroys(ts[..m], ts[m..]);
    DestructionsSplit(ts, m);
  }

  lemma FreeDispatches<D>(r: seq<Task<D>>, c: seq<Task<D>>)
    ensures Only(RunAll(r) + CancelAll(c), DispatchKind) == Dispatches(r)
  {
    OnlyAppend(RunAll(r), CancelAll(c), DispatchKind);
    RunAllOnly(r, DispatchKind);
    CancelAllNoDispatch(c);
  }

  lemma FreeCancels<D>(r: seq<Task<D>>, c: seq<Task<D>>)
    ensures Only(RunAll(r) + CancelAll(c), CancelKind) == Cancellations(c)
  {
    OnlyAppend(RunAll(r), CancelAll(c), CancelKind);
    RunAllOnly(r, CancelKind);
    CancelAllCancels(c);
  }

  lemma FreeDestroys<D>(r: seq<Task<D>>, c: seq<Task<D>>)
    ensures Only(RunAll(r) + CancelAll(c), DestroyKind) == Destructions(r) + Destructions(c)
  {
    OnlyAppend(RunAll(r), CancelAll(c), DestroyKind);
    RunAllOnly(r, DestroyKind);
    CancelAllDestroys(c);
  }

  lemma DestructionsSplit<D>(ts: seq<Task<D>>, m: nat)
    requires m <= |ts|
    ensures Destructions(ts[..m]) + Destructions(ts[m..]) == Destructions(ts)
  {
    DestructionsAppend(ts[..m], ts[m..]);
    assert ts[..m] + ts[m..] == ts;
  }

  /** Stopping an empty queue adds nothing to a log in which every task has run. */
  lemma AllRunLog<D>(l: seq<Event<D>>, c: seq<Task<D>>)
    ensures var e: seq<Task<D>> := [];
      l + RunAll(c) + RunAll(e[..0]) + CancelAll(e[0..]) == l + RunAll(c[..|c|]) + CancelAll(c[|c|..])
  {
    var e: seq<Task<D>> := [];
    assert e[..0] == [] && e[0..] == [] && c[..|c|] == c && c[|c|..] == [];
  }

  /** Tasks pushed without callbacks: running them is just dispatching them, and cancelling
      them makes no call at all. */
  lemma {:induction false} NoCallbacks<D>(ts: seq<Task<D>>)
    requires forall i :: 0 <= i < |ts| ==> ts[i].destroyer.None? && ts[i].canceller.None?
    ensures RunAll(ts) == Dispatches(ts)
    ensures CancelAll(ts) == []
  {
    if ts != [] {
      NoCallbacks(ts[1..]);
    }
  }

  /** The outcome of one _p11_tpool_task_queue_pop. */
  datatype PopResult<D> =
    | Blocked               // the queue is empty and running: the caller sleeps on the condition
    | Popped(task: Task<D>) // the head task was unlinked
    | Closed                // the queue is empty and stopped: NULL is returned

  /** p11_tpool. */
  class Pool<D> {
    var cells: seq<Task<D>>
    var next: seq<Option<nat>>
    var head: Option<nat>
    var tail: Option<nat>
    var running: bool
    const numThreads: nat
    var numStarted: nat
    var log: seq<Event<D>>

    /** The index of the first queued cell; every cell before it has been popped. */
    function Consumed(): nat
      reads this`head, this`cells
    {
      if head.Some? then head.value else |cells|
    }

    /** The queue's linked structure. The tail pointer is never cleared when the last task is
        popped, so it always names the most recently pushed cell; that is harmless because push
        tests head, not tail. The cells from head onwards are linked in push order and the last
        one ends the list. */
    ghost predicate Valid()
      reads this`cells, this`next, this`head, this`tail, this`numStarted
    {
      && |next| == |cells|
      && tail == (if cells == [] then None else Some(|cells| - 1))
      && (head.Some? ==> head.value < |cells|)
      && (forall k :: Consumed() <= k < |cells| - 1 ==> next[k] == Some(k + 1))
      && (cells != [] ==> next[|cells| - 1] == None)
      && numStarted <= numThreads
    }

    /** The tasks waiting in the queue, head first. */
    ghost function Contents(): seq<Task<D>>
      reads this`cells, this`next, this`head, this`tail, this`numStarted
      requires Valid()
    {
      cells[Consumed()..]
    }

    /** The calloc'd pool after _p11_tpool_task_queue_init. */
    constructor (numThreads: nat)
      ensures Valid() && this.numThreads == numThreads
      ensures cells == [] && Contents() == [] && running && numStarted == 0 && log == []
    {
      cells, next := [], [];
      head, tail := None, None;
      running := true;
      this.numThreads := numThreads;
      numStarted := 0;
      log := [];
    }

    /** _p11_tpool_task_queue_push: refused once the queue is stopped; otherwise the task is
        linked at the tail. */
    method QueuePush(t: Task<D>) returns (ok: bool)
      requires Valid()
      modifies this`cells, this`next, this`head, this`tail
      ensures Valid() && ok == running
      ensures ok ==> cells == old(cells) + [t] && Contents() == old(Contents()) + [t]
      ensures !ok ==> cells == old(cells) && next == old(next) && head == old(head)
      ensures Consumed() == old(Consumed())
    {
      if !running {
        return false;
      }
      var idx := |cells|;
      cells, next := cells + [t], next + [None];
      if head.None? {
        head, tail := Some(idx), Some(idx);
      } else {
        next := next[tail.value := Some(idx)];
        tail := Some(idx);
      }
      ok := true;
    }

    /** p11_tpool_push: `allocOk` is whether the task could be allocated. A task the stopped
        queue refuses is dropped without calling either callback. */
    method Push(data: D, destroyer: Option<Callback>, canceller: Option<Callback>, allocOk: bool)
      returns (ok: bool)
      requires Valid()
      modifies this`cells, this`next, this`head, this`tail
      ensures Valid() && (ok <==> allocOk && running)
      ensures ok ==> Contents() == old(Contents()) + [Task(data, destroyer, canceller)]
      ensures ok ==> cells == old(cells) + [Task(data, destroyer, canceller)]
      ensures !ok ==> cells == old(cells) && next == old(next) && head == old(head)
      ensures Consumed() == old(Consumed())
    {
      if !allocOk {
        return false;
      }
      ok := QueuePush(Task(data, destroyer, canceller));
    }

    /** _p11_tpool_task_queue_pop: unlink the head task if there is one. */
    method QueuePop() returns (r: PopResult<D>)
      requires Valid()
      modifies this`head
      ensures Valid()
      ensures r.Popped? <==> old(Contents()) != []
      ensures r.Blocked? <==> old(Contents()) == [] && running
      ensures r.Popped? ==> r.task == old(Contents())[0] && Contents() == old(Contents())[1..]
      ensures r.Popped? ==> Consumed() == old(Consumed()) + 1
      ensures !r.Popped? ==> head == old(head)
    {
      if head.None? {
        return if running then Blocked else Closed;
      }
      var h := head.value;
      head := next[h];
      r := Popped(cells[h]);
    }

    /** The pop, dispatch and free of a worker that has decided to go round its loop once more. */
    method RunOne() returns (r: Option<D>)
      requires Valid()
      modifies this`head, this`log
      ensures Valid()
      ensures old(Contents()) == [] ==> r == None && head == old(head) && log == old(log)
      ensures old(Contents()) != [] ==>
        && r == Some(old(Contents())[0].data)
        && Contents() == old(Contents())[1..]
        && Consumed() == old(Consumed()) + 1
        && log == old(log) + RunEvents(old(Contents())[0])
    {
      var p := QueuePop();
      if p.Popped? {
        log := log + RunEvents(p.task);
        r := Some(p.task.data);
      } else {
        r := None;
      }
    }

    /** A newly created worker of _p11_tpool_dispatch announcing itself (num_started++). */
    method WorkerStart()
      requires Valid() && numStarted < numThreads
      modifies this`numStarted
      ensures Valid() && numStarted == old(numStarted) + 1
    {
      numStarted := numStarted + 1;
    }

    /** One iteration of a started worker's loop: it stops when the queue is no longer running,
        sleeps when there is nothing to do (None), and otherwise runs the head task and returns
        its data. */
    method WorkerStep() returns (r: Option<D>)
      requires Valid()
      modifies this`head, this`log
      ensures Valid()
      ensures !running || old(Contents()) == [] ==> r == None && head == old(head) && log == old(log)
      ensures running && old(Contents()) != [] ==>
        && r == Some(old(Contents())[0].data)
        && Contents() == old(Contents())[1..]
        && Consumed() == old(Consumed()) + 1
        && log == old(log) + RunEvents(old(Contents())[0])
    {
      if !running {
        return None;
      }
      r := RunOne();
    }

    /** The second half of _p11_tpool_wait: while head is not NULL the workers keep running
        the head task. */
    method Drain()
      requires Valid() && running
      modifies this`head, this`log
      ensures Valid() && Contents() == []
      ensures log == old(log) + RunAll(old(Contents()))
    {
      ghost var c := Contents();
      ghost var h := Consumed();
      ghost var n := 0;
      while head.Some?
        invariant Valid() && running && n <= |c| && |cells| == h + |c|
        invariant Consumed() == h + n
        invariant log == old(log) + RunAll(c[..n])
        decreases |c| - n
      {
        ghost var l := log;
        assert Contents() == c[n..];
        var _ := WorkerStep();
        RunAllSnoc(c, n);
        assert log == l + RunEvents(c[n]);
        n := n + 1;
      }
      assert c[..n] == c;
    }

    /** _p11_tpool_wait: wait until every worker has started and the queue is empty, while the
        workers run the queued tasks in order. With no worker and a non-empty queue the source
        waits forever, so that call is excluded. */
    method Wait()
      requires Valid() && running && (numThreads > 0 || Contents() == [])
      modifies this`numStarted, this`head, this`log
      ensures Valid() && Contents() == [] && numStarted == numThreads
      ensures log == old(log) + RunAll(old(Contents()))
    {
      while numStarted < numThreads
        invariant Valid() && head == old(head) && log == old(log)
        decreases numThreads - numStarted
      {
        WorkerStart();
      }
      Drain();
    }

    /** Started workers that had already checked the running flag when p11_tpool_free cleared
        it: each still pops and runs one task, if any is left. */
    method RunInFlight(n: nat) returns (ran: nat)
      requires Valid()
      modifies this`head, this`log
      ensures Valid() && ran == if n < |old(Contents())| then n else |old(Contents())|
      ensures Contents() == old(Contents())[ran..]
      ensures log == old(log) + RunAll(old(Contents())[..ran])
    {
      ghost var c := Contents();
      ghost var h := Consumed();
      ran := 0;
      while ran < n && head.Some?
        invariant Valid() && ran <= n && ran <= |c| && |cells| == h + |c|
        invariant Consumed() == h + ran && Contents() == c[ran..]
        invariant log == old(log) + RunAll(c[..ran])
        decreases n - ran
      {
        ghost var l := log;
        var _ := RunOne();
        assert c[ran..][0] == c[ran];
        RunAllSnoc(c, ran);
        assert log == old(log) + RunAll(c[..ran + 1]) by {
          assert log == l + RunEvents(c[ran]);
        }
        ran := ran + 1;
        assert Contents() == c[ran..];
      }
      assert ran < n ==> Consumed() == |cells|;
    }

    /** The next pointer of a queued cell names the following cell, or ends the list. */
    lemma NextOfQueued(k: nat)
      requires Valid() && Consumed() <= k < |cells|
      ensures next[k] == if k + 1 < |cells| then Some(k + 1) else None
    {
    }

    /** The last walk of p11_tpool_free: every task still linked from head is cancelled, in
        queue order. */
    method CancelQueued()
      requires Valid()
      modifies this`log
      ensures log == old(log) + CancelAll(Contents())
    {
      ghost var c := Contents();
      ghost var h := Consumed();
      var p := head;
      ghost var n := 0;
      while p.Some?
        invariant n <= |c| && |cells| == h + |c|
        invariant p == if n < |c| then Some(h + n) else None
        invariant log == old(log) + CancelAll(c[..n])
        decreases |c| - n
      {
        var t := cells[p.value];
        assert t == c[n];
        NextOfQueued(p.value);
        CancelAllSnoc(c, n);
        assert old(log) + CancelAll(c[..n + 1]) == log + CancelEvents(t);
        log := log + CancelEvents(t);
        p := next[p.value];
        n := n + 1;
      }
      assert c[..n] == c;
    }

    /** The part of p11_tpool_free after the optional wait: the queue is stopped, up to
        `inFlight` started workers that had already checked the running flag still pop and run
        one task each, every thread is joined, and every task still queued is cancelled in
        queue order. */
    method Stop(inFlight: nat)
      requires Valid() && running && inFlight <= numStarted
      modifies this`numStarted, this`head, this`log, this`running
      ensures !running && numStarted == numThreads
      ensures var c := old(Contents());
        var m := if inFlight < |c| then inFlight else |c|;
        log == old(log) + RunAll(c[..m]) + CancelAll(c[m..])
    {
      ghost var c := Contents();
      running := false;
      var ran := RunInFlight(inFlight);
      numStarted := numThreads;
      ghost var l := log;
      assert l == old(log) + RunAll(c[..ran]);
      CancelQueued();
      assert log == l + CancelAll(c[ran..]);
    }

    /** p11_tpool_free. With `wait`, first wait for the queue to drain; then stop the pool. */
    method Free(wait: bool, inFlight: nat)
      requires Valid() && running
      requires wait ==> numThreads > 0 || Contents() == []
      requires inFlight <= (if wait then numThreads else numStarted)
      modifies this`numStarted, this`head, this`log, this`running
      ensures !running && numStarted == numThreads
      ensures var c := old(Contents());
        var m := if wait then |c| else if inFlight < |c| then inFlight else |c|;
        log == old(log) + RunAll(c[..m]) + CancelAll(c[m..])
    {
      ghost var c := Contents();
      if wait {
        Wait();
        Stop(inFlight);
        AllRunLog(old(log), c);
      } else {
        Stop(inFlight);
      }
    }
  }

  /** The thread-creation loop of p11_tpool_new: `creatable` is how many pthread_create calls
      succeed before the first failure. */
  method CreateThreads(numThreads: nat, creatable: nat) returns (ok: bool)
    ensures ok <==> numThreads <= creatable
  {
    var i := 0;
    while i < numThreads
      invariant i <= numThreads && i <= creatable
    {
      if i == creatable {
        return false;
      }
      i := i + 1;
    }
    return true;
  }

  /** How p11_tpool_new as written ends. */
  datatype NewOutcome = Created | ReturnedNull | NullDereference

  /** p11_tpool_new as written: when the calloc of the pool fails, the `fail:` label still reads
      `tpool->threads` through the NULL pool pointer, so that path never returns NULL. */
  method NewPoolAsWritten(numThreads: nat, poolAllocOk: bool, threadsAllocOk: bool, creatable: nat)
    returns (outcome: NewOutcome)
    ensures outcome == NullDereference <==> !poolAllocOk
    ensures outcome == Created <==> poolAllocOk && threadsAllocOk && numThreads <= creatable
  {
    var tpoolIsNull := !poolAllocOk;
    var failed := true;
    if poolAllocOk && threadsAllocOk {
      var threadsOk := CreateThreads(numThreads, creatable);
      failed := !threadsOk;
    }
    if !failed {
      return Created;
    }
    // fail: free (tpool->threads); free (tpool);
    outcome := if tpoolIsNull then NullDereference else ReturnedNull;
  }

  /** p11_tpool_new as intended: every allocation or thread-creation failure returns NULL.
      `poolAllocOk` and `threadsAllocOk` are the outcomes of the two callocs. */
  method NewPool<D>(numThreads: nat, poolAllocOk: bool, threadsAllocOk: bool, creatable: nat)
    returns (p: Pool?<D>)
    ensures p != null <==> poolAllocOk && threadsAllocOk && numThreads <= creatable
    ensures p != null ==> fresh(p) && p.Valid() && p.numThreads == numThreads
    ensures p != null ==> p.Contents() == [] && p.cells == [] && p.running
    ensures p != null ==> p.numStarted == 0 && p.log == []
  {
    if !poolAllocOk || !threadsAllocOk {
      return null;
    }
    var ok := CreateThreads(numThreads, creatable);
    if !ok {
      return null;
    }
    p := new Pool<D>(numThreads);
  }

  /** The push test of common/test-tpool.c: two tasks without callbacks pushed to a pool of ten
      workers and the pool freed with waiting; each item is dispatched exactly once, in push
      order, and no other call is made. */
  method PushThenFreeWaiting() returns (log: seq<Event<nat>>)
    ensures log == [Dispatched(1), Dispatched(2)]
  {
    var p := NewPool<nat>(10, true, true, 10);
    log := PushTwoThenFree(p);
  }

  /** The body of the push test on a freshly created pool. */
  method PushTwoThenFree(p: Pool<nat>) returns (log: seq<Event<nat>>)
    requires p.Valid() && p.running && p.Contents() == [] && p.log == [] && p.numThreads == 10
    modifies p
    ensures log == [Dispatched(1), Dispatched(2)]
  {
    var ok1 := p.Push(1, None, None, true);
    assert p.Contents() == [Task(1, None, None)];
    var ok2 := p.Push(2, None, None, true);
    ghost var ts := [Task(1, None, None), Task(2, None, None)];
    assert p.Contents() == ts;
    p.Free(true, 0);
    PlainTasksLog(ts);
    log := p.log;
  }

  /** Waiting on the two tasks of the push test runs both and cancels none. */
  lemma PlainTasksLog(ts: seq<Task<nat>>)
    requires ts == [Task(1, None, None), Task(2, None, None)]
    ensures [] + RunAll(ts[..|ts|]) + CancelAll(ts[|ts|..]) == [Dispatched(1), Dispatched(2)]
  {
    assert ts[..|ts|] == ts && ts[|ts|..] == [];
    assert CancelAll<nat>([]) == [];
    NoCallbacks(ts);
    assert ts[1..][1..] == [];
    assert Dispatches(ts) == [Dispatched(1)] + ([Dispatched(2)] + Dispatches<nat>([]));
  }
}
