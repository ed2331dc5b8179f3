/**
  The task inbox and the coordinator of a guest run (triq/triq.py).

  The module-level memory channel becomes a `Mailbox` object holding its
  buffered items; one call of `run(app)` becomes a `GuestRun` object holding
  the tasks handed to the nursery, whether the coordinator `_main` is still
  consuming the channel, and whether `app.quit()` was called. Task callables
  and their arguments are abstract handles (type parameters `F` and `A`).
*/
module Triq {
  import opened Optional

  /** Buffer size of the module-level channel (`_MAX_CONCURRENT_TASKS`). */
  const MaxConcurrentTasks: nat := 100

  /** What `call_async(fn, *av)` puts on the channel: the pair `(fn, av)`. */
  datatype Request<F, A> = Request(fn: F, args: seq<A>)

  /** An item of the channel: a request, or the `_EXIT` sentinel. */
  datatype Item<F, A> = Call(request: Request<F, A>) | ExitSentinel

  /** Outcome of `send_nowait`: accepted, or `trio.WouldBlock` on a full buffer. */
  datatype SendResult = Sent | WouldBlock

  /** Outcome of a task body awaited by `run_task`. */
  datatype TaskOutcome<E> = Returned | Raised(error: E)

  /** What leaves `run_task`, and whether `_exception_handler` was reached. */
  datatype Wrapped<E> = Wrapped(escapes: TaskOutcome<E>, handlerCalled: bool)

  /** The outcome trio hands to `done_callback` once `_main` has finished. */
  datatype MainOutcome<E> = Value | Error(error: E)

  predicate NoExit<F, A>(items: seq<Item<F, A>>)
  {
    forall i :: 0 <= i < |items| ==> items[i].Call?
  }

  /** The requests carried by a run of items that holds no sentinel. */
  function Requests<F, A>(items: seq<Item<F, A>>): (rs: seq<Request<F, A>>)
    requires NoExit(items)
    ensures |rs| == |items|
    ensures forall i :: 0 <= i < |items| ==> items[i] == Call(rs[i])
  {
    seq(|items|, i requires 0 <= i < |items| => items[i].request)
  }

  /**
    What the coordinator's `async for` does with the items it finds buffered:
    the requests it starts in the nursery, the items it leaves in the channel,
    and whether it met `_EXIT` and broke out of the loop.
  */
  datatype DrainResult<F, A> = DrainResult(spawned: seq<Request<F, A>>, rest: seq<Item<F, A>>, sawExit: bool)

  /**
    Consume `items` from the front: start every request, stop at the first
    sentinel. The contract pins the result down completely: the spawned
    requests are exactly the items before the first sentinel, in order; the
    sentinel is consumed; everything after it is left untouched; without a
    sentinel, everything is consumed.
  */
  function Drain<F, A>(items: seq<Item<F, A>>): (d: DrainResult<F, A>)
    ensures d.sawExit <==> !NoExit(items)
    ensures |d.spawned| <= |items|
    ensures forall i :: 0 <= i < |d.spawned| ==> items[i] == Call(d.spawned[i])
    ensures d.sawExit ==> items[|d.spawned|] == ExitSentinel && d.rest == items[|d.spawned| + 1..]
    ensures !d.sawExit ==> |d.spawned| == |items| && d.rest == []
  {
    if items == [] then DrainResult([], [], false)
    else
      match items[0]
      case ExitSentinel => DrainResult([], items[1..], true)
      case Call(r) =>
        var d := Drain(items[1..]);
        DrainResult([r] + d.spawned, d.rest, d.sawExit)
  }

  /**
    Draining stops at the first sentinel: whatever was queued after it is
    neither spawned nor removed.
  */
  lemma {:induction false} DrainStopsAtFirstExit<F, A>(before: seq<Item<F, A>>, after: seq<Item<F, A>>)
    requires NoExit(before)
    ensures Drain(before + [ExitSentinel] + after) == DrainResult(Requests(before), after, true)
  {
    if before == [] {
      assert before + [ExitSentinel] + after == [ExitSentinel] + after;
    } else {
      assert (before + [ExitSentinel] + after)[1..] == before[1..] + [ExitSentinel] + after;
      DrainStopsAtFirstExit(before[1..], after);
      assert Requests(before) == [before[0].request] + Requests(before[1..]);
    }
  }

  /**
    Suspending and resuming does not change what is spawned: when the
    coordinator drains a batch without a sentinel, waits, and drains what
    arrives next, it starts the same requests in the same order as if both
    batches had been buffered at once.
  */
  lemma {:induction false} DrainResumes<F, A>(first: seq<Item<F, A>>, later: seq<Item<F, A>>)
    requires NoExit(first)
    ensures Drain(first + later) ==
      DrainResult(Drain(first).spawned + Drain(later).spawned, Drain(later).rest, Drain(later).sawExit)
  {
    if first == [] {
      assert first + later == later;
    } else {
      var r := first[0].request;
      var whole := first + later;
      assert whole[0] == Call(r);
      assert whole[1..] == first[1..] + later;
      var tail := Drain(first[1..] + later);
      DrainResumes(first[1..], later);
      assert Drain(whole) == DrainResult([r] + tail.spawned, tail.rest, tail.sawExit);
      assert Drain(first) == DrainResult([r] + Drain(first[1..]).spawned, [], false);
      var front := Drain(first[1..]).spawned;
      var back := Drain(later).spawned;
      assert tail.spawned == front + back;
      ConcatAssociates([r], front, back);
      assert Drain(first).spawned + back == [r] + tail.spawned;
    }
  }

  /** One step of `Drain`: what it does with the oldest item. */
  lemma DrainUnfolds<F, A>(items: seq<Item<F, A>>)
    requires items != []
    ensures items[0] == ExitSentinel ==> Drain(items) == DrainResult([], items[1..], true)
    ensures items[0].Call? ==>
      Drain(items) == DrainResult([items[0].request] + Drain(items[1..]).spawned, Drain(items[1..]).rest, Drain(items[1..]).sawExit)
  {
  }

  lemma ConcatAssociates<T>(a: seq<T>, b: seq<T>, c: seq<T>)
    ensures a + (b + c) == (a + b) + c
  {
  }

  /** `n` copies of the sentinel, as `n` calls of `exit()` enqueue them. */
  function Exits<F, A>(n: nat): (s: seq<Item<F, A>>)
    ensures |s| == n && forall i :: 0 <= i < n ==> s[i] == ExitSentinel
  {
    seq(n, i => ExitSentinel)
  }

  /**
    Calling `exit()` several times has the same effect on what is spawned as
    calling it once; only the first sentinel is consumed and the others stay
    queued.
  */
  lemma {:induction false} RepeatedExitSpawnsAlike<F, A>(pending: seq<Item<F, A>>, n: nat)
    requires NoExit(pending)
    ensures Drain(pending + Exits(n + 1)).spawned == Drain(pending + Exits(1)).spawned
    ensures Drain(pending + Exits(n + 1)).rest == Exits(n)
    ensures Drain(pending + Exits(n + 1)).sawExit
  {
    assert pending + Exits(n + 1) == pending + [ExitSentinel] + Exits(n);
    assert pending + Exits(1) == pending + [ExitSentinel] + [];
    DrainStopsAtFirstExit(pending, Exits<F, A>(n));
    DrainStopsAtFirstExit(pending, []);
  }

  /**
    `run_task`: the task's exception is caught and re-raised as it is; the
    call of `_exception_handler` after `raise` is never reached.
  */
  function RunTask<E>(body: TaskOutcome<E>): (w: Wrapped<E>)
    ensures w.escapes == body
    ensures !w.handlerCalled
  {
    match body
    case Returned => Wrapped(Returned, false)
    case Raised(err) => Wrapped(Raised(err), false)
  }

  /**
    The module-level channel `_send_channel`/`_receive_channel`. `items` are
    the values sent and not yet taken by the coordinator, oldest first.
    `waiting` says that the coordinator is parked in `receive` on an empty
    channel. A send in that state hands its value straight to the parked
    coordinator instead of buffering it; `handedOff` records that the first
    of `items` arrived that way and so occupies no buffer slot.
  */
  class Mailbox<F, A> {
    var items: seq<Item<F, A>>
    var waiting: bool
    var handedOff: bool

    /** The number of items that occupy the buffer. */
    function Buffered(): (n: int)
      reads this
      ensures handedOff && items != [] ==> n == |items| - 1
      ensures !handedOff ==> n == |items|
    {
      if handedOff then |items| - 1 else |items|
    }

    /**
      The buffer never holds more than `MaxConcurrentTasks` items; a parked
      coordinator implies an empty channel; a handed-off value is the oldest.
    */
    ghost predicate Valid()
      reads this
    {
      && (handedOff ==> items != [])
      && (waiting ==> items == [] && !handedOff)
      && Buffered() <= MaxConcurrentTasks
    }

    /** `send_nowait` succeeds: to the parked receiver, or into a free buffer slot. */
    predicate Accepts()
      reads this
    {
      waiting || Buffered() < MaxConcurrentTasks
    }

    constructor ()
      ensures Valid() && items == [] && !waiting && !handedOff
    {
      items := [];
      waiting := false;
      handedOff := false;
    }

    /**
      `send_nowait`: hand the value to a parked coordinator, else append it
      at the tail of a buffer that has room, else fail with nothing changed.
    */
    method SendNowait(x: Item<F, A>) returns (r: SendResult)
      requires Valid()
      modifies this
      ensures Valid()
      ensures r == Sent <==> old(Accepts())
      ensures items == if r == Sent then old(items) + [x] else old(items)
      ensures !waiting && handedOff == (old(handedOff) || old(waiting))
    {
      if waiting {
        items := items + [x];
        waiting := false;
        handedOff := true;
        r := Sent;
      } else if Buffered() < MaxConcurrentTasks {
        items := items + [x];
        r := Sent;
      } else {
        r := WouldBlock;
      }
    }

    /** `call_async(fn, *av)`: enqueue exactly one request `(fn, av)`. */
    method CallAsync(fn: F, av: seq<A>) returns (r: SendResult)
      requires Valid()
      modifies this
      ensures Valid()
      ensures r == Sent <==> old(Accepts())
      ensures items == if r == Sent then old(items) + [Call(Request(fn, av))] else old(items)
      ensures !waiting && handedOff == (old(handedOff) || old(waiting))
    {
      r := SendNowait(Call(Request(fn, av)));
    }

    /** `exit()`: enqueue exactly one sentinel. */
    method Exit() returns (r: SendResult)
      requires Valid()
      modifies this
      ensures Valid()
      ensures r == Sent <==> old(Accepts())
      ensures items == if r == Sent then old(items) + [ExitSentinel] else old(items)
      ensures !waiting && handedOff == (old(handedOff) || old(waiting))
    {
      r := SendNowait(ExitSentinel);
    }

    /**
      The receiving side: take the oldest item. `None` stands for an empty
      channel, where the coordinator's `async for` parks until a send.
    */
    method TryReceive() returns (x: Option<Item<F, A>>)
      requires Valid()
      modifies this
      ensures Valid() && !handedOff
      ensures old(items) == [] ==> x == None && items == [] && waiting
      ensures old(items) != [] ==> x == Some(old(items)[0]) && items == old(items)[1..] && !waiting
    {
      handedOff := false;
      if items == [] {
        x := None;
        waiting := true;
      } else {
        x := Some(items[0]);
        items := items[1..];
        waiting := false;
      }
    }
  }

  /** The state of one `run(app)`: the nursery's children and the host's quit flag. */
  class GuestRun<F, A> {
    /** Requests passed to `nursery.start_soon`, in the order they were started. */
    var spawned: seq<Request<F, A>>
    /** `_main` is still inside its `async for` over the channel. */
    var consuming: bool
    /** `app.quit()` has been called. */
    var quitCalled: bool

    constructor ()
      ensures spawned == [] && consuming && !quitCalled
    {
      spawned := [];
      consuming := true;
      quitCalled := false;
    }

    /**
      `_main`'s loop, run until it breaks on the sentinel or would suspend on
      an empty channel. Once it has broken out, later calls consume nothing.
    */
    method Dispatch(box: Mailbox<F, A>)
      requires box.Valid()
      modifies this, box
      ensures box.Valid() && quitCalled == old(quitCalled)
      ensures old(consuming) ==>
        var d := Drain(old(box.items));
        && spawned == old(spawned) + d.spawned && box.items == d.rest && consuming == !d.sawExit
        && box.waiting == consuming && !box.handedOff
      ensures !old(consuming) ==> spawned == old(spawned) && unchanged(box) && !consuming
    {
      if !consuming {
        return;
      }
      ghost var d0 := Drain(box.items);
      var idle := false;
      while consuming && !idle
        invariant box.Valid()
        invariant quitCalled == old(quitCalled)
        invariant consuming && !idle ==>
          old(spawned) + d0.spawned == spawned + Drain(box.items).spawned
          && Drain(box.items).rest == d0.rest && Drain(box.items).sawExit == d0.sawExit
        invariant consuming && idle ==>
          spawned == old(spawned) + d0.spawned && box.items == [] && !d0.sawExit && box.waiting && !box.handedOff
        invariant !consuming ==>
          spawned == old(spawned) + d0.spawned && box.items == d0.rest && d0.sawExit && !box.waiting && !box.handedOff
        decreases consuming, !idle, |box.items|
      {
        ghost var before := box.items;
        var x := box.TryReceive();
        match x
        case None =>
          idle := true;
        case Some(ExitSentinel) =>
          DrainUnfolds(before);
          consuming := false;
        case Some(Call(r)) =>
          DrainUnfolds(before);
          ConcatAssociates(spawned, [r], Drain(box.items).spawned);
          spawned := spawned + [r];
      }
    }

    /** `_done`: unwrap the main outcome, then quit the host; an error escapes first. */
    method Done<E>(outcome: MainOutcome<E>) returns (raised: Option<E>)
      modifies this
      ensures quitCalled == (old(quitCalled) || outcome.Value?)
      ensures raised == if outcome.Error? then Some(outcome.error) else None
      ensures spawned == old(spawned) && consuming == old(consuming)
    {
      match outcome
      case Error(err) =>
        raised := Some(err);
      case Value =>
        raised := None;
        quitCalled := true;
    }
  }

  /**
    The scenario of the parallel-execution test: two requests, then `exit()`,
    then one run of the coordinator. Exactly the two requests are spawned, in
    order, and the channel is left empty.
  */
  method TwoCallsThenExit<F, A>(worker: F) returns (spawned: seq<Request<F, A>>, left: nat, stopped: bool)
    ensures spawned == [Request(worker, []), Request(worker, [])]
    ensures left == 0 && stopped
  {
    var box := new Mailbox<F, A>();
    var run := new GuestRun<F, A>();
    var _ := box.CallAsync(worker, []);
    var _ := box.CallAsync(worker, []);
    var _ := box.Exit();
    DrainStopsAtFirstExit<F, A>([Call(Request(worker, [])), Call(Request(worker, []))], []);
    assert box.items == [Call(Request(worker, [])), Call(Request(worker, []))] + [ExitSentinel] + [];
    run.Dispatch(box);
    spawned, left, stopped := run.spawned, |box.items|, !run.consuming;
  }

  /**
    The scenario of the channel test: three requests are started in exactly
    the order they were submitted.
  */
  method SubmissionOrder<F, A>(task1: F, task3: F, task2: F) returns (spawned: seq<Request<F, A>>)
    ensures spawned == [Request(task1, []), Request(task3, []), Request(task2, [])]
  {
    var box := new Mailbox<F, A>();
    var run := new GuestRun<F, A>();
    var _ := box.CallAsync(task1, []);
    var _ := box.CallAsync(task3, []);
    var _ := box.CallAsync(task2, []);
    var _ := box.Exit();
    var pending := [Call(Request(task1, [])), Call(Request(task3, [])), Call(Request(task2, []))];
    DrainStopsAtFirstExit<F, A>(pending, []);
    assert box.items == pending + [ExitSentinel] + [];
    run.Dispatch(box);
    spawned := run.spawned;
  }

  /**
    Calling `exit()` twice: the first run of the coordinator consumes only the
    first sentinel; the second stays queued, and nothing consumes it later.
  */
  method ExitTwice<F, A>(worker: F) returns (spawned: seq<Request<F, A>>, left: seq<Item<F, A>>)
    ensures spawned == [Request(worker, [])]
    ensures left == [ExitSentinel]
  {
    var box := new Mailbox<F, A>();
    var run := new GuestRun<F, A>();
    var _ := box.CallAsync(worker, []);
    var _ := box.Exit();
    var _ := box.Exit();
    DrainStopsAtFirstExit<F, A>([Call(Request(worker, []))], [ExitSentinel]);
    assert box.items == [Call(Request(worker, []))] + [ExitSentinel] + [ExitSentinel];
    run.Dispatch(box);
    run.Dispatch(box);
    spawned, left := run.spawned, box.items;
  }

  /**
    Backpressure: `n` calls of `call_async` on an empty channel that nobody
    receives from yet, as before `run` starts the coordinator. The first `MaxConcurrentTasks` succeed, every later one fails.
  */
  method Burst<F, A>(worker: F, n: nat) returns (results: seq<SendResult>)
    ensures |results| == n
    ensures forall i :: 0 <= i < n ==> (results[i] == Sent <==> i < MaxConcurrentTasks)
  {
    var box := new Mailbox<F, A>();
    results := [];
    var i := 0;
    while i < n
      invariant 0 <= i <= n && |results| == i
      invariant box.Valid() && !box.waiting && !box.handedOff
      invariant |box.items| == if i < MaxConcurrentTasks then i else MaxConcurrentTasks
      invariant forall j :: 0 <= j < i ==> (results[j] == Sent <==> j < MaxConcurrentTasks)
    {
      var r := box.CallAsync(worker, []);
      results := results + [r];
      i := i + 1;
    }
  }

  /**
    Backpressure while the coordinator is parked on an empty channel: the
    first of `n` sends goes straight to it, the next `MaxConcurrentTasks`
    fill the buffer, and every later one fails.
  */
  method BurstWhileWaiting<F, A>(worker: F, n: nat) returns (results: seq<SendResult>)
    ensures |results| == n
    ensures forall i :: 0 <= i < n ==> (results[i] == Sent <==> i <= MaxConcurrentTasks)
  {
    var box := new Mailbox<F, A>();
    var run := new GuestRun<F, A>();
    run.Dispatch(box);
    results := [];
    var i := 0;
    while i < n
      invariant 0 <= i <= n && |results| == i
      invariant box.Valid()
      invariant i == 0 ==> box.waiting && box.items == []
      invariant i > 0 ==> !box.waiting && box.handedOff
      invariant i > 0 ==> |box.items| == if i <= MaxConcurrentTasks then i else MaxConcurrentTasks + 1
      invariant forall j :: 0 <= j < i ==> (results[j] == Sent <==> j <= MaxConcurrentTasks)
    {
      var r := box.CallAsync(worker, []);
      results := results + [r];
      i := i + 1;
    }
  }
}
