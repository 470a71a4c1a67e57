/**
 The executor of local commands and completion callbacks: one queue, one worker. `C` is the type of
 commands; what a callback does is the subject of the other modules, here it is only recorded.
 */
module CallbackDispatcher {
  import opened Common
  import opened ThreadSafeQueue

  class CallbackDispatcher<C> {
    const queue: Queue<C>
    var count: int
    var running: bool
    ghost var submitted: seq<C>
    ghost var called: seq<C>

    /** Every submitted command was called back or waits, in order; the counter covers those that wait. */
    ghost predicate Valid()
      reads this, queue
    {
      && submitted == called + queue.items
      && count == |queue.items|
    }

    constructor ()
      ensures Valid() && !running && submitted == [] && called == [] && fresh(queue) && !queue.closed
    {
      queue := new Queue();
      count, running := 0, false;
      submitted, called := [], [];
    }

    method Start()
      modifies this`running
      ensures running
    {
      running := true;
    }

    method Submit(c: C)
      requires Valid()
      modifies this`count, this`submitted, queue
      ensures Valid() && queue.closed == old(queue.closed)
      ensures submitted == old(submitted) + [c] && called == old(called)
    {
      count := count + 1;
      queue.Push(c);
      submitted := submitted + [c];
    }

    /** One turn of the worker; it ends when the queue is closed and nothing is left in it. */
    method WorkerTurn() returns (go: bool)
      requires Valid() && (queue.items != [] || queue.closed)
      modifies this`count, this`called, queue
      ensures Valid() && queue.closed == old(queue.closed)
      ensures go <==> old(queue.items) != []
      ensures go ==> called == old(called) + [old(queue.items)[0]] && queue.items == old(queue.items)[1..]
      ensures !go ==> called == old(called) && queue.items == []
    {
      var c := queue.Pop();
      go := c.Some?;
      if go {
        called := called + [c.value];
        count := count - 1;
      }
    }

    /** Closing the queue does not discard it: every command submitted so far is called back, in order, once. */
    method Finish()
      requires Valid()
      modifies this`count, this`called, this`running, queue
      ensures Valid() && !running
      ensures old(running) ==> queue.closed && queue.items == [] && called == submitted && count == 0
      ensures !old(running) ==> called == old(called) && queue.items == old(queue.items) && count == old(count)
    {
      if !running {
        return;
      }
      running := false;
      queue.Close();
      var go := true;
      while go
        invariant Valid() && queue.closed && !running
        invariant !go ==> queue.items == []
        modifies this`count, this`called, queue
        decreases go, |queue.items|
      {
        go := WorkerTurn();
      }
    }
  }
}
