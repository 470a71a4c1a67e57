/**
 The in-flight counter that other threads wait on, as a state machine over its atomic steps: the
 counter changes without the mutex, and only the notification and the waiting take it.
 Each call of `waitUntilIdle` is one waiter. `owed` counts the increments whose decrement has not
 been performed yet; callers decrement only what was incremented before.
 */
module ActiveCount {
  import opened Common

  datatype Worker = Idle | SawZero | Locked | Notified

  datatype Waiter = Arriving | Checking | Sleepy | Asleep | Woken | Leaving | Returned

  datatype Owner = ByWorker(i: nat) | ByWaiter(j: nat)

  datatype State = State(
    count: int,
    owed: nat,
    lock: Option<Owner>,
    workers: map<nat, Worker>,
    waiters: map<nat, Waiter>)

  datatype Step =
    | Increment
    | Decrement(i: nat)        // fetch_sub, remembering whether the counter was one
    | LockToNotify(i: nat)
    | NotifyAll(i: nat)
    | UnlockWorker(i: nat)
    | LockToWait(j: nat)       // on entry, and again after a wake-up
    | Check(j: nat)            // evaluate the predicate while holding the mutex
    | Sleep(j: nat)            // release the mutex and block, atomically
    | Spurious(j: nat)
    | Leave(j: nat)

  predicate WorkerAt(s: State, i: nat, w: Worker) {
    i in s.workers && s.workers[i] == w
  }

  predicate WaiterAt(s: State, j: nat, w: Waiter) {
    j in s.waiters && s.waiters[j] == w
  }

  function Wake(waiters: map<nat, Waiter>): map<nat, Waiter> {
    map j | j in waiters :: if waiters[j] == Asleep then Woken else waiters[j]
  }

  /** The state after a step, or None when the step is not enabled. */
  function Next(s: State, a: Step): Option<State> {
    match a
    case Increment => Some(s.(count := s.count + 1, owed := s.owed + 1))
    case Decrement(i) =>
      if WorkerAt(s, i, Idle) && s.owed > 0 then
        Some(s.(count := s.count - 1, owed := s.owed - 1,
                workers := s.workers[i := if s.count == 1 then SawZero else Idle]))
      else None
    case LockToNotify(i) =>
      if WorkerAt(s, i, SawZero) && s.lock.None? then
        Some(s.(lock := Some(ByWorker(i)), workers := s.workers[i := Locked]))
      else None
    case NotifyAll(i) =>
      if WorkerAt(s, i, Locked) then Some(s.(workers := s.workers[i := Notified], waiters := Wake(s.waiters))) else None
    case UnlockWorker(i) =>
      if WorkerAt(s, i, Notified) then Some(s.(lock := None, workers := s.workers[i := Idle])) else None
    case LockToWait(j) =>
      if (WaiterAt(s, j, Arriving) || WaiterAt(s, j, Woken)) && s.lock.None? then
        Some(s.(lock := Some(ByWaiter(j)), waiters := s.waiters[j := Checking]))
      else None
    case Check(j) =>
      if WaiterAt(s, j, Checking) then
        Some(s.(waiters := s.waiters[j := if s.count == 0 then Leaving else Sleepy]))
      else None
    case Sleep(j) =>
      if WaiterAt(s, j, Sleepy) then Some(s.(lock := None, waiters := s.waiters[j := Asleep])) else None
    case Spurious(j) =>
      if WaiterAt(s, j, Asleep) then Some(s.(waiters := s.waiters[j := Woken])) else None
    case Leave(j) =>
      if WaiterAt(s, j, Leaving) then Some(s.(lock := None, waiters := s.waiters[j := Returned])) else None
  }

  /** The state after a whole run, or None when some step of it was not enabled. */
  function Run(s: State, steps: seq<Step>): Option<State> {
    if steps == [] then Some(s)
    else
      var prev := Run(s, steps[..|steps| - 1]);
      if prev.None? then None else Next(prev.value, steps[|steps| - 1])
  }

  ghost predicate Initial(s: State) {
    && s.count == 0 && s.owed == 0 && s.lock == None
    && (forall i :: i in s.workers ==> s.workers[i] == Idle)
    && (forall j :: j in s.waiters ==> s.waiters[j] == Arriving)
  }

  /** The mutex is held by exactly the thread whose position says so. */
  ghost predicate MutexOk(s: State) {
    && (forall i :: i in s.workers ==> (s.workers[i] in {Locked, Notified} <==> s.lock == Some(ByWorker(i))))
    && (forall j :: j in s.waiters ==> (s.waiters[j] in {Checking, Sleepy, Leaving} <==> s.lock == Some(ByWaiter(j))))
    && (s.lock.Some? ==> match s.lock.value case ByWorker(i) => i in s.workers case ByWaiter(j) => j in s.waiters)
  }

  predicate WillSleep(s: State, j: nat) {
    WaiterAt(s, j, Sleepy) || WaiterAt(s, j, Asleep)
  }

  predicate WillNotify(s: State, i: nat) {
    WorkerAt(s, i, SawZero) || WorkerAt(s, i, Locked)
  }

  ghost predicate NoLostWakeup(s: State) {
    s.count == 0 && (exists j :: WillSleep(s, j)) ==> exists i :: WillNotify(s, i)
  }

  ghost predicate Inv(s: State) {
    s.count == s.owed && MutexOk(s) && NoLostWakeup(s)
  }

  lemma StepKeepsInv(s: State, a: Step, s': State)
    requires Inv(s) && Next(s, a) == Some(s')
    ensures Inv(s')
  {
    if s'.count == 0 && exists j :: WillSleep(s', j) {
      var j :| WillSleep(s', j);
      if a.Decrement? {
        assert s.count == 1 ==> WillNotify(s', a.i);
      }
      if s.count == 0 && WillSleep(s, j) && !a.NotifyAll? {
        var i :| WillNotify(s, i);
        assert WillNotify(s', i);
      }
    }
  }

  lemma {:induction false} ReachableInv(s: State, steps: seq<Step>)
    requires Initial(s) && Run(s, steps).Some?
    ensures Inv(Run(s, steps).value)
    decreases |steps|
  {
    if steps != [] {
      ReachableInv(s, steps[..|steps| - 1]);
      StepKeepsInv(Run(s, steps[..|steps| - 1]).value, steps[|steps| - 1], Run(s, steps).value);
    }
  }

  /**
   In every reachable state with count zero and a waiter asleep or about to sleep, some decrementer
   is still before its notification.
   */
  lemma NoWakeupIsLost(s: State, steps: seq<Step>, j: nat)
    requires Initial(s) && Run(s, steps).Some?
    requires Run(s, steps).value.count == 0 && WillSleep(Run(s, steps).value, j)
    ensures exists i :: WillNotify(Run(s, steps).value, i)
  {
    ReachableInv(s, steps);
  }

  /** A waiter that returned evaluated its predicate, during the run, at an instant when the count was zero. */
  lemma {:induction false} ReturnedSawZero(s: State, steps: seq<Step>, j: nat)
    requires Initial(s) && Run(s, steps).Some?
    requires WaiterAt(Run(s, steps).value, j, Returned) || WaiterAt(Run(s, steps).value, j, Leaving)
    ensures exists k :: 0 <= k < |steps| && steps[k] == Check(j)
                        && Run(s, steps[..k]).Some? && Run(s, steps[..k]).value.count == 0
    decreases |steps|
  {
    assert steps != [];
    var front := steps[..|steps| - 1];
    var prev := Run(s, front).value;
    if WaiterAt(prev, j, Returned) || WaiterAt(prev, j, Leaving) {
      ReturnedSawZero(s, front, j);
      var k :| 0 <= k < |front| && front[k] == Check(j)
               && Run(s, front[..k]).Some? && Run(s, front[..k]).value.count == 0;
      assert front[..k] == steps[..k];
    } else {
      assert steps[|steps| - 1] == Check(j);
      assert steps[..|steps| - 1] == front;
    }
  }

  predicate Progress(a: Step) {
    !a.Increment? && !a.Decrement? && !a.Spurious?
  }

  /**
   No stuck state: while the count is zero, a waiter that has not returned can never be left with no
   thread able to take a step on its own (increments, decrements and spurious wake-ups aside).
   */
  lemma NeverStuckAtZero(s: State, steps: seq<Step>, j: nat)
    requires Initial(s) && Run(s, steps).Some?
    requires Run(s, steps).value.count == 0
    requires j in Run(s, steps).value.waiters && Run(s, steps).value.waiters[j] != Returned
    ensures exists a :: Progress(a) && Next(Run(s, steps).value, a).Some?
  {
    ReachableInv(s, steps);
    var e := Run(s, steps).value;
    if e.lock.Some? {
      match e.lock.value {
        case ByWorker(i) =>
          var a := if e.workers[i] == Locked then NotifyAll(i) else UnlockWorker(i);
          assert Progress(a) && Next(e, a).Some?;
        case ByWaiter(k) =>
          var a := match e.waiters[k] case Checking => Check(k) case Sleepy => Sleep(k) case _ => Leave(k);
          assert Progress(a) && Next(e, a).Some?;
      }
    } else if WillSleep(e, j) {
      var i :| WillNotify(e, i);
      assert Progress(LockToNotify(i)) && Next(e, LockToNotify(i)).Some?;
    } else {
      assert Progress(LockToWait(j)) && Next(e, LockToWait(j)).Some?;
    }
  }
}
