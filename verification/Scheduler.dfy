/**
 How changes are serialised per path. The program keeps one running change per path and hangs every
 later change for that path onto the running one; on completion the dependents are handled again, in
 order. A change may also carry dependents from its creation (a move carries the update of the moved
 file). `Sched` is the state as a value; class `ChangeScheduler` is the object.
 */
module Scheduler {
  import opened Common

  /** `attached`: the dependents, those attached at creation first, then those queued meanwhile. */
  datatype Task = Task(id: nat, path: Path, kind: ChangeType, entry: EntryType, attached: seq<Task>)

  datatype Completion = Completion(path: Path, id: nat)

  /** The running changes, and logs of what was started, absorbed and completed. */
  datatype Sched = Sched(
    current: map<Path, Task>,
    started: seq<Task>,
    absorbed: seq<Task>,
    completed: seq<Completion>)

  /** The creation of a directory is carried out on the spot by creating the path everywhere. */
  predicate Absorbs(t: Task) {
    t.entry == Directory && t.kind == New
  }

  function Handle(s: Sched, t: Task): Sched {
    if Absorbs(t) then s.(absorbed := s.absorbed + [t])
    else if t.path !in s.current then s.(current := s.current[t.path := t], started := s.started + [t])
    else s.(current := s.current[t.path := s.current[t.path].(attached := s.current[t.path].attached + [t])])
  }

  function HandleAll(s: Sched, ts: seq<Task>): Sched
    decreases |ts|
  {
    if ts == [] then s else HandleAll(Handle(s, ts[0]), ts[1..])
  }

  /** The running change leaves the table before its dependents are handled. */
  function Retire(s: Sched, p: Path): Sched
    requires p in s.current
  {
    s.(current := s.current - {p}, completed := s.completed + [Completion(p, s.current[p].id)])
  }

  function Complete(s: Sched, p: Path): Sched
    requires p in s.current
  {
    HandleAll(Retire(s, p), s.current[p].attached)
  }

  const EMPTY := Sched(map[], [], [], [])

  // ---- the specification: one FIFO queue per path ----------------------------------------------

  type Queues = map<Path, seq<Task>>

  function QueueAt(q: Queues, p: Path): seq<Task> {
    if p in q then q[p] else []
  }

  function Enqueue(q: Queues, t: Task): Queues {
    if Absorbs(t) then q else q[t.path := QueueAt(q, t.path) + [t]]
  }

  function EnqueueAll(q: Queues, ts: seq<Task>): Queues
    decreases |ts|
  {
    if ts == [] then q else EnqueueAll(Enqueue(q, ts[0]), ts[1..])
  }

  function Pop(q: Queues, p: Path): Queues
    requires p in q && q[p] != []
  {
    if |q[p]| == 1 then q - {p} else q[p := q[p][1..]]
  }

  /** The head of a queue is done: it leaves, and what was attached to it arrives. */
  function Dequeue(q: Queues, p: Path): Queues
    requires p in q && q[p] != []
  {
    EnqueueAll(Pop(q, p), q[p][0].attached)
  }

  function Only(t: Task, p: Path): seq<Task> {
    if t.path == p && !Absorbs(t) then [t] else []
  }

  /** The changes of a list that will wait at path `p`. */
  function On(ts: seq<Task>, p: Path): seq<Task> {
    if ts == [] then [] else Only(ts[0], p) + On(ts[1..], p)
  }

  /** The nested lists represent the queues: the running change is the head and holds the rest. */
  ghost predicate Represents(current: map<Path, Task>, q: Queues) {
    && current.Keys == q.Keys
    && forall p :: p in q ==>
         && q[p] != []
         && current[p] == q[p][0].(attached := q[p][0].attached + q[p][1..])
         && On(q[p], p) == q[p]
  }

  lemma {:induction false} OnAppend(a: seq<Task>, b: seq<Task>, p: Path)
    ensures On(a + b, p) == On(a, p) + On(b, p)
    decreases |a|
  {
    if a == [] {
      assert a + b == b;
      assert On(b, p) == [] + On(b, p);
    } else {
      OnAppend(a[1..], b, p);
      assert (a + b)[1..] == a[1..] + b;
      Assoc(Only(a[0], p), On(a[1..], p), On(b, p));
    }
  }

  lemma Assoc(a: seq<Task>, b: seq<Task>, c: seq<Task>)
    ensures (a + b) + c == a + (b + c)
  {
  }

  lemma OnOne(t: Task, p: Path)
    ensures On([t], p) == Only(t, p)
  {
    assert [t][1..] == [];
    assert On([], p) == [];
    assert Only(t, p) + [] == Only(t, p);
  }

  /** Changes that wait at one path wait at no other. */
  lemma {:induction false} OnElsewhere(ts: seq<Task>, p: Path, r: Path)
    requires On(ts, p) == ts && p != r
    ensures On(ts, r) == []
    decreases |ts|
  {
    if ts != [] {
      OnLength(ts[1..], p);
      assert ts[0].path == p;
      assert ts == [ts[0]] + ts[1..];
      OnElsewhere(ts[1..], p, r);
    }
  }

  lemma {:induction false} OnLength(ts: seq<Task>, p: Path)
    ensures |On(ts, p)| <= |ts|
    decreases |ts|
  {
    if ts != [] {
      OnLength(ts[1..], p);
    }
  }

  lemma OnTail(ts: seq<Task>, p: Path)
    requires On(ts, p) == ts && ts != []
    ensures On(ts[1..], p) == ts[1..] && ts[0].path == p && !Absorbs(ts[0])
  {
    OnLength(ts[1..], p);
  }

  /** Arrivals extend each queue by exactly the changes for its path, in order. */
  lemma {:induction false} EnqueueAllAt(q: Queues, ts: seq<Task>, p: Path)
    ensures QueueAt(EnqueueAll(q, ts), p) == QueueAt(q, p) + On(ts, p)
    decreases |ts|
  {
    if ts != [] {
      EnqueueAllAt(Enqueue(q, ts[0]), ts[1..], p);
    }
  }

  ghost predicate NoEmptyQueue(q: Queues) {
    forall p :: p in q ==> q[p] != []
  }

  lemma {:induction false} EnqueueAllNoEmpty(q: Queues, ts: seq<Task>)
    requires NoEmptyQueue(q)
    ensures NoEmptyQueue(EnqueueAll(q, ts))
    decreases |ts|
  {
    if ts != [] {
      EnqueueAllNoEmpty(Enqueue(q, ts[0]), ts[1..]);
    }
  }

  lemma SameQueues(a: Queues, b: Queues)
    requires NoEmptyQueue(a) && NoEmptyQueue(b)
    requires forall p :: QueueAt(a, p) == QueueAt(b, p)
    ensures a == b
  {
    assert forall p :: p in a <==> QueueAt(a, p) != [];
    assert forall p :: p in b <==> QueueAt(b, p) != [];
  }

  // ---- one step refines ------------------------------------------------------------------------

  lemma HandleRepresents(s: Sched, q: Queues, t: Task)
    requires Represents(s.current, q)
    ensures Represents(Handle(s, t).current, Enqueue(q, t))
  {
    if !Absorbs(t) {
      OnOne(t, t.path);
      OnAppend(QueueAt(q, t.path), [t], t.path);
      if t.path in q {
        assert (q[t.path] + [t])[1..] == q[t.path][1..] + [t];
        assert q[t.path][0].attached + (q[t.path][1..] + [t]) == s.current[t.path].attached + [t];
      } else {
        assert [] + [t] == [t];
        assert t.attached + [t][1..] == t.attached;
      }
    }
  }

  lemma {:induction false} HandleAllRepresents(s: Sched, q: Queues, ts: seq<Task>)
    requires Represents(s.current, q)
    ensures Represents(HandleAll(s, ts).current, EnqueueAll(q, ts))
    decreases |ts|
  {
    if ts != [] {
      HandleRepresents(s, q, ts[0]);
      HandleAllRepresents(Handle(s, ts[0]), Enqueue(q, ts[0]), ts[1..]);
    }
  }

  /** What a completion really does to the queues: attached changes for the same path overtake the waiting ones. */
  function Requeue(q: Queues, p: Path): Queues
    requires p in q && q[p] != []
  {
    EnqueueAll(q - {p}, q[p][0].attached + q[p][1..])
  }

  lemma RequeueAt(q: Queues, p: Path, r: Path)
    requires p in q && q[p] != [] && On(q[p], p) == q[p]
    ensures QueueAt(Requeue(q, p), r) ==
            if r == p then On(q[p][0].attached, p) + q[p][1..] else QueueAt(q, r) + On(q[p][0].attached, r)
    ensures QueueAt(Dequeue(q, p), r) ==
            if r == p then q[p][1..] + On(q[p][0].attached, p) else QueueAt(q, r) + On(q[p][0].attached, r)
  {
    var att, tail := q[p][0].attached, q[p][1..];
    EnqueueAllAt(q - {p}, att + tail, r);
    EnqueueAllAt(Pop(q, p), att, r);
    OnAppend(att, tail, r);
    OnTail(q[p], p);
    if r != p {
      OnElsewhere(tail, p, r);
    }
  }

  ghost predicate DistinctIds(q: Queues, p: Path)
    requires p in q && q[p] != []
  {
    forall i, j :: 0 <= i < |On(q[p][0].attached, p)| && 1 <= j < |q[p]| ==>
      On(q[p][0].attached, p)[i].id != q[p][j].id
  }

  /**
   A completion is a FIFO dequeue if and only if the finished change carried nothing for its own path,
   or nothing else was waiting there.
   */
  lemma CompletionIsFifoExactly(q: Queues, p: Path)
    requires NoEmptyQueue(q) && p in q && On(q[p], p) == q[p] && DistinctIds(q, p)
    ensures Requeue(q, p) == Dequeue(q, p) <==> On(q[p][0].attached, p) == [] || |q[p]| == 1
  {
    var own, tail := On(q[p][0].attached, p), q[p][1..];
    RequeueAt(q, p, p);
    if own == [] || tail == [] {
      forall r ensures QueueAt(Requeue(q, p), r) == QueueAt(Dequeue(q, p), r) {
        RequeueAt(q, p, r);
        assert own + tail == tail + own;
      }
      EnqueueAllNoEmpty(q - {p}, q[p][0].attached + tail);
      EnqueueAllNoEmpty(Pop(q, p), q[p][0].attached);
      SameQueues(Requeue(q, p), Dequeue(q, p));
    } else {
      assert (own + tail)[0] == own[0] && (tail + own)[0] == q[p][1];
    }
  }

  lemma CompleteRepresents(s: Sched, q: Queues, p: Path)
    requires Represents(s.current, q) && p in q
    ensures Represents(Complete(s, p).current, Requeue(q, p))
  {
    HandleAllRepresents(Retire(s, p), q - {p}, s.current[p].attached);
  }

  // ---- whole runs ------------------------------------------------------------------------------

  datatype Event = Arrive(t: Task) | Done(p: Path)

  /** A task's attached changes target another path, as a move's update does (new path, not old path). */
  ghost predicate CarriesElsewhere(t: Task)
    decreases t
  {
    && On(t.attached, t.path) == []
    && forall i :: 0 <= i < |t.attached| ==> CarriesElsewhere(t.attached[i])
  }

  predicate Enabled(s: Sched, e: Event) {
    e.Done? ==> e.p in s.current
  }

  function Do(s: Sched, e: Event): Sched
    requires Enabled(s, e)
  {
    match e case Arrive(t) => Handle(s, t) case Done(p) => Complete(s, p)
  }

  function Run(es: seq<Event>): Option<Sched> {
    if es == [] then Some(EMPTY)
    else
      var prev := Run(es[..|es| - 1]);
      var e := es[|es| - 1];
      if prev.Some? && Enabled(prev.value, e) then Some(Do(prev.value, e)) else None
  }

  /** The specification run beside it: queues, and the changes that have arrived so far. */
  datatype Fifo = Fifo(queues: Queues, arrived: seq<Task>)

  function DoFifo(f: Fifo, e: Event): Fifo {
    match e
    case Arrive(t) => Fifo(Enqueue(f.queues, t), f.arrived + [t])
    case Done(p) =>
      if p in f.queues && f.queues[p] != [] then
        Fifo(Dequeue(f.queues, p), f.arrived + f.queues[p][0].attached)
      else f
  }

  function RunFifo(es: seq<Event>): Fifo {
    if es == [] then Fifo(map[], [])
    else DoFifo(RunFifo(es[..|es| - 1]), es[|es| - 1])
  }

  function Waiting(q: Queues, p: Path): seq<Task> {
    if p in q && q[p] != [] then q[p][1..] else []
  }

  /** The changes of `p` in the order in which they start: those started, then those in the queue. */
  function Line(started: seq<Task>, q: Queues, p: Path): seq<Task> {
    On(started, p) + Waiting(q, p)
  }

  lemma Empty(ts: seq<Task>)
    ensures ts + [] == ts && [] + ts == ts
  {
  }

  lemma WaitingElsewhere(q: Queues, t: Task, p: Path)
    requires Only(t, p) == []
    ensures Waiting(Enqueue(q, t), p) == Waiting(q, p)
  {
  }

  lemma StartedOn(s: Sched, t: Task, p: Path)
    ensures On(Handle(s, t).started, p) == On(s.started, p) + (if t.path in s.current then [] else Only(t, p))
  {
    OnOne(t, p);
    OnAppend(s.started, [t], p);
    Empty(On(s.started, p));
  }

  lemma HandleOrderQueued(s: Sched, q: Queues, t: Task)
    requires s.current.Keys == q.Keys && !Absorbs(t) && t.path in q && q[t.path] != []
    ensures Line(Handle(s, t).started, Enqueue(q, t), t.path) == Line(s.started, q, t.path) + [t]
  {
    StartedOn(s, t, t.path);
    Empty(On(s.started, t.path));
    assert (q[t.path] + [t])[1..] == q[t.path][1..] + [t];
    Assoc(On(s.started, t.path), q[t.path][1..], [t]);
  }

  lemma HandleOrderStarted(s: Sched, q: Queues, t: Task)
    requires s.current.Keys == q.Keys && !Absorbs(t) && t.path !in q
    ensures Line(Handle(s, t).started, Enqueue(q, t), t.path) == Line(s.started, q, t.path) + [t]
  {
    StartedOn(s, t, t.path);
    Empty(On(s.started, t.path));
    Empty(On(s.started, t.path) + [t]);
    assert ([] + [t])[1..] == [];
  }

  lemma HandleOrder(s: Sched, q: Queues, t: Task, p: Path)
    requires Represents(s.current, q)
    ensures Line(Handle(s, t).started, Enqueue(q, t), p) == Line(s.started, q, p) + Only(t, p)
  {
    if Only(t, p) == [] {
      StartedOn(s, t, p);
      Empty(On(s.started, p));
      WaitingElsewhere(q, t, p);
      Empty(Line(s.started, q, p));
    } else if t.path in q {
      HandleOrderQueued(s, q, t);
    } else {
      HandleOrderStarted(s, q, t);
    }
  }

  lemma {:induction false} HandleAllOrder(s: Sched, q: Queues, ts: seq<Task>, p: Path)
    requires Represents(s.current, q)
    ensures Line(HandleAll(s, ts).started, EnqueueAll(q, ts), p) == Line(s.started, q, p) + On(ts, p)
    decreases |ts|
  {
    if ts == [] {
      assert Line(s.started, q, p) + [] == Line(s.started, q, p);
    } else {
      HandleOrder(s, q, ts[0], p);
      HandleRepresents(s, q, ts[0]);
      HandleAllOrder(Handle(s, ts[0]), Enqueue(q, ts[0]), ts[1..], p);
      Assoc(Line(s.started, q, p), Only(ts[0], p), On(ts[1..], p));
    }
  }

  lemma LineWithoutHere(started: seq<Task>, q: Queues, p: Path)
    requires p in q && q[p] != [] && On(q[p], p) == q[p] && On(q[p][0].attached, p) == []
    ensures Line(started, q - {p}, p) + On(q[p][0].attached + q[p][1..], p)
            == Line(started, q, p) + On(q[p][0].attached, p)
  {
    OnAppend(q[p][0].attached, q[p][1..], p);
    OnTail(q[p], p);
    Empty(q[p][1..]);
    Empty(On(started, p));
    Empty(On(started, p) + q[p][1..]);
  }

  lemma LineWithoutThere(started: seq<Task>, q: Queues, p: Path, r: Path)
    requires p in q && q[p] != [] && On(q[p], p) == q[p] && p != r
    ensures Line(started, q - {p}, r) + On(q[p][0].attached + q[p][1..], r)
            == Line(started, q, r) + On(q[p][0].attached, r)
  {
    OnAppend(q[p][0].attached, q[p][1..], r);
    OnTail(q[p], p);
    OnElsewhere(q[p][1..], p, r);
    Empty(On(q[p][0].attached, r));
    assert Waiting(q - {p}, r) == Waiting(q, r);
  }

  lemma CompleteOrder(s: Sched, q: Queues, arrived: seq<Task>, p: Path, r: Path)
    requires Represents(s.current, q) && p in q && Line(s.started, q, r) == On(arrived, r)
    requires On(q[p][0].attached, p) == []
    ensures Line(Complete(s, p).started, Requeue(q, p), r) == On(arrived + q[p][0].attached, r)
  {
    var att, tail := q[p][0].attached, q[p][1..];
    HandleAllOrder(Retire(s, p), q - {p}, att + tail, r);
    if r == p {
      LineWithoutHere(s.started, q, p);
    } else {
      LineWithoutThere(s.started, q, p, r);
    }
    OnAppend(arrived, att, r);
  }

  ghost predicate AllElsewhere(es: seq<Event>) {
    forall i :: 0 <= i < |es| && es[i].Arrive? ==> CarriesElsewhere(es[i].t)
  }

  ghost predicate QueuesElsewhere(q: Queues) {
    forall p, i :: p in q && 0 <= i < |q[p]| ==> CarriesElsewhere(q[p][i])
  }

  lemma {:induction false} EnqueueAllElsewhere(q: Queues, ts: seq<Task>)
    requires QueuesElsewhere(q) && forall i :: 0 <= i < |ts| ==> CarriesElsewhere(ts[i])
    ensures QueuesElsewhere(EnqueueAll(q, ts))
    decreases |ts|
  {
    if ts != [] {
      EnqueueAllElsewhere(Enqueue(q, ts[0]), ts[1..]);
    }
  }

  lemma NoEmptyRepresented(current: map<Path, Task>, q: Queues)
    requires Represents(current, q)
    ensures NoEmptyQueue(q)
  {
  }

  lemma RequeueIsDequeue(q: Queues, p: Path)
    requires NoEmptyQueue(q) && p in q && On(q[p], p) == q[p] && On(q[p][0].attached, p) == []
    ensures Requeue(q, p) == Dequeue(q, p)
  {
    CompletionIsFifoExactly(q, p);
  }

  /** The relation between the two runs that every step keeps, seen from path `p`. */
  ghost predicate Refines(s: Sched, f: Fifo, p: Path) {
    && Represents(s.current, f.queues)
    && QueuesElsewhere(f.queues)
    && Line(s.started, f.queues, p) == On(f.arrived, p)
  }

  lemma EnqueueElsewhere(q: Queues, t: Task)
    requires QueuesElsewhere(q) && CarriesElsewhere(t)
    ensures QueuesElsewhere(Enqueue(q, t))
  {
  }

  lemma PopElsewhere(q: Queues, p: Path)
    requires QueuesElsewhere(q) && p in q && q[p] != []
    ensures QueuesElsewhere(Pop(q, p)) && CarriesElsewhere(q[p][0])
  {
  }

  lemma ArriveRefines(s: Sched, f: Fifo, t: Task, p: Path)
    requires Refines(s, f, p) && CarriesElsewhere(t)
    ensures Refines(Handle(s, t), DoFifo(f, Arrive(t)), p)
  {
    HandleRepresents(s, f.queues, t);
    HandleOrder(s, f.queues, t, p);
    EnqueueElsewhere(f.queues, t);
    OnAppend(f.arrived, [t], p);
    OnOne(t, p);
  }

  lemma DoneRefines(s: Sched, f: Fifo, r: Path, p: Path)
    requires Refines(s, f, p) && r in s.current
    ensures Refines(Complete(s, r), DoFifo(f, Done(r)), p)
  {
    PopElsewhere(f.queues, r);
    OnTail(f.queues[r], r);
    NoEmptyRepresented(s.current, f.queues);
    RequeueIsDequeue(f.queues, r);
    CompleteRepresents(s, f.queues, r);
    CompleteOrder(s, f.queues, f.arrived, r, p);
    EnqueueAllElsewhere(Pop(f.queues, r), f.queues[r][0].attached);
  }

  /**
   The nested dependents refine one FIFO queue per path, over every run: they represent the queues of the
   specification, and on every path the changes start exactly in the order in which they arrived.
   */
  lemma {:induction false} FifoRefinement(es: seq<Event>, p: Path)
    requires Run(es).Some? && AllElsewhere(es)
    ensures Refines(Run(es).value, RunFifo(es), p)
    decreases |es|
  {
    if es != [] {
      var front, e := es[..|es| - 1], es[|es| - 1];
      assert AllElsewhere(front);
      FifoRefinement(front, p);
      match e
      case Arrive(t) =>
        assert CarriesElsewhere(es[|es| - 1].t);
        ArriveRefines(Run(front).value, RunFifo(front), t, p);
      case Done(r) =>
        DoneRefines(Run(front).value, RunFifo(front), r, p);
    }
  }

  /** Each path is handed one change, and none carries dependents: so in each phase of the initial synchronisation. */
  ghost predicate OncePerPath(es: seq<Event>) {
    && (forall i :: 0 <= i < |es| && es[i].Arrive? ==> es[i].t.attached == [])
    && forall i, j :: 0 <= i < j < |es| && es[i].Arrive? && es[j].Arrive? ==> es[i].t.path != es[j].t.path
  }

  /** Then nothing ever waits, and a completion starts nothing. */
  lemma {:induction false} NothingWaits(es: seq<Event>)
    requires Run(es).Some? && OncePerPath(es)
    ensures var s := Run(es).value;
            && (forall p :: p in s.current ==> exists i :: 0 <= i < |es| && es[i].Arrive? && es[i].t.path == p)
            && (forall p :: p in s.current ==> s.current[p].attached == [] && Complete(s, p) == Retire(s, p))
    decreases |es|
  {
    if es != [] {
      var front, e := es[..|es| - 1], es[|es| - 1];
      NothingWaits(front);
      var before, s := Run(front).value, Run(es).value;
      if e.Done? {
        assert s == Retire(before, e.p);
      } else {
        assert e.t.path !in before.current;
      }
      forall p | p in s.current
        ensures exists i :: 0 <= i < |es| && es[i].Arrive? && es[i].t.path == p
      {
        if p in before.current {
          var i :| 0 <= i < |front| && front[i].Arrive? && front[i].t.path == p;
          assert es[i] == front[i];
        } else {
          assert es[|es| - 1].Arrive? && es[|es| - 1].t.path == p;
        }
      }
    }
  }

  /** The changes that arrive are for some of the paths in `order`, in that order, and carry nothing. */
  predicate Announces(es: seq<Event>, order: seq<Path>)
    decreases |es|
  {
    if es == [] then true
    else if es[|es| - 1].Done? then Announces(es[..|es| - 1], order)
    else
      var t := es[|es| - 1].t;
      t.attached == [] && exists n :: 0 <= n < |order| && order[n] == t.path && Announces(es[..|es| - 1], order[..n])
  }

  /** A loop that visits every path once hands the scheduler one change for each, whatever completes meanwhile. */
  lemma {:induction false} AnnouncedOncePerPath(es: seq<Event>, order: seq<Path>)
    requires NoDuplicates(order) && Announces(es, order)
    ensures OncePerPath(es)
    ensures forall i :: 0 <= i < |es| && es[i].Arrive? ==> es[i].t.path in order
    decreases |es|
  {
    if es != [] {
      var front, e := es[..|es| - 1], es[|es| - 1];
      if e.Done? {
        AnnouncedOncePerPath(front, order);
      } else {
        var n :| 0 <= n < |order| && order[n] == e.t.path && Announces(front, order[..n]);
        AnnouncedOncePerPath(front, order[..n]);
        assert forall i :: 0 <= i < |front| ==> es[i] == front[i];
      }
    }
  }

  /** So in each phase of the initial synchronisation, whose loop visits its paths in some order, nothing waits. */
  lemma PhaseNeverWaits(es: seq<Event>, order: seq<Path>, paths: set<Path>)
    requires Run(es).Some? && Lists(order, paths) && Announces(es, order)
    ensures var s := Run(es).value;
            && s.current.Keys <= paths
            && forall p :: p in s.current ==> s.current[p].attached == [] && Complete(s, p) == Retire(s, p)
  {
    AnnouncedOncePerPath(es, order);
    NothingWaits(es);
  }

  // ---- serialisation and conservation ----------------------------------------------------------

  function StartedIds(ts: seq<Task>, p: Path): seq<nat> {
    if ts == [] then []
    else StartedIds(ts[..|ts| - 1], p) + (if ts[|ts| - 1].path == p then [ts[|ts| - 1].id] else [])
  }

  function CompletedIds(cs: seq<Completion>, p: Path): seq<nat> {
    if cs == [] then []
    else CompletedIds(cs[..|cs| - 1], p) + (if cs[|cs| - 1].path == p then [cs[|cs| - 1].id] else [])
  }

  /** Starts and completions alternate on every path: at most one change of a path is running. */
  ghost predicate Serial(s: Sched, p: Path) {
    StartedIds(s.started, p) == CompletedIds(s.completed, p) + (if p in s.current then [s.current[p].id] else [])
  }

  ghost predicate KeyedByPath(s: Sched) {
    forall p :: p in s.current ==> s.current[p].path == p
  }

  lemma StartedOne(ts: seq<Task>, t: Task, p: Path)
    ensures StartedIds(ts + [t], p) == StartedIds(ts, p) + (if t.path == p then [t.id] else [])
  {
    assert (ts + [t])[..|ts|] == ts;
  }

  lemma HandleSerial(s: Sched, t: Task, p: Path)
    requires Serial(s, p) && KeyedByPath(s)
    ensures Serial(Handle(s, t), p) && KeyedByPath(Handle(s, t))
  {
    StartedOne(s.started, t, p);
  }

  lemma {:induction false} HandleAllSerial(s: Sched, ts: seq<Task>, p: Path)
    requires Serial(s, p) && KeyedByPath(s)
    ensures Serial(HandleAll(s, ts), p) && KeyedByPath(HandleAll(s, ts))
    decreases |ts|
  {
    if ts != [] {
      HandleSerial(s, ts[0], p);
      HandleAllSerial(Handle(s, ts[0]), ts[1..], p);
    }
  }

  lemma {:induction false} OneRunningPerPath(es: seq<Event>, p: Path)
    requires Run(es).Some?
    ensures Serial(Run(es).value, p) && KeyedByPath(Run(es).value)
    decreases |es|
  {
    if es != [] {
      var s, e := Run(es[..|es| - 1]).value, es[|es| - 1];
      OneRunningPerPath(es[..|es| - 1], p);
      match e
      case Arrive(t) =>
        HandleSerial(s, t, p);
      case Done(r) =>
        assert Retire(s, r).completed[..|s.completed|] == s.completed;
        HandleAllSerial(Retire(s, r), s.current[r].attached, p);
    }
  }

  /** When as many changes have completed on each path as were started, the table is empty: the next phase starts afresh. */
  lemma AllCompletedLeavesNothing(es: seq<Event>)
    requires Run(es).Some?
    requires forall p :: |StartedIds(Run(es).value.started, p)| == |CompletedIds(Run(es).value.completed, p)|
    ensures Run(es).value.current == map[]
  {
    var s := Run(es).value;
    forall p
      ensures p !in s.current
    {
      OneRunningPerPath(es, p);
      assert |StartedIds(s.started, p)| == |CompletedIds(s.completed, p)|;
    }
  }

  // ---- what is absorbed ------------------------------------------------------------------------

  predicate CreatesDirectory(t: Task) {
    t.entry == Directory && t.kind == New
  }

  /** What was absorbed creates a directory, and what runs does not. */
  ghost predicate Sorted(s: Sched) {
    && (forall i :: 0 <= i < |s.absorbed| ==> CreatesDirectory(s.absorbed[i]))
    && forall p :: p in s.current ==> !CreatesDirectory(s.current[p])
  }

  lemma {:induction false} HandleAllSorted(s: Sched, ts: seq<Task>)
    requires Sorted(s)
    ensures Sorted(HandleAll(s, ts))
    decreases |ts|
  {
    if ts != [] {
      HandleAllSorted(Handle(s, ts[0]), ts[1..]);
    }
  }

  lemma {:induction false} RunSorted(es: seq<Event>)
    requires Run(es).Some?
    ensures Sorted(Run(es).value)
    decreases |es|
  {
    if es != [] {
      var s, e := Run(es[..|es| - 1]).value, es[|es| - 1];
      RunSorted(es[..|es| - 1]);
      if e.Done? {
        HandleAllSorted(Retire(s, e.p), s.current[e.p].attached);
      }
    }
  }

  /** Over every run, exactly the creations of directories are absorbed. */
  lemma AbsorbedExactly(es: seq<Event>, t: Task)
    requires Run(es).Some?
    ensures forall i :: 0 <= i < |Run(es).value.absorbed| ==>
              Run(es).value.absorbed[i].entry == Directory && Run(es).value.absorbed[i].kind == New
    ensures Run(es + [Arrive(t)]).Some?
    ensures Run(es + [Arrive(t)]).value.absorbed
            == Run(es).value.absorbed + (if t.entry == Directory && t.kind == New then [t] else [])
  {
    RunSorted(es);
    assert (es + [Arrive(t)])[..|es|] == es;
  }

  /** Any other change that arrives while as many changes were completed as started on its path starts at once. */
  lemma StartsWhenIdle(es: seq<Event>, t: Task)
    requires Run(es).Some? && !(t.entry == Directory && t.kind == New)
    ensures var s, s' := Run(es).value, Run(es + [Arrive(t)]);
            && s'.Some?
            && (s'.value.started == s.started + [t]
                <==> |StartedIds(s.started, t.path)| == |CompletedIds(s.completed, t.path)|)
  {
    OneRunningPerPath(es, t.path);
    assert (es + [Arrive(t)])[..|es|] == es;
  }

  /**
   How often a change occurs in a task, in a list of tasks, and among all running tasks. With `deep` off,
   the creation of a directory and what it carries do not count.
   */
  function Occ(t: Task, id: nat, deep: bool): nat
    decreases t, 1
  {
    if !deep && CreatesDirectory(t) then 0 else (if t.id == id then 1 else 0) + OccAll(t.attached, id, deep)
  }

  function OccAll(ts: seq<Task>, id: nat, deep: bool): nat
    decreases ts, 0
  {
    if ts == [] then 0 else Occ(ts[0], id, deep) + OccAll(ts[1..], id, deep)
  }

  ghost function OccLive(m: map<Path, Task>, id: nat, deep: bool): nat
    decreases |m|
  {
    if m == map[] then 0
    else
      var p :| p in m;
      Occ(m[p], id, deep) + OccLive(m - {p}, id, deep)
  }

  lemma {:induction false} OccLiveSplit(m: map<Path, Task>, p: Path, id: nat, deep: bool)
    requires p in m
    ensures OccLive(m, id, deep) == Occ(m[p], id, deep) + OccLive(m - {p}, id, deep)
    decreases |m|
  {
    var r :| r in m && OccLive(m, id, deep) == Occ(m[r], id, deep) + OccLive(m - {r}, id, deep);
    if r != p {
      OccLiveSplit(m - {r}, p, id, deep);
      OccLiveSplit(m - {p}, r, id, deep);
      assert m - {r} - {p} == m - {p} - {r};
    }
  }

  lemma {:induction false} OccAllAppend(a: seq<Task>, b: seq<Task>, id: nat, deep: bool)
    ensures OccAll(a + b, id, deep) == OccAll(a, id, deep) + OccAll(b, id, deep)
    decreases |a|
  {
    if a == [] {
      assert a + b == b;
    } else {
      OccAllAppend(a[1..], b, id, deep);
      assert (a + b)[1..] == a[1..] + b;
    }
  }

  function OccDone(cs: seq<Completion>, id: nat): nat {
    if cs == [] then 0 else OccDone(cs[..|cs| - 1], id) + (if cs[|cs| - 1].id == id then 1 else 0)
  }

  /** Running or waiting, absorbed, and completed occurrences of a change. */
  ghost function OccTotal(s: Sched, id: nat, deep: bool): nat {
    OccLive(s.current, id, deep) + OccAll(s.absorbed, id, deep) + OccDone(s.completed, id)
  }

  lemma HandleConserves(s: Sched, t: Task, id: nat, deep: bool)
    requires Sorted(s)
    ensures OccTotal(Handle(s, t), id, deep) == OccTotal(s, id, deep) + Occ(t, id, deep)
  {
    var s' := Handle(s, t);
    assert OccAll([t], id, deep) == Occ(t, id, deep) + OccAll([t][1..], id, deep);
    if Absorbs(t) {
      OccAllAppend(s.absorbed, [t], id, deep);
    } else {
      OccLiveSplit(s'.current, t.path, id, deep);
      if t.path in s.current {
        OccLiveSplit(s.current, t.path, id, deep);
        OccAllAppend(s.current[t.path].attached, [t], id, deep);
        assert s'.current - {t.path} == s.current - {t.path};
      } else {
        assert s'.current - {t.path} == s.current;
      }
    }
  }

  lemma {:induction false} HandleAllConserves(s: Sched, ts: seq<Task>, id: nat, deep: bool)
    requires Sorted(s)
    ensures OccTotal(HandleAll(s, ts), id, deep) == OccTotal(s, id, deep) + OccAll(ts, id, deep)
    decreases |ts|
  {
    if ts != [] {
      HandleConserves(s, ts[0], id, deep);
      HandleAllConserves(Handle(s, ts[0]), ts[1..], id, deep);
    }
  }

  lemma CompleteConserves(s: Sched, p: Path, id: nat, deep: bool)
    requires Sorted(s) && p in s.current
    ensures OccTotal(Complete(s, p), id, deep) == OccTotal(s, id, deep)
  {
    OccLiveSplit(s.current, p, id, deep);
    assert Retire(s, p).completed[..|s.completed|] == s.completed;
    HandleAllConserves(Retire(s, p), s.current[p].attached, id, deep);
  }

  lemma {:induction false} NothingElseAbsorbed(ts: seq<Task>, id: nat)
    requires forall i :: 0 <= i < |ts| ==> CreatesDirectory(ts[i])
    ensures OccAll(ts, id, false) == 0
    decreases |ts|
  {
    if ts != [] {
      NothingElseAbsorbed(ts[1..], id);
    }
  }

  /** The changes handed to the scheduler from outside, in order. */
  function Accepted(es: seq<Event>): seq<Task> {
    if es == [] then []
    else Accepted(es[..|es| - 1]) + (if es[|es| - 1].Arrive? then [es[|es| - 1].t] else [])
  }

  lemma {:induction false} RunConserves(es: seq<Event>, id: nat, deep: bool)
    requires Run(es).Some?
    ensures OccTotal(Run(es).value, id, deep) == OccAll(Accepted(es), id, deep)
    decreases |es|
  {
    if es != [] {
      var s, e := Run(es[..|es| - 1]).value, es[|es| - 1];
      RunConserves(es[..|es| - 1], id, deep);
      RunSorted(es[..|es| - 1]);
      match e
      case Arrive(t) =>
        HandleConserves(s, t, id, deep);
        OccAllAppend(Accepted(es[..|es| - 1]), [t], id, deep);
        assert OccAll([t], id, deep) == Occ(t, id, deep) + OccAll([t][1..], id, deep);
      case Done(r) =>
        CompleteConserves(s, r, id, deep);
        assert Accepted(es) == Accepted(es[..|es| - 1]);
    }
  }

  /**
   Nothing is lost and nothing is duplicated: in every reachable state each accepted change, including
   those attached to another one, is exactly one of running or waiting, absorbed, completed. One that is no
   creation of a directory, nor carried by one, is running, waiting or completed.
   */
  lemma ChangeConservation(es: seq<Event>, id: nat)
    requires Run(es).Some?
    ensures OccTotal(Run(es).value, id, true) == OccAll(Accepted(es), id, true)
    ensures OccLive(Run(es).value.current, id, false) + OccDone(Run(es).value.completed, id)
            == OccAll(Accepted(es), id, false)
  {
    RunConserves(es, id, true);
    RunConserves(es, id, false);
    RunSorted(es);
    NothingElseAbsorbed(Run(es).value.absorbed, id);
  }

  // ---- the object ------------------------------------------------------------------------------

  class ChangeScheduler {
    var current: map<Path, Task>
    ghost var started: seq<Task>
    ghost var absorbed: seq<Task>
    ghost var completed: seq<Completion>

    ghost function S(): Sched
      reads this
    {
      Sched(current, started, absorbed, completed)
    }

    constructor ()
      ensures S() == EMPTY
    {
      current := map[];
      started, absorbed, completed := [], [], [];
    }

    method HandleChange(t: Task)
      modifies this
      ensures S() == Handle(old(S()), t) && completed == old(completed)
      ensures t.entry == Directory && t.kind == New ==>
                && current == old(current) && started == old(started) && absorbed == old(absorbed) + [t]
      ensures !(t.entry == Directory && t.kind == New) ==>
                && absorbed == old(absorbed)
                && t.path in current
                && current == old(current)[t.path := current[t.path]]
                && (t.path !in old(current) ==> current[t.path] == t && started == old(started) + [t])
                && (t.path in old(current) ==>
                      && started == old(started)
                      && current[t.path].attached == old(current)[t.path].attached + [t]
                      && current[t.path] == old(current)[t.path].(attached := current[t.path].attached))
    {
      if t.entry == Directory && t.kind == New {
        absorbed := absorbed + [t];
        return;
      }
      if t.path !in current {
        StartChange(t.path, t);
      } else {
        current := current[t.path := current[t.path].(attached := current[t.path].attached + [t])];
      }
    }

    method StartChange(path: Path, t: Task)
      modifies this
      ensures S() == old(S()).(current := old(current)[path := t], started := old(started) + [t])
    {
      current := current[path := t];
      started := started + [t];
    }

    /** The completion callback of the change running at `path`. */
    method OnChangeCompleted(path: Path)
      requires path in current
      modifies this
      ensures S() == Complete(old(S()), path)
      ensures completed == old(completed) + [Completion(path, old(current)[path].id)]
    {
      var dependents := current[path].attached;
      completed := completed + [Completion(path, current[path].id)];
      current := current - {path};
      var i := 0;
      while i < |dependents|
        invariant i <= |dependents|
        invariant HandleAll(S(), dependents[i..]) == Complete(old(S()), path)
        invariant completed == old(completed) + [Completion(path, old(current)[path].id)]
      {
        assert dependents[i..][1..] == dependents[i + 1..];
        HandleChange(dependents[i]);
        i := i + 1;
      }
    }
  }
}
