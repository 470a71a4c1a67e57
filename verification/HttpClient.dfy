/**
 The request pool: requests wait in a queue, are in flight inside the transfer engine, or wait out a
 retry delay. The counter that `waitUntilIdle` watches must cover all of them. `Pool` is the state as
 a value, with a ledger of what became of every accepted request; class `HttpClient` is the object.
 */
module HttpClient {
  import opened Common
  import opened ThreadSafeQueue

  const MAX_CONCURRENT := 120
  const MAX_RETRIES := 6

  /** `id` stands for the request's own easy handle. */
  datatype Request = Request(id: nat, retries: nat, timer: int)

  /** How a transfer ended: the engine failed, or the server answered with a status code. */
  datatype Outcome = TransferError | Status(code: int)

  datatype Pool = Pool(
    queue: seq<Request>,
    active: map<nat, Request>,
    delayed: seq<Request>,
    count: int,
    accepted: seq<nat>,
    handed: seq<nat>,
    failed: seq<nat>,
    dropped: seq<nat>)

  predicate Retryable(code: int) {
    code == 403 || code == 429 || code == 408 || 500 <= code < 600
  }

  // ---- atomic steps ----------------------------------------------------------------------------

  function Submit(p: Pool, r: Request): Pool {
    p.(count := p.count + 1, queue := p.queue + [r], accepted := p.accepted + [r.id])
  }

  /** The popped request joins the transfers without a look at the limit. */
  function Take(p: Pool): Pool
    requires p.queue != []
  {
    p.(queue := p.queue[1..], active := p.active[p.queue[0].id := p.queue[0]])
  }

  /** The limit is tested after the pop, so a request popped at the limit is destroyed. */
  function Admit(p: Pool): Pool
    requires p.queue != []
  {
    if p.count < MAX_CONCURRENT then Take(p)
    else p.(queue := p.queue[1..], dropped := p.dropped + [p.queue[0].id])
  }

  /** Scheduling the seventh retry throws before the request has moved. */
  predicate Throws(p: Pool, id: nat, o: Outcome)
    requires id in p.active
  {
    o.Status? && Retryable(o.code) && p.active[id].retries + 1 > MAX_RETRIES
  }

  function Complete(p: Pool, id: nat, o: Outcome, timer: int): Pool
    requires id in p.active && !Throws(p, id, o)
  {
    var r := p.active[id];
    var p' := p.(active := p.active - {id});
    if o.TransferError? then p'.(count := p.count - 1, failed := p.failed + [id])
    else if Retryable(o.code) then p'.(delayed := p.delayed + [r.(retries := r.retries + 1, timer := timer)])
    else if o.code != 200 then p'.(count := p.count - 1, failed := p.failed + [id])
    else p'.(count := p.count - 1, handed := p.handed + [id])
  }

  /** A delayed request whose timer has run out goes back to the end of the queue. */
  function Release(p: Pool, i: nat): Pool
    requires i < |p.delayed|
  {
    p.(queue := p.queue + [p.delayed[i]], delayed := p.delayed[..i] + p.delayed[i + 1..])
  }

  // ---- conservation ----------------------------------------------------------------------------

  function Occ(s: seq<nat>, x: nat): nat {
    if s == [] then 0 else Occ(s[..|s| - 1], x) + One(s[|s| - 1], x)
  }

  function One(x: nat, y: nat): nat {
    if x == y then 1 else 0
  }

  function Ids(rs: seq<Request>): seq<nat> {
    seq(|rs|, i requires 0 <= i < |rs| => rs[i].id)
  }

  /** How often a request is waiting, in flight, or has ended. */
  function Where(p: Pool, id: nat): nat {
    Occ(Ids(p.queue), id) + (if id in p.active then 1 else 0) + Occ(Ids(p.delayed), id)
    + Occ(p.handed, id) + Occ(p.failed, id)
  }

  ghost predicate Conserved(p: Pool) {
    && p.count == |p.queue| + |p.active| + |p.delayed| + |p.dropped|
    && (forall id :: Where(p, id) + Occ(p.dropped, id) == Occ(p.accepted, id))
    && (forall id :: Occ(p.accepted, id) <= 1)
    && (forall id :: id in p.active ==> p.active[id].id == id)
  }

  lemma Logged(s: seq<nat>, x: nat, id: nat)
    ensures Occ(s + [x], id) == Occ(s, id) + One(x, id)
  {
    assert (s + [x])[..|s|] == s;
  }

  lemma {:induction false} OccMember(s: seq<nat>, x: nat)
    ensures Occ(s, x) > 0 <==> x in s
  {
    if s != [] {
      OccMember(s[..|s| - 1], x);
      assert s == s[..|s| - 1] + [s[|s| - 1]];
    }
  }

  lemma Appended(rs: seq<Request>, r: Request, id: nat)
    ensures Occ(Ids(rs + [r]), id) == Occ(Ids(rs), id) + One(r.id, id)
  {
    assert Ids(rs + [r]) == Ids(rs) + [r.id];
    Logged(Ids(rs), r.id, id);
  }

  lemma {:induction false} Removed(rs: seq<Request>, i: nat, id: nat)
    requires i < |rs|
    ensures Occ(Ids(rs), id) == Occ(Ids(rs[..i] + rs[i + 1..]), id) + One(rs[i].id, id)
    decreases |rs|
  {
    var last := |rs| - 1;
    assert rs == rs[..last] + [rs[last]];
    Appended(rs[..last], rs[last], id);
    if i < last {
      Removed(rs[..last], i, id);
      assert rs[..i] + rs[i + 1..] == (rs[..last][..i] + rs[..last][i + 1..]) + [rs[last]];
      Appended(rs[..last][..i] + rs[..last][i + 1..], rs[last], id);
    } else {
      assert rs[..i] + rs[i + 1..] == rs[..last];
    }
  }

  lemma SubmitConserves(p: Pool, r: Request)
    requires Conserved(p) && r.id !in p.accepted
    ensures Conserved(Submit(p, r))
  {
    OccMember(p.accepted, r.id);
    forall id
      ensures Where(Submit(p, r), id) + Occ(p.dropped, id) == Occ(Submit(p, r).accepted, id) <= 1
    {
      assert Where(p, id) + Occ(p.dropped, id) == Occ(p.accepted, id) <= 1;
      Appended(p.queue, r, id);
      Logged(p.accepted, r.id, id);
    }
  }

  lemma HeadIsNotActive(p: Pool)
    requires Conserved(p) && p.queue != []
    ensures p.queue[0].id !in p.active
  {
    var q := p.queue[0].id;
    Removed(p.queue, 0, q);
    assert Where(p, q) + Occ(p.dropped, q) == Occ(p.accepted, q) <= 1;
  }

  lemma TakeMoves(p: Pool, id: nat)
    requires p.queue != [] && p.queue[0].id !in p.active
    ensures Where(Take(p), id) == Where(p, id)
  {
    assert p.queue[..0] + p.queue[1..] == p.queue[1..];
    Removed(p.queue, 0, id);
  }

  lemma TakeConserves(p: Pool)
    requires Conserved(p) && p.queue != []
    ensures Conserved(Take(p))
  {
    HeadIsNotActive(p);
    assert Take(p).active.Keys == p.active.Keys + {p.queue[0].id};
    forall id { TakeMoves(p, id); }
  }

  lemma DropMoves(p: Pool, id: nat)
    requires p.queue != [] && p.count >= MAX_CONCURRENT
    ensures Where(Admit(p), id) + Occ(Admit(p).dropped, id) == Where(p, id) + Occ(p.dropped, id)
  {
    assert p.queue[..0] + p.queue[1..] == p.queue[1..];
    Removed(p.queue, 0, id);
    Logged(p.dropped, p.queue[0].id, id);
  }

  lemma AdmitConserves(p: Pool)
    requires Conserved(p) && p.queue != []
    ensures Conserved(Admit(p))
  {
    if p.count < MAX_CONCURRENT {
      TakeConserves(p);
    } else {
      forall id { DropMoves(p, id); }
    }
  }

  lemma CompleteMoves(p: Pool, id: nat, o: Outcome, timer: int, k: nat)
    requires id in p.active && !Throws(p, id, o) && p.active[id].id == id
    ensures Where(Complete(p, id, o, timer), k) == Where(p, k)
  {
    if o.Status? && Retryable(o.code) {
      Appended(p.delayed, p.active[id].(retries := p.active[id].retries + 1, timer := timer), k);
    } else if o.Status? && o.code == 200 {
      Logged(p.handed, id, k);
    } else {
      Logged(p.failed, id, k);
    }
  }

  lemma CompleteConserves(p: Pool, id: nat, o: Outcome, timer: int)
    requires Conserved(p) && id in p.active && !Throws(p, id, o)
    ensures Conserved(Complete(p, id, o, timer))
  {
    var p' := Complete(p, id, o, timer);
    assert p.active.Keys == p'.active.Keys + {id};
    assert |p.active.Keys| == |p'.active.Keys| + 1;
    forall k { CompleteMoves(p, id, o, timer, k); }
  }

  lemma ReleaseConserves(p: Pool, i: nat)
    requires Conserved(p) && i < |p.delayed|
    ensures Conserved(Release(p, i))
  {
    forall id
      ensures Where(Release(p, i), id) == Where(p, id)
    {
      Removed(p.delayed, i, id);
      Appended(p.queue, p.delayed[i], id);
    }
  }

  // ---- whole runs ------------------------------------------------------------------------------

  datatype Step =
    | DoSubmit(r: Request)
    | DoTake
    | DoAdmit
    | DoComplete(id: nat, o: Outcome, timer: int)
    | DoRelease(i: nat)

  /** A request is submitted once: its command is moved into the pool. */
  predicate Enabled(p: Pool, s: Step) {
    match s
    case DoSubmit(r) => r.id !in p.accepted
    case DoTake => p.queue != []
    case DoAdmit => p.queue != []
    case DoComplete(id, o, _) => id in p.active && !Throws(p, id, o)
    case DoRelease(i) => i < |p.delayed|
  }

  function Do(p: Pool, s: Step): Pool
    requires Enabled(p, s)
  {
    match s
    case DoSubmit(r) => Submit(p, r)
    case DoTake => Take(p)
    case DoAdmit => Admit(p)
    case DoComplete(id, o, timer) => Complete(p, id, o, timer)
    case DoRelease(i) => Release(p, i)
  }

  const EMPTY := Pool([], map[], [], 0, [], [], [], [])

  function Run(steps: seq<Step>): Option<Pool> {
    if steps == [] then Some(EMPTY)
    else
      var prev := Run(steps[..|steps| - 1]);
      var s := steps[|steps| - 1];
      if prev.Some? && Enabled(prev.value, s) then Some(Do(prev.value, s)) else None
  }

  lemma {:induction false} RunConserves(steps: seq<Step>)
    requires Run(steps).Some?
    ensures Conserved(Run(steps).value)
    decreases |steps|
  {
    if steps != [] {
      var prev := Run(steps[..|steps| - 1]).value;
      RunConserves(steps[..|steps| - 1]);
      match steps[|steps| - 1]
      case DoSubmit(r) => SubmitConserves(prev, r);
      case DoTake => TakeConserves(prev);
      case DoAdmit => AdmitConserves(prev);
      case DoComplete(id, o, timer) => CompleteConserves(prev, id, o, timer);
      case DoRelease(i) => ReleaseConserves(prev, i);
    }
  }

  predicate BelowLimit(steps: seq<Step>) {
    forall k :: 0 <= k <= |steps| ==> Run(steps[..k]).Some? && Run(steps[..k]).value.count < MAX_CONCURRENT
  }

  lemma {:induction false} BelowLimitDropsNothing(steps: seq<Step>)
    requires BelowLimit(steps)
    ensures Run(steps).Some? && Run(steps).value.dropped == []
    decreases |steps|
  {
    assert steps[..|steps|] == steps;
    if steps != [] {
      var front := steps[..|steps| - 1];
      forall k | 0 <= k <= |front|
        ensures Run(front[..k]).Some? && Run(front[..k]).value.count < MAX_CONCURRENT
      {
        assert front[..k] == steps[..k];
      }
      BelowLimitDropsNothing(front);
      assert front[..|front|] == front;
    }
  }

  /**
   While fewer than 120 requests are outstanding, through any interleaving and any number of retry
   cycles: the counter is queued plus in flight plus delayed, and every accepted request is in exactly
   one place: waiting in one of those three, handed to the dispatcher once, or failed once.
   */
  lemma PoolConservation(steps: seq<Step>, id: nat)
    requires BelowLimit(steps)
    ensures Run(steps).Some?
    ensures var p := Run(steps).value;
            && p.count == |p.queue| + |p.active| + |p.delayed|
            && (id in p.accepted ==> Where(p, id) == 1)
            && (id !in p.accepted ==> Where(p, id) == 0)
  {
    BelowLimitDropsNothing(steps);
    RunConserves(steps);
    var p := Run(steps).value;
    assert Where(p, id) + Occ(p.dropped, id) == Occ(p.accepted, id) <= 1;
    OccMember(p.accepted, id);
  }

  /** The transfer of `id` ended with an answer that hands it over, or with one that fails it for good. */
  predicate Succeeds(s: Step, id: nat) {
    s.DoComplete? && s.id == id && s.o == Status(200)
  }

  predicate Fails(s: Step, id: nat) {
    && s.DoComplete? && s.id == id && s.o != Status(200)
    && (s.o.Status? ==> s.o.code !in {403, 408, 429} && !(500 <= s.o.code < 600))
  }

  /**
   Over every run a request was handed over exactly if a transfer of it was answered with 200, and has failed exactly
   if one ended in an error or was answered with a code that is not retried.
   */
  lemma {:induction false} OutcomesExact(steps: seq<Step>, id: nat)
    requires Run(steps).Some?
    ensures id in Run(steps).value.handed <==> exists k :: 0 <= k < |steps| && Succeeds(steps[k], id)
    ensures id in Run(steps).value.failed <==> exists k :: 0 <= k < |steps| && Fails(steps[k], id)
    decreases |steps|
  {
    if steps != [] {
      var front, s := steps[..|steps| - 1], steps[|steps| - 1];
      OutcomesExact(front, id);
      var p, p' := Run(front).value, Run(steps).value;
      assert steps == front + [s];
      assert id in p'.handed <==> id in p.handed || Succeeds(s, id);
      assert id in p'.failed <==> id in p.failed || Fails(s, id);
    }
  }

  /** In general the counter exceeds the live requests by exactly the number destroyed at the limit. */
  lemma IdleExactly(steps: seq<Step>)
    requires Run(steps).Some?
    ensures var p := Run(steps).value;
            p.count == 0 <==> p.queue == [] && p.active == map[] && p.delayed == [] && p.dropped == []
  {
    RunConserves(steps);
    var p := Run(steps).value;
    assert |p.active| == 0 <==> p.active == map[];
  }

  /** The idle worker takes the first of `n` requests, and the others are submitted before it looks again. */
  function Burst(n: nat): seq<Step>
    requires n > 0
  {
    if n == 1 then [DoSubmit(Request(0, 0, 0)), DoTake] else Burst(n - 1) + [DoSubmit(Request(n - 1, 0, 0))]
  }

  lemma {:induction false} BurstQueues(n: nat)
    requires n > 0
    ensures Run(Burst(n)).Some?
    ensures var p := Run(Burst(n)).value;
            && p.count == n == |p.queue| + 1 && p.active.Keys == {0} && p.dropped == []
            && (n > 1 ==> p.queue[0].id == 1 && 1 in p.accepted) && forall id :: id in p.accepted ==> id < n
  {
    if n == 1 {
      var first := [DoSubmit(Request(0, 0, 0))];
      assert Burst(1)[..1] == first && first[..0] == [];
      assert Run(first) == Some(Submit(EMPTY, Request(0, 0, 0)));
      assert Run(Burst(1)) == Some(Take(Submit(EMPTY, Request(0, 0, 0))));
    } else {
      BurstQueues(n - 1);
      assert Burst(n)[..|Burst(n)| - 1] == Burst(n - 1);
    }
  }

  lemma RunMore(steps: seq<Step>, s: Step)
    requires Run(steps).Some? && Enabled(Run(steps).value, s)
    ensures Run(steps + [s]) == Some(Do(Run(steps).value, s))
  {
    assert (steps + [s])[..|steps|] == steps;
  }

  /** Whatever was destroyed is nowhere. */
  lemma DestroyedIsNowhere(steps: seq<Step>, id: nat)
    requires Run(steps).Some? && id in Run(steps).value.dropped
    ensures Where(Run(steps).value, id) == 0 && id in Run(steps).value.accepted
  {
    RunConserves(steps);
    var p := Run(steps).value;
    OccMember(p.dropped, id);
    assert Where(p, id) + Occ(p.dropped, id) == Occ(p.accepted, id) <= 1;
    OccMember(p.accepted, id);
  }

  /** With 120 requests outstanding the worker destroys the next one it takes; it is nowhere from then on. */
  lemma LimitDestroys()
    ensures var p := Run(Burst(MAX_CONCURRENT) + [DoAdmit]);
            p.Some? && p.value.dropped == [1] && 1 in p.value.accepted && Where(p.value, 1) == 0
    ensures var p := Run(Burst(MAX_CONCURRENT - 1) + [DoAdmit]);
            p.Some? && p.value.dropped == [] && 1 in p.value.active
  {
    BurstQueues(MAX_CONCURRENT);
    BurstQueues(MAX_CONCURRENT - 1);
    RunMore(Burst(MAX_CONCURRENT), DoAdmit);
    RunMore(Burst(MAX_CONCURRENT - 1), DoAdmit);
    DestroyedIsNowhere(Burst(MAX_CONCURRENT) + [DoAdmit], 1);
  }

  /** A destroyed request stays counted: the counter never returns to zero. */
  lemma {:induction false} DestroyedKeepsBusy(steps: seq<Step>, k: nat)
    requires k <= |steps| && Run(steps).Some? && Run(steps[..k]).Some? && Run(steps[..k]).value.dropped != []
    ensures Run(steps).value.dropped != [] && Run(steps).value.count > 0
    decreases |steps|
  {
    RunConserves(steps);
    if k == |steps| {
      assert steps[..k] == steps;
    } else {
      assert steps[..|steps| - 1][..k] == steps[..k];
      DestroyedKeepsBusy(steps[..|steps| - 1], k);
    }
  }

  // ---- the object ------------------------------------------------------------------------------

  /** Queued requests are taken in order until the queue is empty or one is destroyed at the limit. */
  function AdmitAll(p: Pool): Pool
    decreases |p.queue|
  {
    if p.queue == [] then p
    else if p.count < MAX_CONCURRENT then AdmitAll(Take(p))
    else Admit(p)
  }

  /** The whole queue is in flight, beside what was in flight before. */
  ghost predicate TookAll(
      queue: seq<Request>, active: map<nat, Request>, queue': seq<Request>, active': map<nat, Request>)
  {
    && queue' == []
    && (forall id :: id in active ==> id in active' && active'[id] == active[id])
    && (forall i :: 0 <= i < |queue| ==> queue[i].id in active' && active'[queue[i].id] == queue[i])
    && (forall id :: id in active' && id !in active ==> exists i :: 0 <= i < |queue| && queue[i].id == id)
  }

  lemma TookOneMore(
      queue: seq<Request>, active: map<nat, Request>, queue': seq<Request>, active': map<nat, Request>)
    requires queue != [] && queue[0].id !in active
    requires TookAll(queue[1..], active[queue[0].id := queue[0]], queue', active')
    ensures TookAll(queue, active, queue', active')
  {
    forall i | 0 <= i < |queue|
      ensures queue[i].id in active' && active'[queue[i].id] == queue[i]
    {
      if i > 0 {
        assert queue[1..][i - 1] == queue[i];
      }
    }
    forall id | id in active' && id !in active
      ensures exists i :: 0 <= i < |queue| && queue[i].id == id
    {
      if id == queue[0].id {
      } else {
        var i :| 0 <= i < |queue[1..]| && queue[1..][i].id == id;
        assert queue[i + 1].id == id;
      }
    }
  }

  lemma {:induction false} AdmitAllDropsExactlyAtLimit(p: Pool)
    requires Conserved(p)
    ensures Conserved(AdmitAll(p))
    ensures AdmitAll(p).count == p.count && AdmitAll(p).delayed == p.delayed
    ensures p.count < 120 ==> TookAll(p.queue, p.active, AdmitAll(p).queue, AdmitAll(p).active)
    ensures p.count >= 120 && p.queue != [] ==>
              && AdmitAll(p).queue == p.queue[1..]
              && AdmitAll(p).dropped == p.dropped + [p.queue[0].id]
              && AdmitAll(p).active == p.active
    ensures AdmitAll(p).dropped != p.dropped <==> p.queue != [] && p.count >= MAX_CONCURRENT
    ensures p.count < MAX_CONCURRENT ==> AdmitAll(p).queue == []
    decreases |p.queue|
  {
    if p.queue != [] {
      if p.count < MAX_CONCURRENT {
        TakeConserves(p);
        AdmitAllDropsExactlyAtLimit(Take(p));
        TookOneMore(p.queue, p.active, AdmitAll(p).queue, AdmitAll(p).active);
      } else {
        AdmitConserves(p);
      }
    }
  }

  /** Due requests leave the delayed list, in order, for the end of the queue. */
  function ReleaseDue(p: Pool, now: int, i: nat): Pool
    requires i <= |p.delayed|
    decreases |p.delayed| - i
  {
    if i == |p.delayed| then p
    else if p.delayed[i].timer <= now then ReleaseDue(Release(p, i), now, i)
    else ReleaseDue(p, now, i + 1)
  }

  /** Those whose timer has run out at `now`, and those who still wait, each in their old order. */
  function Ripe(rs: seq<Request>, now: int): seq<Request> {
    if rs == [] then [] else (if rs[0].timer <= now then [rs[0]] else []) + Ripe(rs[1..], now)
  }

  function Unripe(rs: seq<Request>, now: int): seq<Request> {
    if rs == [] then [] else (if rs[0].timer > now then [rs[0]] else []) + Unripe(rs[1..], now)
  }

  /** The two parts are told apart by the timer alone, and together they are the list. */
  lemma {:induction false} RipenessExact(rs: seq<Request>, now: int)
    ensures forall r :: r in Ripe(rs, now) <==> r in rs && r.timer <= now
    ensures forall r :: r in Unripe(rs, now) <==> r in rs && r.timer > now
    ensures multiset(Ripe(rs, now)) + multiset(Unripe(rs, now)) == multiset(rs)
    decreases |rs|
  {
    if rs != [] {
      RipenessExact(rs[1..], now);
      assert rs == [rs[0]] + rs[1..];
    }
  }

  lemma {:induction false} UnripeAll(rs: seq<Request>, now: int)
    requires forall k :: 0 <= k < |rs| ==> rs[k].timer > now
    ensures Ripe(rs, now) == [] && Unripe(rs, now) == rs
    decreases |rs|
  {
    if rs != [] {
      UnripeAll(rs[1..], now);
      assert rs == [rs[0]] + rs[1..];
    }
  }

  lemma {:induction false} ReleaseDueSplits(p: Pool, now: int, i: nat)
    requires i <= |p.delayed|
    ensures ReleaseDue(p, now, i).delayed == p.delayed[..i] + Unripe(p.delayed[i..], now)
    ensures ReleaseDue(p, now, i).queue == p.queue + Ripe(p.delayed[i..], now)
    decreases |p.delayed| - i
  {
    if i < |p.delayed| {
      var rest := p.delayed[i..];
      assert rest[1..] == p.delayed[i + 1..];
      if p.delayed[i].timer <= now {
        var q := Release(p, i);
        ReleaseDueSplits(q, now, i);
        assert q.delayed[..i] == p.delayed[..i] && q.delayed[i..] == rest[1..];
      } else {
        ReleaseDueSplits(p, now, i + 1);
        assert p.delayed[..i + 1] == p.delayed[..i] + [rest[0]];
      }
    }
  }

  /**
   One pass over the delayed list: those whose timer is still ahead remain, in order, and those whose timer has
   run out stand at the end of the queue, in order.
   */
  lemma ReleaseDueExact(p: Pool, now: int)
    requires Conserved(p)
    ensures Conserved(ReleaseDue(p, now, 0))
    ensures ReleaseDue(p, now, 0).delayed == Unripe(p.delayed, now)
    ensures ReleaseDue(p, now, 0).queue == p.queue + Ripe(p.delayed, now)
    ensures forall r :: r in ReleaseDue(p, now, 0).delayed <==> r in p.delayed && r.timer > now
  {
    ReleaseDueConserves(p, now, 0);
    ReleaseDueSplits(p, now, 0);
    RipenessExact(p.delayed, now);
    assert p.delayed[0..] == p.delayed;
  }

  lemma {:induction false} ReleaseDueConserves(p: Pool, now: int, i: nat)
    requires Conserved(p) && i <= |p.delayed|
    ensures Conserved(ReleaseDue(p, now, i))
    decreases |p.delayed| - i
  {
    if i < |p.delayed| {
      if p.delayed[i].timer <= now {
        ReleaseConserves(p, i);
        ReleaseDueConserves(Release(p, i), now, i);
      } else {
        ReleaseDueConserves(p, now, i + 1);
      }
    }
  }

  /**
   What becomes of a finished transfer. Status 200 hands it over; 403, 408, 429 and 500 to 599 delay it with one more
   retry, unless it had six, which kills the worker; any other status and any transfer error fail it.
   */
  ghost predicate Ended(p: Pool, p': Pool, id: nat, o: Outcome, timer: int, ok: bool)
    requires id in p.active
  {
    var retried := o.Status? && (o.code in {403, 408, 429} || 500 <= o.code < 600);
    && (ok <==> !(retried && p.active[id].retries >= 6))
    && (p'.queue, p'.accepted, p'.dropped) == (p.queue, p.accepted, p.dropped)
    && p'.active == (if ok then p.active - {id} else p.active)
    && p'.count == (if retried then p.count else p.count - 1)
    && p'.handed == (if o == Status(200) then p.handed + [id] else p.handed)
    && p'.failed == (if retried || o == Status(200) then p.failed else p.failed + [id])
    && p'.delayed == (if retried && ok then
                        p.delayed + [Request(p.active[id].id, p.active[id].retries + 1, timer)]
                      else p.delayed)
  }

  class HttpClient {
    const queue: Queue<Request>
    var active: map<nat, Request>
    var delayed: seq<Request>
    var count: int
    ghost var accepted: seq<nat>
    ghost var handed: seq<nat>
    ghost var failed: seq<nat>
    ghost var dropped: seq<nat>

    ghost function P(): Pool
      reads this, queue
    {
      Pool(queue.items, active, delayed, count, accepted, handed, failed, dropped)
    }

    ghost predicate Valid()
      reads this, queue
    {
      Conserved(P())
    }

    constructor ()
      ensures Valid() && P() == EMPTY && fresh(queue)
    {
      queue := new Queue();
      active, delayed, count := map[], [], 0;
      accepted, handed, failed, dropped := [], [], [], [];
    }

    /** A command without an easy handle is logged and forgotten; any other is counted, then queued. */
    method SubmitRequest(r: Request, hasHandle: bool)
      requires Valid() && r.id !in accepted
      modifies this, queue
      ensures Valid()
      ensures P() == if hasHandle then Submit(old(P()), r) else old(P())
      ensures hasHandle ==>
                && queue.items == old(queue.items) + [r] && count == old(count) + 1
                && accepted == old(accepted) + [r.id]
                && (active, delayed, handed, failed, dropped) == old((active, delayed, handed, failed, dropped))
    {
      if !hasHandle {
        return;
      }
      SubmitConserves(P(), r);
      count := count + 1;
      queue.Push(r);
      accepted := accepted + [r.id];
    }

    /** Intake after the counter read zero: block for one request, which a submission meanwhile provided. */
    method AdmitWhenIdle()
      requires Valid() && (queue.items != [] || queue.closed)
      modifies this, queue
      ensures Valid()
      ensures P() == if old(queue.items) == [] then old(P()) else Take(old(P()))
      ensures old(queue.items) != [] ==>
                && queue.items == old(queue.items)[1..]
                && active == old(active)[old(queue.items)[0].id := old(queue.items)[0]]
                && (count, delayed, handed, failed, dropped) == old((count, delayed, handed, failed, dropped))
    {
      if queue.items != [] {
        TakeConserves(P());
      }
      var r := queue.Pop();
      if r.Some? {
        active := active[r.value.id := r.value];
      }
    }

    /** Intake while the counter is positive. */
    method AdmitWhileBusy()
      requires Valid()
      modifies this, queue
      ensures Valid() && P() == AdmitAll(old(P()))
      ensures count == old(count) && delayed == old(delayed)
      ensures count < 120 ==>
                TookAll(old(queue.items), old(active), queue.items, active) && dropped == old(dropped)
      ensures count >= 120 && old(queue.items) != [] ==>
                && queue.items == old(queue.items)[1..] && active == old(active)
                && dropped == old(dropped) + [old(queue.items)[0].id]
    {
      AdmitAllDropsExactlyAtLimit(P());
      var done := false;
      while !done
        invariant !done ==> AdmitAll(P()) == AdmitAll(old(P()))
        invariant done ==> P() == AdmitAll(old(P()))
        decreases if done then 0 else |queue.items| + 1
      {
        var r := queue.TryPop();
        if r.None? || count >= MAX_CONCURRENT {
          done := true;
          if r.Some? {
            dropped := dropped + [r.value.id];
          }
        } else {
          active := active[r.value.id := r.value];
        }
      }
    }

    /** Handles one finished transfer; `ok` is false when the retry budget is exhausted and the worker dies. */
    method HandleCompletion(id: nat, o: Outcome, timer: int) returns (ok: bool)
      requires Valid() && id in active
      modifies this
      ensures Valid()
      ensures ok <==> !Throws(old(P()), id, o)
      ensures P() == if ok then Complete(old(P()), id, o, timer) else old(P())
      ensures Ended(old(P()), P(), id, o, timer, ok)
    {
      ok := true;
      if o.Status? && Retryable(o.code) && active[id].retries + 1 > MAX_RETRIES {
        return false;
      }
      ghost var done := Complete(P(), id, o, timer);
      CompleteConserves(P(), id, o, timer);
      match o {
        case TransferError =>
          count, failed := count - 1, failed + [id];
        case Status(code) =>
          if Retryable(code) {
            delayed := delayed + [active[id].(retries := active[id].retries + 1, timer := timer)];
          } else if code != 200 {
            count, failed := count - 1, failed + [id];
          } else {
            handed := handed + [id];
            count := count - 1;
          }
      }
      active := active - {id};
      assert P() == done;
    }

    method CheckDelayedRequests(now: int)
      requires Valid()
      modifies this, queue
      ensures Valid() && P() == ReleaseDue(old(P()), now, 0)
      ensures delayed == Unripe(old(delayed), now)
      ensures queue.items == old(queue.items) + Ripe(old(delayed), now)
    {
      ReleaseDueExact(P(), now);
      var i := 0;
      while i < |delayed|
        invariant 0 <= i <= |delayed|
        invariant ReleaseDue(P(), now, i) == ReleaseDue(old(P()), now, 0)
        decreases |delayed| - i
      {
        if delayed[i].timer <= now {
          queue.Push(delayed[i]);
          delayed := delayed[..i] + delayed[i + 1..];
        } else {
          i := i + 1;
        }
      }
    }
  }
}
