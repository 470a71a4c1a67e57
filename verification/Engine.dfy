/**
 The change engine as interleaved atomic steps of three threads: the main thread that submits the root
 commands of a phase and then waits, the HTTP worker and the callback worker. Every hand-over is split
 into "count it", "queue it" and, later, "stop counting it here", because the waiting thread may look
 at the counters in between. A request may fail, which destroys its command.
 */
module Engine {
  import opened Common
  import opened Commands

  /** `armed`: the receiving counter has been incremented, the command is not queued yet. */
  datatype Main =
    | Submitting(todo: seq<Command>, armed: bool)
    | Waiting(k: nat)          // in the k-th of: HTTP idle, dispatcher idle, HTTP idle
    | Passed

  datatype Net = NetIdle | Handing(c: Command, armed: bool) | HandedOver

  datatype Work =
    | WorkIdle
    | Calling(c: Command)      // inside the completion callback
    | Passing(toNet: bool, todo: seq<Command>, armed: bool)

  datatype State = State(
    main: Main,
    http: seq<Command>,
    httpCount: int,
    net: Net,
    cb: seq<Command>,
    cbCount: int,
    work: Work,
    pending: map<nat, int>,
    fired: map<nat, int>,
    lost: seq<Command>)

  datatype Step =
    | MainArm | MainPush | MainStartWait | MainWait
    | NetSucceed(i: nat) | NetArm | NetPush | NetRelease | NetFail(i: nat)
    | WorkPop | WorkFinish | WorkArm | WorkPush | WorkRelease

  function Get(m: map<nat, int>, ch: nat): int {
    if ch in m then m[ch] else 0
  }

  function Without(s: seq<Command>, i: nat): seq<Command>
    requires i < |s|
  {
    s[..i] + s[i + 1..]
  }

  /** The owner's counter goes down; the call that reaches zero fires the completion callback. */
  function Finish(s: State, ch: nat): State {
    s.(pending := s.pending[ch := Get(s.pending, ch) - 1],
       fired := if Get(s.pending, ch) == 1 then s.fired[ch := Get(s.fired, ch) + 1] else s.fired)
  }

  function MainNext(s: State, a: Step): Option<State> {
    match a
    case MainArm =>
      if s.main.Submitting? && s.main.todo != [] && !s.main.armed then
        var s' := s.(main := s.main.(armed := true));
        Some(if IsLocal(s.main.todo[0].ct) then s'.(cbCount := s.cbCount + 1) else s'.(httpCount := s.httpCount + 1))
      else None
    case MainPush =>
      if s.main.Submitting? && s.main.todo != [] && s.main.armed then
        var s' := s.(main := Submitting(s.main.todo[1..], false));
        Some(if IsLocal(s.main.todo[0].ct) then s'.(cb := s.cb + [s.main.todo[0]]) else s'.(http := s.http + [s.main.todo[0]]))
      else None
    case MainStartWait =>
      if s.main.Submitting? && s.main.todo == [] && !s.main.armed then Some(s.(main := Waiting(1))) else None
    case MainWait =>
      if s.main.Waiting? && (if s.main.k == 2 then s.cbCount else s.httpCount) == 0 then
        Some(s.(main := if s.main.k < 3 then Waiting(s.main.k + 1) else Passed))
      else None
    case _ => None
  }

  function NetNext(s: State, a: Step): Option<State> {
    match a
    case NetSucceed(i) =>
      if s.net.NetIdle? && i < |s.http| then
        Some(s.(net := Handing(s.http[i], false), http := Without(s.http, i)))
      else None
    case NetArm =>
      if s.net.Handing? && !s.net.armed then Some(s.(net := s.net.(armed := true), cbCount := s.cbCount + 1)) else None
    case NetPush =>
      if s.net.Handing? && s.net.armed then Some(s.(net := HandedOver, cb := s.cb + [s.net.c])) else None
    case NetRelease =>
      if s.net.HandedOver? then Some(s.(net := NetIdle, httpCount := s.httpCount - 1)) else None
    case NetFail(i) =>
      if s.net.NetIdle? && i < |s.http| then
        Some(s.(http := Without(s.http, i), httpCount := s.httpCount - 1, lost := s.lost + [s.http[i]]))
      else None
    case _ => None
  }

  function WorkNext(s: State, a: Step): Option<State> {
    match a
    case WorkPop =>
      if s.work.WorkIdle? && s.cb != [] then Some(s.(work := Calling(s.cb[0]), cb := s.cb[1..])) else None
    case WorkFinish =>
      if s.work.Calling? then
        var c := s.work.c;
        Some(Finish(s, c.change).(work := Passing(IsLocal(c.ct), Deliver(c), false)))
      else None
    case WorkArm =>
      if s.work.Passing? && s.work.todo != [] && !s.work.armed then
        var s' := s.(work := s.work.(armed := true));
        Some(if s.work.toNet then s'.(httpCount := s.httpCount + 1) else s'.(cbCount := s.cbCount + 1))
      else None
    case WorkPush =>
      if s.work.Passing? && s.work.todo != [] && s.work.armed then
        var s' := s.(work := Passing(s.work.toNet, s.work.todo[1..], false));
        Some(if s.work.toNet then s'.(http := s.http + [s.work.todo[0]]) else s'.(cb := s.cb + [s.work.todo[0]]))
      else None
    case WorkRelease =>
      if s.work.Passing? && s.work.todo == [] && !s.work.armed then
        Some(s.(work := WorkIdle, cbCount := s.cbCount - 1))
      else None
    case _ => None
  }

  /** The state after a step of any thread, or None when the step is not enabled. */
  function Next(s: State, a: Step): Option<State> {
    if a.MainArm? || a.MainPush? || a.MainStartWait? || a.MainWait? then MainNext(s, a)
    else if a.NetSucceed? || a.NetArm? || a.NetPush? || a.NetRelease? || a.NetFail? then NetNext(s, a)
    else WorkNext(s, a)
  }

  function Run(s: State, steps: seq<Step>): Option<State> {
    if steps == [] then Some(s)
    else
      var prev := Run(s, steps[..|steps| - 1]);
      if prev.None? then None else Next(prev.value, steps[|steps| - 1])
  }

  /** Pools empty, workers idle, counters zero; each change's counter is the number of its commands. */
  ghost predicate Initial(s: State, roots: seq<Command>) {
    && s.main == Submitting(roots, false)
    && s.http == [] && s.httpCount == 0 && s.net == NetIdle
    && s.cb == [] && s.cbCount == 0 && s.work == WorkIdle
    && (forall ch :: Get(s.pending, ch) == Count(roots, ch) && Get(s.fired, ch) == 0)
    && s.lost == []
  }

  /** Roots as the factories and the initial synchronisation build them. */
  ghost predicate GoodRoots(roots: seq<Command>) {
    forall i :: 0 <= i < |roots| ==> roots[i].loaded && WellFormed(roots[i])
  }

  // ---- exactly-once completion -----------------------------------------------------------------

  function InMain(m: Main): seq<Command> {
    if m.Submitting? then m.todo else []
  }

  function InNet(n: Net): seq<Command> {
    if n.Handing? then [n.c] else []
  }

  function InWork(w: Work): seq<Command> {
    match w
    case WorkIdle => []
    case Calling(c) => [c]
    case Passing(_, todo, _) => todo
  }

  /** Commands of change `ch` that are still on their way, counted with the commands below them. */
  function Unfinished(s: State, ch: nat): nat {
    Count(InMain(s.main), ch) + Count(s.http, ch) + Count(InNet(s.net), ch)
    + Count(s.cb, ch) + Count(InWork(s.work), ch)
  }

  ghost predicate Accounted(s: State, ch: nat) {
    Get(s.pending, ch) == Unfinished(s, ch) + Count(s.lost, ch)
  }

  /** `total` is the number of commands the change started with. */
  ghost predicate FiredOnce(s: State, ch: nat, total: nat) {
    Get(s.fired, ch) == (if total > 0 && Get(s.pending, ch) == 0 then 1 else 0)
  }

  lemma {:induction false} CountOne(c: Command, ch: nat)
    ensures Count([c], ch) == CountIn(c, ch)
  {
    assert Count([c][1..], ch) == 0;
  }

  lemma CountWithout(s: seq<Command>, i: nat, ch: nat)
    requires i < |s|
    ensures Count(s, ch) == Count(Without(s, i), ch) + CountIn(s[i], ch)
  {
    assert s == s[..i] + ([s[i]] + s[i + 1..]);
    CountAppend(s[..i], [s[i]] + s[i + 1..], ch);
    CountAppend([s[i]], s[i + 1..], ch);
    CountAppend(s[..i], s[i + 1..], ch);
    CountOne(s[i], ch);
  }

  lemma CountPush(s: seq<Command>, c: Command, ch: nat)
    ensures Count(s + [c], ch) == Count(s, ch) + CountIn(c, ch)
  {
    CountAppend(s, [c], ch);
    CountOne(c, ch);
  }

  /** Setting payloads changes no count. */
  lemma {:induction false} CountSet(cs: seq<Command>, ds: seq<Command>, k: PayloadKind, ch: nat)
    requires |cs| == |ds| && forall i :: 0 <= i < |cs| ==> ds[i] == SetDto(cs[i], k)
    ensures Count(ds, ch) == Count(cs, ch)
    decreases |cs|
  {
    if cs != [] {
      CountSet(cs[1..], ds[1..], k, ch);
    }
  }

  function Held(s: State, ch: nat): nat {
    Unfinished(s, ch) + Count(s.lost, ch)
  }

  lemma MainMoves(s: State, a: Step, s': State, ch: nat)
    requires MainNext(s, a) == Some(s')
    ensures Held(s', ch) == Held(s, ch)
  {
    if a.MainPush? {
      CountPush(s.cb, s.main.todo[0], ch);
      CountPush(s.http, s.main.todo[0], ch);
    }
  }

  lemma NetMoves(s: State, a: Step, s': State, ch: nat)
    requires NetNext(s, a) == Some(s')
    ensures Held(s', ch) == Held(s, ch)
  {
    match a
    case NetSucceed(i) =>
      CountWithout(s.http, i, ch);
      CountOne(s.http[i], ch);
    case NetPush =>
      CountPush(s.cb, s.net.c, ch);
      CountOne(s.net.c, ch);
    case NetFail(i) =>
      CountWithout(s.http, i, ch);
      CountPush(s.lost, s.http[i], ch);
    case _ =>
  }

  lemma WorkMoves(s: State, a: Step, s': State, ch: nat)
    requires WorkNext(s, a) == Some(s')
    ensures Held(s', ch) == Held(s, ch) - (if a.WorkFinish? && s.work.c.change == ch then 1 else 0)
  {
    match a
    case WorkPop =>
      CountOne(s.cb[0], ch);
    case WorkFinish =>
      CountOne(s.work.c, ch);
      CountSet(s.work.c.nexts, Deliver(s.work.c), Accepts(s.work.c.ct), ch);
    case WorkPush =>
      CountPush(s.cb, s.work.todo[0], ch);
      CountPush(s.http, s.work.todo[0], ch);
    case _ =>
  }

  /** Every step moves commands between places or finishes exactly one of them. */
  lemma StepMoves(s: State, a: Step, s': State, ch: nat)
    requires Next(s, a) == Some(s')
    ensures Held(s', ch) == Held(s, ch) - (if a.WorkFinish? && s.work.c.change == ch then 1 else 0)
  {
    if MainNext(s, a) == Some(s') {
      MainMoves(s, a, s', ch);
    } else if NetNext(s, a) == Some(s') {
      NetMoves(s, a, s', ch);
    } else {
      WorkMoves(s, a, s', ch);
    }
  }

  /** Only a finishing command touches the ledgers, and only those of its own change. */
  lemma StepLedger(s: State, a: Step, s': State, ch: nat)
    requires Next(s, a) == Some(s')
    ensures var done := a.WorkFinish? && s.work.Calling? && s.work.c.change == ch;
            && Get(s'.pending, ch) == Get(s.pending, ch) - (if done then 1 else 0)
            && Get(s'.fired, ch) == Get(s.fired, ch) + (if done && Get(s.pending, ch) == 1 then 1 else 0)
            && (done ==> Unfinished(s, ch) > 0)
  {
    if a.WorkFinish? {
      CountOne(s.work.c, ch);
    }
  }

  lemma StepAccounts(s: State, a: Step, s': State, ch: nat, total: nat)
    requires Next(s, a) == Some(s') && Accounted(s, ch) && FiredOnce(s, ch, total)
    requires Get(s.pending, ch) <= total
    ensures Accounted(s', ch) && FiredOnce(s', ch, total) && Get(s'.pending, ch) <= total
  {
    StepMoves(s, a, s', ch);
    StepLedger(s, a, s', ch);
  }

  lemma {:induction false} RunAccounts(s: State, roots: seq<Command>, steps: seq<Step>, ch: nat)
    requires Initial(s, roots) && Run(s, steps).Some?
    ensures Accounted(Run(s, steps).value, ch)
    ensures FiredOnce(Run(s, steps).value, ch, Count(roots, ch))
    ensures Get(Run(s, steps).value.pending, ch) <= Count(roots, ch)
    decreases |steps|
  {
    if steps != [] {
      var front := steps[..|steps| - 1];
      RunAccounts(s, roots, front, ch);
      StepAccounts(Run(s, front).value, steps[|steps| - 1], Run(s, steps).value, ch, Count(roots, ch));
    }
  }

  ghost predicate Drained(s: State) {
    InMain(s.main) == [] && s.http == [] && s.net == NetIdle && s.cb == [] && s.work == WorkIdle
  }

  /**
   In every reachable state a change's counter equals the number of its commands that have not finished.
   Its completion callback has fired at most once, and it has fired exactly when none is left. Once
   everything has drained, it has fired exactly once if and only if no command of it was destroyed.
   */
  lemma ExactlyOnce(s: State, roots: seq<Command>, steps: seq<Step>, ch: nat)
    requires Initial(s, roots) && Run(s, steps).Some?
    ensures var e := Run(s, steps).value;
            && Get(e.pending, ch) == Unfinished(e, ch) + Count(e.lost, ch)
            && 0 <= Get(e.fired, ch) <= 1
            && (Count(roots, ch) > 0 ==>
                  (Get(e.fired, ch) == 1 <==> Unfinished(e, ch) == 0 && Count(e.lost, ch) == 0))
            && (Drained(e) && Count(roots, ch) > 0 ==>
                  (Get(e.fired, ch) == 1 <==> Count(e.lost, ch) == 0))
  {
    RunAccounts(s, roots, steps, ch);
  }

  // ---- routing and payloads --------------------------------------------------------------------

  ghost predicate Ready(c: Command) {
    c.loaded && WellFormed(c)
  }

  /** Whatever is queued has its payload and, in the request pool, is a cloud command. */
  ghost predicate Routed(s: State) {
    && (s.main.Submitting? ==> forall i :: 0 <= i < |s.main.todo| ==> Ready(s.main.todo[i]))
    && (forall i :: 0 <= i < |s.http| ==> Ready(s.http[i]) && !IsLocal(s.http[i].ct))
    && (s.net.Handing? ==> Ready(s.net.c) && !IsLocal(s.net.c.ct))
    && (forall i :: 0 <= i < |s.cb| ==> Ready(s.cb[i]))
    && (s.work.Calling? ==> Ready(s.work.c))
    && (s.work.Passing? ==>
          forall i :: 0 <= i < |s.work.todo| ==> Ready(s.work.todo[i]) && IsLocal(s.work.todo[i].ct) == !s.work.toNet)
  }

  lemma MainRoutes(s: State, a: Step, s': State)
    requires MainNext(s, a) == Some(s') && Routed(s)
    ensures Routed(s')
  {
  }

  lemma NetRoutes(s: State, a: Step, s': State)
    requires NetNext(s, a) == Some(s') && Routed(s)
    ensures Routed(s')
  {
  }

  lemma DeliveredReady(c: Command, i: nat)
    requires Ready(c) && i < |c.nexts|
    ensures Ready(Deliver(c)[i]) && IsLocal(Deliver(c)[i].ct) == !IsLocal(c.ct)
  {
    assert WellFormed(c.nexts[i]);
    assert Deliver(c)[i].nexts == c.nexts[i].nexts;
  }

  lemma WorkRoutes(s: State, a: Step, s': State)
    requires WorkNext(s, a) == Some(s') && Routed(s)
    ensures Routed(s')
  {
    if a.WorkFinish? {
      forall i | 0 <= i < |s.work.c.nexts| { DeliveredReady(s.work.c, i); }
    }
  }

  lemma StepRoutes(s: State, a: Step, s': State)
    requires Next(s, a) == Some(s') && Routed(s)
    ensures Routed(s')
  {
    if MainNext(s, a) == Some(s') {
      MainRoutes(s, a, s');
    } else if NetNext(s, a) == Some(s') {
      NetRoutes(s, a, s');
    } else {
      WorkRoutes(s, a, s');
    }
  }

  /** No queued command lacks its payload, and each pool only ever receives commands it can process. */
  lemma {:induction false} AlwaysRouted(s: State, roots: seq<Command>, steps: seq<Step>)
    requires Initial(s, roots) && GoodRoots(roots) && Run(s, steps).Some?
    ensures Routed(Run(s, steps).value)
    decreases |steps|
  {
    if steps != [] {
      var front := steps[..|steps| - 1];
      AlwaysRouted(s, roots, front);
      StepRoutes(Run(s, front).value, steps[|steps| - 1], Run(s, steps).value);
    }
  }

  // ---- the barrier -----------------------------------------------------------------------------

  function B(b: bool): int {
    if b then 1 else 0
  }

  /** The main thread has counted a command for this pool that it has not queued yet. */
  predicate MainArmed(m: Main, local: bool) {
    m.Submitting? && m.armed && m.todo != [] && IsLocal(m.todo[0].ct) == local
  }

  predicate WorkArmed(w: Work, toNet: bool) {
    w.Passing? && w.armed && w.toNet == toNet
  }

  /** Each counter covers its queue and every hand-over in progress. */
  ghost predicate Counted(s: State) {
    && s.httpCount == |s.http| + B(!s.net.NetIdle?) + B(MainArmed(s.main, false)) + B(WorkArmed(s.work, true))
    && s.cbCount == |s.cb| + B(!s.work.WorkIdle?) + B(s.net.Handing? && s.net.armed)
                    + B(MainArmed(s.main, true)) + B(WorkArmed(s.work, false))
    && (s.main.Waiting? ==> 1 <= s.main.k <= 3)
  }

  lemma MainCounts(s: State, a: Step, s': State)
    requires MainNext(s, a) == Some(s') && Counted(s)
    ensures Counted(s')
  {
  }

  lemma NetCounts(s: State, a: Step, s': State)
    requires NetNext(s, a) == Some(s') && Counted(s)
    ensures Counted(s')
  {
  }

  lemma WorkCounts(s: State, a: Step, s': State)
    requires WorkNext(s, a) == Some(s') && Counted(s)
    ensures Counted(s')
  {
  }

  lemma StepCounts(s: State, a: Step, s': State)
    requires Next(s, a) == Some(s') && Counted(s)
    ensures Counted(s')
  {
    if MainNext(s, a) == Some(s') {
      MainCounts(s, a, s');
    } else if NetNext(s, a) == Some(s') {
      NetCounts(s, a, s');
    } else {
      WorkCounts(s, a, s');
    }
  }

  /** No local command of the tree is followed by a cloud command: its callbacks never submit a request. */
  ghost predicate CallbacksStayLocal(c: Command)
    decreases c
  {
    && (IsLocal(c.ct) ==> c.nexts == [])
    && forall i :: 0 <= i < |c.nexts| ==> IsLocal(c.nexts[i].ct) && CallbacksStayLocal(c.nexts[i])
  }

  ghost predicate AllStayLocal(s: State) {
    && (s.main.Submitting? ==> forall i :: 0 <= i < |s.main.todo| ==> CallbacksStayLocal(s.main.todo[i]))
    && (forall i :: 0 <= i < |s.http| ==> CallbacksStayLocal(s.http[i]))
    && (s.net.Handing? ==> CallbacksStayLocal(s.net.c))
    && (forall i :: 0 <= i < |s.cb| ==> CallbacksStayLocal(s.cb[i]))
    && (s.work.Calling? ==> CallbacksStayLocal(s.work.c))
    && (s.work.Passing? ==>
          && (s.work.toNet ==> s.work.todo == [])
          && forall i :: 0 <= i < |s.work.todo| ==> CallbacksStayLocal(s.work.todo[i]))
  }

  lemma MainStaysLocal(s: State, a: Step, s': State)
    requires MainNext(s, a) == Some(s') && AllStayLocal(s)
    ensures AllStayLocal(s')
  {
  }

  lemma NetStaysLocal(s: State, a: Step, s': State)
    requires NetNext(s, a) == Some(s') && AllStayLocal(s)
    ensures AllStayLocal(s')
  {
  }

  lemma DeliveredStaysLocal(c: Command, i: nat)
    requires CallbacksStayLocal(c) && i < |c.nexts|
    ensures CallbacksStayLocal(Deliver(c)[i])
  {
    assert CallbacksStayLocal(c.nexts[i]);
    assert Deliver(c)[i].nexts == c.nexts[i].nexts && Deliver(c)[i].ct == c.nexts[i].ct;
  }

  lemma WorkStaysLocal(s: State, a: Step, s': State)
    requires WorkNext(s, a) == Some(s') && AllStayLocal(s)
    ensures AllStayLocal(s')
  {
    if a.WorkFinish? {
      forall i | 0 <= i < |s.work.c.nexts| { DeliveredStaysLocal(s.work.c, i); }
    }
  }

  lemma StepStaysLocal(s: State, a: Step, s': State)
    requires Next(s, a) == Some(s') && AllStayLocal(s)
    ensures AllStayLocal(s')
  {
    if MainNext(s, a) == Some(s') {
      MainStaysLocal(s, a, s');
    } else if NetNext(s, a) == Some(s') {
      NetStaysLocal(s, a, s');
    } else {
      WorkStaysLocal(s, a, s');
    }
  }

  /** What the waits that have already returned still guarantee. */
  ghost predicate Quiet(s: State) {
    && (s.main == Passed || (s.main.Waiting? && s.main.k >= 2) ==> s.http == [] && s.net == NetIdle)
    && (s.main == Passed || (s.main.Waiting? && s.main.k >= 3) ==> s.cb == [] && s.work == WorkIdle)
  }

  lemma StepKeepsQuiet(s: State, a: Step, s': State)
    requires Next(s, a) == Some(s') && Counted(s) && AllStayLocal(s) && Quiet(s)
    ensures Quiet(s')
  {
  }

  lemma {:induction false} RunQuiet(s: State, roots: seq<Command>, steps: seq<Step>)
    requires Initial(s, roots) && Run(s, steps).Some?
    requires forall i :: 0 <= i < |roots| ==> CallbacksStayLocal(roots[i])
    ensures var e := Run(s, steps).value; Counted(e) && AllStayLocal(e) && Quiet(e)
    decreases |steps|
  {
    if steps != [] {
      var front := steps[..|steps| - 1];
      var prev, e, a := Run(s, front).value, Run(s, steps).value, steps[|steps| - 1];
      RunQuiet(s, roots, front);
      StepCounts(prev, a, e);
      StepStaysLocal(prev, a, e);
      StepKeepsQuiet(prev, a, e);
    }
  }

  /**
   Barrier soundness. If the callbacks of a phase never submit requests, as in both phases of the initial
   synchronisation, then under every interleaving the three waits return only when neither pool nor any
   hand-over holds a command of the phase.
   */
  lemma BarrierSound(s: State, roots: seq<Command>, steps: seq<Step>)
    requires Initial(s, roots) && Run(s, steps).Some?
    requires forall i :: 0 <= i < |roots| ==> CallbacksStayLocal(roots[i])
    ensures Run(s, steps).value.main == Passed ==> Drained(Run(s, steps).value)
  {
    RunQuiet(s, roots, steps);
  }

  /** What the initial synchronisation submits: a download with its local stage, or one bare cloud command. */
  function PullTree(update: bool, ch: nat, src: nat): Command {
    Command(if update then CloudDownloadUpdate else CloudDownloadNew, src, ch, true,
            [Command(if update then LocalUpdate else LocalUpload, 0, ch, false, [])])
  }

  function PushLeaf(update: bool, ch: nat, cloud: nat): Command {
    Command(if update then CloudUpdate else CloudUpload, cloud, ch, true, [])
  }

  ghost predicate FromInitialSync(c: Command) {
    c == PullTree(c.ct == CloudDownloadUpdate, c.change, c.cloud) || c == PushLeaf(c.ct == CloudUpdate, c.change, c.cloud)
  }

  lemma InitialSyncStaysLocal(c: Command)
    requires FromInitialSync(c)
    ensures CallbacksStayLocal(c) && Ready(c)
  {
    assert forall n :: n in c.nexts ==> CallbacksStayLocal(n) && WellFormed(n);
  }

  /** Both phases of the initial synchronisation, whatever they submit, have a sound barrier. */
  lemma InitialSyncBarrier(s: State, roots: seq<Command>, steps: seq<Step>)
    requires Initial(s, roots) && Run(s, steps).Some?
    requires forall i :: 0 <= i < |roots| ==> FromInitialSync(roots[i])
    ensures Run(s, steps).value.main == Passed ==> Drained(Run(s, steps).value)
  {
    forall i | 0 <= i < |roots|
      ensures CallbacksStayLocal(roots[i])
    {
      InitialSyncStaysLocal(roots[i]);
    }
    BarrierSound(s, roots, steps);
  }

  /** When the waits of a phase have returned, every change that lost no command has completed, once. */
  lemma WaitsMeanCompletion(s: State, roots: seq<Command>, steps: seq<Step>, ch: nat)
    requires Initial(s, roots) && Run(s, steps).Some? && Run(s, steps).value.main == Passed
    requires forall i :: 0 <= i < |roots| ==> FromInitialSync(roots[i])
    requires Count(roots, ch) > 0
    ensures var e := Run(s, steps).value;
            Get(e.fired, ch) == (if Count(e.lost, ch) == 0 then 1 else 0) && Get(e.pending, ch) == Count(e.lost, ch)
  {
    InitialSyncBarrier(s, roots, steps);
    ExactlyOnce(s, roots, steps, ch);
  }

  // ---- the barrier is exact for the trees of the factories -------------------------------------

  lemma {:induction false} RunConcat(s: State, a: seq<Step>, b: seq<Step>)
    requires Run(s, a).Some?
    ensures Run(s, a + b) == Run(Run(s, a).value, b)
    decreases |b|
  {
    if b == [] {
      assert a + b == a;
    } else {
      RunConcat(s, a, b[..|b| - 1]);
      assert (a + b)[..|a + b| - 1] == a + b[..|b| - 1];
    }
  }

  ghost predicate Reaches(s: State, e: State) {
    exists steps :: Run(s, steps) == Some(e)
  }

  lemma ReachStep(s: State, a: Step, e: State)
    requires Next(s, a) == Some(e)
    ensures Reaches(s, e)
  {
    assert [a][..0] == [];
    assert Run(s, [a]) == Next(s, a);
  }

  lemma ReachAlso(s: State, m: State, e: State)
    requires Reaches(s, m) && Reaches(m, e)
    ensures Reaches(s, e)
  {
    var a :| Run(s, a) == Some(m);
    var b :| Run(m, b) == Some(e);
    RunConcat(s, a, b);
  }

  lemma ReachThen(s: State, m: State, a: Step, e: State)
    requires Reaches(s, m) && Next(m, a) == Some(e)
    ensures Reaches(s, e)
  {
    ReachStep(m, a, e);
    ReachAlso(s, m, e);
  }

  lemma ReachSelf(s: State)
    ensures Reaches(s, s)
  {
    assert Run(s, []) == Some(s);
  }

  /** The callback worker submits the commands after the one it finished, one by one. */
  function Sent(s: State): State
    requires s.work.Passing?
  {
    s.(http := s.http + s.work.todo, httpCount := s.httpCount + |s.work.todo|, work := Passing(true, [], false))
  }

  function SentOne(s: State): State
    requires s.work.Passing? && s.work.todo != []
  {
    s.(http := s.http + [s.work.todo[0]], httpCount := s.httpCount + 1, work := Passing(true, s.work.todo[1..], false))
  }

  lemma SendOne(s: State)
    requires s.work.Passing? && s.work.toNet && !s.work.armed && s.work.todo != []
    ensures Reaches(s, SentOne(s))
  {
    var s1 := s.(work := s.work.(armed := true), httpCount := s.httpCount + 1);
    ReachStep(s, WorkArm, s1);
    ReachThen(s, s1, WorkPush, SentOne(s));
  }

  lemma {:induction false} SendAll(s: State)
    requires s.work.Passing? && s.work.toNet && !s.work.armed
    ensures Reaches(s, Sent(s))
    decreases |s.work.todo|
  {
    if s.work.todo == [] {
      assert s.http + [] == s.http;
      ReachSelf(s);
    } else {
      SendOne(s);
      SendAll(SentOne(s));
      assert s.http + [s.work.todo[0]] + s.work.todo[1..] == s.http + s.work.todo;
      ReachAlso(s, SentOne(s), Sent(s));
    }
  }

  /** The HTTP worker completes one request and hands it over. */
  function FetchedOne(s: State): State
    requires s.http != []
  {
    s.(http := s.http[1..], httpCount := s.httpCount - 1, cb := s.cb + [s.http[0]], cbCount := s.cbCount + 1)
  }

  lemma TakeReply(s: State)
    requires s.net.NetIdle? && s.http != []
    ensures Reaches(s, s.(net := Handing(s.http[0], true), http := s.http[1..], cbCount := s.cbCount + 1))
  {
    assert Without(s.http, 0) == s.http[1..];
    var s1 := s.(net := Handing(s.http[0], false), http := s.http[1..]);
    ReachStep(s, NetSucceed(0), s1);
    ReachThen(s, s1, NetArm, s.(net := Handing(s.http[0], true), http := s.http[1..], cbCount := s.cbCount + 1));
  }

  lemma HandOver(s: State)
    requires s.net.Handing? && s.net.armed
    ensures Reaches(s, s.(net := NetIdle, cb := s.cb + [s.net.c], httpCount := s.httpCount - 1))
  {
    var s1 := s.(net := HandedOver, cb := s.cb + [s.net.c]);
    ReachStep(s, NetPush, s1);
    ReachThen(s, s1, NetRelease, s.(net := NetIdle, cb := s.cb + [s.net.c], httpCount := s.httpCount - 1));
  }

  lemma FetchOne(s: State)
    requires s.net.NetIdle? && s.http != []
    ensures Reaches(s, FetchedOne(s))
  {
    var s1 := s.(net := Handing(s.http[0], true), http := s.http[1..], cbCount := s.cbCount + 1);
    TakeReply(s);
    HandOver(s1);
    ReachAlso(s, s1, FetchedOne(s));
  }

  function Fetched(s: State): State {
    s.(http := [], httpCount := s.httpCount - |s.http|, cb := s.cb + s.http, cbCount := s.cbCount + |s.http|)
  }

  lemma FetchedAgain(s: State)
    requires s.http != []
    ensures Fetched(FetchedOne(s)) == Fetched(s)
  {
    assert s.cb + [s.http[0]] + s.http[1..] == s.cb + s.http;
  }

  lemma {:induction false} FetchAll(s: State)
    requires s.net.NetIdle?
    ensures Reaches(s, Fetched(s))
    decreases |s.http|
  {
    if s.http == [] {
      assert s.cb + [] == s.cb;
      ReachSelf(s);
    } else {
      FetchOne(s);
      var s1 := FetchedOne(s);
      FetchAll(s1);
      FetchedAgain(s);
      ReachAlso(s, s1, Fetched(s));
    }
  }

  /** The main thread has passed its first wait while only a local command is queued. */
  ghost predicate OneLocalLeft(s: State, local: Command) {
    && s.main == Waiting(2) && s.http == [] && s.httpCount == 0 && s.net == NetIdle
    && s.cb == [local] && s.cbCount == 1 && s.work == WorkIdle && IsLocal(local.ct)
  }

  /** The callback worker takes the only queued command, runs its callback and is about to pass on. */
  function Called(s: State): State
    requires s.cb != []
  {
    Finish(s, s.cb[0].change).(cb := s.cb[1..], work := Passing(IsLocal(s.cb[0].ct), Deliver(s.cb[0]), false))
  }

  lemma CallFirst(s: State)
    requires s.work.WorkIdle? && s.cb != []
    ensures Reaches(s, Called(s))
  {
    var s1 := s.(work := Calling(s.cb[0]), cb := s.cb[1..]);
    ReachStep(s, WorkPop, s1);
    ReachThen(s, s1, WorkFinish, Called(s));
  }

  lemma StopWorking(s: State)
    requires s.work == Passing(true, [], false) && s.main == Waiting(2) && s.cbCount == 1
    ensures Reaches(s, s.(work := WorkIdle, cbCount := 0, main := Waiting(3)))
  {
    var s1 := s.(work := WorkIdle, cbCount := 0);
    ReachStep(s, WorkRelease, s1);
    ReachThen(s, s1, MainWait, s.(work := WorkIdle, cbCount := 0, main := Waiting(3)));
  }

  /** The local stage runs, its requests enter the pool, and the second wait returns. */
  lemma PassSecondWait(s: State, local: Command) returns (e: State)
    requires OneLocalLeft(s, local)
    ensures Reaches(s, e) && e.main == Waiting(3) && e.net == NetIdle
    ensures e.http == Deliver(local) && e.httpCount == |local.nexts| && e.cb == [] && e.cbCount == 0
  {
    CallFirst(s);
    var s2 := Called(s);
    SendAll(s2);
    var s3 := Sent(s2);
    assert s3.http == Deliver(local);
    ReachAlso(s, s2, s3);
    StopWorking(s3);
    e := s3.(work := WorkIdle, cbCount := 0, main := Waiting(3));
    ReachAlso(s, s3, e);
  }

  lemma SlipThrough(s: State, local: Command) returns (e: State)
    requires OneLocalLeft(s, local) && local.nexts != []
    ensures Reaches(s, e) && e.main == Passed && !Drained(e)
  {
    var s5 := PassSecondWait(s, local);
    FetchAll(s5);
    ReachAlso(s, s5, Fetched(s5));
    assert Fetched(s5).cb == Deliver(local);
    e := Next(Fetched(s5), MainWait).value;
    ReachThen(s, Fetched(s5), MainWait, e);
  }

  /** All roots of a single-rooted phase are submitted and the main thread starts to wait. */
  lemma Submitted(s: State, root: Command) returns (e: State)
    requires Initial(s, [root])
    ensures Reaches(s, e) && e.main == Waiting(1) && e.net == NetIdle && e.work == WorkIdle
    ensures e.http == (if IsLocal(root.ct) then [] else [root]) && e.httpCount == |e.http|
    ensures e.cb == (if IsLocal(root.ct) then [root] else []) && e.cbCount == |e.cb|
  {
    var s1 := Next(s, MainArm).value;
    var s2 := Next(s1, MainPush).value;
    e := Next(s2, MainStartWait).value;
    ReachStep(s, MainArm, s1);
    ReachThen(s, s1, MainPush, s2);
    ReachThen(s, s2, MainStartWait, e);
  }

  /** Up to the point where only the local stage of a single factory tree is queued. */
  lemma ReachLocalStage(s: State, f: Factory, root: Command, ch: nat, clouds: set<nat>, src: nat)
    returns (e: State, l: Command)
    requires Initial(s, [root]) && Shape(f, root, ch, clouds, src)
    ensures Reaches(s, e) && OneLocalLeft(e, l) && |l.nexts| == |LocalNode(f, root).nexts|
  {
    var s3 := Submitted(s, root);
    if Download(f).None? {
      e, l := Next(s3, MainWait).value, root;
      ReachThen(s, s3, MainWait, e);
    } else {
      FetchAll(s3);
      ReachAlso(s, s3, Fetched(s3));
      var s5 := Next(Fetched(s3), MainWait).value;
      ReachThen(s, Fetched(s3), MainWait, s5);
      e, l := FinishDownload(s5, root);
      ReachAlso(s, s5, e);
    }
  }

  lemma PassOnLocally(s: State, l: Command)
    requires s.work == Passing(false, [l], false)
    ensures Reaches(s, s.(work := WorkIdle, cb := s.cb + [l]))
  {
    var s1 := s.(work := Passing(false, [l], true), cbCount := s.cbCount + 1);
    var s2 := s.(work := Passing(false, [], false), cbCount := s.cbCount + 1, cb := s.cb + [l]);
    assert [l][1..] == [];
    ReachStep(s, WorkArm, s1);
    ReachThen(s, s1, WorkPush, s2);
    ReachThen(s, s2, WorkRelease, s.(work := WorkIdle, cb := s.cb + [l]));
  }

  lemma FinishDownload(s: State, root: Command) returns (e: State, l: Command)
    requires s.main == Waiting(2) && s.http == [] && s.httpCount == 0 && s.net == NetIdle
    requires s.cb == [root] && s.cbCount == 1 && s.work == WorkIdle
    requires !IsLocal(root.ct) && |root.nexts| == 1 && IsLocal(root.nexts[0].ct)
    ensures Reaches(s, e) && OneLocalLeft(e, l) && l.nexts == root.nexts[0].nexts
  {
    l := Deliver(root)[0];
    assert Deliver(root) == [l];
    CallFirst(s);
    PassOnLocally(Called(s), l);
    e := Called(s).(work := WorkIdle, cb := Called(s).cb + [l]);
    ReachAlso(s, Called(s), e);
  }

  /** The waits are a sound barrier for the tree: they never return early, whatever the interleaving. */
  ghost predicate BarrierHolds(s: State) {
    forall steps :: Run(s, steps).Some? && Run(s, steps).value.main == Passed ==> Drained(Run(s, steps).value)
  }

  /**
   For a tree of one of the factories the three waits are a barrier if and only if there is no cloud
   command below the local stage, that is, no cloud other than the source to reach. The change engine of
   the daemon could therefore not use them; the two-stage trees of the initial synchronisation can.
   */
  lemma BarrierExactForFactories(s: State, f: Factory, root: Command, ch: nat, clouds: set<nat>, src: nat)
    requires Initial(s, [root]) && Shape(f, root, ch, clouds, src)
    ensures BarrierHolds(s) <==> Targets(clouds, src) == {}
  {
    var local := LocalNode(f, root);
    CountFan(local.nexts, CloudStage(f), ch, Targets(clouds, src));
    if Targets(clouds, src) == {} {
      assert CallbacksStayLocal(root);
      forall steps | Run(s, steps).Some? && Run(s, steps).value.main == Passed
        ensures Drained(Run(s, steps).value)
      {
        BarrierSound(s, [root], steps);
      }
    } else {
      var e, l := ReachLocalStage(s, f, root, ch, clouds, src);
      var e' := SlipThrough(e, l);
      ReachAlso(s, e, e');
      var steps :| Run(s, steps) == Some(e');
    }
  }
}
