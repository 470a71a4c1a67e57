/**
 Commands, their trees, and the factory that builds one tree per change. A tree is a value; the change
 that owns it is an object whose counter every `setOwner` bumps.
 */
module Commands {
  import opened Common

  datatype CommandType =
    | LocalUpload | LocalUpdate | LocalMove | LocalDelete
    | CloudUpload | CloudUpdate | CloudMove | CloudDelete
    | CloudDownloadNew | CloudDownloadUpdate

  predicate IsLocal(ct: CommandType) {
    ct in {LocalUpload, LocalUpdate, LocalMove, LocalDelete}
  }

  datatype PayloadKind = Record | Updated | Moved | Deleted

  /** The only `setDTO` overload the command overrides; the other overloads do nothing. */
  function Accepts(ct: CommandType): PayloadKind {
    match ct
    case LocalUpload | CloudUpload | CloudDownloadNew => Record
    case LocalUpdate | CloudUpdate | CloudDownloadUpdate => Updated
    case LocalMove | CloudMove => Moved
    case LocalDelete | CloudDelete => Deleted
  }

  /** `loaded` tells whether the payload was set; `change` is the owner. */
  datatype Command = Command(ct: CommandType, cloud: nat, change: nat, loaded: bool, nexts: seq<Command>)

  /** Number of commands of one change in a tree, and in a list of trees. */
  function CountIn(c: Command, ch: nat): nat
    decreases c, 1
  {
    (if c.change == ch then 1 else 0) + Count(c.nexts, ch)
  }

  function Count(cs: seq<Command>, ch: nat): nat
    decreases cs, 0
  {
    if cs == [] then 0 else CountIn(cs[0], ch) + Count(cs[1..], ch)
  }

  lemma {:induction false} CountAppend(a: seq<Command>, b: seq<Command>, ch: nat)
    ensures Count(a + b, ch) == Count(a, ch) + Count(b, ch)
    decreases |a|
  {
    if a == [] {
      assert a + b == b;
    } else {
      CountAppend(a[1..], b, ch);
      assert (a + b)[1..] == a[1..] + b;
    }
  }

  /** What a command hands to the commands after it, once its own work is done. */
  function SetDto(n: Command, k: PayloadKind): Command {
    n.(loaded := n.loaded || Accepts(n.ct) == k)
  }

  function Deliver(c: Command): seq<Command> {
    seq(|c.nexts|, i requires 0 <= i < |c.nexts| => SetDto(c.nexts[i], Accepts(c.ct)))
  }

  /**
   Local and cloud commands alternate, so that `continueChain` submits to the executor that fits the
   next command, and all commands of a tree take the same payload and belong to the same change.
   */
  ghost predicate WellFormed(c: Command)
    decreases c
  {
    forall i :: 0 <= i < |c.nexts| ==>
      && IsLocal(c.nexts[i].ct) != IsLocal(c.ct)
      && Accepts(c.nexts[i].ct) == Accepts(c.ct)
      && c.nexts[i].change == c.change
      && WellFormed(c.nexts[i])
  }

  // ---- factory ---------------------------------------------------------------------------------

  class Change {
    const id: nat
    var pending: int
    var completed: bool

    constructor (id: nat)
      ensures this.id == id && pending == 0 && !completed
    {
      this.id := id;
      pending, completed := 0, false;
    }

    method OnCommandCreated()
      modifies this
      ensures pending == old(pending) + 1 && completed == old(completed)
    {
      pending := pending + 1;
    }

    /** True exactly for the call that brings the counter down to zero: the one that completes the change. */
    method OnCommandFinished() returns (fires: bool)
      modifies this
      ensures pending == old(pending) - 1
      ensures fires <==> pending == 0
      ensures completed == (old(completed) || fires)
    {
      fires := pending == 1;
      pending := pending - 1;
      if fires {
        completed := true;
      }
    }
  }

  /** `cs` are fresh leaves of type `ct`, one for each cloud in `targets` and no other. */
  ghost predicate FansOut(cs: seq<Command>, ct: CommandType, ch: nat, targets: set<nat>) {
    && (forall i :: 0 <= i < |cs| ==> cs[i] == Command(ct, cs[i].cloud, ch, false, []) && cs[i].cloud in targets)
    && (forall i, j :: 0 <= i < j < |cs| ==> cs[i].cloud != cs[j].cloud)
    && (forall c :: c in targets ==> exists i :: 0 <= i < |cs| && cs[i].cloud == c)
  }

  lemma FanExtends(cs: seq<Command>, n: Command, ct: CommandType, ch: nat, targets: set<nat>)
    requires FansOut(cs, ct, ch, targets) && n == Command(ct, n.cloud, ch, false, []) && n.cloud !in targets
    ensures FansOut(cs + [n], ct, ch, targets + {n.cloud})
  {
    var cs' := cs + [n];
    forall c | c in targets + {n.cloud}
      ensures exists i :: 0 <= i < |cs'| && cs'[i].cloud == c
    {
      if c == n.cloud {
        assert cs'[|cs|].cloud == c;
      } else {
        var i :| 0 <= i < |cs| && cs[i].cloud == c;
        assert cs'[i].cloud == c;
      }
    }
  }

  /** The clouds a change from `src` has to reach: all but its source and the local storage. */
  function Targets(clouds: set<nat>, src: nat): set<nat> {
    clouds - {src, 0}
  }

  /** One stage: a single local command, or one cloud command per target, visited in any order. */
  method AddNextCommands(change: Change, ct: CommandType, clouds: set<nat>, src: nat) returns (cs: seq<Command>)
    modifies change
    ensures IsLocal(ct) ==> cs == [Command(ct, 0, change.id, false, [])]
    ensures !IsLocal(ct) ==> FansOut(cs, ct, change.id, Targets(clouds, src))
    ensures forall i :: 0 <= i < |cs| ==> cs[i].nexts == [] && cs[i].change == change.id
    ensures change.pending == old(change.pending) + |cs|
  {
    cs := [];
    if IsLocal(ct) {
      change.OnCommandCreated();
      cs := [Command(ct, 0, change.id, false, [])];
      return;
    }
    var rest := clouds;
    while rest != {}
      invariant rest <= clouds
      invariant FansOut(cs, ct, change.id, Targets(clouds, src) - rest)
      invariant change.pending == old(change.pending) + |cs|
      decreases rest
    {
      var c :| c in rest;
      ghost var before, visited := cs, Targets(clouds, src) - rest;
      rest := rest - {c};
      if c != src && c != 0 {
        change.OnCommandCreated();
        cs := cs + [Command(ct, c, change.id, false, [])];
        FanExtends(before, cs[|before|], ct, change.id, visited);
        assert Targets(clouds, src) - rest == visited + {c};
      } else {
        assert Targets(clouds, src) - rest == visited;
      }
    }
    assert Targets(clouds, src) - {} == Targets(clouds, src);
  }

  /** Each stage hangs under the last command of the stage before it, or under the same parent if that stage is empty. */
  method Grow(change: Change, parent: Command, stages: seq<CommandType>, clouds: set<nat>, src: nat)
    returns (grown: Command)
    requires parent.nexts == []
    modifies change
    ensures stages == [] ==> grown == parent
    ensures grown == parent.(nexts := grown.nexts)
    ensures |stages| == 1 && IsLocal(stages[0]) ==> grown.nexts == [Command(stages[0], 0, change.id, false, [])]
    ensures |stages| == 1 && !IsLocal(stages[0]) ==>
              FansOut(grown.nexts, stages[0], change.id, Targets(clouds, src))
    ensures |stages| == 2 && IsLocal(stages[0]) && !IsLocal(stages[1]) ==>
              && |grown.nexts| == 1
              && grown.nexts[0] == Command(stages[0], 0, change.id, false, grown.nexts[0].nexts)
              && FansOut(grown.nexts[0].nexts, stages[1], change.id, Targets(clouds, src))
    ensures change.pending == old(change.pending) + Count(grown.nexts, change.id)
    decreases |stages|
  {
    if stages == [] {
      return parent;
    }
    var cs := AddNextCommands(change, stages[0], clouds, src);
    CountLeaves(cs, change.id);
    if cs == [] {
      grown := Grow(change, parent, stages[1..], clouds, src);
      return;
    }
    var last := Grow(change, cs[|cs| - 1], stages[1..], clouds, src);
    CountLeaves(cs[..|cs| - 1], change.id);
    CountAppend(cs[..|cs| - 1], [last], change.id);
    grown := parent.(nexts := cs[..|cs| - 1] + [last]);
    if |stages| == 1 {
      assert cs == cs[..|cs| - 1] + [last];
    }
  }

  lemma {:induction false} CountLeaves(cs: seq<Command>, ch: nat)
    requires forall i :: 0 <= i < |cs| ==> cs[i].nexts == [] && cs[i].change == ch
    ensures Count(cs, ch) == |cs|
    decreases |cs|
  {
    if cs != [] {
      CountLeaves(cs[1..], ch);
      assert Count(cs[0].nexts, ch) == 0;
    }
  }

  /** Builds the whole tree; the root carries its payload from the start. */
  method Make(change: Change, initial: CommandType, stages: seq<CommandType>, clouds: set<nat>, src: nat)
    returns (root: Command)
    requires change.pending == 0
    modifies change
    ensures root == Command(initial, if IsLocal(initial) then 0 else src, change.id, true, root.nexts)
    ensures |stages| == 1 && !IsLocal(stages[0]) ==>
              FansOut(root.nexts, stages[0], change.id, Targets(clouds, src))
    ensures |stages| == 2 && IsLocal(stages[0]) && !IsLocal(stages[1]) ==>
              && |root.nexts| == 1
              && root.nexts[0] == Command(stages[0], 0, change.id, false, root.nexts[0].nexts)
              && FansOut(root.nexts[0].nexts, stages[1], change.id, Targets(clouds, src))
    ensures change.pending == CountIn(root, change.id)
  {
    change.OnCommandCreated();
    var first := Command(initial, if IsLocal(initial) then 0 else src, change.id, true, []);
    root := Grow(change, first, stages, clouds, src);
  }

  // ---- the seven factories ---------------------------------------------------------------------

  datatype Factory = CloudNew | LocalNew | CloudMoved | LocalMoved | CloudUpdated | LocalUpdated | AnyDelete

  /** The download stage, if any, then the local stage, then the cloud stage. */
  function Download(f: Factory): Option<CommandType> {
    match f
    case CloudNew => Some(CloudDownloadNew)
    case CloudUpdated => Some(CloudDownloadUpdate)
    case _ => None
  }

  function LocalStage(f: Factory): CommandType {
    match f
    case CloudNew | LocalNew => LocalUpload
    case CloudMoved | LocalMoved => LocalMove
    case CloudUpdated | LocalUpdated => LocalUpdate
    case AnyDelete => LocalDelete
  }

  function CloudStage(f: Factory): CommandType {
    match f
    case CloudNew | LocalNew => CloudUpload
    case CloudMoved | LocalMoved => CloudMove
    case CloudUpdated | LocalUpdated => CloudUpdate
    case AnyDelete => CloudDelete
  }

  function LocalNode(f: Factory, root: Command): Command
    requires Download(f).Some? ==> |root.nexts| == 1
  {
    if Download(f).Some? then root.nexts[0] else root
  }

  /** The shape every factory tree has: the local stage once, and each target cloud exactly once below it. */
  ghost predicate Shape(f: Factory, root: Command, ch: nat, clouds: set<nat>, src: nat) {
    && root.loaded
    && root.change == ch
    && (Download(f).Some? ==> root.ct == Download(f).value && root.cloud == src && |root.nexts| == 1)
    && LocalNode(f, root).ct == LocalStage(f)
    && (Download(f).Some? ==> !LocalNode(f, root).loaded)
    && LocalNode(f, root).cloud == 0
    && LocalNode(f, root).change == ch
    && FansOut(LocalNode(f, root).nexts, CloudStage(f), ch, Targets(clouds, src))
  }

  lemma ReachedExactly(cs: seq<Command>, ct: CommandType, ch: nat, clouds: set<nat>, src: nat)
    requires FansOut(cs, ct, ch, Targets(clouds, src))
    ensures forall c :: (exists i :: 0 <= i < |cs| && cs[i].cloud == c) <==> c in clouds && c != src && c != 0
  {
    forall c | c in clouds && c != src && c != 0
      ensures exists i :: 0 <= i < |cs| && cs[i].cloud == c
    {
      assert c in Targets(clouds, src);
    }
  }

  /** Below the local command stands one cloud command for each cloud but the source, and nothing below those. */
  ghost predicate LocalThenClouds(
      root: Command, local: CommandType, cloud: CommandType, ch: nat, loaded: bool, clouds: set<nat>, src: nat)
  {
    && root == Command(local, 0, ch, loaded, root.nexts)
    && (forall i :: 0 <= i < |root.nexts| ==>
          root.nexts[i] == Command(cloud, root.nexts[i].cloud, ch, false, []))
    && (forall i, j :: 0 <= i < j < |root.nexts| ==> root.nexts[i].cloud != root.nexts[j].cloud)
    && (forall c :: (exists i :: 0 <= i < |root.nexts| && root.nexts[i].cloud == c)
                    <==> c in clouds && c != src && c != 0)
  }

  /** The source cloud is asked for the contents before the local command and the other clouds follow. */
  ghost predicate DownloadFirst(
      root: Command, download: CommandType, local: CommandType, cloud: CommandType, ch: nat, clouds: set<nat>, src: nat)
  {
    && root == Command(download, src, ch, true, root.nexts)
    && |root.nexts| == 1
    && LocalThenClouds(root.nexts[0], local, cloud, ch, false, clouds, src)
  }

  /** What `Shape` says, factory by factory. */
  ghost predicate Commanded(f: Factory, root: Command, ch: nat, clouds: set<nat>, src: nat) {
    match f
    case CloudNew => DownloadFirst(root, CloudDownloadNew, LocalUpload, CloudUpload, ch, clouds, src)
    case CloudUpdated => DownloadFirst(root, CloudDownloadUpdate, LocalUpdate, CloudUpdate, ch, clouds, src)
    case LocalNew => LocalThenClouds(root, LocalUpload, CloudUpload, ch, true, clouds, src)
    case LocalUpdated => LocalThenClouds(root, LocalUpdate, CloudUpdate, ch, true, clouds, src)
    case CloudMoved => LocalThenClouds(root, LocalMove, CloudMove, ch, true, clouds, src)
    case LocalMoved => LocalThenClouds(root, LocalMove, CloudMove, ch, true, clouds, src)
    case AnyDelete => LocalThenClouds(root, LocalDelete, CloudDelete, ch, true, clouds, src)
  }

  lemma ShapeCommands(f: Factory, root: Command, ch: nat, clouds: set<nat>, src: nat)
    requires Shape(f, root, ch, clouds, src)
    ensures Commanded(f, root, ch, clouds, src)
  {
    ReachedExactly(LocalNode(f, root).nexts, CloudStage(f), ch, clouds, src);
  }

  method Produce(f: Factory, change: Change, clouds: set<nat>, src: nat) returns (root: Command)
    requires change.pending == 0
    modifies change
    ensures Shape(f, root, change.id, clouds, src)
    ensures Commanded(f, root, change.id, clouds, src)
    ensures change.pending == CountIn(root, change.id)
  {
    match f {
      case CloudNew => root := Make(change, CloudDownloadNew, [LocalUpload, CloudUpload], clouds, src);
      case LocalNew => root := Make(change, LocalUpload, [CloudUpload], clouds, src);
      case CloudMoved => root := Make(change, LocalMove, [CloudMove], clouds, src);
      case LocalMoved => root := Make(change, LocalMove, [CloudMove], clouds, src);
      case CloudUpdated => root := Make(change, CloudDownloadUpdate, [LocalUpdate, CloudUpdate], clouds, src);
      case LocalUpdated => root := Make(change, LocalUpdate, [CloudUpdate], clouds, src);
      case AnyDelete => root := Make(change, LocalDelete, [CloudDelete], clouds, src);
    }
    ShapeCommands(f, root, change.id, clouds, src);
  }

  predicate IsDownload(ct: CommandType) {
    ct == CloudDownloadNew || ct == CloudDownloadUpdate
  }

  /** What is done here and what repeats it in a cloud. */
  predicate Repeats(cloud: CommandType, local: CommandType) {
    || (local == LocalUpload && cloud == CloudUpload)
    || (local == LocalUpdate && cloud == CloudUpdate)
    || (local == LocalMove && cloud == CloudMove)
    || (local == LocalDelete && cloud == CloudDelete)
  }

  /**
   Each other cloud repeats what the local stage does: the same deed, once in each, and nothing below it. A
   download stands only at the root, for new or edited contents that a cloud reported, and is followed by the
   local command that stores those contents.
   */
  lemma CloudsRepeatTheLocalDeed(f: Factory, root: Command, ch: nat, clouds: set<nat>, src: nat)
    requires Shape(f, root, ch, clouds, src)
    ensures IsDownload(root.ct) <==> f == CloudNew || f == CloudUpdated
    ensures !IsDownload(root.ct) ==> IsLocal(root.ct) && root.cloud == 0
    ensures IsDownload(root.ct) ==>
              && root.cloud == src && |root.nexts| == 1
              && (root.ct == CloudDownloadNew <==> root.nexts[0].ct == LocalUpload)
              && (root.ct == CloudDownloadUpdate <==> root.nexts[0].ct == LocalUpdate)
    ensures var local := if IsDownload(root.ct) then root.nexts[0] else root;
            && (local.ct == LocalUpload <==> f == CloudNew || f == LocalNew)
            && (local.ct == LocalUpdate <==> f == CloudUpdated || f == LocalUpdated)
            && (local.ct == LocalMove <==> f == CloudMoved || f == LocalMoved)
            && (local.ct == LocalDelete <==> f == AnyDelete)
            && (forall i :: 0 <= i < |local.nexts| ==>
                  && Repeats(local.nexts[i].ct, local.ct)
                  && local.nexts[i].nexts == []
                  && local.nexts[i].cloud in clouds && local.nexts[i].cloud != src && local.nexts[i].cloud != 0)
            && (forall c :: c in clouds && c != src && c != 0 ==>
                  exists i :: 0 <= i < |local.nexts| && local.nexts[i].cloud == c)
  {
    var local := LocalNode(f, root);
    forall c | c in clouds && c != src && c != 0
      ensures exists i :: 0 <= i < |local.nexts| && local.nexts[i].cloud == c
    {
      assert c in Targets(clouds, src);
    }
  }

  /** In a well-formed tree every command after `c` is handed its payload and is otherwise left alone. */
  lemma DeliverLoads(c: Command)
    requires WellFormed(c)
    ensures |Deliver(c)| == |c.nexts|
    ensures forall i :: 0 <= i < |c.nexts| ==> Deliver(c)[i] == c.nexts[i].(loaded := true)
  {
    forall i | 0 <= i < |c.nexts|
      ensures Deliver(c)[i] == c.nexts[i].(loaded := true)
    {
      assert Accepts(c.nexts[i].ct) == Accepts(c.ct);
    }
  }

  /** Every factory tree alternates kinds and passes one kind of payload down. */
  lemma ShapeIsWellFormed(f: Factory, root: Command, ch: nat, clouds: set<nat>, src: nat)
    requires Shape(f, root, ch, clouds, src)
    ensures WellFormed(root)
  {
    var local := LocalNode(f, root);
    assert forall i | 0 <= i < |local.nexts| :: WellFormed(local.nexts[i]);
    assert WellFormed(local);
  }

  lemma {:induction false} CountFan(cs: seq<Command>, ct: CommandType, ch: nat, targets: set<nat>)
    requires FansOut(cs, ct, ch, targets)
    ensures |cs| == |targets|
    decreases |cs|
  {
    if cs == [] {
      assert targets == {};
    } else {
      var c := cs[0].cloud;
      var rest := cs[1..];
      assert FansOut(rest, ct, ch, targets - {c}) by {
        forall d | d in targets - {c}
          ensures exists i :: 0 <= i < |rest| && rest[i].cloud == d
        {
          var i :| 0 <= i < |cs| && cs[i].cloud == d;
          assert rest[i - 1].cloud == d;
        }
      }
      CountFan(rest, ct, ch, targets - {c});
      assert targets == (targets - {c}) + {c};
    }
  }

  /** The counter of a new change: one per stage above the fan, plus one per cloud still to reach. */
  lemma ShapeSize(f: Factory, root: Command, ch: nat, clouds: set<nat>, src: nat)
    requires Shape(f, root, ch, clouds, src)
    ensures CountIn(root, ch) == (if Download(f).Some? then 2 else 1) + |Targets(clouds, src)|
  {
    var local := LocalNode(f, root);
    CountFan(local.nexts, CloudStage(f), ch, Targets(clouds, src));
    CountLeaves(local.nexts, ch);
    if Download(f).Some? {
      assert root.nexts == [local];
      assert Count(root.nexts, ch) == CountIn(local, ch) + Count(root.nexts[1..], ch);
    }
  }
}
