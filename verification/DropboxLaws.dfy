/** An entry that Dropbox reports again after its change was applied falls silent. */
module DropboxLaws {
  import opened Common
  import opened Dropbox
  import opened Emission
  import opened EventRegistry
  import opened PathIndex
  import opened Propagation
  import opened Records
  import Scheduler
  import opened Schema

  lemma ClassifyKnown(t: Tables, c: nat, e: Entry, g: nat, path: Path, link: LinkRow)
    requires e.id != "" && Known(t, c, e.id, g, path, link)
    ensures Classify(t, c, e) == if Skipped(e.path) then Silent else ClassifyLinked(c, e, e.id, g, path, link)
  {
  }

  lemma NewSettles(t: Tables, c: nat, e: Entry, t': Tables)
    requires Integrity(t) && c != 0 && e.id != ""
    requires Classify(t, c, e).EmitNew? && AppliedNew(t, Classify(t, c, e).record, t')
    ensures Classify(t', c, e) == Silent
  {
    var r := Classify(t, c, e).record;
    NewIsKnown(t, r, t');
    ClassifyKnown(t', c, e, t.lastId + 1, r.path, LinkOf(r));
  }

  lemma MoveSettles(t: Tables, c: nat, e: Entry, t': Tables)
    requires Integrity(t) && c != 0 && e.id != ""
    requires Classify(t, c, e).EmitMove? && AppliedMove(t, Classify(t, c, e).moved, t')
    ensures Classify(t', c, e) == Silent
  {
    var m := Classify(t, c, e).moved;
    MoveIsKnown(t, m, t');
    ClassifyKnown(t', c, e, m.globalId, m.newPath,
                  t.links[(m.globalId, c)].(mtime := m.mtime, parentId := m.newParentId));
  }

  lemma UpdateSettles(t: Tables, c: nat, e: Entry, t': Tables)
    requires Integrity(t) && c != 0 && e.id != ""
    requires Classify(t, c, e).EmitUpdate? && AppliedUpdate(t, Classify(t, c, e).updated, t')
    ensures Classify(t', c, e) == Silent
  {
    var u := Classify(t, c, e).updated;
    UpdateIsKnown(t, u, t');
    ClassifyKnown(t', c, e, u.globalId, PathOf(t, u.globalId),
                  t.links[(u.globalId, c)].(hash := CloudHash(u.hash), mtime := u.mtime, size := u.size));
  }

  lemma MoveUpdateSettles(t: Tables, c: nat, e: Entry, mid: Tables, t': Tables)
    requires Integrity(t) && c != 0 && e.id != ""
    requires Classify(t, c, e).EmitMoveUpdate?
    requires AppliedMove(t, Classify(t, c, e).moved, mid) && AppliedUpdate(mid, Classify(t, c, e).updated, t')
    ensures Classify(t', c, e) == Silent
  {
    var m, u := Classify(t, c, e).moved, Classify(t, c, e).updated;
    MoveIsKnown(t, m, mid);
    UpdateIsKnown(mid, u, t');
    var link := t.links[(m.globalId, c)].(mtime := m.mtime, parentId := m.newParentId);
    ClassifyKnown(t', c, e, m.globalId, m.newPath,
                  link.(hash := CloudHash(u.hash), mtime := u.mtime, size := u.size));
  }

  /** A deletion reported with its id repeats exactly when a second link of the cloud carries that id. */
  lemma DeleteSettles(t: Tables, c: nat, e: Entry)
    requires Integrity(t) && e.id != ""
    requires Classify(t, c, e).EmitDelete?
    ensures var g := Classify(t, c, e).deleted.globalId;
            Classify(DeleteFileAndLinks(t, g), c, e) == Silent <==> forall h :: h != g ==> !IsLink(t, h, c, e.id)
  {
    AfterDelete(t, Classify(t, c, e).deleted.globalId, c, e.id);
  }

  lemma NoRowLeft(t: Tables, path: Path, g: nat)
    requires Integrity(t) && UniquePaths(t) && FindByPath(t, path) == Some(g)
    ensures FindByPath(DeleteFileAndLinks(t, g), path).None?
  {
  }

  /** A deletion reported by path alone does not repeat if paths and ids are unique and no id is empty. */
  lemma DeleteByPathSettles(t: Tables, c: nat, e: Entry)
    requires Integrity(t) && UniquePaths(t) && UniqueCloudFileIds(t, c) && NonEmptyIds(t)
    requires e.id == "" && Classify(t, c, e).EmitDelete?
    ensures Classify(DeleteFileAndLinks(t, Classify(t, c, e).deleted.globalId), c, e) == Silent
  {
    var g := Classify(t, c, e).deleted.globalId;
    var t' := DeleteFileAndLinks(t, g);
    var r := FindByPath(t, e.path);
    AfterDelete(t, g, c, "");
    assert FindLink(t, c, "").None?;
    assert r.Some? && IsLink(t, r.value, c, IdOf(t, c, e));
    assert IsLink(t, g, c, IdOf(t, c, e));
    NoRowLeft(t, e.path, g);
    assert IdOf(t', c, e) == "";
  }

  /** No sync loop: the change emitted for an entry, once applied, is never emitted for it again. */
  lemma NoSyncLoop(t: Tables, c: nat, e: Entry, t': Tables)
    requires Integrity(t) && c != 0 && NonEmptyIds(t)
    requires e.tag == TagDeleted || e.id != ""
    requires e.tag == TagDeleted ==> UniqueCloudFileIds(t, c) && (e.id != "" || UniquePaths(t))
    requires Applied(t, Classify(t, c, e), t')
    ensures Classify(t', c, e) == Silent
  {
    match Classify(t, c, e)
    case Silent =>
    case EmitNew(_) => NewSettles(t, c, e, t');
    case EmitMove(_) => MoveSettles(t, c, e, t');
    case EmitUpdate(_) => UpdateSettles(t, c, e, t');
    case EmitMoveUpdate(m, u) =>
      var mid :| AppliedMove(t, m, mid) && AppliedUpdate(mid, u, t');
      MoveUpdateSettles(t, c, e, mid, t');
    case EmitDelete(d) =>
      if e.id != "" {
        DeleteSettles(t, c, e);
        assert IsLink(t, d.globalId, c, e.id);
      } else {
        DeleteByPathSettles(t, c, e);
      }
  }

  // ---- what the scheduler is handed ------------------------------------------------------------

  ghost predicate AllMoveAway(s: Progress) {
    && (forall k :: 0 <= k < |s.changes| ==> MovesAway(s.changes[k]))
    && (forall key :: key in s.pending ==> MovesAway(s.pending[key]))
  }

  lemma StepMovesAway(t: Tables, c: nat, s: Progress, e: Entry)
    requires AllMoveAway(s)
    ensures AllMoveAway(Step(t, c, s, e))
  {
    var out := Suppress(Classify(t, c, e), e, IdOf(t, c, e), s.expected).out;
    assert out == Silent || (out == Classify(t, c, e) && MovesAway(out));
  }

  /** No emitted change, at once or at the end of the batch, carries a dependent for its own path. */
  lemma {:induction false} EmittedCarryElsewhere(
      t: Tables, c: nat, expected: map<string, ChangeType>, es: seq<Entry>, id: nat, next: nat)
    ensures var s := Interpret(t, c, expected, es);
            && AllMoveAway(s)
            && (forall k :: 0 <= k < |s.changes| ==> Scheduler.CarriesElsewhere(TaskOf(s.changes[k], id, next)))
            && (forall key :: key in s.pending ==> Scheduler.CarriesElsewhere(TaskOf(s.pending[key], id, next)))
    decreases |es|
  {
    if es != [] {
      EmittedCarryElsewhere(t, c, expected, es[..|es| - 1], id, next);
      StepMovesAway(t, c, Interpret(t, c, expected, es[..|es| - 1]), es[|es| - 1]);
    }
    var s := Interpret(t, c, expected, es);
    forall k | 0 <= k < |s.changes|
      ensures Scheduler.CarriesElsewhere(TaskOf(s.changes[k], id, next))
    {
      MovedAwayCarriesElsewhere(s.changes[k], id, next);
    }
    forall key | key in s.pending
      ensures Scheduler.CarriesElsewhere(TaskOf(s.pending[key], id, next))
    {
      MovedAwayCarriesElsewhere(s.pending[key], id, next);
    }
  }

  // ---- whole batches ---------------------------------------------------------------------------

  /** The path an entry names, as text, and what the entry emits. */
  datatype Said = Said(key: string, out: Emitted)

  /** What the entries of a batch emit, each given what those before it left in the registry. */
  function Told(t: Tables, c: nat, expected: map<string, ChangeType>, es: seq<Entry>): seq<Said> {
    if es == [] then []
    else
      var front, e := es[..|es| - 1], es[|es| - 1];
      var left := Interpret(t, c, expected, front).expected;
      Told(t, c, expected, front) + [Said(PathText(e.path), Suppress(Classify(t, c, e), e, IdOf(t, c, e), left).out)]
  }

  /** All but the deletions. */
  function Prompt(told: seq<Said>): seq<Emitted> {
    if told == [] then []
    else
      var out := told[|told| - 1].out;
      Prompt(told[..|told| - 1]) + (if out.Silent? || out.EmitDelete? then [] else [out])
  }

  predicate Deletes(s: Said, key: string) {
    s.key == key && s.out.EmitDelete?
  }

  predicate MovesTo(s: Said, key: string) {
    s.key == key && (s.out.EmitMove? || s.out.EmitMoveUpdate?)
  }

  /** Deletion `i` of `key` has been followed by a move to it, before `n`. */
  ghost predicate Cancelled(told: seq<Said>, i: nat, n: nat, key: string)
    requires n <= |told|
  {
    exists m :: i < m < n && MovesTo(told[m], key)
  }

  /** Entry `i` deletes `key`, no later entry moves something there, and each earlier deletion was cancelled by then. */
  ghost predicate Waits(told: seq<Said>, i: nat, key: string)
    requires i < |told|
  {
    && Deletes(told[i], key)
    && !Cancelled(told, i, |told|, key)
    && (forall j :: 0 <= j < i && Deletes(told[j], key) ==> Cancelled(told, j, i, key))
  }

  ghost predicate PendingAt(pending: map<string, Emitted>, told: seq<Said>, key: string) {
    if key in pending then exists i :: 0 <= i < |told| && Waits(told, i, key) && pending[key] == told[i].out
    else forall i :: 0 <= i < |told| && Deletes(told[i], key) ==> Cancelled(told, i, |told|, key)
  }

  lemma CancelledStays(told: seq<Said>, s: Said, i: nat, n: nat, key: string)
    requires n <= |told| && Cancelled(told, i, n, key)
    ensures Cancelled(told + [s], i, n, key) && Cancelled(told + [s], i, |told| + 1, key)
  {
    var m :| i < m < n && MovesTo(told[m], key);
    assert MovesTo((told + [s])[m], key);
  }

  lemma StillWaits(told: seq<Said>, s: Said, i: nat, key: string)
    requires i < |told| && Waits(told, i, key) && !MovesTo(s, key)
    ensures Waits(told + [s], i, key)
  {
    var more := told + [s];
    forall j | 0 <= j < i && Deletes(more[j], key)
      ensures Cancelled(more, j, i, key)
    {
      CancelledStays(told, s, j, i, key);
    }
  }

  lemma PendingMore(pending: map<string, Emitted>, pending': map<string, Emitted>, told: seq<Said>, s: Said, key: string)
    requires PendingAt(pending, told, key)
    requires MovesTo(s, key) ==> key !in pending'
    requires !MovesTo(s, key) && (key in pending || !Deletes(s, key)) ==>
               (key in pending' <==> key in pending) && (key in pending ==> pending'[key] == pending[key])
    requires key !in pending && Deletes(s, key) ==> key in pending' && pending'[key] == s.out
    ensures PendingAt(pending', told + [s], key)
  {
    var more := told + [s];
    if !MovesTo(s, key) && key in pending {
      var i :| 0 <= i < |told| && Waits(told, i, key) && pending[key] == told[i].out;
      StillWaits(told, s, i, key);
      assert pending'[key] == more[i].out;
    } else if MovesTo(s, key) {
      assert MovesTo(more[|told|], key);
    } else {
      forall i | 0 <= i < |told| && Deletes(more[i], key)
        ensures Cancelled(more, i, |told|, key) && Cancelled(more, i, |more|, key)
      {
        CancelledStays(told, s, i, |told|, key);
      }
      if Deletes(s, key) {
        assert Waits(more, |told|, key);
      }
    }
  }

  lemma AddKeepsPending(s: Progress, e: Entry, out: Emitted, told: seq<Said>, key: string)
    requires PendingAt(s.pending, told, key)
    ensures PendingAt(Add(s, e, out).pending, told + [Said(PathText(e.path), out)], key)
  {
    PendingMore(s.pending, Add(s, e, out).pending, told, Said(PathText(e.path), out), key);
  }

  lemma PromptMore(s: Progress, e: Entry, out: Emitted, told: seq<Said>)
    requires s.changes == Prompt(told)
    ensures Add(s, e, out).changes == Prompt(told + [Said(PathText(e.path), out)])
  {
    assert (told + [Said(PathText(e.path), out)])[..|told|] == told;
  }

  /**
   A batch yields what its entries emit, in order, but for its deletions. At its end exactly those deletions are
   left that no later move to their path has cancelled, and of several for one path the first.
   */
  lemma {:induction false} BatchExactly(
      t: Tables, c: nat, expected: map<string, ChangeType>, es: seq<Entry>, key: string)
    ensures var s, told := Interpret(t, c, expected, es), Told(t, c, expected, es);
            s.changes == Prompt(told) && PendingAt(s.pending, told, key)
    decreases |es|
  {
    if es != [] {
      var front, e := es[..|es| - 1], es[|es| - 1];
      BatchExactly(t, c, expected, front, key);
      var s, told := Interpret(t, c, expected, front), Told(t, c, expected, front);
      var v := Suppress(Classify(t, c, e), e, IdOf(t, c, e), s.expected);
      AddKeepsPending(s.(expected := v.expected), e, v.out, told, key);
      PromptMore(s.(expected := v.expected), e, v.out, told);
    }
  }
}
