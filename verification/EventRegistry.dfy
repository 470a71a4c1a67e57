/**
 Expected events: what the program is about to cause on a replica is registered beforehand, so that
 the report of it is not taken for a change. A batch of reports works on a snapshot of the registry.
 */
module EventRegistry {
  import opened Common

  function Emplace(m: map<string, ChangeType>, key: string, ct: ChangeType): map<string, ChangeType> {
    if key in m then m else m[key := ct]
  }

  predicate Expects(m: map<string, ChangeType>, key: string, ct: ChangeType) {
    key in m && m[key] == ct
  }

  function Consume(m: map<string, ChangeType>, key: string, ct: ChangeType): map<string, ChangeType> {
    if Expects(m, key, ct) then m - {key} else m
  }

  class ThreadSafeEventsRegistry {
    var m: map<string, ChangeType>

    constructor ()
      ensures m == map[]
    {
      m := map[];
    }

    /** A key that is already held keeps its first type. */
    method Add(key: string, ct: ChangeType)
      modifies this
      ensures m == Emplace(old(m), key, ct)
      ensures m == if key in old(m) then old(m) else old(m)[key := ct]
    {
      if key !in m {
        m := m[key := ct];
      }
    }

    method Check(key: string, ct: ChangeType) returns (found: bool)
      modifies this
      ensures found == Expects(old(m), key, ct)
      ensures m == Consume(old(m), key, ct)
      ensures found <==> key in old(m) && old(m)[key] == ct
      ensures m == if found then old(m) - {key} else old(m)
    {
      if key in m && m[key] == ct {
        m := m - {key};
        return true;
      }
      return false;
    }

    method CopyMap() returns (snapshot: map<string, ChangeType>)
      modifies this
      ensures snapshot == old(m) && m == map[]
    {
      snapshot := m;
      m := map[];
    }
  }

  class PrevEventsRegistry {
    var m: map<string, ChangeType>

    constructor (snapshot: map<string, ChangeType>)
      ensures m == snapshot
    {
      m := snapshot;
    }

    method Add(key: string, ct: ChangeType)
      modifies this
      ensures m == Emplace(old(m), key, ct)
      ensures m == if key in old(m) then old(m) else old(m)[key := ct]
    {
      if key !in m {
        m := m[key := ct];
      }
    }

    method Check(key: string, ct: ChangeType) returns (found: bool)
      modifies this
      ensures found == Expects(old(m), key, ct)
      ensures m == Consume(old(m), key, ct)
      ensures found <==> key in old(m) && old(m)[key] == ct
      ensures m == if found then old(m) - {key} else old(m)
    {
      if key in m && m[key] == ct {
        m := m - {key};
        return true;
      }
      return false;
    }
  }

  // ---- whole histories -------------------------------------------------------------------------

  /** What happens over time: registrations, starts of a batch, and checks made for reported entries. */
  datatype Event = Register(key: string, ct: ChangeType) | Batch | Report(key: string, ct: ChangeType)

  datatype Registries = Registries(live: map<string, ChangeType>, snapshot: map<string, ChangeType>)

  /** The two registries after the first `n` events. */
  function After(h: seq<Event>, n: nat): Registries
    requires n <= |h|
  {
    if n == 0 then Registries(map[], map[])
    else
      var s := After(h, n - 1);
      match h[n - 1]
      case Register(k, t) => s.(live := Emplace(s.live, k, t))
      case Batch => Registries(map[], s.live)
      case Report(k, t) => s.(snapshot := Consume(s.snapshot, k, t))
  }

  /** The answer of the check made at event `n`. */
  predicate Suppressed(h: seq<Event>, n: nat)
    requires n < |h| && h[n].Report?
  {
    Expects(After(h, n).snapshot, h[n].key, h[n].ct)
  }

  /** Index just after the last Batch among the first `n` events. */
  function WindowStart(h: seq<Event>, n: nat): (w: nat)
    requires n <= |h|
    ensures w <= n && (w > 0 ==> h[w - 1] == Batch)
    ensures forall i :: w <= i < n ==> h[i] != Batch
  {
    if n == 0 then 0 else if h[n - 1] == Batch then n else WindowStart(h, n - 1)
  }

  /** Event `r` is the first registration of its key in [lo, hi), and it names type `t`. */
  ghost predicate FirstAt(h: seq<Event>, lo: nat, hi: nat, r: nat, k: string, t: ChangeType)
    requires hi <= |h|
  {
    lo <= r < hi && h[r] == Register(k, t) && forall i :: lo <= i < r ==> !(h[i].Register? && h[i].key == k)
  }

  ghost predicate FirstIn(h: seq<Event>, lo: nat, hi: nat, k: string, t: ChangeType)
    requires hi <= |h|
  {
    exists r: nat :: FirstAt(h, lo, hi, r, k, t)
  }

  /** Not yet reported in the batch that runs from `lo` to `hi`. */
  ghost predicate Unreported(h: seq<Event>, lo: nat, hi: nat, k: string, t: ChangeType)
    requires hi <= |h|
  {
    forall i :: lo <= i < hi ==> h[i] != Report(k, t)
  }

  /** The registration at `r` was made in the window snapshotted by the batch that `n` belongs to. */
  ghost predicate Explains(h: seq<Event>, r: nat, n: nat, k: string, t: ChangeType)
    requires n <= |h|
  {
    var b := WindowStart(h, n);
    b > 0 && FirstAt(h, WindowStart(h, b - 1), b - 1, r, k, t) && Unreported(h, b, n, k, t)
  }

  lemma FirstInOther(h: seq<Event>, lo: nat, n: nat, k: string, t: ChangeType)
    requires lo < n <= |h| && !(h[n - 1].Register? && h[n - 1].key == k)
    ensures FirstIn(h, lo, n, k, t) <==> FirstIn(h, lo, n - 1, k, t)
  {
    if FirstIn(h, lo, n, k, t) {
      var r: nat :| FirstAt(h, lo, n, r, k, t);
      assert FirstAt(h, lo, n - 1, r, k, t);
    }
    if FirstIn(h, lo, n - 1, k, t) {
      var r: nat :| FirstAt(h, lo, n - 1, r, k, t);
      assert FirstAt(h, lo, n, r, k, t);
    }
  }

  lemma FirstInSame(h: seq<Event>, lo: nat, n: nat, k: string, t: ChangeType)
    requires lo < n <= |h| && h[n - 1].Register? && h[n - 1].key == k
    ensures FirstIn(h, lo, n, k, t)
            <==> FirstIn(h, lo, n - 1, k, t)
                 || (h[n - 1].ct == t && !exists i :: lo <= i < n - 1 && h[i].Register? && h[i].key == k)
  {
    if FirstIn(h, lo, n, k, t) {
      var r: nat :| FirstAt(h, lo, n, r, k, t);
      assert r < n - 1 ==> FirstAt(h, lo, n - 1, r, k, t);
    }
    if FirstIn(h, lo, n - 1, k, t) {
      var r: nat :| FirstAt(h, lo, n - 1, r, k, t);
      assert FirstAt(h, lo, n, r, k, t);
    } else if h[n - 1].ct == t && !exists i :: lo <= i < n - 1 && h[i].Register? && h[i].key == k {
      assert FirstAt(h, lo, n, n - 1, k, t);
    }
  }

  lemma {:induction false} LiveMeaning(h: seq<Event>, n: nat, k: string, t: ChangeType)
    requires n <= |h|
    ensures Expects(After(h, n).live, k, t) <==> FirstIn(h, WindowStart(h, n), n, k, t)
  {
    if n > 0 && h[n - 1] != Batch {
      LiveMeaning(h, n - 1, k, t);
      if h[n - 1].Register? && h[n - 1].key == k {
        KeyHeld(h, n - 1, k);
        FirstInSame(h, WindowStart(h, n), n, k, t);
      } else {
        FirstInOther(h, WindowStart(h, n), n, k, t);
      }
    }
  }

  /** A key is held exactly when its window has registered it. */
  lemma {:induction false} KeyHeld(h: seq<Event>, n: nat, k: string)
    requires n <= |h|
    ensures k in After(h, n).live
            <==> exists i :: WindowStart(h, n) <= i < n && h[i].Register? && h[i].key == k
  {
    if n > 0 {
      KeyHeld(h, n - 1, k);
      if h[n - 1].Register? && h[n - 1].key == k {
        assert WindowStart(h, n) <= n - 1 < n;
      }
    }
  }

  lemma WithinBatch(h: seq<Event>, r: nat, n: nat, k: string, t: ChangeType)
    requires 0 < n <= |h| && h[n - 1] != Batch
    ensures Explains(h, r, n, k, t) <==> Explains(h, r, n - 1, k, t) && h[n - 1] != Report(k, t)
  {
    assert WindowStart(h, n) == WindowStart(h, n - 1);
  }

  lemma AtBatch(h: seq<Event>, r: nat, n: nat, k: string, t: ChangeType)
    requires 0 < n <= |h| && h[n - 1] == Batch
    ensures Explains(h, r, n, k, t) <==> FirstAt(h, WindowStart(h, n - 1), n - 1, r, k, t)
  {
  }

  ghost predicate Explained(h: seq<Event>, n: nat, k: string, t: ChangeType)
    requires n <= |h|
  {
    exists r: nat :: Explains(h, r, n, k, t)
  }

  lemma ExplainedWithin(h: seq<Event>, n: nat, k: string, t: ChangeType)
    requires 0 < n <= |h| && h[n - 1] != Batch
    ensures Explained(h, n, k, t) <==> Explained(h, n - 1, k, t) && h[n - 1] != Report(k, t)
  {
    forall r: nat { WithinBatch(h, r, n, k, t); }
    if Explained(h, n, k, t) {
      var r: nat :| Explains(h, r, n, k, t);
      assert Explains(h, r, n - 1, k, t);
    }
    if Explained(h, n - 1, k, t) && h[n - 1] != Report(k, t) {
      var r: nat :| Explains(h, r, n - 1, k, t);
      assert Explains(h, r, n, k, t);
    }
  }

  lemma ExplainedAtBatch(h: seq<Event>, n: nat, k: string, t: ChangeType)
    requires 0 < n <= |h| && h[n - 1] == Batch
    ensures Explained(h, n, k, t) <==> FirstIn(h, WindowStart(h, n - 1), n - 1, k, t)
  {
    forall r: nat { AtBatch(h, r, n, k, t); }
    if Explained(h, n, k, t) {
      var r: nat :| Explains(h, r, n, k, t);
      assert FirstAt(h, WindowStart(h, n - 1), n - 1, r, k, t);
    }
    if FirstIn(h, WindowStart(h, n - 1), n - 1, k, t) {
      var r: nat :| FirstAt(h, WindowStart(h, n - 1), n - 1, r, k, t);
      assert Explains(h, r, n, k, t);
    }
  }

  lemma {:induction false} SnapshotMeaning(h: seq<Event>, n: nat, k: string, t: ChangeType)
    requires n <= |h|
    ensures Expects(After(h, n).snapshot, k, t) <==> Explained(h, n, k, t)
  {
    if n > 0 {
      if h[n - 1] == Batch {
        LiveMeaning(h, n - 1, k, t);
        ExplainedAtBatch(h, n, k, t);
      } else {
        SnapshotMeaning(h, n - 1, k, t);
        ExplainedWithin(h, n, k, t);
      }
    }
  }

  /**
   Echo suppression is exact. A report is suppressed if and only if the window snapshotted by its own
   batch registered that key first with that very type, and no earlier report of the batch used it up. A report
   that is not suppressed, for instance because its type differs, consumes nothing.
   */
  lemma SuppressionExact(h: seq<Event>, n: nat)
    requires n < |h| && h[n].Report?
    ensures Suppressed(h, n) <==> Explained(h, n, h[n].key, h[n].ct)
    ensures !Suppressed(h, n) ==> After(h, n + 1) == After(h, n)
  {
    SnapshotMeaning(h, n, h[n].key, h[n].ct);
  }

  /** One registration suppresses at most one report over the whole history. */
  lemma SuppressesAtMostOnce(h: seq<Event>, r: nat, m: nat, n: nat)
    requires m < n < |h| && h[m].Report? && h[n].Report?
    requires Explains(h, r, m, h[m].key, h[m].ct)
    ensures !Explains(h, r, n, h[n].key, h[n].ct)
  {
    var b, b' := WindowStart(h, m), WindowStart(h, n);
    if b' > 0 && FirstAt(h, WindowStart(h, b' - 1), b' - 1, r, h[n].key, h[n].ct) {
      SameWindow(h, r, b - 1, b' - 1);
      assert b <= m < n && h[m] == Report(h[n].key, h[n].ct);
    }
  }

  /** The batch that ends the window of an event is unique. */
  lemma SameWindow(h: seq<Event>, r: nat, b: nat, b': nat)
    requires b < |h| && b' < |h| && h[b] == Batch && h[b'] == Batch
    requires WindowStart(h, b) <= r < b && WindowStart(h, b') <= r < b'
    ensures b == b'
  {
    var w, w' := WindowStart(h, b), WindowStart(h, b');
    assert !(w' <= b < b');
    assert !(w <= b' < b);
  }
}
