/** Values shared by every component: relative paths, entry kinds, check sums. */
module Common {

  datatype Option<+T> = None | Some(value: T)

  /** A path relative to the synchronised root, as the list of its components. */
  type Path = seq<string>

  function Parent(p: Path): Path {
    if p == [] then [] else p[..|p| - 1]
  }

  function Filename(p: Path): string {
    if p == [] then "" else p[|p| - 1]
  }

  datatype EntryType = File | Directory | Document | Null

  datatype ChangeType = New | Update | Move | Rename | Delete

  /** A check sum is text when a cloud reported it and a number when it was computed from the local file. */
  datatype CheckSum = Text(text: string) | Number(number: nat)

  ghost predicate NoDuplicates<T(!new)>(s: seq<T>) {
    forall i, j :: 0 <= i < j < |s| ==> s[i] != s[j]
  }

  /** `order` runs through `items`, each once. */
  ghost predicate Lists<T(!new)>(order: seq<T>, items: set<T>) {
    (forall x :: x in order <==> x in items) && NoDuplicates(order)
  }

  lemma ListsMore<T(!new)>(order: seq<T>, items: set<T>, x: T)
    requires Lists(order, items) && x !in items
    ensures Lists(order + [x], items + {x})
  {
  }

  lemma OneLess<T>(all: set<T>, rest: set<T>, x: T)
    requires x in rest && rest <= all
    ensures all - (rest - {x}) == all - rest + {x}
  {
  }

  lemma NoneLeft<T>(all: set<T>)
    ensures all - {} == all && all - all == {}
  {
  }

  lemma Unchanged<K, V>(m: map<K, V>, k: K)
    requires k in m
    ensures m[k := m[k]] == m
  {
  }
}
