/** The hash as a parameter, and what a chain of hashes is worth.

    SHA-256 is any function from text to text. Results that need it to be collision
    free or to miss an anchor such as "GENESIS" say so in their preconditions. */
module Hashing {

  type Hash = string -> string

  ghost predicate CollisionFree(h: Hash) {
    forall x, y :: h(x) == h(y) ==> x == y
  }

  /** No text hashes to the anchor that an empty chain starts from. */
  ghost predicate Avoids(h: Hash, anchor: string) {
    forall x :: h(x) != anchor
  }

  /** The two assumptions can hold together, for any anchor. */
  lemma IdealHashExists(anchor: string)
    ensures exists h: Hash :: CollisionFree(h) && Avoids(h, anchor)
  {
    var h: Hash := (x: string) => (anchor + "#") + x;
    forall x, y | h(x) == h(y) ensures x == y {
      assert x == h(x)[|anchor| + 1..] && y == h(y)[|anchor| + 1..];
    }
    forall x ensures h(x) != anchor {
      assert |h(x)| > |anchor|;
    }
    assert CollisionFree(h) && Avoids(h, anchor);
  }

  // ---------------------------------------------------------------------
  // Chains of entries of any type
  // ---------------------------------------------------------------------

  /** How to read an entry: the link it carries, the hash it carries, and the hash
      that its other fields (the link included) recompute to. */
  datatype View<!E> = View(prev: E -> string, hash: E -> string, digest: E -> string)

  /** The hash that the entry after the first n must link to. */
  function TipAt<E>(view: View<E>, anchor: string, es: seq<E>, n: nat): string
    requires n <= |es|
  {
    if n == 0 then anchor else view.hash(es[n - 1])
  }

  function Tip<E>(view: View<E>, anchor: string, es: seq<E>): string {
    TipAt(view, anchor, es, |es|)
  }

  /** Each entry carries the hash of the entry before it. */
  ghost predicate Linked<E>(view: View<E>, anchor: string, es: seq<E>) {
    forall i {:trigger view.prev(es[i])} | 0 <= i < |es| :: view.prev(es[i]) == TipAt(view, anchor, es, i)
  }

  /** Each entry carries the hash of its own fields. */
  ghost predicate Sealed<E>(view: View<E>, es: seq<E>) {
    forall i | 0 <= i < |es| :: view.hash(es[i]) == view.digest(es[i])
  }

  ghost predicate Intact<E>(view: View<E>, anchor: string, es: seq<E>) {
    Linked(view, anchor, es) && Sealed(view, es)
  }

  lemma LinkedAppend<E>(view: View<E>, anchor: string, es: seq<E>, e: E)
    requires Linked(view, anchor, es) && view.prev(e) == Tip(view, anchor, es)
    ensures Linked(view, anchor, es + [e])
  {
    var fs := es + [e];
    forall i | 0 <= i < |fs| ensures view.prev(fs[i]) == TipAt(view, anchor, fs, i) {
      assert i > 0 ==> fs[i - 1] == es[i - 1];
    }
  }

  lemma IntactAppend<E>(view: View<E>, anchor: string, es: seq<E>, e: E)
    requires Intact(view, anchor, es)
    requires view.prev(e) == Tip(view, anchor, es) && view.hash(e) == view.digest(e)
    ensures Intact(view, anchor, es + [e])
  {
    LinkedAppend(view, anchor, es, e);
  }

  lemma IntactDropLast<E>(view: View<E>, anchor: string, es: seq<E>, e: E)
    requires Intact(view, anchor, es + [e])
    ensures Intact(view, anchor, es) && view.prev(e) == Tip(view, anchor, es)
  {
    var fs := es + [e];
    forall i | 0 <= i < |es|
      ensures view.prev(es[i]) == TipAt(view, anchor, es, i) && view.hash(es[i]) == view.digest(es[i])
    {
      assert fs[i] == es[i] && view.prev(fs[i]) == TipAt(view, anchor, fs, i);
    }
    assert fs[|es|] == e && view.prev(fs[|es|]) == TipAt(view, anchor, fs, |es|);
  }

  /** Equal digests only for entries that are the same and carry the same link. */
  ghost predicate Binding<E(!new)>(view: View<E>, same: (E, E) -> bool) {
    forall e, f :: view.digest(e) == view.digest(f) ==> same(e, f) && view.prev(e) == view.prev(f)
  }

  lemma {:induction false} SameUpTo<E(!new)>(view: View<E>, same: (E, E) -> bool, anchor: string,
                                             a: seq<E>, m: nat, b: seq<E>, n: nat)
    requires Binding(view, same) && forall e :: view.digest(e) != anchor
    requires Intact(view, anchor, a) && Intact(view, anchor, b) && m <= |a| && n <= |b|
    requires TipAt(view, anchor, a, m) == TipAt(view, anchor, b, n)
    ensures m == n
    ensures forall i | 0 <= i < m :: same(a[i], b[i]) && view.hash(a[i]) == view.hash(b[i])
  {
    if m > 0 && n > 0 {
      var e, f := a[m - 1], b[n - 1];
      assert view.digest(e) == view.digest(f);
      assert view.prev(e) == view.prev(f);
      SameUpTo(view, same, anchor, a, m - 1, b, n - 1);
    }
  }

  /** Two intact chains with one tip are the same chain: no edit, insertion, deletion
      or reordering leaves the tip unchanged. */
  lemma TamperEvident<E(!new)>(view: View<E>, same: (E, E) -> bool, anchor: string, a: seq<E>, b: seq<E>)
    requires Binding(view, same) && forall e :: view.digest(e) != anchor
    requires Intact(view, anchor, a) && Intact(view, anchor, b)
    requires Tip(view, anchor, a) == Tip(view, anchor, b)
    ensures |a| == |b|
    ensures forall i | 0 <= i < |a| :: same(a[i], b[i]) && view.hash(a[i]) == view.hash(b[i])
  {
    SameUpTo(view, same, anchor, a, |a|, b, |b|);
  }
}
