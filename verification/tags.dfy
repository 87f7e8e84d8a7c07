/**
 The two list operations behind the article draft's tag editing: appending a
 tag (`Array.prototype.concat` with a one-element array) and dropping every
 occurrence of a tag (`Array.prototype.filter` with `t !== tag`).

 `RemoveAll` is characterised independently of its definition: its result is
 the unique subsequence of the input that contains no occurrence of the tag and
 keeps every other element as often as the input has it.
 */
module Tags {

  /** A tag as the draft stores it; tags are compared by value (`!==` on strings). */
  type Tag = string

  /** `xs.concat([t])`: the list with `t` appended; duplicates are kept. */
  function Append(xs: seq<Tag>, t: Tag): (r: seq<Tag>)
    ensures |r| == |xs| + 1
    ensures r[..|xs|] == xs && r[|xs|] == t
  {
    xs + [t]
  }

  /** `xs.filter(x => x !== t)`: every occurrence of `t` removed, order kept. */
  function RemoveAll(xs: seq<Tag>, t: Tag): (r: seq<Tag>)
    ensures t !in r
    ensures IsSubseq(r, xs)
    ensures forall u :: u != t ==> multiset(r)[u] == multiset(xs)[u]
    ensures |r| == |xs| - multiset(xs)[t]
    ensures t !in xs ==> r == xs
  {
    if xs == [] then []
    else
      var rest := RemoveAll(xs[1..], t);
      assert xs == [xs[0]] + xs[1..];
      if xs[0] == t then rest
      else
        assert ([xs[0]] + rest)[1..] == rest;
        [xs[0]] + rest
  }

  /**
   `r` occurs in `s` as a (not necessarily contiguous) subsequence; elements
   are matched greedily from the left, which finds an embedding whenever one
   exists.
   */
  predicate IsSubseq(r: seq<Tag>, s: seq<Tag>)
    decreases |s|
  {
    if r == [] then true
    else if s == [] then false
    else if r[0] == s[0] then IsSubseq(r[1..], s[1..])
    else IsSubseq(r, s[1..])
  }

  /** A subsequence never has more copies of anything than the sequence it is taken from. */
  lemma {:induction false} SubseqMultiset(r: seq<Tag>, s: seq<Tag>)
    requires IsSubseq(r, s)
    ensures multiset(r) <= multiset(s)
    decreases |s|
  {
    if r == [] {
    } else {
      assert s == [s[0]] + s[1..];
      if r[0] == s[0] {
        SubseqMultiset(r[1..], s[1..]);
        assert r == [r[0]] + r[1..];
      } else {
        SubseqMultiset(r, s[1..]);
      }
    }
  }

  /**
   The converse of `RemoveAll`'s contract: any subsequence of `xs` that has no
   `t` and keeps every other element's count IS `RemoveAll(xs, t)`. Together
   the two say that the filter removes exactly the occurrences of `t` and
   nothing else, without reordering.
   */
  lemma {:induction false} RemoveAllUnique(xs: seq<Tag>, t: Tag, r: seq<Tag>)
    requires t !in r
    requires IsSubseq(r, xs)
    requires forall u :: u != t ==> multiset(r)[u] == multiset(xs)[u]
    ensures r == RemoveAll(xs, t)
    decreases |xs|
  {
    if xs == [] {
    } else {
      var x := xs[0];
      assert xs == [x] + xs[1..];
      if x == t {
        assert IsSubseq(r, xs[1..]);
        RemoveAllUnique(xs[1..], t, r);
      } else {
        assert multiset(r)[x] == multiset(xs)[x] >= 1;
        assert r != [];
        if r[0] == x {
          assert r == [x] + r[1..];
          forall u | u != t
            ensures multiset(r[1..])[u] == multiset(xs[1..])[u]
          {
            assert multiset(r) == multiset{x} + multiset(r[1..]);
            assert multiset(xs) == multiset{x} + multiset(xs[1..]);
            assert multiset(r)[u] == multiset(xs)[u];
          }
          RemoveAllUnique(xs[1..], t, r[1..]);
        } else {
          SubseqMultiset(r, xs[1..]);
          assert false;
        }
      }
    }
  }

  /** Removing the same tag twice is the same as removing it once. */
  lemma RemoveAllIdempotent(xs: seq<Tag>, t: Tag)
    ensures RemoveAll(RemoveAll(xs, t), t) == RemoveAll(xs, t)
  {
    var once := RemoveAll(xs, t);
    assert t !in once;
  }

  /** The filter works element by element, so it distributes over concatenation. */
  lemma {:induction false} RemoveAllConcat(a: seq<Tag>, b: seq<Tag>, t: Tag)
    ensures RemoveAll(a + b, t) == RemoveAll(a, t) + RemoveAll(b, t)
    decreases |a|
  {
    if a == [] {
      assert a + b == b;
    } else {
      assert (a + b)[1..] == a[1..] + b;
      assert (a + b)[0] == a[0];
      RemoveAllConcat(a[1..], b, t);
    }
  }

  /** Adding a fresh tag and then removing it gives back the original list. */
  lemma AppendThenRemove(xs: seq<Tag>, t: Tag)
    requires t !in xs
    ensures RemoveAll(Append(xs, t), t) == xs
  {
    RemoveAllConcat(xs, [t], t);
    assert RemoveAll([t], t) == [];
  }

  /**
   Removing a tag after appending it removes every occurrence, including ones
   that were already there: the round trip only holds for a fresh tag.
   */
  lemma AppendThenRemoveDropsEarlierCopies(xs: seq<Tag>, t: Tag)
    ensures RemoveAll(Append(xs, t), t) == RemoveAll(xs, t)
  {
    RemoveAllConcat(xs, [t], t);
    assert RemoveAll([t], t) == [];
  }
}
