/** Small facts about sequences and their multisets, shared by the queue models. */
module Sequences {

  /** The elements that satisfy `p`, in order. */
  function Select<T(!new)>(s: seq<T>, p: T -> bool): (r: seq<T>)
    ensures forall x :: x in r <==> x in s && p(x)
  {
    if s == [] then [] else (if p(s[0]) then [s[0]] else []) + Select(s[1..], p)
  }

  /** The elements that do not satisfy `p`, in order. */
  function Reject<T(!new)>(s: seq<T>, p: T -> bool): (r: seq<T>)
    ensures forall x :: x in r <==> x in s && !p(x)
  {
    if s == [] then [] else (if p(s[0]) then [] else [s[0]]) + Reject(s[1..], p)
  }

  /** `part` stands somewhere in `s`. */
  predicate Contains<T(==)>(s: seq<T>, part: seq<T>) {
    part <= s || (s != [] && Contains(s[1..], part))
  }

  lemma {:induction false} SelectReject<T(!new)>(s: seq<T>, p: T -> bool)
    ensures multiset(Select(s, p)) + multiset(Reject(s, p)) == multiset(s)
  {
    if s != [] {
      SelectReject(s[1..], p);
      assert s == [s[0]] + s[1..];
    }
  }

  /** No element occurs twice. */
  ghost predicate Distinct<T(!new)>(s: seq<T>) {
    forall x :: multiset(s)[x] <= 1
  }

  lemma SliceSplits<T>(s: seq<T>, k: nat)
    requires k <= |s|
    ensures multiset(s) == multiset(s[..k]) + multiset(s[k..])
  {
    assert s == s[..k] + s[k..];
  }

  /** Appending keeps a sequence distinct exactly when what is appended is distinct and new. */
  lemma DistinctAppend<T(!new)>(s: seq<T>, t: seq<T>)
    requires Distinct(s) && Distinct(t)
    ensures Distinct(s + t) <==> forall x :: x in t ==> x !in s
  {
    if forall x :: x in t ==> x !in s {
      forall x ensures multiset(s + t)[x] <= 1 {
        assert multiset(s)[x] == 0 || x in s;
        assert multiset(t)[x] == 0 || x in t;
      }
    } else {
      var x :| x in t && x in s;
      assert multiset(s + t) == multiset(s) + multiset(t);
      assert multiset(s + t)[x] >= 2;
    }
  }

  lemma DistinctParts<T(!new)>(s: seq<T>, t: seq<T>)
    requires Distinct(s + t)
    ensures Distinct(s) && Distinct(t) && forall x :: x in t ==> x !in s
  {
    forall x ensures multiset(s)[x] + multiset(t)[x] <= 1 {
      assert multiset(s + t)[x] == multiset(s)[x] + multiset(t)[x];
    }
    forall x | x in t ensures x !in s {
      assert x in multiset(t) && multiset(s)[x] == 0;
    }
  }

  /** Exchanging `w` for `x` inside a sum, when `q` and `p` make up for it. */
  lemma Exchange<T>(rest: multiset<T>, x: multiset<T>, q: multiset<T>, w: multiset<T>, p: multiset<T>)
    requires w + p == x + q
    ensures (rest + x) + q == (rest + w) + p
  {
    assert (rest + x) + q == rest + (x + q);
    assert (rest + w) + p == rest + (w + p);
  }
}
