/** Parent links: n-fold parents, ancestors and last common ancestors.
  * The same definitions serve sidechain and mainchain headers. */
module Ancestry {
  import opened Wrappers
  import opened Types

  type Parents = map<Hash, Option<Hash>>
  type Heights = map<Hash, nat>

  /** The n-fold parent of `b`. */
  function Nth(p: Parents, b: Hash, n: nat): Option<Hash>
    decreases n
  {
    if n == 0 then Some(b)
    else if b in p && p[b].Some? then Nth(p, p[b].value, n - 1)
    else None
  }

  /** Every parent is stored, and heights count the distance from a genesis block. */
  ghost predicate Ranked(p: Parents, h: Heights) {
    && h.Keys == p.Keys
    && forall b {:trigger p[b]} :: b in p ==>
         match p[b]
         case None => h[b] == 0
         case Some(q) => q in p && h[b] == h[q] + 1
  }

  /** `a` is `d`, or a parent of it, or a parent of that, and so on. */
  ghost predicate IsAncestor(p: Parents, a: Hash, d: Hash) {
    exists n: nat :: Nth(p, d, n) == Some(a)
  }

  lemma RankedKeys(p: Parents, h: Heights)
    requires Ranked(p, h)
    ensures h.Keys == p.Keys
  {
  }

  lemma {:induction false} NthAdd(p: Parents, b: Hash, m: nat, n: nat)
    ensures Nth(p, b, m + n) == (match Nth(p, b, m) case None => None case Some(c) => Nth(p, c, n))
    decreases m
  {
    if m > 0 && b in p && p[b].Some? {
      NthAdd(p, p[b].value, m - 1, n);
    }
  }

  /** The n-fold parent exists exactly up to the height, and is n lower. */
  lemma {:induction false} NthHeight(p: Parents, h: Heights, b: Hash, n: nat)
    requires Ranked(p, h) && b in p
    ensures Nth(p, b, n).Some? <==> n <= h[b]
    ensures Nth(p, b, n).Some? ==> Nth(p, b, n).value in p && h[Nth(p, b, n).value] == h[b] - n
    decreases n
  {
    if n > 0 && p[b].Some? {
      NthHeight(p, h, p[b].value, n - 1);
    }
  }

  /** Ancestry is decided by the one candidate at the right height. */
  lemma AncestorByHeight(p: Parents, h: Heights, a: Hash, d: Hash)
    requires Ranked(p, h) && a in p && d in p
    ensures IsAncestor(p, a, d) <==> h[a] <= h[d] && Nth(p, d, h[d] - h[a]) == Some(a)
  {
    hide Nth, Ranked;
    if n: nat :| Nth(p, d, n) == Some(a) {
      NthHeight(p, h, d, n);
    }
  }

  lemma AncestorsStored(p: Parents, h: Heights, a: Hash, d: Hash)
    requires Ranked(p, h) && d in p && IsAncestor(p, a, d)
    ensures a in p && h[a] <= h[d]
  {
    var n: nat :| Nth(p, d, n) == Some(a);
    NthHeight(p, h, d, n);
  }

  lemma AncestorTrans(p: Parents, a: Hash, b: Hash, c: Hash)
    requires IsAncestor(p, a, b) && IsAncestor(p, b, c)
    ensures IsAncestor(p, a, c)
  {
    var m: nat :| Nth(p, b, m) == Some(a);
    var n: nat :| Nth(p, c, n) == Some(b);
    NthAdd(p, c, n, m);
  }

  lemma NthZero(p: Parents, b: Hash)
    ensures Nth(p, b, 0) == Some(b)
  {
  }

  lemma AncestorRefl(p: Parents, b: Hash)
    ensures IsAncestor(p, b, b)
  {
    assert Nth(p, b, 0) == Some(b);
  }

  /** A proper ancestor is an ancestor of the parent. */
  lemma AncestorStep(p: Parents, a: Hash, d: Hash)
    ensures IsAncestor(p, a, d) <==> a == d || (d in p && p[d].Some? && IsAncestor(p, a, p[d].value))
  {
    AncestorRefl(p, d);
    if n: nat :| Nth(p, d, n) == Some(a) {
      if n > 0 { assert Nth(p, p[d].value, n - 1) == Some(a); }
    }
    if d in p && p[d].Some? && IsAncestor(p, a, p[d].value) {
      var n: nat :| Nth(p, p[d].value, n) == Some(a);
      assert Nth(p, d, n + 1) == Some(a);
    }
  }

  /** Two ancestors of one block are ancestors of one another. */
  lemma AncestorsOrdered(p: Parents, h: Heights, a: Hash, b: Hash, d: Hash)
    requires Ranked(p, h) && d in p && IsAncestor(p, a, d) && IsAncestor(p, b, d)
    requires a in p && b in p && h[a] <= h[b]
    ensures IsAncestor(p, a, b)
  {
    hide Nth, Ranked;
    RankedKeys(p, h);
    AncestorsStored(p, h, b, d);
    AncestorByHeight(p, h, a, d);
    AncestorByHeight(p, h, b, d);
    NthAdd(p, d, h[d] - h[b], h[b] - h[a]);
    assert Nth(p, b, h[b] - h[a]) == Some(a);
  }

  /** Adding blocks does not change the ancestors of the old ones. */
  lemma {:induction false} NthFrame(p: Parents, p': Parents, b: Hash, n: nat)
    requires forall x :: x in p ==> x in p' && p'[x] == p[x]
    requires forall x :: x in p && p[x].Some? ==> p[x].value in p
    requires b in p
    ensures Nth(p', b, n) == Nth(p, b, n)
    decreases n
  {
    if n > 0 && p[b].Some? { NthFrame(p, p', p[b].value, n - 1); }
  }

  lemma AncestorFrame(p: Parents, p': Parents, a: Hash, b: Hash)
    requires forall x :: x in p ==> x in p' && p'[x] == p[x]
    requires forall x :: x in p && p[x].Some? ==> p[x].value in p
    requires b in p
    ensures IsAncestor(p', a, b) <==> IsAncestor(p, a, b)
  {
    forall n: nat ensures Nth(p', b, n) == Nth(p, b, n) { NthFrame(p, p', b, n); }
  }

  // ----- last common ancestors -----

  /** `c` is an ancestor of both blocks, and every other such block is an ancestor of `c`. */
  ghost predicate IsLca(p: Parents, a: Hash, b: Hash, c: Hash) {
    && IsAncestor(p, c, a) && IsAncestor(p, c, b)
    && forall x :: IsAncestor(p, x, a) && IsAncestor(p, x, b) ==> IsAncestor(p, x, c)
  }

  lemma LcaSymmetric(p: Parents, a: Hash, b: Hash, c: Hash)
    ensures IsLca(p, a, b, c) <==> IsLca(p, b, a, c)
  {
  }

  lemma LcaUnique(p: Parents, h: Heights, a: Hash, b: Hash, c: Hash, d: Hash)
    requires Ranked(p, h) && a in p && IsLca(p, a, b, c) && IsLca(p, a, b, d)
    ensures c == d
  {
    AncestorsStored(p, h, c, a);
    AncestorsStored(p, h, d, a);
    AncestorByHeight(p, h, c, d);
    AncestorByHeight(p, h, d, c);
  }

  /** Equal ancestors at one depth are equal at every greater depth. */
  lemma SameBelow(p: Parents, a: Hash, b: Hash, m: nat, n: nat)
    requires m <= n && Nth(p, a, m) == Nth(p, b, m)
    ensures Nth(p, a, n) == Nth(p, b, n)
  {
    NthAdd(p, a, m, n - m);
    NthAdd(p, b, m, n - m);
  }

  lemma CommonIsDeep(p: Parents, h: Heights, a: Hash, b: Hash, d: nat, x: Hash)
    requires Ranked(p, h) && a in p && b in p && h[a] == h[b] && d <= h[a]
    requires d > 0 ==> Nth(p, a, d - 1) != Nth(p, b, d - 1)
    requires IsAncestor(p, x, a) && IsAncestor(p, x, b)
    ensures x in p && h[x] <= h[a] - d && Nth(p, a, h[a] - h[x]) == Some(x)
  {
    hide Nth;
    AncestorsStored(p, h, x, a);
    AncestorByHeight(p, h, x, a);
    AncestorByHeight(p, h, x, b);
    var k := h[a] - h[x];
    if k < d { SameBelow(p, a, b, k, d - 1); }
  }

  /** For blocks of one height, the least depth with equal ancestors gives the
    * last common ancestor. */
  lemma LeastDepthIsLca(p: Parents, h: Heights, a: Hash, b: Hash, d: nat)
    requires Ranked(p, h) && a in p && b in p && h[a] == h[b] && d <= h[a]
    requires Nth(p, a, d) == Nth(p, b, d)
    requires d > 0 ==> Nth(p, a, d - 1) != Nth(p, b, d - 1)
    ensures Nth(p, a, d).Some? && IsLca(p, a, b, Nth(p, a, d).value)
  {
    hide Nth;
    NthHeight(p, h, a, d);
    var c := Nth(p, a, d).value;
    forall x | IsAncestor(p, x, a) && IsAncestor(p, x, b) ensures IsAncestor(p, x, c) {
      CommonIsDeep(p, h, a, b, d, x);
      var k := h[a] - h[x];
      NthAdd(p, a, d, k - d);
      assert Nth(p, c, k - d) == Some(x);
    }
  }

  /** A block and its ancestor have one genesis block. */
  lemma GenesisOfAncestor(p: Parents, h: Heights, a: Hash, x: Hash)
    requires Ranked(p, h) && a in p && IsAncestor(p, x, a)
    ensures x in p && Nth(p, a, h[a]).Some? && Nth(p, a, h[a]) == Nth(p, x, h[x])
  {
    hide Nth;
    var n: nat :| Nth(p, a, n) == Some(x);
    NthHeight(p, h, a, n);
    NthAdd(p, a, n, h[x]);
    NthHeight(p, h, a, h[a]);
  }

  /** Moving one block down to an ancestor that is no lower than the other
    * block does not change the last common ancestor. */
  lemma LcaEqualize(p: Parents, h: Heights, a: Hash, b: Hash, a': Hash, c: Hash)
    requires Ranked(p, h) && a in p && b in p && IsAncestor(p, a', a) && h.Keys == p.Keys
    requires a' in p && h[b] <= h[a']
    ensures IsLca(p, a', b, c) ==> IsLca(p, a, b, c)
    ensures forall x :: IsAncestor(p, x, a) && IsAncestor(p, x, b) ==> IsAncestor(p, x, a')
  {
    forall x | IsAncestor(p, x, a) && IsAncestor(p, x, b) ensures IsAncestor(p, x, a') {
      AncestorsStored(p, h, x, b);
      AncestorsOrdered(p, h, x, a', a);
    }
    if IsLca(p, a', b, c) { AncestorTrans(p, c, a', a); }
  }

  /** Two blocks of one height that differ have the common ancestors of their parents. */
  lemma LcaOfParents(p: Parents, h: Heights, a: Hash, b: Hash, c: Hash)
    requires Ranked(p, h) && a in p && b in p && h[a] == h[b] && a != b
    requires p[a].Some? && p[b].Some? && IsLca(p, p[a].value, p[b].value, c)
    ensures IsLca(p, a, b, c)
  {
    hide IsAncestor, Nth;
    NthZero(p, a);
    NthZero(p, b);
    AncestorByHeight(p, h, a, b);
    AncestorByHeight(p, h, b, a);
    forall x ensures IsAncestor(p, x, a) <==> x == a || IsAncestor(p, x, p[a].value) { AncestorStep(p, x, a); }
    forall x ensures IsAncestor(p, x, b) <==> x == b || IsAncestor(p, x, p[b].value) { AncestorStep(p, x, b); }
  }

  /** Blocks above one genesis block have a last common ancestor. */
  lemma {:induction false} LcaExists(p: Parents, h: Heights, a: Hash, b: Hash) returns (c: Hash)
    requires Ranked(p, h) && a in p && b in p && Nth(p, a, h[a]) == Nth(p, b, h[b])
    ensures IsLca(p, a, b, c)
    decreases h[a] + h[b]
  {
    hide IsAncestor;
    AncestorRefl(p, a);
    AncestorRefl(p, b);
    if a == b {
      c := a;
    } else if h[a] > h[b] {
      c := LcaExists(p, h, p[a].value, b);
      ParentIsAncestor(p, a);
      LcaEqualize(p, h, a, b, p[a].value, c);
    } else if h[b] > h[a] {
      c := LcaExists(p, h, a, p[b].value);
      ParentIsAncestor(p, b);
      LcaSymmetric(p, a, p[b].value, c);
      LcaEqualize(p, h, b, a, p[b].value, c);
      LcaSymmetric(p, a, b, c);
    } else {
      c := LcaExists(p, h, p[a].value, p[b].value);
      LcaOfParents(p, h, a, b, c);
    }
  }

  lemma ParentIsAncestor(p: Parents, a: Hash)
    requires a in p && p[a].Some?
    ensures IsAncestor(p, p[a].value, a)
  {
    assert Nth(p, a, 1) == p[a];
  }
}
