/** The block index kept for each chain: heights, successors, and a table of
  * ancestors at distances that are powers of two. */
module BlockIndex {
  import opened Wrappers
  import opened Types
  import opened Ancestry

  // ----- powers of two -----

  function Pow2(n: nat): nat { if n == 0 then 1 else 2 * Pow2(n - 1) }

  /** The largest k with 2^k at most n; zero for n below two. */
  function Log2(n: nat): nat { if n < 2 then 0 else 1 + Log2(n / 2) }

  /** The number of ones in the binary form of n. */
  function PopCount(n: nat): nat { if n == 0 then 0 else n % 2 + PopCount(n / 2) }

  lemma {:induction false} Log2Bounds(n: nat)
    requires n > 0
    ensures Pow2(Log2(n)) <= n < 2 * Pow2(Log2(n))
  {
    if n >= 2 { Log2Bounds(n / 2); }
  }

  lemma {:induction false} Pow2Grows(m: nat, n: nat)
    requires m < n
    ensures 2 * Pow2(m) <= Pow2(n)
    decreases n
  {
    if m < n - 1 { Pow2Grows(m, n - 1); }
  }

  lemma Log2Unique(n: nat, k: nat)
    requires Pow2(k) <= n < 2 * Pow2(k)
    ensures Log2(n) == k
  {
    Pow2Positive(k);
    Log2Bounds(n);
    if k < Log2(n) { Pow2Grows(k, Log2(n)); }
    if Log2(n) < k { Pow2Grows(Log2(n), k); }
  }

  lemma {:induction false} Pow2Positive(k: nat)
    ensures Pow2(k) > 0
  {
    if k > 0 { Pow2Positive(k - 1); }
  }

  lemma Log2Monotone(m: nat, n: nat)
    requires 0 < m <= n
    ensures Log2(m) <= Log2(n)
  {
    Log2Bounds(m);
    Log2Bounds(n);
    if Log2(n) < Log2(m) { Pow2Grows(Log2(n), Log2(m)); }
  }

  /** Clearing the top bit removes one one. */
  lemma {:induction false} PopCountDrop(n: nat)
    requires n > 0
    ensures Pow2(Log2(n)) <= n && PopCount(n - Pow2(Log2(n))) == PopCount(n) - 1
  {
    Log2Bounds(n);
    if n >= 2 {
      PopCountDrop(n / 2);
      var k := Pow2(Log2(n / 2));
      assert Pow2(Log2(n)) == 2 * k;
      assert (n - 2 * k) / 2 == n / 2 - k && (n - 2 * k) % 2 == n % 2;
      if n - 2 * k == 0 { assert n / 2 - k == 0; }
    }
  }

  // ----- the index -----

  datatype Index = Index(
    parent: Parents,
    height: Heights,
    skip: map<Hash, seq<Hash>>,
    succ: map<Option<Hash>, set<Hash>>)

  /** Entry i is the 2^(i+1)-th parent, for every power of two up to the height. */
  ghost predicate SkipOk(p: Parents, b: Hash, height: nat, e: seq<Hash>) {
    && |e| == Log2(height)
    && forall i :: 0 <= i < |e| ==> Nth(p, b, Pow2(i + 1)) == Some(e[i])
  }

  /** Successors are exactly the inverse of the parent links. */
  ghost predicate SuccOk(p: Parents, succ: map<Option<Hash>, set<Hash>>) {
    && succ.Keys == {None} + (set b | b in p :: Some(b))
    && forall k :: k in succ ==> succ[k] == set b | b in p && p[b] == k
  }

  ghost predicate Valid(ix: Index) {
    && Ranked(ix.parent, ix.height)
    && ix.skip.Keys == ix.parent.Keys
    && (forall b :: b in ix.skip ==> SkipOk(ix.parent, b, ix.height[b], ix.skip[b]))
    && SuccOk(ix.parent, ix.succ)
  }

  /** A valid index is a function of the parent links alone: it does not depend
    * on the order in which blocks arrived. */
  lemma IndexDetermined(a: Index, b: Index)
    requires Valid(a) && Valid(b) && a.parent == b.parent
    ensures a == b
  {
    hide SuccOk, SkipOk;
    forall x | x in a.parent ensures a.height[x] == b.height[x] && a.skip[x] == b.skip[x] {
      HeightDetermined(a.parent, a.height, b.height, x);
      assert SkipOk(a.parent, x, a.height[x], a.skip[x]) && SkipOk(b.parent, x, b.height[x], b.skip[x]);
      SkipDetermined(a.parent, x, a.height[x], a.skip[x], b.skip[x]);
    }
    assert a.skip == b.skip;
    SuccDetermined(a.parent, a.succ, b.succ);
  }

  lemma SuccDetermined(p: Parents, a: map<Option<Hash>, set<Hash>>, b: map<Option<Hash>, set<Hash>>)
    requires SuccOk(p, a) && SuccOk(p, b)
    ensures a == b
  {
    assert a.Keys == b.Keys;
  }

  lemma SkipDetermined(p: Parents, b: Hash, height: nat, e: seq<Hash>, e': seq<Hash>)
    requires SkipOk(p, b, height, e) && SkipOk(p, b, height, e')
    ensures e == e'
  {
    forall i | 0 <= i < |e| ensures e[i] == e'[i] {
      assert Nth(p, b, Pow2(i + 1)) == Some(e[i]);
    }
  }

  lemma {:induction false} HeightDetermined(p: Parents, h: Heights, h': Heights, b: Hash)
    requires Ranked(p, h) && Ranked(p, h') && b in p
    ensures h[b] == h'[b]
    decreases h[b]
  {
    if p[b].Some? { HeightDetermined(p, h, h', p[b].value); }
  }

  // ----- lookups -----

  datatype LookupError = NoHeight(hash: Hash) | NoAncestor(hash: Hash, depth: nat)

  /** The n-th ancestor by the skip table, in as many steps as n has ones. */
  method NthAncestor(ix: Index, b: Hash, n: nat) returns (r: Result<Hash, LookupError>, ghost steps: nat)
    requires Valid(ix)
    ensures n == 0 ==> r == Ok(b)
    ensures n > 0 && b !in ix.parent ==> r == Err(NoHeight(b))
    ensures n > 0 && b in ix.parent && n > ix.height[b] ==> r == Err(NoAncestor(b, n))
    ensures b in ix.parent && n <= ix.height[b] ==>
              r.Ok? && Nth(ix.parent, b, n) == Some(r.value) && steps == PopCount(n)
  {
    hide Nth, PopCount, Pow2, Log2, SkipOk, SuccOk, JumpIndex, Ranked, Valid;
    WalkStart(ix, b);
    var cur, left := b, n;
    steps := 0;
    while left > 0
      invariant 0 <= left <= n
      invariant left == n ==> cur == b && steps == 0
      invariant left < n ==> b in ix.parent && n <= ix.height[b]
      invariant b in ix.parent && n <= ix.height[b] ==>
                  && Nth(ix.parent, b, n - left) == Some(cur)
                  && steps + PopCount(left) == PopCount(n)
    {
      NthStays(ix, b, n, left, cur);
      if cur !in ix.height {
        return Err(NoHeight(cur)), steps;
      }
      if left > ix.height[cur] {
        return Err(NoAncestor(b, n)), steps;
      }
      steps := steps + 1;
      if left == 1 {
        LastStep(ix, b, n, cur);
        return Ok(ix.parent[cur].value), steps;
      } else {
        var i := JumpIndex(ix, cur, left);
        var rest := left - Pow2(i + 1);
        JumpStep(ix, b, n, left, rest, cur, ix.skip[cur][i]);
        cur, left := ix.skip[cur][i], rest;
      }
    }
    return Ok(cur), steps;
  }

  lemma WalkStart(ix: Index, b: Hash)
    requires Valid(ix)
    ensures Nth(ix.parent, b, 0) == Some(b) && PopCount(0) == 0
    ensures ix.height.Keys == ix.parent.Keys && ix.skip.Keys == ix.parent.Keys
  {
  }

  lemma JumpStep(ix: Index, b: Hash, n: nat, left: nat, rest: nat, cur: Hash, next: Hash)
    requires rest < left <= n && Nth(ix.parent, cur, left - rest) == Some(next)
    ensures Nth(ix.parent, b, n - left) == Some(cur) ==> Nth(ix.parent, b, n - rest) == Some(next)
  {
    hide Nth;
    NthAdd(ix.parent, b, n - left, left - rest);
    assert n - left + (left - rest) == n - rest;
  }

  lemma LastStep(ix: Index, b: Hash, n: nat, cur: Hash)
    requires Valid(ix) && n > 0 && cur in ix.parent && ix.height[cur] >= 1
    ensures ix.parent[cur].Some? && PopCount(1) == 1
    ensures Nth(ix.parent, b, n - 1) == Some(cur) ==> Nth(ix.parent, b, n) == Some(ix.parent[cur].value)
  {
    NthAdd(ix.parent, b, n - 1, 1);
    NthHeight(ix.parent, ix.height, cur, 1);
    assert Nth(ix.parent, ix.parent[cur].value, 0) == Some(ix.parent[cur].value);
  }

  /** The table entry for the largest power of two that fits. */
  function JumpIndex(ix: Index, cur: Hash, left: nat): (i: nat)
    requires Valid(ix) && cur in ix.parent && 2 <= left <= ix.height[cur]
    ensures i < |ix.skip[cur]| && 0 < Pow2(i + 1) <= left
    ensures Nth(ix.parent, cur, Pow2(i + 1)) == Some(ix.skip[cur][i])
    ensures PopCount(left - Pow2(i + 1)) == PopCount(left) - 1
  {
    JumpFacts(ix, cur, left);
    Log2(left) - 1
  }

  lemma JumpFacts(ix: Index, cur: Hash, left: nat)
    requires Valid(ix) && cur in ix.parent && 2 <= left <= ix.height[cur]
    ensures var i := Log2(left) - 1;
            && 0 <= i < |ix.skip[cur]| && 0 < Pow2(i + 1) <= left
            && Nth(ix.parent, cur, Pow2(i + 1)) == Some(ix.skip[cur][i])
            && PopCount(left - Pow2(i + 1)) == PopCount(left) - 1
  {
    hide Nth, SuccOk;
    Log2Monotone(left, ix.height[cur]);
    PopCountDrop(left);
    Pow2Positive(Log2(left));
    assert SkipOk(ix.parent, cur, ix.height[cur], ix.skip[cur]);
  }

  /** Along the walk, the block reached is stored exactly `left` or more above genesis. */
  lemma NthStays(ix: Index, b: Hash, n: nat, left: nat, cur: Hash)
    requires Valid(ix) && left <= n
    requires b in ix.parent && n <= ix.height[b] ==> Nth(ix.parent, b, n - left) == Some(cur)
    ensures b in ix.parent && n <= ix.height[b] ==>
              cur in ix.parent && ix.height[cur] == ix.height[b] - (n - left) && left <= ix.height[cur]
  {
    if b in ix.parent && n <= ix.height[b] { NthHeight(ix.parent, ix.height, b, n - left); }
  }

  /** Decides the ancestor relation between stored blocks. */
  method IsDescendant(ix: Index, ancestor: Hash, descendant: Hash) returns (r: Result<bool, LookupError>)
    requires Valid(ix)
    ensures ancestor == descendant ==> r == Ok(true)
    ensures ancestor != descendant && (ancestor !in ix.parent || descendant !in ix.parent) ==> r.Err?
    ensures ancestor in ix.parent && descendant in ix.parent ==>
              r == Ok(IsAncestor(ix.parent, ancestor, descendant))
  {
    hide Nth, Ranked, Valid, IsAncestor, PopCount;
    WalkStart(ix, descendant);
    AncestorRefl(ix.parent, ancestor);
    if ancestor == descendant { return Ok(true); }
    if ancestor !in ix.height { return Err(NoHeight(ancestor)); }
    if descendant !in ix.height { return Err(NoHeight(descendant)); }
    DescendantByHeight(ix, ancestor, descendant);
    if ix.height[ancestor] > ix.height[descendant] { return Ok(false); }
    var at, _ := NthAncestor(ix, descendant, ix.height[descendant] - ix.height[ancestor]);
    return Ok(at.value == ancestor);
  }

  lemma DescendantByHeight(ix: Index, a: Hash, d: Hash)
    requires Valid(ix) && a in ix.parent && d in ix.parent
    ensures IsAncestor(ix.parent, a, d) <==>
            ix.height[a] <= ix.height[d] && Nth(ix.parent, d, ix.height[d] - ix.height[a]) == Some(a)
  {
    AncestorByHeight(ix.parent, ix.height, a, d);
  }

  /** The n-th ancestor exists exactly up to the height. */
  lemma NthAt(ix: Index, b: Hash, n: nat)
    requires Valid(ix) && b in ix.parent && b in ix.height
    ensures Nth(ix.parent, b, n).Some? <==> n <= ix.height[b]
    ensures n <= ix.height[b] ==>
              var c := Nth(ix.parent, b, n).value;
              c in ix.parent && c in ix.height && ix.height[c] == ix.height[b] - n
  {
    hide Nth, SkipOk, SuccOk;
    NthHeight(ix.parent, ix.height, b, n);
  }

  /** An ancestor is stored, and where its height says. */
  lemma AncestorAt(ix: Index, c: Hash, b: Hash)
    requires Valid(ix) && b in ix.parent && IsAncestor(ix.parent, c, b)
    ensures c in ix.parent && c in ix.height && b in ix.height && ix.height[c] <= ix.height[b]
    ensures Nth(ix.parent, b, ix.height[b] - ix.height[c]) == Some(c)
  {
    hide Nth, IsAncestor, SkipOk, SuccOk;
    AncestorsStored(ix.parent, ix.height, c, b);
    DescendantByHeight(ix, c, b);
  }

  /** Ancestors on one index are ordered by height. */
  lemma AncestorHeight(ix: Index, a: Hash, b: Hash)
    requires Valid(ix) && b in ix.parent && IsAncestor(ix.parent, a, b)
    ensures a in ix.parent && a in ix.height && b in ix.height && ix.height[a] <= ix.height[b]
    ensures ix.height[a] == ix.height[b] ==> a == b
  {
    hide IsAncestor, SkipOk, SuccOk;
    AncestorsStored(ix.parent, ix.height, a, b);
    AncestorByHeight(ix.parent, ix.height, a, b);
  }

  /** Whether two stored blocks have the same genesis block. */
  ghost predicate OneGenesis(ix: Index, a: Hash, b: Hash)
    requires a in ix.height && b in ix.height
  {
    Nth(ix.parent, a, ix.height[a]) == Nth(ix.parent, b, ix.height[b])
  }

  /** `c` is the last common ancestor of two blocks, if they have one. */
  ghost predicate IsCommon(ix: Index, a: Hash, b: Hash, c: Option<Hash>) {
    && (c.Some? <==> a in ix.height && b in ix.height && OneGenesis(ix, a, b))
    && (c.Some? ==> IsLca(ix.parent, a, b, c.value))
  }

  /** The higher of two blocks moved down to the height of the other. */
  ghost predicate Equalized(ix: Index, a: Hash, b: Hash, a': Hash, b': Hash) {
    && a in ix.height && b in ix.height && a' in ix.height && b' in ix.height
    && a' in ix.parent && b' in ix.parent
    && ix.height[a'] == ix.height[b'] && ix.height[a'] <= ix.height[a] && ix.height[a'] <= ix.height[b]
    && (ix.height[a'] == ix.height[a] ==> a' == a) && (ix.height[b'] == ix.height[b] ==> b' == b)
    && (a' == a || b' == b)
    && IsAncestor(ix.parent, a', a) && IsAncestor(ix.parent, b', b)
  }

  method Equalize(ix: Index, a: Hash, b: Hash) returns (a': Hash, b': Hash)
    requires Valid(ix) && a in ix.parent && b in ix.parent
    ensures Equalized(ix, a, b, a', b')
  {
    hide Nth, Ranked, Valid, IsAncestor, PopCount;
    WalkStart(ix, a);
    AncestorRefl(ix.parent, a);
    AncestorRefl(ix.parent, b);
    a', b' := a, b;
    if ix.height[a] < ix.height[b] {
      var r, _ := NthAncestor(ix, b, ix.height[b] - ix.height[a]);
      b' := r.value;
      NthIsAncestor(ix, b, ix.height[b] - ix.height[a], b');
    } else if ix.height[a] > ix.height[b] {
      var r, _ := NthAncestor(ix, a, ix.height[a] - ix.height[b]);
      a' := r.value;
      NthIsAncestor(ix, a, ix.height[a] - ix.height[b], a');
    }
  }

  lemma NthIsAncestor(ix: Index, b: Hash, n: nat, c: Hash)
    requires Valid(ix) && b in ix.parent && Nth(ix.parent, b, n) == Some(c)
    ensures c in ix.parent && n <= ix.height[b] && ix.height[c] == ix.height[b] - n && IsAncestor(ix.parent, c, b)
  {
    NthHeight(ix.parent, ix.height, b, n);
  }

  /** Equalizing keeps common ancestors, and so the genesis comparison too. */
  lemma EqualizedLca(ix: Index, a: Hash, b: Hash, a': Hash, b': Hash)
    requires Valid(ix) && Equalized(ix, a, b, a', b')
    requires a in ix.parent && b in ix.parent
    ensures forall c :: IsLca(ix.parent, a', b', c) ==> IsLca(ix.parent, a, b, c)
    ensures OneGenesis(ix, a, b) <==> OneGenesis(ix, a', b')
  {
    hide Nth, IsAncestor;
    var p, h := ix.parent, ix.height;
    GenesisOfAncestor(p, h, a, a');
    GenesisOfAncestor(p, h, b, b');
    forall c | IsLca(p, a', b', c) ensures IsLca(p, a, b, c) {
      if a' == a {
        LcaSymmetric(p, a', b', c);
        LcaEqualize(p, h, b, a, b', c);
        LcaSymmetric(p, a, b, c);
      } else {
        LcaEqualize(p, h, a, b, a', c);
      }
    }
  }

  /** Binary search for the least depth at which the ancestors agree. */
  method SearchLca(ix: Index, a: Hash, b: Hash) returns (c: Hash)
    requires Valid(ix) && a in ix.parent && b in ix.parent && ix.height[a] == ix.height[b] && a != b
    ensures OneGenesis(ix, a, b) ==> IsLca(ix.parent, a, b, c)
    ensures !OneGenesis(ix, a, b) ==> Nth(ix.parent, a, ix.height[a]) == Some(c)
  {
    hide Nth, Ranked, Valid, IsAncestor, IsLca, PopCount;
    WalkStart(ix, a);
    WalkStart(ix, b);
    var lo, hi := 1, ix.height[a];
    while lo < hi
      invariant 0 <= hi <= ix.height[a] && 1 <= lo && (lo <= hi || (lo == 1 && hi == 0))
      invariant Nth(ix.parent, a, lo - 1) != Nth(ix.parent, b, lo - 1)
      invariant hi == ix.height[a] || Nth(ix.parent, a, hi) == Nth(ix.parent, b, hi)
    {
      var mid := (lo + hi) / 2;
      var ra, _ := NthAncestor(ix, a, mid);
      var rb, _ := NthAncestor(ix, b, mid);
      if ra.value == rb.value {
        hi := mid;
      } else {
        lo := mid + 1;
      }
    }
    var r, _ := NthAncestor(ix, a, hi);
    c := r.value;
    SearchDone(ix, a, b, lo, hi);
  }

  lemma SearchDone(ix: Index, a: Hash, b: Hash, lo: nat, hi: nat)
    requires Valid(ix) && a in ix.parent && b in ix.parent && ix.height[a] == ix.height[b] && a != b
    requires hi <= ix.height[a] && ((lo == hi && lo >= 1) || (lo == 1 && hi == 0))
    requires Nth(ix.parent, a, lo - 1) != Nth(ix.parent, b, lo - 1)
    requires hi == ix.height[a] || Nth(ix.parent, a, hi) == Nth(ix.parent, b, hi)
    ensures Nth(ix.parent, a, hi).Some?
    ensures OneGenesis(ix, a, b) ==> IsLca(ix.parent, a, b, Nth(ix.parent, a, hi).value)
    ensures !OneGenesis(ix, a, b) ==> hi == ix.height[a]
  {
    hide Nth, Ranked, IsAncestor, IsLca, SkipOk, SuccOk;
    NthHeight(ix.parent, ix.height, a, hi);
    WalkStart(ix, a);
    WalkStart(ix, b);
    if OneGenesis(ix, a, b) {
      LeastDepthIsLca(ix.parent, ix.height, a, b, hi);
    } else if hi < ix.height[a] {
      SameBelow(ix.parent, a, b, hi, ix.height[a]);
    }
  }

  /** The last common ancestor of two sidechain blocks, or None if their genesis
    * blocks differ. */
  method LastCommonAncestor(ix: Index, a: Hash, b: Hash) returns (r: Result<Option<Hash>, LookupError>)
    requires Valid(ix)
    ensures r.Ok? <==> a in ix.parent && b in ix.parent
    ensures r.Ok? ==> (r.value.None? <==> !OneGenesis(ix, a, b))
    ensures r.Ok? && r.value.Some? ==> IsLca(ix.parent, a, b, r.value.value)
  {
    hide Nth, Ranked, Valid, IsAncestor, IsLca, PopCount;
    WalkStart(ix, a);
    if a !in ix.height { return Err(NoHeight(a)); }
    if b !in ix.height { return Err(NoHeight(b)); }
    var a', b' := Equalize(ix, a, b);
    EqualizedLca(ix, a, b, a', b');
    if a' == b' {
      LcaSelf(ix, a');
      return Ok(Some(a'));
    }
    var g0, _ := NthAncestor(ix, a', ix.height[a']);
    var g1, _ := NthAncestor(ix, b', ix.height[a']);
    if g0.value != g1.value { return Ok(None); }
    var c := SearchLca(ix, a', b');
    return Ok(Some(c));
  }

  lemma LcaSelf(ix: Index, a: Hash)
    requires Valid(ix) && a in ix.parent
    ensures IsLca(ix.parent, a, a, a)
  {
    AncestorRefl(ix.parent, a);
  }

  /** The mainchain form does not compare genesis blocks: it is the last common
    * ancestor exactly for blocks of one genesis, and otherwise returns the
    * genesis block of the first argument. */
  method LastCommonMainAncestor(ix: Index, a: Hash, b: Hash) returns (r: Result<Hash, LookupError>)
    requires Valid(ix)
    ensures r.Ok? <==> a in ix.parent && b in ix.parent
    ensures r.Ok? && OneGenesis(ix, a, b) ==> IsLca(ix.parent, a, b, r.value)
    ensures r.Ok? && !OneGenesis(ix, a, b) ==> Nth(ix.parent, a, ix.height[a]) == Some(r.value)
  {
    hide Nth, Ranked, Valid, IsAncestor, IsLca, PopCount;
    WalkStart(ix, a);
    if a !in ix.height { return Err(NoHeight(a)); }
    if b !in ix.height { return Err(NoHeight(b)); }
    var a', b' := Equalize(ix, a, b);
    EqualizedLca(ix, a, b, a', b');
    if a' == b' {
      LcaSelf(ix, a');
      return Ok(a');
    }
    var c := SearchLca(ix, a', b');
    GenesisKept(ix, a, a');
    return Ok(c);
  }

  lemma GenesisKept(ix: Index, a: Hash, a': Hash)
    requires Valid(ix) && a in ix.parent && IsAncestor(ix.parent, a', a)
    ensures a' in ix.parent && Nth(ix.parent, a, ix.height[a]) == Nth(ix.parent, a', ix.height[a'])
  {
    GenesisOfAncestor(ix.parent, ix.height, a, a');
  }

  /** Whether one of two stored blocks is an ancestor of the other. */
  method SharedLineage(ix: Index, a: Hash, b: Hash) returns (r: Result<bool, LookupError>)
    requires Valid(ix)
    ensures r.Ok? <==> a in ix.parent && b in ix.parent
    ensures r.Ok? ==> r.value == (IsAncestor(ix.parent, a, b) || IsAncestor(ix.parent, b, a))
  {
    hide Nth, Ranked, Valid, IsAncestor, PopCount;
    WalkStart(ix, a);
    if a !in ix.height { return Err(NoHeight(a)); }
    if b !in ix.height { return Err(NoHeight(b)); }
    var a', b' := Equalize(ix, a, b);
    LineageEqualized(ix, a, b, a', b');
    return Ok(a' == b');
  }

  lemma LineageEqualized(ix: Index, a: Hash, b: Hash, a': Hash, b': Hash)
    requires Valid(ix) && Equalized(ix, a, b, a', b') && a in ix.parent && b in ix.parent
    ensures a' == b' <==> IsAncestor(ix.parent, a, b) || IsAncestor(ix.parent, b, a)
  {
    hide Nth, IsAncestor, Valid;
    DescendantByHeight(ix, a, b);
    DescendantByHeight(ix, b, a);
    DescendantByHeight(ix, a', a);
    DescendantByHeight(ix, b', b);
    WalkStart(ix, a);
    WalkStart(ix, b);
  }

  // ----- insertion -----

  function SkipList(p: Parents, b: Hash, k: nat): seq<Hash> {
    seq(k, i requires 0 <= i < k => match Nth(p, b, Pow2(i + 1)) case Some(c) => c case None => 0)
  }

  function InsertSucc(succ: map<Option<Hash>, set<Hash>>, b: Hash, parent: Option<Hash>): map<Option<Hash>, set<Hash>> {
    var s := succ[parent := (if parent in succ then succ[parent] else {}) + {b}];
    s[Some(b) := if Some(b) in s then s[Some(b)] else {}]
  }

  function HeightAbove(ix: Index, parent: Option<Hash>): nat
    requires parent.Some? ==> parent.value in ix.height
  {
    match parent
    case None => 0
    case Some(q) => ix.height[q] + 1
  }

  /** The index with block `b` added on top of `parent`. */
  function Insert(ix: Index, b: Hash, parent: Option<Hash>): Index
    requires parent.Some? ==> parent.value in ix.height
  {
    var p := ix.parent[b := parent];
    var h := HeightAbove(ix, parent);
    Index(p, ix.height[b := h], ix.skip[b := SkipList(p, b, Log2(h))], InsertSucc(ix.succ, b, parent))
  }

  /** A block may be inserted on a stored parent; a stored block only again as it is. */
  ghost predicate Insertable(ix: Index, b: Hash, parent: Option<Hash>) {
    && Valid(ix)
    && (parent.Some? ==> parent.value in ix.parent && parent.value in ix.height)
    && (b in ix.parent ==> ix.parent[b] == parent)
  }

  lemma InsertRanked(ix: Index, b: Hash, parent: Option<Hash>)
    requires Insertable(ix, b, parent)
    ensures Ranked(Insert(ix, b, parent).parent, Insert(ix, b, parent).height)
    ensures b in ix.parent ==> ix.height[b] == HeightAbove(ix, parent)
  {
    hide Nth, SkipOk, SuccOk, Pow2, Log2;
    if b in ix.parent { assert ix.parent[b] == parent; }
    forall x | x in ix.parent[b := parent] ensures x == b || (x in ix.parent && ix.parent[b := parent][x] == ix.parent[x]) {}
  }

  lemma InsertFrame(ix: Index, b: Hash, parent: Option<Hash>, x: Hash, n: nat)
    requires Insertable(ix, b, parent) && x in ix.parent
    ensures Nth(ix.parent[b := parent], x, n) == Nth(ix.parent, x, n)
  {
    hide Nth, SkipOk, SuccOk;
    NthFrame(ix.parent, ix.parent[b := parent], x, n);
  }

  lemma SkipListOk(p: Parents, h: Heights, b: Hash)
    requires Ranked(p, h) && b in p
    ensures SkipOk(p, b, h[b], SkipList(p, b, Log2(h[b])))
  {
    hide Nth, Ranked;
    RankedKeys(p, h);
    var k := Log2(h[b]);
    forall i | 0 <= i < k ensures Nth(p, b, Pow2(i + 1)) == Some(SkipList(p, b, k)[i]) {
      Log2Bounds(h[b]);
      if i + 1 < k { Pow2Grows(i + 1, k); }
      NthHeight(p, h, b, Pow2(i + 1));
    }
  }

  lemma InsertSuccOk(ix: Index, b: Hash, parent: Option<Hash>)
    requires Insertable(ix, b, parent)
    ensures SuccOk(ix.parent[b := parent], InsertSucc(ix.succ, b, parent))
  {
    hide Nth, SkipOk, Ranked;
    var p', s' := ix.parent[b := parent], InsertSucc(ix.succ, b, parent);
    assert parent in ix.succ by { if parent.Some? { assert parent == Some(parent.value); } }
    assert s'.Keys == ix.succ.Keys + {Some(b)};
    forall x | x in p' ensures Some(x) in s' { if x != b { assert Some(x) in ix.succ; } }
    forall k | k in s' ensures s'[k] == set x | x in p' && p'[x] == k {
      forall x ensures x in s'[k] <==> x in p' && p'[x] == k { SuccRow(ix, b, parent, k, x); }
    }
  }

  lemma SuccRow(ix: Index, b: Hash, parent: Option<Hash>, k: Option<Hash>, x: Hash)
    requires Insertable(ix, b, parent) && parent in ix.succ && k in InsertSucc(ix.succ, b, parent)
    ensures x in InsertSucc(ix.succ, b, parent)[k] <==> x in ix.parent[b := parent] && ix.parent[b := parent][x] == k
  {
    hide Nth, SkipOk, Ranked;
    if k in ix.succ {
      assert x in ix.succ[k] <==> x in ix.parent && ix.parent[x] == k;
    } else {
      FreshHasNoChild(ix, b, x);
    }
  }

  lemma FreshHasNoChild(ix: Index, b: Hash, x: Hash)
    requires Valid(ix) && b !in ix.parent
    ensures x in ix.parent ==> ix.parent[x] != Some(b)
  {
  }

  /** Inserting keeps the index valid. */
  lemma InsertValid(ix: Index, b: Hash, parent: Option<Hash>)
    requires Insertable(ix, b, parent)
    ensures Valid(Insert(ix, b, parent))
  {
    hide Nth, SkipOk, SuccOk, Pow2, Log2, Ranked, SkipList, InsertSucc;
    var ix' := Insert(ix, b, parent);
    InsertRanked(ix, b, parent);
    InsertSuccOk(ix, b, parent);
    RankedKeys(ix.parent, ix.height);
    forall x | x in ix'.skip ensures SkipOk(ix'.parent, x, ix'.height[x], ix'.skip[x]) {
      if x == b {
        SkipListOk(ix'.parent, ix'.height, b);
      } else {
        SkipKept(ix, b, parent, x);
      }
    }
  }

  lemma SkipKept(ix: Index, b: Hash, parent: Option<Hash>, x: Hash)
    requires Insertable(ix, b, parent) && x in ix.parent && x != b
    ensures x in ix.skip && x in ix.height && SkipOk(ix.parent[b := parent], x, ix.height[x], ix.skip[x])
  {
    hide Nth, SuccOk, Pow2, Log2, Ranked;
    RankedKeys(ix.parent, ix.height);
    assert SkipOk(ix.parent, x, ix.height[x], ix.skip[x]);
    forall i | 0 <= i < |ix.skip[x]|
      ensures Nth(ix.parent[b := parent], x, Pow2(i + 1)) == Some(ix.skip[x][i])
    {
      InsertFrame(ix, b, parent, x, Pow2(i + 1));
    }
  }

  /** Builds the table entry of a new block by repeated doubling. */
  method BuildSkip(ix: Index, b: Hash, parent: Option<Hash>) returns (e: seq<Hash>)
    requires Insertable(ix, b, parent)
    ensures e == SkipList(ix.parent[b := parent], b, Log2(HeightAbove(ix, parent)))
  {
    hide Nth, SkipOk, SuccOk, Log2, Ranked, PopCount, Valid;
    var height := HeightAbove(ix, parent);
    ghost var p := ix.parent[b := parent];
    e := [];
    if height >= 2 {
      var r, _ := NthAncestor(ix, parent.value, 1);
      e := [r.value];
      FirstSkip(ix, b, parent, r.value);
      var depth := 4;
      while height >= depth
        invariant 1 <= |e| && depth == Pow2(|e| + 1) && Pow2(|e|) <= height
        invariant forall i :: 0 <= i < |e| ==> Nth(p, b, Pow2(i + 1)) == Some(e[i])
        decreases 2 * height - depth
      {
        SkipStored(ix, b, parent, |e| - 1, e[|e| - 1]);
        var next, _ := NthAncestor(ix, e[|e| - 1], depth / 2);
        NextSkip(ix, b, parent, |e|, e[|e| - 1], next.value);
        e := e + [next.value];
        depth := depth * 2;
      }
      Log2Unique(height, |e|);
    } else {
      Log2Small(height);
    }
    SkipListIs(p, b, e);
  }

  lemma Log2Small(h: nat)
    requires h < 2
    ensures Log2(h) == 0
  {
  }

  lemma SkipListIs(p: Parents, b: Hash, e: seq<Hash>)
    requires forall i :: 0 <= i < |e| ==> Nth(p, b, Pow2(i + 1)) == Some(e[i])
    ensures e == SkipList(p, b, |e|)
  {
    hide Nth, Pow2;
  }

  lemma FirstSkip(ix: Index, b: Hash, parent: Option<Hash>, g: Hash)
    requires Insertable(ix, b, parent) && parent.Some? && Nth(ix.parent, parent.value, 1) == Some(g)
    ensures Nth(ix.parent[b := parent], b, Pow2(1)) == Some(g)
  {
    InsertFrame(ix, b, parent, parent.value, 1);
  }

  lemma NthStep(p: Parents, b: Hash, n: nat, c: Hash)
    requires n > 0 && Nth(p, b, n) == Some(c)
    ensures b in p && p[b].Some? && Nth(p, p[b].value, n - 1) == Some(c)
  {
  }

  lemma Pow2Double(k: nat)
    ensures Pow2(k + 1) == Pow2(k) + Pow2(k)
  {
  }

  /** A table entry of the new block is an old block, at the right height. */
  lemma SkipStored(ix: Index, b: Hash, parent: Option<Hash>, i: nat, c: Hash)
    requires Insertable(ix, b, parent) && Nth(ix.parent[b := parent], b, Pow2(i + 1)) == Some(c)
    ensures c in ix.parent && c in ix.height && ix.height[c] == HeightAbove(ix, parent) - Pow2(i + 1)
  {
    hide Nth, SkipOk, SuccOk, Pow2;
    Pow2Positive(i + 1);
    var n := Pow2(i + 1);
    NthStep(ix.parent[b := parent], b, n, c);
    InsertFrame(ix, b, parent, parent.value, n - 1);
    NthHeight(ix.parent, ix.height, parent.value, n - 1);
  }

  lemma NextSkip(ix: Index, b: Hash, parent: Option<Hash>, k: nat, last: Hash, next: Hash)
    requires Insertable(ix, b, parent) && k >= 1
    requires Nth(ix.parent[b := parent], b, Pow2(k)) == Some(last)
    requires last in ix.parent && Nth(ix.parent, last, Pow2(k)) == Some(next)
    ensures Nth(ix.parent[b := parent], b, Pow2(k + 1)) == Some(next)
  {
    hide Nth, SkipOk, SuccOk, Pow2, Ranked, Valid;
    Pow2Double(k);
    InsertFrame(ix, b, parent, last, Pow2(k));
    NthAdd(ix.parent[b := parent], b, Pow2(k), Pow2(k));
  }

  /** Adds a block to the index: its height, its successor links and its skip table. */
  method InsertBlock(ix: Index, b: Hash, parent: Option<Hash>) returns (ix': Index)
    requires Insertable(ix, b, parent)
    ensures Valid(ix')
    ensures ix'.parent == ix.parent[b := parent]
    ensures ix' == Insert(ix, b, parent)
  {
    hide Valid, SkipList;
    InsertValid(ix, b, parent);
    SuccHas(ix, parent);
    var height := HeightAbove(ix, parent);
    var succ := ix.succ[parent := ix.succ[parent] + {b}];
    succ := succ[Some(b) := if Some(b) in succ then succ[Some(b)] else {}];
    var skips := BuildSkip(ix, b, parent);
    ix' := Index(ix.parent[b := parent], ix.height[b := height], ix.skip[b := skips], succ);
  }

  lemma SuccHas(ix: Index, parent: Option<Hash>)
    requires Valid(ix) && (parent.Some? ==> parent.value in ix.parent)
    ensures parent in ix.succ
  {
    hide SkipOk, Ranked;
    if parent.Some? { assert parent == Some(parent.value); }
  }
}
