/** Walking the ancestors of a block: newest first by parent links, and oldest
  * first in batches located with the skip tables. */
module AncestorWalks {
  import opened Wrappers
  import opened Types
  import opened Ancestry
  import opened BlockIndex

  const MAX_BATCH_SIZE: nat := 32

  /** The `k` newest ancestors of `b`, itself included, oldest first. */
  ghost function Ascending(p: Parents, b: Hash, k: nat): seq<Hash>
    decreases k
  {
    if k == 0 then []
    else (if b in p && p[b].Some? then Ascending(p, p[b].value, k - 1) else []) + [b]
  }

  /** The same blocks newest first, as the parent walk visits them. */
  ghost function Descending(p: Parents, b: Hash, k: nat): seq<Hash>
    decreases k
  {
    if k == 0 then []
    else [b] + (if b in p && p[b].Some? then Descending(p, p[b].value, k - 1) else [])
  }

  function Reverse<T>(s: seq<T>): seq<T> { if s == [] then [] else [s[|s| - 1]] + Reverse(s[..|s| - 1]) }

  lemma {:induction false} ReverseConcat<T>(a: seq<T>, b: seq<T>)
    ensures Reverse(a + b) == Reverse(b) + Reverse(a)
    decreases |b|
  {
    hide Reverse;
    if b == [] {
      ReverseNone<T>();
      assert a + b == a && Reverse(b) + Reverse(a) == Reverse(a);
    } else {
      var n := |b| - 1;
      var front, x := b[..n], b[n];
      assert b == front + [x] && a + b == (a + front) + [x];
      ReverseLast(a + front, x);
      ReverseLast(front, x);
      ReverseConcat(a, front);
      assert [x] + (Reverse(front) + Reverse(a)) == [x] + Reverse(front) + Reverse(a);
    }
  }

  lemma ReverseLast<T>(s: seq<T>, x: T)
    ensures Reverse(s + [x]) == [x] + Reverse(s)
  {
    assert (s + [x])[..|s|] == s;
  }

  lemma {:induction false} ReverseEntries<T>(s: seq<T>)
    ensures |Reverse(s)| == |s| && forall i :: 0 <= i < |s| ==> Reverse(s)[i] == s[|s| - 1 - i]
    decreases |s|
  {
    hide Reverse;
    if s == [] {
      ReverseNone<T>();
    } else {
      var front, x := s[..|s| - 1], s[|s| - 1];
      assert s == front + [x];
      ReverseLast(front, x);
      ReverseEntries(front);
    }
  }

  lemma ReverseOne<T>(x: T)
    ensures Reverse([x]) == [x]
  {
    assert [x][..0] == [];
  }

  lemma {:induction false} ReverseDescending(p: Parents, b: Hash, k: nat)
    ensures Reverse(Descending(p, b, k)) == Ascending(p, b, k)
    decreases k
  {
    hide Reverse;
    if k > 0 {
      var rest := if b in p && p[b].Some? then Descending(p, p[b].value, k - 1) else [];
      ReverseConcat([b], rest);
      ReverseOne(b);
      if b in p && p[b].Some? {
        ReverseDescending(p, p[b].value, k - 1);
      } else {
        ReverseNone<Hash>();
      }
    } else {
      ReverseNone<Hash>();
    }
  }

  lemma ReverseNone<T>()
    ensures Reverse<T>([]) == []
  {
  }

  lemma {:induction false} DescendingMore(p: Parents, b: Hash, n: nat, c: Hash)
    requires Nth(p, b, n) == Some(c)
    ensures Descending(p, b, n + 1) == Descending(p, b, n) + [c]
    decreases n
  {
    if n > 0 { DescendingMore(p, p[b].value, n - 1, c); }
  }

  lemma {:induction false} ReverseTwice<T>(s: seq<T>)
    ensures Reverse(Reverse(s)) == s
  {
    if s != [] {
      var n := |s| - 1;
      ReverseConcat([s[n]], Reverse(s[..n]));
      ReverseOne(s[n]);
      ReverseTwice(s[..n]);
    }
  }

  /** A walk of m + n blocks is a walk of m blocks after one of n older blocks. */
  lemma {:induction false} AscendingSplit(p: Parents, b: Hash, m: nat, n: nat)
    requires Nth(p, b, m).Some?
    ensures Ascending(p, b, m + n) == Ascending(p, Nth(p, b, m).value, n) + Ascending(p, b, m)
    decreases m
  {
    if m == 0 {
      assert Ascending(p, b, n) + [] == Ascending(p, b, n);
    } else {
      AscendingSplit(p, p[b].value, m - 1, n);
      assert Ascending(p, b, m + n) == Ascending(p, p[b].value, m - 1 + n) + [b];
      assert Ascending(p, b, m) == Ascending(p, p[b].value, m - 1) + [b];
    }
  }

  /** Entry i of the walk is the ancestor i above the start, each block once. */
  lemma {:induction false} AscendingEntries(p: Parents, h: Heights, b: Hash, k: nat)
    requires Ranked(p, h) && b in p && k <= h[b] + 1
    ensures |Ascending(p, b, k)| == k
    ensures forall i :: 0 <= i < k ==>
              && Nth(p, b, k - 1 - i) == Some(Ascending(p, b, k)[i])
              && Ascending(p, b, k)[i] in p && h[Ascending(p, b, k)[i]] == h[b] + 1 - k + i
    decreases k
  {
    hide Ascending, Nth;
    AscendingStep(p, b, k);
    NthZero(p, b);
    if k > 0 && p[b].Some? {
      var q := p[b].value;
      AscendingEntries(p, h, q, k - 1);
      var below := Ascending(p, q, k - 1);
      forall i | 0 <= i < |below| ensures Nth(p, b, k - 1 - i) == Some(below[i]) { NthParent(p, b, k - 1 - i); }
    }
  }

  lemma AscendingStep(p: Parents, b: Hash, k: nat)
    requires b in p
    ensures Ascending(p, b, k) ==
            if k == 0 then [] else (if p[b].Some? then Ascending(p, p[b].value, k - 1) else []) + [b]
  {
  }

  lemma NthParent(p: Parents, b: Hash, n: nat)
    requires n > 0 && b in p && p[b].Some?
    ensures Nth(p, b, n) == Nth(p, p[b].value, n - 1)
  {
  }

  /** The blocks at heights `start` and up, or none. */
  ghost function From(ix: Index, b: Hash, start: nat): seq<Hash>
    requires b in ix.height
  {
    if start <= ix.height[b] then Ascending(ix.parent, b, ix.height[b] + 1 - start) else []
  }

  /** An iterator over the ancestors of `block` from a start height, oldest
    * first. `ends` is the table that the height of `block` is read from: the
    * index itself for sidechain blocks, the header infos for mainchain blocks. */
  class AncestorsRev {
    const index: Index
    const ends: Heights
    const block: Hash
    var batchStart: Option<nat>
    var endHeight: Option<nat>
    var buffer: seq<Hash>

    ghost predicate Ready()
      reads this
    {
      && Valid(index)
      && (block in ends <==> block in index.parent)
      && (block in ends ==> block in index.height && ends[block] == index.height[block])
      && (endHeight.Some? ==> block in index.height && endHeight.value == index.height[block])
      && (endHeight.None? ==> buffer == [] && batchStart.Some?)
    }

    /** What is still to be yielded. */
    ghost function Remaining(): seq<Hash>
      requires Ready() && block in index.parent
      reads this
    {
      Reverse(buffer) +
      match batchStart
      case None => []
      case Some(s) => From(index, block, s)
    }

    constructor (index: Index, ends: Heights, block: Hash, start: nat)
      requires Valid(index)
      requires block in ends <==> block in index.parent
      requires block in ends ==> block in index.height && ends[block] == index.height[block]
      ensures Ready() && this.index == index && this.block == block
      ensures block in index.parent ==> Remaining() == From(index, block, start)
    {
      this.index, this.ends, this.block := index, ends, block;
      batchStart, endHeight, buffer := Some(start), None, [];
      new;
      assert Reverse<Hash>([]) == [];
    }

    /** Yields the next block, filling the buffer with a batch when it is empty. */
    method Next() returns (r: Result<Option<Hash>, LookupError>)
      requires Ready()
      modifies this
      ensures Ready()
      ensures block !in index.parent ==> r == Err(NoHeight(block)) && batchStart == old(batchStart)
      ensures block in index.parent && old(Remaining()) == [] ==> r == Ok(None) && Remaining() == []
      ensures block in index.parent && old(Remaining()) != [] ==>
                r == Ok(Some(old(Remaining()[0]))) && Remaining() == old(Remaining()[1..])
    {
      hide Valid, From;
      ReadyKeys(index);
      if endHeight.None? {
        if block !in ends { return Err(NoHeight(block)); }
        endHeight := Some(ends[block]);
      }
      if buffer != [] {
        var item := buffer[|buffer| - 1];
        buffer := buffer[..|buffer| - 1];
        return Ok(Some(item));
      }
      if batchStart.None? { return Ok(None); }
      FromAbove(index, block, batchStart.value);
      if batchStart.value > endHeight.value { return Ok(None); }
      var batch, next := FetchBatch(index, block, batchStart.value);
      buffer, batchStart := batch[..|batch| - 1], next;
      return Ok(Some(batch[|batch| - 1]));
    }
  }

  /** The next batch, newest first, and where the one after it starts. */
  method FetchBatch(ix: Index, b: Hash, start: nat) returns (batch: seq<Hash>, next: Option<nat>)
    requires Valid(ix) && b in ix.parent && b in ix.height && start <= ix.height[b]
    ensures batch != []
    ensures From(ix, b, start) ==
            [batch[|batch| - 1]] +
            (Reverse(batch[..|batch| - 1]) + match next case None => [] case Some(s) => From(ix, b, s))
  {
    hide Valid, Nth, Ascending, PopCount, Ranked, From, Reverse;
    var end := ix.height[b];
    var offset := if end - start <= MAX_BATCH_SIZE - 1 then end - start else MAX_BATCH_SIZE - 1;
    var top, _ := NthAncestor(ix, b, end - start - offset);
    NthStored(ix, b, end - start - offset, top.value);
    batch := Walk(ix, top.value, offset + 1);
    next := if start + (offset + 1) <= end then Some(start + (offset + 1)) else None;
    BatchSplits(ix, b, start, offset, top.value);
    PopBatch(ix, top.value, offset + 1, batch);
    var rest := match next case None => [] case Some(s) => From(ix, b, s);
    Regroup([batch[|batch| - 1]], Reverse(batch[..|batch| - 1]), rest);
  }

  lemma Regroup<T>(a: seq<T>, b: seq<T>, c: seq<T>)
    ensures a + b + c == a + (b + c)
  {
  }

  lemma FromAbove(ix: Index, b: Hash, start: nat)
    requires b in ix.height
    ensures start > ix.height[b] ==> From(ix, b, start) == []
  {
  }

  lemma ReadyKeys(ix: Index)
    requires Valid(ix)
    ensures ix.height.Keys == ix.parent.Keys
  {
  }

  lemma NthStored(ix: Index, b: Hash, n: nat, c: Hash)
    requires Valid(ix) && b in ix.parent && Nth(ix.parent, b, n) == Some(c)
    ensures c in ix.parent && c in ix.height && b in ix.height && ix.height[c] + n == ix.height[b]
  {
    NthHeight(ix.parent, ix.height, b, n);
  }

  /** The parent walk: the next `k` ancestors, newest first. */
  method Walk(ix: Index, b: Hash, k: nat) returns (s: seq<Hash>)
    requires Valid(ix) && b in ix.parent && k <= ix.height[b] + 1
    ensures s == Descending(ix.parent, b, k)
  {
    hide Valid, Ranked, Descending;
    s := [];
    var cur: Option<Hash> := Some(b);
    var left := k;
    while left > 0 && cur.Some?
      invariant 0 <= left <= k
      invariant cur.Some? ==> cur.value in ix.parent
      invariant s + (if cur.Some? then Descending(ix.parent, cur.value, left) else []) == Descending(ix.parent, b, k)
      decreases left
    {
      ParentStored(ix, cur.value);
      DescendingStep(ix.parent, cur.value, left, s);
      s := s + [cur.value];
      cur := ix.parent[cur.value];
      left := left - 1;
    }
    DescendingNone(ix.parent, b);
    if cur.Some? { DescendingNone(ix.parent, cur.value); }
  }

  lemma DescendingStep(p: Parents, b: Hash, k: nat, s: seq<Hash>)
    requires b in p && k > 0
    ensures s + Descending(p, b, k) == (s + [b]) + if p[b].Some? then Descending(p, p[b].value, k - 1) else []
  {
  }

  lemma DescendingNone(p: Parents, b: Hash)
    ensures Descending(p, b, 0) == []
  {
  }

  lemma ParentStored(ix: Index, b: Hash)
    requires Valid(ix) && b in ix.parent
    ensures ix.parent[b].Some? ==> ix.parent[b].value in ix.parent
  {
  }

  /** The batch is the front of what remains. */
  lemma BatchSplits(ix: Index, b: Hash, start: nat, offset: nat, top: Hash)
    requires Valid(ix) && b in ix.parent && b in ix.height && start + offset <= ix.height[b]
    requires Nth(ix.parent, b, ix.height[b] - start - offset) == Some(top)
    ensures From(ix, b, start) ==
            Ascending(ix.parent, top, offset + 1) +
            (if start + (offset + 1) <= ix.height[b] then From(ix, b, start + (offset + 1)) else [])
  {
    hide Nth, Ascending, Valid;
    var m := ix.height[b] - start - offset;
    AscendingSplit(ix.parent, b, m, offset + 1);
    AscendingNone(ix.parent, b);
  }

  lemma AscendingNone(p: Parents, b: Hash)
    ensures Ascending(p, b, 0) == []
  {
  }

  /** Popping the newest-first batch from its end yields the oldest block. */
  lemma PopBatch(ix: Index, top: Hash, k: nat, batch: seq<Hash>)
    requires Valid(ix) && top in ix.parent && 0 < k <= ix.height[top] + 1 && batch == Descending(ix.parent, top, k)
    ensures batch != []
    ensures [batch[|batch| - 1]] + Reverse(batch[..|batch| - 1]) == Ascending(ix.parent, top, k)
  {
    hide Valid;
    ReverseDescending(ix.parent, top, k);
  }

  /** Running an iterator to its end. */
  method Drain(it: AncestorsRev) returns (s: seq<Hash>)
    requires it.Ready() && it.block in it.index.parent
    modifies it
    ensures it.Ready() && it.Remaining() == [] && s == old(it.Remaining())
  {
    hide Valid, Reverse, From;
    s := [];
    var done := false;
    while !done
      invariant it.Ready() && s + it.Remaining() == old(it.Remaining())
      invariant done ==> it.Remaining() == []
      decreases !done, |it.Remaining()|
    {
      ghost var before := it.Remaining();
      var r := it.Next();
      if r.value.None? {
        done := true;
      } else {
        assert before == [before[0]] + before[1..];
        s := s + [r.value.value];
      }
    }
  }

  /** Both reverse iterators, run from any start height, yield exactly the
    * ancestors at that height and above, oldest first, each once. */
  method AncestorsFrom(ix: Index, ends: Heights, b: Hash, start: nat) returns (s: seq<Hash>)
    requires Valid(ix) && b in ix.parent && b in ends && b in ix.height && ends[b] == ix.height[b]
    ensures s == From(ix, b, start)
    ensures |s| == if start <= ix.height[b] then ix.height[b] + 1 - start else 0
    ensures forall i :: 0 <= i < |s| ==>
              s[i] in ix.height && ix.height[s[i]] == start + i && IsAncestor(ix.parent, s[i], b)
  {
    hide Valid, Ranked, Nth, Ascending, IsAncestor;
    var it := new AncestorsRev(ix, ends, b, start);
    s := Drain(it);
    FromEntries(ix, b, start);
  }

  lemma FromEntries(ix: Index, b: Hash, start: nat)
    requires Valid(ix) && b in ix.parent && b in ix.height
    ensures |From(ix, b, start)| == if start <= ix.height[b] then ix.height[b] + 1 - start else 0
    ensures forall i :: 0 <= i < |From(ix, b, start)| ==>
              && From(ix, b, start)[i] in ix.height && ix.height[From(ix, b, start)[i]] == start + i
              && IsAncestor(ix.parent, From(ix, b, start)[i], b)
  {
    hide Ascending, Nth, Valid, Ranked, IsAncestor;
    if start <= ix.height[b] {
      var k := ix.height[b] + 1 - start;
      WalkEntries(ix, b, k);
      forall i | 0 <= i < k ensures IsAncestor(ix.parent, From(ix, b, start)[i], b) {
        NthMeansAncestor(ix.parent, From(ix, b, start)[i], b, k - 1 - i);
      }
    }
  }

  lemma WalkEntries(ix: Index, b: Hash, k: nat)
    requires Valid(ix) && b in ix.parent && b in ix.height && k <= ix.height[b] + 1
    ensures |Ascending(ix.parent, b, k)| == k
    ensures forall i :: 0 <= i < k ==>
              && Nth(ix.parent, b, k - 1 - i) == Some(Ascending(ix.parent, b, k)[i])
              && Ascending(ix.parent, b, k)[i] in ix.height
              && ix.height[Ascending(ix.parent, b, k)[i]] == ix.height[b] + 1 - k + i
  {
    hide Ascending, Nth, SkipOk, SuccOk;
    AscendingEntries(ix.parent, ix.height, b, k);
  }

  lemma NthMeansAncestor(p: Parents, a: Hash, b: Hash, n: nat)
    requires Nth(p, b, n) == Some(a)
    ensures IsAncestor(p, a, b)
  {
  }

  // ----- missing bodies -----

  function Missing(s: seq<Hash>, stored: set<Hash>): seq<Hash> {
    if s == [] then []
    else Missing(s[..|s| - 1], stored) + (if s[|s| - 1] in stored then [] else [s[|s| - 1]])
  }

  lemma {:induction false} MissingConcat(a: seq<Hash>, b: seq<Hash>, stored: set<Hash>)
    ensures Missing(a + b, stored) == Missing(a, stored) + Missing(b, stored)
  {
    if b == [] {
      assert a + b == a && Missing(b, stored) == [];
    } else {
      var n := |b| - 1;
      assert (a + b)[..|a| + n] == a + b[..n];
      MissingConcat(a, b[..n], stored);
    }
  }

  /** The ancestors of `b` strictly above `ancestor`, or all of them if it is not one. */
  ghost function Above(ix: Index, b: Hash, ancestor: Option<Hash>): seq<Hash>
    requires b in ix.height
  {
    if ancestor.Some? && IsAncestor(ix.parent, ancestor.value, b) && ancestor.value in ix.height
    then From(ix, b, ix.height[ancestor.value] + 1)
    else From(ix, b, 0)
  }

  /** Missing bodies by the parent walk: collected newest first, then reversed. */
  method GetMissingBodies(ix: Index, stored: set<Hash>, b: Hash, ancestor: Option<Hash>) returns (s: seq<Hash>)
    requires Valid(ix) && b in ix.parent && b in ix.height
    ensures s == Missing(Above(ix, b, ancestor), stored)
  {
    hide Valid, Ranked, Nth, Ascending, Above, Missing, Reverse;
    WalkInit(ix, b, stored);
    var found: seq<Hash> := [];
    var cur: Option<Hash> := Some(b);
    ghost var n: nat := 0;
    while cur.Some? && ancestor != cur
      invariant cur.Some? ==> n <= ix.height[b] && Nth(ix.parent, b, n) == cur && cur.value in ix.parent
      invariant cur.None? ==> n == ix.height[b] + 1
      invariant Reverse(found) == Missing(Ascending(ix.parent, b, n), stored)
      invariant forall k :: 0 <= k < n ==> Nth(ix.parent, b, k) != ancestor
      decreases ix.height[b] + 1 - n
    {
      WalkStep(ix, b, n, cur.value, found, stored);
      if cur.value !in stored { found := found + [cur.value]; }
      cur := ix.parent[cur.value];
      n := n + 1;
    }
    WalkEnds(ix, b, ancestor, n, cur);
    s := Reverse(found);
  }

  lemma WalkInit(ix: Index, b: Hash, stored: set<Hash>)
    ensures Nth(ix.parent, b, 0) == Some(b) && Ascending(ix.parent, b, 0) == []
    ensures Missing([], stored) == [] && Reverse<Hash>([]) == []
  {
  }

  lemma WalkStep(ix: Index, b: Hash, n: nat, cur: Hash, found: seq<Hash>, stored: set<Hash>)
    requires Valid(ix) && b in ix.parent && b in ix.height && n <= ix.height[b]
    requires Nth(ix.parent, b, n) == Some(cur) && cur in ix.parent
    requires Reverse(found) == Missing(Ascending(ix.parent, b, n), stored)
    ensures ix.parent[cur].Some? ==> ix.parent[cur].value in ix.parent && n + 1 <= ix.height[b]
    ensures ix.parent[cur].Some? ==> Nth(ix.parent, b, n + 1) == ix.parent[cur]
    ensures ix.parent[cur].None? ==> n == ix.height[b]
    ensures Reverse(if cur in stored then found else found + [cur]) == Missing(Ascending(ix.parent, b, n + 1), stored)
  {
    hide Valid, Ranked, Reverse, Nth, Ascending, Missing;
    StepUp(ix, b, n, cur);
    OneStep(ix.parent, cur);
    AscendingSplit(ix.parent, b, n, 1);
    MissingConcat([cur], Ascending(ix.parent, b, n), stored);
    MissingOne(cur, stored);
    if cur !in stored {
      ReverseConcat(found, [cur]);
      ReverseOne(cur);
    }
  }

  lemma StepUp(ix: Index, b: Hash, n: nat, cur: Hash)
    requires Valid(ix) && b in ix.parent && b in ix.height && n <= ix.height[b]
    requires Nth(ix.parent, b, n) == Some(cur) && cur in ix.parent
    ensures ix.parent[cur].Some? ==> ix.parent[cur].value in ix.parent && n + 1 <= ix.height[b]
    ensures ix.parent[cur].Some? ==> Nth(ix.parent, b, n + 1) == ix.parent[cur]
    ensures ix.parent[cur].None? ==> n == ix.height[b]
  {
    hide Valid, Nth, Ascending;
    IsRanked(ix);
    NthHeight(ix.parent, ix.height, b, n);
    NthAdd(ix.parent, b, n, 1);
    OneStep(ix.parent, cur);
    assert ix.parent[cur].None? ==> ix.height[cur] == 0;
  }

  lemma IsRanked(ix: Index)
    requires Valid(ix)
    ensures Ranked(ix.parent, ix.height)
  {
  }

  lemma OneStep(p: Parents, b: Hash)
    requires b in p
    ensures Nth(p, b, 1) == p[b]
    ensures Ascending(p, b, 1) == [b]
  {
  }

  lemma MissingOne(b: Hash, stored: set<Hash>)
    ensures Missing([b], stored) == if b in stored then [] else [b]
  {
    assert [b][..0] == [];
  }

  /** Where the walk stops. */
  lemma WalkEnds(ix: Index, b: Hash, ancestor: Option<Hash>, n: nat, cur: Option<Hash>)
    requires Valid(ix) && b in ix.parent && b in ix.height
    requires cur.Some? ==> n <= ix.height[b] && Nth(ix.parent, b, n) == cur && ancestor == cur
    requires cur.None? ==> n == ix.height[b] + 1
    requires forall k :: 0 <= k < n ==> Nth(ix.parent, b, k) != ancestor
    ensures Ascending(ix.parent, b, n) == Above(ix, b, ancestor)
  {
    hide SkipOk, SuccOk, Ascending, Nth, Ranked, Valid;
    if cur.Some? {
      NthStored(ix, b, n, cur.value);
      NthMeansAncestor(ix.parent, cur.value, b, n);
      AscendingNone(ix.parent, b);
    } else if ancestor.Some? && IsAncestor(ix.parent, ancestor.value, b) {
      var k: nat :| Nth(ix.parent, b, k) == Some(ancestor.value);
      NthStored(ix, b, k, ancestor.value);
    }
  }

  /** Missing bodies by the batched iterator, from a start height. */
  method IterMissingBodies(ix: Index, stored: set<Hash>, b: Hash, start: nat) returns (s: seq<Hash>)
    requires Valid(ix) && b in ix.parent && b in ix.height
    ensures s == Missing(From(ix, b, start), stored)
    ensures start > 0 ==>
              forall a :: a in ix.height && ix.height[a] + 1 == start && IsAncestor(ix.parent, a, b) ==>
                s == Missing(Above(ix, b, Some(a)), stored)
  {
    hide Valid, Ranked, Nth, Ascending, From, IsAncestor;
    var all := AncestorsFrom(ix, ix.height, b, start);
    s := [];
    for i := 0 to |all|
      invariant s == Missing(all[..i], stored)
    {
      assert all[..i + 1][..i] == all[..i];
      if all[i] !in stored { s := s + [all[i]]; }
    }
    assert all[..|all|] == all;
  }
}
