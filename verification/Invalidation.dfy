/** Invalidating a block with a stack of blocks still to remove. */
module Invalidation {
  import opened Wrappers
  import opened Types
  import opened Ancestry
  import opened BlockIndex
  import opened ArchiveDb
  import opened BmmTable
  import opened Inclusions
  import opened ArchiveRuns

  /** The tables that invalidation changes. */
  datatype Work = Work(
    headers: map<Hash, Header>,
    side: Index,
    bodies: map<Hash, Body>,
    inclusions: Inc,
    invalid: set<Hash>)

  ghost function WorkOf(db: Db): Work {
    Work(db.headers, db.side, db.bodies, db.inclusions, db.invalid)
  }

  /** The children of removed blocks are removed or on the stack, and everything
    * on the stack is the start block or has a removed parent. */
  ghost predicate Frontier(db: Db, b: Hash, gone: set<Hash>, stack: seq<Hash>) {
    && gone <= Subtree(db, b)
    && (gone != {} ==> b in gone)
    && (forall x :: x in stack ==>
          x == b || (x in Subtree(db, b) && x in db.side.parent && db.side.parent[x].Some? && db.side.parent[x].value in gone))
    && (forall x :: x in Subtree(db, b) ==>
          || x in gone || x in stack
          || (x in db.side.parent && db.side.parent[x].Some? && db.side.parent[x].value in Subtree(db, b) - gone))
  }

  /** The successor table with `gone` removed: only the parent of `b` loses a child. */
  ghost function SuccWithout(db: Db, b: Hash, gone: set<Hash>): map<Option<Hash>, set<Hash>> {
    map k | k in db.side.succ && (k.None? || k.value !in gone) :: if b in gone then db.side.succ[k] - {b} else db.side.succ[k]
  }

  /** The tables when exactly `gone` has been removed. */
  ghost predicate Removed(db: Db, b: Hash, gone: set<Hash>, done: set<Hash>, w: Work) {
    && w.headers == db.headers - gone
    && w.side.parent == db.side.parent - gone && w.side.height == db.side.height - gone
    && w.side.skip == db.side.skip - gone
    && w.side.succ == SuccWithout(db, b, gone)
    && w.bodies == db.bodies - gone
    && InclusionsOk(w.bodies, w.inclusions)
    && w.invalid == db.invalid + done
    && gone == done * db.headers.Keys && done <= Subtree(db, b) + {b}
  }

  lemma StartState(db: Db, b: Hash)
    requires ArchiveOk(db)
    ensures Frontier(db, b, {}, [b]) && Removed(db, b, {}, {}, WorkOf(db))
  {
    hide BmmOk, WorkOk, InclusionsOk, IsAncestor, Valid, TablesOk;
    ArchiveFacts(db);
    forall x | x in Subtree(db, b) && x != b
      ensures x in db.side.parent && db.side.parent[x].Some? && db.side.parent[x].value in Subtree(db, b)
    {
      AncestorStep(db.side.parent, b, x);
      SideFacts(db, x);
    }
    assert SuccWithout(db, b, {}) == db.side.succ;
  }

  ghost function SuccAfter(w: Work, x: Hash): map<Option<Hash>, set<Hash>> {
    if x in w.headers && w.headers[x].prevSide in w.side.succ
    then w.side.succ[w.headers[x].prevSide := w.side.succ[w.headers[x].prevSide] - {x}] else w.side.succ
  }

  /** What removing one block from the tables does. */
  ghost predicate RemovesOne(w: Work, x: Hash, w': Work, children: set<Hash>) {
    && w'.headers == w.headers - {x} && w'.bodies == w.bodies - {x} && w'.invalid == w.invalid + {x}
    && w'.side.parent == w.side.parent - {x} && w'.side.height == w.side.height - {x} && w'.side.skip == w.side.skip - {x}
    && w'.inclusions == (if x in w.bodies
                         then RemoveInclusions(w.inclusions, x, Txids(w.bodies[x]), |w.bodies[x].transactions|)
                         else w.inclusions)
    && w'.side.succ == SuccAfter(w, x) - {Some(x)}
    && children == if Some(x) in SuccAfter(w, x) then SuccAfter(w, x)[Some(x)] else {}
  }

  /** One step of the loop: remove `x` from the tables, and return its children. */
  method Remove(w: Work, x: Hash) returns (w': Work, children: set<Hash>)
    ensures RemovesOne(w, x, w', children)
  {
    var inc := w.inclusions;
    if x in w.bodies { inc := Unlist(w.inclusions, x, w.bodies[x]); }
    var succ := w.side.succ;
    if x in w.headers && w.headers[x].prevSide in succ {
      succ := succ[w.headers[x].prevSide := succ[w.headers[x].prevSide] - {x}];
    }
    children := if Some(x) in succ then succ[Some(x)] else {};
    w' := Work(w.headers - {x},
               Index(w.side.parent - {x}, w.side.height - {x}, w.side.skip - {x}, succ - {Some(x)}),
               w.bodies - {x}, inc, w.invalid + {x});
  }

  /** Facts about the children of a block, in the table with `gone` removed. */
  lemma ChildrenOf(db: Db, b: Hash, gone: set<Hash>, x: Hash)
    requires ArchiveOk(db) && x in db.headers && x !in gone && gone <= Subtree(db, b) && x in Subtree(db, b)
    ensures Some(x) in SuccWithout(db, b, gone)
    ensures forall c :: c in SuccWithout(db, b, gone)[Some(x)] <==> c in db.headers && db.headers[c].prevSide == Some(x)
  {
    hide BmmOk, WorkOk, InclusionsOk, IsAncestor, TablesOk, Ranked, SkipOk;
    ArchiveFacts(db);
    SuccHas(db.side, Some(x));
    ChildNotStart(db, b, x);
    forall c ensures c in db.side.succ[Some(x)] <==> c in db.headers && db.headers[c].prevSide == Some(x) {
      if c in db.headers { assert db.side.parent[c] == db.headers[c].prevSide; }
    }
  }

  /** The start block is not a child of anything in its own subtree. */
  lemma ChildNotStart(db: Db, b: Hash, x: Hash)
    requires ArchiveOk(db) && x in Subtree(db, b)
    ensures b in db.headers ==> db.headers[b].prevSide != Some(x)
  {
    hide BmmOk, WorkOk, InclusionsOk, Nth, SkipOk, SuccOk, BmmValid;
    if b in db.headers && db.headers[b].prevSide == Some(x) {
      SideFacts(db, b);
      AncestorsStored(db.side.parent, db.side.height, b, x);
    }
  }

  /** Removing a stored block of the subtree. */
  lemma StepState(db: Db, b: Hash, gone: set<Hash>, done: set<Hash>, stack: seq<Hash>, w: Work, x: Hash,
                  w': Work, children: set<Hash>, stack': seq<Hash>)
    requires ArchiveOk(db) && Frontier(db, b, gone, [x] + stack) && Removed(db, b, gone, done, w)
    requires x in w.headers && RemovesOne(w, x, w', children)
    requires Elements(stack') == Elements(stack) + children
    ensures Frontier(db, b, gone + {x}, stack') && Removed(db, b, gone + {x}, done + {x}, w')
  {
    hide ArchiveOk, InclusionsOk, Subtree, SuccWithout, SuccAfter, RemoveInclusions, Frontier, Elements;
    StackStored(db, b, gone, stack, w, x);
    SuccStep(db, b, gone, w, x, w'.side.succ, children);
    FrontierStep(db, b, gone, stack, x, children, stack');
    BodyStep(w, x, w', children);
    Minus(db.headers, gone, x);
    Minus(db.bodies, gone, x);
    Minus(db.side.parent, gone, x);
    Minus(db.side.height, gone, x);
    Minus(db.side.skip, gone, x);
  }

  lemma Minus<T>(m: map<Hash, T>, gone: set<Hash>, x: Hash)
    ensures m - gone - {x} == m - (gone + {x})
  {
  }

  lemma BodyStep(w: Work, x: Hash, w': Work, children: set<Hash>)
    requires RemovesOne(w, x, w', children) && InclusionsOk(w.bodies, w.inclusions)
    ensures InclusionsOk(w'.bodies, w'.inclusions)
  {
    hide InclusionsOk, RemoveInclusions, SuccAfter;
    if x in w.bodies {
      DeleteKeepsInclusions(w.bodies, w.inclusions, x, w.bodies[x]);
    } else {
      assert w.bodies - {x} == w.bodies;
    }
  }

  lemma StackStored(db: Db, b: Hash, gone: set<Hash>, stack: seq<Hash>, w: Work, x: Hash)
    requires Frontier(db, b, gone, [x] + stack) && w.headers == db.headers - gone && x in w.headers
    ensures x in Subtree(db, b) && x in db.headers && x !in gone && gone <= Subtree(db, b)
    ensures x == b || (x in db.side.parent && db.side.parent[x].Some? && db.side.parent[x].value in gone)
    ensures gone != {} ==> b in gone
  {
    assert x in [x] + stack;
    AncestorRefl(db.side.parent, b);
  }

  lemma SuccStep(db: Db, b: Hash, gone: set<Hash>, w: Work, x: Hash, succ': map<Option<Hash>, set<Hash>>, children: set<Hash>)
    requires ArchiveOk(db) && gone <= Subtree(db, b) && x in Subtree(db, b) && x in db.headers && x !in gone
    requires x == b || (x in db.side.parent && db.side.parent[x].Some? && db.side.parent[x].value in gone)
    requires gone != {} ==> b in gone
    requires w.headers == db.headers - gone && w.side.succ == SuccWithout(db, b, gone)
    requires succ' == SuccAfter(w, x) - {Some(x)}
    requires children == if Some(x) in SuccAfter(w, x) then SuccAfter(w, x)[Some(x)] else {}
    ensures succ' == SuccWithout(db, b, gone + {x})
    ensures children == set c | c in db.headers && db.headers[c].prevSide == Some(x)
  {
    hide ArchiveOk, IsAncestor, TablesOk, Valid;
    ArchiveFacts(db);
    ChildrenOf(db, b, gone, x);
    SideFacts(db, x);
    if x == b {
      assert gone == {};
      assert w.side.succ == db.side.succ;
      StartSucc(db, b, succ');
    } else {
      assert w.headers[x].prevSide !in w.side.succ;
      assert b in gone;
    }
  }

  lemma StartSucc(db: Db, b: Hash, succ': map<Option<Hash>, set<Hash>>)
    requires ArchiveOk(db) && b in db.headers
    requires var key := db.headers[b].prevSide;
             succ' == (if key in db.side.succ then db.side.succ[key := db.side.succ[key] - {b}] else db.side.succ) - {Some(b)}
    ensures succ' == SuccWithout(db, b, {b})
  {
    hide BmmOk, WorkOk, InclusionsOk, IsAncestor, Ranked, SkipOk, BmmValid;
    ArchiveFacts(db);
    var key := db.headers[b].prevSide;
    SideFacts(db, b);
    SuccHas(db.side, key);
    forall k | k in db.side.succ && k != key ensures db.side.succ[k] == db.side.succ[k] - {b} {
      assert db.side.parent[b] == key;
    }
  }

  lemma FrontierStep(db: Db, b: Hash, gone: set<Hash>, stack: seq<Hash>, x: Hash, children: set<Hash>, stack': seq<Hash>)
    requires ArchiveOk(db) && Frontier(db, b, gone, [x] + stack) && x in Subtree(db, b) && x !in gone
    requires children == set c | c in db.headers && db.headers[c].prevSide == Some(x)
    requires Elements(stack') == Elements(stack) + children
    ensures Frontier(db, b, gone + {x}, stack')
  {
    hide ArchiveOk, IsAncestor, TablesOk, Valid;
    ArchiveFacts(db);
    forall c | c in children ensures c in Subtree(db, b) { AncestorStep(db.side.parent, b, c); }
    forall y | y in stack'
      ensures y == b || (y in Subtree(db, b) && y in db.side.parent && db.side.parent[y].Some? && db.side.parent[y].value in gone + {x})
    {
      assert y in Elements(stack');
      if y in stack { assert y in [x] + stack; }
    }
    forall y | y in Subtree(db, b)
      ensures || y in gone + {x} || y in stack'
              || (y in db.side.parent && db.side.parent[y].Some? && db.side.parent[y].value in Subtree(db, b) - (gone + {x}))
    {
      if y in [x] + stack && y != x { assert y in Elements(stack'); }
      if y in children { assert y in Elements(stack'); }
    }
  }

  /** With an empty stack, nothing of the subtree is left. */
  lemma {:induction false} NothingLeft(db: Db, b: Hash, gone: set<Hash>, x: Hash)
    requires ArchiveOk(db) && Frontier(db, b, gone, []) && x in Subtree(db, b)
    ensures x in gone
    decreases if x in db.side.height then db.side.height[x] else 0
  {
    hide ArchiveOk, IsAncestor, TablesOk, Valid;
    ArchiveFacts(db);
    SideFacts(db, x);
    if x !in gone { NothingLeft(db, b, gone, db.side.parent[x].value); }
  }

  /** With the whole subtree gone, the tables are those of the specification. */
  lemma EndState(db: Db, b: Hash, gone: set<Hash>, done: set<Hash>, w: Work)
    requires ArchiveOk(db) && Frontier(db, b, gone, []) && Removed(db, b, gone, done, w) && b in done
    ensures w == WorkOf(Invalidate(db, b))
  {
    hide ArchiveOk, IsAncestor, InclusionsOk;
    forall x | x in Subtree(db, b) ensures x in gone { NothingLeft(db, b, gone, x); }
    assert gone == Subtree(db, b);
    EndInclusions(db, gone, w);
    EndSucc(db, b, gone);
    assert done == gone + {b};
  }

  lemma EndInclusions(db: Db, gone: set<Hash>, w: Work)
    requires ArchiveOk(db) && w.bodies == db.bodies - gone && InclusionsOk(w.bodies, w.inclusions)
    ensures w.inclusions == RemoveFromInclusions(db.inclusions, gone)
  {
    hide InclusionsOk, TablesOk, BmmOk, WorkOk, RemoveFromInclusions;
    RemoveKeepsInclusions(db.bodies, db.inclusions, gone);
    InclusionsDetermined(w.bodies, w.inclusions, RemoveFromInclusions(db.inclusions, gone));
  }

  /** A child in the subtree of a parent outside it is the start block. */
  lemma EndSucc(db: Db, b: Hash, gone: set<Hash>)
    requires ArchiveOk(db) && gone == Subtree(db, b)
    ensures SuccWithout(db, b, gone) == RemoveFromIndex(db.side, gone).succ
  {
    hide ArchiveOk, IsAncestor, Subtree;
    forall k | k in db.side.succ && (k.None? || k.value !in gone)
      ensures (if b in gone then db.side.succ[k] - {b} else db.side.succ[k]) == db.side.succ[k] - gone
    {
      forall c | c in db.side.succ[k] && c in gone ensures c == b { LeftChild(db, b, k, c); }
    }
  }

  /** A removed child of a block that stays is the invalidated block. */
  lemma LeftChild(db: Db, b: Hash, k: Option<Hash>, c: Hash)
    requires ArchiveOk(db) && k in db.side.succ && (k.None? || k.value !in Subtree(db, b))
    requires c in db.side.succ[k] && c in Subtree(db, b)
    ensures c == b
  {
    hide BmmOk, WorkOk, InclusionsOk, IsAncestor, Ranked, SkipOk, BmmValid;
    AncestorStep(db.side.parent, b, c);
    if c != b { SideFacts(db, c); }
  }

  lemma FrontierSkip(db: Db, b: Hash, gone: set<Hash>, stack: seq<Hash>, x: Hash)
    requires Frontier(db, b, gone, [x] + stack) && (x in gone || x !in db.headers)
    ensures Frontier(db, b, gone, stack) && (x == b || x in Subtree(db, b))
  {
    hide IsAncestor;
    assert x in [x] + stack;
    assert forall y :: y in [x] + stack <==> y == x || y in stack;
  }

  lemma NothingToRemove(db: Db, b: Hash, gone: set<Hash>, done: set<Hash>, w: Work, x: Hash)
    requires ArchiveOk(db) && Removed(db, b, gone, done, w) && x !in w.headers
    ensures Some(x) !in w.side.succ && x !in w.bodies && (x in gone || x !in db.headers)
    ensures x !in w.side.parent && x !in w.side.height && x !in w.side.skip
  {
    hide ArchiveOk, InclusionsOk, Subtree;
    ArchiveFacts(db);
    BodiesHaveHeaders(db);
    SuccKeys(db.side);
    KeysMatch(db.side);
  }

  lemma BodiesHaveHeaders(db: Db)
    requires ArchiveOk(db)
    ensures db.bodies.Keys <= db.headers.Keys
  {
  }

  /** Popping a block that is not stored changes nothing but the marks. */
  lemma SkipState(db: Db, b: Hash, gone: set<Hash>, done: set<Hash>, stack: seq<Hash>, w: Work, x: Hash,
                  w': Work, children: set<Hash>)
    requires ArchiveOk(db) && Frontier(db, b, gone, [x] + stack) && Removed(db, b, gone, done, w)
    requires x !in w.headers && RemovesOne(w, x, w', children)
    ensures children == {} && Frontier(db, b, gone, stack) && Removed(db, b, gone, done + {x}, w')
  {
    hide ArchiveOk, InclusionsOk, Frontier, Subtree, SuccWithout, RemoveInclusions;
    NothingToRemove(db, b, gone, done, w, x);
    FrontierSkip(db, b, gone, stack, x);
    assert w.side.succ - {Some(x)} == w.side.succ && w.bodies - {x} == w.bodies && w.headers - {x} == w.headers;
    assert w.side.parent - {x} == w.side.parent && w.side.height - {x} == w.side.height && w.side.skip - {x} == w.side.skip;
  }

  lemma SuccKeys(ix: Index)
    requires Valid(ix)
    ensures forall x :: Some(x) in ix.succ <==> x in ix.parent
  {
    hide SkipOk, Ranked;
  }

  /** The elements of a set in some order. */
  method Enumerate<T>(s: set<T>) returns (q: seq<T>)
    ensures Elements(q) == s && |q| == |s|
  {
    q := [];
    var todo := s;
    while todo != {}
      invariant Elements(q) + todo == s && |q| + |todo| == |s|
      decreases todo
    {
      var x :| x in todo;
      q, todo := q + [x], todo - {x};
    }
  }

  /** Pops blocks off a stack until the whole subtree of `b` is removed. */
  method RemoveSubtree(ghost db: Db, w0: Work, b: Hash) returns (w: Work)
    requires ArchiveOk(db) && w0 == WorkOf(db)
    ensures w == WorkOf(Invalidate(db, b))
  {
    hide ArchiveOk, Frontier, Removed, RemovesOne, Invalidate;
    w := w0;
    var stack := [b];
    ghost var gone, done: set<Hash> := {}, {};
    StartState(db, b);
    while stack != []
      invariant Frontier(db, b, gone, stack) && Removed(db, b, gone, done, w)
      invariant b in done || stack == [b]
      decreases |w.headers|, |stack|
    {
      var x, rest := stack[|stack| - 1], stack[..|stack| - 1];
      StackOrder(db, b, gone, stack);
      var w', children := Remove(w, x);
      RemoveShrinks(w, x, w', children);
      var more := Enumerate(children);
      if x in w.headers {
        ElementsConcat(rest, more);
        StepState(db, b, gone, done, rest, w, x, w', children, rest + more);
        gone := gone + {x};
      } else {
        SkipState(db, b, gone, done, rest, w, x, w', children);
        assert rest + more == rest;
      }
      done := done + {x};
      w, stack := w', rest + more;
    }
    EndState(db, b, gone, done, w);
  }

  lemma StackOrder(db: Db, b: Hash, gone: set<Hash>, stack: seq<Hash>)
    requires stack != [] && Frontier(db, b, gone, stack)
    ensures Frontier(db, b, gone, [stack[|stack| - 1]] + stack[..|stack| - 1])
  {
    hide Subtree;
    var s := [stack[|stack| - 1]] + stack[..|stack| - 1];
    assert stack == stack[..|stack| - 1] + [stack[|stack| - 1]];
    assert forall y :: y in s <==> y in stack;
  }

  lemma RemoveShrinks(w: Work, x: Hash, w': Work, children: set<Hash>)
    requires RemovesOne(w, x, w', children)
    ensures x in w.headers ==> |w'.headers| < |w.headers|
    ensures x !in w.headers ==> |w'.headers| == |w.headers|
  {
    hide SuccAfter, RemoveInclusions;
    MapShrinks(w.headers, x);
  }

  lemma MapShrinks<V>(m: map<Hash, V>, x: Hash)
    ensures x in m ==> |m - {x}| == |m| - 1
    ensures x !in m ==> |m - {x}| == |m|
  {
    assert (m - {x}).Keys == m.Keys - {x};
    assert |m| == |m.Keys| && |m - {x}| == |(m - {x}).Keys|;
    if x !in m { assert m - {x} == m; }
  }
}
