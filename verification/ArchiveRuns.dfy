/** Every run of archive writes keeps all indexes exact. */
module ArchiveRuns {
  import opened Wrappers
  import opened Types
  import opened Ancestry
  import opened BlockIndex
  import opened ArchiveDb
  import opened BmmTable
  import opened Inclusions

  /** Total work counts a mainchain block and everything below it. */
  ghost predicate WorkOk(mh: map<Hash, MainHeader>, work: map<Hash, nat>) {
    && work.Keys == mh.Keys
    && forall m :: m in mh ==>
         && (mh[m].prev != ZERO ==> mh[m].prev in work)
         && work[m] == mh[m].work + if mh[m].prev == ZERO then 0 else work[mh[m].prev]
  }

  ghost predicate ArchiveOk(db: Db) {
    && TablesOk(db)
    && BmmOk(db)
    && WorkOk(db.mainHeaders, db.work)
    && InclusionsOk(db.bodies, db.inclusions)
    && db.bodies.Keys <= db.headers.Keys
    && db.headers.Keys !! db.invalid
  }

  // ----- removing a subtree from an index -----

  /** Children of removed blocks are removed too. */
  ghost predicate ChildClosed(p: Parents, gone: set<Hash>) {
    forall x :: x in p && p[x].Some? && p[x].value in gone ==> x in gone
  }

  lemma RemoveRanked(ix: Index, gone: set<Hash>)
    requires Valid(ix) && ChildClosed(ix.parent, gone)
    ensures Ranked(ix.parent - gone, ix.height - gone)
  {
    hide Nth, SkipOk, SuccOk;
    var p := ix.parent - gone;
    forall b | b in p ensures p[b] == ix.parent[b] && (p[b].Some? ==> p[b].value in p) {}
  }

  lemma RemoveSkips(ix: Index, gone: set<Hash>, b: Hash)
    requires Valid(ix) && ChildClosed(ix.parent, gone) && b in ix.parent - gone
    ensures b in ix.height && b in ix.skip && SkipOk(ix.parent - gone, b, ix.height[b], ix.skip[b])
  {
    hide Nth, SuccOk, Pow2, Log2;
    var p := ix.parent - gone;
    RankedKeys(ix.parent, ix.height);
    RemoveRanked(ix, gone);
    assert SkipOk(ix.parent, b, ix.height[b], ix.skip[b]);
    forall i | 0 <= i < |ix.skip[b]| ensures Nth(p, b, Pow2(i + 1)) == Some(ix.skip[b][i]) {
      NthFrame(p, ix.parent, b, Pow2(i + 1));
    }
  }

  lemma RemoveSuccs(ix: Index, gone: set<Hash>)
    requires Valid(ix) && ChildClosed(ix.parent, gone)
    ensures SuccOk(ix.parent - gone, RemoveFromIndex(ix, gone).succ)
  {
    hide Nth, SkipOk, Ranked;
    var p, s := ix.parent - gone, RemoveFromIndex(ix, gone).succ;
    forall b | b in p ensures Some(b) in s { assert Some(b) in ix.succ; }
    forall k | k in s ensures s[k] == set b | b in p && p[b] == k { RemoveSucc(ix, gone, k); }
  }

  lemma RemoveSucc(ix: Index, gone: set<Hash>, k: Option<Hash>)
    requires Valid(ix) && k in RemoveFromIndex(ix, gone).succ
    ensures RemoveFromIndex(ix, gone).succ[k] == set b | b in ix.parent - gone && (ix.parent - gone)[b] == k
  {
    hide Nth, SkipOk, Ranked;
    forall b ensures b in RemoveFromIndex(ix, gone).succ[k] <==> b in ix.parent - gone && ix.parent[b] == k {
      assert b in ix.succ[k] <==> b in ix.parent && ix.parent[b] == k;
    }
  }

  lemma RemoveKeepsIndex(ix: Index, gone: set<Hash>)
    requires Valid(ix) && ChildClosed(ix.parent, gone)
    ensures Valid(RemoveFromIndex(ix, gone))
  {
    hide Nth, SkipOk, SuccOk, Ranked;
    var ix' := RemoveFromIndex(ix, gone);
    RankedKeys(ix.parent, ix.height);
    RemoveRanked(ix, gone);
    RemoveSuccs(ix, gone);
    forall b | b in ix'.skip ensures SkipOk(ix'.parent, b, ix'.height[b], ix'.skip[b]) {
      RemoveSkips(ix, gone, b);
    }
  }

  lemma SubtreeChildClosed(db: Db, b: Hash)
    requires TablesOk(db)
    ensures ChildClosed(db.side.parent, Subtree(db, b))
  {
    hide Nth, SkipOk, SuccOk, Ranked, IsAncestor;
    forall x | x in db.side.parent && db.side.parent[x].Some? && db.side.parent[x].value in Subtree(db, b)
      ensures x in Subtree(db, b)
    {
      AncestorStep(db.side.parent, b, x);
    }
  }

  // ----- operations -----

  datatype Op =
    | OpHeader(header: Header)
    | OpMainHeader(info: MainHeader)
    | OpMainInfo(main: Hash, commitment: Option<Hash>)
    | OpBody(hash: Hash, body: Body)
    | OpDeleteBody(hash: Hash, body: Body)
    | OpInvalidate(hash: Hash)

  /** What the archive demands of its callers. Hashes identify what they hash;
    * an invalidated block is not stored again; a body has distinct
    * transactions, and only the stored body of a block is deleted. */
  ghost predicate Allowed(db: Db, op: Op) {
    match op
    case OpHeader(h) => h.hash !in db.invalid && (h.hash in db.headers ==> db.headers[h.hash] == h)
    case OpMainHeader(hi) => hi.hash != ZERO && (hi.hash in db.mainHeaders ==> db.mainHeaders[hi.hash] == hi)
    case OpMainInfo(m, c) => m in db.infos ==> db.infos[m] == c
    case OpBody(b, body) => Distinct(Txids(body)) && (b in db.bodies ==> db.bodies[b] == body)
    case OpDeleteBody(b, body) => b in db.bodies ==> db.bodies[b] == body
    case OpInvalidate(_) => true
  }

  /** A write that fails leaves the archive as it was. */
  ghost function Apply(db: Db, op: Op): Db {
    match op
    case OpHeader(h) => (match PutHeader(db, h) case Ok(db') => db' case Err(_) => db)
    case OpMainHeader(hi) => (match PutMainHeader(db, hi) case Ok(db') => db' case Err(_) => db)
    case OpMainInfo(m, c) => (match PutMainBlockInfo(db, m, c) case Ok(db') => db' case Err(_) => db)
    case OpBody(b, body) => (match PutBody(db, b, body) case Ok(db') => db' case Err(_) => db)
    case OpDeleteBody(b, body) => DeleteBody(db, b, body)
    case OpInvalidate(b) => Invalidate(db, b)
  }

  lemma PutHeaderTables(db: Db, h: Header, db': Db)
    requires TablesOk(db) && Allowed(db, OpHeader(h)) && PutHeader(db, h) == Ok(db')
    ensures TablesOk(db')
  {
    hide Valid, HeaderResult, Insert, SideParents, MainParents;
    PutHeaderIndex(db, h);
  }

  lemma PutHeaderIndex(db: Db, h: Header)
    requires TablesOk(db) && Allowed(db, OpHeader(h)) && PutHeader(db, h).Ok?
    ensures Valid(Insert(db.side, h.hash, h.prevSide))
    ensures Insert(db.side, h.hash, h.prevSide).parent == SideParents(db.headers[h.hash := h])
  {
    hide Valid, SkipList, InsertSucc, HeaderResult;
    KeysMatch(db.side);
    InsertValid(db.side, h.hash, h.prevSide);
  }

  lemma KeysMatch(ix: Index)
    requires Valid(ix)
    ensures ix.height.Keys == ix.parent.Keys && ix.skip.Keys == ix.parent.Keys
  {
  }

  lemma PutMainHeaderIndex(db: Db, hi: MainHeader)
    requires TablesOk(db) && Allowed(db, OpMainHeader(hi)) && PutMainHeader(db, hi).Ok?
    ensures Valid(Insert(db.main, hi.hash, MainParent(hi.prev)))
    ensures Insert(db.main, hi.hash, MainParent(hi.prev)).parent == MainParents(db.mainHeaders[hi.hash := hi])
  {
    hide Valid, SkipList, InsertSucc;
    KeysMatch(db.main);
    InsertValid(db.main, hi.hash, MainParent(hi.prev));
  }

  lemma PutMainHeaderWork(mh: map<Hash, MainHeader>, work: map<Hash, nat>, hi: MainHeader)
    requires WorkOk(mh, work) && (hi.prev != ZERO ==> hi.prev in work) && (hi.hash in mh ==> mh[hi.hash] == hi)
    requires hi.prev != hi.hash || hi.hash in mh
    ensures WorkOk(mh[hi.hash := hi], work[hi.hash := hi.work + if hi.prev == ZERO then 0 else work[hi.prev]])
  {
  }

  lemma PutMainHeaderTables(db: Db, hi: MainHeader, db': Db)
    requires TablesOk(db) && WorkOk(db.mainHeaders, db.work) && Allowed(db, OpMainHeader(hi))
    requires PutMainHeader(db, hi) == Ok(db')
    ensures TablesOk(db') && WorkOk(db'.mainHeaders, db'.work)
  {
    hide Valid, Insert, WorkOk, SideParents, MainParents;
    PutMainHeaderIndex(db, hi);
    WorkKeys(db);
    PutMainHeaderWork(db.mainHeaders, db.work, hi);
  }

  lemma WorkKeys(db: Db)
    requires WorkOk(db.mainHeaders, db.work)
    ensures db.work.Keys == db.mainHeaders.Keys
  {
  }

  lemma PutInfoTables(db: Db, m: Hash, c: Option<Hash>, db': Db)
    requires TablesOk(db) && PutMainBlockInfo(db, m, c) == Ok(db')
    ensures TablesOk(db')
  {
    hide Valid, InfoResult;
  }

  lemma InvalidateTables(db: Db, b: Hash)
    requires TablesOk(db)
    ensures TablesOk(Invalidate(db, b))
  {
    hide Valid, RemoveFromInclusions;
    var db', gone := Invalidate(db, b), Subtree(db, b);
    SubtreeChildClosed(db, b);
    RemoveKeepsIndex(db.side, gone);
    assert db'.side.parent == SideParents(db'.headers);
  }

  lemma InvalidateKeeps(db: Db, b: Hash)
    requires ArchiveOk(db)
    ensures ArchiveOk(Invalidate(db, b))
  {
    hide TablesOk, BmmOk, WorkOk, InclusionsOk, RemoveFromIndex, RemoveFromInclusions, IsAncestor;
    var db', gone := Invalidate(db, b), Subtree(db, b);
    InvalidateTables(db, b);
    RemoveKeepsBmm(db, db');
    RemoveKeepsInclusions(db.bodies, db.inclusions, gone);
    if b in db.headers { NotItsOwnSubtree(db, b); }
  }

  /** A block that stays stored is not the invalidated one. */
  lemma NotItsOwnSubtree(db: Db, b: Hash)
    requires b in db.headers
    ensures b in Subtree(db, b)
  {
    AncestorRefl(db.side.parent, b);
  }

  /** Every write keeps the archive exact. */
  lemma ApplyKeepsArchive(db: Db, op: Op)
    requires ArchiveOk(db) && Allowed(db, op)
    ensures ArchiveOk(Apply(db, op))
  {
    hide TablesOk, BmmOk, WorkOk, InclusionsOk, Insert, HeaderResult, InfoResult, AddInclusions, RemoveInclusions, Distinct, Invalidate;
    var db' := Apply(db, op);
    match op
    case OpHeader(h) =>
      if PutHeader(db, h).Ok? {
        PutHeaderTables(db, h, db');
        PutHeaderKeepsBmm(db, db', h);
      }
    case OpMainHeader(hi) =>
      if PutMainHeader(db, hi).Ok? {
        PutMainHeaderTables(db, hi, db');
        PutMainHeaderKeepsBmm(db, db', hi);
      }
    case OpMainInfo(m, c) =>
      if PutMainBlockInfo(db, m, c).Ok? {
        PutInfoTables(db, m, c, db');
        PutInfoKeepsBmm(db, db', m, c);
      }
    case OpBody(b, body) =>
      if PutBody(db, b, body).Ok? {
        PutKeepsInclusions(db.bodies, db.inclusions, b, body);
        SameTablesBmm(db, db');
      }
    case OpDeleteBody(b, body) =>
      DeleteKeepsInclusions(db.bodies, db.inclusions, b, body);
      SameTablesBmm(db, db');
    case OpInvalidate(b) =>
      InvalidateKeeps(db, b);
  }

  /** Bodies play no part in the header tables. */
  lemma SameTablesBmm(db: Db, db': Db)
    requires TablesOk(db) && BmmOk(db)
    requires db' == db.(bodies := db'.bodies, inclusions := db'.inclusions)
    ensures TablesOk(db') && BmmOk(db')
  {
    hide Valid, BmmValid;
    assert TablesOk(db');
    RemoveKeepsBmm(db, db');
  }

  ghost function RunOps(db: Db, ops: seq<Op>): Db {
    if ops == [] then db else Apply(RunOps(db, ops[..|ops| - 1]), ops[|ops| - 1])
  }

  ghost predicate AllowedRun(db: Db, ops: seq<Op>) {
    forall k :: 0 <= k < |ops| ==> Allowed(RunOps(db, ops[..k]), ops[k])
  }

  lemma EmptyArchiveOk()
    ensures ArchiveOk(EmptyDb())
  {
    assert Valid(EmptyIndex()) by {
      assert EmptyIndex().succ.Keys == {None};
      assert SuccOk(map[], map[None := {}]);
    }
    assert SideParents(map[]) == map[] && MainParents(map[]) == map[];
    assert forall t :: Row(map[], t) == map[];
  }

  /** In every state that a run reaches from the empty archive: headers are
    * closed under parents, heights are distances from genesis, successors invert
    * the parent links, the skip tables and the inclusion index are exact, and a
    * BMM row is Verified exactly when it should be. */
  lemma {:induction false} RunKeepsArchive(ops: seq<Op>)
    requires AllowedRun(EmptyDb(), ops)
    ensures ArchiveOk(RunOps(EmptyDb(), ops))
  {
    hide ArchiveOk, Apply, Allowed;
    if ops == [] {
      EmptyArchiveOk();
    } else {
      var k := |ops| - 1;
      assert forall i :: 0 <= i < k ==> ops[..k][..i] == ops[..i] && ops[..k][i] == ops[i];
      RunKeepsArchive(ops[..k]);
      ApplyKeepsArchive(RunOps(EmptyDb(), ops[..k]), ops[k]);
    }
  }

  /** Invalidating removes exactly the block and its descendants from every
    * table, keeps the rest as it was, and marks what it removed. */
  lemma InvalidateRemovesSubtree(db: Db, b: Hash)
    requires ArchiveOk(db)
    ensures var db' := Invalidate(db, b);
            && (forall x :: x in db'.headers <==> x in db.headers && !IsAncestor(db.side.parent, b, x))
            && (forall x :: x in db'.headers ==> db'.headers[x] == db.headers[x] && db'.side.height[x] == db.side.height[x])
            && (forall x :: x in db.headers && IsAncestor(db.side.parent, b, x) ==> x in db'.invalid)
            && (forall x, y :: x in db'.headers && y in db'.headers ==>
                  (IsAncestor(db'.side.parent, x, y) <==> IsAncestor(db.side.parent, x, y)))
  {
    hide TablesOk, BmmOk, WorkOk, InclusionsOk, RemoveFromInclusions, IsAncestor;
    var db', gone := Invalidate(db, b), Subtree(db, b);
    InvalidateTables(db, b);
    forall x | x in db'.headers ensures x in db'.side.height && db'.side.height[x] == db.side.height[x] {
      SideFacts(db', x);
    }
    forall x, y | x in db'.headers && y in db'.headers
      ensures IsAncestor(db'.side.parent, x, y) <==> IsAncestor(db.side.parent, x, y)
    {
      SubtreeFrame(db, db', x, y);
    }
  }

  lemma SubtreeFrame(db: Db, db': Db, x: Hash, y: Hash)
    requires TablesOk(db) && TablesOk(db') && y in db'.headers
    requires db'.side.parent == db.side.parent - (db.headers.Keys - db'.headers.Keys)
    ensures IsAncestor(db'.side.parent, x, y) <==> IsAncestor(db.side.parent, x, y)
  {
    hide SkipOk, SuccOk, IsAncestor;
    AncestorFrame(db'.side.parent, db.side.parent, x, y);
  }

  lemma ArchiveFacts(db: Db)
    requires ArchiveOk(db)
    ensures TablesOk(db) && Valid(db.side) && Valid(db.main)
    ensures db.main.height.Keys == db.main.parent.Keys == db.mainHeaders.Keys == db.work.Keys
    ensures db.side.height.Keys == db.side.parent.Keys == db.headers.Keys
    ensures forall m :: m in db.mainHeaders ==> db.main.parent[m] == MainParent(db.mainHeaders[m].prev)
    ensures forall b :: b in db.headers ==> db.side.parent[b] == db.headers[b].prevSide
  {
    hide Valid, BmmOk, InclusionsOk, BmmValid;
    KeysMatch(db.main);
    KeysMatch(db.side);
  }
}
