/** Archives, each reached by a run of writes from the empty one, that show where
  * the comparison of tips goes wrong, and where a reorg is sure to succeed. */
module TipExamples {
  import opened Wrappers
  import opened Types
  import opened Ancestry
  import opened BlockIndex
  import opened Blocks
  import opened StateInvariant
  import opened Chains
  import opened ArchiveDb
  import opened BmmTable
  import opened Inclusions
  import opened ArchiveRuns
  import opened BetterTip
  import opened TipOrder
  import opened ActiveChain
  import opened MemPool
  import opened Nodes
  import opened Signatures
  import opened Resubmission
  import opened ReorgPath
  import opened Reorgs
  import opened ReorgGoal
  import opened ReorgRun
  import Examples

  // ----- building an archive -----

  ghost predicate Reached(ops: seq<Op>, db: Db) {
    AllowedRun(EmptyDb(), ops) && db == RunOps(EmptyDb(), ops) && db.invalid == {}
  }

  lemma Begin()
    ensures Reached([], EmptyDb())
  {
  }

  lemma Extend(ops: seq<Op>, op: Op)
    requires AllowedRun(EmptyDb(), ops) && Allowed(RunOps(EmptyDb(), ops), op)
    ensures AllowedRun(EmptyDb(), ops + [op])
    ensures RunOps(EmptyDb(), ops + [op]) == Apply(RunOps(EmptyDb(), ops), op)
  {
    hide Allowed, Apply;
    var all := ops + [op];
    assert all[..|ops|] == ops;
    forall k | 0 <= k < |all| ensures Allowed(RunOps(EmptyDb(), all[..k]), all[k]) {
      if k < |ops| { assert all[..k] == ops[..k] && Allowed(RunOps(EmptyDb(), ops[..k]), ops[k]); }
    }
  }

  lemma ReachedOk(ops: seq<Op>, db: Db)
    requires Reached(ops, db)
    ensures ArchiveOk(db)
  {
    hide ArchiveOk, AllowedRun, RunOps;
    RunKeepsArchive(ops);
  }

  lemma AddMain(ops: seq<Op>, db: Db, hi: MainHeader) returns (ops': seq<Op>, db': Db)
    requires Reached(ops, db) && hi.hash != ZERO && hi.hash !in db.mainHeaders && (hi.prev == ZERO || hi.prev in db.mainHeaders)
    ensures Reached(ops', db')
    ensures db' == db.(mainHeaders := db.mainHeaders[hi.hash := hi], main := db'.main, work := db'.work)
    ensures hi.prev != ZERO ==> hi.prev in db.main.height && hi.prev in db.work
    ensures db'.main.height == db.main.height[hi.hash := if hi.prev == ZERO then 0 else db.main.height[hi.prev] + 1]
    ensures db'.work == db.work[hi.hash := hi.work + if hi.prev == ZERO then 0 else db.work[hi.prev]]
  {
    hide AllowedRun, RunOps, Valid, SkipList, InsertSucc, Log2, ArchiveOk;
    ReachedOk(ops, db);
    ArchiveFacts(db);
    var op := OpMainHeader(hi);
    Extend(ops, op);
    ops', db' := ops + [op], Apply(db, op);
  }

  lemma AddInfo(ops: seq<Op>, db: Db, m: Hash, c: Option<Hash>) returns (ops': seq<Op>, db': Db)
    requires Reached(ops, db) && m in db.mainHeaders && m !in db.infos && (c.Some? ==> c.value !in db.headers)
    requires db.mainHeaders[m].prev == ZERO || db.mainHeaders[m].prev in db.infos
    ensures Reached(ops', db') && db' == db.(infos := db.infos[m := c])
  {
    hide AllowedRun, RunOps, InfoResult;
    var op := OpMainInfo(m, c);
    Extend(ops, op);
    ops', db' := ops + [op], Apply(db, op);
  }

  lemma AddHeader(ops: seq<Op>, db: Db, h: Header) returns (ops': seq<Op>, db': Db)
    requires Reached(ops, db) && h.hash !in db.headers && (h.prevSide.Some? ==> h.prevSide.value in db.headers)
    requires h.prevMain in db.mainHeaders && db.infos.Keys == db.mainHeaders.Keys
    ensures Reached(ops', db')
    ensures db' == db.(headers := db.headers[h.hash := h], side := db'.side, bmm := db'.bmm)
    ensures h.prevSide.Some? ==> h.prevSide.value in db.side.height
    ensures db'.side.height == db.side.height[h.hash := if h.prevSide.None? then 0 else db.side.height[h.prevSide.value] + 1]
  {
    hide AllowedRun, RunOps, Valid, SkipList, InsertSucc, Log2, ArchiveOk, HeaderResult;
    ReachedOk(ops, db);
    ArchiveFacts(db);
    Successors(db, h.prevMain);
    var op := OpHeader(h);
    Extend(ops, op);
    ops', db' := ops + [op], Apply(db, op);
  }

  lemma Successors(db: Db, m: Hash)
    requires ArchiveOk(db) && m in db.mainHeaders
    ensures m != ZERO && Some(m) in db.main.succ && db.main.succ[Some(m)] <= db.mainHeaders.Keys
  {
    hide SkipOk, Ranked, BmmOk, WorkOk, InclusionsOk;
  }

  lemma AddBody(ops: seq<Op>, db: Db, b: Hash) returns (ops': seq<Op>, db': Db)
    requires Reached(ops, db) && b in db.headers && b !in db.bodies
    ensures Reached(ops', db') && db' == db.(bodies := db.bodies[b := Body([], [], [])], inclusions := db'.inclusions)
  {
    hide AllowedRun, RunOps, AddInclusions;
    var op := OpBody(b, Body([], [], []));
    Extend(ops, op);
    ops', db' := ops + [op], Apply(db, op);
  }

  // ----- reading an archive -----

  /** A verified row, from its commitment and one below it to its parent. */
  lemma VerifiedNow(db: Db, b: Hash, m: Hash, below: Hash)
    requires ArchiveOk(db) && Committed(db, b, m)
    requires db.headers[b].prevSide.Some? ==> IsVerified(db, db.headers[b].prevSide.value, below) && IsAncestor(db.main.parent, below, m)
    ensures IsVerified(db, b, m) && BmmValid(db, b, m)
  {
    hide ArchiveOk, IsAncestor, BmmValid, IsVerified, TablesOk;
    ArchiveFacts(db);
    if db.headers[b].prevSide.Some? {
      var q := db.headers[b].prevSide.value;
      SideFacts(db, b);
      VerifiedIsValid(db, q, below);
    }
    BmmUnfold(db, b, m);
    ValidIsVerified(db, b, m);
  }

  lemma ValidIsVerified(db: Db, b: Hash, m: Hash)
    requires ArchiveOk(db) && b in db.headers && BmmValid(db, b, m)
    ensures IsVerified(db, b, m)
  {
    hide TablesOk, WorkOk;
  }

  lemma StoredTip(db: Db, t: Tip)
    requires ArchiveOk(db) && t.block in db.headers && t.main in db.mainHeaders
    ensures Scored(db) && Comparable(db, t)
  {
    hide TablesOk, WorkOk, ArchiveOk;
    ArchiveFacts(db);
    ArchiveScored(db);
  }

  lemma ParentAbove(db: Db, a: Hash, m: Hash)
    requires ArchiveOk(db) && m in db.mainHeaders && db.mainHeaders[m].prev != ZERO && IsAncestor(db.main.parent, a, db.mainHeaders[m].prev)
    ensures IsAncestor(db.main.parent, a, m)
  {
    hide ArchiveOk, IsAncestor;
    ArchiveFacts(db);
    AncestorStep(db.main.parent, a, m);
  }

  /** A block is no ancestor of a different one of at most its height. */
  lemma NotAbove(db: Db, a: Hash, m: Hash)
    requires ArchiveOk(db) && a in db.mainHeaders && m in db.mainHeaders && a != m
    requires a in db.main.height && m in db.main.height && db.main.height[m] <= db.main.height[a]
    ensures !IsAncestor(db.main.parent, a, m)
  {
    hide ArchiveOk, IsAncestor, Valid;
    ArchiveFacts(db);
    if IsAncestor(db.main.parent, a, m) { AncestorHeight(db.main, a, m); }
  }

  /** Two lineages that part right above `z`. */
  lemma ForkAt(db: Db, a: Hash, b: Hash, z: Hash, x: Hash, c: Option<Hash>)
    requires ArchiveOk(db) && a in db.mainHeaders && b in db.mainHeaders && x in db.mainHeaders && db.mainHeaders[x].prev == z != ZERO
    requires IsAncestor(db.main.parent, x, a) && IsAncestor(db.main.parent, z, b) && !IsAncestor(db.main.parent, x, b)
    requires IsCommon(db.main, a, b, c)
    ensures c == Some(z)
  {
    hide ArchiveOk, IsAncestor, OneGenesis, Valid, TablesOk;
    ArchiveFacts(db);
    var ix := db.main;
    AncestorStep(ix.parent, z, x);
    AncestorRefl(ix.parent, z);
    AncestorTrans(ix.parent, z, x, a);
    SharedGenesis(ix, a, b, z);
    var l := c.value;
    AncestorHeight(ix, l, a);
    AncestorHeight(ix, x, a);
    AncestorHeight(ix, z, l);
    ChildHeight(db, x);
    if ix.height[x] <= ix.height[l] {
      OnOneChain(ix, x, l, a);
      AncestorTrans(ix.parent, x, l, b);
    }
  }

  lemma ChildHeight(db: Db, x: Hash)
    requires ArchiveOk(db) && x in db.mainHeaders && db.mainHeaders[x].prev != ZERO
    ensures var z := db.mainHeaders[x].prev;
            z in db.main.height && x in db.main.height && db.main.height[x] == db.main.height[z] + 1
  {
    hide SkipOk, SuccOk, BmmOk, WorkOk, InclusionsOk;
  }

  // ----- a fork of the mainchain -----

  // Mainchain blocks 5 <- 1, then a fork: 1 <- 2 <- 3 and 1 <- 4.
  ghost predicate Forked(db: Db, w3: nat, w4: nat) { ForkedMain(db.mainHeaders, db.main.height, db.work, w3, w4) }

  ghost predicate ForkedMain(mh: map<Hash, MainHeader>, height: Heights, work: map<Hash, nat>, w3: nat, w4: nat) {
    && mh == map[5 := MainHeader(5, ZERO, 0, 1), 1 := MainHeader(1, 5, 1, 1), 2 := MainHeader(2, 1, 2, 1),
                             3 := MainHeader(3, 2, 3, w3), 4 := MainHeader(4, 1, 2, w4)]
    && height == map[5 := 0, 1 := 1, 2 := 2, 3 := 3, 4 := 2]
    && work == map[5 := 1, 1 := 2, 2 := 3, 3 := 3 + w3, 4 := 2 + w4]
  }

  /** Only mainchain headers are stored. */
  ghost predicate MainsOnly(db: Db) {
    db == EmptyDb().(mainHeaders := db.mainHeaders, main := db.main, work := db.work)
  }

  lemma FirstMain() returns (ops: seq<Op>, db: Db)
    ensures Reached(ops, db) && MainsOnly(db)
    ensures db.mainHeaders == map[5 := MainHeader(5, ZERO, 0, 1)] && db.main.height == map[5 := 0] && db.work == map[5 := 1]
  {
    hide Reached;
    Begin();
    ops, db := AddMain([], EmptyDb(), MainHeader(5, ZERO, 0, 1));
  }

  lemma Stem() returns (ops: seq<Op>, db: Db)
    ensures Reached(ops, db) && MainsOnly(db)
    ensures db.mainHeaders == map[5 := MainHeader(5, ZERO, 0, 1), 1 := MainHeader(1, 5, 1, 1), 2 := MainHeader(2, 1, 2, 1)]
    ensures db.main.height == map[5 := 0, 1 := 1, 2 := 2]
    ensures db.work == map[5 := 1, 1 := 2, 2 := 3]
  {
    hide Reached;
    ops, db := FirstMain();
    ops, db := AddMain(ops, db, MainHeader(1, 5, 1, 1));
    ops, db := AddMain(ops, db, MainHeader(2, 1, 2, 1));
  }

  lemma ForkMains(w3: nat, w4: nat) returns (ops: seq<Op>, db: Db)
    ensures Reached(ops, db) && Forked(db, w3, w4)
    ensures MainsOnly(db)
  {
    hide Reached;
    ops, db := Stem();
    ops, db := AddMain(ops, db, MainHeader(3, 2, 3, w3));
    ops, db := AddMain(ops, db, MainHeader(4, 1, 2, w4));
  }

  /** Mainchain blocks 1, 2 and 3 commit to 10, 11 and 12, block 4 to `c`. */
  lemma ForkInfos(w3: nat, w4: nat, c: Hash) returns (ops: seq<Op>, db: Db)
    ensures Reached(ops, db) && Forked(db, w3, w4)
    ensures db == EmptyDb().(mainHeaders := db.mainHeaders, main := db.main, work := db.work, infos := db.infos)
    ensures db.infos == map[5 := None, 1 := Some(10), 2 := Some(11), 3 := Some(12), 4 := Some(c)]
    ensures db.infos.Keys == {5, 1, 2, 3, 4} == db.mainHeaders.Keys
  {
    hide Reached;
    ops, db := ForkMains(w3, w4);
    ops, db := AddInfo(ops, db, 5, None);
    ops, db := AddInfo(ops, db, 1, Some(10));
    ops, db := AddInfo(ops, db, 2, Some(11));
    ops, db := AddInfo(ops, db, 3, Some(12));
    ops, db := AddInfo(ops, db, 4, Some(c));
    assert db.infos.Keys == {5, 1, 2, 3, 4};
  }

  lemma ForkedLineages(db: Db, w3: nat, w4: nat)
    requires ArchiveOk(db) && Forked(db, w3, w4)
    ensures var p := db.main.parent;
            && IsAncestor(p, 1, 2) && IsAncestor(p, 1, 3) && IsAncestor(p, 1, 4) && IsAncestor(p, 2, 3)
            && !IsAncestor(p, 2, 4) && !IsAncestor(p, 4, 2) && !IsAncestor(p, 3, 4) && !IsAncestor(p, 4, 3)
  {
    hide ArchiveOk, IsAncestor;
    var p := db.main.parent;
    AncestorRefl(p, 1);
    AncestorRefl(p, 2);
    ParentAbove(db, 1, 2);
    ParentAbove(db, 1, 3);
    ParentAbove(db, 1, 4);
    ParentAbove(db, 2, 3);
    NotAbove(db, 2, 4);
    NotAbove(db, 4, 2);
    NotAbove(db, 3, 4);
    ArchiveFacts(db);
    AncestorStep(p, 4, 3);
  }

  // ----- a circle of level tips -----

  lemma LevelHalf() returns (ops: seq<Op>, db: Db)
    ensures Reached(ops, db) && Forked(db, 4, 3)
    ensures db.headers == map[10 := Header(10, 0, 0, None, 5), 11 := Header(11, 0, 0, Some(10), 1)]
    ensures db.side.height == map[10 := 0, 11 := 1]
    ensures db.infos == map[5 := None, 1 := Some(10), 2 := Some(11), 3 := Some(12), 4 := Some(13)]
    ensures db.infos.Keys == {5, 1, 2, 3, 4} == db.mainHeaders.Keys
  {
    hide Reached, ForkedMain;
    ops, db := ForkInfos(4, 3, 13);
    ops, db := AddHeader(ops, db, Header(10, 0, 0, None, 5));
    ops, db := AddHeader(ops, db, Header(11, 0, 0, Some(10), 1));
  }

  // Sidechain block 10 and three blocks on it, built on mainchain blocks 1, 2 and 1.
  lemma LevelDb() returns (ops: seq<Op>, db: Db)
    ensures Reached(ops, db) && Forked(db, 4, 3)
    ensures db.headers == map[10 := Header(10, 0, 0, None, 5), 11 := Header(11, 0, 0, Some(10), 1),
                              12 := Header(12, 0, 0, Some(10), 2), 13 := Header(13, 0, 0, Some(10), 1)]
    ensures db.side.height == map[10 := 0, 11 := 1, 12 := 1, 13 := 1]
    ensures db.infos == map[5 := None, 1 := Some(10), 2 := Some(11), 3 := Some(12), 4 := Some(13)]
  {
    hide Reached, ForkedMain;
    ops, db := LevelHalf();
    ops, db := AddHeader(ops, db, Header(12, 0, 0, Some(10), 2));
    ops, db := AddHeader(ops, db, Header(13, 0, 0, Some(10), 1));
  }

  lemma LevelVerified(db: Db)
    requires ArchiveOk(db) && Forked(db, 4, 3)
    requires db.headers == map[10 := Header(10, 0, 0, None, 5), 11 := Header(11, 0, 0, Some(10), 1),
                               12 := Header(12, 0, 0, Some(10), 2), 13 := Header(13, 0, 0, Some(10), 1)]
    requires db.infos == map[5 := None, 1 := Some(10), 2 := Some(11), 3 := Some(12), 4 := Some(13)]
    ensures IsVerified(db, 11, 2) && IsVerified(db, 12, 3) && IsVerified(db, 13, 4)
  {
    hide ArchiveOk, IsAncestor, IsVerified, BmmValid;
    ForkedLineages(db, 4, 3);
    VerifiedNow(db, 10, 1, 0);
    VerifiedNow(db, 11, 2, 1);
    VerifiedNow(db, 12, 3, 1);
    VerifiedNow(db, 13, 4, 1);
  }

  /** Three verified tips of one height, reached by a run of writes, that beat one
    * another in a circle. */
  lemma CircleExists()
    returns (ops: seq<Op>, db: Db, x: Tip, y: Tip, z: Tip, xy: Option<Hash>, yz: Option<Hash>, zx: Option<Hash>)
    ensures Reached(ops, db) && ArchiveOk(db)
    ensures IsVerified(db, x.block, x.main) && IsVerified(db, y.block, y.main) && IsVerified(db, z.block, z.main)
    ensures Rated(db, x, z, zx) && Rated(db, z, y, yz) && Rated(db, y, x, xy)
    ensures Circle(db, x, z, y, zx, yz, xy)
  {
    hide Reached, ArchiveOk, Valid, IsAncestor, IsCommon, Prefers, Scored, Comparable, IsVerified;
    ops, db := LevelDb();
    x, y, z := Tip(11, 2), Tip(13, 4), Tip(12, 3);
    ReachedOk(ops, db);
    LevelVerified(db);
    StoredTip(db, x);
    StoredTip(db, y);
    StoredTip(db, z);
    ForkedLineages(db, 4, 3);
    xy := RatedBoth(db, x, y);
    yz := RatedBoth(db, y, z);
    zx := RatedBoth(db, z, x);
    LevelPrefers(db, zx, x, z);
    LevelPrefers(db, yz, z, y);
    LevelPrefers(db, xy, y, x);
  }

  // ----- a circle of tips of different heights -----

  // Mainchain blocks 5 <- 1 <- 2, then a fork: 2 <- 3, 2 <- 4 and 2 <- 6 <- 7 <- 8.
  ghost predicate ThreeWays(db: Db) { ThreeWayMain(db.mainHeaders, db.main.height, db.work) }

  ghost predicate ThreeWayMain(mh: map<Hash, MainHeader>, height: Heights, work: map<Hash, nat>) {
    && mh == map[5 := MainHeader(5, ZERO, 0, 1), 1 := MainHeader(1, 5, 1, 1), 2 := MainHeader(2, 1, 2, 1),
                             3 := MainHeader(3, 2, 3, 1), 4 := MainHeader(4, 2, 3, 10), 6 := MainHeader(6, 2, 3, 1),
                             7 := MainHeader(7, 6, 4, 1), 8 := MainHeader(8, 7, 5, 1)]
    && height == map[5 := 0, 1 := 1, 2 := 2, 3 := 3, 4 := 3, 6 := 3, 7 := 4, 8 := 5]
    && work == map[5 := 1, 1 := 2, 2 := 3, 3 := 4, 4 := 13, 6 := 4, 7 := 5, 8 := 6]
  }

  lemma TwoWays() returns (ops: seq<Op>, db: Db)
    ensures Reached(ops, db) && MainsOnly(db)
    ensures db.mainHeaders == map[5 := MainHeader(5, ZERO, 0, 1), 1 := MainHeader(1, 5, 1, 1), 2 := MainHeader(2, 1, 2, 1),
                                  3 := MainHeader(3, 2, 3, 1), 4 := MainHeader(4, 2, 3, 10)]
    ensures db.main.height == map[5 := 0, 1 := 1, 2 := 2, 3 := 3, 4 := 3]
    ensures db.work == map[5 := 1, 1 := 2, 2 := 3, 3 := 4, 4 := 13]
  {
    hide Reached;
    ops, db := Stem();
    ops, db := AddMain(ops, db, MainHeader(3, 2, 3, 1));
    ops, db := AddMain(ops, db, MainHeader(4, 2, 3, 10));
  }

  lemma ThirdWay() returns (ops: seq<Op>, db: Db)
    ensures Reached(ops, db) && MainsOnly(db)
    ensures db.mainHeaders == map[5 := MainHeader(5, ZERO, 0, 1), 1 := MainHeader(1, 5, 1, 1), 2 := MainHeader(2, 1, 2, 1),
                                  3 := MainHeader(3, 2, 3, 1), 4 := MainHeader(4, 2, 3, 10), 6 := MainHeader(6, 2, 3, 1)]
    ensures db.main.height == map[5 := 0, 1 := 1, 2 := 2, 3 := 3, 4 := 3, 6 := 3]
    ensures db.work == map[5 := 1, 1 := 2, 2 := 3, 3 := 4, 4 := 13, 6 := 4]
  {
    hide Reached;
    ops, db := TwoWays();
    ops, db := AddMain(ops, db, MainHeader(6, 2, 3, 1));
  }

  lemma ThreeWayMains() returns (ops: seq<Op>, db: Db)
    ensures Reached(ops, db) && MainsOnly(db) && ThreeWays(db)
  {
    hide Reached;
    ops, db := ThirdWay();
    ops, db := AddMain(ops, db, MainHeader(7, 6, 4, 1));
    ops, db := AddMain(ops, db, MainHeader(8, 7, 5, 1));
  }

  ghost function ThreeWayInfos(): map<Hash, Option<Hash>> {
    map[5 := None, 1 := Some(10), 2 := Some(11), 3 := Some(12), 4 := Some(13), 6 := Some(14), 7 := Some(15), 8 := Some(16)]
  }

  lemma ThreeWayCommitments() returns (ops: seq<Op>, db: Db)
    ensures Reached(ops, db) && ThreeWays(db) && db.headers == map[] && db.side.height == map[]
    ensures db.infos == ThreeWayInfos() && db.infos.Keys == db.mainHeaders.Keys == {5, 1, 2, 3, 4, 6, 7, 8}
  {
    hide Reached;
    ops, db := ThreeWayMains();
    ops, db := AddInfo(ops, db, 5, None);
    ops, db := AddInfo(ops, db, 1, Some(10));
    ops, db := AddInfo(ops, db, 2, Some(11));
    ops, db := AddInfo(ops, db, 3, Some(12));
    ops, db := AddInfo(ops, db, 4, Some(13));
    ops, db := AddInfo(ops, db, 6, Some(14));
    ops, db := AddInfo(ops, db, 7, Some(15));
    ops, db := AddInfo(ops, db, 8, Some(16));
    assert db.infos.Keys == {5, 1, 2, 3, 4, 6, 7, 8} == db.mainHeaders.Keys;
  }

  // Sidechain blocks 10 <- 11 <- 12, 10 <- 13 and 10 <- 14 <- 15 <- 16.
  ghost predicate ThreeChains(db: Db) {
    && db.headers == map[10 := Header(10, 0, 0, None, 5), 11 := Header(11, 0, 0, Some(10), 1), 12 := Header(12, 0, 0, Some(11), 2),
                         13 := Header(13, 0, 0, Some(10), 2), 14 := Header(14, 0, 0, Some(10), 2),
                         15 := Header(15, 0, 0, Some(14), 6), 16 := Header(16, 0, 0, Some(15), 7)]
    && db.side.height == map[10 := 0, 11 := 1, 12 := 2, 13 := 1, 14 := 1, 15 := 2, 16 := 3]
    && db.infos == ThreeWayInfos()
  }

  lemma FirstChain() returns (ops: seq<Op>, db: Db)
    ensures Reached(ops, db) && ThreeWays(db) && db.infos == ThreeWayInfos() && db.infos.Keys == db.mainHeaders.Keys == {5, 1, 2, 3, 4, 6, 7, 8}
    ensures db.headers == map[10 := Header(10, 0, 0, None, 5), 11 := Header(11, 0, 0, Some(10), 1), 12 := Header(12, 0, 0, Some(11), 2)]
    ensures db.side.height == map[10 := 0, 11 := 1, 12 := 2]
  {
    hide Reached, ThreeWayInfos, ThreeWayMain;
    ops, db := ThreeWayCommitments();
    ops, db := AddHeader(ops, db, Header(10, 0, 0, None, 5));
    ops, db := AddHeader(ops, db, Header(11, 0, 0, Some(10), 1));
    ops, db := AddHeader(ops, db, Header(12, 0, 0, Some(11), 2));
  }

  lemma SecondChain() returns (ops: seq<Op>, db: Db)
    ensures Reached(ops, db) && ThreeWays(db) && db.infos == ThreeWayInfos() && db.infos.Keys == db.mainHeaders.Keys == {5, 1, 2, 3, 4, 6, 7, 8}
    ensures db.headers == map[10 := Header(10, 0, 0, None, 5), 11 := Header(11, 0, 0, Some(10), 1), 12 := Header(12, 0, 0, Some(11), 2),
                              13 := Header(13, 0, 0, Some(10), 2), 14 := Header(14, 0, 0, Some(10), 2)]
    ensures db.side.height == map[10 := 0, 11 := 1, 12 := 2, 13 := 1, 14 := 1]
  {
    hide Reached, ThreeWayInfos, ThreeWayMain;
    ops, db := FirstChain();
    ops, db := AddHeader(ops, db, Header(13, 0, 0, Some(10), 2));
    ops, db := AddHeader(ops, db, Header(14, 0, 0, Some(10), 2));
  }

  lemma ThreeChainsDb() returns (ops: seq<Op>, db: Db)
    ensures Reached(ops, db) && ThreeWays(db) && ThreeChains(db)
  {
    hide Reached, ThreeWayInfos, ThreeWayMain;
    ops, db := SecondChain();
    ops, db := AddHeader(ops, db, Header(15, 0, 0, Some(14), 6));
    ops, db := AddHeader(ops, db, Header(16, 0, 0, Some(15), 7));
  }

  lemma ThreeWayLineages(db: Db)
    requires ArchiveOk(db) && ThreeWays(db)
    ensures var p := db.main.parent;
            && IsAncestor(p, 1, 2) && IsAncestor(p, 2, 3) && IsAncestor(p, 2, 4) && IsAncestor(p, 1, 4) && IsAncestor(p, 1, 6)
            && IsAncestor(p, 6, 7) && IsAncestor(p, 7, 8) && IsAncestor(p, 6, 8) && IsAncestor(p, 5, 2) && IsAncestor(p, 3, 3)
            && !IsAncestor(p, 3, 4) && !IsAncestor(p, 6, 4) && !IsAncestor(p, 6, 2) && !IsAncestor(p, 7, 2)
  {
    hide ArchiveOk, IsAncestor;
    var p := db.main.parent;
    AncestorRefl(p, 1);
    AncestorRefl(p, 2);
    AncestorRefl(p, 3);
    AncestorRefl(p, 5);
    AncestorRefl(p, 6);
    AncestorRefl(p, 7);
    ParentAbove(db, 5, 1);
    ParentAbove(db, 5, 2);
    ParentAbove(db, 1, 2);
    ParentAbove(db, 2, 3);
    ParentAbove(db, 2, 4);
    ParentAbove(db, 1, 4);
    ParentAbove(db, 1, 6);
    ParentAbove(db, 6, 7);
    ParentAbove(db, 7, 8);
    ParentAbove(db, 6, 8);
    NotAbove(db, 3, 4);
    NotAbove(db, 6, 4);
    NotAbove(db, 6, 2);
    NotAbove(db, 7, 2);
  }

  /** Main block `m` commits to `b`, a block with parent `parent`. */
  ghost predicate Commits(db: Db, m: Hash, b: Hash, parent: Option<Hash>) {
    Committed(db, b, m) && db.headers[b].prevSide == parent
  }

  lemma ThreeCommitted(db: Db)
    requires ThreeWays(db) && ThreeChains(db)
    ensures Commits(db, 1, 10, None) && Commits(db, 2, 11, Some(10))
  {
  }

  lemma ShortCommitted(db: Db)
    requires ThreeWays(db) && ThreeChains(db)
    ensures Commits(db, 3, 12, Some(11)) && Commits(db, 4, 13, Some(10))
  {
  }

  lemma LongCommitted(db: Db)
    requires ThreeWays(db) && ThreeChains(db)
    ensures Commits(db, 6, 14, Some(10)) && Commits(db, 7, 15, Some(14)) && Commits(db, 8, 16, Some(15))
  {
  }

  lemma ThreeVerified(db: Db)
    requires ArchiveOk(db) && ThreeWays(db) && ThreeChains(db)
    ensures IsVerified(db, 12, 3) && IsVerified(db, 13, 4) && IsVerified(db, 16, 8)
  {
    hide ArchiveOk, IsAncestor, IsVerified, BmmValid, ThreeWays, ThreeChains;
    ThreeWayLineages(db);
    ThreeCommitted(db);
    ShortCommitted(db);
    LongCommitted(db);
    VerifiedNow(db, 10, 1, 0);
    VerifiedNow(db, 11, 2, 1);
    VerifiedNow(db, 12, 3, 2);
    VerifiedNow(db, 13, 4, 1);
    VerifiedNow(db, 14, 6, 1);
    VerifiedNow(db, 15, 7, 6);
    VerifiedNow(db, 16, 8, 7);
  }

  lemma ThreeBelow(db: Db)
    requires ArchiveOk(db) && ThreeWays(db) && ThreeChains(db)
    ensures LastHeight(db, 12, Some(2)) == 1 && LastHeight(db, 16, Some(2)) == 0
  {
    hide ArchiveOk, IsAncestor;
    ThreeWayLineages(db);
    assert LastBelow(db, 11, Some(2)) == Some(11);
    assert LastBelow(db, 12, Some(2)) == Some(11);
    assert LastBelow(db, 10, Some(2)) == Some(10);
    assert LastBelow(db, 14, Some(2)) == Some(10);
    assert LastBelow(db, 15, Some(2)) == Some(10);
    assert LastBelow(db, 16, Some(2)) == Some(10);
  }

  /** Three verified tips of heights 3, 2 and 1, reached by a run of writes, that
    * beat one another in a circle. */
  lemma CircleOfHeightsExists()
    returns (ops: seq<Op>, db: Db, a: Tip, b: Tip, c: Tip, ab: Option<Hash>, bc: Option<Hash>, ca: Option<Hash>)
    ensures Reached(ops, db) && ArchiveOk(db)
    ensures IsVerified(db, a.block, a.main) && IsVerified(db, b.block, b.main) && IsVerified(db, c.block, c.main)
    ensures Rated(db, a, b, ab) && Rated(db, b, c, bc) && Rated(db, c, a, ca)
    ensures db.side.height[a.block] > db.side.height[b.block] > db.side.height[c.block]
    ensures Circle(db, a, b, c, ab, bc, ca)
  {
    hide Reached, ArchiveOk, Valid, IsAncestor, IsCommon, Scored, IsVerified, LastHeight, Circle;
    ops, db := ThreeChainsDb();
    a, b, c := Tip(16, 8), Tip(12, 3), Tip(13, 4);
    ReachedOk(ops, db);
    ThreeVerified(db);
    ThreeStored(db);
    ab := RatedBoth(db, a, b);
    bc := RatedBoth(db, b, c);
    ca := RatedBoth(db, a, c);
    ThreeForks(db, bc, ca);
    ThreeBelow(db);
    CircleByHeight(db, a, b, c, ab, bc, ca);
  }

  lemma ThreeStored(db: Db)
    requires ArchiveOk(db) && ThreeWays(db) && ThreeChains(db)
    ensures Scored(db) && Comparable(db, Tip(16, 8)) && Comparable(db, Tip(12, 3)) && Comparable(db, Tip(13, 4))
  {
    hide ArchiveOk, Scored, Comparable;
    StoredTip(db, Tip(16, 8));
    StoredTip(db, Tip(12, 3));
    StoredTip(db, Tip(13, 4));
  }

  lemma ThreeForks(db: Db, bc: Option<Hash>, ca: Option<Hash>)
    requires ArchiveOk(db) && ThreeWays(db) && IsCommon(db.main, 3, 4, bc) && IsCommon(db.main, 8, 4, ca)
    ensures bc == ca == Some(2)
  {
    hide ArchiveOk, IsAncestor, IsCommon;
    ThreeWayLineages(db);
    ForkAt(db, 3, 4, 2, 3, bc);
    ForkAt(db, 8, 4, 2, 6, ca);
  }

  lemma RatedBoth(db: Db, a: Tip, b: Tip) returns (c: Option<Hash>)
    requires ArchiveOk(db) && Scored(db) && Comparable(db, a) && Comparable(db, b)
    ensures IsCommon(db.main, a.main, b.main, c) && Rated(db, a, b, c) && Rated(db, b, a, c)
  {
    hide ArchiveOk, Valid, IsCommon, Scored, Comparable;
    ArchiveFacts(db);
    c := CommonExists(db.main, a.main, b.main);
    MakeRated(db, a, b, c);
    RatedSymmetric(db, a, b, c);
  }

  // ----- a target on the chain of the node -----

  function NoTransactions(): Body { Body([], [], []) }

  lemma EmptyApplies(st: State, header: Header)
    requires header.prevSide == st.tip && header.merkleRoot == 0
    ensures ApplyBlock(Examples.Lenient(), st, header, NoTransactions()) ==
            Ok(State(st.ledger, Some(header.hash), Some(NextHeight(st))))
  {
    hide Prevalidate;
    Examples.Prevalidates(st, header, [], [], []);
    var l := st.ledger;
    assert l.utxos - {} + map[] == l.utxos && l.stxos + map[] == l.stxos;
    assert CoinbasePuts(header, []) == map[];
  }

  lemma NothingIsFresh(l: Ledger, header: Header)
    ensures Fresh(l, header, NoTransactions())
  {
  }

  /** Blocks without transactions, one on the other. */
  ghost predicate EmptyChain(chain: seq<Block>) {
    forall i {:trigger chain[i]} :: 0 <= i < |chain| ==>
      && chain[i].body == NoTransactions() && chain[i].header.merkleRoot == 0
      && chain[i].header.prevSide == if i == 0 then None else Some(chain[i - 1].header.hash)
  }

  lemma EmptyFresh(chain: seq<Block>)
    requires EmptyChain(chain)
    ensures FreshChain(Examples.Lenient(), Examples.Empty(), chain)
  {
    hide Fold, Fresh, Examples.Lenient, Examples.Empty;
    forall k | 0 <= k < |chain| && Fold(Examples.Lenient(), Examples.Empty(), chain[..k]).Ok?
      ensures Fresh(Fold(Examples.Lenient(), Examples.Empty(), chain[..k]).value.ledger, chain[k].header, chain[k].body)
    {
      NothingIsFresh(Fold(Examples.Lenient(), Examples.Empty(), chain[..k]).value.ledger, chain[k].header);
    }
  }

  /** The state after such a chain. */
  ghost function EmptyState(chain: seq<Block>): State {
    if chain == [] then Examples.Empty()
    else State(Examples.Empty().ledger, Some(chain[|chain| - 1].header.hash), Some(|chain| - 1))
  }

  lemma {:induction false} EmptyFolds(chain: seq<Block>)
    requires EmptyChain(chain)
    ensures Fold(Examples.Lenient(), Examples.Empty(), chain) == Ok(EmptyState(chain))
    decreases |chain|
  {
    hide ApplyBlock, Examples.Lenient;
    if chain != [] {
      var n := |chain| - 1;
      assert forall i :: 0 <= i < n ==> chain[..n][i] == chain[i];
      EmptyFolds(chain[..n]);
      EmptyApplies(EmptyState(chain[..n]), chain[n].header);
    }
  }

  // Sidechain blocks 10 <- 11 <- 12; mainchain blocks 2 and 4 both commit to 11.
  ghost predicate Straight(db: Db) {
    && Forked(db, 1, 10)
    && db.headers == map[10 := Header(10, 0, 0, None, 5), 11 := Header(11, 0, 0, Some(10), 1), 12 := Header(12, 0, 0, Some(11), 2)]
    && db.side.height == map[10 := 0, 11 := 1, 12 := 2]
    && db.infos == map[5 := None, 1 := Some(10), 2 := Some(11), 3 := Some(12), 4 := Some(11)]
    && db.bodies == map[10 := NoTransactions(), 11 := NoTransactions(), 12 := NoTransactions()]
  }

  lemma StraightHeaders() returns (ops: seq<Op>, db: Db)
    ensures Reached(ops, db) && db.bodies == map[]
    ensures Straight(db.(bodies := map[10 := NoTransactions(), 11 := NoTransactions(), 12 := NoTransactions()]))
  {
    hide Reached, ForkedMain;
    ops, db := ForkInfos(1, 10, 11);
    ops, db := AddHeader(ops, db, Header(10, 0, 0, None, 5));
    ops, db := AddHeader(ops, db, Header(11, 0, 0, Some(10), 1));
    ops, db := AddHeader(ops, db, Header(12, 0, 0, Some(11), 2));
  }

  lemma StraightDb() returns (ops: seq<Op>, db: Db)
    ensures Reached(ops, db) && Straight(db)
  {
    hide Reached;
    ops, db := StraightHeaders();
    ops, db := AddBody(ops, db, 10);
    ops, db := AddBody(ops, db, 11);
    ops, db := AddBody(ops, db, 12);
  }

  lemma StraightCommitted(db: Db)
    requires Straight(db)
    ensures Commits(db, 1, 10, None) && Commits(db, 2, 11, Some(10)) && Commits(db, 4, 11, Some(10)) && Commits(db, 3, 12, Some(11))
    ensures forall m :: Committed(db, 12, m) ==> m == 3
  {
  }

  lemma StraightVerified(db: Db)
    requires ArchiveOk(db) && Straight(db)
    ensures IsVerified(db, 10, 1) && IsVerified(db, 11, 4) && IsVerified(db, 12, 3)
    ensures forall m :: IsVerified(db, 12, m) ==> m == 3
  {
    hide ArchiveOk, IsAncestor, IsVerified, BmmValid, Committed, Forked, TablesOk;
    ForkedLineages(db, 1, 10);
    StraightCommitted(db);
    VerifiedNow(db, 10, 1, 0);
    VerifiedNow(db, 11, 2, 1);
    VerifiedNow(db, 11, 4, 1);
    VerifiedNow(db, 12, 3, 2);
    ArchiveTables(db);
    forall m | IsVerified(db, 12, m) ensures m == 3 {
      VerifiedIsValid(db, 12, m);
      BmmUnfold(db, 12, m);
    }
  }

  lemma StraightWork(db: Db)
    requires ArchiveOk(db) && Straight(db)
    ensures MoreWork(db, 12, Tip(11, 4))
  {
    hide ArchiveOk, IsVerified;
    StraightVerified(db);
  }

  lemma StraightChain(db: Db, b: Hash)
    requires ArchiveOk(db) && Straight(db) && b in db.headers
    ensures Hashes(db, Some(b)) == if b == 10 then [10] else if b == 11 then [10, 11] else [10, 11, 12]
  {
    hide ArchiveOk, TablesOk, Hashes, ForkedMain;
    ArchiveTables(db);
    ActiveChain.ParentStored(db, 10);
    HashesStep(db, 10);
    HashesStep(db, 11);
    HashesStep(db, 12);
    assert [] + [10] == [10] && [10] + [11] == [10, 11] && [10, 11] + [12] == [10, 11, 12];
  }

  lemma StraightBelow(db: Db)
    requires ArchiveOk(db) && Straight(db)
    ensures IsAncestor(db.side.parent, 11, 12)
  {
    hide ArchiveOk, IsAncestor, ForkedMain;
    ArchiveFacts(db);
    AncestorRefl(db.side.parent, 11);
    AncestorStep(db.side.parent, 11, 12);
  }

  lemma StraightFollows(db: Db, b: Hash)
    requires ArchiveOk(db) && Straight(db) && b in db.headers
    ensures Follows(Examples.Lenient(), Examples.Empty(), db, State(Examples.Empty().ledger, Some(b), Some(db.side.height[b])))
  {
    hide ArchiveOk, Hashes, Fold, FreshChain, ForkedMain, EmptyChain;
    StraightChain(db, b);
    var chain := BlocksAt(db, Hashes(db, Some(b)));
    StraightIsEmpty(db, Hashes(db, Some(b)));
    EmptyFolds(chain);
    EmptyFresh(chain);
  }

  lemma StraightIsEmpty(db: Db, hs: seq<Hash>)
    requires Straight(db) && (hs == [10] || hs == [10, 11] || hs == [10, 11, 12])
    ensures HasBlocks(db, hs) && EmptyChain(BlocksAt(db, hs)) && BlocksAt(db, hs)[|hs| - 1].header.hash == hs[|hs| - 1]
  {
    hide Straight;
    StraightRows(db);
  }

  lemma StraightRows(db: Db)
    requires Straight(db)
    ensures forall b :: b == 10 || b == 11 || b == 12 ==>
              && b in db.headers && b in db.bodies && db.bodies[b] == NoTransactions()
              && db.headers[b].hash == b && db.headers[b].merkleRoot == 0
              && db.headers[b].prevSide == if b == 10 then None else Some(b - 1)
  {
    hide ForkedMain;
  }

  /** A consistent node, in an archive reached by a run of writes, and a verified
    * target on its chain that the comparison picks: trying to reach it costs the
    * node the body of its first block. */
  lemma TargetBelowTip() returns (ops: seq<Op>, s: Snapshot, target: Tip)
    ensures Reached(ops, s.db) && Start(Examples.Empty()) && Consistent(Examples.Lenient(), Examples.Empty(), s)
    ensures Trusted(Examples.Lenient(), Examples.Empty(), s.db, target.block)
    ensures Below(s.db, s.st.tip, target.block) && IsVerified(s.db, target.block, target.main)
    ensures (exists m :: IsVerified(s.db, s.st.tip.value, m)) && MoreWork(s.db, s.st.tip.value, target)
    ensures MainsStored(s.db, s.st.tip.value)
  {
    hide Reached, ArchiveOk, IsAncestor, IsVerified, MoreWork, Follows, MainsStored, Start;
    Examples.EmptyStarts();
    var db;
    ops, db := StraightDb();
    ReachedOk(ops, db);
    StraightVerified(db);
    StraightWork(db);
    StraightBelow(db);
    StraightFollows(db, 12);
    StraightFollows(db, 11);
    s, target := Snapshot(db, State(Examples.Empty().ledger, Some(12), Some(2)), map[], map[]), Tip(11, 4);
    NothingKnown(db);
    FollowsTrusted(db, 11);
    StraightMains(db);
  }

  lemma NothingKnown(db: Db)
    requires Straight(db)
    ensures Exact(map[], map[]) && OneEach(Known(db, map[]))
  {
    assert Known(db, map[]) == {};
  }

  lemma FollowsTrusted(db: Db, b: Hash)
    requires b in db.side.height
    requires Follows(Examples.Lenient(), Examples.Empty(), db, State(Examples.Empty().ledger, Some(b), Some(db.side.height[b])))
    ensures Trusted(Examples.Lenient(), Examples.Empty(), db, b)
  {
    hide Fold, FreshChain, Hashes;
  }

  lemma StraightMains(db: Db)
    requires ArchiveOk(db) && Straight(db)
    ensures MainsStored(db, 12)
  {
    hide ArchiveOk, IsAncestor, Forked, Valid;
    ArchiveFacts(db);
    forall x | IsAncestor(db.side.parent, x, 12) ensures x in db.headers {
      AncestorHeight(db.side, x, 12);
    }
    assert db.mainHeaders.Keys >= {5, 1, 2} by { ForkedKeys(db); }
  }

  lemma ForkedKeys(db: Db)
    requires Straight(db)
    ensures db.mainHeaders.Keys >= {5, 1, 2}
  {
  }

  // ----- a reorg that succeeds -----

  lemma StraightInfos(db: Db)
    requires Straight(db)
    ensures db.infos.Keys == {5, 1, 2, 3, 4} == db.mainHeaders.Keys && db.headers.Keys == {10, 11, 12}
    ensures forall b :: b in db.headers ==> db.headers[b].prevMain in {5, 1, 2}
  {
    hide Straight;
    StraightInfoKeys(db);
    StraightMainKeys(db);
    StraightHeaderKeys(db);
  }

  lemma StraightInfoKeys(db: Db)
    requires Straight(db)
    ensures db.infos.Keys == {5, 1, 2, 3, 4}
  {
    hide ForkedMain;
  }

  lemma StraightMainKeys(db: Db)
    requires Straight(db)
    ensures db.mainHeaders.Keys == {5, 1, 2, 3, 4}
  {
  }

  lemma StraightHeaderKeys(db: Db)
    requires Straight(db)
    ensures db.headers.Keys == {10, 11, 12} && forall b :: b in db.headers ==> db.headers[b].prevMain in {5, 1, 2}
  {
    hide ForkedMain;
  }

  lemma ContentsKnown(db: Db, m: Hash)
    requires db.infos.Keys == db.mainHeaders.Keys && m in db.mainHeaders
    ensures ChildrenKnown(db, m)
  {
  }

  lemma StraightConnectable(db: Db, x: Hash)
    requires ArchiveOk(db) && Straight(db) && IsAncestor(db.side.parent, x, 12)
    ensures x in db.side.height && Connectable(db, x)
  {
    hide ArchiveOk, IsAncestor, IsVerified, Valid, Straight, ChildrenKnown, TablesOk;
    ArchiveScored(db);
    StraightInfos(db);
    AncestorHeight(db.side, x, 12);
    StraightVerified(db);
    ContentsKnown(db, db.headers[x].prevMain);
  }

  lemma FirstLoses(db: Db, m: Hash, t: Tip)
    requires Straight(db) && t.block in db.side.height
    ensures Answers(db, Tip(10, m), t) && (t.block != 10 ==> Chose(db, Tip(10, m), t))
  {
  }

  lemma StraightWins(db: Db)
    requires ArchiveOk(db) && Straight(db)
    ensures SurelyWins(db, Some(10), Tip(12, 3))
  {
    hide ArchiveOk, IsAncestor, IsVerified, Answers, Chose, IsBest;
    StraightVerified(db);
    forall m ensures SurelyBeats(db, Tip(10, m), Tip(12, 3)) {
      FirstLoses(db, m, Tip(12, 3));
      forall x | NewBlock(db, Some(10), 12, x) ensures SurelyCompares(db, Some(Tip(10, m)), x) {
        StraightConnectable(db, x);
        forall n ensures Answers(db, Tip(10, m), Tip(x, n)) { FirstLoses(db, m, Tip(x, n)); }
      }
    }
  }

  lemma StraightAbove(db: Db)
    requires ArchiveOk(db) && Straight(db)
    ensures !Below(db, Some(10), 12) && OffEntries(db, Some(10), 12) == []
  {
    hide ArchiveOk, IsAncestor, ForkedMain, Valid, TablesOk;
    ArchiveScored(db);
    AncestorRefl(db.side.parent, 10);
    AncestorStep(db.side.parent, 10, 11);
    AncestorStep(db.side.parent, 10, 12);
    SideFacts(db, 11);
    SideFacts(db, 12);
    if IsAncestor(db.side.parent, 12, 10) { AncestorHeight(db.side, 12, 10); }
  }

  lemma StraightReady(db: Db, s: Snapshot)
    requires ArchiveOk(db) && Straight(db) && s.db == db && s.st.tip == Some(10) && s.spent == map[]
    ensures Ready(Examples.Lenient(), Examples.Empty(), s, 12) && !Below(db, Some(10), 12)
  {
    hide ArchiveOk, IsAncestor, Fold, Hashes, FreshChain, Connectable, OffEntries, ForkedMain, Below;
    StraightFollows(db, 12);
    StraightAbove(db);
    forall x | NewBlock(db, Some(10), 12, x) ensures Connectable(db, x) { StraightConnectable(db, x); }
    assert AllInputs(Transactions([])) == [];
  }

  /** A consistent node, in an archive reached by a run of writes, and a target that it
    * is sure to reach. */
  lemma TargetAboveTip() returns (ops: seq<Op>, s: Snapshot, target: Tip)
    ensures Reached(ops, s.db) && Start(Examples.Empty()) && Consistent(Examples.Lenient(), Examples.Empty(), s)
    ensures Trusted(Examples.Lenient(), Examples.Empty(), s.db, target.block)
    ensures s.st.tip.Some? && !Below(s.db, s.st.tip, target.block)
    ensures Ready(Examples.Lenient(), Examples.Empty(), s, target.block) && SurelyWins(s.db, s.st.tip, target)
  {
    hide Reached, ArchiveOk, Follows, Start, Ready, SurelyWins, Below;
    Examples.EmptyStarts();
    var db;
    ops, db := StraightDb();
    ReachedOk(ops, db);
    StraightFollows(db, 10);
    StraightFollows(db, 12);
    FollowsTrusted(db, 12);
    NothingKnown(db);
    s, target := Snapshot(db, State(Examples.Empty().ledger, Some(10), Some(0)), map[], map[]), Tip(12, 3);
    StraightReady(db, s);
    StraightWins(db);
  }
}
