/** What the comparison of tips promises, and what it does not. */
module TipOrder {
  import opened Wrappers
  import opened Types
  import opened Ancestry
  import opened BlockIndex
  import opened ArchiveDb
  import opened BmmTable
  import opened ArchiveRuns
  import opened BetterTip

  lemma CommonSame(db: Db, a: Tip, b: Tip, c: Option<Hash>, d: Option<Hash>)
    requires Rated(db, a, b, c) && Rated(db, b, a, d)
    ensures c == d
  {
    hide Nth, IsAncestor, TablesOk, WorkOk, MainsStored, Valid;
    MainValid(db);
    if c.Some? && d.Some? {
      LcaSymmetric(db.main.parent, b.main, a.main, d.value);
      CommonUnique(db.main, a.main, b.main, c.value, d.value);
    }
  }

  /** Neither tip is strictly better. */
  ghost predicate Tied(db: Db, common: Option<Hash>, a: Tip, b: Tip)
    requires Rated(db, a, b, common)
  {
    && db.side.height[a.block] == db.side.height[b.block]
    && (db.side.height[a.block] == 0 ||
        (db.work[a.main] == db.work[b.main] &&
         (a.block == b.block ||
          (LastHeight(db, a.block, common) == LastHeight(db, b.block, common) &&
           LastWork(db, a.block, common) == LastWork(db, b.block, common)))))
  }

  /** Of two tips exactly one is better, or they are tied; swapping the arguments
    * changes the answer exactly for different tips of positive height that are tied. */
  lemma OrderOfArguments(db: Db, a: Tip, b: Tip, c: Option<Hash>, d: Option<Hash>)
    requires Rated(db, a, b, c) && Rated(db, b, a, c) && Rated(db, b, a, d) && Rated(db, a, b, d)
    ensures !(Prefers(db, c, a, b) && Prefers(db, c, b, a))
    ensures Prefers(db, c, a, b) || Prefers(db, c, b, a) <==> !Tied(db, c, a, b)
    ensures Better(db, c, a, b) == Better(db, d, b, a) <==>
            a == b || db.side.height[a.block] == 0 || !Tied(db, c, a, b)
  {
    hide TablesOk, WorkOk, MainsStored, IsCommon, IsAncestor, LastHeight, LastWork, Scored;
    CommonSame(db, a, b, c, d);
    RatedSymmetric(db, a, b, c);
  }

  // ----- along one chain -----

  lemma {:induction false} WorkGrows(db: Db, b: Hash, n: nat)
    requires Scored(db) && b in db.main.parent && Nth(db.main.parent, b, n).Some?
    ensures var a := Nth(db.main.parent, b, n).value;
            a in db.work && b in db.work && db.work[a] <= db.work[b]
    decreases n
  {
    hide SkipOk, SuccOk;
    if n > 0 { WorkGrows(db, db.main.parent[b].value, n - 1); }
  }

  lemma WorkOfAncestor(db: Db, a: Hash, b: Hash)
    requires Scored(db) && b in db.main.parent && IsAncestor(db.main.parent, a, b)
    ensures a in db.work && b in db.work && db.work[a] <= db.work[b]
  {
    hide Nth, Scored;
    var n: nat :| Nth(db.main.parent, b, n) == Some(a);
    WorkGrows(db, b, n);
  }

  /** Every stored mainchain header adds work. */
  ghost predicate AddsWork(db: Db) {
    forall m :: m in db.mainHeaders ==> db.mainHeaders[m].work > 0
  }

  lemma WorkOfParent(db: Db, b: Hash)
    requires Scored(db) && AddsWork(db) && b in db.main.parent && db.main.parent[b].Some?
    ensures var q := db.main.parent[b].value;
            b in db.work && q in db.main.parent && q in db.work && db.work[q] < db.work[b]
  {
    hide SkipOk, SuccOk;
  }

  /** Along one mainchain work orders blocks as heights do. */
  lemma WorkByHeight(db: Db, a: Hash, b: Hash, c: Hash)
    requires Scored(db) && AddsWork(db) && c in db.main.parent
    requires IsAncestor(db.main.parent, a, c) && IsAncestor(db.main.parent, b, c)
    requires a in db.main.height && b in db.main.height && db.main.height[a] < db.main.height[b]
    ensures a in db.work && b in db.work && db.work[a] < db.work[b]
  {
    hide Nth, IsAncestor, TablesOk, WorkOk, Valid, AddsWork;
    MainValid(db);
    OnOneChain(db.main, a, b, c);
    AncestorStep(db.main.parent, a, b);
    WorkOfParent(db, b);
    WorkOfAncestor(db, a, db.main.parent[b].value);
  }

  /** Between highest ancestors at one height from before the fork, the one that was
    * built on the lower mainchain block started sooner. */
  lemma SoonerByHeight(db: Db, common: Option<Hash>, a: Hash, b: Hash, x: Hash, y: Hash)
    requires Scored(db) && AddsWork(db) && a in db.headers && b in db.headers && (common.Some? ==> common.value in db.main.parent)
    requires HighestBefore(db, a, common, x) && HighestBefore(db, b, common, y) && db.side.height[x] == db.side.height[y]
    ensures db.headers[x].prevMain in db.main.height && db.headers[y].prevMain in db.main.height
    ensures SoonerBefore(db, common, a, b) <==>
            db.main.height[db.headers[x].prevMain] < db.main.height[db.headers[y].prevMain]
  {
    hide Nth, IsAncestor, TablesOk, WorkOk, Valid, AddsWork, LastBelow, LastHeight, LastWork, HighestBefore, SoonerBefore;
    SoonerIff(db, a, b, common);
    LastIsHighestOf(db, a, common);
    LastIsHighestOf(db, b, common);
    HighestFacts(db, a, common, x);
    HighestFacts(db, b, common, y);
    var c := common.value;
    MainValid(db);
    AncestorHeight(db.main, db.headers[x].prevMain, c);
    AncestorHeight(db.main, db.headers[y].prevMain, c);
    var m := LastAbove(db, a, c);
    var n := LastAbove(db, b, c);
    ParentHeight(db.main, m);
    ParentHeight(db.main, n);
    if db.main.height[m] < db.main.height[n] { WorkByHeight(db, m, n, c); }
    if db.main.height[n] < db.main.height[m] { WorkByHeight(db, n, m, c); }
    if db.main.height[n] == db.main.height[m] {
      OnOneChain(db.main, m, n, c);
      AncestorHeight(db.main, m, n);
    }
  }

  lemma HighestFacts(db: Db, b: Hash, common: Option<Hash>, x: Hash)
    requires HighestBefore(db, b, common, x)
    ensures common.Some? && x in db.headers && IsAncestor(db.main.parent, db.headers[x].prevMain, common.value)
  {
  }

  /** A tip built on another one, and committed to later on the same mainchain,
    * is better. */
  lemma ExtensionIsBetter(db: Db, a: Tip, b: Tip, common: Option<Hash>)
    requires Rated(db, b, a, common) && a.block != b.block
    requires IsAncestor(db.side.parent, a.block, b.block) && IsAncestor(db.main.parent, a.main, b.main)
    ensures Prefers(db, common, b, a)
  {
    hide Nth, IsAncestor, TablesOk, WorkOk, MainsStored, Valid, LastHeight, LastWork, IsCommon;
    WorkOfAncestor(db, a.main, b.main);
    Higher(db, a.block, b.block);
  }

  lemma Higher(db: Db, a: Hash, b: Hash)
    requires TablesOk(db) && a in db.headers && b in db.headers && a != b && IsAncestor(db.side.parent, a, b)
    ensures a in db.side.height && b in db.side.height && db.side.height[a] < db.side.height[b]
  {
    hide IsAncestor, SkipOk, SuccOk;
    AncestorByHeight(db.side.parent, db.side.height, a, b);
  }

  // ----- on one mainchain lineage -----

  /** For tips whose mainchain blocks are on one lineage, each committed to by its
    * own, the greater height wins, and at equal height the lower work. The higher
    * one must not be committed to by a genesis block. */
  lemma SharedLineageOrder(db: Db, a: Tip, b: Tip, common: Option<Hash>)
    requires Rated(db, a, b, common) && Shared(db, a, b) && Committed(db, a.block, a.main)
    requires db.headers[a.block].prevMain != ZERO
    requires db.side.height[a.block] > 0 && db.side.height[b.block] > 0
    ensures db.side.height[a.block] > db.side.height[b.block] ==> Prefers(db, common, a, b)
    ensures db.side.height[a.block] == db.side.height[b.block] && db.work[a.main] != db.work[b.main] ==>
              (Prefers(db, common, a, b) <==> db.work[a.main] < db.work[b.main])
  {
    hide Nth, IsAncestor, TablesOk, WorkOk, MainsStored, Valid, LastWork, IsCommon, LastBelow;
    if db.work[a.main] < db.work[b.main] {
      if IsAncestor(db.main.parent, b.main, a.main) { WorkOfAncestor(db, b.main, a.main); }
      CommonOfAncestor(db, a, b, common);
      BuiltBelowItself(db, a);
    }
  }

  lemma CommonOfAncestor(db: Db, a: Tip, b: Tip, common: Option<Hash>)
    requires Rated(db, a, b, common) && IsAncestor(db.main.parent, a.main, b.main)
    ensures common == Some(a.main)
  {
    hide Nth, IsAncestor, SkipOk, SuccOk, WorkOk, MainsStored;
    var p, h := db.main.parent, db.main.height;
    AncestorRefl(p, a.main);
    assert IsLca(p, a.main, b.main, a.main);
    GenesisOfAncestor(p, h, b.main, a.main);
    assert OneGenesis(db.main, a.main, b.main);
    LcaUnique(p, h, a.main, b.main, common.value, a.main);
  }

  /** A committed block was built on the parent of the mainchain block that commits to it. */
  lemma BuiltBelowItself(db: Db, a: Tip)
    requires Scored(db) && Comparable(db, a) && Committed(db, a.block, a.main) && db.headers[a.block].prevMain != ZERO
    ensures LastBelow(db, a.block, Some(a.main)) == Some(a.block)
  {
    hide Nth, IsAncestor, SkipOk, SuccOk, WorkOk;
    var p, h, m := db.main.parent, db.main.height, db.headers[a.block].prevMain;
    AncestorRefl(db.side.parent, a.block);
    assert p[a.main] == MainParent(m);
    ParentIsAncestor(p, a.main);
  }

  // ----- at or below a tip -----

  /** An ancestor of a validly committed block is validly committed to below it. */
  lemma {:induction false} CommittedBelow(db: Db, x: Hash, b: Hash, m: Hash) returns (n: Hash)
    requires TablesOk(db) && BmmValid(db, b, m) && IsAncestor(db.side.parent, x, b)
    ensures BmmValid(db, x, n) && IsAncestor(db.main.parent, n, m)
    decreases if b in db.side.height then db.side.height[b] else 0
  {
    hide TablesOk, IsAncestor;
    SideFacts(db, b);
    BmmUnfold(db, b, m);
    AncestorStep(db.side.parent, x, b);
    AncestorRefl(db.main.parent, m);
    n := m;
    if x != b {
      var q := db.headers[b].prevSide.value;
      var m' :| BmmValid(db, q, m') && IsAncestor(db.main.parent, m', m);
      n := CommittedBelow(db, x, q, m');
      AncestorTrans(db.main.parent, n, m', m);
    }
  }

  /** A commitment is one above the block that its block was built on. */
  lemma CommitmentHeight(db: Db, b: Hash, m: Hash)
    requires TablesOk(db) && Committed(db, b, m)
    ensures m in db.main.parent && m in db.main.height
    ensures var p := db.headers[b].prevMain;
            if p == ZERO then db.main.height[m] == 0 else p in db.main.height && db.main.height[m] == db.main.height[p] + 1
  {
    hide SkipOk, SuccOk;
  }

  /** No two commitments to one block are on one lineage. */
  lemma CommitmentsApart(db: Db, b: Hash, m: Hash, n: Hash)
    requires TablesOk(db) && Committed(db, b, m) && Committed(db, b, n) && IsAncestor(db.main.parent, m, n)
    ensures m == n
  {
    hide IsAncestor, SkipOk, SuccOk;
    CommitmentHeight(db, b, m);
    CommitmentHeight(db, b, n);
    SameHeight(db.main.parent, db.main.height, m, n);
  }

  /** If a commitment to `b` has more work than one to a descendant `t`, then no
    * block between the two was built below the last common ancestor. */
  lemma NoneBuiltBelow(db: Db, t: Tip, b: Tip, c: Hash, x: Hash)
    requires Scored(db) && Comparable(db, t) && Comparable(db, b) && BmmValid(db, t.block, t.main) && Committed(db, b.block, b.main)
    requires IsLca(db.main.parent, t.main, b.main, c) && db.work[b.main] > db.work[t.main]
    requires IsAncestor(db.side.parent, x, t.block) && IsAncestor(db.side.parent, b.block, x)
    ensures !BuiltBelow(db, x, c)
  {
    hide IsAncestor, BmmValid, Valid, TablesOk, WorkOk;
    MainValid(db);
    var h := db.main.height;
    AncestorHeight(db.side, x, t.block);
    var n := CommittedBelow(db, x, t.block, t.main);
    BmmUnfold(db, x, n);
    var k := CommittedBelow(db, b.block, x, n);
    BmmUnfold(db, b.block, k);
    CommitmentHeight(db, x, n);
    CommitmentHeight(db, b.block, k);
    CommitmentHeight(db, b.block, b.main);
    AncestorHeight(db.main, k, n);
    AncestorHeight(db.main, c, b.main);
    if c == b.main { WorkOfAncestor(db, b.main, t.main); }
    if BuiltBelow(db, x, c) { AncestorHeight(db.main, db.headers[x].prevMain, c); }
  }

  /** A tip at or below the current one is picked exactly when it is not a genesis
    * block and its mainchain block has more work. */
  lemma BelowTipIff(db: Db, was: Tip, t: Tip, common: Option<Hash>)
    requires Rated(db, was, t, common) && Rated(db, t, was, common)
    requires BmmValid(db, was.block, was.main) && BmmValid(db, t.block, t.main)
    requires IsAncestor(db.side.parent, t.block, was.block) && (t.block == was.block ==> db.work[t.main] <= db.work[was.main])
    ensures Better(db, common, was, t) == Some(t) <==> db.side.height[t.block] > 0 && db.work[t.main] > db.work[was.main]
  {
    hide IsAncestor, BmmValid, Valid, TablesOk, WorkOk, LastBelow, LastWork, IsCommon;
    MainValid(db);
    BmmUnfold(db, was.block, was.main);
    BmmUnfold(db, t.block, t.main);
    AncestorHeight(db.side, t.block, was.block);
    if t.block == was.block {
      if Shared(db, t, was) { ApartShared(db, t, was); }
    } else if db.work[t.main] > db.work[was.main] {
      BelowLow(db, was, t, common);
    }
  }

  lemma ApartShared(db: Db, a: Tip, b: Tip)
    requires TablesOk(db) && Shared(db, a, b) && a.block == b.block && Committed(db, a.block, a.main) && Committed(db, b.block, b.main)
    ensures a == b
  {
    hide IsAncestor, TablesOk;
    if IsAncestor(db.main.parent, a.main, b.main) {
      CommitmentsApart(db, a.block, a.main, b.main);
    } else {
      CommitmentsApart(db, a.block, b.main, a.main);
    }
  }

  lemma BelowLow(db: Db, was: Tip, t: Tip, common: Option<Hash>)
    requires Rated(db, was, t, common) && BmmValid(db, was.block, was.main) && Committed(db, t.block, t.main)
    requires IsAncestor(db.side.parent, t.block, was.block) && db.work[t.main] > db.work[was.main]
    ensures LastHeight(db, was.block, common) < db.side.height[t.block]
  {
    hide IsAncestor, BmmValid, Valid, TablesOk, WorkOk, OneGenesis;
    MainValid(db);
    if common.Some? {
      LastBelowMeaning(db, was.block, common.value);
      var r := LastBelow(db, was.block, common);
      if r.Some? {
        var x := r.value;
        AncestorHeight(db.side, x, was.block);
        if db.side.height[x] >= db.side.height[t.block] {
          OnOneChain(db.side, t.block, x, was.block);
          NoneBuiltBelow(db, was, t, common.value, x);
        }
      }
    }
  }

  lemma OnOneChain(ix: Index, a: Hash, b: Hash, t: Hash)
    requires Valid(ix) && t in ix.parent && IsAncestor(ix.parent, a, t) && IsAncestor(ix.parent, b, t)
    requires a in ix.height && b in ix.height && ix.height[a] <= ix.height[b]
    ensures IsAncestor(ix.parent, a, b)
  {
    hide IsAncestor, SkipOk, SuccOk;
    AncestorHeight(ix, a, t);
    AncestorHeight(ix, b, t);
    AncestorsOrdered(ix.parent, ix.height, a, b, t);
  }

  // ----- all tips on one mainchain lineage -----

  /** A validly committed block above its genesis was built on a stored mainchain block. */
  lemma BuiltOnStored(db: Db, b: Hash, m: Hash)
    requires TablesOk(db) && b in db.headers && BmmValid(db, b, m) && b in db.side.height && db.side.height[b] > 0
    ensures Committed(db, b, m) && db.headers[b].prevMain != ZERO
  {
    hide TablesOk, IsAncestor, BmmValid;
    BmmUnfold(db, b, m);
    CommitmentHeight(db, b, m);
    if db.headers[b].prevSide.None? {
      GenesisHeight(db, b);
    } else {
      var m' :| BmmValid(db, db.headers[b].prevSide.value, m') && IsAncestor(db.main.parent, m', m);
      StrictlyLower(db, b, m', m);
    }
  }

  /** Of two tips on one lineage, the one committed to first beats another of at
    * most its height. */
  lemma FirstCommitted(db: Db, a: Tip, b: Tip, common: Option<Hash>)
    requires Rated(db, a, b, common) && BmmValid(db, a.block, a.main) && BmmValid(db, b.block, b.main)
    requires IsAncestor(db.main.parent, a.main, b.main) && a != b
    requires 0 < db.side.height[b.block] <= db.side.height[a.block]
    ensures Prefers(db, common, a, b)
  {
    hide IsAncestor, BmmValid, Valid, TablesOk, WorkOk, LastBelow, LastWork, IsCommon;
    MainValid(db);
    BuiltOnStored(db, a.block, a.main);
    BuiltOnStored(db, b.block, b.main);
    WorkOfAncestor(db, a.main, b.main);
    CommonOfAncestor(db, a, b, common);
    BuiltBelowItself(db, a);
    assert LastHeight(db, a.block, common) == db.side.height[a.block];
    if a.main != b.main {
      BuiltLater(db, a, b);
      if a.block == b.block { CommitmentsApart(db, a.block, a.main, b.main); }
    }
  }

  /** A block committed to after `a` was not built below the commitment to `a`. */
  lemma BuiltLater(db: Db, a: Tip, b: Tip)
    requires Scored(db) && Comparable(db, a) && Comparable(db, b) && Committed(db, b.block, b.main)
    requires IsAncestor(db.main.parent, a.main, b.main) && a.main != b.main
    ensures LastHeight(db, b.block, Some(a.main)) < db.side.height[b.block]
  {
    hide IsAncestor, Valid, TablesOk, WorkOk, LastBelow;
    MainValid(db);
    CommitmentHeight(db, b.block, b.main);
    AncestorHeight(db.main, a.main, b.main);
    LastBelowMeaning(db, b.block, a.main);
    var r := LastBelow(db, b.block, Some(a.main));
    if r.Some? {
      AncestorHeight(db.side, r.value, b.block);
      AncestorHeight(db.main, db.headers[r.value].prevMain, a.main);
    }
  }

  /** Greater height first; at one positive height, what was committed to first. */
  ghost predicate Earlier(db: Db, a: Tip, b: Tip)
    requires Comparable(db, a) && Comparable(db, b) && a.main in db.main.height && b.main in db.main.height
  {
    var ha, hb := db.side.height[a.block], db.side.height[b.block];
    ha > hb || (ha == hb > 0 && db.main.height[a.main] < db.main.height[b.main])
  }

  /** On one mainchain lineage, the tips of any heights are ordered by height, then
    * by which was committed to first. */
  lemma LineageOrder(db: Db, a: Tip, b: Tip, common: Option<Hash>)
    requires Rated(db, a, b, common) && BmmValid(db, a.block, a.main) && BmmValid(db, b.block, b.main) && Shared(db, a, b)
    ensures a.main in db.main.height && b.main in db.main.height
    ensures Prefers(db, common, a, b) <==> Earlier(db, a, b)
  {
    hide IsAncestor, BmmValid, Valid, TablesOk, WorkOk, LastHeight, LastWork, IsCommon, Prefers;
    MainValid(db);
    RatedSymmetric(db, a, b, common);
    OrderOfArguments(db, a, b, common, common);
    var ha, hb := db.side.height[a.block], db.side.height[b.block];
    if ha == 0 || hb == 0 {
      ZeroHeight(db, a, b, common);
    } else if a != b {
      SharedHeights(db, a, b);
      if ha > hb { HigherWins(db, a, b, common); }
      else if hb > ha { HigherWins(db, b, a, common); }
      else if IsAncestor(db.main.parent, a.main, b.main) { FirstCommitted(db, a, b, common); }
      else { FirstCommitted(db, b, a, common); }
    }
  }

  lemma ZeroHeight(db: Db, a: Tip, b: Tip, common: Option<Hash>)
    requires Rated(db, a, b, common) && (db.side.height[a.block] == 0 || db.side.height[b.block] == 0)
    ensures Prefers(db, common, a, b) <==> db.side.height[a.block] > db.side.height[b.block]
  {
    hide IsAncestor, TablesOk, WorkOk, LastHeight, LastWork, IsCommon;
  }

  lemma HigherWins(db: Db, a: Tip, b: Tip, common: Option<Hash>)
    requires Rated(db, a, b, common) && BmmValid(db, a.block, a.main) && Shared(db, a, b)
    requires db.side.height[a.block] > db.side.height[b.block] > 0
    ensures Prefers(db, common, a, b)
  {
    hide IsAncestor, BmmValid, TablesOk, WorkOk, LastHeight, LastWork, IsCommon, Prefers;
    BuiltOnStored(db, a.block, a.main);
    SharedLineageOrder(db, a, b, common);
  }

  /** Different committed tips on one lineage have different commitments. */
  lemma SharedHeights(db: Db, a: Tip, b: Tip)
    requires Scored(db) && Comparable(db, a) && Comparable(db, b) && Shared(db, a, b) && a != b
    requires BmmValid(db, a.block, a.main) && BmmValid(db, b.block, b.main)
    ensures a.main in db.main.height && b.main in db.main.height && db.main.height[a.main] != db.main.height[b.main]
    ensures IsAncestor(db.main.parent, a.main, b.main) <==> db.main.height[a.main] < db.main.height[b.main]
  {
    hide IsAncestor, BmmValid, TablesOk, WorkOk, Valid;
    MainValid(db);
    BmmUnfold(db, a.block, a.main);
    BmmUnfold(db, b.block, b.main);
    if IsAncestor(db.main.parent, a.main, b.main) { AncestorHeight(db.main, a.main, b.main); }
    if IsAncestor(db.main.parent, b.main, a.main) { AncestorHeight(db.main, b.main, a.main); }
  }

  /** There the order is transitive and leaves no two tips of positive height undecided. */
  lemma LineageTransitive(db: Db, a: Tip, b: Tip, c: Tip, ab: Option<Hash>, bc: Option<Hash>, ac: Option<Hash>)
    requires Rated(db, a, b, ab) && Rated(db, b, a, ab) && Rated(db, b, c, bc) && Rated(db, a, c, ac)
    requires BmmValid(db, a.block, a.main) && BmmValid(db, b.block, b.main) && BmmValid(db, c.block, c.main)
    requires Shared(db, a, b) && Shared(db, b, c) && Shared(db, a, c)
    ensures Prefers(db, ab, a, b) && Prefers(db, bc, b, c) ==> Prefers(db, ac, a, c)
    ensures a != b && db.side.height[a.block] > 0 ==> Prefers(db, ab, a, b) || Prefers(db, ab, b, a)
  {
    hide IsAncestor, BmmValid, TablesOk, WorkOk, LastHeight, LastWork, IsCommon, Prefers;
    RatedSymmetric(db, a, b, ab);
    LineageOrder(db, a, b, ab);
    LineageOrder(db, b, a, ab);
    LineageOrder(db, b, c, bc);
    LineageOrder(db, a, c, ac);
    if a != b { SharedHeights(db, a, b); }
  }

  // ----- three tips -----

  /** Tips of one positive height, in order of total work. */
  ghost predicate Level(db: Db, x: Tip, y: Tip, z: Tip) {
    && Scored(db) && Comparable(db, x) && Comparable(db, y) && Comparable(db, z)
    && 0 < db.side.height[x.block] == db.side.height[y.block] == db.side.height[z.block]
    && db.work[x.main] < db.work[y.main] < db.work[z.main]
  }

  /** The three tips beat one another in a circle. */
  ghost predicate Circle(db: Db, x: Tip, y: Tip, z: Tip, xy: Option<Hash>, yz: Option<Hash>, zx: Option<Hash>)
    requires Rated(db, x, y, xy) && Rated(db, y, z, yz) && Rated(db, z, x, zx)
  {
    Prefers(db, xy, x, y) && Prefers(db, yz, y, z) && Prefers(db, zx, z, x)
  }

  /** The order is not transitive. Three level tips beat one another in a circle,
    * in one direction or the other, exactly when those of least and greatest work
    * are on one mainchain lineage and the third is on a lineage with neither. */
  lemma CircleIff(db: Db, x: Tip, y: Tip, z: Tip, xy: Option<Hash>, yz: Option<Hash>, zx: Option<Hash>)
    requires Level(db, x, y, z) && Rated(db, x, y, xy) && Rated(db, y, z, yz) && Rated(db, z, x, zx)
    requires Rated(db, y, x, xy) && Rated(db, z, y, yz) && Rated(db, x, z, zx)
    ensures Circle(db, x, y, z, xy, yz, zx) || Circle(db, x, z, y, zx, yz, xy) <==>
            Shared(db, x, z) && !Shared(db, x, y) && !Shared(db, y, z)
  {
    hide Nth, IsAncestor, TablesOk, WorkOk, MainsStored, Valid, LastHeight, LastWork, IsCommon, LastBelow;
    RatedSymmetric(db, x, y, xy);
    RatedSymmetric(db, y, z, yz);
    RatedSymmetric(db, z, x, zx);
    SharedUp(db, x, y);
    SharedUp(db, y, z);
    if Shared(db, x, y) && Shared(db, y, z) { AncestorTrans(db.main.parent, x.main, y.main, z.main); }
  }

  /** Every circle of validly committed tips of positive heights needs a fork of the
    * mainchain: two of the three are on no common lineage. */
  lemma CircleNeedsFork(db: Db, x: Tip, y: Tip, z: Tip, xy: Option<Hash>, yz: Option<Hash>, zx: Option<Hash>)
    requires Rated(db, x, y, xy) && Rated(db, y, z, yz) && Rated(db, z, x, zx)
    requires BmmValid(db, x.block, x.main) && BmmValid(db, y.block, y.main) && BmmValid(db, z.block, z.main)
    requires db.side.height[x.block] > 0 && db.side.height[y.block] > 0 && db.side.height[z.block] > 0
    requires Circle(db, x, y, z, xy, yz, zx)
    ensures !(Shared(db, x, y) && Shared(db, y, z) && Shared(db, z, x))
  {
    hide IsAncestor, BmmValid, TablesOk, WorkOk, LastHeight, LastWork, IsCommon, Prefers;
    RatedSymmetric(db, x, y, xy);
    RatedSymmetric(db, z, x, zx);
    if Shared(db, x, y) && Shared(db, y, z) && Shared(db, z, x) {
      LineageTransitive(db, x, y, z, xy, yz, zx);
      OrderOfArguments(db, x, z, zx, zx);
    }
  }

  /** Three tips of different heights beat one another in a circle, in one direction
    * or the other, exactly as the parts of their chains below the forks allow. */
  lemma CircleByHeight(db: Db, a: Tip, b: Tip, c: Tip, ab: Option<Hash>, bc: Option<Hash>, ca: Option<Hash>)
    requires Rated(db, a, b, ab) && Rated(db, b, c, bc) && Rated(db, c, a, ca)
    requires Rated(db, b, a, ab) && Rated(db, c, b, bc) && Rated(db, a, c, ca)
    requires db.side.height[a.block] > db.side.height[b.block] > db.side.height[c.block]
    ensures var hb, hc := db.side.height[b.block], db.side.height[c.block];
            var wa, wb, wc := db.work[a.main], db.work[b.main], db.work[c.main];
            var belowB := LastHeight(db, a.block, ab);
            var belowC := LastHeight(db, a.block, ca);
            var between := LastHeight(db, b.block, bc);
            && (Circle(db, a, b, c, ab, bc, ca) <==>
                  hc > 0 && wc > wa && belowC < hc && (wa >= wb || belowB >= hb) && (wb >= wc || between >= hc))
            && (Circle(db, a, c, b, ca, bc, ab) <==> hc > 0 && wa < wb < wc && belowB < hb && between < hc <= belowC)
  {
    hide Nth, IsAncestor, TablesOk, WorkOk, Valid, LastHeight, LastWork, IsCommon, LastBelow;
  }

  lemma SharedUp(db: Db, a: Tip, b: Tip)
    requires Scored(db) && Comparable(db, a) && Comparable(db, b) && db.work[a.main] < db.work[b.main]
    ensures Shared(db, a, b) <==> IsAncestor(db.main.parent, a.main, b.main)
  {
    hide Nth, IsAncestor, TablesOk, WorkOk, MainsStored;
    if IsAncestor(db.main.parent, b.main, a.main) { WorkOfAncestor(db, b.main, a.main); }
  }

  /** Level tips of different work: lower work on one lineage, greater work otherwise. */
  lemma LevelPrefers(db: Db, common: Option<Hash>, a: Tip, b: Tip)
    requires Rated(db, a, b, common) && 0 < db.side.height[a.block] == db.side.height[b.block]
    requires db.work[a.main] != db.work[b.main]
    ensures Prefers(db, common, a, b) <==> (Shared(db, a, b) <==> db.work[a.main] < db.work[b.main])
  {
    hide TablesOk, WorkOk, MainsStored, IsCommon, IsAncestor, LastHeight, LastWork, Scored;
  }
}
