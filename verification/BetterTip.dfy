/** Which of two candidate tips the node prefers. A tip is a sidechain block
  * with a mainchain block that commits to it. */
module BetterTip {
  import opened Wrappers
  import opened Types
  import opened Ancestry
  import opened BlockIndex
  import opened ArchiveDb
  import opened BmmTable
  import opened ArchiveRuns

  datatype Tip = Tip(block: Hash, main: Hash)

  // ----- the ancestor before the common mainchain ancestor -----

  /** `b` was built on a mainchain block strictly below `c`. */
  ghost predicate BuiltBelow(db: Db, b: Hash, c: Hash) {
    b in db.headers && db.headers[b].prevMain != c && IsAncestor(db.main.parent, db.headers[b].prevMain, c)
  }

  /** The newest ancestor of `b` that was built strictly below the common ancestor. */
  ghost function LastBelow(db: Db, b: Hash, common: Option<Hash>): Option<Hash>
    decreases if b in db.side.height then db.side.height[b] else 0
  {
    if common.None? || b !in db.headers || b !in db.side.height then None
    else if BuiltBelow(db, b, common.value) then Some(b)
    else
      match db.headers[b].prevSide
      case None => None
      case Some(q) =>
        if q in db.side.height && db.side.height[q] < db.side.height[b] then LastBelow(db, q, common) else None
  }

  lemma {:induction false} LastBelowMeaning(db: Db, b: Hash, c: Hash)
    requires TablesOk(db) && b in db.headers
    ensures var r := LastBelow(db, b, Some(c));
            && (r.Some? ==> IsAncestor(db.side.parent, r.value, b) && BuiltBelow(db, r.value, c))
            && forall x :: IsAncestor(db.side.parent, x, b) && BuiltBelow(db, x, c) ==>
                 r.Some? && IsAncestor(db.side.parent, x, r.value)
    decreases if b in db.side.height then db.side.height[b] else 0
  {
    hide TablesOk, IsAncestor, BuiltBelow;
    var p := db.side.parent;
    SideFacts(db, b);
    AncestorRefl(p, b);
    forall x ensures IsAncestor(p, x, b) <==> x == b || (p[b].Some? && IsAncestor(p, x, p[b].value)) {
      AncestorStep(p, x, b);
    }
    if !BuiltBelow(db, b, c) && db.headers[b].prevSide.Some? {
      var q := db.headers[b].prevSide.value;
      LastBelowMeaning(db, q, c);
      var r := LastBelow(db, q, Some(c));
      if r.Some? { AncestorStep(p, r.value, b); }
    }
  }

  /** Nothing was built below a genesis block. */
  lemma {:induction false} NoneBelowGenesis(db: Db, b: Hash, g: Hash)
    requires TablesOk(db) && b in db.headers && g in db.main.parent && db.main.height[g] == 0
    ensures LastBelow(db, b, Some(g)) == None
    decreases if b in db.side.height then db.side.height[b] else 0
  {
    hide TablesOk, IsAncestor;
    SideFacts(db, b);
    MainValid(db);
    GenesisAlone(db, db.headers[b].prevMain, g);
    if db.headers[b].prevSide.Some? { NoneBelowGenesis(db, db.headers[b].prevSide.value, g); }
  }

  lemma GenesisAlone(db: Db, x: Hash, g: Hash)
    requires TablesOk(db) && g in db.main.parent && g in db.main.height && db.main.height[g] == 0
    ensures IsAncestor(db.main.parent, x, g) ==> x == g
  {
    hide IsAncestor, SkipOk, SuccOk;
    var p, h := db.main.parent, db.main.height;
    if IsAncestor(p, x, g) {
      AncestorsStored(p, h, x, g);
      AncestorByHeight(p, h, x, g);
    }
  }

  /** Every ancestor of `b` was built on a stored mainchain block. */
  ghost predicate MainsStored(db: Db, b: Hash) {
    forall x :: IsAncestor(db.side.parent, x, b) ==> x in db.headers && db.headers[x].prevMain in db.main.parent
  }

  /** `x` is an ancestor of `b` that was built strictly below the fork. */
  ghost predicate FromBefore(db: Db, b: Hash, common: Option<Hash>, x: Hash) {
    common.Some? && IsAncestor(db.side.parent, x, b) && x in db.side.height && BuiltBelow(db, x, common.value)
  }

  /** `x` was built on a mainchain block that is not stored. */
  ghost predicate Unrooted(db: Db, x: Hash) { x in db.headers && db.headers[x].prevMain !in db.main.parent }

  /** The scan finds what it looks up: an ancestor built on a block that is not stored
    * is hidden behind a newer one from before the fork. */
  ghost predicate ScanEnds(db: Db, b: Hash, common: Option<Hash>) {
    forall x :: IsAncestor(db.side.parent, x, b) && Unrooted(db, x) ==>
      exists y :: FromBefore(db, b, common, y) && IsAncestor(db.side.parent, x, y)
  }

  lemma MainsStoredEnds(db: Db, b: Hash, common: Option<Hash>)
    requires MainsStored(db, b)
    ensures ScanEnds(db, b, common)
  {
    hide IsAncestor, FromBefore;
  }

  /** Every ancestor of `b` that is not one of `cur` was built on a stored block. */
  ghost predicate Scanned(db: Db, b: Hash, cur: Option<Hash>) {
    forall x :: IsAncestor(db.side.parent, x, b) && Unrooted(db, x) ==> cur.Some? && IsAncestor(db.side.parent, x, cur.value)
  }

  lemma ScanFound(db: Db, b: Hash, lca: Hash, x: Hash)
    requires Scanned(db, b, Some(x)) && FromBefore(db, b, Some(lca), x)
    ensures ScanEnds(db, b, Some(lca))
  {
    hide IsAncestor, BuiltBelow;
  }

  lemma ScanMissed(db: Db, b: Hash)
    requires Scanned(db, b, None)
    ensures forall c :: ScanEnds(db, b, c)
  {
    hide IsAncestor, FromBefore;
  }

  lemma ScannedMore(db: Db, b: Hash, x: Hash)
    requires TablesOk(db) && x in db.headers && Scanned(db, b, Some(x)) && db.headers[x].prevMain in db.main.parent
    ensures Scanned(db, b, db.headers[x].prevSide)
  {
    hide TablesOk, IsAncestor;
    SideFacts(db, x);
    forall z | IsAncestor(db.side.parent, z, b) && Unrooted(db, z)
      ensures db.headers[x].prevSide.Some? && IsAncestor(db.side.parent, z, db.headers[x].prevSide.value)
    {
      AncestorStep(db.side.parent, z, x);
    }
  }

  lemma ScanStops(db: Db, b: Hash, lca: Hash, x: Hash)
    requires TablesOk(db) && b in db.headers && x in db.headers && lca in db.main.parent
    requires IsAncestor(db.side.parent, x, b) && Unrooted(db, x) && LastBelow(db, b, Some(lca)) == LastBelow(db, x, Some(lca))
    ensures !ScanEnds(db, b, Some(lca))
  {
    hide TablesOk, IsAncestor, LastBelow, Valid, Nth;
    MainValid(db);
    LastBelowMeaning(db, b, lca);
    LastBelowMeaning(db, x, lca);
    forall y | FromBefore(db, b, Some(lca), y) ensures !IsAncestor(db.side.parent, x, y) {
      if IsAncestor(db.side.parent, x, y) {
        var r := LastBelow(db, b, Some(lca)).value;
        AncestorAt(db.side, y, b);
        AncestorHeight(db.side, r, x);
        AncestorHeight(db.side, y, r);
        AncestorHeight(db.side, x, y);
        AncestorAt(db.main, db.headers[x].prevMain, lca);
      }
    }
  }

  /** The scan over the ancestors, newest first. */
  method FindBelow(db: Db, b: Hash, lca: Hash) returns (r: Result<Option<Hash>, ArchiveError>)
    requires TablesOk(db) && b in db.headers && lca in db.main.parent
    ensures r.Ok? ==> r.value == LastBelow(db, b, Some(lca))
    ensures r.Ok? <==> ScanEnds(db, b, Some(lca))
  {
    hide TablesOk, Valid, IsAncestor, BuiltBelow, ScanEnds, Scanned;
    MainValid(db);
    var cur := Some(b);
    AncestorRefl(db.side.parent, b);
    ScanStart(db, b);
    while cur.Some?
      invariant cur.Some? ==> cur.value in db.headers && IsAncestor(db.side.parent, cur.value, b)
      invariant LastBelow(db, b, Some(lca)) == if cur.Some? then LastBelow(db, cur.value, Some(lca)) else None
      invariant Scanned(db, b, cur)
      decreases if cur.Some? && cur.value in db.side.height then db.side.height[cur.value] + 1 else 0
    {
      var x := cur.value;
      ScanStep(db, b, lca, x);
      var below := IsDescendant(db.main, db.headers[x].prevMain, lca);
      if below.Err? {
        ScanStops(db, b, lca, x);
        return Err(Lookup(below.error));
      }
      if below.value && db.headers[x].prevMain != lca {
        ScanFound(db, b, lca, x);
        return Ok(Some(x));
      }
      ScannedMore(db, b, x);
      cur := db.headers[x].prevSide;
    }
    ScanMissed(db, b);
    return Ok(None);
  }

  lemma ScanStart(db: Db, b: Hash)
    ensures Scanned(db, b, Some(b))
  {
  }

  lemma MainValid(db: Db)
    requires TablesOk(db)
    ensures Valid(db.main) && Valid(db.side)
    ensures db.main.height.Keys == db.main.parent.Keys == db.mainHeaders.Keys
    ensures db.side.height.Keys == db.side.parent.Keys == db.headers.Keys
  {
    hide SkipOk, SuccOk;
  }

  lemma ScanStep(db: Db, b: Hash, lca: Hash, x: Hash)
    requires TablesOk(db) && b in db.headers && x in db.headers && IsAncestor(db.side.parent, x, b)
    ensures x in db.side.height
    ensures BuiltBelow(db, x, lca) <==>
            db.headers[x].prevMain != lca && IsAncestor(db.main.parent, db.headers[x].prevMain, lca)
    ensures db.headers[x].prevSide.Some? ==>
              var q := db.headers[x].prevSide.value;
              && q in db.headers && q in db.side.height && db.side.height[q] < db.side.height[x]
              && IsAncestor(db.side.parent, q, b)
  {
    hide TablesOk, IsAncestor;
    SideFacts(db, x);
    if db.headers[x].prevSide.Some? {
      var q := db.headers[x].prevSide.value;
      AncestorRefl(db.side.parent, q);
      AncestorStep(db.side.parent, q, x);
      AncestorTrans(db.side.parent, q, x, b);
    }
  }

  // ----- the order -----

  /** Total work at the mainchain block right above the one that `a` was built
    * on, on the way to `c`. */
  ghost function WorkAfter(db: Db, a: Hash, c: Hash): nat
    requires a in db.headers && StepStored(db, db.headers[a].prevMain, c)
  {
    db.work[Nth(db.main.parent, c, db.main.height[c] - (db.main.height[db.headers[a].prevMain] + 1)).value]
  }

  lemma BelowFacts(db: Db, a: Hash, c: Hash)
    requires TablesOk(db) && WorkOk(db.mainHeaders, db.work) && c in db.main.parent && BuiltBelow(db, a, c)
    ensures StepStored(db, db.headers[a].prevMain, c)
  {
    hide Valid, Nth, IsAncestor, TablesOk;
    MainValid(db);
    StepAbove(db.main, db.headers[a].prevMain, c);
  }

  /** The ancestor of `c` right above `m` is stored. */
  ghost predicate StepStored(db: Db, m: Hash, c: Hash) {
    && m in db.main.height && c in db.main.height && db.main.height[m] < db.main.height[c]
    && var n := Nth(db.main.parent, c, db.main.height[c] - (db.main.height[m] + 1));
       n.Some? && n.value in db.work && n.value in db.main.parent
  }

  lemma StepAbove(ix: Index, m: Hash, c: Hash)
    requires Valid(ix) && c in ix.parent && m != c && IsAncestor(ix.parent, m, c)
    ensures m in ix.height && c in ix.height && ix.height[m] < ix.height[c]
    ensures var n := Nth(ix.parent, c, ix.height[c] - (ix.height[m] + 1)); n.Some? && n.value in ix.parent
  {
    hide Valid, Nth, IsAncestor;
    AncestorAt(ix, m, c);
    NthZero(ix.parent, c);
    NthAt(ix, c, ix.height[c] - (ix.height[m] + 1));
  }

  /** Height and work of that ancestor; a missing one orders below any other. */
  ghost function LastHeight(db: Db, b: Hash, common: Option<Hash>): int {
    match LastBelow(db, b, common)
    case None => -1
    case Some(a) => if a in db.side.height then db.side.height[a] else -1
  }

  ghost predicate Scored(db: Db) { TablesOk(db) && WorkOk(db.mainHeaders, db.work) }

  ghost function LastWork(db: Db, b: Hash, common: Option<Hash>): int
    requires Scored(db) && b in db.headers && (common.Some? ==> common.value in db.main.parent)
  {
    match LastBelow(db, b, common)
    case None => -1
    case Some(a) =>
      LastBelowMeaning(db, b, common.value);
      BelowFacts(db, a, common.value);
      WorkAfter(db, a, common.value)
  }

  /** Both blocks of the tip are stored. */
  ghost predicate Comparable(db: Db, t: Tip) {
    && t.block in db.headers && t.block in db.side.height
    && t.main in db.main.parent && t.main in db.work
  }

  ghost predicate Shared(db: Db, a: Tip, b: Tip) {
    IsAncestor(db.main.parent, a.main, b.main) || IsAncestor(db.main.parent, b.main, a.main)
  }

  ghost predicate Rated(db: Db, a: Tip, b: Tip, common: Option<Hash>) {
    && Scored(db) && Comparable(db, a) && Comparable(db, b)
    && IsCommon(db.main, a.main, b.main, common)
    && (common.Some? ==> common.value in db.main.parent)
  }

  /** `a` is strictly better than `b`. */
  ghost predicate Prefers(db: Db, common: Option<Hash>, a: Tip, b: Tip)
    requires Rated(db, a, b, common)
  {
    var ha, hb := db.side.height[a.block], db.side.height[b.block];
    var wa, wb := db.work[a.main], db.work[b.main];
    var la, lb := LastHeight(db, a.block, common), LastHeight(db, b.block, common);
    if ha == 0 || hb == 0 then ha > hb
    else if ha > hb then wa >= wb || la >= hb
    else if ha < hb then wa > wb && lb < ha
    else if wa != wb then Shared(db, a, b) == (wa < wb)
    else a.block != b.block &&
         (la > lb || (la == lb && LastWork(db, a.block, common) < LastWork(db, b.block, common)))
  }

  /** What the comparison answers: the second tip only when it is strictly better. */
  ghost function Better(db: Db, common: Option<Hash>, t0: Tip, t1: Tip): Option<Tip>
    requires Rated(db, t0, t1, common) && Rated(db, t1, t0, common)
  {
    if t0 == t1 || (db.side.height[t0.block] == 0 && db.side.height[t1.block] == 0) then None
    else if Prefers(db, common, t1, t0) then Some(t1)
    else Some(t0)
  }

  // ----- the order, told from the blocks -----

  /** Some ancestor of `b` from before the fork has at least the height `h`. */
  ghost predicate HighBefore(db: Db, b: Hash, common: Option<Hash>, h: nat) {
    exists x :: FromBefore(db, b, common, x) && db.side.height[x] >= h
  }

  /** The highest ancestor of `b` from before the fork. */
  ghost predicate HighestBefore(db: Db, b: Hash, common: Option<Hash>, x: Hash) {
    && FromBefore(db, b, common, x)
    && forall y :: FromBefore(db, b, common, y) ==> db.side.height[y] <= db.side.height[x]
  }

  /** `a` has an ancestor from before the fork that is higher than all those of `b`. */
  ghost predicate HigherBefore(db: Db, common: Option<Hash>, a: Hash, b: Hash) {
    exists x :: FromBefore(db, a, common, x) &&
                forall y :: FromBefore(db, b, common, y) ==> db.side.height[y] < db.side.height[x]
  }

  /** Mainchain block `m` is the child, towards the fork, of the one `x` was built on. */
  ghost predicate ForkChild(db: Db, x: Hash, common: Option<Hash>, m: Hash) {
    && common.Some? && x in db.headers && m in db.work && m in db.main.parent
    && IsAncestor(db.main.parent, m, common.value) && db.main.parent[m] == Some(db.headers[x].prevMain)
  }

  /** Their highest ancestors from before the fork are level, and that of `a` was
    * built where less work had been done. */
  ghost predicate SoonerBefore(db: Db, common: Option<Hash>, a: Hash, b: Hash) {
    exists x, y, m, n ::
      && HighestBefore(db, a, common, x) && HighestBefore(db, b, common, y) && db.side.height[x] == db.side.height[y]
      && ForkChild(db, x, common, m) && ForkChild(db, y, common, n) && db.work[m] < db.work[n]
  }

  /** Tip `a` is strictly better than tip `b`: a greater height wins, unless the lower
    * tip has more work and the higher one had not come that far before the fork. At
    * equal heights less work wins on one mainchain, more work on two; at equal heights
    * and works, the greater height before the fork, then the earlier start. */
  ghost predicate Outranks(db: Db, common: Option<Hash>, a: Tip, b: Tip)
    requires Comparable(db, a) && Comparable(db, b)
  {
    var ha, hb, wa, wb := db.side.height[a.block], db.side.height[b.block], db.work[a.main], db.work[b.main];
    if ha == 0 || hb == 0 then ha > hb
    else if ha > hb then wa >= wb || HighBefore(db, a.block, common, hb)
    else if ha < hb then wa > wb && !HighBefore(db, b.block, common, ha)
    else if wa != wb then if Shared(db, a, b) then wa < wb else wa > wb
    else a.block != b.block && (HigherBefore(db, common, a.block, b.block) || SoonerBefore(db, common, a.block, b.block))
  }

  /** The ancestor that the scan finds is the highest one from before the fork. */
  lemma LastIsHighest(db: Db, b: Hash, common: Option<Hash>, x: Hash)
    requires TablesOk(db) && b in db.headers
    ensures LastBelow(db, b, common) == Some(x) <==> HighestBefore(db, b, common, x)
    ensures LastBelow(db, b, common).None? ==> !FromBefore(db, b, common, x)
  {
    hide TablesOk, IsAncestor, BuiltBelow, LastBelow;
    MainValid(db);
    LastBelowNone(db, b);
    if common.Some? {
      LastBelowMeaning(db, b, common.value);
      var r := LastBelow(db, b, common);
      if r.Some? {
        AncestorHeight(db.side, r.value, b);
        forall y | FromBefore(db, b, common, y) ensures db.side.height[y] <= db.side.height[r.value] {
          AncestorHeight(db.side, y, r.value);
        }
        if HighestBefore(db, b, common, x) { AncestorHeight(db.side, x, r.value); }
      }
    }
  }

  lemma LastBelowNone(db: Db, b: Hash)
    ensures LastBelow(db, b, None) == None
  {
  }

  lemma LastIsHighestOf(db: Db, b: Hash, common: Option<Hash>)
    requires TablesOk(db) && b in db.headers
    ensures forall x: Hash :: LastBelow(db, b, common) == Some(x) <==> HighestBefore(db, b, common, x)
    ensures forall x: Hash :: FromBefore(db, b, common, x) ==> LastBelow(db, b, common).Some?
    ensures match LastBelow(db, b, common)
            case Some(x) => x in db.side.height && LastHeight(db, b, common) == db.side.height[x]
            case None => LastHeight(db, b, common) == -1
  {
    hide TablesOk, IsAncestor, LastBelow, BuiltBelow;
    forall x: Hash ensures LastBelow(db, b, common) == Some(x) <==> HighestBefore(db, b, common, x)
                   ensures FromBefore(db, b, common, x) ==> LastBelow(db, b, common).Some?
    {
      LastIsHighest(db, b, common, x);
    }
    var r := LastBelow(db, b, common);
    if r.Some? { assert HighestBefore(db, b, common, r.value); }
  }

  lemma HeightBefore(db: Db, b: Hash, common: Option<Hash>, h: nat)
    requires TablesOk(db) && b in db.headers
    ensures LastHeight(db, b, common) >= h <==> HighBefore(db, b, common, h)
  {
    hide TablesOk, IsAncestor, LastBelow, LastHeight;
    LastIsHighestOf(db, b, common);
    var r := LastBelow(db, b, common);
    if r.Some? { assert HighestBefore(db, b, common, r.value); }
  }

  lemma HigherIff(db: Db, a: Hash, b: Hash, common: Option<Hash>)
    requires TablesOk(db) && a in db.headers && b in db.headers
    ensures LastHeight(db, a, common) > LastHeight(db, b, common) <==> HigherBefore(db, common, a, b)
  {
    hide TablesOk, IsAncestor, LastBelow, LastHeight;
    LastIsHighestOf(db, a, common);
    LastIsHighestOf(db, b, common);
    var ra, rb := LastBelow(db, a, common), LastBelow(db, b, common);
    if ra.Some? { assert HighestBefore(db, a, common, ra.value); }
    if rb.Some? { assert HighestBefore(db, b, common, rb.value); }
  }

  /** The child towards the fork is the one whose work the comparison looks up. */
  lemma AboveIs(db: Db, x: Hash, c: Hash, m: Hash)
    requires Scored(db) && c in db.main.parent && BuiltBelow(db, x, c)
    ensures StepStored(db, db.headers[x].prevMain, c)
    ensures ForkChild(db, x, Some(c), m) <==>
            Nth(db.main.parent, c, db.main.height[c] - (db.main.height[db.headers[x].prevMain] + 1)) == Some(m)
  {
    hide Valid, Nth, TablesOk;
    BelowFacts(db, x, c);
    MainValid(db);
    var prev := db.headers[x].prevMain;
    var d: nat := db.main.height[c] - (db.main.height[prev] + 1);
    AncestorAt(db.main, prev, c);
    NthAt(db.main, c, d);
    var n := Nth(db.main.parent, c, d).value;
    NthChild(db.main.parent, c, d);
    if ForkChild(db, x, Some(c), m) {
      AncestorAt(db.main, m, c);
      ParentHeight(db.main, m);
    }
  }

  lemma NthChild(p: Parents, c: Hash, d: nat)
    requires Nth(p, c, d).Some? && Nth(p, c, d).value in p
    ensures Nth(p, c, d + 1) == p[Nth(p, c, d).value]
  {
    hide Nth;
    NthAdd(p, c, d, 1);
    NthOne(p, Nth(p, c, d).value);
  }

  lemma NthOne(p: Parents, b: Hash)
    requires b in p
    ensures Nth(p, b, 1) == p[b]
  {
    if p[b].Some? { NthZero(p, p[b].value); }
  }

  lemma ParentHeight(ix: Index, m: Hash)
    requires Valid(ix) && m in ix.parent && ix.parent[m].Some?
    ensures ix.parent[m].value in ix.height && m in ix.height && ix.height[m] == ix.height[ix.parent[m].value] + 1
  {
    hide SkipOk, SuccOk;
  }

  /** The work that the comparison takes for the ancestor from before the fork. */
  lemma LastAbove(db: Db, b: Hash, c: Hash) returns (m: Hash)
    requires Scored(db) && b in db.headers && c in db.main.parent && LastBelow(db, b, Some(c)).Some?
    ensures var x := LastBelow(db, b, Some(c)).value;
            ForkChild(db, x, Some(c), m) && forall n :: ForkChild(db, x, Some(c), n) ==> n == m
    ensures m in db.work && db.work[m] == LastWork(db, b, Some(c))
  {
    hide TablesOk, IsAncestor, LastBelow, ForkChild, WorkOk, Nth;
    var x := LastBelow(db, b, Some(c)).value;
    LastBelowMeaning(db, b, c);
    BelowFacts(db, x, c);
    m := Nth(db.main.parent, c, db.main.height[c] - (db.main.height[db.headers[x].prevMain] + 1)).value;
    forall n ensures ForkChild(db, x, Some(c), n) <==> n == m { AboveIs(db, x, c, n); }
  }

  lemma SoonerIff(db: Db, a: Hash, b: Hash, common: Option<Hash>)
    requires Scored(db) && a in db.headers && b in db.headers && (common.Some? ==> common.value in db.main.parent)
    ensures SoonerBefore(db, common, a, b) <==>
            LastHeight(db, a, common) == LastHeight(db, b, common) && LastWork(db, a, common) < LastWork(db, b, common)
  {
    hide TablesOk, IsAncestor, LastBelow, FromBefore, ForkChild, WorkOk, Nth, HighestBefore;
    LastIsHighestOf(db, a, common);
    LastIsHighestOf(db, b, common);
    var la, lb := LastBelow(db, a, common), LastBelow(db, b, common);
    LastBelowNone(db, a);
    if la.Some? && lb.Some? {
      var m := LastAbove(db, a, common.value);
      var n := LastAbove(db, b, common.value);
      if LastHeight(db, a, common) == LastHeight(db, b, common) && db.work[m] < db.work[n] {
        assert HighestBefore(db, a, common, la.value) && HighestBefore(db, b, common, lb.value);
      }
    }
  }

  /** The order by heights, works and ancestors is the order of the comparison. */
  lemma OutranksIff(db: Db, common: Option<Hash>, a: Tip, b: Tip)
    requires Rated(db, a, b, common)
    ensures Outranks(db, common, a, b) <==> Prefers(db, common, a, b)
  {
    hide TablesOk, IsAncestor, LastBelow, LastHeight, LastWork, WorkOk, IsCommon, HighBefore, HigherBefore, SoonerBefore;
    HeightBefore(db, a.block, common, db.side.height[b.block]);
    HeightBefore(db, b.block, common, db.side.height[a.block]);
    HigherIff(db, a.block, b.block, common);
    SoonerIff(db, a.block, b.block, common);
  }

  lemma RatedSymmetric(db: Db, a: Tip, b: Tip, common: Option<Hash>)
    requires Rated(db, a, b, common)
    ensures Rated(db, b, a, common) && Shared(db, a, b) == Shared(db, b, a)
  {
    hide Scored, Comparable, IsAncestor, Nth;
    if common.Some? { LcaSymmetric(db.main.parent, a.main, b.main, common.value); }
  }

  // ----- the comparison -----

  /** The last common mainchain ancestor as it is computed; for chains of two
    * genesis blocks that is one of them, below which nothing was built. */
  method CommonMain(db: Db, a: Hash, b: Hash, ghost common: Option<Hash>) returns (r: Hash)
    requires TablesOk(db) && a in db.main.parent && b in db.main.parent && IsCommon(db.main, a, b, common)
    ensures Stands(db, r, common)
  {
    hide Valid, Nth, IsAncestor, IsLca, OneGenesis, TablesOk;
    MainValid(db);
    var lca := LastCommonMainAncestor(db.main, a, b);
    CommonStored(db.main, a, b, lca.value);
    if common.Some? { CommonUnique(db.main, a, b, common.value, lca.value); }
    return lca.value;
  }

  lemma CommonUnique(ix: Index, a: Hash, b: Hash, c: Hash, d: Hash)
    requires Valid(ix) && a in ix.parent && IsLca(ix.parent, a, b, c) && IsLca(ix.parent, a, b, d)
    ensures c == d
  {
    LcaUnique(ix.parent, ix.height, a, b, c, d);
  }

  lemma CommonExists(ix: Index, a: Hash, b: Hash) returns (c: Option<Hash>)
    requires Valid(ix)
    ensures IsCommon(ix, a, b, c)
    ensures c.Some? ==> c.value in ix.parent
  {
    hide Nth, IsAncestor, SkipOk, SuccOk;
    c := None;
    if a in ix.height && b in ix.height && OneGenesis(ix, a, b) {
      var d := LcaExists(ix.parent, ix.height, a, b);
      AncestorsStored(ix.parent, ix.height, d, a);
      c := Some(d);
    }
  }

  lemma CommonStored(ix: Index, a: Hash, b: Hash, c: Hash)
    requires Valid(ix) && a in ix.parent && a in ix.height
    requires IsLca(ix.parent, a, b, c) || Nth(ix.parent, a, ix.height[a]) == Some(c)
    ensures c in ix.parent && c in ix.height
    ensures Nth(ix.parent, a, ix.height[a]) == Some(c) ==> ix.height[c] == 0
  {
    hide Nth, IsAncestor, SkipOk, SuccOk;
    if IsLca(ix.parent, a, b, c) { AncestorsStored(ix.parent, ix.height, c, a); }
    NthHeight(ix.parent, ix.height, a, ix.height[a]);
  }

  ghost predicate Stands(db: Db, lca: Hash, common: Option<Hash>) {
    && lca in db.main.parent && lca in db.main.height
    && if common.Some? then common.value == lca else db.main.height[lca] == 0
  }

  lemma LastBelowStands(db: Db, b: Hash, lca: Hash, common: Option<Hash>)
    requires TablesOk(db) && b in db.headers && Stands(db, lca, common)
    ensures LastBelow(db, b, common) == LastBelow(db, b, Some(lca))
    ensures ScanEnds(db, b, common) <==> ScanEnds(db, b, Some(lca))
  {
    hide TablesOk, IsAncestor, BuiltBelow, FromBefore;
    if common.None? {
      NoneBelowGenesis(db, b, lca);
      forall y ensures FromBefore(db, b, common, y) <==> FromBefore(db, b, Some(lca), y) { NoneFromBefore(db, b, lca, y); }
    }
  }

  lemma NoneFromBefore(db: Db, b: Hash, g: Hash, y: Hash)
    requires TablesOk(db) && g in db.main.parent && g in db.main.height && db.main.height[g] == 0
    ensures !FromBefore(db, b, Some(g), y) && !FromBefore(db, b, None, y)
  {
    hide TablesOk, IsAncestor;
    if FromBefore(db, b, Some(g), y) { GenesisAlone(db, db.headers[y].prevMain, g); }
  }

  method BelowHeight(db: Db, b: Hash, lca: Hash, ghost common: Option<Hash>) returns (r: Result<int, ArchiveError>)
    requires TablesOk(db) && b in db.headers && Stands(db, lca, common)
    ensures r.Ok? ==> r.value == LastHeight(db, b, common)
    ensures r.Ok? <==> ScanEnds(db, b, common)
  {
    hide TablesOk, LastBelow, ScanEnds, IsAncestor;
    MainValid(db);
    LastBelowStands(db, b, lca, common);
    var a := FindBelow(db, b, lca);
    if a.Err? { return Err(a.error); }
    LastBelowMeaning(db, b, lca);
    return Ok(if a.value.None? then -1 else db.side.height[a.value.value]);
  }

  method BelowScore(db: Db, b: Hash, lca: Hash, ghost common: Option<Hash>) returns (r: Result<(int, int), ArchiveError>)
    requires Scored(db) && b in db.headers && Stands(db, lca, common)
    ensures r.Ok? ==> r.value == (LastHeight(db, b, common), LastWork(db, b, common))
    ensures r.Ok? <==> ScanEnds(db, b, common)
  {
    hide TablesOk, LastBelow, ScanEnds, IsAncestor, Valid, Nth, PopCount, WorkOk;
    MainValid(db);
    LastBelowStands(db, b, lca, common);
    var a := FindBelow(db, b, lca);
    if a.Err? { return Err(a.error); }
    LastBelowMeaning(db, b, lca);
    if a.value.None? { return Ok((-1, -1)); }
    var x := a.value.value;
    BelowFacts(db, x, lca);
    var prev := db.main.height[db.headers[x].prevMain];
    var m, _ := NthAncestor(db.main, lca, db.main.height[lca] - (prev + 1));
    return Ok((db.side.height[x], db.work[m.value]));
  }

  lemma WorkKeys(db: Db)
    requires Scored(db)
    ensures db.work.Keys == db.mainHeaders.Keys
  {
  }

  /** Heights and works decide, without a look at the ancestors. */
  ghost predicate Plain(db: Db, t0: Tip, t1: Tip)
    requires t0.block in db.side.height && t1.block in db.side.height && t0.main in db.work && t1.main in db.work
  {
    var h0, h1, w0, w1 := db.side.height[t0.block], db.side.height[t1.block], db.work[t0.main], db.work[t1.main];
    if h0 == 0 || h1 == 0 then true
    else if h0 > h1 then w0 >= w1
    else if h0 < h1 then w0 <= w1
    else w0 != w1 || t0.block == t1.block
  }

  /** The scans that are needed find what they look up: that of a tip with more
    * height and less work than the other, or both where heights and works agree. */
  ghost predicate ScansEnd(db: Db, t0: Tip, t1: Tip, common: Option<Hash>)
    requires t0.main in db.work && t1.main in db.work
  {
    && (db.work[t0.main] <= db.work[t1.main] ==> ScanEnds(db, t0.block, common))
    && (db.work[t0.main] >= db.work[t1.main] ==> ScanEnds(db, t1.block, common))
  }

  /** Tips of positive height, by total work and height. */
  method Contest(db: Db, t0: Tip, t1: Tip, ghost common: Option<Hash>) returns (r: Result<Option<Tip>, ArchiveError>)
    requires Scored(db) && t0 != t1 && IsCommon(db.main, t0.main, t1.main, common)
    requires t0.block in db.side.height && t1.block in db.side.height && t0.main in db.work && t1.main in db.work
    requires db.side.height[t0.block] > 0 && db.side.height[t1.block] > 0
    ensures Rated(db, t0, t1, common) && Rated(db, t1, t0, common) && r.Ok? ==> r == Ok(Better(db, common, t0, t1))
    ensures r.Ok? <==> Plain(db, t0, t1) || ScansEnd(db, t0, t1, common)
  {
    hide TablesOk, Valid, ScanEnds, IsAncestor, IsCommon, LastBelow, LastHeight, LastWork, WorkOk;
    MainValid(db);
    WorkKeys(db);
    var h0, h1 := db.side.height[t0.block], db.side.height[t1.block];
    var w0, w1 := db.work[t0.main], db.work[t1.main];
    if w0 <= w1 && h0 < h1 { return Ok(Some(t1)); }
    if w0 >= w1 && h0 > h1 { return Ok(Some(t0)); }
    if w0 != w1 && h0 == h1 {
      var shared := SharedLineage(db.main, t0.main, t1.main);
      // within one mainchain lineage, lower work; otherwise, greater work
      return Ok(Some(if shared.value == (w0 < w1) then t0 else t1));
    }
    if w0 == w1 && t0.block == t1.block { return Ok(Some(t0)); }
    var lca := CommonMain(db, t0.main, t1.main, common);
    if w0 < w1 {
      var l0 := BelowHeight(db, t0.block, lca, common);
      if l0.Err? { return Err(l0.error); }
      return Ok(Some(if l0.value >= h1 then t0 else t1));
    } else if w0 > w1 {
      var l1 := BelowHeight(db, t1.block, lca, common);
      if l1.Err? { return Err(l1.error); }
      return Ok(Some(if l1.value < h0 then t0 else t1));
    }
    var s0 := BelowScore(db, t0.block, lca, common);
    if s0.Err? { return Err(s0.error); }
    var s1 := BelowScore(db, t1.block, lca, common);
    if s1.Err? { return Err(s1.error); }
    return Ok(Some(if s0.value.0 > s1.value.0 || (s0.value.0 == s1.value.0 && s0.value.1 <= s1.value.1) then t0 else t1));
  }

  /** A block above genesis against a genesis block; mainchain blocks do not matter. */
  ghost predicate FirstAbove(db: Db, a: Tip, t: Tip) {
    a.block in db.side.height && t.block in db.side.height && db.side.height[a.block] == 0 < db.side.height[t.block]
  }

  /** The comparison answers: the tips are the same, or their heights are stored, and
    * either one is a first block, or their works are stored and what else is looked
    * up. */
  ghost predicate Answers(db: Db, t0: Tip, t1: Tip) {
    || t0 == t1
    || (&& t0.block in db.side.height && t1.block in db.side.height
        && (|| db.side.height[t0.block] == 0 || db.side.height[t1.block] == 0
            || (&& t0.main in db.work && t1.main in db.work
                && (Plain(db, t0, t1) ||
                    exists c :: IsCommon(db.main, t0.main, t1.main, c) && ScansEnd(db, t0, t1, c)))))
  }

  lemma AnswersIs(db: Db, t0: Tip, t1: Tip, common: Option<Hash>)
    requires TablesOk(db) && IsCommon(db.main, t0.main, t1.main, common)
    requires t0.main in db.work && t1.main in db.work && t0.main in db.main.parent
    ensures (exists c :: IsCommon(db.main, t0.main, t1.main, c) && ScansEnd(db, t0, t1, c)) <==> ScansEnd(db, t0, t1, common)
  {
    hide TablesOk, ScansEnd, IsLca, OneGenesis, Valid;
    MainValid(db);
    forall c | IsCommon(db.main, t0.main, t1.main, c) ensures c == common {
      if c.Some? { CommonUnique(db.main, t0.main, t1.main, c.value, common.value); }
    }
  }

  /** With everything that it may look up stored, the comparison answers. */
  lemma StoredAnswers(db: Db, t0: Tip, t1: Tip)
    requires Scored(db) && Comparable(db, t0) && Comparable(db, t1)
    requires Plain(db, t0, t1) || (MainsStored(db, t0.block) && MainsStored(db, t1.block))
    ensures Answers(db, t0, t1)
  {
    hide TablesOk, MainsStored, ScanEnds, IsCommon, WorkOk, Valid;
    MainValid(db);
    if !Plain(db, t0, t1) {
      var c := CommonExists(db.main, t0.main, t1.main);
      MainsStoredEnds(db, t0.block, c);
      MainsStoredEnds(db, t1.block, c);
    }
  }

  /** The comparison. For stored tips any answer is `Better`. */
  method Compare(db: Db, t0: Tip, t1: Tip) returns (r: Result<Option<Tip>, ArchiveError>, ghost common: Option<Hash>)
    requires Scored(db)
    ensures t0 == t1 ==> r == Ok(None)
    ensures t0 != t1 && (t0.block !in db.headers || t1.block !in db.headers) ==> r.Err?
    ensures FirstAbove(db, t0, t1) ==> r == Ok(Some(t1))
    ensures r == Ok(Some(t1)) ==> FirstAbove(db, t0, t1) || (Comparable(db, t0) && Comparable(db, t1))
    ensures Comparable(db, t0) && Comparable(db, t1) ==>
              && Rated(db, t0, t1, common) && Rated(db, t1, t0, common)
              && (r.Ok? ==> r == Ok(Better(db, common, t0, t1)))
              && (r.Ok? ==> r.value == if t0 == t1 || (db.side.height[t0.block] == 0 && db.side.height[t1.block] == 0) then None
                                       else if Outranks(db, common, t1, t0) then Some(t1) else Some(t0))
    ensures r.Ok? <==> Answers(db, t0, t1)
  {
    hide TablesOk, Valid, ScansEnd, IsAncestor, IsCommon, LastBelow, LastHeight, LastWork, WorkOk, Outranks;
    MainValid(db);
    WorkKeys(db);
    common := CommonExists(db.main, t0.main, t1.main);
    if Comparable(db, t0) && Comparable(db, t1) {
      RatedSymmetric(db, t0, t1, common);
      OutranksIff(db, common, t1, t0);
    }
    if t0 == t1 { return Ok(None), common; }
    if t0.block !in db.side.height { return Err(Lookup(NoHeight(t0.block))), common; }
    if t1.block !in db.side.height { return Err(Lookup(NoHeight(t1.block))), common; }
    var h0, h1 := db.side.height[t0.block], db.side.height[t1.block];
    if h0 == 0 && h1 == 0 { return Ok(None), common; }
    if h0 == 0 { return Ok(Some(t1)), common; }
    if h1 == 0 { return Ok(Some(t0)), common; }
    if t0.main !in db.work { return Err(Lookup(NoHeight(t0.main))), common; }
    if t1.main !in db.work { return Err(Lookup(NoHeight(t1.main))), common; }
    AnswersIs(db, t0, t1, common);
    var answer := Contest(db, t0, t1, common);
    return answer, common;
  }
}
