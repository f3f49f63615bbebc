/** What a reorg relies on: the blocks to apply, the best verification of a
  * block, and which facts survive storing a block again. */
module ReorgPath {
  import opened Wrappers
  import opened Types
  import opened Ancestry
  import opened BlockIndex
  import opened Blocks
  import opened Chains
  import opened ArchiveDb
  import opened BmmTable
  import opened ArchiveRuns
  import opened AncestorWalks
  import opened Resubmission
  import opened BetterTip
  import opened ActiveChain

  // ----- the best verification -----

  /** `m` verifies `b`, and no verification of `b` has more total work. */
  ghost predicate IsBest(db: Db, b: Hash, m: Hash) {
    && IsVerified(db, b, m) && m in db.work
    && forall n :: IsVerified(db, b, n) ==> n in db.work && db.work[n] <= db.work[m]
  }

  method BestMain(db: Db, b: Hash) returns (r: Option<Hash>)
    requires forall m :: IsVerified(db, b, m) ==> m in db.work
    ensures r.Some? ==> IsBest(db, b, r.value)
    ensures r.None? <==> forall m :: !IsVerified(db, b, m)
  {
    r := None;
    var rows := Results(db, b);
    var rest := rows.Keys;
    while rest != {}
      invariant rest <= rows.Keys
      invariant r.Some? ==> IsVerified(db, b, r.value) && r.value in db.work
      invariant forall m :: m in rows.Keys - rest && rows[m] == Verified ==>
                  r.Some? && m in db.work && db.work[m] <= db.work[r.value]
      decreases rest
    {
      var m :| m in rest;
      rest := rest - {m};
      if rows[m] == Verified {
        assert IsVerified(db, b, m);
        if r.None? || db.work[m] >= db.work[r.value] { r := Some(m); }
      }
    }
    forall m | IsVerified(db, b, m) ensures r.Some? && m in db.work && db.work[m] <= db.work[r.value] {
      assert m in rows.Keys && rows[m] == Verified;
    }
  }

  lemma VerifiedHasWork(db: Db, b: Hash, m: Hash)
    requires ArchiveOk(db) && b in db.headers && IsVerified(db, b, m)
    ensures m in db.work && m in db.main.parent
  {
    hide TablesOk;
    ArchiveFacts(db);
    assert BmmValid(db, b, m);
  }

  // ----- comparing tips in an archive that only stored things again -----

  lemma {:induction false} LastBelowSame(db: Db, db': Db, b: Hash, c: Option<Hash>)
    requires db' == db.(bmm := db'.bmm)
    ensures LastBelow(db', b, c) == LastBelow(db, b, c)
    decreases if b in db.side.height then db.side.height[b] else 0
  {
    hide IsAncestor;
    if c.Some? && b in db.headers && b in db.side.height {
      assert BuiltBelow(db', b, c.value) == BuiltBelow(db, b, c.value);
      match db.headers[b].prevSide
      case None =>
      case Some(q) =>
        if q in db.side.height && db.side.height[q] < db.side.height[b] { LastBelowSame(db, db', q, c); }
    }
  }

  lemma RatedSame(db: Db, db': Db, a: Tip, b: Tip, c: Option<Hash>)
    requires db' == db.(bmm := db'.bmm)
    ensures Rated(db', a, b, c) == Rated(db, a, b, c)
    ensures Comparable(db', a) == Comparable(db, a)
  {
    hide IsAncestor, Valid, IsCommon;
  }

  lemma BetterSame(db: Db, db': Db, a: Tip, b: Tip, c: Option<Hash>)
    requires db' == db.(bmm := db'.bmm) && Rated(db, a, b, c) && Rated(db, b, a, c)
    ensures Rated(db', a, b, c) && Rated(db', b, a, c) && Better(db', c, a, b) == Better(db, c, a, b)
  {
    hide IsAncestor, Valid, IsCommon, LastBelow, Nth, TablesOk, WorkOk, MainsStored;
    RatedSame(db, db', a, b, c);
    RatedSame(db, db', b, a, c);
    LastBelowSame(db, db', a.block, c);
    LastBelowSame(db, db', b.block, c);
  }

  /** The comparison picks `t` over `a`. */
  ghost predicate Chose(db: Db, a: Tip, t: Tip) { FirstAbove(db, a, t) || Beats(db, a, t) }

  ghost predicate Beats(db: Db, a: Tip, t: Tip) {
    exists c :: Rated(db, a, t, c) && Rated(db, t, a, c) && Better(db, c, a, t) == Some(t)
  }

  lemma ChoseSame(db: Db, db': Db, a: Tip, t: Tip)
    requires db' == db.(bmm := db'.bmm) && Chose(db', a, t)
    ensures Chose(db, a, t)
  {
    hide Rated, Better;
    if !FirstAbove(db, a, t) {
      var c :| Rated(db', a, t, c) && Rated(db', t, a, c) && Better(db', c, a, t) == Some(t);
      assert db == db'.(bmm := db.bmm);
      BetterSame(db', db, a, t, c);
    }
  }

  /** A block that the node commits: there is no tip to beat, or the block with its
    * best verification is a better tip. */
  ghost predicate Accepted(db: Db, was: Option<Tip>, b: Hash) {
    was.Some? ==> exists m :: IsBest(db, b, m) && Chose(db, was.value, Tip(b, m))
  }

  /** A block that the node goes on from: with its best verification it is no better. */
  ghost predicate Declined(db: Db, was: Option<Tip>, b: Hash) {
    was.Some? && exists m :: IsBest(db, b, m) && !Chose(db, was.value, Tip(b, m))
  }

  lemma BestSame(db: Db, db': Db, b: Hash, m: Hash)
    requires SameArchive(db, db') && IsBest(db', b, m)
    ensures IsBest(db, b, m)
  {
    hide IsVerified;
    assert forall n :: IsVerified(db, b, n) ==> IsVerified(db', b, n);
  }

  lemma AnswersSame(db: Db, db': Db, a: Tip, t: Tip)
    requires db' == db.(bmm := db'.bmm)
    ensures Answers(db', a, t) == Answers(db, a, t)
  {
    hide IsAncestor, IsCommon;
    forall b, c ensures ScanEnds(db', b, c) == ScanEnds(db, b, c) { ScanSame(db, db', b, c); }
    if a.main in db.work && t.main in db.work {
      forall c ensures ScansEnd(db', a, t, c) == ScansEnd(db, a, t, c) { }
    }
  }

  lemma ScanSame(db: Db, db': Db, b: Hash, c: Option<Hash>)
    requires db' == db.(bmm := db'.bmm)
    ensures ScanEnds(db', b, c) == ScanEnds(db, b, c)
  {
    hide IsAncestor;
    forall y ensures FromBefore(db', b, c, y) == FromBefore(db, b, c, y) { }
    forall y ensures Unrooted(db', y) == Unrooted(db, y) { }
  }

  lemma AcceptedSame(db: Db, db': Db, was: Option<Tip>, b: Hash)
    requires SameArchive(db, db') && Accepted(db', was, b)
    ensures Accepted(db, was, b)
  {
    hide Chose, IsBest;
    if was.Some? {
      var m :| IsBest(db', b, m) && Chose(db', was.value, Tip(b, m));
      BestSame(db, db', b, m);
      ChoseSame(db, db', was.value, Tip(b, m));
    }
  }

  // ----- following a chain in such an archive -----

  lemma FollowsSame(cr: Crypto, init: State, db: Db, db': Db, st: State)
    requires db' == db.(bmm := db'.bmm)
    ensures Follows(cr, init, db', st) == Follows(cr, init, db, st)
  {
    hide Fold, FreshChain, From;
    if HasBlocks(db, Hashes(db, st.tip)) {
      assert BlocksAt(db', Hashes(db', st.tip)) == BlocksAt(db, Hashes(db, st.tip));
    }
  }

  lemma FollowsWithout(cr: Crypto, init: State, db: Db, st: State, b: Hash, body: Body)
    requires Follows(cr, init, db, st) && b !in Hashes(db, st.tip)
    ensures Follows(cr, init, DeleteBody(db, b, body), st)
  {
    hide Fold, FreshChain, From, RemoveInclusions;
    var db' := DeleteBody(db, b, body);
    assert HasBlocks(db', Hashes(db', st.tip));
    assert BlocksAt(db', Hashes(db', st.tip)) == BlocksAt(db, Hashes(db, st.tip));
  }

  // ----- the blocks to apply -----

  /** The new tip and its ancestors above the common one, oldest first. */
  ghost function PathTo(db: Db, b: Hash, common: Option<Hash>): seq<Hash>
    requires TablesOk(db) && b in db.headers
  {
    SideKeys(db);
    ActiveChain.ParentStored(db, b);
    (match db.headers[b].prevSide
     case None => []
     case Some(q) => Above(db.side, q, common)) + [b]
  }

  /** The path continues the chain of the common ancestor, unless that is the new
    * tip itself. */
  lemma PathContinues(db: Db, b: Hash, common: Option<Hash>)
    requires TablesOk(db) && b in db.headers
    requires common.Some? ==> common.value != b && IsAncestor(db.side.parent, common.value, b)
    ensures Hashes(db, Some(b)) == Hashes(db, common) + PathTo(db, b, common)
    ensures common.Some? ==> common.value in db.headers
  {
    hide TablesOk, IsAncestor, Valid, From, Nth;
    SideKeys(db);
    ActiveChain.ParentStored(db, b);
    HashesStep(db, b);
    if common.Some? {
      var c := common.value;
      AncestorStep(db.side.parent, c, b);
      SideFacts(db, b);
      var q := db.headers[b].prevSide.value;
      ChainAbove(db, q, c);
      var base := Hashes(db, common);
      assert base + Above(db.side, q, common) + [b] == base + (Above(db.side, q, common) + [b]);
    }
  }

  lemma ChainAbove(db: Db, q: Hash, c: Hash)
    requires TablesOk(db) && q in db.headers && q in db.side.height && IsAncestor(db.side.parent, c, q)
    ensures c in db.headers
    ensures Hashes(db, Some(q)) == Hashes(db, Some(c)) + Above(db.side, q, Some(c))
  {
    hide TablesOk, IsAncestor, Valid, Nth, Ascending;
    SideKeys(db);
    AncestorAt(db.side, c, q);
    AscendingSplit(db.side.parent, q, db.side.height[q] - db.side.height[c], db.side.height[c] + 1);
    AscendingNone(db.side.parent, q);
  }

  /** If the new tip is its own common ancestor, that is if it is an ancestor of
    * the current tip, the path runs from genesis and its first block does not
    * connect to any state with a tip. */
  lemma AncestorPathFails(cr: Crypto, db: Db, b: Hash, st: State)
    requires TablesOk(db) && b in db.headers && st.tip.Some?
    ensures var g := PathTo(db, b, Some(b))[0];
            && g in db.headers && db.headers[g].prevSide.None?
            && forall body :: ApplyBlock(cr, st, db.headers[g], body).Err?
  {
    hide TablesOk, PathTo;
    GenesisPath(db, b);
    var g := PathTo(db, b, Some(b))[0];
    forall body ensures ApplyBlock(cr, st, db.headers[g], body).Err? { NoParentOnTip(cr, st, db.headers[g], body); }
  }

  lemma GenesisPath(db: Db, b: Hash)
    requires TablesOk(db) && b in db.headers
    ensures PathTo(db, b, Some(b)) != []
    ensures var g := PathTo(db, b, Some(b))[0]; g in db.headers && db.headers[g].prevSide.None?
  {
    hide TablesOk, IsAncestor, Valid, From, Nth;
    SideKeys(db);
    ActiveChain.ParentStored(db, b);
    var g := PathTo(db, b, Some(b))[0];
    match db.headers[b].prevSide {
      case None =>
      case Some(q) =>
        NotBelowItself(db, b, q);
        GenesisFirst(db, q);
    }
  }

  lemma NoParentOnTip(cr: Crypto, st: State, header: Header, body: Body)
    requires st.tip.Some? && header.prevSide.None?
    ensures ApplyBlock(cr, st, header, body).Err?
  {
  }

  lemma NotBelowItself(db: Db, b: Hash, q: Hash)
    requires TablesOk(db) && b in db.headers && db.headers[b].prevSide == Some(q)
    ensures q in db.side.height && !IsAncestor(db.side.parent, b, q)
  {
    hide IsAncestor, SkipOk, SuccOk;
    SideFacts(db, b);
    AncestorByHeight(db.side.parent, db.side.height, b, q);
  }

  lemma GenesisFirst(db: Db, q: Hash)
    requires TablesOk(db) && q in db.headers && q in db.side.height
    ensures |From(db.side, q, 0)| > 0
    ensures var g := From(db.side, q, 0)[0]; g in db.headers && db.headers[g].prevSide.None?
  {
    hide SkipOk, SuccOk, IsAncestor;
    FromEntries(db.side, q, 0);
  }
}
