/** The reorg as a whole, and runs of reorgs. */
module ReorgRun {
  import opened Wrappers
  import opened Types
  import opened Ancestry
  import opened BlockIndex
  import opened Blocks
  import opened Chains
  import opened ArchiveDb
  import opened BmmTable
  import opened ArchiveRuns
  import opened AncestorWalks
  import opened Resubmission
  import opened MemPool
  import opened PoolReturns
  import opened Signatures
  import opened BetterTip
  import opened TipOrder
  import opened ActiveChain
  import opened Nodes
  import opened ReorgPath
  import opened Reorgs
  import opened ReorgGoal

  /** What the node keeps between operations: an exact archive and pool, and a
    * state that is the fold of the blocks of its chain. */
  ghost predicate Consistent(cr: Crypto, init: State, s: Snapshot) {
    && ArchiveOk(s.db) && Exact(s.txs, s.spent) && OneEach(Known(s.db, s.txs))
    && Follows(cr, init, s.db, s.st)
  }

  lemma ConsistentIsGood(cr: Crypto, init: State, s: Snapshot)
    requires Consistent(cr, init, s)
    ensures Good(cr, init, s.db, Known(s.db, s.txs), s)
  {
    hide ArchiveOk, Exact, Known, Follows, OneEach, SameArchive;
    SameSelf(s.db);
  }

  lemma GoodIsConsistent(cr: Crypto, init: State, db: Db, known: set<Transaction>, s: Snapshot)
    requires Good(cr, init, db, known, s)
    ensures Consistent(cr, init, s)
  {
    hide ArchiveOk, Exact, Known, Follows, OneEach;
    GoodParts(cr, init, db, known, s);
    FollowsSame(cr, init, db, s.db, s.st);
    SameKnown(db, s.db, s.txs);
    OneEachBelow(Known(s.db, s.txs), known);
  }

  lemma SameKnown(db: Db, db': Db, txs: PoolTxs)
    requires db'.bodies == db.bodies
    ensures Known(db', txs) == Known(db, txs)
  {
  }

  /** A consistent node that loses the body of a block off its chain. */
  lemma ConsistentWithout(cr: Crypto, init: State, s: Snapshot, b: Hash)
    requires Consistent(cr, init, s) && b in s.db.bodies && b !in Hashes(s.db, s.st.tip)
    ensures Consistent(cr, init, s.(db := DeleteBody(s.db, b, s.db.bodies[b])))
  {
    hide ArchiveOk, Exact, Known, Follows, OneEach, DeleteBody, Hashes;
    var body := s.db.bodies[b];
    ApplyKeepsArchive(s.db, OpDeleteBody(b, body));
    FollowsWithout(cr, init, s.db, s.st, b, body);
    FewerKnown(s.db, b, body, s.txs);
    OneEachBelow(Known(DeleteBody(s.db, b, body), s.txs), Known(s.db, s.txs));
  }

  lemma FewerKnown(db: Db, b: Hash, body: Body, txs: PoolTxs)
    ensures Known(DeleteBody(db, b, body), txs) <= Known(db, txs)
  {
    hide RemoveInclusions;
  }

  /** Where a failed reorg leaves the node. It kept what it had, or a block of the
    * new chain that the comparison preferred to the old tip. If a block proved
    * invalid, its body is gone, and nothing else changed. */
  ghost predicate FailedReorg(cr: Crypto, init: State, before: Snapshot, was: Option<Tip>, target: Hash, e: NodeError,
                              kept: Snapshot, now: Snapshot) {
    && (kept == before ||
        (exists x :: kept.st.tip == Some(x) && IsAncestor(before.db.side.parent, x, target) && Accepted(before.db, was, x)))
    && SameArchive(before.db, kept.db) && Consistent(cr, init, kept)
    && (now == kept ||
        (e.StateFailed? &&
         exists y :: IsAncestor(before.db.side.parent, y, target) && Invalid(cr, init, before.db, y) &&
                     now == kept.(db := DeleteBody(kept.db, y, before.db.bodies[y]))))
  }

  lemma NothingHappened(cr: Crypto, init: State, s: Snapshot, was: Option<Tip>, target: Hash, e: NodeError)
    requires Consistent(cr, init, s)
    ensures FailedReorg(cr, init, s, was, target, e, s, s)
  {
    hide Consistent;
    SameSelf(s.db);
  }

  /** A failure on the path, for the whole reorg. */
  lemma PathFailed(cr: Crypto, init: State, before: Snapshot, known: set<Transaction>, was: Option<Tip>, target: Hash,
                   common: Option<Hash>, n: nat, e: NodeError, kept: Snapshot, now: Snapshot)
    requires TablesOk(before.db) && target in before.db.headers && Good(cr, init, before.db, known, before)
    requires before.st.tip.Some? ==> before.st.tip.value in before.db.headers && IsCommon(before.db.side, before.st.tip.value, target, common)
    requires common.Some? ==>
               before.st.tip.Some? && common.value != target && IsAncestor(before.db.side.parent, common.value, target)
    requires var hs := PathTo(before.db, target, common);
             && n < |hs| && Kept(cr, init, before.db, known, was, hs, n, before, kept)
             && FellBack(cr, init, before.db, hs, n, e, kept, now)
    ensures FailedReorg(cr, init, before, was, target, e, kept, now) && Consistent(cr, init, now)
  {
    hide TablesOk, Good, Consistent, IsAncestor, PathTo, Hashes, Accepted, Invalid, SameArchive, IsCommon, DeleteBody;
    var hs := PathTo(before.db, target, common);
    KeptGood(cr, init, before.db, known, was, hs, n, before, kept);
    GoodIsConsistent(cr, init, before.db, known, kept);
    GoodParts(cr, init, before.db, known, kept);
    forall i | 0 <= i < |hs| ensures IsAncestor(before.db.side.parent, hs[i], target) { PathAncestor(before.db, target, common, i); }
    if !IsFatal(e) {
      OffChain(cr, init, before, known, was, target, common, n, kept);
      ConsistentWithout(cr, init, kept, hs[n]);
    }
  }

  lemma PathAncestor(db: Db, b: Hash, common: Option<Hash>, i: nat)
    requires TablesOk(db) && b in db.headers && i < |PathTo(db, b, common)|
    requires common.Some? ==> common.value != b && IsAncestor(db.side.parent, common.value, b)
    ensures IsAncestor(db.side.parent, PathTo(db, b, common)[i], b)
  {
    hide TablesOk, IsAncestor, PathTo, Hashes;
    PathContinues(db, b, common);
    var k := |Hashes(db, common)| + i;
    assert Hashes(db, Some(b))[k] == PathTo(db, b, common)[i];
    OnChain(db, Some(b), Hashes(db, Some(b))[k]);
  }

  /** The invalid block is not on the chain that the node kept. */
  lemma OffChain(cr: Crypto, init: State, before: Snapshot, known: set<Transaction>, was: Option<Tip>, target: Hash,
                 common: Option<Hash>, n: nat, kept: Snapshot)
    requires TablesOk(before.db) && target in before.db.headers && SameArchive(before.db, kept.db)
    requires before.st.tip.Some? ==> before.st.tip.value in before.db.headers && IsCommon(before.db.side, before.st.tip.value, target, common)
    requires common.Some? ==>
               before.st.tip.Some? && common.value != target && IsAncestor(before.db.side.parent, common.value, target)
    requires var hs := PathTo(before.db, target, common);
             n < |hs| && Kept(cr, init, before.db, known, was, hs, n, before, kept)
    ensures PathTo(before.db, target, common)[n] !in Hashes(kept.db, kept.st.tip)
  {
    hide TablesOk, Good, IsAncestor, PathTo, From, Accepted, IsCommon;
    var db, hs := before.db, PathTo(before.db, target, common);
    assert Hashes(kept.db, kept.st.tip) == Hashes(db, kept.st.tip);
    if kept == before {
      PathIsNew(db, before.st.tip, target, common, hs[n]);
    } else {
      var j :| 0 <= j < n && kept.st.tip == Some(hs[j]) && Accepted(db, was, hs[j]);
      LaterNotBelow(db, target, common, j, n);
    }
  }

  lemma LaterNotBelow(db: Db, b: Hash, common: Option<Hash>, j: nat, n: nat)
    requires TablesOk(db) && b in db.headers && j < n < |PathTo(db, b, common)|
    requires common.Some? ==> common.value != b && IsAncestor(db.side.parent, common.value, b)
    ensures PathTo(db, b, common)[n] !in Hashes(db, Some(PathTo(db, b, common)[j]))
  {
    hide TablesOk, IsAncestor, PathTo, Hashes;
    PathContinues(db, b, common);
    var base, hs, all := Hashes(db, common), PathTo(db, b, common), Hashes(db, Some(b));
    assert all[|base| + j] == hs[j] && all[|base| + n] == hs[n];
    ChainEntry(db, b, |base| + j);
    ChainEntry(db, b, |base| + n);
    HashesStep(db, hs[j]);
    HashesStep(db, hs[n]);
    if hs[n] in Hashes(db, Some(hs[j])) { OnChain(db, Some(hs[j]), hs[n]); }
  }

  // ----- the start -----

  /** The current tip with its best verification. */
  method CurrentTip(db: Db, tip: Option<Hash>) returns (r: Result<Option<Tip>, NodeError>)
    requires ArchiveOk(db) && (tip.Some? ==> tip.value in db.headers)
    ensures r.Ok? ==> (r.value.Some? <==> tip.Some?)
    ensures r.Ok? && tip.Some? ==> r.value.value.block == tip.value && IsBest(db, tip.value, r.value.value.main)
    ensures r.Err? ==> IsFatal(r.error) && tip.Some? && forall m :: !IsVerified(db, tip.value, m)
  {
    hide ArchiveOk, IsVerified, IsBest;
    if tip.None? { return Ok(None); }
    forall m | IsVerified(db, tip.value, m) ensures m in db.work { VerifiedHasWork(db, tip.value, m); }
    var best := BestMain(db, tip.value);
    if best.None? { return Err(NoBmmResult); }
    return Ok(Some(Tip(tip.value, best.value)));
  }

  /** How many blocks to disconnect, and what the tip is then. */
  lemma DisconnectCount(cr: Crypto, init: State, db: Db, st: State, b: Hash, common: Option<Hash>)
    requires Start(init) && ArchiveOk(db) && Follows(cr, init, db, st) && st.tip.Some? && b in db.headers
    requires IsCommon(db.side, st.tip.value, b, common)
    ensures st.tip.value in db.side.height && st.height == Some(db.side.height[st.tip.value])
    ensures common.Some? ==> common.value in db.side.height && db.side.height[common.value] <= st.height.value
    ensures common.Some? ==> IsAncestor(db.side.parent, common.value, b) && IsAncestor(db.side.parent, common.value, st.tip.value)
    ensures var count := if common.Some? then st.height.value - db.side.height[common.value] else st.height.value + 1;
            TipBelow(db, st.tip, count) == common
  {
    hide Start, Follows, TablesOk, IsAncestor, Valid, Nth, OneGenesis, BmmOk, WorkOk, TipBelow;
    var a := st.tip.value;
    ArchiveTables(db);
    SideKeys(db);
    FollowsHeight(cr, init, db, st);
    if common.Some? {
      AncestorAt(db.side, common.value, a);
      TipBelowNth(db, a, db.side.height[a] - db.side.height[common.value]);
    } else {
      TipBelowNth(db, a, db.side.height[a] + 1);
      NthAt(db.side, a, db.side.height[a] + 1);
    }
  }

  lemma FollowsTip(cr: Crypto, init: State, db: Db, st: State)
    requires Follows(cr, init, db, st)
    ensures st.tip.Some? ==> st.tip.value in db.headers
    ensures HasBlocks(db, Hashes(db, st.tip))
  {
  }

  /** The chain of an ancestor is stored when the chain is. */
  lemma BaseStored(db: Db, tip: Option<Hash>, common: Option<Hash>)
    requires TablesOk(db) && (tip.Some? ==> tip.value in db.headers) && HasBlocks(db, Hashes(db, tip))
    requires common.Some? ==> tip.Some? && IsAncestor(db.side.parent, common.value, tip.value)
    ensures HasBlocks(db, Hashes(db, common))
  {
    hide TablesOk, IsAncestor, From, Above;
    if common.Some? {
      SideKeys(db);
      ChainAbove(db, tip.value, common.value);
      var base := Hashes(db, common);
      assert forall i :: 0 <= i < |base| ==> Hashes(db, tip)[i] == base[i];
    }
  }

  // ----- the reorg -----

  /** What to disconnect to and what to apply. */
  datatype Plan = Plan(was: Option<Tip>, common: Option<Hash>, blocks: seq<Block>)

  ghost predicate Planned(db: Db, tip: Option<Hash>, target: Tip, p: Plan)
    requires TablesOk(db)
  {
    && target.block in db.headers
    && (p.was.Some? <==> tip.Some?)
    && (tip.Some? ==> p.was.value.block == tip.value && IsBest(db, tip.value, p.was.value.main) &&
                      Answers(db, p.was.value, target) && Chose(db, p.was.value, target) &&
                      IsCommon(db.side, tip.value, target.block, p.common))
    && (p.common.Some? ==>
          tip.Some? && IsAncestor(db.side.parent, p.common.value, target.block) &&
          IsAncestor(db.side.parent, p.common.value, tip.value))
    && HasBlocks(db, PathTo(db, target.block, p.common))
    && Reverse(p.blocks) == BlocksAt(db, PathTo(db, target.block, p.common))
  }

  /** The new tip is the current one or an ancestor of it. */
  ghost predicate Below(db: Db, tip: Option<Hash>, b: Hash) {
    tip.Some? && IsAncestor(db.side.parent, b, tip.value)
  }

  /** No answer of the comparison makes the node move to `target`. */
  ghost predicate NotBetter(db: Db, tip: Option<Hash>, target: Tip) {
    tip.Some? && exists m :: IsBest(db, tip.value, m) && !Chose(db, Tip(tip.value, m), target)
  }

  /** The comparison with the current tip looked something up that is not stored. */
  ghost predicate CannotCompare(db: Db, tip: Option<Hash>, target: Tip) {
    && tip.Some?
    && ((forall m :: !IsVerified(db, tip.value, m)) ||
        exists m :: IsBest(db, tip.value, m) && !Answers(db, Tip(tip.value, m), target))
  }

  /** A block of the chain of `b` is not stored. */
  ghost predicate PathMissing(db: Db, b: Hash) {
    b !in db.headers || exists x :: IsAncestor(db.side.parent, x, b) && x !in db.bodies
  }

  /** Compares the tips and looks up the blocks; nothing is written. */
  method MakePlan(db: Db, tip: Option<Hash>, target: Tip) returns (r: Result<Option<Plan>, NodeError>)
    requires ArchiveOk(db) && TablesOk(db) && (tip.Some? ==> tip.value in db.headers)
    ensures r.Err? ==> IsFatal(r.error) && (CannotCompare(db, tip, target) || PathMissing(db, target.block))
    ensures r.Ok? && r.value.None? ==> NotBetter(db, tip, target)
    ensures r.Ok? && r.value.Some? ==> Planned(db, tip, target, r.value.value)
  {
    hide ArchiveOk, IsAncestor, IsBest, Chose, FirstAbove, Reverse, PathTo, Valid, OneGenesis, IsLca, Comparable, Rated, Better, Scored,
      TablesOk, IsVerified, Answers, Plain, CannotCompare, PathMissing, NotBetter;
    ArchiveScored(db);
    var was := CurrentTip(db, tip);
    if was.Err? {
      NoVerification(db, tip, target);
      return Err(was.error);
    }
    var common: Option<Hash> := None;
    if was.value.Some? {
      var answer, c := Compare(db, was.value.value, target);
      if answer.Err? {
        NoAnswer(db, tip, target, was.value.value.main);
        return Err(ArchiveFailed(answer.error));
      }
      if answer.value != Some(target) {
        NoBetter(db, tip, target, was.value.value.main, c, answer.value);
        return Ok(None);
      }
      ChoseNow(db, was.value.value, target, c);
      var lca := LastCommonAncestor(db.side, tip.value, target.block);
      // both blocks are stored, or the comparison had failed
      common := lca.value;
      LcaBelow(db, tip.value, target.block, common);
    }
    var blocks := CollectBlocks(db, target.block, common);
    if blocks.Err? {
      NoPath(db, target.block, common);
      return Err(ArchiveFailed(blocks.error));
    }
    return Ok(Some(Plan(was.value, common, blocks.value)));
  }

  lemma NoVerification(db: Db, tip: Option<Hash>, target: Tip)
    requires tip.Some? && forall m :: !IsVerified(db, tip.value, m)
    ensures CannotCompare(db, tip, target)
  {
    hide IsVerified, IsBest, Answers;
  }

  lemma NoAnswer(db: Db, tip: Option<Hash>, target: Tip, m: Hash)
    requires tip.Some? && IsBest(db, tip.value, m) && !Answers(db, Tip(tip.value, m), target)
    ensures CannotCompare(db, tip, target)
  {
    hide IsVerified, IsBest, Answers;
  }

  lemma PathEntry(db: Db, b: Hash, common: Option<Hash>, i: nat)
    requires TablesOk(db) && b in db.headers && i < |PathTo(db, b, common)|
    ensures var x := PathTo(db, b, common)[i]; x in db.headers && IsAncestor(db.side.parent, x, b)
  {
    hide TablesOk, IsAncestor, From, Valid;
    SideKeys(db);
    AncestorRefl(db.side.parent, b);
    if i < |PathTo(db, b, common)| - 1 {
      var q := db.headers[b].prevSide.value;
      SideFacts(db, b);
      var x := PathTo(db, b, common)[i];
      assert x == Above(db.side, q, common)[i];
      FromEntries(db.side, q, 0);
      if common.Some? && common.value in db.side.height { FromEntries(db.side, q, db.side.height[common.value] + 1); }
      AncestorStep(db.side.parent, x, b);
    }
  }

  lemma NoPath(db: Db, b: Hash, common: Option<Hash>)
    requires TablesOk(db) && (b !in db.headers || !HasBlocks(db, PathTo(db, b, common)))
    ensures PathMissing(db, b)
  {
    hide TablesOk, IsAncestor, PathTo;
    if b in db.headers {
      var hs := PathTo(db, b, common);
      var i :| 0 <= i < |hs| && !(hs[i] in db.headers && hs[i] in db.bodies);
      PathEntry(db, b, common, i);
    }
  }

  lemma NoBetter(db: Db, tip: Option<Hash>, target: Tip, m: Hash, c: Option<Hash>, answer: Option<Tip>)
    requires tip.Some? && IsBest(db, tip.value, m) && answer != Some(target) && !FirstAbove(db, Tip(tip.value, m), target)
    requires var was := Tip(tip.value, m);
             Comparable(db, was) && Comparable(db, target) ==>
               Rated(db, was, target, c) && Rated(db, target, was, c) && Better(db, c, was, target) == answer
    ensures NotBetter(db, tip, target)
  {
    hide Comparable, Rated, Better, IsBest, Chose, FirstAbove;
    NotChosen(db, Tip(tip.value, m), target, c, answer);
  }

  lemma ArchiveScored(db: Db)
    requires ArchiveOk(db)
    ensures TablesOk(db) && Scored(db) && Valid(db.side) && db.side.height.Keys == db.side.parent.Keys == db.headers.Keys
  {
    hide Valid, BmmOk;
    ArchiveFacts(db);
  }

  lemma LcaBelow(db: Db, tip: Hash, b: Hash, common: Option<Hash>)
    requires TablesOk(db) && tip in db.headers && b in db.headers
    requires tip in db.side.height && b in db.side.height && (common.None? <==> !OneGenesis(db.side, tip, b))
    requires common.Some? ==> IsLca(db.side.parent, tip, b, common.value)
    ensures IsCommon(db.side, tip, b, common)
    ensures common.Some? ==>
              && IsAncestor(db.side.parent, common.value, b)
              && IsAncestor(db.side.parent, common.value, tip)
  {
    hide TablesOk, IsAncestor, OneGenesis;
  }

  /** An ancestor of the current tip is the common ancestor of the two. */
  lemma BelowIsCommon(db: Db, tip: Hash, b: Hash, common: Option<Hash>)
    requires TablesOk(db) && tip in db.headers && b in db.headers && IsCommon(db.side, tip, b, common)
    requires common.Some? ==> IsAncestor(db.side.parent, common.value, tip)
    ensures common == Some(b) <==> IsAncestor(db.side.parent, b, tip)
  {
    hide TablesOk, IsAncestor, OneGenesis, Valid;
    SideKeys(db);
    if IsAncestor(db.side.parent, b, tip) {
      AncestorRefl(db.side.parent, b);
      SharedGenesis(db.side, tip, b, b);
      AncestorHeight(db.side, common.value, b);
      AncestorHeight(db.side, b, common.value);
    }
  }

  /** The node lost the body of the first block of the chain of `b`, and nothing else. */
  ghost predicate LostGenesis(before: Snapshot, b: Hash, now: Snapshot) {
    exists g :: && g in before.db.headers && before.db.headers[g].prevSide.None?
                && IsAncestor(before.db.side.parent, g, b) && LostBody(before, g, now)
  }

  /** `target` is not a first block, and has more work than every verification of the tip. */
  ghost predicate MoreWork(db: Db, tip: Hash, target: Tip) {
    && target.block in db.side.height && db.side.height[target.block] > 0 && target.main in db.work
    && forall m :: IsVerified(db, tip, m) ==> m in db.work && db.work[m] < db.work[target.main]
  }

  /** All blocks of the chain of the tip are stored. */
  lemma BelowStored(cr: Crypto, init: State, s: Snapshot, b: Hash)
    requires Consistent(cr, init, s) && Below(s.db, s.st.tip, b)
    ensures s.st.tip.value in s.db.headers && b in s.db.headers && !PathMissing(s.db, b)
  {
    hide ArchiveOk, TablesOk, IsAncestor, Valid, Exact, Known, OneEach, From, Fold, FreshChain, Nth;
    var db, tip := s.db, s.st.tip.value;
    ArchiveTables(db);
    SideKeys(db);
    AncestorHeight(db.side, b, tip);
    forall x | IsAncestor(db.side.parent, x, b) ensures x in db.bodies {
      AncestorTrans(db.side.parent, x, b, tip);
      AncestorAt(db.side, x, tip);
      AboveHas(db.side, tip, 0, db.side.height[tip] - db.side.height[x], x);
      assert x in Hashes(db, s.st.tip);
    }
  }

  lemma MainsBelow(db: Db, tip: Hash, b: Hash)
    requires MainsStored(db, tip) && IsAncestor(db.side.parent, b, tip)
    ensures MainsStored(db, b)
  {
    hide IsAncestor;
    forall x | IsAncestor(db.side.parent, x, b) ensures x in db.headers && db.headers[x].prevMain in db.main.parent {
      AncestorTrans(db.side.parent, x, b, tip);
    }
  }

  /** Below the tip the comparison is sure to answer, unless the target has more work. */
  lemma BelowAnswers(db: Db, tip: Hash, target: Tip, m: Hash)
    requires ArchiveOk(db) && tip in db.headers && target.block in db.headers && IsBest(db, tip, m)
    requires IsAncestor(db.side.parent, target.block, tip) && IsVerified(db, target.block, target.main)
    ensures Comparable(db, Tip(tip, m)) && Comparable(db, target)
    ensures Answers(db, Tip(tip, m), target) || (MoreWork(db, tip, target) && !MainsStored(db, tip))
  {
    hide ArchiveOk, TablesOk, IsAncestor, Valid, IsVerified, MainsStored, Answers, WorkOk;
    if MainsStored(db, tip) { MainsBelow(db, tip, target.block); }
    ArchiveScored(db);
    VerifiedHasWork(db, tip, m);
    VerifiedHasWork(db, target.block, target.main);
    AncestorHeight(db.side, target.block, tip);
    if Plain(db, Tip(tip, m), target) || MainsStored(db, tip) { StoredAnswers(db, Tip(tip, m), target); }
  }

  /** What the comparison answers below the tip. */
  lemma BelowChosen(db: Db, tip: Hash, target: Tip, m: Hash)
    requires ArchiveOk(db) && tip in db.headers && target.block in db.headers && IsBest(db, tip, m)
    requires IsAncestor(db.side.parent, target.block, tip) && IsVerified(db, target.block, target.main)
    ensures Chose(db, Tip(tip, m), target) <==> MoreWork(db, tip, target)
  {
    hide ArchiveOk, TablesOk, IsAncestor, Valid, IsVerified, MainsStored, Rated, Better, BmmValid, IsCommon;
    var was := Tip(tip, m);
    ArchiveScored(db);
    MainValid(db);
    BelowAnswers(db, tip, target, m);
    VerifiedIsValid(db, tip, m);
    VerifiedIsValid(db, target.block, target.main);
    var c := CommonExists(db.main, m, target.main);
    MakeRated(db, was, target, c);
    RatedSymmetric(db, was, target, c);
    BelowTipIff(db, was, target, c);
    AncestorHeight(db.side, target.block, tip);
    if Better(db, c, was, target) != Some(target) { NotChosen(db, was, target, c, Better(db, c, was, target)); }
  }

  lemma VerifiedIsValid(db: Db, b: Hash, m: Hash)
    requires ArchiveOk(db) && b in db.headers && IsVerified(db, b, m)
    ensures BmmValid(db, b, m)
  {
    hide TablesOk, WorkOk;
  }

  lemma MakeRated(db: Db, a: Tip, t: Tip, c: Option<Hash>)
    requires Scored(db) && Comparable(db, a) && Comparable(db, t) && IsCommon(db.main, a.main, t.main, c)
    requires c.Some? ==> c.value in db.main.parent
    ensures Rated(db, a, t, c)
  {
  }

  /** The plan fails below the tip only if the target has more work. */
  lemma BelowNoError(cr: Crypto, init: State, s: Snapshot, target: Tip)
    requires Consistent(cr, init, s) && Below(s.db, s.st.tip, target.block) && ArchiveOk(s.db)
    requires CannotCompare(s.db, s.st.tip, target) || PathMissing(s.db, target.block)
    ensures IsVerified(s.db, target.block, target.main) && (exists m :: IsVerified(s.db, s.st.tip.value, m)) ==>
              MoreWork(s.db, s.st.tip.value, target) && !MainsStored(s.db, s.st.tip.value)
  {
    hide Consistent, ArchiveOk, IsAncestor, IsVerified, IsBest, Answers, MoreWork, PathMissing, MainsStored;
    BelowStored(cr, init, s, target.block);
    var db, tip := s.db, s.st.tip.value;
    if IsVerified(db, target.block, target.main) && exists m :: IsVerified(db, tip, m) {
      var m :| IsBest(db, tip, m) && !Answers(db, Tip(tip, m), target);
      BelowAnswers(db, tip, target, m);
    }
  }

  lemma BelowRefused(cr: Crypto, init: State, s: Snapshot, target: Tip)
    requires Consistent(cr, init, s) && Below(s.db, s.st.tip, target.block) && ArchiveOk(s.db)
    requires NotBetter(s.db, s.st.tip, target)
    ensures IsVerified(s.db, target.block, target.main) ==> !MoreWork(s.db, s.st.tip.value, target)
  {
    hide Consistent, ArchiveOk, IsAncestor, IsVerified, IsBest, Chose, MoreWork, PathMissing;
    BelowStored(cr, init, s, target.block);
    var db, tip := s.db, s.st.tip.value;
    if IsVerified(db, target.block, target.main) {
      var m :| IsBest(db, tip, m) && !Chose(db, Tip(tip, m), target);
      BelowChosen(db, tip, target, m);
    }
  }

  lemma BelowPlanned(db: Db, tip: Option<Hash>, target: Tip, p: Plan)
    requires ArchiveOk(db) && TablesOk(db) && Planned(db, tip, target, p) && (tip.Some? ==> tip.value in db.headers)
    ensures p.common == Some(target.block) <==> Below(db, tip, target.block)
    ensures Below(db, tip, target.block) && IsVerified(db, target.block, target.main) ==> MoreWork(db, tip.value, target)
  {
    hide ArchiveOk, TablesOk, IsAncestor, IsVerified, IsBest, Chose, MoreWork, PathTo, HasBlocks, BlocksAt, Reverse, IsCommon, Comparable;
    if tip.Some? {
      BelowIsCommon(db, tip.value, target.block, p.common);
      if Below(db, tip, target.block) && IsVerified(db, target.block, target.main) {
        BelowAnswers(db, tip.value, target, p.was.value.main);
        BelowChosen(db, tip.value, target, p.was.value.main);
      }
    }
  }

  /** With everything ready, planning does not fail. */
  lemma SurePlan(cr: Crypto, init: State, s: Snapshot, target: Tip)
    requires TablesOk(s.db) && Ready(cr, init, s, target.block) && SurelyWins(s.db, s.st.tip, target)
    ensures !CannotCompare(s.db, s.st.tip, target) && !PathMissing(s.db, target.block) && !NotBetter(s.db, s.st.tip, target)
  {
    hide TablesOk, IsAncestor, Answers, Chose, IsBest, IsVerified, SurelyCompares, Hashes, Fold, NewBlock, Connectable, Welcome, OffEntries;
    var db, b := s.db, target.block;
    forall x | IsAncestor(db.side.parent, x, b) ensures x in db.bodies {
      InHashes(db, b, x);
      var hs := Hashes(db, Some(b));
      var i :| 0 <= i < |hs| && hs[i] == x;
    }
  }

  /** Nor does carrying the plan out. */
  lemma SurePath(cr: Crypto, init: State, s: Snapshot, target: Tip, p: Plan)
    requires TablesOk(s.db) && Planned(s.db, s.st.tip, target, p) && (s.st.tip.Some? ==> s.st.tip.value in s.db.headers)
    requires Ready(cr, init, s, target.block) && SurelyWins(s.db, s.st.tip, target) && p.common != Some(target.block)
    ensures var hs := PathTo(s.db, target.block, p.common); SurelyApplies(cr, init, s.db, p.was, hs, |hs|)
    ensures Welcome(s.spent.Keys, Transactions(OffEntries(s.db, s.st.tip, target.block)))
  {
    hide TablesOk, IsAncestor, PathTo, IsCommon, Chose, IsBest, HasBlocks, BlocksAt, Reverse, Answers, NewBlock, Connectable, Welcome,
      OffEntries, ValidChain, SurelyApplies, Fork, IsVerified;
    PlannedFork(s.db, s.st.tip, target, p);
    forall x | NewBlock(s.db, s.st.tip, target.block, x) ensures Connectable(s.db, x) && SurelyCompares(s.db, p.was, x) {
      if s.st.tip.Some? { assert SurelyBeats(s.db, p.was.value, target); }
    }
    PathSure(cr, init, s.db, s.st.tip, target.block, p.common, p.was);
  }

  /** What a reorg that reached its target has shown. */
  lemma ReachedSo(cr: Crypto, init: State, s: Snapshot, target: Tip, p: Plan)
    requires Consistent(cr, init, s) && TablesOk(s.db) && Planned(s.db, s.st.tip, target, p) && Trusted(cr, init, s.db, target.block)
    requires (s.st.tip.Some? ==> s.st.tip.value in s.db.headers) && p.common != Some(target.block)
    requires var hs := PathTo(s.db, target.block, p.common); MayApply(cr, init, s.db, p.was, hs, |hs|)
    requires Welcome(s.spent.Keys, Transactions(OffEntries(s.db, s.st.tip, target.block)))
    ensures Ready(cr, init, s, target.block) && MayWin(s.db, s.st.tip, target)
  {
    hide Consistent, TablesOk, IsAncestor, PathTo, IsCommon, Chose, IsBest, HasBlocks, BlocksAt, Reverse, Answers, NewBlock, Connectable,
      Welcome, OffEntries, ValidChain, MayApply, MayCompare, Fork, Trusted, GoodPath;
    PlannedFork(s.db, s.st.tip, target, p);
    PlanPath(cr, init, s, target, p);
    PathMay(cr, init, s.db, s.st.tip, target.block, p.common, p.was);
    if s.st.tip.Some? { assert MayBeat(s.db, p.was.value, target); }
  }

  /** Moves the node to the new tip if that is better.
    * Ok(false): nothing changed. Ok(true): the state is the fold of the blocks of
    * the new chain. An error leaves a consistent node too, at the old tip or at a
    * better block of the new chain.
    * It reaches the target if the chain of that is valid, everything that is looked
    * up is stored, the pool can take the transactions of the disconnected blocks and
    * the comparison picks the target, and only then; its one freedom is which of
    * several best verifications of a block to take.
    * All of this holds for a target that is not on the chain of the node. One that
    * is there is never reached: it is refused, unless it has more work and is not a
    * first block; then the node applies its chain from the first block on, fails
    * there, and falls back to where it was, but for the body of that block. */
  method ReorgToTip(node: Node, cr: Crypto, target: Tip, ghost init: State)
    returns (r: Result<bool, NodeError>, ghost was: Option<Tip>, ghost kept: Snapshot)
    requires Start(init) && Consistent(cr, init, Current(node)) && Trusted(cr, init, node.archive.View(), target.block)
    modifies node.archive, node.state, node.pool
    ensures r == Ok(false) ==> Current(node) == old(Current(node)) && NotBetter(node.archive.View(), node.state.tip, target)
    ensures !Below(old(node.archive.View()), old(node.state.tip), target.block) ==>
              && Consistent(cr, init, Current(node))
              && (r.Err? ==> FailedReorg(cr, init, old(Current(node)), was, target.block, r.error, kept, Current(node)))
    ensures r == Ok(true) ==>
              && !Below(old(node.archive.View()), old(node.state.tip), target.block)
              && node.state.tip == Some(target.block) && SameArchive(old(node.archive.View()), node.archive.View())
              && (old(node.state.tip).Some? ==>
                    was.Some? && was.value.block == old(node.state.tip).value && Chose(old(node.archive.View()), was.value, target))
    ensures r == Ok(true) ==>
              && Ready(cr, init, old(Current(node)), target.block) && MayWin(old(node.archive.View()), old(node.state.tip), target)
              && PoolMoved(old(Current(node)), target.block, node.pool.txs)
    ensures !Below(old(node.archive.View()), old(node.state.tip), target.block) &&
            Ready(cr, init, old(Current(node)), target.block) && SurelyWins(old(node.archive.View()), old(node.state.tip), target) ==>
              r == Ok(true)
    ensures !Below(old(node.archive.View()), old(node.state.tip), target.block) &&
            Untied(old(node.archive.View()), old(node.state.tip), target.block) ==>
              (r == Ok(true) <==>
                 Ready(cr, init, old(Current(node)), target.block) && SurelyWins(old(node.archive.View()), old(node.state.tip), target))
    ensures Below(old(node.archive.View()), old(node.state.tip), target.block) && r.Err? ==>
              if IsFatal(r.error) then Current(node) == old(Current(node))
              else LostGenesis(old(Current(node)), target.block, Current(node))
    ensures Below(old(node.archive.View()), old(node.state.tip), target.block) &&
            IsVerified(old(node.archive.View()), target.block, target.main) &&
            (exists m :: IsVerified(old(node.archive.View()), old(node.state.tip).value, m)) ==>
              && (r == Ok(false) <==> !MoreWork(old(node.archive.View()), old(node.state.tip).value, target))
              && (r.Err? && MainsStored(old(node.archive.View()), old(node.state.tip).value) ==>
                    r.error.PoolFailed? || r.error.StateFailed?)
  {
    hide ArchiveOk, Start, Consistent, Follows, Good, TablesOk, IsAncestor, Planned, SameArchive, Chose, FailedReorg, Trusted, IsBest, Known,
      NotBetter, CannotCompare, PathMissing, LostGenesis, MoreWork, IsVerified, Below, MainsStored, Ready, SurelyWins, MayWin, PoolMoved,
      MayApply, SurelyApplies, Welcome, OffEntries, PathTo, Untied;
    var start := Current(node);
    ghost var db := start.db;
    was, kept := None, start;
    ConsistentParts(cr, init, start);
    var plan := MakePlan(start.db, start.st.tip, target);
    if Ready(cr, init, start, target.block) && SurelyWins(db, start.st.tip, target) { SurePlan(cr, init, start, target); }
    if plan.Err? {
      NothingHappened(cr, init, start, was, target.block, plan.error);
      if Below(db, start.st.tip, target.block) { BelowNoError(cr, init, start, target); }
      return Err(plan.error), was, kept;
    }
    if plan.value.None? {
      if Below(db, start.st.tip, target.block) { BelowRefused(cr, init, start, target); }
      return Ok(false), was, kept;
    }
    was := plan.value.value.was;
    PlannedWas(db, start.st.tip, target, plan.value.value);
    BelowPlanned(db, start.st.tip, target, plan.value.value);
    var done;
    done, kept := CarryOut(node, cr, plan.value.value, target, start, init);
    if done.Err? {
      if Ready(cr, init, start, target.block) && SurelyWins(db, start.st.tip, target) && !Below(db, start.st.tip, target.block) {
        SurePath(cr, init, start, target, plan.value.value);
      }
      return Err(done.error), was, kept;
    }
    ReachedSo(cr, init, start, target, plan.value.value);
    if Untied(db, start.st.tip, target.block) { NoTies(db, start.st.tip, target); }
    return Ok(true), was, kept;
  }

  lemma ConsistentParts(cr: Crypto, init: State, s: Snapshot)
    requires Consistent(cr, init, s)
    ensures ArchiveOk(s.db) && TablesOk(s.db) && (s.st.tip.Some? ==> s.st.tip.value in s.db.headers)
  {
    hide Exact, Known, OneEach, BmmOk, WorkOk;
  }

  lemma PlannedWas(db: Db, tip: Option<Hash>, target: Tip, p: Plan)
    requires TablesOk(db) && Planned(db, tip, target, p)
    ensures tip.Some? ==> p.was.Some? && p.was.value.block == tip.value && Chose(db, p.was.value, target)
  {
    hide Chose, IsBest, IsCommon, IsAncestor, TablesOk, Answers;
  }

  /** How many blocks of the old chain are not on the new one. */
  method CountDown(cr: Crypto, start: Snapshot, target: Tip, p: Plan, ghost init: State) returns (count: nat)
    requires Start(init) && Consistent(cr, init, start) && TablesOk(start.db)
    requires Planned(start.db, start.st.tip, target, p)
    ensures start.st.tip.None? ==> count == 0 && p.common.None?
    ensures start.st.tip.Some? ==> start.st.tip.value in start.db.side.height && count <= start.db.side.height[start.st.tip.value] + 1
    ensures TipBelow(start.db, start.st.tip, count) == p.common
  {
    hide ArchiveOk, Start, Exact, Follows, TablesOk, IsAncestor, PathTo, IsCommon, Chose, IsBest, Known, OneEach, HasBlocks, BlocksAt, Reverse;
    count := 0;
    if start.st.tip.Some? {
      DisconnectCount(cr, init, start.db, start.st, target.block, p.common);
      var height := start.st.height.value;
      count := if p.common.Some? then height - start.db.side.height[p.common.value] else height + 1;
    } else {
      TipBelowZero(start.db, start.st.tip);
    }
  }

  /** Facts of the plan that applying the path needs. */
  lemma PlanPath(cr: Crypto, init: State, start: Snapshot, target: Tip, p: Plan)
    requires Consistent(cr, init, start) && TablesOk(start.db) && Planned(start.db, start.st.tip, target, p)
    requires Trusted(cr, init, start.db, target.block) && p.common != Some(target.block)
    ensures target.block in start.db.headers
    ensures var hs := PathTo(start.db, target.block, p.common);
            && hs != [] && hs[|hs| - 1] == target.block && HasBlocks(start.db, hs)
            && Reverse(p.blocks) == BlocksAt(start.db, hs) && GoodPath(cr, init, start.db, p.common, hs)
  {
    hide ArchiveOk, Exact, Follows, TablesOk, IsAncestor, PathTo, IsCommon, Chose, IsBest, Known, OneEach, Trusted, Hashes,
      HasBlocks, BlocksAt, Reverse, GoodPath;
    FollowsTip(cr, init, start.db, start.st);
    BaseStored(start.db, start.st.tip, p.common);
    PathIsGood(cr, init, start.db, target.block, p.common);
  }

  /** The path of a target below the tip starts with a first block. */
  lemma PlanBelow(start: Snapshot, target: Tip, p: Plan)
    requires TablesOk(start.db) && Planned(start.db, start.st.tip, target, p) && p.common == Some(target.block)
    ensures target.block in start.db.headers
    ensures var hs := PathTo(start.db, target.block, p.common);
            && hs != [] && HasBlocks(start.db, hs) && Reverse(p.blocks) == BlocksAt(start.db, hs)
            && Detached(start.db, p.common, hs[0]) && IsAncestor(start.db.side.parent, hs[0], target.block)
  {
    hide TablesOk, IsAncestor, PathTo, IsCommon, Chose, IsBest, BlocksAt, Reverse;
    PathNotEmpty(start.db, target.block, p.common);
    PathEntry(start.db, target.block, p.common, 0);
    GenesisPath(start.db, target.block);
  }

  lemma PathNotEmpty(db: Db, b: Hash, common: Option<Hash>)
    requires TablesOk(db) && b in db.headers
    ensures PathTo(db, b, common) != []
  {
    hide TablesOk, Above;
  }

  lemma PlanFailed(cr: Crypto, init: State, start: Snapshot, target: Tip, p: Plan, n: nat, e: NodeError, kept: Snapshot, now: Snapshot)
    requires Consistent(cr, init, start) && TablesOk(start.db) && Planned(start.db, start.st.tip, target, p)
    requires p.common != Some(target.block)
    requires var hs := PathTo(start.db, target.block, p.common);
             && n < |hs| && Kept(cr, init, start.db, Known(start.db, start.txs), p.was, hs, n, start, kept)
             && FellBack(cr, init, start.db, hs, n, e, kept, now)
    ensures FailedReorg(cr, init, start, p.was, target.block, e, kept, now) && Consistent(cr, init, now)
  {
    hide Consistent, TablesOk, IsAncestor, PathTo, IsCommon, Chose, IsBest, Known, HasBlocks, BlocksAt, Reverse, Kept, FellBack, FailedReorg, Good;
    ConsistentIsGood(cr, init, start);
    ConsistentParts(cr, init, start);
    PathFailed(cr, init, start, Known(start.db, start.txs), p.was, target.block, p.common, n, e, kept, now);
  }

  lemma LostFirst(start: Snapshot, b: Hash, g: Hash, now: Snapshot)
    requires g in start.db.headers && start.db.headers[g].prevSide.None? && IsAncestor(start.db.side.parent, g, b)
    requires LostBody(start, g, now)
    ensures LostGenesis(start, b, now)
  {
    hide IsAncestor, LostBody;
  }

  /** What carrying out a plan leads to. */
  ghost predicate CarriedOut(cr: Crypto, init: State, start: Snapshot, p: Plan, target: Hash, hs: seq<Hash>,
                             r: Result<(), NodeError>, kept: Snapshot, now: Snapshot) {
    if p.common == Some(target) then
      r.Err? && if IsFatal(r.error) then r.error.PoolFailed? && now == start else LostGenesis(start, target, now)
    else
      && Consistent(cr, init, now)
      && (r.Ok? ==>
            && now.st.tip == Some(target) && SameArchive(start.db, now.db) && PoolMoved(start, target, now.txs)
            && MayApply(cr, init, start.db, p.was, hs, |hs|)
            && Welcome(start.spent.Keys, Transactions(OffEntries(start.db, start.st.tip, target))))
      && (r.Err? ==>
            && FailedReorg(cr, init, start, p.was, target, r.error, kept, now)
            && !(SurelyApplies(cr, init, start.db, p.was, hs, |hs|) &&
                 Welcome(start.spent.Keys, Transactions(OffEntries(start.db, start.st.tip, target)))))
  }

  lemma PlannedFork(db: Db, tip: Option<Hash>, target: Tip, p: Plan)
    requires TablesOk(db) && Planned(db, tip, target, p) && (tip.Some? ==> tip.value in db.headers)
    ensures Fork(db, tip, target.block, p.common)
  {
    hide TablesOk, IsAncestor, PathTo, IsCommon, Chose, IsBest, HasBlocks, BlocksAt, Reverse, Answers;
  }

  lemma MovedNow(start: Snapshot, b: Hash, common: Option<Hash>, hs: seq<Hash>, mid: PoolTxs, now: PoolTxs, gone: set<Txid>)
    requires TablesOk(start.db) && Fork(start.db, start.st.tip, b, common) && common != Some(b) && hs == PathTo(start.db, b, common)
    requires mid == PutBack(start.txs, OffEntries(start.db, start.st.tip, b)) && LeftPool(mid, start.db, hs, |hs|, now, gone)
    requires Took(start.txs, mid, OffEntries(start.db, start.st.tip, b))
    ensures PoolMoved(start, b, now)
  {
    hide TablesOk, PathTo, OffEntries, NewTxids, PathTxids, IsCascadeOf, IsCommon, IsAncestor, Took, PutBack;
    PathTxidsAre(start.db, start.st.tip, b, common);
  }

  /** Disconnects and connects as planned. */
  method CarryOut(node: Node, cr: Crypto, p: Plan, target: Tip, start: Snapshot, ghost init: State)
    returns (r: Result<(), NodeError>, ghost kept: Snapshot)
    requires Start(init) && Consistent(cr, init, start) && start == Current(node) && TablesOk(start.db)
    requires Planned(start.db, start.st.tip, target, p) && Trusted(cr, init, start.db, target.block)
    modifies node.archive, node.state, node.pool
    ensures CarriedOut(cr, init, start, p, target.block, PathTo(start.db, target.block, p.common), r, kept, Current(node))
  {
    hide ArchiveOk, Start, Consistent, Follows, Good, TablesOk, Planned, Trusted, PathTo, SameArchive, FailedReorg, Kept, FellBack,
      Reverse, Known, HasBlocks, BlocksAt, GoodPath, TipBelow, Exact, Scored, LostGenesis, LostBody, MayApply, SurelyApplies, Welcome,
      OffEntries, TopEntries, PoolMoved, LeftPool, PutBack, Took, Fork;
    ghost var db, known := start.db, Known(start.db, start.txs);
    kept := start;
    ConsistentIsGood(cr, init, start);
    ConsistentParts(cr, init, start);
    var count := CountDown(cr, start, target, p, init);
    PlannedFork(db, start.st.tip, target, p);
    TopIsOff(db, start.st.tip, target.block, p.common, count);
    var down := DisconnectBlocks(node, cr, count, init, db, known);
    if down.Err? {
      Drop(node, start);
      NothingHappened(cr, init, start, p.was, target.block, down.error);
      return Err(down.error), kept;
    }
    assert node.state.tip == p.common;
    if p.common == Some(target.block) { PlanBelow(start, target, p); } else { PlanPath(cr, init, start, target, p); }
    ghost var hs := PathTo(db, target.block, p.common);
    ghost var n, gone, mid := 0, {}, node.pool.txs;
    var up;
    up, kept, n, gone := ApplyPath(node, cr, p.blocks, p.was, start, init, db, known, p.common, hs);
    if up.Err? {
      if p.common == Some(target.block) {
        LostFirst(start, target.block, hs[0], Current(node));
      } else {
        PlanFailed(cr, init, start, target, p, n, up.error, kept, Current(node));
      }
      return Err(up.error), kept;
    }
    GoodIsConsistent(cr, init, db, known, Current(node));
    GoodParts(cr, init, db, known, Current(node));
    if p.common != Some(target.block) { MovedNow(start, target.block, p.common, hs, mid, node.pool.txs, gone); }
    return Ok(()), kept;
  }

  // ----- runs -----

  /** Every chain that the archive stores in full is fresh. */
  ghost predicate AllTrusted(cr: Crypto, init: State, db: Db) {
    forall b :: Trusted(cr, init, db, b)
  }

  lemma TrustedKept(cr: Crypto, init: State, db: Db, db': Db)
    requires AllTrusted(cr, init, db) && db'.headers == db.headers && db'.side == db.side
    requires forall b :: b in db'.bodies ==> b in db.bodies && db'.bodies[b] == db.bodies[b]
    ensures AllTrusted(cr, init, db')
  {
    hide FreshChain, From;
    forall b ensures Trusted(cr, init, db', b) {
      var hs := Hashes(db', Some(b));
      assert Trusted(cr, init, db, b) && hs == Hashes(db, Some(b));
      if b in db'.headers && HasBlocks(db', hs) { assert BlocksAt(db', hs) == BlocksAt(db, hs); }
    }
  }

  lemma TrustedAfterFailure(cr: Crypto, init: State, before: Snapshot, was: Option<Tip>, target: Hash, e: NodeError,
                            kept: Snapshot, now: Snapshot)
    requires AllTrusted(cr, init, before.db) && FailedReorg(cr, init, before, was, target, e, kept, now)
    ensures AllTrusted(cr, init, now.db)
  {
    hide AllTrusted, Consistent, IsAncestor, Accepted, Invalid, RemoveInclusions;
    TrustedKept(cr, init, before.db, now.db);
  }

  /** A run of reorgs, whatever fails on the way. The node stays consistent: its
    * state is the fold of the blocks of its chain. Only a target on that chain that
    * the comparison picks ends it: the node then lacks the body of its first block. */
  method RunReorgs(node: Node, cr: Crypto, targets: seq<Tip>, ghost init: State) returns (n: nat, ghost last: Snapshot)
    requires Start(init) && Consistent(cr, init, Current(node)) && AllTrusted(cr, init, node.archive.View())
    modifies node.archive, node.state, node.pool
    ensures n <= |targets| && Consistent(cr, init, last) && AllTrusted(cr, init, last.db)
    ensures n == |targets| ==> Current(node) == last
    ensures n < |targets| ==> LostBelow(last, targets[n], Current(node))
  {
    hide Start, Consistent, AllTrusted, IsAncestor, FailedReorg, Chose, SameArchive, Trusted, ArchiveOk, TablesOk, Valid, NotBetter,
      LostGenesis, MoreWork, IsVerified, LostBelow, Below;
    last := Current(node);
    n := 0;
    while n < |targets|
      invariant n <= |targets| && last == Current(node)
      invariant Consistent(cr, init, Current(node)) && AllTrusted(cr, init, node.archive.View())
    {
      var below := IsBelowTip(cr, Current(node), targets[n].block, init);
      TrustedOne(cr, init, last.db, targets[n].block);
      ConsistentParts(cr, init, last);
      var r, was, kept := ReorgToTip(node, cr, targets[n], init);
      if r.Err? && !IsFatal(r.error) && below {
        LostNow(cr, init, last, targets[n], Current(node), r);
        return;
      }
      if r.Err? {
        if below {
          assert Current(node) == last;
        } else {
          TrustedAfterFailure(cr, init, last, was, targets[n].block, r.error, kept, Current(node));
        }
      } else if r.value {
        assert r == Ok(true);
        TrustedSame(cr, init, last.db, node.archive.View());
      } else {
        assert r == Ok(false);
      }
      last := Current(node);
      n := n + 1;
    }
  }

  /** A target on the chain of the node cost it the body of its first block; if the
    * target was verified, it had more work than every verification of the tip. */
  ghost predicate LostBelow(before: Snapshot, target: Tip, now: Snapshot) {
    && Below(before.db, before.st.tip, target.block) && LostGenesis(before, target.block, now)
    && (IsVerified(before.db, target.block, target.main) && (exists m :: IsVerified(before.db, before.st.tip.value, m)) ==>
          MoreWork(before.db, before.st.tip.value, target))
  }

  lemma LostNow(cr: Crypto, init: State, before: Snapshot, target: Tip, now: Snapshot, r: Result<bool, NodeError>)
    requires Below(before.db, before.st.tip, target.block) && LostGenesis(before, target.block, now) && r.Err?
    requires IsVerified(before.db, target.block, target.main) && (exists m :: IsVerified(before.db, before.st.tip.value, m)) ==>
               (r == Ok(false) <==> !MoreWork(before.db, before.st.tip.value, target))
    ensures LostBelow(before, target, now)
  {
    hide IsVerified, MoreWork, LostGenesis, IsAncestor;
  }

  lemma TrustedOne(cr: Crypto, init: State, db: Db, b: Hash)
    requires AllTrusted(cr, init, db)
    ensures Trusted(cr, init, db, b)
  {
  }

  lemma TrustedSame(cr: Crypto, init: State, db: Db, db': Db)
    requires AllTrusted(cr, init, db) && SameArchive(db, db')
    ensures AllTrusted(cr, init, db')
  {
    hide AllTrusted, IsVerified;
    TrustedKept(cr, init, db, db');
  }

  method IsBelowTip(cr: Crypto, s: Snapshot, b: Hash, ghost init: State) returns (below: bool)
    requires Consistent(cr, init, s)
    ensures below <==> Below(s.db, s.st.tip, b)
  {
    hide Consistent, IsAncestor, Valid, TablesOk, ArchiveOk, Scored;
    ConsistentParts(cr, init, s);
    ArchiveScored(s.db);
    if s.st.tip.None? { return false; }
    if b !in s.db.headers {
      if IsAncestor(s.db.side.parent, b, s.st.tip.value) { AncestorAt(s.db.side, b, s.st.tip.value); }
      return false;
    }
    var d := IsDescendant(s.db.side, b, s.st.tip.value);
    return d.value;
  }

  // ----- path independence -----

  /** Two archives that store the same blocks under the same hashes. */
  ghost predicate Agree(db: Db, db': Db) {
    && (forall b :: b in db.headers && b in db'.headers ==> db.headers[b] == db'.headers[b])
    && (forall b :: b in db.bodies && b in db'.bodies ==> db.bodies[b] == db'.bodies[b])
  }

  lemma {:induction false} HashesAgree(db: Db, db': Db, b: Hash)
    requires TablesOk(db) && TablesOk(db') && Agree(db, db') && b in db.headers && b in db'.headers
    ensures Hashes(db, Some(b)) == Hashes(db', Some(b))
    decreases if b in db.side.height then db.side.height[b] else 0
  {
    hide TablesOk, Hashes;
    HashesStep(db, b);
    HashesStep(db', b);
    ActiveChain.ParentStored(db, b);
    ActiveChain.ParentStored(db', b);
    if db.headers[b].prevSide.Some? {
      ParentLower(db, b);
      HashesAgree(db, db', db.headers[b].prevSide.value);
    }
  }

  /** The state depends on the tip alone: whatever reorgs, failures and orders of
    * arrival led there, two nodes at one tip have one state. */
  lemma PathIndependence(cr: Crypto, init: State, s: Snapshot, t: Snapshot)
    requires Consistent(cr, init, s) && Consistent(cr, init, t) && Agree(s.db, t.db) && s.st.tip == t.st.tip
    ensures s.st == t.st
  {
    hide Fold, FreshChain, Exact, Known, OneEach, TablesOk, BmmOk, WorkOk, From;
    if s.st.tip.Some? { HashesAgree(s.db, t.db, s.st.tip.value); }
    var hs := Hashes(s.db, s.st.tip);
    assert Hashes(t.db, t.st.tip) == hs;
    assert BlocksAt(s.db, hs) == BlocksAt(t.db, hs);
  }

  // ----- invalidating a block -----

  /** The chain of a block that stays is as it was. */
  lemma FollowsInvalidated(cr: Crypto, init: State, db: Db, st: State, b: Hash)
    requires ArchiveOk(db) && Follows(cr, init, db, st) && (st.tip.Some? ==> st.tip.value !in Subtree(db, b))
    ensures Follows(cr, init, Invalidate(db, b), st)
  {
    hide Fold, FreshChain, From, RemoveFromIndex, RemoveFromInclusions, TablesOk, BmmOk, WorkOk, IsAncestor;
    var db' := Invalidate(db, b);
    InvalidateKeeps(db, b);
    var hs := Hashes(db, st.tip);
    if st.tip.Some? { HashesAgree(db, db', st.tip.value); }
    assert Hashes(db', st.tip) == hs;
    forall i | 0 <= i < |hs| ensures hs[i] in db'.headers && hs[i] in db'.bodies {
      OnChain(db, st.tip, hs[i]);
      if hs[i] in Subtree(db, b) { AncestorTrans(db.side.parent, b, hs[i], st.tip.value); }
    }
    assert BlocksAt(db', hs) == BlocksAt(db, hs);
  }

  lemma InvalidatedConsistent(cr: Crypto, init: State, db: Db, known: set<Transaction>, s: Snapshot, b: Hash)
    requires Good(cr, init, db, known, s) && s.db == db && (s.st.tip.Some? ==> s.st.tip.value !in Subtree(db, b))
    ensures Consistent(cr, init, s.(db := Invalidate(db, b)))
  {
    hide ArchiveOk, Follows, Exact, Known, OneEach, Subtree, Invalidate;
    GoodParts(cr, init, db, known, s);
    FollowsInvalidated(cr, init, db, s.st, b);
    InvalidateKeeps(db, b);
    InvalidatedKnown(db, b, s.txs);
    OneEachBelow(Known(Invalidate(db, b), s.txs), known);
  }

  lemma InvalidatedKnown(db: Db, b: Hash, txs: PoolTxs)
    ensures Known(Invalidate(db, b), txs) <= Known(db, txs)
  {
    hide RemoveFromIndex, RemoveFromInclusions, Subtree;
  }

  /** The tip is above the block until its parent is reached. */
  lemma StillAbove(db: Db, tip: Hash, b: Hash, i: nat)
    requires ArchiveOk(db) && tip in db.headers && b in db.headers && IsAncestor(db.side.parent, b, tip)
    requires b in db.side.height && tip in db.side.height && i + db.side.height[b] <= db.side.height[tip] + 1
    ensures TipBelow(db, Some(tip), i) == db.headers[b].prevSide <==> i + db.side.height[b] == db.side.height[tip] + 1
  {
    hide TipBelow, TablesOk, BmmOk, WorkOk, IsAncestor, Valid, Nth;
    ArchiveTables(db);
    SideKeys(db);
    AncestorAt(db.side, b, tip);
    var k := db.side.height[tip] - db.side.height[b];
    TipBelowNth(db, tip, i);
    TipBelowNth(db, tip, k + 1);
    TipBelowNth(db, tip, k);
    TipBelowStep(db, Some(tip), k);
    if i <= k {
      NthAt(db.side, tip, i);
      SideFacts(db, b);
    }
  }

  /** The number of blocks of the chain of the tip from block `b` on. */
  ghost function CountAbove(db: Db, tip: Option<Hash>, b: Hash): nat {
    if tip.Some? && tip.value in db.side.height && b in db.side.height && db.side.height[b] <= db.side.height[tip.value]
    then db.side.height[tip.value] + 1 - db.side.height[b] else 0
  }

  /** The transactions of the blocks from `b` on are back in the pool, each with its
    * own authorizations, and everything else in it is as it was. */
  ghost predicate ReturnedAbove(before: Snapshot, b: Hash, now: PoolTxs) {
    var ats := TopEntries(before.db, before.st.tip, CountAbove(before.db, before.st.tip, b));
    now == PutBack(before.txs, ats) && Took(before.txs, now, ats)
  }

  /** Invalidates a block and its descendants; if it is on the active chain, the
    * node first goes back to its parent. */
  method InvalidateBlock(node: Node, cr: Crypto, b: Hash, ghost init: State) returns (r: Result<(), NodeError>)
    requires Start(init) && Consistent(cr, init, Current(node))
    modifies node.archive, node.state, node.pool
    ensures Consistent(cr, init, Current(node))
    ensures r.Err? ==> r.error.PoolFailed? && Current(node) == old(Current(node))
    ensures r.Err? <==>
            && b in old(node.archive.headers) && Below(old(node.archive.View()), old(node.state.tip), b)
            && !Welcome(old(node.pool.spent).Keys,
                        TopTxs(old(node.archive.View()), old(node.state.tip),
                               CountAbove(old(node.archive.View()), old(node.state.tip), b)))
    ensures r.Ok? && b !in old(node.archive.headers) ==> Current(node) == old(Current(node))
    ensures r.Ok? && b in old(node.archive.headers) ==>
              && node.archive.View() == Invalidate(old(node.archive.View()), b)
              && node.state.tip ==
                 if old(node.state.tip).Some? && IsAncestor(old(node.archive.side.parent), b, old(node.state.tip).value)
                 then old(node.archive.headers[b].prevSide) else old(node.state.tip)
    ensures r.Ok? && b in old(node.archive.headers) ==>
              if Below(old(node.archive.View()), old(node.state.tip), b)
              then ReturnedAbove(old(Current(node)), b, node.pool.txs)
              else node.pool.txs == old(node.pool.txs) && node.pool.spent == old(node.pool.spent)
  {
    hide ArchiveOk, Start, Consistent, Follows, Good, TablesOk, IsAncestor, SameArchive, Known, OneEach, Exact, Invalidate, Valid, Welcome,
      TopTxs, Scored, ReturnedAbove;
    var start := Current(node);
    ghost var db, known := start.db, Known(start.db, start.txs);
    if b !in start.db.headers { return Ok(()); }
    ConsistentIsGood(cr, init, start);
    GoodParts(cr, init, db, known, start);
    FollowsTip(cr, init, db, start.st);
    ArchiveScored(db);
    var inActive := false;
    if start.st.tip.Some? {
      var d := IsDescendant(start.db.side, b, start.st.tip.value);
      inActive := d.value;
    }
    if inActive {
      var back := BackTo(node, cr, b, init, db, known);
      if back.Err? {
        Drop(node, start);
        return Err(back.error);
      }
    }
    TipKept(db, start.st.tip, b, node.state.tip);
    InvalidatedConsistent(cr, init, db, known, Current(node), b);
    node.archive.InvalidateBlock(b);
    return Ok(());
  }

  /** Disconnects until the parent of a block of the active chain is the tip. */
  method BackTo(node: Node, cr: Crypto, b: Hash, ghost init: State, ghost db: Db, ghost known: set<Transaction>)
    returns (r: Result<(), NodeError>)
    requires Start(init) && ArchiveOk(db) && Good(cr, init, db, known, Current(node)) && node.archive.View() == db
    requires b in db.headers && node.state.tip.Some? && node.state.tip.value in db.headers
    requires IsAncestor(db.side.parent, b, node.state.tip.value)
    modifies node.state, node.pool
    ensures node.archive.View() == db
    ensures r.Ok? ==> Good(cr, init, db, known, Current(node)) && node.state.tip == db.headers[b].prevSide
    ensures r.Err? ==> r.error.PoolFailed?
    ensures r.Ok? <==> Welcome(old(node.pool.spent).Keys, TopTxs(db, old(node.state.tip), CountAbove(db, old(node.state.tip), b)))
    ensures r.Ok? ==> ReturnedAbove(old(Current(node)), b, node.pool.txs)
  {
    hide ArchiveOk, Start, Follows, TablesOk, IsAncestor, SameArchive, Known, OneEach, Exact, Welcome, TopTxs, TipBelow, WentBack, PutBack,
      Took, TopEntries, Entries, Counted, AllInputs;
    ghost var tip, spent, txs := node.state.tip, node.pool.spent.Keys, node.pool.txs;
    ghost var i := 0;
    TipBelowZero(db, tip);
    WentBackNone(db, tip, txs, spent);
    StillAboveBounds(db, tip.value, b);
    StillAbove(db, tip.value, b, 0);
    var parent := node.archive.headers[b].prevSide;
    while node.state.tip != parent
      invariant Good(cr, init, db, known, Current(node)) && node.archive.View() == db
      invariant i + db.side.height[b] <= db.side.height[tip.value] + 1 && node.state.tip == TipBelow(db, tip, i)
      invariant node.state.tip == parent <==> i + db.side.height[b] == db.side.height[tip.value] + 1
      invariant WentBack(db, tip, i, txs, spent, node.pool.txs, node.pool.spent.Keys)
      decreases db.side.height[tip.value] + 1 - db.side.height[b] - i
    {
      StillAbove(db, tip.value, b, i);
      StillAbove(db, tip.value, b, i + 1);
      StillTip(db, tip, i, db.side.height[tip.value] + 1);
      TipBelowStep(db, tip, i);
      OneEachBelow(Known(db, node.pool.txs), known);
      ghost var top, mid, midSpent := node.state.tip.value, node.pool.txs, node.pool.spent.Keys;
      var step := node.DisconnectTip(cr, init);
      WentBackStep(db, tip, i, top, txs, spent, mid, midSpent);
      if step.Err? {
        if Welcome(spent, TopTxs(db, tip, CountAbove(db, tip, b))) {
          TopTxsWelcome(spent, db, tip, i + 1, db.side.height[tip.value] + 1 - db.side.height[b]);
        }
        return Err(step.error);
      }
      i := i + 1;
    }
    OneEachBelow(Known(db, txs), known);
    WentBackIs(db, tip, i, txs, spent, node.pool.txs, node.pool.spent.Keys);
    return Ok(());
  }

  lemma StillAboveBounds(db: Db, tip: Hash, b: Hash)
    requires ArchiveOk(db) && tip in db.headers && b in db.headers && IsAncestor(db.side.parent, b, tip)
    ensures b in db.side.height && tip in db.side.height && db.side.height[b] <= db.side.height[tip]
  {
    hide TablesOk, BmmOk, WorkOk, IsAncestor, Valid;
    ArchiveTables(db);
    SideKeys(db);
    AncestorAt(db.side, b, tip);
  }

  /** The tip that the node keeps is not removed. */
  lemma TipKept(db: Db, tip: Option<Hash>, b: Hash, now: Option<Hash>)
    requires ArchiveOk(db) && b in db.headers && (tip.Some? ==> tip.value in db.headers)
    requires now == if tip.Some? && IsAncestor(db.side.parent, b, tip.value) then db.headers[b].prevSide else tip
    ensures now.Some? ==> now.value !in Subtree(db, b)
  {
    hide TablesOk, BmmOk, WorkOk, IsAncestor;
    ArchiveTables(db);
    if db.headers[b].prevSide.Some? { NotBelowItself(db, b, db.headers[b].prevSide.value); }
  }
}
