/** When a reorg reaches its target, told from what the node holds before it. */
module ReorgGoal {
  import opened Wrappers
  import opened Types
  import opened Ancestry
  import opened BlockIndex
  import opened Blocks
  import opened Chains
  import opened ArchiveDb
  import opened BmmTable
  import opened AncestorWalks
  import opened MemPool
  import opened PoolReturns
  import opened Signatures
  import opened BetterTip
  import opened ActiveChain
  import opened Nodes
  import opened ReorgPath
  import opened Reorgs

  // ----- the blocks to connect and to disconnect -----

  /** A block of the chain of `b` that is not on the chain of the tip. */
  ghost predicate NewBlock(db: Db, tip: Option<Hash>, b: Hash, x: Hash) {
    IsAncestor(db.side.parent, x, b) && !(tip.Some? && IsAncestor(db.side.parent, x, tip.value))
  }

  ghost function NewTxids(db: Db, tip: Option<Hash>, b: Hash): set<Txid> {
    set x, tx | x in db.bodies && NewBlock(db, tip, b, x) && tx in db.bodies[x].transactions :: tx.txid
  }

  /** The transactions of the blocks of the tip that are not on the chain of `b`, in
    * chain order, each with its own authorizations. */
  ghost function OffEntries(db: Db, tip: Option<Hash>, b: Hash): seq<AuthorizedTransaction>
    decreases if tip.Some? && tip.value in db.side.height then db.side.height[tip.value] + 1 else 0
  {
    if tip.None? || tip.value !in db.headers || tip.value !in db.side.height || IsAncestor(db.side.parent, tip.value, b) then []
    else
      var q := db.headers[tip.value].prevSide;
      (if q.Some? && q.value in db.side.height && db.side.height[q.value] < db.side.height[tip.value] then OffEntries(db, q, b) else [])
      + EntriesAt(db, tip)
  }

  /** A common ancestor as the reorg takes it: the last one, if the tip has any. */
  ghost predicate Fork(db: Db, tip: Option<Hash>, b: Hash, common: Option<Hash>) {
    && b in db.headers
    && (tip.Some? ==> tip.value in db.headers && IsCommon(db.side, tip.value, b, common))
    && (common.Some? ==> tip.Some? && IsAncestor(db.side.parent, common.value, b) && IsAncestor(db.side.parent, common.value, tip.value))
  }

  lemma InHashes(db: Db, b: Hash, x: Hash)
    requires TablesOk(db) && b in db.headers
    ensures x in Hashes(db, Some(b)) <==> IsAncestor(db.side.parent, x, b)
  {
    hide TablesOk, IsAncestor, Valid, Nth, From;
    SideKeys(db);
    if x in Hashes(db, Some(b)) { OnChain(db, Some(b), x); }
    if IsAncestor(db.side.parent, x, b) {
      AncestorAt(db.side, x, b);
      AboveHas(db.side, b, 0, db.side.height[b] - db.side.height[x], x);
    }
  }

  /** The path consists of the new blocks. */
  lemma PathMembers(db: Db, tip: Option<Hash>, b: Hash, common: Option<Hash>, x: Hash)
    requires TablesOk(db) && Fork(db, tip, b, common) && common != Some(b)
    ensures x in PathTo(db, b, common) <==> NewBlock(db, tip, b, x)
  {
    hide TablesOk, IsAncestor, Hashes, PathTo, IsCommon;
    PathContinues(db, b, common);
    InHashes(db, b, x);
    if tip.Some? { InHashes(db, tip.value, x); }
    if x in PathTo(db, b, common) {
      PathIsNew(db, tip, b, common, x);
    } else if NewBlock(db, tip, b, x) {
      if common.Some? {
        InHashes(db, common.value, x);
        AncestorTrans(db.side.parent, x, common.value, tip.value);
      } else {
        NoHashes(db);
      }
    }
  }

  lemma NoHashes(db: Db)
    ensures Hashes(db, None) == []
  {
  }

  lemma PathTxidsAre(db: Db, tip: Option<Hash>, b: Hash, common: Option<Hash>)
    requires TablesOk(db) && Fork(db, tip, b, common) && common != Some(b)
    ensures PathTxids(db, PathTo(db, b, common), |PathTo(db, b, common)|) == NewTxids(db, tip, b)
  {
    hide TablesOk, IsAncestor, PathTo, NewBlock, IsCommon;
    var hs := PathTo(db, b, common);
    forall x ensures x in hs <==> NewBlock(db, tip, b, x) { PathMembers(db, tip, b, common, x); }
    forall t | t in PathTxids(db, hs, |hs|) ensures t in NewTxids(db, tip, b) {
      var i, tx :| 0 <= i < |hs| && hs[i] in db.bodies && tx in db.bodies[hs[i]].transactions && tx.txid == t;
      assert hs[i] in hs;
    }
    forall t | t in NewTxids(db, tip, b) ensures t in PathTxids(db, hs, |hs|) {
      var x, tx :| x in db.bodies && NewBlock(db, tip, b, x) && tx in db.bodies[x].transactions && tx.txid == t;
      var i :| 0 <= i < |hs| && hs[i] == x;
      assert tx in db.bodies[hs[i]].transactions;
    }
  }

  /** One block from the top. */
  lemma {:induction false} TopEntriesFirst(db: Db, t: Hash, k: nat)
    requires t in db.headers
    ensures TopEntries(db, Some(t), k + 1) == TopEntries(db, db.headers[t].prevSide, k) + EntriesAt(db, Some(t))
    decreases k
  {
    hide Entries, TipBelow, TopEntries;
    var q := db.headers[t].prevSide;
    TopNone(db, Some(t), k);
    TopNone(db, q, k);
    TopEntriesStep(db, Some(t), k);
    if k > 0 {
      TopEntriesFirst(db, t, k - 1);
      TipBelowNext(db, t, k);
      TopEntriesStep(db, q, k - 1);
      var e := EntriesAt(db, TipBelow(db, Some(t), k));
      assert e + (TopEntries(db, q, k - 1) + EntriesAt(db, Some(t))) == (e + TopEntries(db, q, k - 1)) + EntriesAt(db, Some(t));
    }
  }

  lemma TopEntriesStep(db: Db, tip: Option<Hash>, k: nat)
    ensures TopEntries(db, tip, k + 1) == EntriesAt(db, TipBelow(db, tip, k)) + TopEntries(db, tip, k)
  {
    hide Entries, TipBelow;
  }

  /** The blocks above the common ancestor are those off the chain of `b`. */
  lemma {:induction false} TopIsOff(db: Db, tip: Option<Hash>, b: Hash, common: Option<Hash>, k: nat)
    requires TablesOk(db) && Fork(db, tip, b, common) && TipBelow(db, tip, k) == common
    requires tip.Some? ==> tip.value in db.side.height && k <= db.side.height[tip.value] + 1
    requires tip.None? ==> k == 0
    ensures TopEntries(db, tip, k) == OffEntries(db, tip, b)
    decreases k
  {
    hide TablesOk, IsAncestor, Entries, TopEntries, TipBelow, IsCommon;
    TopNone(db, tip, k);
    if tip.Some? {
      var t := tip.value;
      SideFacts(db, t);
      if k == 0 {
        assert IsAncestor(db.side.parent, t, b);
      } else {
        AboveFork(db, t, b, common, k);
        TopEntriesFirst(db, t, k - 1);
        ForkBelow(db, t, b, common);
        var q := db.headers[t].prevSide;
        TipBelowNext(db, t, k);
        if q.Some? {
          TopIsOff(db, q, b, common, k - 1);
        } else {
          HeightZero(db, t);
          TopNone(db, q, 0);
        }
      }
    }
  }

  lemma TopNone(db: Db, tip: Option<Hash>, k: nat)
    ensures TopEntries(db, tip, 0) == [] && TipBelow(db, tip, 0) == tip && TipBelow(db, None, k) == None
    ensures tip.None? && k == 0 ==> TopEntries(db, tip, k) == []
  {
  }

  lemma TipBelowNext(db: Db, t: Hash, k: nat)
    requires t in db.headers && k > 0
    ensures TipBelow(db, Some(t), k) == TipBelow(db, db.headers[t].prevSide, k - 1)
  {
  }

  /** A block above the fork is not on the chain of `b`. */
  lemma AboveFork(db: Db, t: Hash, b: Hash, common: Option<Hash>, k: nat)
    requires TablesOk(db) && Fork(db, Some(t), b, common) && k > 0 && TipBelow(db, Some(t), k) == common
    requires t in db.side.height && k <= db.side.height[t] + 1
    ensures !IsAncestor(db.side.parent, t, b)
  {
    hide TablesOk, IsAncestor, Valid, Nth, TipBelow, OneGenesis;
    SideKeys(db);
    AncestorRefl(db.side.parent, t);
    if IsAncestor(db.side.parent, t, b) {
      TipBelowNth(db, t, k);
      SharedGenesis(db.side, t, b, t);
      AncestorAt(db.side, common.value, b);
      AncestorHeight(db.side, t, common.value);
      NthAt(db.side, t, k);
    }
  }

  /** The fork of a block above it is that of its parent. */
  lemma ForkBelow(db: Db, t: Hash, b: Hash, common: Option<Hash>)
    requires TablesOk(db) && Fork(db, Some(t), b, common) && !IsAncestor(db.side.parent, t, b)
    ensures db.headers[t].prevSide.Some? ==> Fork(db, db.headers[t].prevSide, b, common)
    ensures db.headers[t].prevSide.None? ==> common.None?
  {
    hide TablesOk, IsAncestor, Valid, Nth;
    SideKeys(db);
    SideFacts(db, t);
    var p, q := db.side.parent, db.headers[t].prevSide;
    forall x ensures IsAncestor(p, x, t) <==> x == t || (q.Some? && IsAncestor(p, x, q.value)) { AncestorStep(p, x, t); }
    if q.Some? { SameGenesis(db, t, b); }
  }

  lemma SameGenesis(db: Db, t: Hash, b: Hash)
    requires TablesOk(db) && t in db.headers && b in db.headers && db.headers[t].prevSide.Some?
    requires t in db.side.height && b in db.side.height
    ensures var q := db.headers[t].prevSide.value;
            q in db.side.height && (OneGenesis(db.side, q, b) <==> OneGenesis(db.side, t, b))
  {
    hide TablesOk, Valid;
    SideFacts(db, t);
  }

  // ----- what reaching the target takes -----

  /** The chain of `b` is stored, and all its blocks apply. */
  ghost predicate ValidChain(cr: Crypto, init: State, db: Db, b: Hash) {
    && b in db.headers && HasBlocks(db, Hashes(db, Some(b)))
    && Fold(cr, init, BlocksAt(db, Hashes(db, Some(b)))).Ok?
  }

  /** Beside the comparisons: a valid chain, what connecting its new blocks looks up,
    * and a pool that can take the transactions of the blocks to disconnect. */
  ghost predicate Ready(cr: Crypto, init: State, s: Snapshot, b: Hash) {
    && ValidChain(cr, init, s.db, b)
    && (forall x :: NewBlock(s.db, s.st.tip, b, x) ==> Connectable(s.db, x))
    && Welcome(s.spent.Keys, Transactions(OffEntries(s.db, s.st.tip, b)))
  }

  /** The comparison picks `target` over `was`, and answers on every new block,
    * whichever best verification of it is taken. */
  ghost predicate SurelyBeats(db: Db, was: Tip, target: Tip) {
    && Answers(db, was, target) && Chose(db, was, target)
    && forall x :: NewBlock(db, Some(was.block), target.block, x) ==> SurelyCompares(db, Some(was), x)
  }

  /** The same for one best verification of each new block. */
  ghost predicate MayBeat(db: Db, was: Tip, target: Tip) {
    && Answers(db, was, target) && Chose(db, was, target)
    && forall x :: NewBlock(db, Some(was.block), target.block, x) ==> MayCompare(db, Some(was), x)
  }

  /** The tip is verified, and loses whichever best verification of it is taken. */
  ghost predicate SurelyWins(db: Db, tip: Option<Hash>, target: Tip) {
    tip.Some? ==>
      && (exists m :: IsVerified(db, tip.value, m))
      && forall m :: IsBest(db, tip.value, m) ==> SurelyBeats(db, Tip(tip.value, m), target)
  }

  ghost predicate MayWin(db: Db, tip: Option<Hash>, target: Tip) {
    tip.Some? ==> exists m :: IsBest(db, tip.value, m) && MayBeat(db, Tip(tip.value, m), target)
  }

  /** Verifications of `b` with the most work are one. */
  ghost predicate OneBest(db: Db, b: Hash) {
    forall m, n :: IsBest(db, b, m) && IsBest(db, b, n) ==> m == n
  }

  /** There are no ties among the verifications that count. */
  ghost predicate Untied(db: Db, tip: Option<Hash>, b: Hash) {
    && (tip.Some? ==> OneBest(db, tip.value))
    && forall x :: NewBlock(db, tip, b, x) ==> OneBest(db, x)
  }

  /** Without ties there is nothing to choose. */
  lemma NoTies(db: Db, tip: Option<Hash>, target: Tip)
    requires Untied(db, tip, target.block)
    ensures MayWin(db, tip, target) ==> SurelyWins(db, tip, target)
  {
    hide Answers, Chose, NewBlock, IsVerified;
    if tip.Some? && MayWin(db, tip, target) {
      var m :| IsBest(db, tip.value, m) && MayBeat(db, Tip(tip.value, m), target);
      var was := Tip(tip.value, m);
      forall x | NewBlock(db, tip, target.block, x) ensures SurelyCompares(db, Some(was), x) {
        assert MayCompare(db, Some(was), x) && OneBest(db, x);
      }
      assert SurelyBeats(db, was, target);
    }
  }

  /** The pool afterwards: the transactions of the disconnected blocks have come back,
    * each with its own authorizations; then those of the new blocks have left, with
    * all that depend on them. */
  ghost predicate PoolMoved(before: Snapshot, b: Hash, now: PoolTxs) {
    var ats := OffEntries(before.db, before.st.tip, b);
    var txs := PutBack(before.txs, ats);
    && Took(before.txs, txs, ats)
    && exists gone :: IsCascadeOf(txs, NewTxids(before.db, before.st.tip, b), gone) && now == Keep(txs, gone)
  }

  lemma ValidBelow(cr: Crypto, init: State, db: Db, b: Hash, x: Hash)
    requires TablesOk(db) && ValidChain(cr, init, db, b) && IsAncestor(db.side.parent, x, b)
    ensures !Invalid(cr, init, db, x)
  {
    hide TablesOk, IsAncestor, Hashes, Fold;
    var all := Hashes(db, Some(b));
    InHashes(db, b, x);
    var k :| 0 <= k < |all| && all[k] == x;
    ChainEntry(db, b, k);
    PrefixBlocks(db, all, k + 1);
    PrefixFolds(cr, init, BlocksAt(db, all), k + 1);
  }

  /** The conditions on the new blocks let the path be connected. */
  lemma PathSure(cr: Crypto, init: State, db: Db, tip: Option<Hash>, b: Hash, common: Option<Hash>, was: Option<Tip>)
    requires TablesOk(db) && Fork(db, tip, b, common) && common != Some(b) && ValidChain(cr, init, db, b)
    requires forall x :: NewBlock(db, tip, b, x) ==> Connectable(db, x) && SurelyCompares(db, was, x)
    ensures var hs := PathTo(db, b, common); SurelyApplies(cr, init, db, was, hs, |hs|)
  {
    hide TablesOk, IsAncestor, PathTo, ValidChain, Connectable, SurelyCompares, Invalid, IsCommon;
    var hs := PathTo(db, b, common);
    forall i | 0 <= i < |hs|
      ensures !Invalid(cr, init, db, hs[i]) && Connectable(db, hs[i]) && SurelyCompares(db, was, hs[i])
    {
      PathMembers(db, tip, b, common, hs[i]);
      assert NewBlock(db, tip, b, hs[i]);
      ValidBelow(cr, init, db, b, hs[i]);
    }
  }

  /** And the path can be connected only so. */
  lemma PathMay(cr: Crypto, init: State, db: Db, tip: Option<Hash>, b: Hash, common: Option<Hash>, was: Option<Tip>)
    requires TablesOk(db) && Fork(db, tip, b, common) && common != Some(b)
    requires var hs := PathTo(db, b, common);
             GoodPath(cr, init, db, common, hs) && hs != [] && hs[|hs| - 1] == b && MayApply(cr, init, db, was, hs, |hs|)
    ensures ValidChain(cr, init, db, b)
    ensures forall x :: NewBlock(db, tip, b, x) ==> Connectable(db, x) && MayCompare(db, was, x)
  {
    hide TablesOk, IsAncestor, PathTo, Connectable, MayCompare, IsCommon, Fold, Hashes, HasBlocks, BlocksAt, FreshChain;
    var hs := PathTo(db, b, common);
    var n := |hs| - 1;
    assert NextBlock(cr, init, db, if n == 0 then common else Some(hs[n - 1]), hs[n]);
    forall x | NewBlock(db, tip, b, x) ensures Connectable(db, x) && MayCompare(db, was, x) {
      PathMembers(db, tip, b, common, x);
      var i :| 0 <= i < |hs| && hs[i] == x;
    }
  }
}
