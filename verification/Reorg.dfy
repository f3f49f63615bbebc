/** Moving the node to a better tip: disconnect to the last common ancestor, then
  * connect the blocks of the new chain, committing at every better tip. */
module Reorgs {
  import opened Wrappers
  import opened Types
  import opened Ancestry
  import opened BlockIndex
  import opened Blocks
  import opened Chains
  import opened ArchiveDb
  import opened BmmTable
  import opened ArchiveRuns
  import opened AncestorWalks
  import opened Resubmission
  import opened MemPool
  import opened PoolReturns
  import opened Signatures
  import opened BetterTip
  import opened TipOrder
  import opened ActiveChain
  import opened Nodes
  import opened ReorgPath

  // ----- the blocks to apply -----

  lemma ReverseBlocks(db: Db, hs: seq<Hash>)
    requires HasBlocks(db, hs)
    ensures HasBlocks(db, Reverse(hs)) && BlocksAt(db, Reverse(hs)) == Reverse(BlocksAt(db, hs))
  {
    hide Reverse;
    ReverseEntries(hs);
    ReverseEntries(BlocksAt(db, hs));
  }

  /** The walk after `n` ancestors: `cur` is the next one. */
  ghost predicate Walking(db: Db, q: Hash, n: nat, cur: Option<Hash>, common: Option<Hash>) {
    && q in db.side.height
    && (cur.Some? ==> n <= db.side.height[q] && Nth(db.side.parent, q, n) == cur && cur.value in db.headers)
    && (cur.None? ==> n == db.side.height[q] + 1)
    && forall k :: 0 <= k < n ==> Nth(db.side.parent, q, k) != common
  }

  lemma WalkingStep(db: Db, q: Hash, n: nat, cur: Hash, common: Option<Hash>)
    requires TablesOk(db) && q in db.headers && Walking(db, q, n, Some(cur), common) && common != Some(cur)
    ensures Walking(db, q, n + 1, db.headers[cur].prevSide, common)
    ensures Descending(db.side.parent, q, n + 1) == Descending(db.side.parent, q, n) + [cur]
  {
    hide Nth, Valid, TablesOk, Descending;
    SideKeys(db);
    SideFacts(db, cur);
    StepUp(db.side, q, n, cur);
    DescendingMore(db.side.parent, q, n, cur);
  }

  /** Looks up every block before anything is disconnected, newest first. */
  method CollectBlocks(db: Db, b: Hash, common: Option<Hash>) returns (r: Result<seq<Block>, ArchiveError>)
    requires TablesOk(db)
    ensures r.Ok? ==>
              && b in db.headers && HasBlocks(db, PathTo(db, b, common))
              && Reverse(r.value) == BlocksAt(db, PathTo(db, b, common))
    ensures r.Err? ==> b !in db.headers || !HasBlocks(db, PathTo(db, b, common))
  {
    hide Nth, Valid, TablesOk, Descending, Above, Reverse, Walking;
    if b !in db.headers { return Err(NoHeader); }
    SideKeys(db);
    ActiveChain.ParentStored(db, b);
    if b !in db.bodies {
      assert PathTo(db, b, common)[|PathTo(db, b, common)| - 1] == b;
      return Err(NoBody);
    }
    var list := [Block(db.headers[b], db.bodies[b])];
    var cur := db.headers[b].prevSide;
    if cur.None? {
      ReverseOne(list[0]);
      return Ok(list);
    }
    ghost var q, n, seen: seq<Hash> := cur.value, 0, [];
    CollectStart(db, q, common);
    while cur.Some? && cur != common
      invariant cur.Some? ==> cur.value in db.headers
      invariant Walking(db, q, n, cur, common) && seen == Descending(db.side.parent, q, n)
      invariant HasBlocks(db, [b] + seen) && list == BlocksAt(db, [b] + seen)
      decreases if cur.Some? && cur.value in db.side.height then db.side.height[cur.value] + 1 else 0
    {
      var x := cur.value;
      WalkingStep(db, q, n, x, common);
      SideFacts(db, x);
      WalkedOnPath(db, b, q, n, x, common);
      if x !in db.bodies { return Err(NoBody); }
      AppendBlock(db, [b] + seen, x);
      assert [b] + (seen + [x]) == [b] + seen + [x];
      list := list + [Block(db.headers[x], db.bodies[x])];
      seen, n, cur := seen + [x], n + 1, db.headers[x].prevSide;
    }
    CollectEnd(db, b, q, n, cur, common);
    ReverseBlocks(db, [b] + seen);
    return Ok(list);
  }

  /** A block that the walk meets before the common ancestor is on the path. */
  lemma WalkedOnPath(db: Db, b: Hash, q: Hash, n: nat, x: Hash, common: Option<Hash>)
    requires TablesOk(db) && b in db.headers && db.headers[b].prevSide == Some(q) && q in db.headers
    requires Walking(db, q, n, Some(x), common) && common != Some(x)
    ensures x in PathTo(db, b, common)
  {
    hide Nth, Valid, TablesOk, Ascending;
    SideKeys(db);
    var ix := db.side;
    NthStored(ix, q, n, x);
    var start := 0;
    if common.Some? && IsAncestor(ix.parent, common.value, q) && common.value in ix.height {
      AncestorAt(ix, common.value, q);
      start := ix.height[common.value] + 1;
    }
    assert Above(ix, q, common) == From(ix, q, start);
    AboveHas(ix, q, start, n, x);
  }

  lemma AboveHas(ix: Index, q: Hash, start: nat, n: nat, x: Hash)
    requires Valid(ix) && q in ix.parent && q in ix.height && n + start <= ix.height[q] && Nth(ix.parent, q, n) == Some(x)
    ensures x in From(ix, q, start)
  {
    hide Valid, Nth, Ascending;
    var k := ix.height[q] + 1 - start;
    WalkEntries(ix, q, k);
    assert Ascending(ix.parent, q, k)[k - 1 - n] == x;
  }

  lemma AppendBlock(db: Db, hs: seq<Hash>, x: Hash)
    requires HasBlocks(db, hs) && x in db.headers && x in db.bodies
    ensures HasBlocks(db, hs + [x]) && BlocksAt(db, hs + [x]) == BlocksAt(db, hs) + [Block(db.headers[x], db.bodies[x])]
  {
  }

  lemma CollectStart(db: Db, q: Hash, common: Option<Hash>)
    requires TablesOk(db) && q in db.headers
    ensures Walking(db, q, 0, Some(q), common) && Descending(db.side.parent, q, 0) == []
  {
    hide TablesOk;
    SideKeys(db);
  }

  lemma CollectEnd(db: Db, b: Hash, q: Hash, n: nat, cur: Option<Hash>, common: Option<Hash>)
    requires TablesOk(db) && b in db.headers && db.headers[b].prevSide == Some(q) && q in db.headers
    requires Walking(db, q, n, cur, common) && (cur.Some? ==> cur == common)
    ensures Reverse([b] + Descending(db.side.parent, q, n)) == PathTo(db, b, common)
  {
    hide Nth, Valid, TablesOk, Descending, Above, Reverse, Ascending;
    SideKeys(db);
    WalkEnds(db.side, q, common, n, cur);
    ReverseDescending(db.side.parent, q, n);
    ReverseConcat([b], Descending(db.side.parent, q, n));
    ReverseOne(b);
  }

  // ----- what a write transaction holds -----

  /** Everything that a write transaction can change. */
  datatype Snapshot = Snapshot(db: Db, st: State, txs: PoolTxs, spent: Spent)

  function Current(node: Node): Snapshot
    reads node, node.archive, node.state, node.pool
  {
    Snapshot(node.archive.View(), node.state.View(), node.pool.txs, node.pool.spent)
  }

  /** Dropping the transaction. */
  method Drop(node: Node, s: Snapshot)
    modifies node.archive, node.state, node.pool
    ensures Current(node) == s
  {
    node.archive.Restore(s.db);
    node.state.Commit(s.st);
    node.pool.Restore(s.txs, s.spent);
  }

  /** A consistent node whose archive holds the blocks that `db` holds. */
  ghost predicate Good(cr: Crypto, init: State, db: Db, known: set<Transaction>, s: Snapshot) {
    && ArchiveOk(s.db) && SameArchive(db, s.db) && Exact(s.txs, s.spent)
    && Known(db, s.txs) <= known && OneEach(known)
    && Follows(cr, init, db, s.st)
  }

  // ----- disconnecting -----

  /** The tip after `k` disconnects. */
  ghost function TipBelow(db: Db, tip: Option<Hash>, k: nat): Option<Hash>
    decreases k
  {
    if k == 0 || tip.None? then tip
    else if tip.value in db.headers then TipBelow(db, db.headers[tip.value].prevSide, k - 1)
    else None
  }

  lemma {:induction false} TipBelowNth(db: Db, b: Hash, k: nat)
    requires TablesOk(db) && b in db.headers
    ensures TipBelow(db, Some(b), k) == Nth(db.side.parent, b, k)
    decreases k
  {
    hide TablesOk;
    SideFacts(db, b);
    if k > 0 && db.headers[b].prevSide.Some? { TipBelowNth(db, db.headers[b].prevSide.value, k - 1); }
  }

  lemma {:induction false} TipBelowStep(db: Db, tip: Option<Hash>, k: nat)
    ensures TipBelow(db, tip, k + 1) ==
            match TipBelow(db, tip, k)
            case None => None
            case Some(c) => if c in db.headers then db.headers[c].prevSide else None
    decreases k
  {
    if k > 0 && tip.Some? && tip.value in db.headers { TipBelowStep(db, db.headers[tip.value].prevSide, k - 1); }
  }

  ghost function EntriesAt(db: Db, b: Option<Hash>): seq<AuthorizedTransaction> {
    if b.Some? && b.value in db.bodies then Entries(db.bodies[b.value]) else []
  }

  /** The transactions of the top `k` blocks, in chain order, each with its own
    * authorizations. */
  ghost function TopEntries(db: Db, tip: Option<Hash>, k: nat): seq<AuthorizedTransaction>
    decreases k
  {
    if k == 0 then [] else EntriesAt(db, TipBelow(db, tip, k - 1)) + TopEntries(db, tip, k - 1)
  }

  ghost function TopTxs(db: Db, tip: Option<Hash>, k: nat): seq<Transaction> { Transactions(TopEntries(db, tip, k)) }

  lemma TopTxsStep(db: Db, tip: Option<Hash>, i: nat)
    ensures var b := TipBelow(db, tip, i);
            TopTxs(db, tip, i + 1) ==
            (if b.Some? && b.value in db.bodies then db.bodies[b.value].transactions else []) + TopTxs(db, tip, i)
  {
    hide TipBelow, Entries;
    TransactionsConcat(EntriesAt(db, TipBelow(db, tip, i)), TopEntries(db, tip, i));
  }

  lemma {:induction false} TopEntriesKnown(db: Db, tip: Option<Hash>, k: nat, txs: PoolTxs)
    ensures forall i :: 0 <= i < |TopEntries(db, tip, k)| ==> TopEntries(db, tip, k)[i].tx in Known(db, txs)
    decreases k
  {
    hide TipBelow, Known, Entries;
    if k > 0 {
      TopEntriesKnown(db, tip, k - 1, txs);
      var b := TipBelow(db, tip, k - 1);
      if b.Some? && b.value in db.bodies { BodyKnown(db, txs, b.value, Entries(db.bodies[b.value])); }
    }
  }

  /** The pool after the transactions of the top `i` blocks have gone back to it. */
  ghost predicate WentBack(db: Db, tip: Option<Hash>, i: nat, txs: PoolTxs, spent: set<OutPoint>, now: PoolTxs, nowSpent: set<OutPoint>) {
    && Welcome(spent, TopTxs(db, tip, i)) && Counted(TopEntries(db, tip, i))
    && now == PutBack(txs, TopEntries(db, tip, i))
    && nowSpent == spent + Elements(AllInputs(TopTxs(db, tip, i)))
  }

  lemma WentBackNone(db: Db, tip: Option<Hash>, txs: PoolTxs, spent: set<OutPoint>)
    ensures WentBack(db, tip, 0, txs, spent, txs, spent)
  {
  }

  lemma WentBackStep(db: Db, tip: Option<Hash>, i: nat, b: Hash, txs: PoolTxs, spent: set<OutPoint>,
                     mid: PoolTxs, midSpent: set<OutPoint>)
    requires WentBack(db, tip, i, txs, spent, mid, midSpent) && TipBelow(db, tip, i) == Some(b) && b in db.bodies
    requires Counted(Entries(db.bodies[b]))
    ensures Welcome(spent, TopTxs(db, tip, i + 1)) <==> Welcome(midSpent, db.bodies[b].transactions)
    ensures Welcome(midSpent, db.bodies[b].transactions) ==>
              WentBack(db, tip, i + 1, txs, spent, PutBack(mid, Entries(db.bodies[b])),
                       midSpent + Elements(AllInputs(db.bodies[b].transactions)))
  {
    hide TipBelow, Welcome, AllInputs, Entries, PutBack, TopTxs;
    TopTxsStep(db, tip, i);
    WelcomeConcat(spent, db.bodies[b].transactions, TopTxs(db, tip, i));
    PutBackConcat(txs, Entries(db.bodies[b]), TopEntries(db, tip, i));
  }

  lemma {:induction false} TopTxsWelcome(spent: set<OutPoint>, db: Db, tip: Option<Hash>, i: nat, k: nat)
    requires i <= k && Welcome(spent, TopTxs(db, tip, k))
    ensures Welcome(spent, TopTxs(db, tip, i))
    decreases k
  {
    hide Welcome, TipBelow, TopTxs;
    if i < k {
      var b := TipBelow(db, tip, k - 1);
      var txs := if b.Some? && b.value in db.bodies then db.bodies[b.value].transactions else [];
      TopTxsStep(db, tip, k - 1);
      WelcomeConcat(spent, txs, TopTxs(db, tip, k - 1));
      TopTxsWelcome(spent, db, tip, i, k - 1);
    }
  }

  /** Disconnects `count` blocks. Only the pool can refuse, and does so exactly when
    * it cannot take all their transactions. */
  method DisconnectBlocks(node: Node, cr: Crypto, count: nat, ghost init: State, ghost db: Db, ghost known: set<Transaction>)
    returns (r: Result<(), NodeError>)
    requires Start(init) && Good(cr, init, db, known, Current(node)) && node.archive.View() == db
    requires node.state.tip.Some? ==> node.state.tip.value in db.side.height && count <= db.side.height[node.state.tip.value] + 1
    requires node.state.tip.None? ==> count == 0
    modifies node.state, node.pool
    ensures node.archive.View() == old(node.archive.View())
    ensures r.Ok? ==> Good(cr, init, db, known, Current(node)) && node.state.tip == TipBelow(db, old(node.state.tip), count)
    ensures r.Err? ==> r.error.PoolFailed?
    ensures r.Ok? <==> Welcome(old(node.pool.spent).Keys, TopTxs(db, old(node.state.tip), count))
    ensures r.Ok? ==>
              && node.pool.txs == PutBack(old(node.pool.txs), TopEntries(db, old(node.state.tip), count))
              && Took(old(node.pool.txs), node.pool.txs, TopEntries(db, old(node.state.tip), count))
  {
    hide ArchiveOk, Exact, Known, OneEach, Follows, Start, SameArchive, Welcome, TopTxs, TipBelow, WentBack, PutBack, Took, TopEntries,
      Entries, Counted, AllInputs;
    ghost var tip, spent, txs := node.state.tip, node.pool.spent.Keys, node.pool.txs;
    TipBelowZero(db, tip);
    WentBackNone(db, tip, txs, spent);
    for i := 0 to count
      invariant Good(cr, init, db, known, Current(node)) && node.archive.View() == db
      invariant node.state.tip == TipBelow(db, tip, i)
      invariant WentBack(db, tip, i, txs, spent, node.pool.txs, node.pool.spent.Keys)
    {
      StillTip(db, tip, i, count);
      TipBelowStep(db, tip, i);
      OneEachBelow(Known(db, node.pool.txs), known);
      ghost var b, mid, midSpent := node.state.tip.value, node.pool.txs, node.pool.spent.Keys;
      var step := node.DisconnectTip(cr, init);
      WentBackStep(db, tip, i, b, txs, spent, mid, midSpent);
      if step.Err? {
        if Welcome(spent, TopTxs(db, tip, count)) { TopTxsWelcome(spent, db, tip, i + 1, count); }
        return Err(step.error);
      }
    }
    OneEachBelow(Known(db, txs), known);
    WentBackIs(db, tip, count, txs, spent, node.pool.txs, node.pool.spent.Keys);
    return Ok(());
  }

  /** Each transaction is back with exactly its own authorizations, and every other
    * entry is as it was. */
  lemma WentBackIs(db: Db, tip: Option<Hash>, i: nat, txs: PoolTxs, spent: set<OutPoint>, now: PoolTxs, nowSpent: set<OutPoint>)
    requires WentBack(db, tip, i, txs, spent, now, nowSpent) && OneEach(Known(db, txs))
    ensures Welcome(spent, TopTxs(db, tip, i)) && now == PutBack(txs, TopEntries(db, tip, i)) && Took(txs, now, TopEntries(db, tip, i))
  {
    hide TopEntries, Welcome, Known, Took, PutBack;
    TopEntriesKnown(db, tip, i, txs);
    EntriesTook(spent, Known(db, txs), TopEntries(db, tip, i));
    PutBackTook(txs, TopEntries(db, tip, i));
  }

  lemma TipBelowZero(db: Db, tip: Option<Hash>)
    ensures TipBelow(db, tip, 0) == tip
  {
  }

  lemma StillTip(db: Db, tip: Option<Hash>, i: nat, count: nat)
    requires ArchiveOk(db) && i < count && tip.Some? && tip.value in db.side.height && count <= db.side.height[tip.value] + 1
    ensures TipBelow(db, tip, i).Some?
  {
    hide SkipOk, SuccOk, Nth, TipBelow;
    TipBelowNth(db, tip.value, i);
    NthHeight(db.side.parent, db.side.height, tip.value, i);
  }

  // ----- connecting -----

  lemma GoodParts(cr: Crypto, init: State, db: Db, known: set<Transaction>, s: Snapshot)
    requires Good(cr, init, db, known, s)
    ensures ArchiveOk(s.db) && SameArchive(db, s.db) && Exact(s.txs, s.spent) && Follows(cr, init, db, s.st)
    ensures s.db.headers == db.headers && s.db.bodies == db.bodies && s.db == db.(bmm := s.db.bmm)
    ensures Scored(s.db)
  {
    hide TablesOk, WorkOk, BmmOk, Follows, Exact, Known, OneEach;
  }

  lemma GoodNext(cr: Crypto, init: State, db: Db, known: set<Transaction>, s: Snapshot, t: Snapshot, gone: set<Txid>)
    requires Good(cr, init, db, known, s) && ArchiveOk(t.db) && SameArchive(s.db, t.db)
    requires Exact(t.txs, t.spent) && t.txs == Keep(s.txs, gone) && Follows(cr, init, db, t.st)
    ensures Good(cr, init, db, known, t)
  {
    hide ArchiveOk, Follows, Exact, Known, OneEach, IsVerified;
    SameTrans(db, s.db, t.db);
    KnownKeep(db, s.txs, gone);
  }

  /** A stored block on top of the tip, that starts a good chain. */
  ghost predicate NextBlock(cr: Crypto, init: State, db: Db, tip: Option<Hash>, b: Hash) {
    b in db.headers && b in db.bodies && db.headers[b].prevSide == tip && GoodChain(cr, init, db, Some(b))
  }

  /** Block `b` of the path is invalid on the chain below it. */
  ghost predicate Invalid(cr: Crypto, init: State, db: Db, b: Hash) {
    && b in db.headers && b in db.bodies && HasBlocks(db, Hashes(db, Some(b)))
    && Fold(cr, init, BlocksAt(db, Hashes(db, Some(b)))).Err?
  }

  lemma NextHasBlocks(cr: Crypto, init: State, db: Db, tip: Option<Hash>, b: Hash)
    requires NextBlock(cr, init, db, tip, b)
    ensures HasBlocks(db, Hashes(db, Some(b)))
  {
  }

  /** A stored first block, where there is a tip already. */
  ghost predicate Detached(db: Db, tip: Option<Hash>, b: Hash) {
    tip.Some? && b in db.headers && b in db.bodies && db.headers[b].prevSide.None?
  }

  lemma NextOrDetached(cr: Crypto, init: State, db: Db, st: State, b: Hash)
    requires Start(init) && TablesOk(db) && Follows(cr, init, db, st)
    requires NextBlock(cr, init, db, st.tip, b) || Detached(db, st.tip, b)
    ensures b in db.headers && b in db.bodies
    ensures Detached(db, st.tip, b) ==> ApplyBlock(cr, st, db.headers[b], db.bodies[b]).Err?
    ensures NextBlock(cr, init, db, st.tip, b) ==>
              var r := ApplyBlock(cr, st, db.headers[b], db.bodies[b]);
              && (r.Ok? ==> Follows(cr, init, db, r.value) && r.value.tip == Some(b))
              && (r.Ok? <==> !Invalid(cr, init, db, b))
  {
    hide Start, TablesOk, GoodChain, ApplyBlock, Fold, Hashes, BlocksAt, HasBlocks;
    if NextBlock(cr, init, db, st.tip, b) {
      NextHasBlocks(cr, init, db, st.tip, b);
      FollowsUp(cr, init, db, st, b);
    } else {
      NoParentOnTip(cr, st, db.headers[b], db.bodies[b]);
    }
  }

  /** What connecting a stored block looks up, beside its chain: a verification, and
    * the contents of the mainchain blocks that may commit to it. */
  ghost predicate Connectable(db: Db, b: Hash) {
    b in db.headers && ChildrenKnown(db, db.headers[b].prevMain) && exists m :: IsVerified(db, b, m)
  }

  /** If there is a tip to beat, the comparison with it answers, whichever best
    * verification of the block is taken. */
  ghost predicate SurelyCompares(db: Db, was: Option<Tip>, b: Hash) {
    was.Some? ==> forall m :: IsBest(db, b, m) ==> Answers(db, was.value, Tip(b, m))
  }

  /** It answers for one of them. */
  ghost predicate MayCompare(db: Db, was: Option<Tip>, b: Hash) {
    was.Some? ==> exists m :: IsBest(db, b, m) && Answers(db, was.value, Tip(b, m))
  }

  /** Whether to commit: if there is no tip to beat, or if the comparison picks the
    * block with its best verification. */
  method Decide(view: Db, was: Option<Tip>, b: Hash, ghost db: Db) returns (r: Result<bool, NodeError>)
    requires ArchiveOk(view) && Scored(view) && SameArchive(db, view) && b in view.headers
    ensures r.Ok? ==> if r.value then Accepted(db, was, b) else Declined(db, was, b)
    ensures r.Ok? ==> (exists m :: IsVerified(db, b, m)) && MayCompare(db, was, b)
    ensures (exists m :: IsVerified(db, b, m)) && SurelyCompares(db, was, b) ==> r.Ok?
    ensures r.Err? ==> IsFatal(r.error)
  {
    hide ArchiveOk, SameArchive, IsVerified, Accepted, Declined, Scored, Comparable, Rated, Better, FirstAbove, Answers, IsBest, Chose,
      MayCompare, SurelyCompares;
    forall m | IsVerified(view, b, m) ensures m in view.work { VerifiedHasWork(view, b, m); }
    SameVerified(db, view, b);
    var best := BestMain(view, b);
    if best.None? { return Err(NoBmmResult); }
    if was.None? {
      NothingToBeat(db, was, b);
      return Ok(true);
    }
    var next := Tip(b, best.value);
    BestSame(db, view, b, best.value);
    ComparesWith(db, view, was, b, best.value);
    var answer, c := Compare(view, was.value, next);
    if answer.Err? { return Err(ArchiveFailed(answer.error)); }
    if answer.value != Some(next) {
      DeclinedNow(db, view, was, b, best.value, c, answer.value);
      return Ok(false);
    }
    ChoseNow(view, was.value, next, c);
    AcceptedNow(view, was, b, best.value);
    AcceptedSame(db, view, was, b);
    return Ok(true);
  }

  lemma SameVerified(db: Db, view: Db, b: Hash)
    requires SameArchive(db, view)
    ensures forall m :: IsVerified(view, b, m) <==> IsVerified(db, b, m)
  {
  }

  lemma ComparesWith(db: Db, view: Db, was: Option<Tip>, b: Hash, m: Hash)
    requires SameArchive(db, view) && was.Some? && IsBest(db, b, m)
    ensures Answers(view, was.value, Tip(b, m)) ==> MayCompare(db, was, b)
    ensures SurelyCompares(db, was, b) ==> Answers(view, was.value, Tip(b, m))
  {
    hide IsBest, Answers, IsVerified;
    AnswersSame(db, view, was.value, Tip(b, m));
  }

  /** One block: connects it, and says whether to commit. It fails exactly when the
    * block is invalid on its chain or lacks what connecting or comparing it looks
    * up. A first block does not connect to a tip. */
  method ApplyNext(node: Node, cr: Crypto, block: Block, was: Option<Tip>,
                   ghost init: State, ghost db: Db, ghost known: set<Transaction>, ghost b: Hash)
    returns (r: Result<bool, NodeError>, ghost gone: set<Txid>)
    requires Start(init) && ArchiveOk(db) && Good(cr, init, db, known, Current(node))
    requires NextBlock(cr, init, db, node.state.tip, b) || Detached(db, node.state.tip, b)
    requires block == Block(db.headers[b], db.bodies[b])
    modifies node.archive, node.state, node.pool
    ensures r.Ok? ==> Good(cr, init, db, known, Current(node)) && node.state.tip == Some(b)
    ensures r.Ok? ==> if r.value then Accepted(db, was, b) else Declined(db, was, b)
    ensures r.Ok? ==> IsCascadeOf(old(node.pool.txs), BodyTxids(db.bodies[b]), gone) && node.pool.txs == Keep(old(node.pool.txs), gone)
    ensures r.Err? && r.error.StateFailed? && NextBlock(cr, init, db, old(node.state.tip), b) ==> Invalid(cr, init, db, b)
    ensures Detached(db, old(node.state.tip), b) ==> r.Err? && r.error.StateFailed?
    ensures NextBlock(cr, init, db, old(node.state.tip), b) ==>
              && (r.Ok? ==> !Invalid(cr, init, db, b) && Connectable(db, b) && MayCompare(db, was, b))
              && (!Invalid(cr, init, db, b) && Connectable(db, b) && SurelyCompares(db, was, b) ==> r.Ok?)
  {
    hide ArchiveOk, Exact, Known, OneEach, Follows, Start, SameArchive, Good, Fold, GoodChain, ApplyBlock, IsCascadeOf,
      IsVerified, Accepted, Declined, Scored, Invalid, SurelyCompares, MayCompare, ChildrenKnown, BodyTxids;
    ghost var before := Current(node);
    GoodParts(cr, init, db, known, before);
    ArchiveTables(db);
    NextOrDetached(cr, init, db, before.st, b);
    BlockHash(db, b);
    SameChildren(db, before.db, block.header.prevMain);
    var connected;
    connected, gone := node.ConnectTip(cr, block.header, block.body);
    if connected.Err? { return Err(connected.error), gone; }
    GoodNext(cr, init, db, known, before, Current(node), gone);
    GoodParts(cr, init, db, known, Current(node));
    r := Decide(node.archive.View(), was, block.header.hash, db);
  }

  lemma SameChildren(db: Db, db': Db, m: Hash)
    requires db' == db.(bmm := db'.bmm)
    ensures ChildrenKnown(db', m) == ChildrenKnown(db, m)
  {
  }

  lemma BlockHash(db: Db, b: Hash)
    requires ArchiveOk(db) && b in db.headers
    ensures db.headers[b].hash == b
  {
    hide BmmOk, WorkOk;
  }

  lemma NothingToBeat(db: Db, was: Option<Tip>, b: Hash)
    requires was.None?
    ensures Accepted(db, was, b) && MayCompare(db, was, b)
  {
  }

  lemma ChoseNow(db: Db, a: Tip, t: Tip, c: Option<Hash>)
    requires FirstAbove(db, a, t) || (Comparable(db, a) && Comparable(db, t))
    requires Comparable(db, a) && Comparable(db, t) ==>
               Rated(db, a, t, c) && Rated(db, t, a, c) && Better(db, c, a, t) == Some(t)
    ensures Chose(db, a, t)
  {
    hide Comparable, Rated, Better;
  }

  lemma AcceptedNow(db: Db, was: Option<Tip>, b: Hash, m: Hash)
    requires IsBest(db, b, m) && was.Some? && Chose(db, was.value, Tip(b, m))
    ensures Accepted(db, was, b)
  {
    hide Chose, IsBest;
  }

  lemma RatedParts(db: Db, a: Tip, t: Tip, c: Option<Hash>)
    requires Rated(db, a, t, c)
    ensures Comparable(db, a) && Comparable(db, t)
  {
  }

  /** An answer other than `t` means that `t` is not better. */
  lemma NotChosen(db: Db, a: Tip, t: Tip, c: Option<Hash>, answer: Option<Tip>)
    requires answer != Some(t) && !FirstAbove(db, a, t)
    requires Comparable(db, a) && Comparable(db, t) ==>
               Rated(db, a, t, c) && Rated(db, t, a, c) && Better(db, c, a, t) == answer
    ensures !Chose(db, a, t)
  {
    hide Comparable, Rated, Better;
    if Beats(db, a, t) {
      var d :| Rated(db, a, t, d) && Rated(db, t, a, d) && Better(db, d, a, t) == Some(t);
      RatedParts(db, a, t, d);
      CommonSame(db, a, t, c, d);
    }
  }

  lemma DeclinedNow(db: Db, view: Db, was: Option<Tip>, b: Hash, m: Hash, c: Option<Hash>, answer: Option<Tip>)
    requires SameArchive(db, view) && IsBest(view, b, m) && was.Some? && answer != Some(Tip(b, m))
    requires !FirstAbove(view, was.value, Tip(b, m))
    requires Comparable(view, was.value) && Comparable(view, Tip(b, m)) ==>
               && Rated(view, was.value, Tip(b, m), c) && Rated(view, Tip(b, m), was.value, c)
               && Better(view, c, was.value, Tip(b, m)) == answer
    ensures Declined(db, was, b)
  {
    hide Comparable, Rated, Better;
    var t := Tip(b, m);
    BestSame(db, view, b, m);
    NotChosen(view, was.value, t, c, answer);
    if Chose(db, was.value, t) {
      assert db == view.(bmm := db.bmm);
      ChoseSame(view, db, was.value, t);
    }
  }

  /** The blocks of the path follow one another from the common ancestor, and each
    * starts a good chain. */
  ghost predicate GoodPath(cr: Crypto, init: State, db: Db, common: Option<Hash>, hs: seq<Hash>) {
    forall i {:trigger hs[i]} :: 0 <= i < |hs| ==>
      NextBlock(cr, init, db, if i == 0 then common else Some(hs[i - 1]), hs[i])
  }

  /** What the node falls back to: the last block of the path that it accepted, or
    * where it started if it accepted none. */
  ghost predicate Kept(cr: Crypto, init: State, db: Db, known: set<Transaction>, was: Option<Tip>, hs: seq<Hash>, n: nat,
                       start: Snapshot, kept: Snapshot)
    requires n <= |hs|
  {
    (kept == start && DeclinedFrom(db, was, hs, 0, n)) ||
    (Good(cr, init, db, known, kept) && exists j :: AcceptedLast(db, was, hs, n, kept.st.tip, j))
  }

  ghost predicate DeclinedFrom(db: Db, was: Option<Tip>, hs: seq<Hash>, j: nat, n: nat)
    requires n <= |hs|
  {
    forall i :: j <= i < n ==> Declined(db, was, hs[i])
  }

  ghost predicate AcceptedLast(db: Db, was: Option<Tip>, hs: seq<Hash>, n: nat, tip: Option<Hash>, j: nat)
    requires n <= |hs|
  {
    j < n && tip == Some(hs[j]) && Accepted(db, was, hs[j]) && DeclinedFrom(db, was, hs, j + 1, n)
  }

  lemma KeptLater(cr: Crypto, init: State, db: Db, known: set<Transaction>, was: Option<Tip>, hs: seq<Hash>, n: nat,
                  start: Snapshot, kept: Snapshot)
    requires n < |hs| && Kept(cr, init, db, known, was, hs, n, start, kept) && Declined(db, was, hs[n])
    ensures Kept(cr, init, db, known, was, hs, n + 1, start, kept)
  {
    hide Good, Accepted, Declined;
    if !(kept == start && DeclinedFrom(db, was, hs, 0, n)) {
      var j :| AcceptedLast(db, was, hs, n, kept.st.tip, j);
      assert AcceptedLast(db, was, hs, n + 1, kept.st.tip, j);
    }
  }

  lemma KeptNow(cr: Crypto, init: State, db: Db, known: set<Transaction>, was: Option<Tip>, hs: seq<Hash>, n: nat,
                start: Snapshot, kept: Snapshot)
    requires n < |hs| && Good(cr, init, db, known, kept) && kept.st.tip == Some(hs[n]) && Accepted(db, was, hs[n])
    ensures Kept(cr, init, db, known, was, hs, n + 1, start, kept)
  {
    hide Good, Accepted, Declined;
    assert AcceptedLast(db, was, hs, n + 1, kept.st.tip, n);
  }

  /** After a failure the node is what it kept; an invalid block also lost its body. */
  ghost predicate FellBack(cr: Crypto, init: State, db: Db, hs: seq<Hash>, n: nat, e: NodeError, kept: Snapshot, now: Snapshot)
    requires n < |hs|
  {
    if IsFatal(e) then now == kept
    else
      && Invalid(cr, init, db, hs[n]) && hs[n] in db.bodies
      && now == kept.(db := DeleteBody(kept.db, hs[n], db.bodies[hs[n]]))
  }

  /** Drops the write transaction, and discards the body of an invalid block. */
  method FallBack(node: Node, saved: Snapshot, e: NodeError, block: Block,
                  ghost cr: Crypto, ghost init: State, ghost db: Db, ghost known: set<Transaction>, ghost b: Hash)
    requires ArchiveOk(db) && Good(cr, init, db, known, saved)
    requires b in db.headers && b in db.bodies && block == Block(db.headers[b], db.bodies[b])
    modifies node.archive, node.state, node.pool
    ensures Current(node) == if IsFatal(e) then saved else saved.(db := DeleteBody(saved.db, b, db.bodies[b]))
  {
    hide ArchiveOk, Good, DeleteBody, SameArchive, Exact, Follows, Scored;
    Drop(node, saved);
    if !IsFatal(e) {
      GoodParts(cr, init, db, known, saved);
      BlockHash(db, b);
      node.archive.DropBody(block.header.hash, block.body);
    }
  }

  lemma KeptFirst(cr: Crypto, init: State, db: Db, known: set<Transaction>, was: Option<Tip>, hs: seq<Hash>, start: Snapshot)
    ensures Kept(cr, init, db, known, was, hs, 0, start, start)
  {
  }

  lemma KeptGood(cr: Crypto, init: State, db: Db, known: set<Transaction>, was: Option<Tip>, hs: seq<Hash>, n: nat,
                 start: Snapshot, kept: Snapshot)
    requires n <= |hs| && Kept(cr, init, db, known, was, hs, n, start, kept) && Good(cr, init, db, known, start)
    ensures Good(cr, init, db, known, kept)
  {
    hide Good, Accepted;
  }

  lemma PathBlock(cr: Crypto, init: State, db: Db, common: Option<Hash>, hs: seq<Hash>, blocks: seq<Block>, i: nat)
    requires HasBlocks(db, hs) && Reverse(blocks) == BlocksAt(db, hs) && i < |hs|
    ensures |blocks| == |hs| && hs[i] in db.headers && hs[i] in db.bodies
    ensures blocks[|blocks| - 1 - i] == Block(db.headers[hs[i]], db.bodies[hs[i]])
    ensures GoodPath(cr, init, db, common, hs) ==> NextBlock(cr, init, db, if i == 0 then common else Some(hs[i - 1]), hs[i])
  {
    hide NextBlock, Reverse;
    ReverseEntries(blocks);
    assert BlocksAt(db, hs)[i] == blocks[|blocks| - 1 - i];
  }

  lemma PathLength(db: Db, hs: seq<Hash>, blocks: seq<Block>)
    requires HasBlocks(db, hs) && Reverse(blocks) == BlocksAt(db, hs)
    ensures |blocks| == |hs|
  {
    ReverseEntries(blocks);
  }

  /** The node kept everything but the body of one block. */
  ghost predicate LostBody(before: Snapshot, b: Hash, now: Snapshot) {
    b in before.db.bodies && now == before.(db := DeleteBody(before.db, b, before.db.bodies[b]))
  }

  /** Nothing stops the first `n` blocks of the path: each is valid on its chain, and
    * what connecting and comparing it looks up is stored. */
  ghost predicate SurelyApplies(cr: Crypto, init: State, db: Db, was: Option<Tip>, hs: seq<Hash>, n: nat)
    requires n <= |hs|
  {
    forall i :: 0 <= i < n ==> !Invalid(cr, init, db, hs[i]) && Connectable(db, hs[i]) && SurelyCompares(db, was, hs[i])
  }

  ghost predicate MayApply(cr: Crypto, init: State, db: Db, was: Option<Tip>, hs: seq<Hash>, n: nat)
    requires n <= |hs|
  {
    forall i :: 0 <= i < n ==> !Invalid(cr, init, db, hs[i]) && Connectable(db, hs[i]) && MayCompare(db, was, hs[i])
  }

  /** The txids of the first `n` blocks of the path. */
  ghost function PathTxids(db: Db, hs: seq<Hash>, n: nat): set<Txid>
    requires n <= |hs|
  {
    set i, tx | 0 <= i < n && hs[i] in db.bodies && tx in db.bodies[hs[i]].transactions :: tx.txid
  }

  lemma PathTxidsStep(db: Db, hs: seq<Hash>, n: nat)
    requires n < |hs| && hs[n] in db.bodies
    ensures PathTxids(db, hs, n + 1) == PathTxids(db, hs, n) + BodyTxids(db.bodies[hs[n]])
  {
    var txs := db.bodies[hs[n]].transactions;
    forall t | t in PathTxids(db, hs, n + 1) ensures t in PathTxids(db, hs, n) + BodyTxids(db.bodies[hs[n]]) {
      var i, tx :| 0 <= i < n + 1 && hs[i] in db.bodies && tx in db.bodies[hs[i]].transactions && tx.txid == t;
      if i == n { var k :| 0 <= k < |txs| && txs[k] == tx; }
    }
    forall t | t in BodyTxids(db.bodies[hs[n]]) ensures t in PathTxids(db, hs, n + 1) {
      var k :| 0 <= k < |txs| && txs[k].txid == t;
      assert txs[k] in db.bodies[hs[n]].transactions;
    }
  }

  /** The transactions of the first `n` blocks have left the pool, with all that
    * depend on them. */
  ghost predicate LeftPool(txs: PoolTxs, db: Db, hs: seq<Hash>, n: nat, now: PoolTxs, gone: set<Txid>)
    requires n <= |hs|
  {
    IsCascadeOf(txs, PathTxids(db, hs, n), gone) && now == Keep(txs, gone)
  }

  lemma LeftNone(txs: PoolTxs, db: Db, hs: seq<Hash>)
    ensures LeftPool(txs, db, hs, 0, txs, {})
  {
    CascadeNone(txs);
    assert PathTxids(db, hs, 0) == {};
  }

  lemma LeftMore(txs: PoolTxs, db: Db, hs: seq<Hash>, n: nat, mid: PoolTxs, gone: set<Txid>, now: PoolTxs, more: set<Txid>)
    requires n < |hs| && LeftPool(txs, db, hs, n, mid, gone) && hs[n] in db.bodies
    requires IsCascadeOf(mid, BodyTxids(db.bodies[hs[n]]), more) && now == Keep(mid, more)
    ensures LeftPool(txs, db, hs, n + 1, now, gone + more)
  {
    hide IsCascadeOf, PathTxids, BodyTxids, Keep;
    PathTxidsStep(db, hs, n);
    CascadesCompose(txs, PathTxids(db, hs, n), gone, BodyTxids(db.bodies[hs[n]]), more);
  }

  lemma MayApplyNext(cr: Crypto, init: State, db: Db, was: Option<Tip>, hs: seq<Hash>, n: nat)
    requires n < |hs| && MayApply(cr, init, db, was, hs, n)
    requires !Invalid(cr, init, db, hs[n]) && Connectable(db, hs[n]) && MayCompare(db, was, hs[n])
    ensures MayApply(cr, init, db, was, hs, n + 1)
  {
    hide Invalid, Connectable, MayCompare;
  }

  lemma SurelyAppliesAt(cr: Crypto, init: State, db: Db, was: Option<Tip>, hs: seq<Hash>, i: nat)
    requires i < |hs| && SurelyApplies(cr, init, db, was, hs, |hs|)
    ensures !Invalid(cr, init, db, hs[i]) && Connectable(db, hs[i]) && SurelyCompares(db, was, hs[i])
  {
    hide Invalid, Connectable, SurelyCompares;
  }

  /** What connecting a path leads to. It fails only on a block that is invalid on
    * its chain, or that lacks what connecting or comparing it looks up; the node
    * then falls back. A path that starts with a first block, though there is a tip,
    * fails there: the node falls back to where it started, but for the body of that
    * block. */
  ghost predicate PathApplied(cr: Crypto, init: State, db: Db, known: set<Transaction>, common: Option<Hash>, was: Option<Tip>,
                              hs: seq<Hash>, start: Snapshot, txs: PoolTxs, r: Result<(), NodeError>,
                              kept: Snapshot, n: nat, gone: set<Txid>, now: Snapshot)
    requires hs != []
  {
    && (r.Ok? ==>
          && Good(cr, init, db, known, now) && now.st.tip == Some(hs[|hs| - 1])
          && LeftPool(txs, db, hs, |hs|, now.txs, gone) && MayApply(cr, init, db, was, hs, |hs|))
    && (GoodPath(cr, init, db, common, hs) ==>
          && (SurelyApplies(cr, init, db, was, hs, |hs|) ==> r.Ok?)
          && (r.Err? ==>
                && n < |hs| && Kept(cr, init, db, known, was, hs, n, start, kept)
                && FellBack(cr, init, db, hs, n, r.error, kept, now)))
    && (Detached(db, common, hs[0]) ==> r.Err? && r.error.StateFailed? && LostBody(start, hs[0], now))
  }

  /** Connects the path, oldest block first. */
  method ApplyPath(node: Node, cr: Crypto, blocks: seq<Block>, was: Option<Tip>, start: Snapshot,
                   ghost init: State, ghost db: Db, ghost known: set<Transaction>, ghost common: Option<Hash>, ghost hs: seq<Hash>)
    returns (r: Result<(), NodeError>, ghost kept: Snapshot, ghost n: nat, ghost gone: set<Txid>)
    requires Start(init) && ArchiveOk(db) && Good(cr, init, db, known, start) && Good(cr, init, db, known, Current(node))
    requires node.state.tip == common && HasBlocks(db, hs) && Reverse(blocks) == BlocksAt(db, hs) && hs != []
    requires GoodPath(cr, init, db, common, hs) || Detached(db, common, hs[0])
    modifies node.archive, node.state, node.pool
    ensures PathApplied(cr, init, db, known, common, was, hs, start, old(node.pool.txs), r, kept, n, gone, Current(node))
  {
    hide ArchiveOk, Good, Start, Reverse, NextBlock, Accepted, Declined, Fold, Kept, BlocksAt, HasBlocks, Hashes, DeleteBody,
      GoodPath, Invalid, SameArchive, Exact, Follows, Scored, MayApply, SurelyApplies, LeftPool, Connectable, MayCompare, SurelyCompares,
      IsCascadeOf, Keep, BodyTxids;
    var saved := start;
    kept, n, gone := start, 0, {};
    ghost var txs := node.pool.txs;
    LeftNone(txs, db, hs);
    MayApplyNone(cr, init, db, was, hs);
    KeptFirst(cr, init, db, known, was, hs, start);
    PathLength(db, hs, blocks);
    GoodParts(cr, init, db, known, start);
    var i := 0;
    while i < |blocks|
      invariant 0 <= i <= |blocks| && n == i && saved == kept
      invariant Good(cr, init, db, known, Current(node))
      invariant node.state.tip == if i == 0 then common else Some(hs[i - 1])
      invariant Kept(cr, init, db, known, was, hs, i, start, kept)
      invariant i == 0 ==> kept == start
      invariant LeftPool(txs, db, hs, i, node.pool.txs, gone) && MayApply(cr, init, db, was, hs, i)
      invariant i > 0 ==> GoodPath(cr, init, db, common, hs) && !Detached(db, common, hs[0])
      decreases |blocks| - i
    {
      var block := blocks[|blocks| - 1 - i];
      PathBlock(cr, init, db, common, hs, blocks, i);
      if GoodPath(cr, init, db, common, hs) { NotBothStarts(cr, init, db, common, hs); }
      ghost var mid := node.pool.txs;
      var step, more := ApplyNext(node, cr, block, was, init, db, known, hs[i]);
      if step.Err? {
        if SurelyApplies(cr, init, db, was, hs, |hs|) { SurelyAppliesAt(cr, init, db, was, hs, i); }
        KeptGood(cr, init, db, known, was, hs, i, start, kept);
        FallBack(node, saved, step.error, block, cr, init, db, known, hs[i]);
        return Err(step.error), kept, n, gone;
      }
      LeftMore(txs, db, hs, i, mid, gone, node.pool.txs, more);
      MayApplyNext(cr, init, db, was, hs, i);
      gone := gone + more;
      if step.value {
        saved := Current(node);
        kept := saved;
        KeptNow(cr, init, db, known, was, hs, i, start, kept);
      } else {
        KeptLater(cr, init, db, known, was, hs, i, start, kept);
      }
      i, n := i + 1, n + 1;
    }
    return Ok(()), kept, n, gone;
  }

  lemma MayApplyNone(cr: Crypto, init: State, db: Db, was: Option<Tip>, hs: seq<Hash>)
    ensures MayApply(cr, init, db, was, hs, 0)
  {
  }

  lemma NotBothStarts(cr: Crypto, init: State, db: Db, common: Option<Hash>, hs: seq<Hash>)
    requires hs != [] && GoodPath(cr, init, db, common, hs)
    ensures !Detached(db, common, hs[0])
  {
    assert NextBlock(cr, init, db, common, hs[0]);
  }

  // ----- the path above the common ancestor -----

  /** Block k of a chain has the first k + 1 blocks as its own chain. */
  lemma {:induction false} ChainEntry(db: Db, b: Hash, k: nat)
    requires TablesOk(db) && b in db.headers && k < |Hashes(db, Some(b))|
    ensures var hs := Hashes(db, Some(b));
            && hs[k] in db.headers && Hashes(db, Some(hs[k])) == hs[..k + 1]
            && db.headers[hs[k]].prevSide == (if k == 0 then None else Some(hs[k - 1]))
    decreases if b in db.side.height then db.side.height[b] else 0
  {
    hide TablesOk, Hashes;
    HashesStep(db, b);
    ActiveChain.ParentStored(db, b);
    var hs, parent := Hashes(db, Some(b)), db.headers[b].prevSide;
    var below := Hashes(db, parent);
    if k == |hs| - 1 {
      assert hs[..k + 1] == hs;
    } else {
      ParentLower(db, b);
      ChainEntry(db, parent.value, k);
      assert hs[..k + 1] == below[..k + 1];
    }
  }

  lemma ParentLower(db: Db, b: Hash)
    requires TablesOk(db) && b in db.headers && Hashes(db, db.headers[b].prevSide) != []
    ensures db.headers[b].prevSide.Some?
    ensures var q := db.headers[b].prevSide.value;
            q in db.headers && q in db.side.height && b in db.side.height && db.side.height[q] < db.side.height[b]
  {
    hide TablesOk;
    SideFacts(db, b);
  }

  /** The stored chain of `b`, if it is complete, connects only fresh blocks. Hashing
    * alone does not make it so: transactions without inputs can be sent again. */
  ghost predicate Trusted(cr: Crypto, init: State, db: Db, b: Hash) {
    b in db.headers && HasBlocks(db, Hashes(db, Some(b))) ==> FreshChain(cr, init, BlocksAt(db, Hashes(db, Some(b))))
  }

  lemma PathIsGood(cr: Crypto, init: State, db: Db, b: Hash, common: Option<Hash>)
    requires TablesOk(db) && b in db.headers && Trusted(cr, init, db, b)
    requires common.Some? ==> common.value != b && IsAncestor(db.side.parent, common.value, b)
    requires HasBlocks(db, Hashes(db, common)) && HasBlocks(db, PathTo(db, b, common))
    ensures GoodPath(cr, init, db, common, PathTo(db, b, common))
    ensures PathTo(db, b, common) != [] && PathTo(db, b, common)[|PathTo(db, b, common)| - 1] == b
  {
    hide TablesOk, IsAncestor, Hashes, Above, FreshChain;
    PathContinues(db, b, common);
    var base, hs, all := Hashes(db, common), PathTo(db, b, common), Hashes(db, Some(b));
    assert all == base + hs;
    assert HasBlocks(db, all);
    CommonLast(db, common);
    forall i {:trigger hs[i]} | 0 <= i < |hs|
      ensures NextBlock(cr, init, db, if i == 0 then common else Some(hs[i - 1]), hs[i])
    {
      var k := |base| + i;
      assert all[k] == hs[i];
      ChainEntry(db, b, k);
      PrefixBlocks(db, all, k + 1);
      FreshPrefix(cr, init, BlocksAt(db, all), k + 1);
      if i > 0 { assert all[k - 1] == hs[i - 1]; }
    }
  }

  lemma CommonLast(db: Db, common: Option<Hash>)
    requires TablesOk(db) && (common.Some? ==> common.value in db.headers)
    ensures if common.None? then Hashes(db, common) == []
            else Hashes(db, common) != [] && Hashes(db, common)[|Hashes(db, common)| - 1] == common.value
  {
    hide TablesOk, From;
    if common.Some? { HashesStep(db, common.value); }
  }

  /** Blocks of a chain are ancestors of its tip, no higher than it. */
  lemma OnChain(db: Db, tip: Option<Hash>, x: Hash)
    requires TablesOk(db) && x in Hashes(db, tip)
    ensures tip.Some? && tip.value in db.side.height && x in db.side.height
    ensures IsAncestor(db.side.parent, x, tip.value) && db.side.height[x] <= db.side.height[tip.value]
  {
    hide TablesOk, IsAncestor, Valid;
    SideKeys(db);
    FromEntries(db.side, tip.value, 0);
  }

  /** No block of the path is on the old chain. */
  lemma PathIsNew(db: Db, tip: Option<Hash>, b: Hash, common: Option<Hash>, x: Hash)
    requires TablesOk(db) && b in db.headers && (tip.Some? ==> tip.value in db.headers)
    requires tip.Some? ==> IsCommon(db.side, tip.value, b, common)
    requires common.Some? ==> tip.Some? && common.value != b && IsAncestor(db.side.parent, common.value, b)
    requires x in PathTo(db, b, common)
    ensures x !in Hashes(db, tip)
  {
    hide TablesOk, IsAncestor, Valid, Hashes, OneGenesis, PathTo, Above;
    SideKeys(db);
    PathContinues(db, b, common);
    var base, hs, all := Hashes(db, common), PathTo(db, b, common), Hashes(db, Some(b));
    var i :| 0 <= i < |hs| && hs[i] == x;
    assert all[|base| + i] == x;
    if x in Hashes(db, tip) {
      OnChain(db, tip, x);
      OnChain(db, Some(b), x);
      if common.Some? {
        AboveNotAncestor(db, b, common.value, |base| + i);
      } else {
        SharedGenesis(db.side, tip.value, b, x);
      }
    }
  }

  /** Entries past the chain of an ancestor are not ancestors of it. */
  lemma AboveNotAncestor(db: Db, b: Hash, c: Hash, k: nat)
    requires TablesOk(db) && b in db.headers && c in db.headers
    requires |Hashes(db, Some(c))| <= k < |Hashes(db, Some(b))|
    ensures !IsAncestor(db.side.parent, Hashes(db, Some(b))[k], c)
  {
    hide TablesOk, IsAncestor, Valid, Hashes;
    SideKeys(db);
    ChainEntry(db, b, k);
    var x := Hashes(db, Some(b))[k];
    HashesStep(db, x);
    HashesStep(db, c);
    HighNotAncestor(db.side, x, c);
  }

  lemma HighNotAncestor(ix: Index, x: Hash, c: Hash)
    requires Valid(ix) && x in ix.parent && c in ix.parent && x in ix.height && c in ix.height && ix.height[x] > ix.height[c]
    ensures !IsAncestor(ix.parent, x, c)
  {
    hide Nth, IsAncestor, SkipOk, SuccOk;
    AncestorByHeight(ix.parent, ix.height, x, c);
  }

  lemma SharedGenesis(ix: Index, a: Hash, b: Hash, x: Hash)
    requires Valid(ix) && a in ix.parent && b in ix.parent && a in ix.height && b in ix.height
    requires IsAncestor(ix.parent, x, a) && IsAncestor(ix.parent, x, b)
    ensures OneGenesis(ix, a, b)
  {
    hide Nth, IsAncestor, SkipOk, SuccOk;
    GenesisOfAncestor(ix.parent, ix.height, a, x);
    GenesisOfAncestor(ix.parent, ix.height, b, x);
  }
}
