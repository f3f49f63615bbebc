/** The node: connecting and disconnecting its tip, with archive, state and
  * memory pool changed together. */
module Nodes {
  import opened Wrappers
  import opened Types
  import opened Blocks
  import opened Chains
  import opened ArchiveDb
  import opened BmmTable
  import opened ArchiveRuns
  import opened Inclusions
  import opened Archives
  import opened Resubmission
  import opened MemPool
  import opened PoolReturns
  import opened Signatures
  import opened StateDb
  import opened ActiveChain

  datatype NodeError =
    | StateFailed(stateError: Error)
    | ArchiveFailed(archiveError: ArchiveError)
    | PoolFailed(poolError: PoolError)
    | NoBmmResult

  /** An invalid block is not fatal to the node; anything else is. */
  predicate IsFatal(e: NodeError) { !e.StateFailed? }

  /** The transactions that the node stores. */
  ghost function Known(db: Db, txs: PoolTxs): set<Transaction> {
    (set b, tx | b in db.bodies && tx in db.bodies[b].transactions :: tx) + (set t | t in txs :: txs[t].tx)
  }

  /** A txid identifies a transaction. */
  ghost predicate OneEach(s: set<Transaction>) {
    forall x, y :: x in s && y in s && x.txid == y.txid ==> x == y
  }

  lemma OneEachBelow(s: set<Transaction>, t: set<Transaction>)
    requires OneEach(t) && s <= t
    ensures OneEach(s)
  {
  }

  lemma KnownBody(db: Db, txs: PoolTxs, b: Hash, tx: Transaction)
    requires b in db.bodies && tx in db.bodies[b].transactions
    ensures tx in Known(db, txs)
  {
  }

  lemma KnownKeep(db: Db, txs: PoolTxs, gone: set<Txid>)
    ensures Known(db, Keep(txs, gone)) <= Known(db, txs)
  {
  }

  lemma KnownStored(db: Db, txs: PoolTxs, t: Txid)
    requires t in txs
    ensures txs[t].tx in Known(db, txs)
  {
  }

  function BodyTxids(body: Body): set<Txid> { TxidSet(body, |body.transactions|) }

  function TxidSet(body: Body, n: nat): set<Txid>
    requires n <= |body.transactions|
  {
    set i | 0 <= i < n :: body.transactions[i].txid
  }

  /** The pool can take these transactions: no output is spent twice by them, and
    * none that they spend is spent in the pool. */
  ghost predicate Welcome(spent: set<OutPoint>, txs: seq<Transaction>) {
    Distinct(AllInputs(txs)) && Elements(AllInputs(txs)) !! spent
  }

  lemma {:induction false} AllInputsConcat(a: seq<Transaction>, b: seq<Transaction>)
    ensures AllInputs(a + b) == AllInputs(a) + AllInputs(b)
    decreases |b|
  {
    if b == [] {
      assert a + b == a;
    } else {
      var n := |b| - 1;
      AllInputsConcat(a, b[..n]);
      assert (a + b)[..|a + b| - 1] == a + b[..n];
      assert AllInputs(a + b) == (AllInputs(a) + AllInputs(b[..n])) + b[n].inputs;
    }
  }

  /** The later transactions go back first. */
  lemma WelcomeConcat(spent: set<OutPoint>, a: seq<Transaction>, b: seq<Transaction>)
    ensures Welcome(spent, a + b) <==> Welcome(spent, b) && Welcome(spent + Elements(AllInputs(b)), a)
    ensures Elements(AllInputs(a + b)) == Elements(AllInputs(a)) + Elements(AllInputs(b))
  {
    hide Distinct, AllInputs;
    AllInputsConcat(a, b);
    DistinctConcat(AllInputs(a), AllInputs(b));
    ElementsConcat(AllInputs(a), AllInputs(b));
  }

  lemma WelcomeNone(spent: set<OutPoint>, ats: seq<AuthorizedTransaction>)
    ensures Welcome(spent, Transactions(ats[|ats|..])) && AllInputs(Transactions(ats[|ats|..])) == []
  {
    assert ats[|ats|..] == [];
  }

  lemma WelcomeOne(spent: set<OutPoint>, ats: seq<AuthorizedTransaction>, i: nat)
    requires i < |ats|
    ensures var tx, rest := ats[i].tx, Transactions(ats[i + 1..]);
            && (Welcome(spent, Transactions(ats[i..])) <==>
                  Welcome(spent, rest) && Distinct(tx.inputs) && Elements(tx.inputs) !! spent + Elements(AllInputs(rest)))
            && Elements(AllInputs(Transactions(ats[i..]))) == Elements(tx.inputs) + Elements(AllInputs(rest))
  {
    hide Distinct;
    var tx, rest := ats[i].tx, Transactions(ats[i + 1..]);
    assert Transactions(ats[i..]) == [tx] + rest;
    assert AllInputs([tx]) == tx.inputs;
    WelcomeConcat(spent, [tx], rest);
  }

  lemma {:induction false} WelcomeTail(spent: set<OutPoint>, ats: seq<AuthorizedTransaction>, i: nat)
    requires i <= |ats| && Welcome(spent, Transactions(ats))
    ensures Welcome(spent, Transactions(ats[i..]))
  {
    hide Welcome;
    assert ats == ats[..i] + ats[i..];
    assert Transactions(ats) == Transactions(ats[..i]) + Transactions(ats[i..]);
    WelcomeConcat(spent, Transactions(ats[..i]), Transactions(ats[i..]));
  }

  class Node {
    const archive: Archive
    const state: ChainState
    const pool: Pool

    constructor ()
      ensures archive.View() == EmptyDb() && ArchiveOk(archive.View()) && pool.Valid() && pool.txs == map[]
      ensures fresh(archive) && fresh(state) && fresh(pool)
    {
      archive := new Archive();
      state := new ChainState();
      pool := new Pool();
    }

    /** The confirmed transactions leave the pool, with all that spend them. */
    method DropConfirmed(body: Body) returns (ghost gone: set<Txid>)
      requires pool.Valid()
      modifies pool
      ensures pool.Valid() && IsCascadeOf(old(pool.txs), BodyTxids(body), gone)
      ensures pool.txs == Keep(old(pool.txs), gone)
    {
      hide Exact, IsCascade, IsCascadeOf, Keep;
      gone := {};
      CascadeNone(pool.txs);
      ghost var txs := pool.txs;
      assert TxidSet(body, 0) == {};
      for i := 0 to |body.transactions|
        invariant pool.Valid() && IsCascadeOf(txs, TxidSet(body, i), gone) && pool.txs == Keep(txs, gone)
      {
        var t := body.transactions[i].txid;
        ghost var more := pool.Delete(t);
        CascadeMore(txs, TxidSet(body, i), gone, t, more);
        assert TxidSet(body, i + 1) == TxidSet(body, i) + {t};
        gone := gone + more;
      }
    }

    /** Connects a stored block. The archive stays as it is; the state becomes
      * what applying the block makes of it; confirmed transactions leave the pool. */
    method ConnectTip(cr: Crypto, header: Header, body: Body) returns (r: Result<(), NodeError>, ghost gone: set<Txid>)
      requires ArchiveOk(archive.View()) && pool.Valid()
      requires header.hash in archive.headers && archive.headers[header.hash] == header
      requires header.hash in archive.bodies && archive.bodies[header.hash] == body
      modifies archive, state, pool
      ensures ArchiveOk(archive.View()) && SameArchive(old(archive.View()), archive.View()) && pool.Valid()
      ensures r.Ok? ==>
                && ApplyBlock(cr, old(state.View()), header, body) == Ok(state.View())
                && IsCascadeOf(old(pool.txs), BodyTxids(body), gone)
      ensures pool.txs == Keep(old(pool.txs), gone)
      ensures r.Err? && r.error.StateFailed? <==> ApplyBlock(cr, old(state.View()), header, body).Err?
      ensures r.Ok? <==> ApplyBlock(cr, old(state.View()), header, body).Ok? && ChildrenKnown(old(archive.View()), header.prevMain)
    {
      hide ArchiveOk, ApplyBlock, Exact, IsCascadeOf, PutHeader, PutBody, SameArchive, ChildrenKnown;
      gone := {};
      CascadeNone(pool.txs);
      ghost var db := archive.View();
      SameSelf(db);
      var applied := state.Apply(cr, header, body);
      if applied.Err? { return Err(StateFailed(applied.error)), {}; }
      StoredNotInvalid(db, header.hash);
      StoresAgain(db, header);
      var h := archive.StoreHeader(header);
      if h.Err? { return Err(ArchiveFailed(h.error)), {}; }
      HeaderAgain(db, header, archive.View());
      SameBodies(db, archive.View());
      BodyAgain(archive.View(), header.hash);
      ghost var db1 := archive.View();
      var b := archive.StoreBody(header.hash, body);
      assert b.Ok? && archive.View() == db1;
      gone := DropConfirmed(body);
      return Ok(()), gone;
    }

    /** Transactions of a disconnected block go back to the pool, last first. That
      * fails exactly when the pool cannot take them all. */
    method ReturnToPool(ats: seq<AuthorizedTransaction>) returns (r: Result<(), PoolError>)
      requires pool.Valid() && OneEach(Known(archive.View(), pool.txs))
      requires forall i :: 0 <= i < |ats| ==> ats[i].tx in Known(archive.View(), pool.txs)
      modifies pool
      ensures pool.Valid() && Known(archive.View(), pool.txs) <= Known(archive.View(), old(pool.txs))
      ensures r.Ok? <==> Welcome(old(pool.spent).Keys, Transactions(ats))
      ensures r.Ok? ==>
                && pool.spent.Keys == old(pool.spent).Keys + Elements(AllInputs(Transactions(ats)))
                && pool.txs == PutBack(old(pool.txs), ats)
    {
      hide Exact, Known, Distinct, AllInputs, Welcome;
      ghost var known := Known(archive.View(), pool.txs);
      ghost var db, spent := archive.View(), pool.spent.Keys;
      var i := |ats|;
      WelcomeNone(spent, ats);
      while i > 0
        invariant 0 <= i <= |ats| && archive.View() == db
        invariant pool.Valid() && Known(db, pool.txs) <= known
        invariant Welcome(spent, Transactions(ats[i..]))
        invariant pool.spent.Keys == spent + Elements(AllInputs(Transactions(ats[i..])))
        invariant pool.txs == PutBack(old(pool.txs), ats[i..])
      {
        i := i - 1;
        PoolKeys(pool.txs, pool.spent);
        SameTransaction(db, pool.txs, known, ats[i].tx);
        ghost var before := pool.txs;
        WelcomeOne(spent, ats, i);
        var put := pool.Put(ats[i]);
        if put.Err? {
          if Welcome(spent, Transactions(ats)) { WelcomeTail(spent, ats, i); }
          return Err(put.error);
        }
        PutBelow(db, before, known, ats[i]);
        assert ats[i..][1..] == ats[i + 1..];
      }
      assert ats[0..] == ats;
      return Ok(());
    }

    /** All transactions of a stored body go back to the pool. */
    method ReturnBody(b: Hash) returns (r: Result<(), PoolError>)
      requires pool.Valid() && OneEach(Known(archive.View(), pool.txs)) && b in archive.bodies
      requires |archive.bodies[b].authorizations| >= |InputOwners(archive.bodies[b].transactions)|
      modifies pool
      ensures pool.Valid() && Known(archive.View(), pool.txs) <= Known(archive.View(), old(pool.txs))
      ensures r.Ok? <==> Welcome(old(pool.spent).Keys, archive.bodies[b].transactions)
      ensures r.Ok? ==>
                && pool.txs == PutBack(old(pool.txs), Entries(archive.bodies[b]))
                && Took(old(pool.txs), pool.txs, Entries(archive.bodies[b]))
                && pool.spent.Keys == old(pool.spent).Keys + Elements(AllInputs(archive.bodies[b].transactions))
    {
      hide Exact, Known, OneEach, InputOwners, Welcome, AllInputs, Took, PutBack, Entries, Counted;
      var ats := AuthorizedTransactions(archive.bodies[b]);
      BodyKnown(archive.View(), pool.txs, b, ats);
      r := ReturnToPool(ats);
      if r.Ok? {
        EntriesTook(old(pool.spent).Keys, Known(archive.View(), old(pool.txs)), ats);
        PutBackTook(old(pool.txs), ats);
      }
    }

    /** Disconnects the tip of a state that follows its chain. The state follows
      * the chain of the parent then; only the pool can refuse, and does so exactly
      * when it cannot take all transactions of the block. */
    method DisconnectTip(cr: Crypto, ghost init: State) returns (r: Result<(), NodeError>)
      requires Start(init) && ArchiveOk(archive.View()) && pool.Valid()
      requires Follows(cr, init, archive.View(), state.View())
      requires OneEach(Known(archive.View(), pool.txs))
      modifies state, pool
      ensures pool.Valid() && Known(archive.View(), pool.txs) <= Known(archive.View(), old(pool.txs))
      ensures old(state.tip).None? ==> r == Err(StateFailed(NoTip)) && state.View() == old(state.View())
      ensures old(state.tip).Some? ==>
                && old(state.tip).value in archive.headers
                && (r.Err? ==> r.error.PoolFailed?)
                && Follows(cr, init, archive.View(), state.View())
                && state.tip == archive.headers[old(state.tip).value].prevSide
      ensures old(state.tip).Some? ==>
                && old(state.tip).value in archive.bodies
                && (r.Ok? <==> Welcome(old(pool.spent).Keys, archive.bodies[old(state.tip).value].transactions))
                && Counted(Entries(archive.bodies[old(state.tip).value]))
                && (r.Ok? ==>
                      && pool.txs == PutBack(old(pool.txs), Entries(archive.bodies[old(state.tip).value]))
                      && Took(old(pool.txs), pool.txs, Entries(archive.bodies[old(state.tip).value]))
                      && pool.spent.Keys ==
                         old(pool.spent).Keys + Elements(AllInputs(archive.bodies[old(state.tip).value].transactions)))
    {
      hide ArchiveOk, Exact, Known, Follows, Blocks.DisconnectTip, Start, Authorized, OneEach, Welcome, AllInputs, Took, PutBack,
           Entries, Counted;
      ghost var db := archive.View();
      if state.tip.None? { return Err(StateFailed(NoTip)); }
      var tip := state.tip.value;
      ArchiveTables(db);
      FollowsDown(cr, init, db, state.View());
      var header, body := archive.headers[tip], archive.bodies[tip];
      EnoughAuthorizations(cr, body);
      var done := state.Disconnect(cr, header, body);
      var put := ReturnBody(tip);
      if put.Err? { return Err(PoolFailed(put.error)); }
      return Ok(());
    }
  }

  lemma ArchiveTables(db: Db)
    requires ArchiveOk(db)
    ensures TablesOk(db)
  {
  }

  lemma EnoughAuthorizations(cr: Crypto, body: Body)
    requires Authorized(cr, body)
    ensures |body.authorizations| >= |InputOwners(body.transactions)| && Counted(Entries(body))
  {
    hide InputOwners, Entries, Counted;
    OwnersAre(body.transactions, |body.transactions|);
    assert body.transactions[..|body.transactions|] == body.transactions;
    EntriesCounted(body);
  }

  lemma EntriesTook(spent: set<OutPoint>, known: set<Transaction>, ats: seq<AuthorizedTransaction>)
    requires Counted(ats) && Welcome(spent, Transactions(ats)) && OneEach(known)
    requires forall i :: 0 <= i < |ats| ==> ats[i].tx in known
    ensures SameByTxid(ats)
  {
    hide AllInputs, Distinct;
    OneEntryEach(ats);
  }

  lemma BodyKnown(db: Db, txs: PoolTxs, b: Hash, ats: seq<AuthorizedTransaction>)
    requires b in db.bodies && Transactions(ats) == db.bodies[b].transactions
    ensures forall i :: 0 <= i < |ats| ==> ats[i].tx in Known(db, txs)
  {
    hide Known;
    forall i | 0 <= i < |ats| ensures ats[i].tx in Known(db, txs) {
      assert Transactions(ats)[i] == ats[i].tx;
      KnownBody(db, txs, b, ats[i].tx);
    }
  }

  lemma SameTransaction(db: Db, txs: PoolTxs, known: set<Transaction>, tx: Transaction)
    requires OneEach(known) && Known(db, txs) <= known && tx in known
    ensures tx.txid in txs && txs[tx.txid].tx.txid == tx.txid ==> txs[tx.txid].tx == tx
  {
    hide Known;
    if tx.txid in txs { KnownStored(db, txs, tx.txid); }
  }

  lemma PutBelow(db: Db, txs: PoolTxs, known: set<Transaction>, at: AuthorizedTransaction)
    requires Known(db, txs) <= known && at.tx in known
    ensures Known(db, txs[at.tx.txid := at]) <= known
  {
  }

  lemma SameSelf(db: Db)
    ensures SameArchive(db, db)
  {
  }

  lemma SameBodies(db: Db, db': Db)
    requires SameArchive(db, db')
    ensures db'.bodies == db.bodies && db'.headers == db.headers
  {
  }

  lemma StoredNotInvalid(db: Db, b: Hash)
    requires ArchiveOk(db) && b in db.headers && db.headers[b].hash == b
    ensures Allowed(db, OpHeader(db.headers[b]))
  {
    hide TablesOk, BmmOk, InclusionsOk, WorkOk;
  }
}
