/** Unconfirmed transactions and the index of the outputs they spend. */
module MemPool {
  import opened Wrappers
  import opened Types

  type PoolTxs = map<Txid, AuthorizedTransaction>
  type Spent = map<OutPoint, Txid>

  datatype PoolError = UtxoDoubleSpent

  /** The index says exactly which stored transaction spends which output, so
    * no output is spent twice. */
  ghost predicate Exact(txs: PoolTxs, spent: Spent) {
    && (forall t :: t in txs ==> txs[t].tx.txid == t && Distinct(txs[t].tx.inputs))
    && (forall o :: o in spent ==> spent[o] in txs && o in txs[spent[o]].tx.inputs)
    && (forall t, o :: t in txs && o in txs[t].tx.inputs ==> o in spent && spent[o] == t)
  }

  /** No stored transactions, or two transactions of one, spend an output twice. */
  lemma ExactMeansDisjoint(txs: PoolTxs, spent: Spent, t: Txid, u: Txid, o: OutPoint)
    requires Exact(txs, spent) && t in txs && u in txs && o in txs[t].tx.inputs && o in txs[u].tx.inputs
    ensures t == u
  {
    assert o in spent && spent[o] == t;
  }

  lemma PoolKeys(txs: PoolTxs, spent: Spent)
    requires Exact(txs, spent)
    ensures forall t :: t in txs ==> txs[t].tx.txid == t
  {
  }

  /** The index follows from the transactions. */
  lemma ExactDetermined(txs: PoolTxs, a: Spent, b: Spent)
    requires Exact(txs, a) && Exact(txs, b)
    ensures a == b
  {
    forall o ensures o in a <==> o in b {
      if o in a { assert o in txs[a[o]].tx.inputs; }
      if o in b { assert o in txs[b[o]].tx.inputs; }
    }
    forall o | o in a ensures a[o] == b[o] { assert o in txs[a[o]].tx.inputs; }
  }

  /** `child` spends an output of `parent`. */
  predicate Spends(child: Transaction, parent: Transaction) {
    exists v: nat :: v < |parent.outputs| && Regular(parent.txid, v) in child.inputs
  }

  /** With a transaction, a set holds all stored transactions that spend it. */
  ghost predicate SpendClosed(txs: PoolTxs, s: set<Txid>) {
    forall p, c :: p in s && p in txs && c in txs && Spends(txs[c].tx, txs[p].tx) ==> c in s
  }

  /** The stored transactions that must go with `t`: the least closed set. */
  ghost predicate IsCascade(txs: PoolTxs, t: Txid, gone: set<Txid>) {
    && gone <= txs.Keys && (t in txs ==> t in gone)
    && SpendClosed(txs, gone)
    && forall s :: SpendClosed(txs, s) && t in s ==> gone <= s
  }

  lemma CascadeUnique(txs: PoolTxs, t: Txid, a: set<Txid>, b: set<Txid>)
    requires IsCascade(txs, t, a) && IsCascade(txs, t, b)
    ensures a == b
    ensures t !in txs ==> a == {}
  {
    CascadeBelow(txs, t, a, b);
    CascadeBelow(txs, t, b, a);
    if t !in txs {
      assert SpendClosed(txs, {t});
      assert a <= {t};
    }
  }

  lemma CascadeBelow(txs: PoolTxs, t: Txid, a: set<Txid>, b: set<Txid>)
    requires IsCascade(txs, t, a) && IsCascade(txs, t, b)
    ensures a <= b
  {
    assert SpendClosed(txs, b + {t});
    assert a <= b + {t};
  }

  ghost function Keep(txs: PoolTxs, gone: set<Txid>): PoolTxs { txs - gone }

  // ----- steps of the deletion -----

  lemma PutExact(txs: PoolTxs, spent: Spent, at: AuthorizedTransaction, index: Spent)
    requires Exact(txs, spent) && Distinct(at.tx.inputs)
    requires at.tx.txid in txs ==> txs[at.tx.txid].tx == at.tx
    requires forall o :: o in at.tx.inputs ==> o !in spent
    requires index.Keys == spent.Keys + Elements(at.tx.inputs)
    requires forall o :: o in index ==> index[o] == if o in spent then spent[o] else at.tx.txid
    ensures Exact(txs[at.tx.txid := at], index)
  {
  }

  lemma RemoveExact(txs: PoolTxs, spent: Spent, t: Txid)
    requires Exact(txs, spent) && t in txs
    ensures Exact(txs - {t}, spent - Elements(txs[t].tx.inputs)) && txs[t].tx.txid == t
  {
    forall u, o | u in txs - {t} && o in txs[u].tx.inputs
      ensures o in spent - Elements(txs[t].tx.inputs) && spent[o] == u
    {
      assert o in spent && spent[o] == u;
    }
  }

  /** Between two steps: transactions are gone only if they had to go, and those
    * that still have to go are queued. */
  ghost predicate Cascading(txs: PoolTxs, t: Txid, gone: set<Txid>, pending: seq<Txid>) {
    && gone <= txs.Keys && (t in txs ==> t in gone || t in pending)
    && (forall p, c :: p in gone && c in txs && c !in gone && Spends(txs[c].tx, txs[p].tx) ==> c in pending)
    && (forall s, x :: SpendClosed(txs, s) && t in s && (x in gone || x in pending) ==> x in s)
  }

  lemma CascadeStart(txs: PoolTxs, t: Txid)
    ensures Cascading(txs, t, {}, [t]) && Keep(txs, {}) == txs
  {
  }

  lemma CascadeSkip(txs: PoolTxs, t: Txid, gone: set<Txid>, pending: seq<Txid>)
    requires pending != [] && Cascading(txs, t, gone, pending) && pending[0] !in txs - gone
    ensures Cascading(txs, t, gone, pending[1..])
  {
    hide Spends, SpendClosed;
    assert pending == [pending[0]] + pending[1..];
  }

  /** Children that spend one of the first `n` outputs are queued, and only children are. */
  ghost predicate ChildrenQueued(txs: PoolTxs, tx: Transaction, n: nat, before: seq<Txid>, pending: seq<Txid>) {
    && (forall x :: x in before ==> x in pending)
    && (forall c, v: nat :: c in txs && v < n && Regular(tx.txid, v) in txs[c].tx.inputs ==> c in pending)
    && (forall x :: x in pending ==> x in before || (x in txs && Spends(txs[x].tx, tx)))
  }

  lemma ChildStep(txs: PoolTxs, spent: Spent, tx: Transaction, n: nat, before: seq<Txid>, pending: seq<Txid>)
    requires Exact(txs, spent) && ChildrenQueued(txs, tx, n, before, pending) && n < |tx.outputs|
    ensures var o := Regular(tx.txid, n);
            ChildrenQueued(txs, tx, n + 1, before, if o in spent then pending + [spent[o]] else pending)
  {
    var o := Regular(tx.txid, n);
    if o in spent { assert Spends(txs[spent[o]].tx, tx); }
  }

  lemma CascadeStep(txs: PoolTxs, t: Txid, gone: set<Txid>, x: Txid, before: seq<Txid>, pending: seq<Txid>)
    requires x in txs && x !in gone && txs[x].tx.txid == x && Cascading(txs, t, gone, [x] + before)
    requires ChildrenQueued(Keep(txs, gone + {x}), txs[x].tx, |txs[x].tx.outputs|, before, pending)
    ensures Cascading(txs, t, gone + {x}, pending)
  {
    var tx := txs[x].tx;
    forall p, c | p in gone + {x} && c in txs && c !in gone + {x} && Spends(txs[c].tx, txs[p].tx)
      ensures c in pending
    {
      if p == x {
        var v: nat :| v < |tx.outputs| && Regular(x, v) in txs[c].tx.inputs;
        assert c in Keep(txs, gone + {x});
      } else {
        assert c in [x] + before;
      }
    }
    forall s, y | SpendClosed(txs, s) && t in s && (y in gone + {x} || y in pending) ensures y in s {
      assert x in [x] + before && x in s;
      if y in before { assert y in [x] + before; }
    }
  }

  lemma CascadeEnd(txs: PoolTxs, t: Txid, gone: set<Txid>)
    requires Cascading(txs, t, gone, [])
    ensures IsCascade(txs, t, gone)
  {
    hide Spends;
  }

  class Pool {
    var txs: PoolTxs
    var spent: Spent

    ghost predicate Valid()
      reads this
    {
      Exact(txs, spent)
    }

    constructor ()
      ensures Valid() && txs == map[] && spent == map[]
    {
      txs, spent := map[], map[];
    }

    /** Dropping a write transaction: the tables are as they were committed. */
    method Restore(txs: PoolTxs, spent: Spent)
      modifies this
      ensures this.txs == txs && this.spent == spent
    {
      this.txs, this.spent := txs, spent;
    }

    /** Stores the transaction, unless it spends an output twice or one that is
      * spent already; then nothing changes. */
    method Put(at: AuthorizedTransaction) returns (r: Result<(), PoolError>)
      requires Valid()
      requires at.tx.txid in txs ==> txs[at.tx.txid].tx == at.tx
      modifies this
      ensures Valid()
      ensures r.Ok? <==> Distinct(at.tx.inputs) && forall o :: o in at.tx.inputs ==> o !in old(spent)
      ensures r.Ok? ==> txs == old(txs)[at.tx.txid := at] && spent.Keys == old(spent).Keys + Elements(at.tx.inputs)
      ensures r.Err? ==> txs == old(txs) && spent == old(spent)
    {
      var index := spent;
      var inputs := at.tx.inputs;
      for i := 0 to |inputs|
        invariant Distinct(inputs[..i]) && forall o :: o in inputs[..i] ==> o !in old(spent)
        invariant index.Keys == old(spent).Keys + Elements(inputs[..i])
        invariant forall o :: o in index ==> index[o] == if o in old(spent) then old(spent)[o] else at.tx.txid
      {
        assert inputs[..i + 1] == inputs[..i] + [inputs[i]];
        if inputs[i] in index {
          assert inputs[i] in old(spent) || inputs[i] in inputs[..i];
          return Err(UtxoDoubleSpent);
        }
        index := index[inputs[i] := at.tx.txid];
      }
      assert inputs[..|inputs|] == inputs;
      PutExact(txs, spent, at, index);
      spent := index;
      txs := txs[at.tx.txid := at];
      return Ok(());
    }

    /** Deletes the transaction and every stored transaction that depends on it,
      * and nothing else. */
    method Delete(txid: Txid) returns (ghost gone: set<Txid>)
      requires Valid()
      modifies this
      ensures Valid() && IsCascade(old(txs), txid, gone) && txs == Keep(old(txs), gone)
    {
      hide Exact, Spends, SpendClosed, Cascading, ChildrenQueued, IsCascade;
      var pending := [txid];
      gone := {};
      CascadeStart(txs, txid);
      while pending != []
        invariant Exact(txs, spent) && txs == Keep(old(txs), gone)
        invariant Cascading(old(txs), txid, gone, pending)
        decreases |txs|, |pending|
      {
        var t := pending[0];
        if t in txs {
          var tx := txs[t].tx;
          RemoveExact(txs, spent, t);
          spent := spent - Elements(tx.inputs);
          txs := Without(txs, t);
          var before := pending[1..];
          assert pending == [t] + before;
          pending := QueueChildren(txs, spent, tx, before);
          assert txs == Keep(old(txs), gone + {t});
          CascadeStep(old(txs), txid, gone, t, before, pending);
          gone := gone + {t};
        } else {
          CascadeSkip(old(txs), txid, gone, pending);
          pending := pending[1..];
        }
      }
      CascadeEnd(old(txs), txid, gone);
    }
  }

  function Without(txs: PoolTxs, t: Txid): (r: PoolTxs)
    requires t in txs
    ensures |r| < |txs|
  {
    assert txs == (txs - {t})[t := txs[t]];
    txs - {t}
  }

  /** Queues the stored transactions that spend an output of `tx`. */
  method QueueChildren(txs: PoolTxs, spent: Spent, tx: Transaction, before: seq<Txid>) returns (pending: seq<Txid>)
    requires Exact(txs, spent)
    ensures ChildrenQueued(txs, tx, |tx.outputs|, before, pending)
  {
    hide Exact, Spends, ChildrenQueued;
    pending := before;
    NoneQueued(txs, tx, before);
    for i := 0 to |tx.outputs|
      invariant ChildrenQueued(txs, tx, i, before, pending)
    {
      ChildStep(txs, spent, tx, i, before, pending);
      var o := Regular(tx.txid, i);
      if o in spent { pending := pending + [spent[o]]; }
    }
  }

  lemma NoneQueued(txs: PoolTxs, tx: Transaction, before: seq<Txid>)
    ensures ChildrenQueued(txs, tx, 0, before, before)
  {
  }

  /** Deleting a transaction right after storing it restores the pool, exactly
    * when no stored transaction spends it already. */
  lemma DeleteUndoesPut(txs: PoolTxs, at: AuthorizedTransaction, gone: set<Txid>)
    requires at.tx.txid !in txs && IsCascade(txs[at.tx.txid := at], at.tx.txid, gone)
    ensures Keep(txs[at.tx.txid := at], gone) == txs <==>
            forall c :: c in txs ==> !Spends(txs[c].tx, at.tx)
  {
    hide Spends;
    var t, both := at.tx.txid, txs[at.tx.txid := at];
    if forall c :: c in txs ==> !Spends(txs[c].tx, at.tx) {
      assert SpendClosed(both, {t});
      assert gone == {t};
    } else {
      var c :| c in txs && Spends(txs[c].tx, at.tx);
      assert c in both && both[c] == txs[c] && c in gone;
    }
  }

  // ----- several deletions -----

  /** The stored transactions that must go with those of `roots`. */
  ghost predicate IsCascadeOf(txs: PoolTxs, roots: set<Txid>, gone: set<Txid>) {
    && gone <= txs.Keys && roots * txs.Keys <= gone
    && SpendClosed(txs, gone)
    && forall s :: SpendClosed(txs, s) && roots <= s ==> gone <= s
  }

  lemma CascadeNone(txs: PoolTxs)
    ensures IsCascadeOf(txs, {}, {}) && Keep(txs, {}) == txs
  {
  }

  /** One more deletion: the order of deletions does not matter. */
  lemma CascadeMore(txs: PoolTxs, roots: set<Txid>, gone: set<Txid>, t: Txid, more: set<Txid>)
    requires IsCascadeOf(txs, roots, gone) && IsCascade(Keep(txs, gone), t, more)
    ensures IsCascadeOf(txs, roots + {t}, gone + more) && Keep(Keep(txs, gone), more) == Keep(txs, gone + more)
  {
    hide Spends;
    forall s | SpendClosed(txs, s) && roots + {t} <= s ensures gone + more <= s {
      assert SpendClosed(Keep(txs, gone), s);
      assert t in s && roots <= s;
    }
    forall p, c | p in gone + more && p in txs && c in txs && Spends(txs[c].tx, txs[p].tx) ensures c in gone + more {
      if p !in gone && c !in gone { assert p in Keep(txs, gone) && c in Keep(txs, gone); }
    }
  }

  /** Deletions in two rounds are one. */
  lemma CascadesCompose(txs: PoolTxs, roots: set<Txid>, gone: set<Txid>, others: set<Txid>, more: set<Txid>)
    requires IsCascadeOf(txs, roots, gone) && IsCascadeOf(Keep(txs, gone), others, more)
    ensures IsCascadeOf(txs, roots + others, gone + more) && Keep(Keep(txs, gone), more) == Keep(txs, gone + more)
  {
    hide Spends;
    forall s | SpendClosed(txs, s) && roots + others <= s ensures gone + more <= s {
      assert SpendClosed(Keep(txs, gone), s);
      assert roots <= s && others <= s;
    }
    forall p, c | p in gone + more && p in txs && c in txs && Spends(txs[c].tx, txs[p].tx) ensures c in gone + more {
      if p !in gone && c !in gone { assert p in Keep(txs, gone) && c in Keep(txs, gone); }
    }
  }

  // ----- taking transactions -----

  /** Transactions from a pool: all stored, in order of txid. */
  ghost predicate FromPool(txs: PoolTxs, ats: seq<AuthorizedTransaction>) {
    && (forall i :: 0 <= i < |ats| ==> ats[i].tx.txid in txs && txs[ats[i].tx.txid] == ats[i])
    && forall i, j :: 0 <= i < j < |ats| ==> ats[i].tx.txid < ats[j].tx.txid
  }

  lemma LeastExists(s: set<Txid>) returns (t: Txid)
    requires s != {}
    ensures t in s && forall u :: u in s ==> t <= u
  {
    var x :| x in s;
    t := x;
    if u :| u in s && u < x {
      var rest := set y | y in s && y < x;
      assert u in rest && x !in rest;
      t := LeastExists(rest);
      assert forall y :: y in s && y < x ==> y in rest;
    }
  }

  /** The first transactions in order of txid. */
  method Take(txs: PoolTxs, number: nat) returns (ats: seq<AuthorizedTransaction>)
    requires forall t :: t in txs ==> txs[t].tx.txid == t
    ensures FromPool(txs, ats) && |ats| <= number
    ensures |ats| < number ==> forall t :: t in txs ==> txs[t] in ats
    ensures forall t, i :: t in txs && txs[t] !in ats && 0 <= i < |ats| ==> ats[i].tx.txid < t
  {
    ats := [];
    var rest := txs.Keys;
    while |ats| < number && rest != {}
      invariant rest <= txs.Keys && |ats| <= number && FromPool(txs, ats)
      invariant forall t :: t in txs ==> t in rest || txs[t] in ats
      invariant forall t, i :: t in rest && 0 <= i < |ats| ==> ats[i].tx.txid < t
      decreases rest
    {
      ghost var least := LeastExists(rest);
      var t :| t in rest && forall u :: u in rest ==> t <= u;
      ats := ats + [txs[t]];
      rest := rest - {t};
    }
  }
}
