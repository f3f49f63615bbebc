/** The memory pool after transactions of disconnected blocks have gone back to it. */
module PoolReturns {
  import opened Types
  import opened Blocks
  import opened DisconnectUndo
  import opened MemPool
  import opened Signatures

  /** The stored transactions after these have been put back, last first. */
  ghost function PutBack(txs: PoolTxs, ats: seq<AuthorizedTransaction>): PoolTxs {
    if ats == [] then txs else PutBack(txs, ats[1..])[ats[0].tx.txid := ats[0]]
  }

  lemma {:induction false} PutBackConcat(txs: PoolTxs, a: seq<AuthorizedTransaction>, b: seq<AuthorizedTransaction>)
    ensures PutBack(txs, a + b) == PutBack(PutBack(txs, b), a)
    decreases |a|
  {
    if a == [] {
      assert a + b == b;
    } else {
      assert (a + b)[1..] == a[1..] + b;
      PutBackConcat(txs, a[1..], b);
    }
  }

  ghost function Txids(ats: seq<AuthorizedTransaction>): set<Txid> {
    set i | 0 <= i < |ats| :: ats[i].tx.txid
  }

  /** `after` holds each of the transactions with exactly its own authorizations, and
    * every other entry of `before` as it was. */
  ghost predicate Took(before: PoolTxs, after: PoolTxs, ats: seq<AuthorizedTransaction>) {
    && after.Keys == before.Keys + Txids(ats)
    && (forall i :: 0 <= i < |ats| ==> ats[i].tx.txid in after && after[ats[i].tx.txid] == ats[i])
    && (forall t :: t in before && t !in Txids(ats) ==> t in after && after[t] == before[t])
  }

  ghost predicate SameByTxid(ats: seq<AuthorizedTransaction>) {
    forall i, j :: 0 <= i < |ats| && 0 <= j < |ats| && ats[i].tx.txid == ats[j].tx.txid ==> ats[i] == ats[j]
  }

  lemma {:induction false} PutBackTook(txs: PoolTxs, ats: seq<AuthorizedTransaction>)
    requires SameByTxid(ats)
    ensures Took(txs, PutBack(txs, ats), ats)
    decreases |ats|
  {
    if ats != [] {
      var rest, t := ats[1..], ats[0].tx.txid;
      TailFacts(ats);
      PutBackTook(txs, rest);
      var mid := PutBack(txs, rest);
      forall i | 0 <= i < |ats| ensures ats[i].tx.txid in mid[t := ats[0]] && mid[t := ats[0]][ats[i].tx.txid] == ats[i] {
        if i > 0 { assert rest[i - 1] == ats[i]; }
      }
    }
  }

  lemma TailFacts(ats: seq<AuthorizedTransaction>)
    requires ats != [] && SameByTxid(ats)
    ensures SameByTxid(ats[1..]) && Txids(ats) == Txids(ats[1..]) + {ats[0].tx.txid}
  {
    assert forall i :: 0 <= i < |ats[1..]| ==> ats[1..][i] == ats[i + 1];
    forall t | t in Txids(ats) ensures t in Txids(ats[1..]) + {ats[0].tx.txid} {
      var i :| 0 <= i < |ats| && ats[i].tx.txid == t;
      if i > 0 { assert ats[1..][i - 1].tx.txid == t; }
    }
  }

  /** Transactions that spend no output twice, with one authorization per input: two
    * that agree on the transaction agree on all. */
  lemma OneEntryEach(ats: seq<AuthorizedTransaction>)
    requires Counted(ats) && Distinct(AllInputs(Transactions(ats)))
    requires forall i, j :: 0 <= i < |ats| && 0 <= j < |ats| && ats[i].tx.txid == ats[j].tx.txid ==> ats[i].tx == ats[j].tx
    ensures SameByTxid(ats)
  {
    hide Distinct, AllInputs;
    forall i, j | 0 <= i < j < |ats| && ats[i].tx.txid == ats[j].tx.txid ensures ats[i] == ats[j] {
      var tx := ats[i].tx;
      if tx.inputs == [] {
        assert ats[i].authorizations == [] == ats[j].authorizations;
      } else {
        assert Transactions(ats)[i] == tx == Transactions(ats)[j];
        SpentOnce(Transactions(ats), i, j, tx.inputs[0]);
        assert false;
      }
    }
  }
}
