/** The batched connection of a prevalidated block reaches the same state, or
  * the same rejection, as connecting its transactions one at a time. */
module BatchedConnect {
  import opened Wrappers
  import opened Types
  import opened Filling
  import opened BitNames
  import opened Blocks

  /** Outpoints created by the coinbase and the first `n` transactions. */
  ghost function CreatedUpTo(header: Header, body: Body, n: nat): set<OutPoint>
    requires n <= |body.transactions|
  {
    if n == 0 then CoinbaseCreated(header, body)
    else CreatedUpTo(header, body, n - 1) + CreatedBy(body.transactions[n - 1])
  }

  /** No transaction spends an output created earlier in the same block. */
  ghost predicate NoForwardSpends(header: Header, body: Body) {
    forall n :: 0 <= n < |body.transactions| ==>
                  Elements(body.transactions[n].inputs) !! CreatedUpTo(header, body, n)
  }

  lemma FillFacts(utxos: Utxos, tx: Transaction)
    requires Fill(utxos, tx).Ok?
    ensures Elements(tx.inputs) <= utxos.Keys
    ensures Fill(utxos, tx).value.tx == tx && |Fill(utxos, tx).value.spent| == |tx.inputs|
    ensures forall i :: 0 <= i < |tx.inputs| ==>
              tx.inputs[i] in utxos && Fill(utxos, tx).value.spent[i] == utxos[tx.inputs[i]]
  {
  }

  lemma {:induction false} FillAllFacts(utxos: Utxos, txs: seq<Transaction>)
    ensures FillAll(utxos, txs).Ok? <==> forall n :: 0 <= n < |txs| ==> Fill(utxos, txs[n]).Ok?
    ensures FillAll(utxos, txs).Ok? ==>
              && |FillAll(utxos, txs).value| == |txs|
              && forall n :: 0 <= n < |txs| ==> Fill(utxos, txs[n]) == Ok(FillAll(utxos, txs).value[n])
  {
    if txs != [] {
      var init := txs[..|txs| - 1];
      FillAllFacts(utxos, init);
      assert forall n :: 0 <= n < |init| ==> init[n] == txs[n];
    }
  }

  lemma {:induction false} InputsOf(txs: seq<Transaction>, n: nat)
    requires n <= |txs|
    ensures AllInputs(txs[..n]) <= AllInputs(txs)
    ensures n < |txs| ==> AllInputs(txs[..n + 1]) == AllInputs(txs[..n]) + txs[n].inputs
    decreases |txs|
  {
    if n < |txs| {
      assert txs[..n + 1][..n] == txs[..n];
    }
    if n == |txs| {
      assert txs[..n] == txs;
    } else {
      var init := txs[..|txs| - 1];
      InputsOf(init, n);
      assert init[..n] == txs[..n];
    }
  }

  lemma DistinctSplit<T>(before: seq<T>, now: seq<T>, all: seq<T>)
    requires before + now <= all && Distinct(all)
    ensures Distinct(now) && Elements(now) !! Elements(before)
  {
    assert forall i :: 0 <= i < |before| ==> all[i] == before[i];
    assert forall i :: 0 <= i < |now| ==> all[|before| + i] == now[i];
  }

  /** With all inputs of the block distinct, those of transaction `n` are
    * distinct among themselves and from all earlier ones. */
  lemma InputsDistinct(txs: seq<Transaction>, n: nat)
    requires n < |txs| && Distinct(AllInputs(txs))
    ensures Distinct(txs[n].inputs)
    ensures Elements(txs[n].inputs) !! Elements(AllInputs(txs[..n]))
    ensures Elements(AllInputs(txs[..n + 1])) == Elements(AllInputs(txs[..n])) + Elements(txs[n].inputs)
  {
    InputsOf(txs, n);
    InputsOf(txs, n + 1);
    DistinctSplit(AllInputs(txs[..n]), txs[n].inputs, AllInputs(txs));
    ElementsConcat(AllInputs(txs[..n]), txs[n].inputs);
  }

  lemma {:induction false} SpentPutsFacts(txid: Txid, inputs: seq<OutPoint>, spent: seq<FilledOutput>, n: nat)
    requires n <= |inputs| == |spent|
    ensures SpentPuts(txid, inputs, spent, n).Keys == Elements(inputs[..n])
    ensures Distinct(inputs) ==> forall i :: 0 <= i < n ==>
              SpentPuts(txid, inputs, spent, n)[inputs[i]] == SpentOutput(spent[i], InPoint(txid, i))
  {
    if n > 0 {
      SpentPutsFacts(txid, inputs, spent, n - 1);
      assert inputs[..n] == inputs[..n - 1] + [inputs[n - 1]];
    }
  }

  /** The ledger that a batch stands for. */
  ghost function Flush(l: Ledger, b: Batch): Ledger {
    Ledger(l.utxos - b.deletes + b.utxoPuts, l.stxos + b.stxoPuts, b.tables)
  }

  /** What holds of a batch after the first `n` transactions. */
  ghost predicate BatchOf(header: Header, body: Body, n: nat, b: Batch)
    requires n <= |body.transactions|
  {
    && b.deletes == Elements(AllInputs(body.transactions[..n]))
    && b.stxoPuts.Keys == b.deletes
    && b.utxoPuts.Keys == CreatedUpTo(header, body, n)
  }

  lemma FlushUtxos(u: Utxos, d: set<OutPoint>, q: Utxos, i: set<OutPoint>, p: Utxos)
    requires q.Keys !! i
    ensures u - d + q - i + p == u - (d + i) + (q + p)
  {
  }

  /** Inputs that are neither spent nor created so far read as in the old state. */
  lemma FillFlushed(l: Ledger, b: Batch, tx: Transaction)
    requires Elements(tx.inputs) !! b.deletes && Elements(tx.inputs) !! b.utxoPuts.Keys
    requires Fill(l.utxos, tx).Ok?
    ensures Fill(Flush(l, b).utxos, tx) == Fill(l.utxos, tx)
  {
    var u := Flush(l, b).utxos;
    forall i | 0 <= i < |tx.inputs| ensures tx.inputs[i] in u && u[tx.inputs[i]] == l.utxos[tx.inputs[i]] {
      assert tx.inputs[i] in Elements(tx.inputs);
    }
    assert Fill(u, tx).value.spent == Fill(l.utxos, tx).value.spent;
  }

  /** The keys that one more transaction adds to a batch. */
  lemma BatchStep(l: Ledger, b: Batch, f: FilledTransaction, height: nat)
    requires Fill(l.utxos, f.tx) == Ok(f) && AccumulateTx(l, b, f, height).Ok?
    ensures var b' := AccumulateTx(l, b, f, height).value;
            && b'.deletes == b.deletes + Elements(f.tx.inputs)
            && b'.stxoPuts.Keys == b.stxoPuts.Keys + Elements(f.tx.inputs)
            && b'.utxoPuts.Keys == b.utxoPuts.Keys + CreatedBy(f.tx)
  {
    hide FilledOutputs, ApplyData, Fill, SpentPuts, OutputPuts, CreatedBy;
    FillFacts(l.utxos, f.tx);
    FilledOutputsFacts(f);
    OutputPutsKeys(f.tx, FilledOutputs(f).value);
    SpentPutsFacts(f.tx.txid, f.tx.inputs, f.spent, |f.tx.inputs|);
    assert f.tx.inputs[..|f.tx.inputs|] == f.tx.inputs;
  }

  lemma OutputPutsKeys(tx: Transaction, outs: seq<FilledOutput>)
    requires |outs| == |tx.outputs|
    ensures OutputPuts(tx.txid, outs).Keys == CreatedBy(tx)
  {
  }

  /** One transaction: both forms take the same step, or fail alike. */
  lemma StepAgrees(l: Ledger, b: Batch, f: FilledTransaction, height: nat)
    requires Distinct(f.tx.inputs)
    requires Elements(f.tx.inputs) !! b.deletes && Elements(f.tx.inputs) !! b.utxoPuts.Keys
    requires Fill(l.utxos, f.tx) == Ok(f)
    ensures ConnectTx(Flush(l, b), f.tx, height) ==
            (match AccumulateTx(l, b, f, height)
             case Ok(b') => Ok((Flush(l, b'), f))
             case Err(e) => Err(e))
  {
    hide FilledOutputs, ApplyData, Fill, SpentPuts, OutputPuts, Value, Distinct, Elements;
    FillFacts(l.utxos, f.tx);
    FillFlushed(l, b, f.tx);
    match FilledOutputs(f)
    case None =>
    case Some(outs) =>
      FlushUtxos(l.utxos, b.deletes, b.utxoPuts, Elements(f.tx.inputs), OutputPuts(f.tx.txid, outs));
      var puts := SpentPuts(f.tx.txid, f.tx.inputs, f.spent, |f.tx.inputs|);
      assert l.stxos + b.stxoPuts + puts == l.stxos + (b.stxoPuts + puts);
  }

  lemma ConnectTxsStep(l: Ledger, txs: seq<Transaction>, n: nat, height: nat)
    requires n < |txs|
    ensures ConnectTxs(l, txs[..n + 1], height) ==
            (match ConnectTxs(l, txs[..n], height)
             case Err(e) => Err(e)
             case Ok((s, fs)) =>
               match ConnectTx(s, txs[n], height)
               case Err(e) => Err(e)
               case Ok((s', f)) => Ok((s', fs + [f])))
  {
    assert txs[..n + 1][..n] == txs[..n];
  }

  lemma AccumulateStep(l: Ledger, b: Batch, fs: seq<FilledTransaction>, n: nat, height: nat)
    requires n < |fs|
    ensures Accumulate(l, b, fs[..n + 1], height) ==
            (match Accumulate(l, b, fs[..n], height)
             case Err(e) => Err(e)
             case Ok(b') => AccumulateTx(l, b', fs[n], height))
  {
    assert fs[..n + 1][..n] == fs[..n];
  }

  /** The two walks agree on every prefix of the block. */
  ghost predicate Agree(l: Ledger, header: Header, body: Body, fs: seq<FilledTransaction>, b0: Batch, n: nat, height: nat)
    requires n <= |body.transactions| == |fs|
  {
    match Accumulate(l, b0, fs[..n], height)
    case Ok(b) =>
      && ConnectTxs(Flush(l, b0), body.transactions[..n], height) == Ok((Flush(l, b), fs[..n]))
      && BatchOf(header, body, n, b)
    case Err(e) =>
      ConnectTxs(Flush(l, b0), body.transactions[..n], height) == Err(e)
  }

  lemma AgreeStep(l: Ledger, header: Header, body: Body, fs: seq<FilledTransaction>, b0: Batch, n: nat, height: nat)
    requires n < |body.transactions| == |fs|
    requires Agree(l, header, body, fs, b0, n, height)
    requires Distinct(AllInputs(body.transactions)) && NoForwardSpends(header, body)
    requires fs[n].tx == body.transactions[n] && Fill(l.utxos, fs[n].tx) == Ok(fs[n])
    ensures Agree(l, header, body, fs, b0, n + 1, height)
  {
    hide ConnectTx, AccumulateTx, ConnectTxs, Accumulate, Fill, Flush, Distinct, BatchOf, NoForwardSpends;
    ConnectTxsStep(Flush(l, b0), body.transactions, n, height);
    AccumulateStep(l, b0, fs, n, height);
    match Accumulate(l, b0, fs[..n], height)
    case Err(_) =>
    case Ok(b) =>
      BatchNext(l, header, body, fs[n], b, n, height);
      StepAgrees(l, b, fs[n], height);
      assert fs[..n + 1] == fs[..n] + [fs[n]];
  }

  lemma BatchNext(l: Ledger, header: Header, body: Body, f: FilledTransaction, b: Batch, n: nat, height: nat)
    requires n < |body.transactions| && f.tx == body.transactions[n] && Fill(l.utxos, f.tx) == Ok(f)
    requires Distinct(AllInputs(body.transactions)) && NoForwardSpends(header, body) && BatchOf(header, body, n, b)
    ensures Distinct(f.tx.inputs) && Elements(f.tx.inputs) !! b.deletes && Elements(f.tx.inputs) !! b.utxoPuts.Keys
    ensures AccumulateTx(l, b, f, height).Ok? ==> BatchOf(header, body, n + 1, AccumulateTx(l, b, f, height).value)
  {
    hide AccumulateTx, Fill, AllInputs, CreatedBy, CoinbaseCreated, Distinct;
    InputsDistinct(body.transactions, n);
    if AccumulateTx(l, b, f, height).Ok? { BatchStep(l, b, f, height); }
  }

  lemma {:induction false} PrefixAgrees(l: Ledger, header: Header, body: Body, fs: seq<FilledTransaction>,
                                        b0: Batch, n: nat, height: nat)
    requires n <= |body.transactions| == |fs| && BatchOf(header, body, 0, b0)
    requires Distinct(AllInputs(body.transactions)) && NoForwardSpends(header, body)
    requires forall i :: 0 <= i < |fs| ==> Fill(l.utxos, body.transactions[i]) == Ok(fs[i])
    ensures Agree(l, header, body, fs, b0, n, height)
  {
    if n > 0 {
      PrefixAgrees(l, header, body, fs, b0, n - 1, height);
      AgreeStep(l, header, body, fs, b0, n - 1, height);
    } else {
      assert body.transactions[..0] == [] && fs[..0] == [];
    }
  }

  lemma {:induction false} CoinbaseOutputsFacts(outputs: seq<Output>)
    requires CoinbaseOutputs(outputs).Ok?
    ensures |CoinbaseOutputs(outputs).value| == |outputs|
    ensures forall i :: 0 <= i < |outputs| ==>
              && FilledValue(CoinbaseOutputs(outputs).value[i].content) == Value(outputs[i].content)
              && !CoinbaseOutputs(outputs).value[i].content.FilledReservation?
              && !CoinbaseOutputs(outputs).value[i].content.FilledName?
  {
    if outputs != [] {
      CoinbaseOutputsFacts(outputs[..|outputs| - 1]);
    }
  }

  /** What an accepted block guarantees. */
  lemma PrevalidateFacts(cr: Crypto, st: State, header: Header, body: Body)
    requires Prevalidate(cr, st, header, body).Ok?
    ensures var pre := Prevalidate(cr, st, header, body).value;
            && header.prevSide == st.tip
            && pre.nextHeight == NextHeight(st)
            && pre.coinbaseValue == Sum(OutputValues(body.coinbase)) <= pre.totalFees
            && Distinct(AllInputs(body.transactions))
            && cr.merkle(body.coinbase, pre.filled) == Some(header.merkleRoot)
            && ValidateAll(st.ledger.tables.records, pre.filled) == Ok(pre.totalFees)
            && |pre.filled| == |body.transactions|
            && (forall i :: 0 <= i < |pre.filled| ==> Fill(st.ledger.utxos, body.transactions[i]) == Ok(pre.filled[i]))
  {
    hide Fill, FillAll, ValidateAll, AllInputs, Distinct, Sum, OutputValues, AllSpent, Authorized;
    FillAllFacts(st.ledger.utxos, body.transactions);
  }

  /** Batched connection refines sequential connection. */
  lemma BatchedEqualsSequential(cr: Crypto, st: State, header: Header, body: Body)
    requires Prevalidate(cr, st, header, body).Ok?
    requires NoForwardSpends(header, body)
    ensures ConnectPrevalidated(st, header, body, Prevalidate(cr, st, header, body).value)
         == Connect(cr, st, header, body)
  {
    PrevalidateFacts(cr, st, header, body);
    ConnectAgrees(cr, st, header, body, Prevalidate(cr, st, header, body).value);
  }

  lemma CoinbaseStartBatch(l: Ledger, header: Header, body: Body, outs: seq<FilledOutput>)
    requires CoinbaseOutputs(body.coinbase) == Ok(outs)
    ensures CoinbasePuts(header, outs).Keys == CoinbaseCreated(header, body)
    ensures BatchOf(header, body, 0, Batch({}, map[], CoinbasePuts(header, outs), l.tables))
  {
    CoinbaseOutputsFacts(body.coinbase);
    assert CoinbasePuts(header, outs).Keys == CoinbaseCreated(header, body);
    assert body.transactions[..0] == [];
  }

  lemma ConnectAgrees(cr: Crypto, st: State, header: Header, body: Body, pre: Prevalidated)
    requires header.prevSide == st.tip && pre.nextHeight == NextHeight(st)
    requires Distinct(AllInputs(body.transactions)) && NoForwardSpends(header, body)
    requires cr.merkle(body.coinbase, pre.filled) == Some(header.merkleRoot)
    requires |pre.filled| == |body.transactions|
    requires forall i :: 0 <= i < |pre.filled| ==> Fill(st.ledger.utxos, body.transactions[i]) == Ok(pre.filled[i])
    ensures ConnectPrevalidated(st, header, body, pre) == Connect(cr, st, header, body)
  {
    hide Fill, AllInputs, Distinct, ConnectTxs, Accumulate, NoForwardSpends, CoinbaseOutputs, BatchOf;
    var txs := body.transactions;
    match CoinbaseOutputs(body.coinbase)
    case Err(_) =>
    case Ok(outs) =>
      CoinbaseStartBatch(st.ledger, header, body, outs);
      var b0 := Batch({}, map[], CoinbasePuts(header, outs), st.ledger.tables);
      assert Flush(st.ledger, b0) == st.ledger.(utxos := st.ledger.utxos + CoinbasePuts(header, outs));
      PrefixAgrees(st.ledger, header, body, pre.filled, b0, |txs|, pre.nextHeight);
      assert txs[..|txs|] == txs && pre.filled[..|txs|] == pre.filled;
  }
}
