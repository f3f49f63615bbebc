/** What an accepted block does to the outputs, told from its transactions. */
module BlockEffect {
  import opened Wrappers
  import opened Types
  import opened Filling
  import opened BitNames
  import opened Blocks
  import opened BatchedConnect
  import opened DisconnectUndo
  import opened DisconnectExact
  import opened BlockRules

  // ----- the collected writes -----

  /** Of the first `n` transactions, `m` is the last that creates `o`. */
  ghost predicate LastMaker(txs: seq<Transaction>, n: nat, o: OutPoint, m: nat)
    requires n <= |txs|
  {
    m < n && o in CreatedBy(txs[m]) && forall k :: m < k < n ==> o !in CreatedBy(txs[k])
  }

  ghost predicate Unmade(txs: seq<Transaction>, n: nat, o: OutPoint)
    requires n <= |txs|
  {
    forall k :: 0 <= k < n ==> o !in CreatedBy(txs[k])
  }

  /** `out` is what transaction `f` makes of its output at `o`. */
  ghost predicate MadeBy(f: FilledTransaction, o: OutPoint, out: FilledOutput) {
    FilledOutputs(f).Some? && o.vout < |FilledOutputs(f).value| && out == FilledOutputs(f).value[o.vout]
  }

  lemma PutsStep(l: Ledger, b: Batch, f: FilledTransaction, height: nat, o: OutPoint)
    requires Fill(l.utxos, f.tx) == Ok(f) && AccumulateTx(l, b, f, height).Ok?
    ensures var p := AccumulateTx(l, b, f, height).value.utxoPuts;
            if o in CreatedBy(f.tx) then o in p && MadeBy(f, o, p[o])
            else (o in p <==> o in b.utxoPuts) && (o in p ==> p[o] == b.utxoPuts[o])
  {
    hide FilledOutputs, ApplyData, Fill, SpentPuts;
    FilledOutputsFacts(f);
  }

  lemma {:induction false} PutsKept(l: Ledger, b0: Batch, txs: seq<Transaction>, fs: seq<FilledTransaction>, n: nat, height: nat, o: OutPoint)
    requires n <= |fs| == |txs| && Accumulate(l, b0, fs[..n], height).Ok? && Unmade(txs, n, o)
    requires forall i :: 0 <= i < |fs| ==> fs[i].tx == txs[i] && Fill(l.utxos, txs[i]) == Ok(fs[i])
    ensures var p := Accumulate(l, b0, fs[..n], height).value.utxoPuts;
            (o in p <==> o in b0.utxoPuts) && (o in p ==> p[o] == b0.utxoPuts[o])
    decreases n
  {
    hide Accumulate, AccumulateTx, Fill, CreatedBy, MadeBy;
    if n == 0 {
      AccumulateNone(l, b0, fs, height);
    } else {
      AccumulateStep(l, b0, fs, n - 1, height);
      PutsKept(l, b0, txs, fs, n - 1, height, o);
      PutsStep(l, Accumulate(l, b0, fs[..n - 1], height).value, fs[n - 1], height, o);
    }
  }

  /** Each new output is as its last maker made it. */
  lemma {:induction false} PutsMade(l: Ledger, b0: Batch, txs: seq<Transaction>, fs: seq<FilledTransaction>, n: nat, height: nat, o: OutPoint, m: nat)
    requires n <= |fs| == |txs| && Accumulate(l, b0, fs[..n], height).Ok? && LastMaker(txs, n, o, m)
    requires forall i :: 0 <= i < |fs| ==> fs[i].tx == txs[i] && Fill(l.utxos, txs[i]) == Ok(fs[i])
    ensures var p := Accumulate(l, b0, fs[..n], height).value.utxoPuts; o in p && MadeBy(fs[m], o, p[o])
    decreases n
  {
    hide Accumulate, AccumulateTx, Fill, CreatedBy, MadeBy;
    AccumulateStep(l, b0, fs, n - 1, height);
    if m < n - 1 { PutsMade(l, b0, txs, fs, n - 1, height, o, m); }
    PutsStep(l, Accumulate(l, b0, fs[..n - 1], height).value, fs[n - 1], height, o);
  }

  lemma {:induction false} CoinbaseShape(outputs: seq<Output>)
    requires CoinbaseOutputs(outputs).Ok?
    ensures SameShape(outputs, CoinbaseOutputs(outputs).value)
  {
    if outputs != [] { CoinbaseShape(outputs[..|outputs| - 1]); }
  }

  // ----- the rows of spent outputs -----

  /** The row of input `i` of a transaction. */
  ghost function RowOf(utxos: Utxos, tx: Transaction, i: nat): SpentOutput
    requires i < |tx.inputs| && tx.inputs[i] in utxos
  {
    SpentOutput(utxos[tx.inputs[i]], InPoint(tx.txid, i))
  }

  lemma RowsStep(l: Ledger, b: Batch, f: FilledTransaction, height: nat)
    requires Fill(l.utxos, f.tx) == Ok(f) && Distinct(f.tx.inputs) && AccumulateTx(l, b, f, height).Ok?
    ensures var p := AccumulateTx(l, b, f, height).value.stxoPuts;
            && (forall i :: 0 <= i < |f.tx.inputs| ==>
                  f.tx.inputs[i] in p && f.tx.inputs[i] in l.utxos && p[f.tx.inputs[i]] == RowOf(l.utxos, f.tx, i))
            && forall o :: o !in f.tx.inputs ==> (o in p <==> o in b.stxoPuts) && (o in p ==> p[o] == b.stxoPuts[o])
  {
    hide FilledOutputs, ApplyData, Fill, SpentPuts, OutputPuts;
    FillFacts(l.utxos, f.tx);
    SpentPutsFacts(f.tx.txid, f.tx.inputs, f.spent, |f.tx.inputs|);
    assert f.tx.inputs[..|f.tx.inputs|] == f.tx.inputs;
  }

  lemma {:induction false} RowsAfter(l: Ledger, b0: Batch, txs: seq<Transaction>, fs: seq<FilledTransaction>, n: nat, height: nat, m: nat, i: nat)
    requires n <= |fs| == |txs| && Accumulate(l, b0, fs[..n], height).Ok? && Distinct(AllInputs(txs))
    requires forall k :: 0 <= k < |fs| ==> fs[k].tx == txs[k] && Fill(l.utxos, txs[k]) == Ok(fs[k])
    requires m < n && i < |txs[m].inputs|
    ensures var p, o := Accumulate(l, b0, fs[..n], height).value.stxoPuts, txs[m].inputs[i];
            o in l.utxos && o in p && p[o] == RowOf(l.utxos, txs[m], i)
    decreases n
  {
    hide Accumulate, AccumulateTx, Fill, AllInputs, Distinct;
    AccumulateStep(l, b0, fs, n - 1, height);
    InputsDistinct(txs, n - 1);
    RowsStep(l, Accumulate(l, b0, fs[..n - 1], height).value, fs[n - 1], height);
    if m < n - 1 {
      RowsAfter(l, b0, txs, fs, n - 1, height, m, i);
      SpentOnce(txs, m, n - 1, txs[m].inputs[i]);
    }
  }

  // ----- the whole block -----

  /** The unspent outputs after a block: those that its transactions create, as the last
    * that creates each makes it; then those of its coinbase; and of the others
    * exactly those from before that it does not spend, as they were. */
  ghost predicate OutputAfter(utxos: Utxos, header: Header, body: Body, fs: seq<FilledTransaction>, after: Utxos, o: OutPoint)
    requires |fs| == |body.transactions|
  {
    var txs := body.transactions;
    && (forall m: nat :: LastMaker(txs, |txs|, o, m) ==> o in after && MadeBy(fs[m], o, after[o]))
    && (Unmade(txs, |txs|, o) ==>
          if o in CoinbaseCreated(header, body) then
            o in after && o.vout < |body.coinbase| && CoinbaseMade(body.coinbase[o.vout], after[o])
          else
            (o in after <==> o in utxos && o !in AllInputs(txs)) && (o in after ==> after[o] == utxos[o]))
  }

  ghost predicate CoinbaseMade(output: Output, out: FilledOutput) {
    out.address == output.address && out.memo == output.memo && SameKind(output.content, out.content)
  }

  /** The spent rows after a block: one per input, with the output that it spent and
    * its place; all others as they were. */
  ghost predicate RowAfter(utxos: Utxos, stxos: Stxos, txs: seq<Transaction>, after: Stxos, o: OutPoint) {
    && (forall m: nat, i: nat :: m < |txs| && i < |txs[m].inputs| && txs[m].inputs[i] == o ==>
          o in after && o in utxos && after[o] == RowOf(utxos, txs[m], i))
    && (o !in AllInputs(txs) ==> (o in after <==> o in stxos) && (o in after ==> after[o] == stxos[o]))
  }

  lemma FlushedOutput(l: Ledger, header: Header, body: Body, fs: seq<FilledTransaction>, outs: seq<FilledOutput>, height: nat, o: OutPoint)
    requires |fs| == |body.transactions| && CoinbaseOutputs(body.coinbase) == Ok(outs)
    requires forall i :: 0 <= i < |fs| ==> fs[i].tx == body.transactions[i] && Fill(l.utxos, body.transactions[i]) == Ok(fs[i])
    requires Accumulate(l, Batch({}, map[], CoinbasePuts(header, outs), l.tables), fs, height).Ok?
    ensures var b := Accumulate(l, Batch({}, map[], CoinbasePuts(header, outs), l.tables), fs, height).value;
            OutputAfter(l.utxos, header, body, fs, l.utxos - b.deletes + b.utxoPuts, o)
  {
    hide Accumulate, Fill, AllInputs, CoinbaseOutputs, MadeBy, CreatedBy;
    var txs, b0 := body.transactions, Batch({}, map[], CoinbasePuts(header, outs), l.tables);
    assert fs[..|fs|] == fs && txs[..|txs|] == txs;
    CoinbaseShape(body.coinbase);
    CoinbaseStartBatch(l, header, body, outs);
    BatchKeys(l, header, body, fs, b0, |txs|, height);
    forall m: nat | LastMaker(txs, |txs|, o, m)
      ensures var p := Accumulate(l, b0, fs, height).value.utxoPuts; o in p && MadeBy(fs[m], o, p[o])
    {
      PutsMade(l, b0, txs, fs, |txs|, height, o, m);
    }
    if Unmade(txs, |txs|, o) { PutsKept(l, b0, txs, fs, |txs|, height, o); }
  }

  lemma FlushedRow(l: Ledger, header: Header, body: Body, fs: seq<FilledTransaction>, outs: seq<FilledOutput>, height: nat, o: OutPoint)
    requires |fs| == |body.transactions| && CoinbaseOutputs(body.coinbase) == Ok(outs) && Distinct(AllInputs(body.transactions))
    requires forall i :: 0 <= i < |fs| ==> fs[i].tx == body.transactions[i] && Fill(l.utxos, body.transactions[i]) == Ok(fs[i])
    requires Accumulate(l, Batch({}, map[], CoinbasePuts(header, outs), l.tables), fs, height).Ok?
    ensures var b := Accumulate(l, Batch({}, map[], CoinbasePuts(header, outs), l.tables), fs, height).value;
            RowAfter(l.utxos, l.stxos, body.transactions, l.stxos + b.stxoPuts, o)
  {
    hide Accumulate, Fill, AllInputs, CoinbaseOutputs, CoinbasePuts, Distinct, CreatedUpTo;
    var txs, b0 := body.transactions, Batch({}, map[], CoinbasePuts(header, outs), l.tables);
    assert fs[..|fs|] == fs && txs[..|txs|] == txs;
    CoinbaseStartBatch(l, header, body, outs);
    BatchKeys(l, header, body, fs, b0, |txs|, height);
    forall m: nat, i: nat | m < |txs| && i < |txs[m].inputs| && txs[m].inputs[i] == o
      ensures var p := Accumulate(l, b0, fs, height).value.stxoPuts; o in p && o in l.utxos && p[o] == RowOf(l.utxos, txs[m], i)
    {
      RowsAfter(l, b0, txs, fs, |txs|, height, m, i);
    }
  }

  lemma NothingWithdrawn(cr: Crypto, st: State, header: Header, body: Body)
    requires ValidBlock(cr, st, header, body)
    ensures forall n :: 0 <= n < |body.transactions| ==> InputsSpendable(st.ledger.utxos, body.transactions[n])
  {
    hide ValidTransaction;
    forall n | 0 <= n < |body.transactions| ensures InputsSpendable(st.ledger.utxos, body.transactions[n]) {
      ValidSpends(st.ledger.utxos, st.ledger.tables.records, body.transactions[n]);
    }
  }

  /** Every output and every spent row after an accepted block, and the new tip. */
  lemma AppliedOutputs(cr: Crypto, st: State, header: Header, body: Body, o: OutPoint)
    requires ApplyBlock(cr, st, header, body).Ok?
    ensures forall n :: 0 <= n < |body.transactions| ==> InputsSpendable(st.ledger.utxos, body.transactions[n])
    ensures var l', fs := ApplyBlock(cr, st, header, body).value.ledger, FilledFrom(st.ledger.utxos, body.transactions);
            && OutputAfter(st.ledger.utxos, header, body, fs, l'.utxos, o)
            && RowAfter(st.ledger.utxos, st.ledger.stxos, body.transactions, l'.stxos, o)
    ensures ApplyBlock(cr, st, header, body).value.tip == Some(header.hash)
    ensures ApplyBlock(cr, st, header, body).value.height == Some(NextHeight(st))
  {
    hide Prevalidate, ValidBlock, Accumulate, Fill, AllInputs, CoinbaseOutputs, CoinbasePuts, Distinct, OutputAfter, RowAfter, FilledFrom,
      FeesOf, InputsSpendable, ValidateAll;
    PrevalidateIff(cr, st, header, body);
    NothingWithdrawn(cr, st, header, body);
    PrevalidateFacts(cr, st, header, body);
    var pre, outs := Prevalidate(cr, st, header, body).value, CoinbaseOutputs(body.coinbase).value;
    forall i | 0 <= i < |pre.filled| ensures pre.filled[i].tx == body.transactions[i] {
      FillFacts(st.ledger.utxos, body.transactions[i]);
    }
    FlushedOutput(st.ledger, header, body, pre.filled, outs, pre.nextHeight, o);
    FlushedRow(st.ledger, header, body, pre.filled, outs, pre.nextHeight, o);
  }
}
