/** Exactly which accepted blocks a disconnect undoes. */
module DisconnectExact {
  import opened Wrappers
  import opened Types
  import opened Filling
  import opened BitNames
  import opened Blocks
  import opened BatchedConnect
  import opened DisconnectUndo

  // ----- what a successful undo implies -----

  /** Undoing a transaction never adds a registered name; a registration had its name. */
  lemma RevertDataShrinks(t: Tables, f: FilledTransaction, height: nat)
    requires RevertData(t, f, height).Ok?
    ensures var t' := RevertData(t, f, height).value;
            && t'.records.Keys <= t.records.Keys
            && (IsRegistration(f.tx) ==> f.tx.data.value.name in t.records && f.tx.data.value.name !in t'.records)
            && (IsReservation(f.tx) ==> f.tx.txid !in t'.reservations)
            && (forall r :: r in t'.reservations ==> r in t.reservations || Burned(f) == Some(r))
  {
    hide Claims, Names, RevertRecord, LastSeq, Burned;
  }

  lemma UndoTxFacts(l: Ledger, tx: Transaction, height: nat)
    requires UndoTx(l, tx, height).Ok?
    ensures var (l', f) := UndoTx(l, tx, height).value;
            && f.tx == tx && SpentFrom(l.stxos, tx.txid, tx.inputs) == Ok(f.spent)
            && RevertData(l.tables, f, height) == Ok(l'.tables)
            && CreatedBy(tx) <= l.utxos.Keys
            && l'.utxos.Keys == l.utxos.Keys - CreatedBy(tx) + Elements(tx.inputs)
            && l'.stxos == l.stxos - Elements(tx.inputs)
  {
    hide RevertData, SpentFrom;
  }

  lemma UndoTxsStep(l: Ledger, txs: seq<Transaction>, height: nat)
    requires txs != [] && UndoTxs(l, txs, height).Ok?
    ensures UndoTx(l, txs[|txs| - 1], height).Ok?
    ensures var l1 := UndoTx(l, txs[|txs| - 1], height).value.0;
            UndoTxs(l1, txs[..|txs| - 1], height).Ok? &&
            UndoTxs(l1, txs[..|txs| - 1], height).value.0 == UndoTxs(l, txs, height).value.0
  {
    hide UndoTx;
  }

  /** A block whose transactions can be undone registers each name once. */
  lemma {:induction false} UndoNamesOnce(l: Ledger, txs: seq<Transaction>, height: nat)
    requires UndoTxs(l, txs, height).Ok?
    ensures NamesOnce(txs)
    ensures forall i :: 0 <= i < |txs| && IsRegistration(txs[i]) ==> txs[i].data.value.name in l.tables.records
    decreases |txs|
  {
    hide UndoTx, UndoTxs, RevertData, SpentFrom, Burned;
    if txs != [] {
      var n := |txs| - 1;
      UndoTxsStep(l, txs, height);
      UndoTxFacts(l, txs[n], height);
      var (l1, f) := UndoTx(l, txs[n], height).value;
      RevertDataShrinks(l.tables, f, height);
      UndoNamesOnce(l1, txs[..n], height);
      assert forall i :: 0 <= i < n ==> txs[i] == txs[..n][i];
    }
  }

  /** Undoing adds only inputs to the utxo set. */
  lemma {:induction false} UndoKeysFrame(l: Ledger, txs: seq<Transaction>, height: nat, c: set<OutPoint>)
    requires UndoTxs(l, txs, height).Ok?
    requires forall i :: 0 <= i < |txs| ==> Elements(txs[i].inputs) !! c
    requires c !! l.utxos.Keys
    ensures c !! UndoTxs(l, txs, height).value.0.utxos.Keys
    decreases |txs|
  {
    hide UndoTx, RevertData, SpentFrom, CreatedBy, Elements;
    if txs != [] {
      var n := |txs| - 1;
      UndoTxsStep(l, txs, height);
      UndoTxFacts(l, txs[n], height);
      var init := txs[..n];
      assert forall i :: 0 <= i < n ==> txs[i] == init[i];
      UndoKeysFrame(UndoTx(l, txs[n], height).value.0, init, height, c);
    }
  }

  lemma {:induction false} SpentFromOutputs(stxos: Stxos, txid: Txid, inputs: seq<OutPoint>)
    requires SpentFrom(stxos, txid, inputs).Ok?
    ensures |SpentFrom(stxos, txid, inputs).value| == |inputs|
    ensures forall i :: 0 <= i < |inputs| ==>
              inputs[i] in stxos && SpentFrom(stxos, txid, inputs).value[i] == stxos[inputs[i]].output
  {
    if inputs != [] { SpentFromOutputs(stxos, txid, inputs[..|inputs| - 1]); }
  }

  /** An outpoint that is missing when its creator is undone stops the undo. */
  lemma {:induction false} MissingStops(l: Ledger, txs: seq<Transaction>, height: nat, i: nat, o: OutPoint)
    requires UndoTxs(l, txs, height).Ok? && i < |txs| && o in CreatedBy(txs[i]) && o !in l.utxos
    ensures exists s :: i < s < |txs| && o in txs[s].inputs
    decreases |txs|
  {
    hide UndoTx, UndoTxs, RevertData, SpentFrom, CreatedBy;
    var n := |txs| - 1;
    UndoTxsStep(l, txs, height);
    UndoTxFacts(l, txs[n], height);
    if o !in txs[n].inputs {
      assert i < n;
      MissingStops(UndoTx(l, txs[n], height).value.0, txs[..n], height, i, o);
      var s :| i < s < n && o in txs[..n][s].inputs;
      assert txs[s] == txs[..n][s];
    }
  }

  /** Between two creations of one outpoint an undone block spends it. */
  lemma {:induction false} CreatedTwiceIsSpent(l: Ledger, txs: seq<Transaction>, height: nat, i: nat, j: nat, o: OutPoint)
    requires UndoTxs(l, txs, height).Ok? && i < j < |txs| && o in CreatedBy(txs[i]) && o in CreatedBy(txs[j])
    ensures exists s :: i < s <= j && o in txs[s].inputs
    decreases |txs|
  {
    hide UndoTx, UndoTxs, RevertData, SpentFrom, CreatedBy;
    var n := |txs| - 1;
    var init := txs[..n];
    UndoTxsStep(l, txs, height);
    UndoTxFacts(l, txs[n], height);
    var l1 := UndoTx(l, txs[n], height).value.0;
    if j < n {
      CreatedTwiceIsSpent(l1, init, height, i, j, o);
      var s :| i < s <= j && o in init[s].inputs;
      assert txs[s] == init[s];
    } else if o !in txs[n].inputs {
      MissingStops(l1, init, height, i, o);
      var s :| i < s < n && o in init[s].inputs;
      assert txs[s] == init[s];
    }
  }

  /** An outpoint that a transaction creates, and none up to it spends, is gone
    * when the block is undone. */
  lemma {:induction false} CreatedIsGone(l: Ledger, txs: seq<Transaction>, height: nat, k: nat, o: OutPoint)
    requires UndoTxs(l, txs, height).Ok? && k < |txs| && o in CreatedBy(txs[k]) && !SpentBy(txs, k + 1, o)
    ensures o !in UndoTxs(l, txs, height).value.0.utxos
    decreases |txs|
  {
    hide UndoTx, UndoTxs, RevertData, SpentFrom, CreatedBy;
    var n := |txs| - 1;
    var init := txs[..n];
    UndoTxsStep(l, txs, height);
    UndoTxFacts(l, txs[n], height);
    var l1 := UndoTx(l, txs[n], height).value.0;
    assert forall i :: 0 <= i < n ==> txs[i] == init[i];
    if k < n {
      CreatedIsGone(l1, init, height, k, o);
    } else {
      assert o !in txs[n].inputs;
      UndoKeysFrame(l1, init, height, {o});
    }
  }

  /** The spent rows of the inputs still to be undone hold the outputs of `utxos`. */
  ghost predicate RowsHold(stxos: Stxos, utxos: Utxos, txs: seq<Transaction>) {
    forall i, o :: 0 <= i < |txs| && o in txs[i].inputs && o in stxos ==> o in utxos && stxos[o].output == utxos[o]
  }

  /** The transaction is undone with the outputs that it was connected with. */
  lemma UndoFills(l: Ledger, utxos: Utxos, txs: seq<Transaction>, height: nat)
    requires txs != [] && UndoTx(l, txs[|txs| - 1], height).Ok? && RowsHold(l.stxos, utxos, txs)
    ensures Fill(utxos, txs[|txs| - 1]) == Ok(UndoTx(l, txs[|txs| - 1], height).value.1)
    ensures RowsHold(UndoTx(l, txs[|txs| - 1], height).value.0.stxos, utxos, txs[..|txs| - 1])
  {
    hide UndoTx, RevertData, SpentFrom, CreatedBy;
    var n := |txs| - 1;
    var tx := txs[n];
    UndoTxFacts(l, tx, height);
    SpentFromOutputs(l.stxos, tx.txid, tx.inputs);
    var f := UndoTx(l, tx, height).value.1;
    forall i | 0 <= i < |tx.inputs| ensures tx.inputs[i] in utxos && f.spent[i] == utxos[tx.inputs[i]] {
      assert tx.inputs[i] in txs[n].inputs;
    }
    assert Fill(utxos, tx).value.spent == f.spent;
    assert forall i :: 0 <= i < n ==> txs[i] == txs[..n][i];
  }

  /** A row that no transaction burned does not come back. */
  lemma {:induction false} RowStaysAway(l: Ledger, utxos: Utxos, txs: seq<Transaction>, height: nat, r: Txid)
    requires UndoTxs(l, txs, height).Ok? && RowsHold(l.stxos, utxos, txs)
    requires r !in l.tables.reservations && !BurnedBy(utxos, txs, |txs|, r)
    ensures r !in UndoTxs(l, txs, height).value.0.tables.reservations
    decreases |txs|
  {
    hide UndoTx, RevertData, SpentFrom, Burned, Fill, RowsHold;
    if txs != [] {
      var n := |txs| - 1;
      UndoTxsStep(l, txs, height);
      UndoTxFacts(l, txs[n], height);
      UndoFills(l, utxos, txs, height);
      var (l1, f) := UndoTx(l, txs[n], height).value;
      RevertDataShrinks(l.tables, f, height);
      BurnedMeans(f);
      assert !BurnsRow(utxos, txs[n], r);
      assert forall i :: 0 <= i < n ==> txs[i] == txs[..n][i];
      RowStaysAway(l1, utxos, txs[..n], height, r);
    }
  }

  lemma BurnedMeans(f: FilledTransaction)
    ensures Burned(f).Some? ==> IsRegistration(f.tx)
  {
  }

  /** A reservation row that a transaction makes, and none before it burned, is gone
    * when the block is undone. */
  lemma {:induction false} RowIsGone(l: Ledger, utxos: Utxos, txs: seq<Transaction>, height: nat, k: nat)
    requires UndoTxs(l, txs, height).Ok? && RowsHold(l.stxos, utxos, txs)
    requires k < |txs| && IsReservation(txs[k]) && !BurnedBy(utxos, txs, k, txs[k].txid)
    ensures txs[k].txid !in UndoTxs(l, txs, height).value.0.tables.reservations
    decreases |txs|
  {
    hide UndoTx, RevertData, SpentFrom, Burned, Fill, RowsHold;
    var n := |txs| - 1;
    UndoTxsStep(l, txs, height);
    UndoTxFacts(l, txs[n], height);
    UndoFills(l, utxos, txs, height);
    var (l1, f) := UndoTx(l, txs[n], height).value;
    assert forall i :: 0 <= i < n ==> txs[i] == txs[..n][i];
    if k < n {
      RowIsGone(l1, utxos, txs[..n], height, k);
    } else {
      RevertDataShrinks(l.tables, f, height);
      RowStaysAway(l1, utxos, txs[..n], height, txs[n].txid);
    }
  }

  // ----- the exact condition -----

  /** Rows that the batch adds to the spent table hold the old unspent outputs. */
  lemma {:induction false} SpentPutsOutputs(txid: Txid, inputs: seq<OutPoint>, utxos: Utxos, spent: seq<FilledOutput>, n: nat)
    requires n <= |inputs| == |spent|
    requires forall i :: 0 <= i < |inputs| ==> inputs[i] in utxos && spent[i] == utxos[inputs[i]]
    ensures forall o :: o in SpentPuts(txid, inputs, spent, n) ==>
                          o in utxos && SpentPuts(txid, inputs, spent, n)[o].output == utxos[o]
  {
    if n > 0 { SpentPutsOutputs(txid, inputs, utxos, spent, n - 1); }
  }

  lemma {:induction false} BatchSpentOutputs(l: Ledger, b0: Batch, fs: seq<FilledTransaction>, height: nat)
    requires b0.stxoPuts == map[] && Accumulate(l, b0, fs, height).Ok?
    ensures var b := Accumulate(l, b0, fs, height).value;
            forall o :: o in b.stxoPuts ==> o in l.utxos && b.stxoPuts[o].output == l.utxos[o]
    decreases |fs|
  {
    hide Fill, FilledOutputs, ApplyData, SpentPuts, OutputPuts, Elements;
    if fs != [] {
      var n := |fs| - 1;
      BatchSpentOutputs(l, b0, fs[..n], height);
      var tx := fs[n].tx;
      FillFacts(l.utxos, tx);
      var g := Fill(l.utxos, tx).value;
      SpentPutsOutputs(tx.txid, tx.inputs, l.utxos, g.spent, |tx.inputs|);
    }
  }

  /** The keys that a batch collects, whatever the block. */
  lemma {:induction false} BatchKeys(l: Ledger, header: Header, body: Body, fs: seq<FilledTransaction>, b0: Batch, n: nat, height: nat)
    requires n <= |body.transactions| == |fs| && BatchOf(header, body, 0, b0)
    requires forall i :: 0 <= i < |fs| ==> Fill(l.utxos, body.transactions[i]) == Ok(fs[i])
    requires Accumulate(l, b0, fs[..n], height).Ok?
    ensures BatchOf(header, body, n, Accumulate(l, b0, fs[..n], height).value)
    decreases n
  {
    hide Fill, AccumulateTx, Accumulate, CreatedBy, CoinbaseCreated;
    if n == 0 {
      AccumulateNone(l, b0, fs, height);
    } else {
      AccumulateStep(l, b0, fs, n - 1, height);
      BatchKeys(l, header, body, fs, b0, n - 1, height);
      FillFacts(l.utxos, body.transactions[n - 1]);
      BatchStep(l, Accumulate(l, b0, fs[..n - 1], height).value, fs[n - 1], height);
      InputsOf(body.transactions, n - 1);
      ElementsConcat(AllInputs(body.transactions[..n - 1]), body.transactions[n - 1].inputs);
    }
  }

  /** If undoing the block's transactions gives back a ledger with the old
    * utxos and reservations, the block was reversible. */
  lemma ReversibleIfUndone(l: Ledger, header: Header, body: Body, b: Batch, l0: Ledger, height: nat)
    requires Distinct(AllInputs(body.transactions))
    requires forall i :: 0 <= i < |body.transactions| ==> Elements(body.transactions[i].inputs) <= l.utxos.Keys
    requires RowsHold(Flush(l, b).stxos, l.utxos, body.transactions)
    requires UndoTxs(Flush(l, b), body.transactions, height).Ok?
    requires UndoTxs(Flush(l, b), body.transactions, height).value.0 == l0
    requires l0.utxos - CoinbaseCreated(header, body) == l.utxos && l0.tables.reservations == l.tables.reservations
    ensures Reversible(l, header, body)
  {
    hide UndoTxs, CreatedBy, CoinbaseCreated, Flush, Distinct, AllInputs, RowsHold, BurnedBy, SpentBy;
    var txs, l' := body.transactions, Flush(l, b);
    UndoNamesOnce(l', txs, height);
    forall k, o | 0 <= k < |txs| && o in CreatedBy(txs[k]) && o in l.utxos ensures SpentBy(txs, k + 1, o) {
      if !SpentBy(txs, k + 1, o) { CreatedIsGone(l', txs, height, k, o); }
    }
    CreatedOnceIfUndone(l, header, body, l', height);
    forall k | 0 <= k < |txs| && IsReservation(txs[k]) && txs[k].txid in l.tables.reservations
      ensures BurnedBy(l.utxos, txs, k, txs[k].txid)
    {
      if !BurnedBy(l.utxos, txs, k, txs[k].txid) { RowIsGone(l', l.utxos, txs, height, k); }
    }
  }

  lemma CreatedOnceIfUndone(l: Ledger, header: Header, body: Body, l': Ledger, height: nat)
    requires Distinct(AllInputs(body.transactions)) && UndoTxs(l', body.transactions, height).Ok?
    requires forall i :: 0 <= i < |body.transactions| ==> Elements(body.transactions[i].inputs) <= l.utxos.Keys
    requires forall k, o :: 0 <= k < |body.transactions| && o in CreatedBy(body.transactions[k]) && o in l.utxos ==>
               SpentBy(body.transactions, k + 1, o)
    ensures CreatedOnce(header, body)
  {
    hide UndoTxs, Distinct, AllInputs;
    var txs := body.transactions;
    forall n, o | 0 <= n < |txs| && o in CreatedBy(txs[n]) ensures o !in CreatedUpTo(header, body, n) {
      CreatedMember(header, body, n, o);
      if i :| 0 <= i < n && o in CreatedBy(txs[i]) {
        CreatedTwiceIsSpent(l', txs, height, i, n, o);
        var s :| i < s <= n && o in txs[s].inputs;
        assert o in Elements(txs[s].inputs);
        var s' :| 0 <= s' < i + 1 && o in txs[s'].inputs;
        SpentOnce(txs, s', s, o);
      }
    }
  }

  /** A block that is accepted is undone exactly by a disconnect if and only if it
    * is reversible, whatever the block. */
  lemma DisconnectRestoresIff(cr: Crypto, st: State, header: Header, body: Body)
    requires StateOk(st) && ApplyBlock(cr, st, header, body).Ok?
    ensures DisconnectTip(cr, ApplyBlock(cr, st, header, body).value, header, body) == Ok(st)
       <==> Reversible(st.ledger, header, body)
  {
    hide Prevalidate, ConnectPrevalidated, ValidateAll, LedgerOk, Fill, Distinct, AllInputs, Reversible;
    if Reversible(st.ledger, header, body) {
      DisconnectUndoesConnect(cr, st, header, body);
    } else {
      var pre := Prevalidate(cr, st, header, body).value;
      PrevalidateFacts(cr, st, header, body);
      NotRestored(cr, st, header, body, pre);
    }
  }

  lemma NotRestored(cr: Crypto, st: State, header: Header, body: Body, pre: Prevalidated)
    requires !Reversible(st.ledger, header, body)
    requires pre.nextHeight == NextHeight(st) && |pre.filled| == |body.transactions|
    requires Distinct(AllInputs(body.transactions))
    requires forall i :: 0 <= i < |pre.filled| ==> Fill(st.ledger.utxos, body.transactions[i]) == Ok(pre.filled[i])
    requires ConnectPrevalidated(st, header, body, pre).Ok?
    ensures DisconnectTip(cr, ConnectPrevalidated(st, header, body, pre).value, header, body) != Ok(st)
  {
    hide Accumulate, ConnectTxs, UndoTxs, Reversible, Fill, Distinct, AllInputs, CreatedUpTo, RowsHold;
    var l, txs, fs, h := st.ledger, body.transactions, pre.filled, pre.nextHeight;
    var outs := CoinbaseOutputs(body.coinbase).value;
    var b0 := Batch({}, map[], CoinbasePuts(header, outs), l.tables);
    var b := Accumulate(l, b0, fs, h).value;
    if UndoTxs(Flush(l, b), txs, h).Ok? {
      var l0 := UndoTxs(Flush(l, b), txs, h).value.0;
      if l0.utxos - CoinbaseCreated(header, body) == l.utxos && l0.tables.reservations == l.tables.reservations {
        forall i | 0 <= i < |txs| ensures Elements(txs[i].inputs) <= l.utxos.Keys { FillFacts(l.utxos, txs[i]); }
        BatchRows(l, header, body, fs, outs, h);
        ReversibleIfUndone(l, header, body, b, l0, h);
        assert false;
      }
    }
  }

  lemma BatchRows(l: Ledger, header: Header, body: Body, fs: seq<FilledTransaction>, outs: seq<FilledOutput>, height: nat)
    requires |fs| == |body.transactions| && CoinbaseOutputs(body.coinbase) == Ok(outs)
    requires forall i :: 0 <= i < |fs| ==> Fill(l.utxos, body.transactions[i]) == Ok(fs[i])
    requires Accumulate(l, Batch({}, map[], CoinbasePuts(header, outs), l.tables), fs, height).Ok?
    ensures var b := Accumulate(l, Batch({}, map[], CoinbasePuts(header, outs), l.tables), fs, height).value;
            RowsHold(Flush(l, b).stxos, l.utxos, body.transactions)
  {
    hide Accumulate, Fill, AllInputs, CoinbasePuts;
    var txs, b0 := body.transactions, Batch({}, map[], CoinbasePuts(header, outs), l.tables);
    var b := Accumulate(l, b0, fs, height).value;
    CoinbaseStartBatch(l, header, body, outs);
    assert fs[..|fs|] == fs && txs[..|txs|] == txs;
    BatchKeys(l, header, body, fs, b0, |txs|, height);
    BatchSpentOutputs(l, b0, fs, height);
    forall i, o | 0 <= i < |txs| && o in txs[i].inputs ensures o in b.stxoPuts { AllInputsMember(txs, o); }
  }
}
