/** Why a valid block connects: its transactions find all the names and
  * reservations that they need. */
module ValidBlocks {
  import opened Wrappers
  import opened Types
  import opened Filling
  import opened BitNames
  import opened Blocks
  import opened BatchedConnect
  import opened DisconnectUndo

  /** Every unspent output that holds a name holds a registered one. */
  ghost predicate NamesListed(l: Ledger) {
    forall o :: o in l.utxos && l.utxos[o].content.FilledName? ==> l.utxos[o].content.name in l.tables.records
  }

  lemma {:induction false} NameMember(outs: seq<FilledOutput>, x: NameHash)
    ensures x in Names(outs) <==> exists i :: 0 <= i < |outs| && outs[i].content == FilledName(x)
  {
    if outs != [] {
      NameMember(outs[1..], x);
      assert forall i :: 0 < i < |outs| ==> outs[i] == outs[1..][i - 1];
      if i :| 0 <= i < |outs[1..]| && outs[1..][i].content == FilledName(x) { assert outs[i + 1].content == FilledName(x); }
    }
  }

  /** Spent names are those of inputs. */
  lemma SpentName(utxos: Utxos, f: FilledTransaction, x: NameHash) returns (o: OutPoint)
    requires Fill(utxos, f.tx) == Ok(f) && x in Names(f.spent)
    ensures o in f.tx.inputs && o in utxos && utxos[o].content == FilledName(x)
  {
    hide Fill;
    FillFacts(utxos, f.tx);
    NameMember(f.spent, x);
    var i :| 0 <= i < |f.spent| && f.spent[i].content == FilledName(x);
    o := f.tx.inputs[i];
  }

  // ----- a validated block connects -----

  /** A valid transaction has exactly the names and reservations that its outputs take. */
  lemma FillsExactly(records: map<NameHash, Record>, f: FilledTransaction)
    requires ValidateFilled(records, f).Ok?
    ensures FilledOutputs(f).Some?
    ensures Names(FilledOutputs(f).value) == OutputNames(f)
    ensures Claims(FilledOutputs(f).value) == OutputClaims(f)
  {
    hide Names, Claims, FillFrom, Fee, FirstClaim, DropFirstClaim;
    if IsRegistration(f.tx) { FirstClaimFacts(Claims(f.spent), f.tx.data.value.implied); }
    FillFromFacts(f.tx.outputs, OutputNames(f), OutputClaims(f));
    FillCounts(f.tx.outputs, OutputNames(f), OutputClaims(f));
    assert |OutputNames(f)| == CountContent(f.tx.outputs, BitName);
    assert |OutputClaims(f)| == CountContent(f.tx.outputs, BitNameReservation);
  }

  /** Each output that asks for a name or a reservation takes one. */
  lemma {:induction false} FillCounts(outputs: seq<Output>, names: seq<NameHash>, rs: seq<Claim>)
    requires FillFrom(outputs, names, rs).Some?
    ensures |Names(FillFrom(outputs, names, rs).value)| == CountContent(outputs, BitName)
    ensures |Claims(FillFrom(outputs, names, rs).value)| == CountContent(outputs, BitNameReservation)
  {
    if outputs != [] {
      var outs := FillFrom(outputs, names, rs).value;
      var names' := if outputs[0].content.BitName? then names[1..] else names;
      var rs' := if outputs[0].content.BitNameReservation? then rs[1..] else rs;
      FillCounts(outputs[1..], names', rs');
      assert outs[1..] == FillFrom(outputs[1..], names', rs').value;
    }
  }

  /** The rows that the transactions to come may need are still there. */
  ghost predicate RowsReady(l: Ledger, txs: seq<Transaction>, n: nat, t: Tables)
    requires n <= |txs|
  {
    && l.tables.records.Keys <= t.records.Keys
    && forall r :: r in l.tables.reservations && !BurnedBy(l.utxos, txs, n, r) ==> r in t.reservations
  }

  lemma RowsReadyStep(l: Ledger, txs: seq<Transaction>, n: nat, t: Tables, f: FilledTransaction, height: nat)
    requires n < |txs| && Fill(l.utxos, txs[n]) == Ok(f) && RowsReady(l, txs, n, t) && ApplyData(t, f, height).Ok?
    ensures RowsReady(l, txs, n + 1, ApplyData(t, f, height).value)
  {
    hide ApplyData, Burned, Fill;
    FillFacts(l.utxos, txs[n]);
    ApplyDataEffect(t, f, height);
    forall r | r in l.tables.reservations && !BurnedBy(l.utxos, txs, n + 1, r) ensures r in ApplyData(t, f, height).value.reservations {
      assert !BurnsRow(l.utxos, txs[n], r);
      assert !BurnedBy(l.utxos, txs, n, r);
    }
  }

  /** The data of a valid transaction applies. */
  lemma DataApplies(l: Ledger, txs: seq<Transaction>, n: nat, t: Tables, f: FilledTransaction, height: nat)
    requires ReservationsAgree(l) && NamesListed(l) && Distinct(AllInputs(txs)) && n < |txs|
    requires Fill(l.utxos, txs[n]) == Ok(f) && f.tx == txs[n] && ValidateFilled(l.tables.records, f).Ok? && RowsReady(l, txs, n, t)
    ensures ApplyData(t, f, height).Ok?
  {
    hide Fill, AllInputs, Distinct, Burned, Names, FilledOutputs, NextSeq, Init, ApplyRecord, Fee;
    match f.tx.data
    case Some(Registration(_, _, _)) =>
      var r := Burned(f).value;
      var o := BurnedIsSpent(l.utxos, f);
      assert BurnsRow(l.utxos, txs[n], r);
      if s :| 0 <= s < n && BurnsRow(l.utxos, txs[s], r) { BurnedOnce(l, txs, s, n, r); }
      assert !BurnedBy(l.utxos, txs, n, r);
    case Some(DataUpdate(_)) =>
      var names := Names(f.spent);
      var o := SpentName(l.utxos, f, names[|names| - 1]);
    case _ =>
  }

  lemma {:induction false} AllApply(l: Ledger, b0: Batch, txs: seq<Transaction>, fs: seq<FilledTransaction>, n: nat, height: nat)
    requires ReservationsAgree(l) && NamesListed(l) && Distinct(AllInputs(txs)) && n <= |txs| == |fs| && b0.tables == l.tables
    requires forall i :: 0 <= i < |fs| ==>
               Fill(l.utxos, txs[i]) == Ok(fs[i]) && fs[i].tx == txs[i] && ValidateFilled(l.tables.records, fs[i]).Ok?
    ensures Accumulate(l, b0, fs[..n], height).Ok?
    ensures RowsReady(l, txs, n, Accumulate(l, b0, fs[..n], height).value.tables)
    decreases n
  {
    hide Accumulate, AccumulateTx, ApplyData, Fill, AllInputs, Distinct, ValidateFilled, FilledOutputs, ReservationsAgree, NamesListed;
    if n == 0 {
      AccumulateNone(l, b0, fs, height);
    } else {
      AllApply(l, b0, txs, fs, n - 1, height);
      AccumulateStep(l, b0, fs, n - 1, height);
      var b := Accumulate(l, b0, fs[..n - 1], height).value;
      DataApplies(l, txs, n - 1, b.tables, fs[n - 1], height);
      FillsExactly(l.tables.records, fs[n - 1]);
      StepSucceeds(l, b, fs[n - 1], height);
      AccumulateTables(l, b, fs[n - 1], height);
      RowsReadyStep(l, txs, n - 1, b.tables, fs[n - 1], height);
    }
  }

  lemma StepSucceeds(l: Ledger, b: Batch, f: FilledTransaction, height: nat)
    requires Fill(l.utxos, f.tx).Ok? && FilledOutputs(f).Some? && ApplyData(b.tables, f, height).Ok?
    ensures AccumulateTx(l, b, f, height).Ok?
  {
    hide Fill, FilledOutputs, ApplyData;
  }

  /** Where unspent reservations agree with their table and unspent names are
    * registered, a block is accepted exactly when it is valid and its coinbase makes
    * only bitcoin outputs and withdrawals. */
  lemma ValidBlockConnects(cr: Crypto, st: State, header: Header, body: Body)
    requires ReservationsAgree(st.ledger) && NamesListed(st.ledger)
    ensures ApplyBlock(cr, st, header, body).Ok? <==>
            Prevalidate(cr, st, header, body).Ok? && CoinbaseOutputs(body.coinbase).Ok?
  {
    hide Prevalidate, ValidateAll, ValidateFilled, Accumulate, Fill, AllInputs, Distinct, ReservationsAgree, NamesListed;
    if Prevalidate(cr, st, header, body).Ok? && CoinbaseOutputs(body.coinbase).Ok? {
      var l, pre := st.ledger, Prevalidate(cr, st, header, body).value;
      var fs := pre.filled;
      PrevalidateFacts(cr, st, header, body);
      forall i | 0 <= i < |fs| ensures fs[i].tx == body.transactions[i] && ValidateFilled(l.tables.records, fs[i]).Ok? {
        FillFacts(l.utxos, body.transactions[i]);
        ValidateAllFacts(l.tables.records, fs, i);
      }
      var b0 := Batch({}, map[], CoinbasePuts(header, CoinbaseOutputs(body.coinbase).value), l.tables);
      AllApply(l, b0, body.transactions, fs, |fs|, pre.nextHeight);
      assert fs[..|fs|] == fs;
    }
  }
}
