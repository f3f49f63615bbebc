/** Disconnecting the tip restores exactly the state from before the block. */
module DisconnectUndo {
  import opened Wrappers
  import opened Types
  import opened Filling
  import opened BitNames
  import opened Blocks
  import opened BatchedConnect

  // ----- one transaction -----

  /** What a transaction must not collide with for its effect to be undone. */
  ghost predicate Undoable(l: Ledger, f: FilledTransaction) {
    && CreatedBy(f.tx) !! l.utxos.Keys - Elements(f.tx.inputs)
    && Elements(f.tx.inputs) !! l.stxos.Keys
    && SeqsDense(l.tables) && DataFresh(l.tables, f.tx) && BurnAgrees(l.tables, f)
    && (forall x :: x in l.tables.records ==> HasHistory(l.tables.records[x]))
  }

  lemma {:induction false} SpentFromFacts(stxos: Stxos, txid: Txid, inputs: seq<OutPoint>, spent: seq<FilledOutput>)
    requires |inputs| == |spent|
    requires forall i :: 0 <= i < |inputs| ==>
                           inputs[i] in stxos && stxos[inputs[i]] == SpentOutput(spent[i], InPoint(txid, i))
    ensures SpentFrom(stxos, txid, inputs) == Ok(spent)
  {
    if inputs != [] {
      var n := |inputs| - 1;
      SpentFromFacts(stxos, txid, inputs[..n], spent[..n]);
      assert spent == spent[..n] + [spent[n]];
    }
  }

  /** Restoring the utxo set: created outputs go, spent ones come back. */
  lemma UtxosRestored(u: Utxos, i: set<OutPoint>, p: Utxos, back: Utxos)
    requires i <= u.Keys && p.Keys !! u.Keys - i && back.Keys == i
    requires forall o :: o in i ==> back[o] == u[o]
    ensures u - i + p - p.Keys + back == u
  {
  }

  lemma UndoConnectTx(l: Ledger, tx: Transaction, height: nat, l': Ledger, f: FilledTransaction)
    requires ConnectTx(l, tx, height) == Ok((l', f))
    requires Undoable(l, f)
    ensures UndoTx(l', tx, height) == Ok((l, f))
  {
    hide FilledOutputs, ApplyData, RevertData, Names, Claims, OutputNames, OutputClaims, Fill, SpentPuts, SpentFrom, Burned;
    hide SeqsDense, HasHistory, BurnAgrees, DataFresh, Value, OutputPuts, CreatedBy;
    FillFacts(l.utxos, tx);
    var outs := FilledOutputs(f).value;
    FilledOutputsFacts(f);
    OutputPutsKeys(tx, outs);
    SpentPutsFacts(tx.txid, tx.inputs, f.spent, |tx.inputs|);
    assert tx.inputs[..|tx.inputs|] == tx.inputs;
    SpentFromFacts(l'.stxos, tx.txid, tx.inputs, f.spent);
    RevertDataUndoesApply(l.tables, f, height);
    var back := map o | o in Elements(tx.inputs) :: l'.stxos[o].output;
    UtxosRestored(l.utxos, Elements(tx.inputs), OutputPuts(tx.txid, outs), back);
    StxosRestored(l.stxos, SpentPuts(tx.txid, tx.inputs, f.spent, |tx.inputs|), Elements(tx.inputs));
  }

  lemma StxosRestored(s: Stxos, p: Stxos, i: set<OutPoint>)
    requires p.Keys == i && i !! s.Keys
    ensures s + p - i == s
  {
  }

  // ----- all transactions of a block -----

  lemma {:induction false} UndoConnectTxs(l: Ledger, txs: seq<Transaction>, n: nat, height: nat,
                                          ln: Ledger, fs: seq<FilledTransaction>)
    requires n <= |txs| && ConnectTxs(l, txs[..n], height) == Ok((ln, fs))
    requires forall k :: 0 <= k < n ==>
                           ConnectTxs(l, txs[..k], height).Ok? && |fs| == n &&
                           Undoable(ConnectTxs(l, txs[..k], height).value.0, fs[k])
    ensures UndoTxs(ln, txs[..n], height) == Ok((l, fs))
  {
    hide ConnectTx, UndoTx, Undoable;
    if n == 0 {
      assert txs[..0] == [];
    } else {
      assert txs[..n][..n - 1] == txs[..n - 1];
      var (lk, gs) := ConnectTxs(l, txs[..n - 1], height).value;
      var (lm, f) := ConnectTx(lk, txs[n - 1], height).value;
      assert fs == gs + [f] && lm == ln;
      UndoConnectTx(lk, txs[n - 1], height, ln, f);
      forall k | 0 <= k < n - 1 ensures Undoable(ConnectTxs(l, txs[..k], height).value.0, gs[k]) {
        assert gs[k] == fs[k];
      }
      UndoConnectTxs(l, txs, n - 1, height, lk, gs);
    }
  }

  // ----- well-formed ledgers and clean blocks -----

  /** Every unspent reservation output is recorded in the reservations table
    * with its commitment, and no two of them are the same reservation. */
  ghost predicate ReservationsAgree(l: Ledger) {
    && (forall o :: o in l.utxos && l.utxos[o].content.FilledReservation? ==>
          var c := l.utxos[o].content;
          c.txid in l.tables.reservations && l.tables.reservations[c.txid] == c.commitment)
    && (forall o, o' :: o in l.utxos && o' in l.utxos && o != o' &&
                        l.utxos[o].content.FilledReservation? && l.utxos[o'].content.FilledReservation? ==>
                          l.utxos[o].content.txid != l.utxos[o'].content.txid)
  }

  ghost predicate LedgerOk(l: Ledger, height: Option<nat>) {
    && l.utxos.Keys !! l.stxos.Keys
    && ReservationsAgree(l)
    && SeqsDense(l.tables)
    && RecordsUpTo(l.tables, if height.None? then 0 else height.value)
    && (height.None? ==> l.tables.records == map[])
  }

  ghost predicate StateOk(st: State) {
    && LedgerOk(st.ledger, st.height)
    && st.tip.None? == st.height.None?
  }

  /** No outpoint is created twice in the block. */
  ghost predicate CreatedOnce(header: Header, body: Body) {
    forall n :: 0 <= n < |body.transactions| ==>
                  CreatedBy(body.transactions[n]) !! CreatedUpTo(header, body, n)
  }

  ghost predicate NamesOnce(txs: seq<Transaction>) {
    forall i, j :: 0 <= i < j < |txs| && IsRegistration(txs[i]) && IsRegistration(txs[j]) ==>
                     txs[i].data.value.name != txs[j].data.value.name
  }

  ghost predicate SpentBy(txs: seq<Transaction>, n: nat, o: OutPoint)
    requires n <= |txs|
  {
    exists s :: 0 <= s < n && o in txs[s].inputs
  }

  /** The registration `tx` removes row `r` from the reservations table. */
  ghost predicate BurnsRow(utxos: Utxos, tx: Transaction, r: Txid) {
    IsRegistration(tx) && Fill(utxos, tx).Ok? && Burned(Fill(utxos, tx).value) == Some(r)
  }

  ghost predicate BurnedBy(utxos: Utxos, txs: seq<Transaction>, n: nat, r: Txid)
    requires n <= |txs|
  {
    exists s :: 0 <= s < n && BurnsRow(utxos, txs[s], r)
  }

  /** The block creates each outpoint once, and one that is unspent already only
    * after spending it; the outputs of its coinbase are new; it makes a
    * reservation that is in the table only after burning it; and it registers
    * each name once. */
  ghost predicate Reversible(l: Ledger, header: Header, body: Body) {
    var txs := body.transactions;
    && CreatedOnce(header, body)
    && CoinbaseCreated(header, body) !! l.utxos.Keys
    && (forall k, o :: 0 <= k < |txs| && o in CreatedBy(txs[k]) && o in l.utxos ==> SpentBy(txs, k + 1, o))
    && (forall k :: 0 <= k < |txs| && IsReservation(txs[k]) && txs[k].txid in l.tables.reservations ==>
          BurnedBy(l.utxos, txs, k, txs[k].txid))
    && NamesOnce(txs)
  }

  lemma CleanIsReversible(l: Ledger, header: Header, body: Body)
    requires Clean(l, header, body)
    ensures Reversible(l, header, body)
  {
    hide CreatedBy, CoinbaseCreated, BurnedBy;
    var n := |body.transactions|;
    CreatedGrows(header, body, 0, n);
    forall k | 0 <= k < n ensures CreatedBy(body.transactions[k]) <= CreatedUpTo(header, body, n) {
      CreatedGrows(header, body, k, n);
    }
  }

  /** The block creates no outpoint twice and none that is unspent already, its
    * reservations are new, and it registers each name once. */
  ghost predicate Clean(l: Ledger, header: Header, body: Body) {
    && CreatedOnce(header, body)
    && CreatedUpTo(header, body, |body.transactions|) !! l.utxos.Keys
    && (forall i :: 0 <= i < |body.transactions| && IsReservation(body.transactions[i]) ==>
                      body.transactions[i].txid !in l.tables.reservations)
    && NamesOnce(body.transactions)
  }

  lemma {:induction false} CreatedGrows(header: Header, body: Body, m: nat, n: nat)
    requires m <= n <= |body.transactions|
    ensures CreatedUpTo(header, body, m) <= CreatedUpTo(header, body, n)
    ensures m < n ==> CreatedBy(body.transactions[m]) <= CreatedUpTo(header, body, n)
    decreases n
  {
    if m < n { CreatedGrows(header, body, m, n - 1); }
  }

  lemma {:induction false} CreatedMember(header: Header, body: Body, n: nat, o: OutPoint)
    requires n <= |body.transactions|
    ensures o in CreatedUpTo(header, body, n) <==>
            o in CoinbaseCreated(header, body) || exists i :: 0 <= i < n && o in CreatedBy(body.transactions[i])
  {
    if n > 0 { CreatedMember(header, body, n - 1, o); }
  }

  lemma {:induction false} AllInputsMember(txs: seq<Transaction>, o: OutPoint)
    ensures o in AllInputs(txs) <==> exists i :: 0 <= i < |txs| && o in txs[i].inputs
  {
    if txs != [] {
      var init := txs[..|txs| - 1];
      AllInputsMember(init, o);
      assert forall i :: 0 <= i < |init| ==> init[i] == txs[i];
    }
  }

  /** With distinct inputs no outpoint is spent by two transactions. */
  lemma SpentOnce(txs: seq<Transaction>, s: nat, n: nat, o: OutPoint)
    requires Distinct(AllInputs(txs)) && s < n < |txs| && o in txs[s].inputs
    ensures o !in txs[n].inputs
  {
    hide Distinct, AllInputs;
    assert o in Elements(txs[n].inputs) <==> o in txs[n].inputs;
    InputsDistinct(txs, n);
    AllInputsMember(txs[..n], o);
    assert txs[..n][s] == txs[s];
    assert o in Elements(AllInputs(txs[..n]));
  }

  lemma ReversibleHasNoForwardSpends(l: Ledger, header: Header, body: Body)
    requires Reversible(l, header, body) && Distinct(AllInputs(body.transactions))
    requires forall i :: 0 <= i < |body.transactions| ==> Elements(body.transactions[i].inputs) <= l.utxos.Keys
    ensures NoForwardSpends(header, body)
  {
    hide Distinct, AllInputs, CreatedBy, CoinbaseCreated, BurnedBy, CreatedOnce, NamesOnce;
    var txs := body.transactions;
    forall n, o | 0 <= n < |txs| && o in txs[n].inputs ensures o !in CreatedUpTo(header, body, n) {
      assert o in Elements(txs[n].inputs);
      CreatedMember(header, body, n, o);
      if k :| 0 <= k < n && o in CreatedBy(txs[k]) {
        var s :| 0 <= s < k + 1 && o in txs[s].inputs;
        SpentOnce(txs, s, n, o);
      }
    }
  }

  // ----- the name tables during a block -----

  /** Tables after the first `n` transactions: dense, and holding nothing new
    * but the names and reservations of those transactions, and no old
    * reservation that one of them burned. */
  ghost predicate TablesTrack(l: Ledger, txs: seq<Transaction>, n: nat, t: Tables)
    requires n <= |txs|
  {
    var t0 := l.tables;
    && SeqsDense(t)
    && (forall x :: x in t.records ==> HasHistory(t.records[x]))
    && (forall x :: x in t.records ==>
          x in t0.records || exists i :: 0 <= i < n && IsRegistration(txs[i]) && txs[i].data.value.name == x)
    && (forall r :: r in t.reservations ==>
          (r in t0.reservations && t.reservations[r] == t0.reservations[r] && !BurnedBy(l.utxos, txs, n, r))
          || exists i :: 0 <= i < n && IsReservation(txs[i]) && txs[i].txid == r)
  }

  lemma TablesTrackStep(l: Ledger, txs: seq<Transaction>, n: nat, t: Tables, f: FilledTransaction, height: nat)
    requires n < |txs| && f.tx == txs[n] && Fill(l.utxos, f.tx) == Ok(f)
    requires TablesTrack(l, txs, n, t) && DataFresh(t, f.tx)
    requires ApplyData(t, f, height).Ok?
    ensures TablesTrack(l, txs, n + 1, ApplyData(t, f, height).value)
  {
    hide SeqsDense, ApplyData, Burned, HasHistory, BurnedBy, Fill;
    var t0, t' := l.tables, ApplyData(t, f, height).value;
    ApplyDataKeepsDense(t, f, height);
    ApplyDataKeepsHistory(t, f, height);
    forall x | x in t'.records
      ensures x in t0.records || exists i :: 0 <= i < n + 1 && IsRegistration(txs[i]) && txs[i].data.value.name == x
    {
      TrackRecord(t0, txs, n, t, f, height, x);
    }
    forall r | r in t'.reservations
      ensures (r in t0.reservations && t'.reservations[r] == t0.reservations[r] && !BurnedBy(l.utxos, txs, n + 1, r))
              || exists i :: 0 <= i < n + 1 && IsReservation(txs[i]) && txs[i].txid == r
    {
      TrackReservation(l, txs, n, t, f, height, r);
    }
  }

  lemma TrackRecord(t0: Tables, txs: seq<Transaction>, n: nat, t: Tables, f: FilledTransaction, height: nat, x: NameHash)
    requires n < |txs| && f.tx == txs[n] && ApplyData(t, f, height).Ok? && x in ApplyData(t, f, height).value.records
    requires x in t.records ==>
               x in t0.records || exists i :: 0 <= i < n && IsRegistration(txs[i]) && txs[i].data.value.name == x
    ensures x in t0.records || exists i :: 0 <= i < n + 1 && IsRegistration(txs[i]) && txs[i].data.value.name == x
  {
    hide ApplyData, Burned;
    ApplyDataEffect(t, f, height);
    if x !in t.records { assert IsRegistration(txs[n]) && txs[n].data.value.name == x; }
  }

  lemma TrackReservation(l: Ledger, txs: seq<Transaction>, n: nat, t: Tables, f: FilledTransaction, height: nat, r: Txid)
    requires n < |txs| && f.tx == txs[n] && ApplyData(t, f, height).Ok? && r in ApplyData(t, f, height).value.reservations
    requires Fill(l.utxos, f.tx) == Ok(f)
    requires r in t.reservations ==>
               (r in l.tables.reservations && t.reservations[r] == l.tables.reservations[r] && !BurnedBy(l.utxos, txs, n, r))
               || exists i :: 0 <= i < n && IsReservation(txs[i]) && txs[i].txid == r
    ensures var t' := ApplyData(t, f, height).value;
            (r in l.tables.reservations && t'.reservations[r] == l.tables.reservations[r] && !BurnedBy(l.utxos, txs, n + 1, r))
            || exists i :: 0 <= i < n + 1 && IsReservation(txs[i]) && txs[i].txid == r
  {
    hide ApplyData, Burned, Fill;
    var t' := ApplyData(t, f, height).value;
    ApplyDataEffect(t, f, height);
    if IsReservation(txs[n]) && txs[n].txid == r {
    } else {
      assert r in t.reservations && t'.reservations[r] == t.reservations[r];
      if !BurnedBy(l.utxos, txs, n, r) && BurnedBy(l.utxos, txs, n + 1, r) {
        var s :| 0 <= s < n + 1 && BurnsRow(l.utxos, txs[s], r);
        assert s == n && Burned(f) == Some(r);
      }
    }
  }

  lemma {:induction false} ValidateAllFacts(records: map<NameHash, Record>, fs: seq<FilledTransaction>, n: nat)
    requires ValidateAll(records, fs).Ok? && n < |fs|
    ensures ValidateFilled(records, fs[n]).Ok?
    decreases |fs|
  {
    if n < |fs| - 1 { ValidateAllFacts(records, fs[..|fs| - 1], n); }
  }

  /** A burned reservation is one that an input of the transaction holds. */
  lemma BurnedIsSpent(utxos: Utxos, f: FilledTransaction) returns (o: OutPoint)
    requires Fill(utxos, f.tx) == Ok(f) && Burned(f).Some?
    ensures o in f.tx.inputs && o in utxos && IsRegistration(f.tx)
    ensures utxos[o].content == FilledReservation(Burned(f).value, f.tx.data.value.implied)
  {
    FillFacts(utxos, f.tx);
    var implied := f.tx.data.value.implied;
    FirstClaimFacts(Claims(f.spent), implied);
    ClaimMember(f.spent, Burned(f).value, implied);
    var i :| 0 <= i < |f.spent| && f.spent[i].content == FilledReservation(Burned(f).value, implied);
    o := f.tx.inputs[i];
  }

  lemma CreatedTxidsDiffer(header: Header, body: Body, i: nat, n: nat)
    requires i < n < |body.transactions| && CreatedOnce(header, body)
    requires body.transactions[i].outputs != [] && body.transactions[n].outputs != []
    ensures body.transactions[i].txid != body.transactions[n].txid
  {
    CreatedGrows(header, body, i, n);
    assert Regular(body.transactions[i].txid, 0) in CreatedBy(body.transactions[i]);
    assert Regular(body.transactions[n].txid, 0) in CreatedBy(body.transactions[n]);
  }

  lemma DataFreshInBlock(l: Ledger, header: Header, body: Body, n: nat, t: Tables, f: FilledTransaction)
    requires n < |body.transactions| && f.tx == body.transactions[n]
    requires Reversible(l, header, body) && TablesTrack(l, body.transactions, n, t)
    requires forall i :: 0 <= i <= n && IsReservation(body.transactions[i]) ==> body.transactions[i].outputs != []
    requires IsRegistration(f.tx) ==> f.tx.data.value.name !in l.tables.records
    ensures DataFresh(t, f.tx)
  {
    hide SeqsDense, HasHistory, BurnedBy, CreatedBy, CreatedOnce;
    var txs := body.transactions;
    forall i | 0 <= i < n && IsReservation(txs[i]) && IsReservation(f.tx) ensures txs[i].txid != f.tx.txid {
      CreatedTxidsDiffer(header, body, i, n);
    }
  }

  /** With distinct inputs no reservation is burned by two transactions. */
  lemma BurnedOnce(l: Ledger, txs: seq<Transaction>, s: nat, n: nat, r: Txid)
    requires Distinct(AllInputs(txs)) && ReservationsAgree(l) && s < n < |txs|
    requires BurnsRow(l.utxos, txs[s], r)
    ensures !BurnsRow(l.utxos, txs[n], r)
  {
    hide Burned, Fill, AllInputs, Distinct;
    if BurnsRow(l.utxos, txs[n], r) {
      FillFacts(l.utxos, txs[s]);
      FillFacts(l.utxos, txs[n]);
      var o := BurnedIsSpent(l.utxos, Fill(l.utxos, txs[s]).value);
      var o' := BurnedIsSpent(l.utxos, Fill(l.utxos, txs[n]).value);
      SpentOnce(txs, s, n, o);
    }
  }

  lemma BurnAgreesInBlock(l: Ledger, header: Header, body: Body, n: nat, t: Tables, f: FilledTransaction)
    requires n < |body.transactions| && f.tx == body.transactions[n] && TablesTrack(l, body.transactions, n, t)
    requires ReservationsAgree(l) && Reversible(l, header, body) && Distinct(AllInputs(body.transactions))
    requires Fill(l.utxos, f.tx) == Ok(f)
    ensures BurnAgrees(t, f)
  {
    hide Burned, Fill, SeqsDense, HasHistory, AllInputs, Distinct, CreatedOnce, CreatedBy, NamesOnce;
    var txs := body.transactions;
    if Burned(f).Some? {
      var r := Burned(f).value;
      var o := BurnedIsSpent(l.utxos, f);
      assert r in l.tables.reservations && BurnsRow(l.utxos, txs[n], r);
      if i :| 0 <= i < n && IsReservation(txs[i]) && txs[i].txid == r {
        var s :| 0 <= s < i && BurnsRow(l.utxos, txs[s], r);
        BurnedOnce(l, txs, s, n, r);
      }
    }
  }

  lemma ValidTxFacts(records: map<NameHash, Record>, f: FilledTransaction)
    requires ValidateFilled(records, f).Ok?
    ensures IsReservation(f.tx) ==> f.tx.outputs != []
    ensures IsRegistration(f.tx) ==> f.tx.data.value.name !in records
  {
  }

  /** What holds of an accepted, reversible block before any of it is connected. */
  ghost predicate Ready(l: Ledger, header: Header, body: Body, fs: seq<FilledTransaction>) {
    && |fs| == |body.transactions|
    && l.utxos.Keys !! l.stxos.Keys && ReservationsAgree(l)
    && Reversible(l, header, body) && NoForwardSpends(header, body)
    && Distinct(AllInputs(body.transactions))
    && (forall i :: 0 <= i < |fs| ==> fs[i].tx == body.transactions[i] && Fill(l.utxos, fs[i].tx) == Ok(fs[i]))
    && (forall i :: 0 <= i < |fs| ==> ValidateFilled(l.tables.records, fs[i]).Ok?)
  }

  lemma UndoableInBlock(l: Ledger, header: Header, body: Body, fs: seq<FilledTransaction>, n: nat, b: Batch)
    requires n < |body.transactions| && Ready(l, header, body, fs)
    requires BatchOf(header, body, n, b) && TablesTrack(l, body.transactions, n, b.tables)
    ensures Undoable(Flush(l, b), fs[n])
  {
    hide SeqsDense, HasHistory, Fill, ReservationsAgree, ValidateFilled, BurnAgrees, DataFresh, AllInputs, Distinct, CreatedBy;
    hide Reversible;
    var txs, f := body.transactions, fs[n];
    InputsDistinct(txs, n);
    FillFacts(l.utxos, f.tx);
    forall i | 0 <= i <= n ensures IsReservation(txs[i]) ==> txs[i].outputs != [] {
      ValidTxFacts(l.tables.records, fs[i]);
    }
    ValidTxFacts(l.tables.records, f);
    DataFreshInBlock(l, header, body, n, b.tables, f);
    BurnAgreesInBlock(l, header, body, n, b.tables, f);
    CreatedApart(l, header, body, n, b);
    assert Elements(f.tx.inputs) !! Flush(l, b).stxos.Keys;
  }

  /** Where a transaction of a reversible block stands, its outputs are free. */
  lemma CreatedApart(l: Ledger, header: Header, body: Body, n: nat, b: Batch)
    requires n < |body.transactions| && Reversible(l, header, body) && BatchOf(header, body, n, b)
    ensures CreatedBy(body.transactions[n]) !! Flush(l, b).utxos.Keys - Elements(body.transactions[n].inputs)
  {
    hide AllInputs, CreatedBy, CoinbaseCreated, NamesOnce, BurnedBy, CreatedUpTo;
    var txs := body.transactions;
    forall o | o in CreatedBy(txs[n]) && o in l.utxos && o !in txs[n].inputs ensures o in b.deletes {
      var s :| 0 <= s < n + 1 && o in txs[s].inputs;
      assert txs[..n][s] == txs[s];
      AllInputsMember(txs[..n], o);
    }
  }

  lemma AccumulateTables(l: Ledger, b: Batch, f: FilledTransaction, height: nat)
    requires AccumulateTx(l, b, f, height).Ok?
    ensures ApplyData(b.tables, f, height) == Ok(AccumulateTx(l, b, f, height).value.tables)
  {
    hide ApplyData, FilledOutputs, Fill, SpentPuts, OutputPuts;
  }

  lemma {:induction false} BlockTables(l: Ledger, header: Header, body: Body, fs: seq<FilledTransaction>,
                                       b0: Batch, n: nat, height: nat)
    requires n <= |body.transactions| && Ready(l, header, body, fs)
    requires BatchOf(header, body, 0, b0) && TablesTrack(l, body.transactions, 0, b0.tables)
    requires Accumulate(l, b0, fs[..n], height).Ok?
    ensures BatchOf(header, body, n, Accumulate(l, b0, fs[..n], height).value)
    ensures TablesTrack(l, body.transactions, n, Accumulate(l, b0, fs[..n], height).value.tables)
  {
    hide TablesTrack, ApplyData, AccumulateTx, Accumulate, Fill, Distinct, AllInputs, ValidateFilled, ReservationsAgree;
    hide Reversible, NoForwardSpends, ConnectTxs, CreatedUpTo, DataFresh, SeqsDense, HasHistory, BurnAgrees;
    PrefixAgrees(l, header, body, fs, b0, n, height);
    if n == 0 {
      AccumulateNone(l, b0, fs, height);
    } else {
      AccumulateStep(l, b0, fs, n - 1, height);
      BlockTables(l, header, body, fs, b0, n - 1, height);
      var b := Accumulate(l, b0, fs[..n - 1], height).value;
      UndoableInBlock(l, header, body, fs, n - 1, b);
      AccumulateTables(l, b, fs[n - 1], height);
      TablesTrackStep(l, body.transactions, n - 1, b.tables, fs[n - 1], height);
    }
  }

  lemma AccumulateNone(l: Ledger, b0: Batch, fs: seq<FilledTransaction>, height: nat)
    ensures Accumulate(l, b0, fs[..0], height) == Ok(b0)
  {
    assert fs[..0] == [];
  }

  lemma {:induction false} AccumulatePrefixOk(l: Ledger, b0: Batch, fs: seq<FilledTransaction>, k: nat, n: nat, height: nat)
    requires k <= n <= |fs| && Accumulate(l, b0, fs[..n], height).Ok?
    ensures Accumulate(l, b0, fs[..k], height).Ok?
    decreases n
  {
    hide AccumulateTx;
    if k < n {
      AccumulateStep(l, b0, fs, n - 1, height);
      AccumulatePrefixOk(l, b0, fs, k, n - 1, height);
    }
  }

  /** Every transaction of an accepted, reversible block can be undone where it stands. */
  lemma BlockUndoable(l: Ledger, header: Header, body: Body, fs: seq<FilledTransaction>,
                      b0: Batch, k: nat, height: nat)
    requires k < |body.transactions| && Ready(l, header, body, fs)
    requires BatchOf(header, body, 0, b0) && TablesTrack(l, body.transactions, 0, b0.tables)
    requires Accumulate(l, b0, fs, height).Ok?
    ensures ConnectTxs(Flush(l, b0), body.transactions[..k], height).Ok?
    ensures Undoable(ConnectTxs(Flush(l, b0), body.transactions[..k], height).value.0, fs[k])
  {
    hide TablesTrack, Undoable, Accumulate, Fill, Distinct, AllInputs, ValidateFilled, ReservationsAgree;
    hide Reversible, NoForwardSpends, ConnectTxs, CreatedUpTo, AccumulateTx;
    assert fs[..|fs|] == fs;
    AccumulatePrefixOk(l, b0, fs, k, |fs|, height);
    BlockTables(l, header, body, fs, b0, k, height);
    PrefixAgrees(l, header, body, fs, b0, k, height);
    UndoableInBlock(l, header, body, fs, k, Accumulate(l, b0, fs[..k], height).value);
  }

  // ----- the theorem -----

  lemma ReadyIfAccepted(cr: Crypto, st: State, header: Header, body: Body)
    requires StateOk(st) && Prevalidate(cr, st, header, body).Ok? && Reversible(st.ledger, header, body)
    ensures Ready(st.ledger, header, body, Prevalidate(cr, st, header, body).value.filled)
  {
    hide ValidateFilled, ValidateAll, Reversible, Distinct, AllInputs, ReservationsAgree, SeqsDense, RecordsUpTo;
    PrevalidateFacts(cr, st, header, body);
    hide Prevalidate;
    var l, fs := st.ledger, Prevalidate(cr, st, header, body).value.filled;
    forall i | 0 <= i < |fs|
      ensures fs[i].tx == body.transactions[i] && ValidateFilled(l.tables.records, fs[i]).Ok?
      ensures Elements(body.transactions[i].inputs) <= l.utxos.Keys
    {
      FillFacts(l.utxos, body.transactions[i]);
      ValidateAllFacts(l.tables.records, fs, i);
    }
    ReversibleHasNoForwardSpends(l, header, body);
  }

  /** Disconnecting the tip restores the state from before the block exactly,
    * and none of its assertions fails. */
  lemma DisconnectUndoesConnect(cr: Crypto, st: State, header: Header, body: Body)
    requires StateOk(st) && Reversible(st.ledger, header, body)
    requires ApplyBlock(cr, st, header, body).Ok?
    ensures DisconnectTip(cr, ApplyBlock(cr, st, header, body).value, header, body) == Ok(st)
  {
    hide Prevalidate, ConnectPrevalidated, Connect, ValidateAll, LedgerOk, Ready, Fill, Distinct, AllInputs, ConnectTxs;
    var pre := Prevalidate(cr, st, header, body).value;
    PrevalidateFacts(cr, st, header, body);
    ReadyIfAccepted(cr, st, header, body);
    UndoAccepted(cr, st, header, body, pre);
  }

  lemma UndoAccepted(cr: Crypto, st: State, header: Header, body: Body, pre: Prevalidated)
    requires StateOk(st) && Ready(st.ledger, header, body, pre.filled)
    requires header.prevSide == st.tip && pre.nextHeight == NextHeight(st)
    requires cr.merkle(body.coinbase, pre.filled) == Some(header.merkleRoot)
    requires ConnectPrevalidated(st, header, body, pre).Ok?
    ensures DisconnectTip(cr, ConnectPrevalidated(st, header, body, pre).value, header, body) == Ok(st)
  {
    hide Accumulate, ConnectTxs, UndoTxs, Undoable, CreatedUpTo, ReservationsAgree, SeqsDense, ValidateFilled, Fill;
    hide Distinct, AllInputs, Reversible, NoForwardSpends, RecordsUpTo, CoinbaseOutputs, BatchOf, TablesTrack, HasHistory, CreatedBy;
    var l, txs, fs, h := st.ledger, body.transactions, pre.filled, pre.nextHeight;
    var outs := CoinbaseOutputs(body.coinbase).value;
    var b0 := Batch({}, map[], CoinbasePuts(header, outs), l.tables);
    RecordsHaveHistory(l, st.height);
    CoinbaseStart(l, header, body, outs);
    assert fs[..|fs|] == fs && txs[..|txs|] == txs;
    PrefixAgrees(l, header, body, fs, b0, |txs|, h);
    var b := Accumulate(l, b0, fs, h).value;
    forall k | 0 <= k < |txs|
      ensures ConnectTxs(Flush(l, b0), txs[..k], h).Ok?
      ensures Undoable(ConnectTxs(Flush(l, b0), txs[..k], h).value.0, fs[k])
    {
      BlockUndoable(l, header, body, fs, b0, k, h);
    }
    UndoConnectTxs(Flush(l, b0), txs, |txs|, h, Flush(l, b), fs);
    assert Flush(l, b0).utxos - CoinbaseCreated(header, body) == l.utxos by {
      CoinbaseIsNew(l, header, body);
    }
    assert Flush(l, b0).(utxos := l.utxos) == l;
    var st' := ConnectPrevalidated(st, header, body, pre).value;
    assert st'.ledger == Flush(l, b) && st'.height == Some(h);
    assert CoinbaseCreated(header, body) <= Flush(l, b0).utxos.Keys;
  }

  lemma RecordsHaveHistory(l: Ledger, height: Option<nat>)
    requires LedgerOk(l, height)
    ensures forall x :: x in l.tables.records ==> HasHistory(l.tables.records[x])
  {
  }

  lemma CoinbaseIsNew(l: Ledger, header: Header, body: Body)
    requires Reversible(l, header, body)
    ensures CoinbaseCreated(header, body) !! l.utxos.Keys
  {
  }

  lemma CoinbaseStart(l: Ledger, header: Header, body: Body, outs: seq<FilledOutput>)
    requires CoinbaseOutputs(body.coinbase) == Ok(outs)
    requires SeqsDense(l.tables) && forall x :: x in l.tables.records ==> HasHistory(l.tables.records[x])
    ensures CoinbasePuts(header, outs).Keys == CoinbaseCreated(header, body)
    ensures BatchOf(header, body, 0, Batch({}, map[], CoinbasePuts(header, outs), l.tables))
    ensures TablesTrack(l, body.transactions, 0, l.tables)
  {
    CoinbaseStartBatch(l, header, body, outs);
  }
}
