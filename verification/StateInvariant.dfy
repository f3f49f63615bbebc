/** Accepted blocks keep the state well formed. */
module StateInvariant {
  import opened Wrappers
  import opened Types
  import opened Filling
  import opened BitNames
  import opened Blocks
  import opened BatchedConnect
  import opened DisconnectUndo

  /** A clean block whose outpoints were never used before. */
  ghost predicate Fresh(l: Ledger, header: Header, body: Body) {
    Clean(l, header, body) && CreatedUpTo(header, body, |body.transactions|) !! l.stxos.Keys
  }

  // ----- reservations -----

  lemma SpentClaims(l: Ledger, f: FilledTransaction)
    requires ReservationsAgree(l) && Fill(l.utxos, f.tx) == Ok(f) && Distinct(f.tx.inputs)
    ensures DistinctTxids(Claims(f.spent))
    ensures forall t, c :: (t, c) in Claims(f.spent) ==>
              exists o :: o in f.tx.inputs && o in l.utxos && l.utxos[o].content == FilledReservation(t, c)
  {
    FillFacts(l.utxos, f.tx);
    hide Fill;
    forall i, j | 0 <= i < j < |f.spent| && f.spent[i].content.FilledReservation? && f.spent[j].content.FilledReservation?
      ensures f.spent[i].content.txid != f.spent[j].content.txid
    {
      assert f.tx.inputs[i] != f.tx.inputs[j];
    }
    DistinctClaims(f.spent);
    forall t, c | (t, c) in Claims(f.spent)
      ensures exists o :: o in f.tx.inputs && o in l.utxos && l.utxos[o].content == FilledReservation(t, c)
    {
      ClaimMember(f.spent, t, c);
      var i :| 0 <= i < |f.spent| && f.spent[i].content == FilledReservation(t, c);
      assert f.tx.inputs[i] in f.tx.inputs && l.utxos[f.tx.inputs[i]].content == FilledReservation(t, c);
    }
  }

  /** The unspent output holds the reservation of transaction `t`. */
  ghost predicate HoldsRow(utxos: Utxos, o: OutPoint, t: Txid) {
    o in utxos && utxos[o].content.FilledReservation? && utxos[o].content.txid == t
  }

  /** A reservation that an input holds and the transaction does not burn. */
  ghost predicate Carried(l: Ledger, f: FilledTransaction, t: Txid, c: Hash) {
    && Burned(f) != Some(t)
    && exists o :: o in f.tx.inputs && o in l.utxos && l.utxos[o].content == FilledReservation(t, c)
  }

  /** Handed-out reservations are carried or made; distinct, if no input holds the
    * one that is made. */
  lemma OutputClaimsFacts(l: Ledger, f: FilledTransaction)
    requires ReservationsAgree(l) && Fill(l.utxos, f.tx) == Ok(f) && Distinct(f.tx.inputs)
    ensures (forall o :: IsReservation(f.tx) && o in f.tx.inputs ==> !HoldsRow(l.utxos, o, f.tx.txid)) ==> DistinctTxids(OutputClaims(f))
    ensures forall t, c :: (t, c) in OutputClaims(f) ==>
              Carried(l, f, t, c) || (IsReservation(f.tx) && t == f.tx.txid && c == f.tx.data.value.commitment)
  {
    hide Fill, Claims, DropFirstClaim, FirstClaim;
    SpentClaims(l, f);
    var rs := Claims(f.spent);
    match f.tx.data
    case Some(Registration(_, implied, _)) =>
      FirstClaimFacts(rs, implied);
    case Some(Reservation(commitment)) =>
      if forall o :: o in f.tx.inputs ==> !HoldsRow(l.utxos, o, f.tx.txid) {
        forall i | 0 <= i < |rs| ensures rs[i].0 != f.tx.txid {
          assert (rs[i].0, rs[i].1) in rs;
        }
      }
    case _ =>
  }

  /** Unspent reservations after a transaction, in terms of those before it. */
  lemma ConnectTxKeepsReservations(l: Ledger, tx: Transaction, height: nat, l': Ledger, f: FilledTransaction)
    requires ConnectTx(l, tx, height) == Ok((l', f))
    requires ReservationsAgree(l)
    requires IsReservation(tx) ==> tx.txid !in l.tables.reservations
    ensures ReservationsAgree(l')
  {
    hide Fill, FilledOutputs, ApplyData, OutputClaims, OutputNames, Claims, Names, Burned, SpentPuts, Value, FilledValue;
    FillFacts(l.utxos, tx);
    var outs := FilledOutputs(f).value;
    FilledOutputsFacts(f);
    OutputClaimsFacts(l, f);
    ApplyDataEffect(l.tables, f, height);
    DistinctClaims(outs);
    NewReservations(l, f, outs);
    if IsRegistration(f.tx) { var o := BurnedIsSpent(l.utxos, f); }
    ReservationsMove(l, f, outs, l');
  }

  /** The reservations among new outputs: distinct, carried over or newly made. */
  lemma NewReservations(l: Ledger, f: FilledTransaction, outs: seq<FilledOutput>)
    requires Claims(outs) <= OutputClaims(f) && DistinctTxids(OutputClaims(f))
    requires forall t, c :: (t, c) in OutputClaims(f) ==>
              Carried(l, f, t, c) || (IsReservation(f.tx) && t == f.tx.txid && c == f.tx.data.value.commitment)
    ensures DistinctReservations(outs)
    ensures forall i :: 0 <= i < |outs| && outs[i].content.FilledReservation? ==>
              var t, c := outs[i].content.txid, outs[i].content.commitment;
              Carried(l, f, t, c) || (IsReservation(f.tx) && t == f.tx.txid && c == f.tx.data.value.commitment)
  {
    hide OutputClaims, Claims, Carried;
    DistinctClaims(outs);
    forall i | 0 <= i < |outs| && outs[i].content.FilledReservation?
      ensures (outs[i].content.txid, outs[i].content.commitment) in OutputClaims(f)
    {
      ClaimMember(outs, outs[i].content.txid, outs[i].content.commitment);
    }
  }

  /** What a transaction does to the unspent outputs and the reservations. */
  ghost predicate Moves(l: Ledger, f: FilledTransaction, outs: seq<FilledOutput>, l': Ledger) {
    && DistinctReservations(outs)
    && l'.utxos == l.utxos - Elements(f.tx.inputs) + OutputPuts(f.tx.txid, outs)
    && (IsReservation(f.tx) ==> f.tx.txid !in l.tables.reservations)
    && (IsRegistration(f.tx) ==>
          Burned(f).Some? &&
          exists o :: o in f.tx.inputs && o in l.utxos && l.utxos[o].content.FilledReservation? &&
                      l.utxos[o].content.txid == Burned(f).value)
    && l'.tables.reservations ==
         (if IsReservation(f.tx) then l.tables.reservations[f.tx.txid := f.tx.data.value.commitment]
          else if IsRegistration(f.tx) then l.tables.reservations - {Burned(f).value}
          else l.tables.reservations)
    && forall i :: 0 <= i < |outs| && outs[i].content.FilledReservation? ==>
         var t, c := outs[i].content.txid, outs[i].content.commitment;
         Carried(l, f, t, c) || (IsReservation(f.tx) && t == f.tx.txid && c == f.tx.data.value.commitment)
  }

  /** An unspent reservation is either an old one that was not an input, or at an output. */
  lemma ReservationsListed(l: Ledger, f: FilledTransaction, outs: seq<FilledOutput>, l': Ledger, o: OutPoint)
    requires ReservationsAgree(l) && Moves(l, f, outs, l') && o in l'.utxos && l'.utxos[o].content.FilledReservation?
    ensures var c := l'.utxos[o].content;
            c.txid in l'.tables.reservations && l'.tables.reservations[c.txid] == c.commitment
  {
    hide Burned;
    if o in OutputPuts(f.tx.txid, outs) {
      assert o.txid == f.tx.txid && l'.utxos[o] == outs[o.vout];
    } else {
      assert o !in f.tx.inputs && l'.utxos[o] == l.utxos[o];
    }
  }

  lemma ReservationsApart(l: Ledger, f: FilledTransaction, outs: seq<FilledOutput>, l': Ledger, o: OutPoint, o': OutPoint)
    requires ReservationsAgree(l) && Moves(l, f, outs, l') && o in l'.utxos && o' in l'.utxos && o != o'
    requires l'.utxos[o].content.FilledReservation? && l'.utxos[o'].content.FilledReservation?
    ensures l'.utxos[o].content.txid != l'.utxos[o'].content.txid
  {
    hide Burned;
    var u, u', p := l.utxos, l'.utxos, OutputPuts(f.tx.txid, outs);
    if o in p && o' in p {
      assert u'[o] == outs[o.vout] && u'[o'] == outs[o'.vout] && o.vout != o'.vout;
    } else if o !in p && o' !in p {
      assert u'[o] == u[o] && u'[o'] == u[o'];
    } else {
      var a, b := if o in p then o else o', if o in p then o' else o;
      assert u'[a] == outs[a.vout] && u'[b] == u[b] && b !in f.tx.inputs;
    }
  }

  lemma ReservationsMove(l: Ledger, f: FilledTransaction, outs: seq<FilledOutput>, l': Ledger)
    requires ReservationsAgree(l) && Moves(l, f, outs, l')
    ensures ReservationsAgree(l')
  {
    hide Moves;
    var u := l'.utxos;
    forall o | o in u && u[o].content.FilledReservation?
      ensures var c := u[o].content; c.txid in l'.tables.reservations && l'.tables.reservations[c.txid] == c.commitment
    {
      ReservationsListed(l, f, outs, l', o);
    }
    forall o, o' | o in u && o' in u && o != o' && u[o].content.FilledReservation? && u[o'].content.FilledReservation?
      ensures u[o].content.txid != u[o'].content.txid
    {
      ReservationsApart(l, f, outs, l', o, o');
    }
  }

  // ----- a whole block -----

  lemma {:induction false} BlockKeeps(l: Ledger, header: Header, body: Body, fs: seq<FilledTransaction>,
                                      b0: Batch, n: nat, height: nat)
    requires n <= |body.transactions| && Ready(l, header, body, fs)
    requires BatchOf(header, body, 0, b0) && TablesTrack(l, body.transactions, 0, b0.tables)
    requires ReservationsAgree(Flush(l, b0)) && RecordsUpTo(b0.tables, height)
    requires Accumulate(l, b0, fs, height).Ok?
    ensures Accumulate(l, b0, fs[..n], height).Ok?
    ensures ReservationsAgree(Flush(l, Accumulate(l, b0, fs[..n], height).value))
    ensures RecordsUpTo(Accumulate(l, b0, fs[..n], height).value.tables, height)
  {
    hide ReservationsAgree, RecordsUpTo, TablesTrack, Accumulate, AccumulateTx, ConnectTxs, ConnectTx, ApplyData, Fill;
    hide Distinct, AllInputs, ValidateFilled, Reversible, NoForwardSpends, CreatedUpTo, BatchOf;
    assert fs[..|fs|] == fs;
    AccumulatePrefixOk(l, b0, fs, n, |fs|, height);
    if n == 0 {
      AccumulateNone(l, b0, fs, height);
    } else {
      BlockKeeps(l, header, body, fs, b0, n - 1, height);
      AccumulateStep(l, b0, fs, n - 1, height);
      var b, b' := Accumulate(l, b0, fs[..n - 1], height).value, Accumulate(l, b0, fs[..n], height).value;
      KeepsStep(l, header, body, fs, b0, b, b', n - 1, height);
    }
  }

  lemma KeepsStep(l: Ledger, header: Header, body: Body, fs: seq<FilledTransaction>,
                  b0: Batch, b: Batch, b': Batch, n: nat, height: nat)
    requires n < |body.transactions| && Ready(l, header, body, fs)
    requires BatchOf(header, body, 0, b0) && TablesTrack(l, body.transactions, 0, b0.tables)
    requires Accumulate(l, b0, fs[..n], height) == Ok(b) && AccumulateTx(l, b, fs[n], height) == Ok(b')
    requires ReservationsAgree(Flush(l, b)) && RecordsUpTo(b.tables, height)
    ensures ReservationsAgree(Flush(l, b')) && RecordsUpTo(b'.tables, height)
  {
    hide ReservationsAgree, RecordsUpTo, TablesTrack, Accumulate, AccumulateTx, ConnectTxs, ConnectTx, ApplyData, Fill;
    hide Distinct, AllInputs, ValidateFilled, Reversible, CreatedUpTo, SeqsDense, HasHistory, BurnAgrees;
    BlockTables(l, header, body, fs, b0, n, height);
    UndoableInBlock(l, header, body, fs, n, b);
    InputsDistinct(body.transactions, n);
    StepAgrees(l, b, fs[n], height);
    ConnectTxKeepsReservations(Flush(l, b), fs[n].tx, height, Flush(l, b'), fs[n]);
    AccumulateTables(l, b, fs[n], height);
    ApplyDataKeepsStamps(b.tables, fs[n], height);
  }

  /** Every accepted block of fresh transactions keeps the state well formed:
    * spent and unspent outputs stay apart, unspent reservations agree with the
    * reservations table, and sequence numbers stay dense and one-to-one. */
  lemma ApplyKeepsStateOk(cr: Crypto, st: State, header: Header, body: Body)
    requires StateOk(st) && Fresh(st.ledger, header, body)
    requires ApplyBlock(cr, st, header, body).Ok?
    ensures StateOk(ApplyBlock(cr, st, header, body).value)
    ensures ApplyBlock(cr, st, header, body).value.tip == Some(header.hash)
    ensures ApplyBlock(cr, st, header, body).value.height == Some(NextHeight(st))
  {
    hide Prevalidate, ConnectPrevalidated, ValidateAll, LedgerOk, Ready, Fill, Distinct, AllInputs, Clean, Reversible;
    PrevalidateFacts(cr, st, header, body);
    CleanIsReversible(st.ledger, header, body);
    ReadyIfAccepted(cr, st, header, body);
    KeepsStateOk(st, header, body, Prevalidate(cr, st, header, body).value);
  }

  lemma KeepsStateOk(st: State, header: Header, body: Body, pre: Prevalidated)
    requires StateOk(st) && Fresh(st.ledger, header, body) && Ready(st.ledger, header, body, pre.filled)
    requires pre.nextHeight == NextHeight(st)
    requires ConnectPrevalidated(st, header, body, pre).Ok?
    ensures StateOk(ConnectPrevalidated(st, header, body, pre).value)
    ensures ConnectPrevalidated(st, header, body, pre).value.tip == Some(header.hash)
    ensures ConnectPrevalidated(st, header, body, pre).value.height == Some(NextHeight(st))
  {
    hide Accumulate, ReservationsAgree, SeqsDense, ValidateFilled, Fill, ConnectTxs, CreatedUpTo;
    hide Distinct, AllInputs, Clean, Reversible, NoForwardSpends, StampedUpTo, HasHistory;
    var l, txs, fs, h := st.ledger, body.transactions, pre.filled, pre.nextHeight;
    var outs := CoinbaseOutputs(body.coinbase).value;
    var b0 := Batch({}, map[], CoinbasePuts(header, outs), l.tables);
    RecordsHaveHistory(l, st.height);
    CoinbaseStart(l, header, body, outs);
    CoinbaseKeepsReservations(l, header, body, outs, b0);
    RecordsUpToNext(l, st.height, h);
    assert fs[..|fs|] == fs;
    BlockKeeps(l, header, body, fs, b0, |fs|, h);
    BlockTables(l, header, body, fs, b0, |fs|, h);
    forall i | 0 <= i < |txs| ensures Elements(txs[i].inputs) <= l.utxos.Keys { FillFacts(l.utxos, fs[i].tx); }
    SpentApart(l, header, body, Accumulate(l, b0, fs, h).value);
  }

  lemma RecordsUpToNext(l: Ledger, height: Option<nat>, h: nat)
    requires LedgerOk(l, height) && h == (if height.None? then 0 else height.value + 1)
    ensures RecordsUpTo(l.tables, h)
  {
  }

  lemma CoinbaseKeepsReservations(l: Ledger, header: Header, body: Body, outs: seq<FilledOutput>, b0: Batch)
    requires ReservationsAgree(l) && CoinbaseOutputs(body.coinbase) == Ok(outs)
    requires b0 == Batch({}, map[], CoinbasePuts(header, outs), l.tables)
    ensures ReservationsAgree(Flush(l, b0))
  {
    CoinbaseOutputsFacts(body.coinbase);
    var u := Flush(l, b0).utxos;
    assert forall o :: o in b0.utxoPuts ==> !b0.utxoPuts[o].content.FilledReservation?;
    assert forall o :: o in u && u[o].content.FilledReservation? ==> o in l.utxos && u[o] == l.utxos[o];
  }

  lemma SpentApart(l: Ledger, header: Header, body: Body, b: Batch)
    requires l.utxos.Keys !! l.stxos.Keys && Fresh(l, header, body) && NoForwardSpends(header, body)
    requires BatchOf(header, body, |body.transactions|, b)
    requires forall i :: 0 <= i < |body.transactions| ==> Elements(body.transactions[i].inputs) <= l.utxos.Keys
    ensures Flush(l, b).utxos.Keys !! Flush(l, b).stxos.Keys
  {
    hide NoForwardSpends;
    var txs := body.transactions;
    assert txs[..|txs|] == txs;
    forall o | o in b.deletes ensures o in l.utxos {
      InputsSpent(txs, o);
    }
  }

  lemma {:induction false} InputsSpent(txs: seq<Transaction>, o: OutPoint)
    requires o in AllInputs(txs)
    ensures exists i :: 0 <= i < |txs| && o in Elements(txs[i].inputs)
  {
    var n := |txs| - 1;
    if o in txs[n].inputs {
      assert o in Elements(txs[n].inputs);
    } else {
      InputsSpent(txs[..n], o);
      var i :| 0 <= i < n && o in Elements(txs[..n][i].inputs);
      assert txs[..n][i] == txs[i];
    }
  }
}
