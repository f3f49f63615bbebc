/** Exactly when the batched connection of an accepted block is the sequential one. */
module BatchedExact {
  import opened Wrappers
  import opened Types
  import opened Filling
  import opened BitNames
  import opened Blocks
  import opened BatchedConnect
  import opened DisconnectUndo
  import opened DisconnectExact
  import opened ValidBlocks

  /** Outputs that the first `n` transactions created, then spent, and did not
    * create again. The batch puts them after its deletes, so it keeps them. */
  ghost function Revived(header: Header, body: Body, n: nat): set<OutPoint>
    requires n <= |body.transactions|
  {
    if n == 0 then {}
    else
      var tx := body.transactions[n - 1];
      Revived(header, body, n - 1) + Elements(tx.inputs) * CreatedUpTo(header, body, n - 1) - CreatedBy(tx)
  }

  lemma {:induction false} RevivedMember(header: Header, body: Body, n: nat, o: OutPoint)
    requires n <= |body.transactions|
    ensures o in Revived(header, body, n) <==>
            exists s :: 0 <= s < n && o in body.transactions[s].inputs && o in CreatedUpTo(header, body, s) &&
                        forall j :: s <= j < n ==> o !in CreatedBy(body.transactions[j])
    decreases n
  {
    hide CreatedUpTo, CreatedBy;
    var txs := body.transactions;
    if n > 0 {
      RevivedMember(header, body, n - 1, o);
      if o in Revived(header, body, n) {
        if o in Revived(header, body, n - 1) {
          var s :| 0 <= s < n - 1 && o in txs[s].inputs && o in CreatedUpTo(header, body, s) &&
                   forall j :: s <= j < n - 1 ==> o !in CreatedBy(txs[j]);
          assert forall j :: s <= j < n ==> o !in CreatedBy(txs[j]);
        } else {
          assert forall j :: n - 1 <= j < n ==> o !in CreatedBy(txs[j]);
        }
      }
      if s :| 0 <= s < n && o in txs[s].inputs && o in CreatedUpTo(header, body, s) &&
              forall j :: s <= j < n ==> o !in CreatedBy(txs[j]) {
        assert o !in CreatedBy(txs[n - 1]);
      }
    }
  }

  /** Transaction `n` spends what the state held: an output that was collected for
    * one of its inputs is the one that the state has there. */
  ghost predicate SameOutputs(l: Ledger, b: Batch, tx: Transaction) {
    forall o :: o in tx.inputs && o in b.utxoPuts ==> o in l.utxos && b.utxoPuts[o] == l.utxos[o]
  }

  /** The ledger of the sequential connection, from the batch. */
  ghost function Sequential(l: Ledger, b: Batch, revived: set<OutPoint>): Ledger {
    Ledger(l.utxos - b.deletes + b.utxoPuts - revived, l.stxos + b.stxoPuts, b.tables)
  }

  lemma FillSequential(l: Ledger, b: Batch, revived: set<OutPoint>, tx: Transaction)
    requires Elements(tx.inputs) !! b.deletes && revived <= b.deletes && Fill(l.utxos, tx).Ok? && SameOutputs(l, b, tx)
    ensures Fill(Sequential(l, b, revived).utxos, tx) == Fill(l.utxos, tx)
  {
    var u := Sequential(l, b, revived).utxos;
    forall i | 0 <= i < |tx.inputs| ensures tx.inputs[i] in u && u[tx.inputs[i]] == l.utxos[tx.inputs[i]] {
      assert tx.inputs[i] in Elements(tx.inputs);
    }
    assert Fill(u, tx).value.spent == Fill(l.utxos, tx).value.spent;
  }

  lemma SequentialUtxos(u: Utxos, d: set<OutPoint>, q: Utxos, r: set<OutPoint>, i: set<OutPoint>, p: Utxos)
    requires i !! d && r <= d
    ensures u - d + q - r - i + p == u - (d + i) + (q + p) - (r + i * q.Keys - p.Keys)
  {
  }

  /** One transaction, where the outputs are the same. */
  lemma SequentialStep(l: Ledger, b: Batch, revived: set<OutPoint>, f: FilledTransaction, height: nat)
    requires Distinct(f.tx.inputs) && Elements(f.tx.inputs) !! b.deletes && revived <= b.deletes
    requires Fill(l.utxos, f.tx) == Ok(f) && SameOutputs(l, b, f.tx)
    ensures ConnectTx(Sequential(l, b, revived), f.tx, height) ==
            match AccumulateTx(l, b, f, height)
            case Ok(b') =>
              Ok((Sequential(l, b', revived + Elements(f.tx.inputs) * b.utxoPuts.Keys - CreatedBy(f.tx)), f))
            case Err(e) => Err(e)
  {
    hide FilledOutputs, ApplyData, Fill, SpentPuts, OutputPuts, CreatedBy, Distinct, SameOutputs;
    FillFacts(l.utxos, f.tx);
    FillSequential(l, b, revived, f.tx);
    match FilledOutputs(f)
    case None =>
    case Some(outs) =>
      FilledOutputsFacts(f);
      OutputPutsKeys(f.tx, outs);
      SequentialUtxos(l.utxos, b.deletes, b.utxoPuts, revived, Elements(f.tx.inputs), OutputPuts(f.tx.txid, outs));
      var puts := SpentPuts(f.tx.txid, f.tx.inputs, f.spent, |f.tx.inputs|);
      assert l.stxos + b.stxoPuts + puts == l.stxos + (b.stxoPuts + puts);
  }

  // ----- a whole block -----

  /** The batch after the first `n` transactions. */
  ghost function Collected(l: Ledger, fs: seq<FilledTransaction>, b0: Batch, n: nat, height: nat): Batch
    requires n <= |fs| && Accumulate(l, b0, fs[..n], height).Ok?
  {
    Accumulate(l, b0, fs[..n], height).value
  }

  ghost predicate SameUpTo(l: Ledger, txs: seq<Transaction>, fs: seq<FilledTransaction>, b0: Batch, n: nat, height: nat)
    requires n <= |txs| == |fs|
  {
    forall i :: 0 <= i < n && Accumulate(l, b0, fs[..i], height).Ok? ==>
                  SameOutputs(l, Collected(l, fs, b0, i, height), txs[i])
  }

  ghost predicate Walk(l: Ledger, header: Header, body: Body, fs: seq<FilledTransaction>, b0: Batch, n: nat, height: nat)
    requires n <= |body.transactions| == |fs|
  {
    match Accumulate(l, b0, fs[..n], height)
    case Ok(b) =>
      && ConnectTxs(Flush(l, b0), body.transactions[..n], height) == Ok((Sequential(l, b, Revived(header, body, n)), fs[..n]))
      && BatchOf(header, body, n, b) && Revived(header, body, n) <= b.deletes
      && Revived(header, body, n) <= CreatedUpTo(header, body, n)
    case Err(e) => ConnectTxs(Flush(l, b0), body.transactions[..n], height) == Err(e)
  }

  lemma WalkStep(l: Ledger, header: Header, body: Body, fs: seq<FilledTransaction>, b0: Batch, n: nat, height: nat)
    requires n < |body.transactions| == |fs| && Walk(l, header, body, fs, b0, n, height)
    requires Distinct(AllInputs(body.transactions)) && fs[n].tx == body.transactions[n] && Fill(l.utxos, fs[n].tx) == Ok(fs[n])
    requires Accumulate(l, b0, fs[..n], height).Ok? ==> SameOutputs(l, Collected(l, fs, b0, n, height), body.transactions[n])
    ensures Walk(l, header, body, fs, b0, n + 1, height)
  {
    hide ConnectTx, AccumulateTx, ConnectTxs, Accumulate, Fill, AllInputs, CreatedBy, CoinbaseCreated, Distinct, Flush, Sequential, SameOutputs;
    ConnectTxsStep(Flush(l, b0), body.transactions, n, height);
    AccumulateStep(l, b0, fs, n, height);
    match Accumulate(l, b0, fs[..n], height)
    case Err(_) =>
    case Ok(b) =>
      InputsDistinct(body.transactions, n);
      SequentialStep(l, b, Revived(header, body, n), fs[n], height);
      assert fs[..n + 1] == fs[..n] + [fs[n]];
      if AccumulateTx(l, b, fs[n], height).Ok? { BatchStep(l, b, fs[n], height); }
  }

  lemma {:induction false} WalkPrefix(l: Ledger, header: Header, body: Body, fs: seq<FilledTransaction>, b0: Batch, n: nat, height: nat)
    requires n <= |body.transactions| == |fs| && BatchOf(header, body, 0, b0) && Distinct(AllInputs(body.transactions))
    requires forall i :: 0 <= i < |fs| ==> Fill(l.utxos, body.transactions[i]) == Ok(fs[i])
    requires SameUpTo(l, body.transactions, fs, b0, n, height)
    ensures Walk(l, header, body, fs, b0, n, height)
    decreases n
  {
    hide ConnectTx, AccumulateTx, Fill, AllInputs, CreatedBy, CoinbaseCreated, Distinct, SameOutputs;
    if n > 0 {
      WalkPrefix(l, header, body, fs, b0, n - 1, height);
      FillFacts(l.utxos, body.transactions[n - 1]);
      WalkStep(l, header, body, fs, b0, n - 1, height);
    } else {
      assert body.transactions[..0] == [] && fs[..0] == [];
      assert Sequential(l, b0, {}) == Flush(l, b0);
    }
  }

  /** A spent row stays as it is while no transaction spends it again. */
  lemma {:induction false} RowStays(l: Ledger, txs: seq<Transaction>, k: nat, n: nat, height: nat, o: OutPoint)
    requires k <= n <= |txs| && ConnectTxs(l, txs[..n], height).Ok?
    requires forall i :: k <= i < n ==> o !in txs[i].inputs
    ensures ConnectTxs(l, txs[..k], height).Ok?
    ensures var s, s' := ConnectTxs(l, txs[..k], height).value.0.stxos, ConnectTxs(l, txs[..n], height).value.0.stxos;
            o in s ==> o in s' && s'[o] == s[o]
    decreases n
  {
    hide ConnectTx;
    if k < n {
      ConnectTxsStep(l, txs, n - 1, height);
      RowStays(l, txs, k, n - 1, height, o);
      ConnectTxRows(ConnectTxs(l, txs[..n - 1], height).value.0, txs[n - 1], height, o);
    }
  }

  lemma ConnectTxRows(l: Ledger, tx: Transaction, height: nat, o: OutPoint)
    requires ConnectTx(l, tx, height).Ok?
    ensures var l' := ConnectTx(l, tx, height).value.0;
            && (o !in tx.inputs && o in l.stxos ==> o in l'.stxos && l'.stxos[o] == l.stxos[o])
            && (o in tx.inputs ==> o in l.utxos && o in l'.stxos && l'.stxos[o].output == l.utxos[o])
  {
    hide FilledOutputs, ApplyData, Fill, SpentPuts, OutputPuts;
    FillFacts(l.utxos, tx);
    var f := Fill(l.utxos, tx).value;
    SpentPutsFacts(tx.txid, tx.inputs, f.spent, |tx.inputs|);
    assert tx.inputs[..|tx.inputs|] == tx.inputs;
    if o in tx.inputs {
      var i :| 0 <= i < |tx.inputs| && tx.inputs[i] == o;
    }
  }

  /** Where the outputs first differ, the spent rows do too. */
  lemma OtherRow(l: Ledger, header: Header, body: Body, fs: seq<FilledTransaction>, b0: Batch, n: nat, height: nat)
    requires n < |body.transactions| == |fs| && Distinct(AllInputs(body.transactions)) && b0.stxoPuts == map[]
    requires Walk(l, header, body, fs, b0, n, height) && Accumulate(l, b0, fs, height).Ok?
    requires Accumulate(l, b0, fs[..n], height).Ok? && BatchOf(header, body, 0, b0)
    requires forall i :: 0 <= i < |fs| ==> Fill(l.utxos, body.transactions[i]) == Ok(fs[i])
    requires !SameOutputs(l, Collected(l, fs, b0, n, height), body.transactions[n])
    ensures var r := ConnectTxs(Flush(l, b0), body.transactions, height);
            r.Ok? ==> r.value.0.stxos != l.stxos + Accumulate(l, b0, fs, height).value.stxoPuts
  {
    hide ConnectTx, Accumulate, ConnectTxs, Fill, AllInputs, Distinct, Flush;
    var txs, l0 := body.transactions, Flush(l, b0);
    var b := Collected(l, fs, b0, n, height);
    FillFacts(l.utxos, txs[n]);
    var o :| o in txs[n].inputs && o in b.utxoPuts && !(o in l.utxos && b.utxoPuts[o] == l.utxos[o]);
    assert o in Elements(txs[n].inputs);
    InputsDistinct(txs, n);
    assert txs[..|txs|] == txs && fs[..|fs|] == fs;
    BatchKeys(l, header, body, fs, b0, |txs|, height);
    AllInputsMember(txs, o);
    BatchSpentOutputs(l, b0, fs, height);
    if ConnectTxs(l0, txs, height).Ok? {
      forall i | n + 1 <= i < |txs| ensures o !in txs[i].inputs { SpentOnce(txs, n, i, o); }
      RowStays(l0, txs, n + 1, |txs|, height, o);
      ConnectTxsStep(l0, txs, n, height);
      ConnectTxRows(ConnectTxs(l0, txs[..n], height).value.0, txs[n], height, o);
      assert ConnectTxs(l0, txs, height).value.0.stxos[o].output == b.utxoPuts[o];
    }
  }

  // ----- the theorem -----

  ghost function StartBatch(l: Ledger, header: Header, outs: seq<FilledOutput>): Batch {
    Batch({}, map[], CoinbasePuts(header, outs), l.tables)
  }

  ghost predicate CreatedFrom(txs: seq<Transaction>, n: nat, o: OutPoint) {
    exists j :: n <= j < |txs| && o in CreatedBy(txs[j])
  }

  /** Transaction `j` is the last before transaction `n` to create the outpoint. */
  ghost predicate LastCreator(txs: seq<Transaction>, n: nat, o: OutPoint, j: nat)
    requires n <= |txs|
  {
    j < n && o in CreatedBy(txs[j]) && forall i :: j < i < n ==> o !in CreatedBy(txs[i])
  }

  /** The output that the transaction makes there. */
  ghost predicate Makes(f: FilledTransaction, o: OutPoint, out: FilledOutput) {
    o.Regular? && FilledOutputs(f).Some? && o.vout < |FilledOutputs(f).value| && FilledOutputs(f).value[o.vout] == out
  }

  ghost predicate MadeLast(txs: seq<Transaction>, fs: seq<FilledTransaction>, n: nat, o: OutPoint, out: FilledOutput)
    requires n <= |txs| == |fs|
  {
    forall j: nat :: j < n && LastCreator(txs, n, o, j) ==> Makes(fs[j], o, out)
  }

  /** Transaction `n` spends an output that the block created before it. */
  ghost predicate SpendsCreated(header: Header, body: Body, n: nat, o: OutPoint) {
    n < |body.transactions| && o in body.transactions[n].inputs && o in CreatedUpTo(header, body, n)
  }

  /** Every input that the block created before its spender was unspent before the
    * block, is made as the same output, and is created again by its spender or
    * after it. */
  ghost predicate SpendsRepeated(l: Ledger, header: Header, body: Body, fs: seq<FilledTransaction>)
    requires |fs| == |body.transactions|
  {
    var txs := body.transactions;
    forall n: nat, o :: SpendsCreated(header, body, n, o) ==>
      CreatedFrom(txs, n, o) && o in l.utxos && MadeLast(txs, fs, n, o, l.utxos[o])
  }

  /** The same, of what the batch has collected when the spender is reached. */
  ghost predicate CollectsRepeated(l: Ledger, header: Header, body: Body, fs: seq<FilledTransaction>, b0: Batch, height: nat)
    requires |fs| == |body.transactions|
  {
    var txs := body.transactions;
    forall n: nat, o :: SpendsCreated(header, body, n, o) ==>
      && (Accumulate(l, b0, fs[..n], height).Ok? ==>
            var b := Collected(l, fs, b0, n, height);
            o in b.utxoPuts && o in l.utxos && b.utxoPuts[o] == l.utxos[o])
      && CreatedFrom(txs, n, o)
  }

  /** The batch holds what the last creator makes. */
  lemma {:induction false} LastMakes(l: Ledger, txs: seq<Transaction>, fs: seq<FilledTransaction>, b0: Batch, n: nat, height: nat,
                                     o: OutPoint, j: nat)
    requires n <= |txs| == |fs| && (forall i :: 0 <= i < |fs| ==> fs[i].tx == txs[i]) && LastCreator(txs, n, o, j)
    requires Accumulate(l, b0, fs[..n], height).Ok?
    ensures var b := Collected(l, fs, b0, n, height); o in b.utxoPuts && Makes(fs[j], o, b.utxoPuts[o])
  {
    hide Accumulate, CreatedBy, FilledOutputs, Fill, ApplyData;
    AccumulateStep(l, b0, fs, n - 1, height);
    var b := Collected(l, fs, b0, n - 1, height);
    MakesPuts(l, b, fs[n - 1], height, o);
    if j < n - 1 { LastMakes(l, txs, fs, b0, n - 1, height, o, j); }
  }

  lemma MakesPuts(l: Ledger, b: Batch, f: FilledTransaction, height: nat, o: OutPoint)
    requires AccumulateTx(l, b, f, height).Ok?
    ensures var b' := AccumulateTx(l, b, f, height).value;
            if o in CreatedBy(f.tx) then o in b'.utxoPuts && Makes(f, o, b'.utxoPuts[o])
            else (o in b'.utxoPuts <==> o in b.utxoPuts) && (o in b.utxoPuts ==> b'.utxoPuts[o] == b.utxoPuts[o])
  {
    hide Fill, ApplyData, FilledOutputs;
    FilledOutputsFacts(f);
  }

  lemma {:induction false} HasLastCreator(txs: seq<Transaction>, n: nat, o: OutPoint, i: nat) returns (j: nat)
    requires i < n <= |txs| && o in CreatedBy(txs[i])
    ensures LastCreator(txs, n, o, j)
    decreases n
  {
    hide CreatedBy;
    if o in CreatedBy(txs[n - 1]) { j := n - 1; } else { j := HasLastCreator(txs, n - 1, o, i); }
  }

  /** For one input that the block created. */
  lemma RepeatedOne(l: Ledger, header: Header, body: Body, fs: seq<FilledTransaction>, b0: Batch, n: nat, height: nat, o: OutPoint)
    requires n < |body.transactions| == |fs| && Accumulate(l, b0, fs, height).Ok?
    requires forall i :: 0 <= i < |fs| ==> Fill(l.utxos, body.transactions[i]) == Ok(fs[i])
    requires o in body.transactions[n].inputs && o in CreatedUpTo(header, body, n)
    ensures o in l.utxos && Accumulate(l, b0, fs[..n], height).Ok?
    ensures CreatedFrom(body.transactions, n, o) ==>
              (MadeLast(body.transactions, fs, n, o, l.utxos[o]) <==>
               var b := Collected(l, fs, b0, n, height); o in b.utxoPuts && b.utxoPuts[o] == l.utxos[o])
  {
    hide Accumulate, CreatedUpTo, Fill;
    var txs := body.transactions;
    forall i | 0 <= i < |fs| ensures fs[i].tx == txs[i] { FillFacts(l.utxos, txs[i]); }
    FillFacts(l.utxos, txs[n]);
    assert o in Elements(txs[n].inputs);
    assert fs[..|fs|] == fs;
    AccumulatePrefixOk(l, b0, fs, n, |fs|, height);
    if CreatedFrom(txs, n, o) {
      CreatedMember(header, body, n, o);
      var i :| 0 <= i < n && o in CreatedBy(txs[i]);
      var last := HasLastCreator(txs, n, o, i);
      assert last < n && LastCreator(txs, n, o, last);
      forall j: nat | j < n && LastCreator(txs, n, o, j)
        ensures var b := Collected(l, fs, b0, n, height); o in b.utxoPuts && Makes(fs[j], o, b.utxoPuts[o])
      {
        LastMakes(l, txs, fs, b0, n, height, o, j);
      }
    }
  }

  /** What the batch collects is determined by what the transactions make. */
  lemma RepeatedIff(l: Ledger, header: Header, body: Body, fs: seq<FilledTransaction>, b0: Batch, height: nat)
    requires |body.transactions| == |fs| && Accumulate(l, b0, fs, height).Ok?
    requires forall i :: 0 <= i < |fs| ==> Fill(l.utxos, body.transactions[i]) == Ok(fs[i])
    ensures SpendsRepeated(l, header, body, fs) <==> CollectsRepeated(l, header, body, fs, b0, height)
  {
    hide Accumulate, CreatedUpTo, MadeLast, CreatedFrom, Fill, Collected;
    var txs := body.transactions;
    if SpendsRepeated(l, header, body, fs) {
      forall n: nat, o | SpendsCreated(header, body, n, o)
        ensures Accumulate(l, b0, fs[..n], height).Ok? ==>
                  var b := Collected(l, fs, b0, n, height); o in b.utxoPuts && o in l.utxos && b.utxoPuts[o] == l.utxos[o]
        ensures CreatedFrom(txs, n, o)
      {
        RepeatedOne(l, header, body, fs, b0, n, height, o);
      }
    }
    if CollectsRepeated(l, header, body, fs, b0, height) {
      forall n: nat, o | SpendsCreated(header, body, n, o)
        ensures CreatedFrom(txs, n, o) && o in l.utxos && MadeLast(txs, fs, n, o, l.utxos[o])
      {
        RepeatedOne(l, header, body, fs, b0, n, height, o);
      }
    }
  }

  lemma NoneRevived(header: Header, body: Body)
    ensures Revived(header, body, |body.transactions|) == {} <==>
            forall n: nat, o :: SpendsCreated(header, body, n, o) ==> CreatedFrom(body.transactions, n, o)
  {
    hide CreatedUpTo, CreatedBy, Revived;
    var m := |body.transactions|;
    forall o ensures o in Revived(header, body, m) <==>
        exists s :: 0 <= s < m && o in body.transactions[s].inputs && o in CreatedUpTo(header, body, s) &&
                    forall j :: s <= j < m ==> o !in CreatedBy(body.transactions[j])
    {
      RevivedMember(header, body, m, o);
    }
    if o :| o in Revived(header, body, m) {
      var s :| 0 <= s < m && o in body.transactions[s].inputs && o in CreatedUpTo(header, body, s) &&
               forall j :: s <= j < m ==> o !in CreatedBy(body.transactions[j]);
      assert SpendsCreated(header, body, s, o);
    }
    if n, o :| 0 <= n < m && o in body.transactions[n].inputs && o in CreatedUpTo(header, body, n) &&
               forall j :: n <= j < m ==> o !in CreatedBy(body.transactions[j]) {
      assert o in Revived(header, body, m);
    }
  }

  lemma FlushKeepsRevived(l: Ledger, b: Batch, revived: set<OutPoint>)
    requires revived <= b.utxoPuts.Keys
    ensures Sequential(l, b, revived) == Flush(l, b) <==> revived == {}
  {
    if o :| o in revived {
      assert o in Flush(l, b).utxos && o !in Sequential(l, b, revived).utxos;
    } else {
      assert revived == {};
    }
  }

  /** On the transactions of a block that the batch connects. */
  lemma WalksAgreeIff(l: Ledger, header: Header, body: Body, fs: seq<FilledTransaction>, b0: Batch, height: nat)
    requires |body.transactions| == |fs| && BatchOf(header, body, 0, b0) && b0.stxoPuts == map[]
    requires Distinct(AllInputs(body.transactions)) && Accumulate(l, b0, fs, height).Ok?
    requires forall i :: 0 <= i < |fs| ==> Fill(l.utxos, body.transactions[i]) == Ok(fs[i])
    ensures var r := ConnectTxs(Flush(l, b0), body.transactions, height);
            (r.Ok? && r.value.0 == Flush(l, Accumulate(l, b0, fs, height).value) <==>
             CollectsRepeated(l, header, body, fs, b0, height)) &&
            (CollectsRepeated(l, header, body, fs, b0, height) ==> r.value.1 == fs)
  {
    hide Accumulate, ConnectTxs, Fill, AllInputs, Distinct, Flush, Sequential, CreatedUpTo, CreatedBy, Revived, SameOutputs, CollectsRepeated;
    var txs, m := body.transactions, |fs|;
    assert txs[..m] == txs && fs[..m] == fs;
    SameIff(l, header, body, fs, b0, height);
    if SameUpTo(l, txs, fs, b0, m, height) {
      WalkPrefix(l, header, body, fs, b0, m, height);
      FlushKeepsRevived(l, Accumulate(l, b0, fs, height).value, Revived(header, body, m));
    } else {
      var n := FirstOther(l, txs, fs, b0, m, height);
      WalkPrefix(l, header, body, fs, b0, n, height);
      OtherRow(l, header, body, fs, b0, n, height);
      FlushRows(l, Accumulate(l, b0, fs, height).value);
    }
  }

  lemma FlushRows(l: Ledger, b: Batch)
    ensures Flush(l, b).stxos == l.stxos + b.stxoPuts
  {
  }

  /** The condition, in its two parts. */
  lemma SameIff(l: Ledger, header: Header, body: Body, fs: seq<FilledTransaction>, b0: Batch, height: nat)
    requires |body.transactions| == |fs| && BatchOf(header, body, 0, b0)
    requires forall i :: 0 <= i < |fs| ==> Fill(l.utxos, body.transactions[i]) == Ok(fs[i])
    ensures CollectsRepeated(l, header, body, fs, b0, height) <==>
            SameUpTo(l, body.transactions, fs, b0, |fs|, height) && Revived(header, body, |fs|) == {}
  {
    hide Accumulate, Fill, AllInputs, CreatedUpTo, CreatedFrom, Revived;
    NoneRevived(header, body);
    forall n | 0 <= n < |fs| && Accumulate(l, b0, fs[..n], height).Ok?
      ensures Collected(l, fs, b0, n, height).utxoPuts.Keys == CreatedUpTo(header, body, n)
    {
      BatchKeys(l, header, body, fs, b0, n, height);
    }
    var txs, m := body.transactions, |fs|;
    if CollectsRepeated(l, header, body, fs, b0, height) {
      forall i | 0 <= i < m && Accumulate(l, b0, fs[..i], height).Ok?
        ensures SameOutputs(l, Collected(l, fs, b0, i, height), txs[i])
      {
        forall o | o in txs[i].inputs && o in Collected(l, fs, b0, i, height).utxoPuts
          ensures o in l.utxos && Collected(l, fs, b0, i, height).utxoPuts[o] == l.utxos[o]
        {
          assert SpendsCreated(header, body, i, o);
        }
      }
    }
    if SameUpTo(l, txs, fs, b0, m, height) && Revived(header, body, m) == {} {
      forall n: nat, o | SpendsCreated(header, body, n, o) && Accumulate(l, b0, fs[..n], height).Ok?
        ensures var b := Collected(l, fs, b0, n, height); o in b.utxoPuts && o in l.utxos && b.utxoPuts[o] == l.utxos[o]
      {
        assert SameOutputs(l, Collected(l, fs, b0, n, height), txs[n]);
      }
    }
  }

  lemma FirstOther(l: Ledger, txs: seq<Transaction>, fs: seq<FilledTransaction>, b0: Batch, m: nat, height: nat) returns (n: nat)
    requires m <= |txs| == |fs| && !SameUpTo(l, txs, fs, b0, m, height)
    ensures n < m && SameUpTo(l, txs, fs, b0, n, height) && Accumulate(l, b0, fs[..n], height).Ok?
    ensures !SameOutputs(l, Collected(l, fs, b0, n, height), txs[n])
    decreases m
  {
    hide Accumulate, SameOutputs;
    n := m - 1;
    if !SameUpTo(l, txs, fs, b0, m - 1, height) { n := FirstOther(l, txs, fs, b0, m - 1, height); }
  }

  /** For every accepted block the batched connection is the sequential one if and
    * only if each output that the block creates and then spends was unspent before,
    * is made the same, and is created again by its spender or after it. */
  lemma BatchedEqualsSequentialIff(cr: Crypto, st: State, header: Header, body: Body)
    requires Prevalidate(cr, st, header, body).Ok?
    requires ConnectPrevalidated(st, header, body, Prevalidate(cr, st, header, body).value).Ok?
    ensures var pre := Prevalidate(cr, st, header, body).value;
            |pre.filled| == |body.transactions| &&
            (ConnectPrevalidated(st, header, body, pre) == Connect(cr, st, header, body) <==>
             SpendsRepeated(st.ledger, header, body, pre.filled))
  {
    hide Prevalidate, ValidateAll, Accumulate, ConnectTxs, Fill, AllInputs, Distinct, SpendsRepeated, CollectsRepeated;
    PrevalidateFacts(cr, st, header, body);
    var pre := Prevalidate(cr, st, header, body).value;
    var outs := CoinbaseOutputs(body.coinbase).value;
    CoinbaseStartBatch(st.ledger, header, body, outs);
    var b0 := StartBatch(st.ledger, header, outs);
    assert Flush(st.ledger, b0) == st.ledger.(utxos := st.ledger.utxos + CoinbasePuts(header, outs));
    WalksAgreeIff(st.ledger, header, body, pre.filled, b0, pre.nextHeight);
    RepeatedIff(st.ledger, header, body, pre.filled, b0, pre.nextHeight);
  }

  /** For every validated block, connected or not, where unspent reservations agree
    * with their table and unspent names are registered: the two connections give the
    * same result if and only if the coinbase is refused by both or each spent output
    * of the block is repeated. */
  lemma ValidatedAgreeIff(cr: Crypto, st: State, header: Header, body: Body)
    requires ReservationsAgree(st.ledger) && NamesListed(st.ledger) && Prevalidate(cr, st, header, body).Ok?
    ensures var pre := Prevalidate(cr, st, header, body).value;
            |pre.filled| == |body.transactions| &&
            (ConnectPrevalidated(st, header, body, pre) == Connect(cr, st, header, body) <==>
             CoinbaseOutputs(body.coinbase).Err? || SpendsRepeated(st.ledger, header, body, pre.filled))
  {
    hide Prevalidate, ReservationsAgree, NamesListed, SpendsRepeated, CoinbaseOutputs, Accumulate, ConnectTxs, AllInputs, ValidateAll, Fill;
    PrevalidateFacts(cr, st, header, body);
    ValidBlockConnects(cr, st, header, body);
    if CoinbaseOutputs(body.coinbase).Ok? { BatchedEqualsSequentialIff(cr, st, header, body); }
  }
}
