/** Accepted blocks never create value. */
module Conservation {
  import opened Wrappers
  import opened Types
  import opened Filling
  import opened BitNames
  import opened Blocks
  import opened BatchedConnect
  import opened DisconnectUndo

  function ValueOf(o: FilledOutput): nat { FilledValue(o.content) }

  /** Satoshis held by all unspent outputs. */
  ghost function Total(u: Utxos): nat
    decreases |u|
  {
    if u == map[] then 0
    else
      assert u.Keys != {};
      var o :| o in u.Keys;
      assert |u - {o}| < |u| by { SmallerMap(u, o); }
      ValueOf(u[o]) + Total(u - {o})
  }

  lemma SmallerMap(u: Utxos, o: OutPoint)
    requires o in u
    ensures |u - {o}| == |u| - 1
  {
    assert (u - {o}).Keys == u.Keys - {o};
    assert |u| == |u.Keys| && |u - {o}| == |(u - {o}).Keys|;
  }

  lemma {:induction false} TotalRemove(u: Utxos, o: OutPoint)
    requires o in u
    ensures Total(u) == ValueOf(u[o]) + Total(u - {o})
    decreases |u|
  {
    var p :| p in u.Keys && Total(u) == ValueOf(u[p]) + Total(u - {p});
    if p != o {
      SmallerMap(u, p);
      TotalRemove(u - {p}, o);
      SmallerMap(u, o);
      TotalRemove(u - {o}, p);
      assert u - {p} - {o} == u - {o} - {p};
    }
  }

  lemma TotalEmpty()
    ensures Total(map[]) == 0
  {
  }

  lemma TotalPut(u: Utxos, o: OutPoint, x: FilledOutput)
    ensures Total(u[o := x]) <= Total(u) + ValueOf(x)
    ensures o !in u ==> Total(u[o := x]) == Total(u) + ValueOf(x)
  {
    TotalRemove(u[o := x], o);
    if o in u {
      TotalRemove(u, o);
      assert u[o := x] - {o} == u - {o};
    } else {
      assert u[o := x] - {o} == u;
    }
  }

  lemma {:induction false} TotalUnion(u: Utxos, q: Utxos)
    ensures Total(u + q) <= Total(u) + Total(q)
    ensures u.Keys !! q.Keys ==> Total(u + q) == Total(u) + Total(q)
    decreases |q|
  {
    hide Total, ValueOf;
    if q == map[] {
      assert u + q == u;
      TotalEmpty();
    } else {
      assert q.Keys != {};
      var o :| o in q.Keys;
      SmallerMap(q, o);
      var q' := q - {o};
      TotalUnion(u, q');
      TotalRemove(q, o);
      assert u + q == (u + q')[o := q[o]];
      TotalPut(u + q', o, q[o]);
    }
  }

  lemma {:induction false} TotalInputs(u: Utxos, inputs: seq<OutPoint>, spent: seq<FilledOutput>)
    requires |inputs| == |spent| && Distinct(inputs)
    requires forall i :: 0 <= i < |inputs| ==> inputs[i] in u && u[inputs[i]] == spent[i]
    ensures Total(u) == Total(u - Elements(inputs)) + Sum(SpentValues(spent))
  {
    if inputs == [] {
      assert u - Elements(inputs) == u;
    } else {
      var n := |inputs| - 1;
      var a := inputs[..n];
      TotalInputs(u, a, spent[..n]);
      var rest := u - Elements(a);
      assert inputs[n] in rest;
      TotalRemove(rest, inputs[n]);
      assert inputs == a + [inputs[n]];
      assert rest - {inputs[n]} == u - Elements(inputs);
      assert SpentValues(spent)[..n] == SpentValues(spent[..n]);
    }
  }

  /** A map whose entries are a sequence of outputs at distinct outpoints. */
  lemma {:induction false} TotalOutputs(txid: Txid, outs: seq<FilledOutput>)
    ensures Total(OutputPuts(txid, outs)) == Sum(SpentValues(outs))
  {
    if outs == [] {
      assert OutputPuts(txid, outs) == map[];
    } else {
      var n := |outs| - 1;
      TotalOutputs(txid, outs[..n]);
      assert OutputPuts(txid, outs) == OutputPuts(txid, outs[..n])[Regular(txid, n) := outs[n]];
      TotalPut(OutputPuts(txid, outs[..n]), Regular(txid, n), outs[n]);
      assert SpentValues(outs)[..n] == SpentValues(outs[..n]);
    }
  }

  lemma {:induction false} TotalCoinbase(header: Header, outs: seq<FilledOutput>)
    ensures Total(CoinbasePuts(header, outs)) == Sum(SpentValues(outs))
  {
    if outs == [] {
      assert CoinbasePuts(header, outs) == map[];
    } else {
      var n := |outs| - 1;
      TotalCoinbase(header, outs[..n]);
      assert CoinbasePuts(header, outs) == CoinbasePuts(header, outs[..n])[Coinbase(header.coinbaseTxid, n) := outs[n]];
      TotalPut(CoinbasePuts(header, outs[..n]), Coinbase(header.coinbaseTxid, n), outs[n]);
      assert SpentValues(outs)[..n] == SpentValues(outs[..n]);
    }
  }

  // ----- a whole block -----

  /** What the first `n` transactions moved: `fees` is what they gave up. */
  ghost predicate Moved(l: Ledger, header: Header, body: Body, b: Batch, n: nat, coinbase: nat, fees: nat)
    requires n <= |body.transactions|
  {
    && b.deletes == Elements(AllInputs(body.transactions[..n]))
    && b.utxoPuts.Keys == CreatedUpTo(header, body, n)
    && Total(l.utxos - b.deletes) + Total(b.utxoPuts) + fees <= Total(l.utxos) + coinbase
    && (CreatedOnce(header, body) ==>
          Total(l.utxos - b.deletes) + Total(b.utxoPuts) + fees == Total(l.utxos) + coinbase)
  }

  lemma MovedStep(l: Ledger, header: Header, body: Body, b: Batch, n: nat, coinbase: nat, fees: nat,
                  f: FilledTransaction, height: nat)
    requires n < |body.transactions| && Moved(l, header, body, b, n, coinbase, fees)
    requires Distinct(AllInputs(body.transactions))
    requires f.tx == body.transactions[n] && Fill(l.utxos, f.tx) == Ok(f)
    requires AccumulateTx(l, b, f, height).Ok? && Fee(f).Ok?
    ensures Moved(l, header, body, AccumulateTx(l, b, f, height).value, n + 1, coinbase, fees + Fee(f).value)
  {
    hide ApplyData, FilledOutputs, Fill, SpentPuts, Distinct, AllInputs, OutputNames, OutputClaims, Claims, Names;
    hide Sum, SpentValues, OutputValues, FilledValue, Value, Total;
    var outs := FilledOutputs(f).value;
    var b' := AccumulateTx(l, b, f, height).value;
    InputsDistinct(body.transactions, n);
    FillFacts(l.utxos, f.tx);
    FilledOutputsFacts(f);
    var p := OutputPuts(f.tx.txid, outs);
    assert p.Keys == CreatedBy(f.tx);
    TotalUnion(b.utxoPuts, p);
    TotalOutputs(f.tx.txid, outs);
    SameValues(f.tx.outputs, outs);
    var rest := l.utxos - b.deletes;
    TotalInputs(rest, f.tx.inputs, f.spent);
    assert rest - Elements(f.tx.inputs) == l.utxos - b'.deletes;
  }

  lemma SameValues(outputs: seq<Output>, outs: seq<FilledOutput>)
    requires |outs| == |outputs|
    requires forall i :: 0 <= i < |outs| ==> FilledValue(outs[i].content) == Value(outputs[i].content)
    ensures SpentValues(outs) == OutputValues(outputs)
  {
  }

  lemma ValidateStep(records: map<NameHash, Record>, fs: seq<FilledTransaction>)
    requires fs != [] && ValidateAll(records, fs).Ok?
    ensures ValidateAll(records, fs[..|fs| - 1]).Ok? && Fee(fs[|fs| - 1]).Ok?
    ensures ValidateAll(records, fs).value == ValidateAll(records, fs[..|fs| - 1]).value + Fee(fs[|fs| - 1]).value
  {
    hide CheckNames, ReservationsBalance;
  }

  lemma {:induction false} MovedAll(l: Ledger, header: Header, body: Body, b0: Batch, fs: seq<FilledTransaction>,
                                    n: nat, coinbase: nat, height: nat)
    requires n <= |fs| == |body.transactions| && Moved(l, header, body, b0, 0, coinbase, 0)
    requires Distinct(AllInputs(body.transactions))
    requires forall i :: 0 <= i < |fs| ==> fs[i].tx == body.transactions[i] && Fill(l.utxos, fs[i].tx) == Ok(fs[i])
    requires Accumulate(l, b0, fs[..n], height).Ok? && ValidateAll(l.tables.records, fs[..n]).Ok?
    ensures Moved(l, header, body, Accumulate(l, b0, fs[..n], height).value, n, coinbase,
                  ValidateAll(l.tables.records, fs[..n]).value)
  {
    hide Moved, AccumulateTx, Fill, Fee, ValidateFilled, Distinct, AllInputs;
    if n == 0 {
      assert fs[..0] == [];
    } else {
      assert fs[..n][..n - 1] == fs[..n - 1];
      ValidateStep(l.tables.records, fs[..n]);
      AccumulateStep(l, b0, fs, n - 1, height);
      MovedAll(l, header, body, b0, fs, n - 1, coinbase, height);
      MovedStep(l, header, body, Accumulate(l, b0, fs[..n - 1], height).value, n - 1, coinbase,
                ValidateAll(l.tables.records, fs[..n - 1]).value, fs[n - 1], height);
    }
  }

  /** The total value of the utxo set never grows; when the block creates only
    * new outpoints it drops by exactly the fees that the coinbase left unclaimed. */
  lemma ApplyConservesValue(cr: Crypto, st: State, header: Header, body: Body)
    requires ApplyBlock(cr, st, header, body).Ok?
    ensures var pre := Prevalidate(cr, st, header, body).value;
            var u, u' := st.ledger.utxos, ApplyBlock(cr, st, header, body).value.ledger.utxos;
            && Total(u') + pre.totalFees <= Total(u) + pre.coinbaseValue
            && Total(u') <= Total(u)
            && (CreatedOnce(header, body) && CreatedUpTo(header, body, |body.transactions|) !! u.Keys ==>
                  Total(u') == Total(u) - (pre.totalFees - pre.coinbaseValue))
  {
    hide Prevalidate, ConnectPrevalidated, ValidateAll, Total, Fill, Distinct, AllInputs;
    PrevalidateFacts(cr, st, header, body);
    ConnectConservesValue(st, header, body, Prevalidate(cr, st, header, body).value);
  }

  lemma ConnectConservesValue(st: State, header: Header, body: Body, pre: Prevalidated)
    requires |pre.filled| == |body.transactions| && Distinct(AllInputs(body.transactions))
    requires forall i :: 0 <= i < |pre.filled| ==> Fill(st.ledger.utxos, body.transactions[i]) == Ok(pre.filled[i])
    requires ValidateAll(st.ledger.tables.records, pre.filled) == Ok(pre.totalFees)
    requires pre.coinbaseValue == Sum(OutputValues(body.coinbase)) <= pre.totalFees
    requires ConnectPrevalidated(st, header, body, pre).Ok?
    ensures var u, u' := st.ledger.utxos, ConnectPrevalidated(st, header, body, pre).value.ledger.utxos;
            && Total(u') + pre.totalFees <= Total(u) + pre.coinbaseValue
            && (CreatedOnce(header, body) && CreatedUpTo(header, body, |body.transactions|) !! u.Keys ==>
                  Total(u') + pre.totalFees == Total(u) + pre.coinbaseValue)
  {
    hide Accumulate, ValidateAll, Total, Fill, Distinct, AllInputs, Sum, SpentValues, OutputValues, CreatedOnce, CreatedUpTo;
    var l, txs, fs := st.ledger, body.transactions, pre.filled;
    var outs := CoinbaseOutputs(body.coinbase).value;
    var b0 := Batch({}, map[], CoinbasePuts(header, outs), l.tables);
    CoinbaseStartBatch(l, header, body, outs);
    TotalCoinbase(header, outs);
    CoinbaseOutputsFacts(body.coinbase);
    SameValues(body.coinbase, outs);
    assert l.utxos - {} == l.utxos;
    assert fs[..|fs|] == fs;
    forall i | 0 <= i < |fs| ensures fs[i].tx == txs[i] { FillFacts(l.utxos, txs[i]); }
    MovedAll(l, header, body, b0, fs, |fs|, pre.coinbaseValue, pre.nextHeight);
    var b := Accumulate(l, b0, fs, pre.nextHeight).value;
    TotalUnion(l.utxos - b.deletes, b.utxoPuts);
  }
}
