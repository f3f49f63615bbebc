/** The sidechain state as it is updated in place: validation, connection and
  * disconnection of blocks, step by step. */
module StateDb {
  import opened Wrappers
  import opened Types
  import opened Filling
  import opened BitNames
  import opened Blocks
  import opened BatchedConnect
  import opened BlockRules
  import opened DoubleSpend
  import opened Signatures

  // ----- reading -----

  method FillTransaction(utxos: Utxos, tx: Transaction) returns (r: Result<FilledTransaction, Error>)
    ensures r == Fill(utxos, tx)
  {
    var spent: seq<FilledOutput> := [];
    for i := 0 to |tx.inputs|
      invariant |spent| == i && forall k :: 0 <= k < i ==> tx.inputs[k] in utxos && spent[k] == utxos[tx.inputs[k]]
    {
      if tx.inputs[i] !in utxos { return Err(NoUtxo); }
      spent := spent + [utxos[tx.inputs[i]]];
    }
    assert spent == Fill(utxos, tx).value.spent;
    return Ok(FilledTransaction(tx, spent));
  }

  method FillTransactions(utxos: Utxos, txs: seq<Transaction>) returns (r: Result<seq<FilledTransaction>, Error>)
    ensures r == FillAll(utxos, txs)
  {
    hide Fill;
    var fs: seq<FilledTransaction> := [];
    for i := 0 to |txs|
      invariant FillAll(utxos, txs[..i]) == Ok(fs)
    {
      assert txs[..i + 1][..i] == txs[..i];
      var f := FillTransaction(utxos, txs[i]);
      if f.Err? {
        FillAllStops(utxos, txs, i + 1);
        return Err(f.error);
      }
      fs := fs + [f.value];
    }
    assert txs[..|txs|] == txs;
    return Ok(fs);
  }

  /** An error stays the answer for every longer list. */
  lemma {:induction false} FillAllStops(utxos: Utxos, txs: seq<Transaction>, i: nat)
    requires i <= |txs| && FillAll(utxos, txs[..i]).Err?
    ensures FillAll(utxos, txs) == FillAll(utxos, txs[..i])
    decreases |txs|
  {
    hide Fill;
    if i < |txs| {
      assert txs[..|txs| - 1][..i] == txs[..i];
      FillAllStops(utxos, txs[..|txs| - 1], i);
    } else {
      assert txs[..i] == txs;
    }
  }

  lemma {:induction false} SumPrefix(s: seq<nat>, i: nat)
    requires i <= |s|
    ensures Sum(s[..i]) <= Sum(s)
    decreases |s|
  {
    if i < |s| {
      assert s[..|s| - 1][..i] == s[..i];
      SumPrefix(s[..|s| - 1], i);
    } else {
      assert s[..i] == s;
    }
  }

  /** Adding amounts one by one, each addition checked, overflows exactly when the total does. */
  method CheckedSum(s: seq<nat>) returns (r: Option<nat>)
    ensures r == if Sum(s) > AMOUNT_MAX then None else Some(Sum(s))
  {
    var total := 0;
    for i := 0 to |s|
      invariant total == Sum(s[..i]) <= AMOUNT_MAX
    {
      assert s[..i + 1][..i] == s[..i];
      var next := CheckedAdd(total, s[i]);
      SumPrefix(s, i + 1);
      if next.None? { return None; }
      total := next.value;
    }
    assert s[..|s|] == s;
    return Some(total);
  }

  method GetFee(f: FilledTransaction) returns (r: Result<nat, Error>)
    ensures r == Fee(f)
  {
    hide Sum;
    var spent := CheckedSum(SpentValues(f.spent));
    if spent.None? { return Err(AmountOverflow); }
    var out := CheckedSum(OutputValues(f.tx.outputs));
    if out.None? { return Err(AmountOverflow); }
    if spent.value < out.value { return Err(Underfunded); }
    return Ok(spent.value - out.value);
  }

  method ValidateFilledTransaction(records: map<NameHash, Record>, f: FilledTransaction) returns (r: Result<nat, Error>)
    ensures r == ValidateFilled(records, f)
  {
    hide ReservationsBalance, CheckNames, Fee;
    if !ReservationsBalance(f) { return Err(UnbalancedReservations); }
    var names := CheckNames(records, f);
    if names.Err? { return Err(names.error); }
    for i := 0 to |f.spent|
      invariant forall k :: 0 <= k < i ==> !f.spent[k].content.FilledWithdrawal?
    {
      if f.spent[i].content.FilledWithdrawal? { return Err(SpendsWithdrawal); }
    }
    r := GetFee(f);
  }

  method TotalFees(records: map<NameHash, Record>, fs: seq<FilledTransaction>) returns (r: Result<nat, Error>)
    ensures r == ValidateAll(records, fs)
  {
    hide ValidateFilled;
    var total := 0;
    for i := 0 to |fs|
      invariant ValidateAll(records, fs[..i]) == Ok(total) && total <= AMOUNT_MAX
    {
      assert fs[..i + 1][..i] == fs[..i];
      var fee := ValidateFilledTransaction(records, fs[i]);
      if fee.Err? {
        ValidateAllStops(records, fs, i + 1);
        return Err(fee.error);
      }
      var next := CheckedAdd(total, fee.value);
      if next.None? {
        ValidateAllStops(records, fs, i + 1);
        return Err(AmountOverflow);
      }
      total := next.value;
    }
    assert fs[..|fs|] == fs;
    return Ok(total);
  }

  lemma {:induction false} ValidateAllStops(records: map<NameHash, Record>, fs: seq<FilledTransaction>, i: nat)
    requires i <= |fs| && ValidateAll(records, fs[..i]).Err?
    ensures ValidateAll(records, fs) == ValidateAll(records, fs[..i])
    decreases |fs|
  {
    hide ValidateFilled;
    if i < |fs| {
      assert fs[..|fs| - 1][..i] == fs[..i];
      ValidateAllStops(records, fs[..|fs| - 1], i);
    } else {
      assert fs[..i] == fs;
    }
  }

  /** The spent outputs in block order. */
  method CollectSpent(fs: seq<FilledTransaction>) returns (spent: seq<FilledOutput>)
    ensures spent == AllSpent(fs)
  {
    spent := [];
    for i := 0 to |fs|
      invariant spent == AllSpent(fs[..i])
    {
      assert fs[..i + 1][..i] == fs[..i];
      spent := spent + fs[i].spent;
    }
    assert fs[..|fs|] == fs;
  }

  method CollectInputs(txs: seq<Transaction>) returns (inputs: seq<OutPoint>)
    ensures inputs == AllInputs(txs)
  {
    inputs := [];
    for i := 0 to |txs|
      invariant inputs == AllInputs(txs[..i])
    {
      assert txs[..i + 1][..i] == txs[..i];
      inputs := inputs + txs[i].inputs;
    }
    assert txs[..|txs|] == txs;
  }

  /** Every authorization is by the owner of the output that its input spends. */
  method CheckAddresses(cr: Crypto, auths: seq<Authorization>, spent: seq<FilledOutput>) returns (ok: bool)
    requires |auths| == |spent|
    ensures ok <==> forall k :: 0 <= k < |spent| ==> cr.address(auths[k].verifyingKey) == spent[k].address
  {
    for i := 0 to |spent|
      invariant forall k :: 0 <= k < i ==> cr.address(auths[k].verifyingKey) == spent[k].address
    {
      if cr.address(auths[i].verifyingKey) != spent[i].address { return false; }
    }
    return true;
  }

  // ----- the tail of validation -----

  method PrevalidateAuthorizations(cr: Crypto, body: Body, spent: seq<FilledOutput>) returns (r: Result<(), Error>)
    ensures r == if |body.authorizations| != |spent| then Err(WrongNumberOfAuthorizations)
                 else if exists k :: 0 <= k < |spent| && cr.address(body.authorizations[k].verifyingKey) != spent[k].address
                   then Err(WrongPubKeyForAddress)
                 else if !Authorized(cr, body) then Err(AuthorizationFailed)
                 else Ok(())
  {
    hide Authorized;
    if |body.authorizations| != |spent| { return Err(WrongNumberOfAuthorizations); }
    var owned := CheckAddresses(cr, body.authorizations, spent);
    if !owned { return Err(WrongPubKeyForAddress); }
    var signed := VerifyAuthorizations(cr, body);
    return if signed then Ok(()) else Err(AuthorizationFailed);
  }

  method PrevalidateBlock(cr: Crypto, st: State, header: Header, body: Body) returns (r: Result<Prevalidated, Error>)
    ensures r == Prevalidate(cr, st, header, body)
    ensures r.Ok? <==> ValidBlock(cr, st, header, body)
  {
    hide FillAll, Sum, ValidateAll, AllSpent, AllInputs, Authorized, Distinct, ValidBlock, FilledFrom, FeesOf;
    PrevalidateIff(cr, st, header, body);
    if cr.bodySize(body) > MAX_BODY_SIZE { return Err(BodyTooLarge); }
    if header.prevSide != st.tip { return Err(BadPrevSideHash); }
    var coinbaseValue := CheckedSum(OutputValues(body.coinbase));
    if coinbaseValue.None? { return Err(AmountOverflow); }
    var filled := FillTransactions(st.ledger.utxos, body.transactions);
    if filled.Err? { return Err(filled.error); }
    var inputs := CollectInputs(body.transactions);
    var repeated := HasRepeat(inputs);
    if repeated { return Err(DoubleSpent); }
    var fees := TotalFees(st.ledger.tables.records, filled.value);
    if fees.Err? { return Err(fees.error); }
    if coinbaseValue.value > fees.value { return Err(NotEnoughFees); }
    var root := cr.merkle(body.coinbase, filled.value);
    if root.None? { return Err(MerkleFailed); }
    if root.value != header.merkleRoot { return Err(InvalidBody); }
    var spent := CollectSpent(filled.value);
    var authorized := PrevalidateAuthorizations(cr, body, spent);
    if authorized.Err? { return Err(authorized.error); }
    return Ok(Prevalidated(filled.value, root.value, fees.value, coinbaseValue.value, NextHeight(st)));
  }

  // ----- coinbase -----

  method FillCoinbase(outputs: seq<Output>) returns (r: Result<seq<FilledOutput>, Error>)
    ensures r == CoinbaseOutputs(outputs)
  {
    var outs: seq<FilledOutput> := [];
    for i := 0 to |outputs|
      invariant CoinbaseOutputs(outputs[..i]) == Ok(outs)
    {
      assert outputs[..i + 1][..i] == outputs[..i];
      var o := outputs[i];
      match o.content {
        case Bitcoin(v) => outs := outs + [FilledOutput(o.address, FilledBitcoin(v), o.memo)];
        case Withdrawal(p, f, a) => outs := outs + [FilledOutput(o.address, FilledWithdrawal(p, f, a), o.memo)];
        case _ =>
          CoinbaseStops(outputs, i + 1);
          return Err(BadCoinbaseOutput);
      }
    }
    assert outputs[..|outputs|] == outputs;
    return Ok(outs);
  }

  lemma {:induction false} CoinbaseStops(outputs: seq<Output>, i: nat)
    requires i <= |outputs| && CoinbaseOutputs(outputs[..i]).Err?
    ensures CoinbaseOutputs(outputs) == CoinbaseOutputs(outputs[..i])
    decreases |outputs|
  {
    if i < |outputs| {
      assert outputs[..|outputs| - 1][..i] == outputs[..i];
      CoinbaseStops(outputs[..|outputs| - 1], i);
    } else {
      assert outputs[..i] == outputs;
    }
  }

  /** Writes one row per output of a transaction. */
  method PutOutputs(utxos: Utxos, txid: Txid, outs: seq<FilledOutput>) returns (r: Utxos)
    ensures r == utxos + OutputPuts(txid, outs)
  {
    hide OutputPuts;
    r := utxos;
    OutputPutsNone(txid, outs);
    for i := 0 to |outs|
      invariant r == utxos + OutputPuts(txid, outs[..i])
    {
      OutputPutsStep(txid, outs, i);
      r := r[Regular(txid, i) := outs[i]];
    }
    assert outs[..|outs|] == outs;
  }

  lemma OutputPutsNone(txid: Txid, outs: seq<FilledOutput>)
    ensures OutputPuts(txid, outs[..0]) == map[]
  {
  }

  lemma OutputPutsStep(txid: Txid, outs: seq<FilledOutput>, i: nat)
    requires i < |outs|
    ensures OutputPuts(txid, outs[..i + 1]) == OutputPuts(txid, outs[..i])[Regular(txid, i) := outs[i]]
  {
  }

  lemma CoinbasePutsNone(header: Header, outs: seq<FilledOutput>)
    ensures CoinbasePuts(header, outs[..0]) == map[]
  {
  }

  lemma CoinbasePutsStep(header: Header, outs: seq<FilledOutput>, i: nat)
    requires i < |outs|
    ensures CoinbasePuts(header, outs[..i + 1]) == CoinbasePuts(header, outs[..i])[Coinbase(header.coinbaseTxid, i) := outs[i]]
  {
  }

  method PutCoinbase(utxos: Utxos, header: Header, outs: seq<FilledOutput>) returns (r: Utxos)
    ensures r == utxos + CoinbasePuts(header, outs)
  {
    hide CoinbasePuts;
    r := utxos;
    CoinbasePutsNone(header, outs);
    for i := 0 to |outs|
      invariant r == utxos + CoinbasePuts(header, outs[..i])
    {
      CoinbasePutsStep(header, outs, i);
      r := r[Coinbase(header.coinbaseTxid, i) := outs[i]];
    }
    assert outs[..|outs|] == outs;
  }

  // ----- sequential connection -----

  /** Moves each spent output to the spent rows; fails at an input spent before. */
  method SpendInputs(utxos: Utxos, stxos: Stxos, txid: Txid, inputs: seq<OutPoint>, ghost spent: seq<FilledOutput>)
    returns (r: Result<(Utxos, Stxos), Error>)
    requires |spent| == |inputs| && forall i :: 0 <= i < |inputs| ==> inputs[i] in utxos && utxos[inputs[i]] == spent[i]
    ensures r == if Distinct(inputs) then Ok((utxos - Elements(inputs), stxos + SpentPuts(txid, inputs, spent, |inputs|)))
                 else Err(NoUtxo)
  {
    var us, ss := utxos, stxos;
    for i := 0 to |inputs|
      invariant Distinct(inputs[..i])
      invariant us == utxos - Elements(inputs[..i])
      invariant ss == stxos + SpentPuts(txid, inputs, spent, i)
    {
      assert inputs[..i + 1] == inputs[..i] + [inputs[i]];
      if inputs[i] !in us {
        assert inputs[i] in inputs[..i];
        return Err(NoUtxo);
      }
      ss := ss[inputs[i] := SpentOutput(us[inputs[i]], InPoint(txid, i))];
      us := us - {inputs[i]};
    }
    assert inputs[..|inputs|] == inputs;
    return Ok((us, ss));
  }

  method ConnectTransaction(l: Ledger, tx: Transaction, height: nat) returns (r: Result<(Ledger, FilledTransaction), Error>)
    ensures r == ConnectTx(l, tx, height)
  {
    hide SpentPuts, ApplyData, FilledOutputs, OutputPuts, Distinct;
    var f := FillTransaction(l.utxos, tx);
    if f.Err? { return Err(f.error); }
    FillFacts(l.utxos, tx);
    var rows := SpendInputs(l.utxos, l.stxos, tx.txid, tx.inputs, f.value.spent);
    if rows.Err? { return Err(rows.error); }
    var outs := FilledOutputs(f.value);
    if outs.None? { return Err(FillOutputsFailed); }
    var utxos := PutOutputs(rows.value.0, tx.txid, outs.value);
    var tables := ApplyData(l.tables, f.value, height);
    if tables.Err? { return Err(NameError(tables.error)); }
    return Ok((Ledger(utxos, rows.value.1, tables.value), f.value));
  }

  method ConnectTransactions(l: Ledger, txs: seq<Transaction>, height: nat)
    returns (r: Result<(Ledger, seq<FilledTransaction>), Error>)
    ensures r == ConnectTxs(l, txs, height)
  {
    hide ConnectTx;
    var cur, fs := l, [];
    for i := 0 to |txs|
      invariant ConnectTxs(l, txs[..i], height) == Ok((cur, fs))
    {
      assert txs[..i + 1][..i] == txs[..i];
      var next := ConnectTransaction(cur, txs[i], height);
      if next.Err? {
        ConnectStops(l, txs, i + 1, height);
        return Err(next.error);
      }
      cur, fs := next.value.0, fs + [next.value.1];
    }
    assert txs[..|txs|] == txs;
    return Ok((cur, fs));
  }

  lemma {:induction false} ConnectStops(l: Ledger, txs: seq<Transaction>, i: nat, height: nat)
    requires i <= |txs| && ConnectTxs(l, txs[..i], height).Err?
    ensures ConnectTxs(l, txs, height) == ConnectTxs(l, txs[..i], height)
    decreases |txs|
  {
    hide ConnectTx;
    if i < |txs| {
      assert txs[..|txs| - 1][..i] == txs[..i];
      ConnectStops(l, txs[..|txs| - 1], i, height);
    } else {
      assert txs[..i] == txs;
    }
  }

  // ----- batched connection -----

  /** Collects the deletes and spent rows of one transaction. */
  method CollectInputRows(utxos: Utxos, deletes: set<OutPoint>, puts: Stxos, tx: Transaction)
    returns (r: Result<(set<OutPoint>, Stxos), Error>)
    ensures r == match Fill(utxos, tx)
                 case Err(e) => Err(e)
                 case Ok(g) => Ok((deletes + Elements(tx.inputs), puts + SpentPuts(tx.txid, tx.inputs, g.spent, |tx.inputs|)))
  {
    var ds, ps := deletes, puts;
    ghost var spent := if Fill(utxos, tx).Ok? then Fill(utxos, tx).value.spent else [];
    for i := 0 to |tx.inputs|
      invariant ds == deletes + Elements(tx.inputs[..i])
      invariant forall k :: 0 <= k < i ==> tx.inputs[k] in utxos
      invariant Fill(utxos, tx).Ok? ==> ps == puts + SpentPuts(tx.txid, tx.inputs, spent, i)
    {
      var o := tx.inputs[i];
      assert tx.inputs[..i + 1] == tx.inputs[..i] + [o];
      if o !in utxos { return Err(NoUtxo); }
      ds := ds + {o};
      ps := ps[o := SpentOutput(utxos[o], InPoint(tx.txid, i))];
    }
    assert tx.inputs[..|tx.inputs|] == tx.inputs;
    return Ok((ds, ps));
  }

  method AccumulateTransaction(l: Ledger, b: Batch, f: FilledTransaction, height: nat) returns (r: Result<Batch, Error>)
    ensures r == AccumulateTx(l, b, f, height)
  {
    hide SpentPuts, ApplyData, FilledOutputs, OutputPuts, Fill;
    var rows := CollectInputRows(l.utxos, b.deletes, b.stxoPuts, f.tx);
    if rows.Err? { return Err(rows.error); }
    var outs := FilledOutputs(f);
    if outs.None? { return Err(FillOutputsFailed); }
    var puts := PutOutputs(b.utxoPuts, f.tx.txid, outs.value);
    var tables := ApplyData(b.tables, f, height);
    if tables.Err? { return Err(NameError(tables.error)); }
    return Ok(Batch(rows.value.0, rows.value.1, puts, tables.value));
  }

  method AccumulateTransactions(l: Ledger, start: Batch, fs: seq<FilledTransaction>, height: nat) returns (r: Result<Batch, Error>)
    ensures r == Accumulate(l, start, fs, height)
  {
    hide AccumulateTx;
    var b := start;
    for i := 0 to |fs|
      invariant Accumulate(l, start, fs[..i], height) == Ok(b)
    {
      assert fs[..i + 1][..i] == fs[..i];
      var next := AccumulateTransaction(l, b, fs[i], height);
      if next.Err? {
        AccumulateStops(l, start, fs, i + 1, height);
        return Err(next.error);
      }
      b := next.value;
    }
    assert fs[..|fs|] == fs;
    return Ok(b);
  }

  lemma {:induction false} AccumulateStops(l: Ledger, b: Batch, fs: seq<FilledTransaction>, i: nat, height: nat)
    requires i <= |fs| && Accumulate(l, b, fs[..i], height).Err?
    ensures Accumulate(l, b, fs, height) == Accumulate(l, b, fs[..i], height)
    decreases |fs|
  {
    hide AccumulateTx;
    if i < |fs| {
      assert fs[..|fs| - 1][..i] == fs[..i];
      AccumulateStops(l, b, fs[..|fs| - 1], i, height);
    } else {
      assert fs[..i] == fs;
    }
  }

  // ----- disconnection -----

  /** A result followed by what was found after it. */
  ghost function Before<L, T>(r: Result<(L, seq<T>), Error>, found: seq<T>): Result<(L, seq<T>), Error> {
    match r
    case Err(e) => Err(e)
    case Ok((l, first)) => Ok((l, first + found))
  }

  lemma BeforeNone<L, T>(r: Result<(L, seq<T>), Error>)
    ensures Before(r, []) == r
  {
    if r.Ok? { assert r.value.1 + [] == r.value.1; }
  }

  lemma BeforeOne<L, T>(r: Result<(L, seq<T>), Error>, x: T, found: seq<T>)
    ensures Before(Before(r, [x]), found) == Before(r, [x] + found)
  {
    if r.Ok? { assert r.value.1 + [x] + found == r.value.1 + ([x] + found); }
  }

  ghost function Paired<T>(r: Result<seq<T>, Error>): Result<((), seq<T>), Error> {
    match r case Err(e) => Err(e) case Ok(v) => Ok(((), v))
  }

  /** Reads the spent outputs back, last input first. */
  method FillFromStxos(stxos: Stxos, txid: Txid, inputs: seq<OutPoint>) returns (r: Result<seq<FilledOutput>, Error>)
    ensures r == SpentFrom(stxos, txid, inputs)
  {
    hide Before;
    var spent: seq<FilledOutput> := [];
    var i := |inputs|;
    assert inputs[..i] == inputs;
    BeforeNone(Paired(SpentFrom(stxos, txid, inputs)));
    while i > 0
      invariant 0 <= i <= |inputs|
      invariant Paired(SpentFrom(stxos, txid, inputs)) == Before(Paired(SpentFrom(stxos, txid, inputs[..i])), spent)
    {
      i := i - 1;
      var o := inputs[i];
      assert inputs[..i + 1][..i] == inputs[..i];
      if o !in stxos {
        SpentErr(stxos, txid, inputs[..i + 1], spent);
        return Err(NoStxo);
      }
      if stxos[o].inpoint != InPoint(txid, i) {
        SpentErr(stxos, txid, inputs[..i + 1], spent);
        return Err(AssertionViolated);
      }
      SpentStep(stxos, txid, inputs[..i + 1]);
      BeforeOne(Paired(SpentFrom(stxos, txid, inputs[..i])), stxos[o].output, spent);
      spent := [stxos[o].output] + spent;
    }
    SpentDone(spent);
    return Ok(spent);
  }

  lemma SpentErr(stxos: Stxos, txid: Txid, inputs: seq<OutPoint>, spent: seq<FilledOutput>)
    requires SpentFrom(stxos, txid, inputs).Err?
    ensures Before(Paired(SpentFrom(stxos, txid, inputs)), spent) == Err(SpentFrom(stxos, txid, inputs).error)
  {
  }

  lemma SpentStep(stxos: Stxos, txid: Txid, inputs: seq<OutPoint>)
    requires inputs != []
    requires var o := inputs[|inputs| - 1]; o in stxos && stxos[o].inpoint == InPoint(txid, |inputs| - 1)
    ensures Paired(SpentFrom(stxos, txid, inputs)) ==
            Before(Paired(SpentFrom(stxos, txid, inputs[..|inputs| - 1])), [stxos[inputs[|inputs| - 1]].output])
  {
  }

  lemma SpentDone(spent: seq<FilledOutput>)
    ensures Before(Paired(Ok([])), spent) == Paired(Ok(spent))
  {
    assert [] + spent == spent;
  }

  /** Deletes the outputs of a transaction, last first. */
  method DeleteOutputs(utxos: Utxos, tx: Transaction) returns (r: Result<Utxos, Error>)
    ensures r == if CreatedBy(tx) <= utxos.Keys then Ok(utxos - CreatedBy(tx)) else Err(NoUtxo)
  {
    var us := utxos;
    var i := |tx.outputs|;
    while i > 0
      invariant 0 <= i <= |tx.outputs|
      invariant forall k: nat :: i <= k < |tx.outputs| ==> Regular(tx.txid, k) in utxos
      invariant us == utxos - set k: nat | i <= k < |tx.outputs| :: Regular(tx.txid, k)
    {
      i := i - 1;
      var o := Regular(tx.txid, i);
      if o !in us {
        assert o in CreatedBy(tx);
        return Err(NoUtxo);
      }
      us := us - {o};
    }
    return Ok(us);
  }

  method DeleteCoinbase(utxos: Utxos, header: Header, body: Body) returns (r: Result<Utxos, Error>)
    ensures r == if CoinbaseCreated(header, body) <= utxos.Keys then Ok(utxos - CoinbaseCreated(header, body)) else Err(NoUtxo)
  {
    var us := utxos;
    var i := |body.coinbase|;
    while i > 0
      invariant 0 <= i <= |body.coinbase|
      invariant forall k: nat :: i <= k < |body.coinbase| ==> Coinbase(header.coinbaseTxid, k) in utxos
      invariant us == utxos - set k: nat | i <= k < |body.coinbase| :: Coinbase(header.coinbaseTxid, k)
    {
      i := i - 1;
      var o := Coinbase(header.coinbaseTxid, i);
      if o !in us {
        assert o in CoinbaseCreated(header, body);
        return Err(NoUtxo);
      }
      us := us - {o};
    }
    return Ok(us);
  }

  ghost function Restored(stxos: Stxos, inputs: seq<OutPoint>): Utxos {
    map o | o in Elements(inputs) && o in stxos :: stxos[o].output
  }

  /** Moves spent rows back to the unspent ones, last input first. */
  method Unspend(utxos: Utxos, stxos: Stxos, inputs: seq<OutPoint>) returns (r: Result<(Utxos, Stxos), Error>)
    ensures r == if Distinct(inputs) && Elements(inputs) <= stxos.Keys
                 then Ok((utxos + Restored(stxos, inputs), stxos - Elements(inputs)))
                 else Err(NoStxo)
  {
    hide Distinct, Restored, Elements;
    var us, ss := utxos, stxos;
    var i := |inputs|;
    UnspendNone(utxos, stxos, inputs);
    while i > 0
      invariant 0 <= i <= |inputs|
      invariant Distinct(inputs[i..]) && Elements(inputs[i..]) <= stxos.Keys
      invariant ss == stxos - Elements(inputs[i..])
      invariant us == utxos + Restored(stxos, inputs[i..])
    {
      i := i - 1;
      var o := inputs[i];
      UnspendStep(utxos, stxos, inputs, i);
      if o !in ss { return Err(NoStxo); }
      us := us[o := ss[o].output];
      ss := ss - {o};
    }
    assert inputs[0..] == inputs;
    return Ok((us, ss));
  }

  lemma UnspendNone(utxos: Utxos, stxos: Stxos, inputs: seq<OutPoint>)
    ensures var none := inputs[|inputs|..];
            && Distinct(none) && Elements(none) <= stxos.Keys && stxos - Elements(none) == stxos
            && utxos + Restored(stxos, none) == utxos
  {
    assert inputs[|inputs|..] == [];
  }

  lemma UnspendStep(utxos: Utxos, stxos: Stxos, inputs: seq<OutPoint>, i: nat)
    requires i < |inputs| && Distinct(inputs[i + 1..]) && Elements(inputs[i + 1..]) <= stxos.Keys
    ensures var o, rest := inputs[i], inputs[i + 1..];
            && (o !in stxos - Elements(rest) ==> !(Distinct(inputs) && Elements(inputs) <= stxos.Keys))
            && (o in stxos - Elements(rest) ==>
                  && Distinct(inputs[i..]) && Elements(inputs[i..]) <= stxos.Keys
                  && stxos - Elements(rest) - {o} == stxos - Elements(inputs[i..])
                  && (utxos + Restored(stxos, rest))[o := stxos[o].output] == utxos + Restored(stxos, inputs[i..]))
  {
    hide Restored;
    var o, rest := inputs[i], inputs[i + 1..];
    assert inputs[i..] == [o] + rest;
    if o !in stxos - Elements(rest) {
      UnspendFails(stxos, inputs, i);
    } else {
      RestoredMore(utxos, stxos, o, rest);
    }
  }

  lemma RestoredMore(utxos: Utxos, stxos: Stxos, o: OutPoint, rest: seq<OutPoint>)
    requires o in stxos
    ensures (utxos + Restored(stxos, rest))[o := stxos[o].output] == utxos + Restored(stxos, [o] + rest)
    ensures stxos - Elements(rest) - {o} == stxos - Elements([o] + rest)
  {
    assert Elements([o] + rest) == {o} + Elements(rest);
  }

  lemma UnspendFails(stxos: Stxos, inputs: seq<OutPoint>, i: nat)
    requires i < |inputs| && inputs[i] !in stxos - Elements(inputs[i + 1..])
    ensures !(Distinct(inputs) && Elements(inputs) <= stxos.Keys)
  {
    var o, rest := inputs[i], inputs[i + 1..];
    assert o in Elements(inputs);
    if o in rest {
      var k :| 0 <= k < |rest| && rest[k] == o;
      assert inputs[i + 1 + k] == o;
    }
  }

  method UndoTransaction(l: Ledger, tx: Transaction, height: nat) returns (r: Result<(Ledger, FilledTransaction), Error>)
    ensures r == UndoTx(l, tx, height)
  {
    hide SpentFrom, RevertData, Distinct, Elements, CreatedBy;
    RestoredIs(l.stxos, tx.inputs);
    var spent := FillFromStxos(l.stxos, tx.txid, tx.inputs);
    if spent.Err? { return Err(spent.error); }
    var f := FilledTransaction(tx, spent.value);
    var tables := RevertData(l.tables, f, height);
    if tables.Err? { return Err(NameError(tables.error)); }
    var utxos := DeleteOutputs(l.utxos, tx);
    if utxos.Err? { return Err(utxos.error); }
    var rows := Unspend(utxos.value, l.stxos, tx.inputs);
    if rows.Err? { return Err(rows.error); }
    return Ok((Ledger(rows.value.0, rows.value.1, tables.value), f));
  }

  lemma RestoredIs(stxos: Stxos, inputs: seq<OutPoint>)
    ensures Elements(inputs) <= stxos.Keys ==> Restored(stxos, inputs) == map o | o in Elements(inputs) :: stxos[o].output
  {
  }

  /** Undoes the transactions, last first. */
  method UndoTransactions(l: Ledger, txs: seq<Transaction>, height: nat)
    returns (r: Result<(Ledger, seq<FilledTransaction>), Error>)
    ensures r == UndoTxs(l, txs, height)
  {
    hide UndoTx, Before;
    var cur, fs := l, [];
    var i := |txs|;
    assert txs[..i] == txs;
    BeforeNone(UndoTxs(l, txs, height));
    while i > 0
      invariant 0 <= i <= |txs|
      invariant UndoTxs(l, txs, height) == Before(UndoTxs(cur, txs[..i], height), fs)
    {
      i := i - 1;
      assert txs[..i + 1][..i] == txs[..i];
      var next := UndoTransaction(cur, txs[i], height);
      UndoStep(cur, txs[..i + 1], height, fs);
      if next.Err? { return Err(next.error); }
      BeforeOne(UndoTxs(next.value.0, txs[..i], height), next.value.1, fs);
      cur, fs := next.value.0, [next.value.1] + fs;
    }
    UndoDone(cur, fs);
    return Ok((cur, fs));
  }

  lemma UndoStep(l: Ledger, txs: seq<Transaction>, height: nat, fs: seq<FilledTransaction>)
    requires txs != []
    ensures match UndoTx(l, txs[|txs| - 1], height)
            case Err(e) => Before(UndoTxs(l, txs, height), fs) == Err(e)
            case Ok((l1, f)) => UndoTxs(l, txs, height) == Before(UndoTxs(l1, txs[..|txs| - 1], height), [f])
  {
    hide UndoTx;
  }

  lemma UndoDone(l: Ledger, fs: seq<FilledTransaction>)
    ensures Before(Ok((l, [])), fs) == Ok((l, fs))
  {
    assert [] + fs == fs;
  }

  // ----- the state in place -----

  /** The tables of the node. A failed operation drops its write transaction, so
    * it leaves them as they were. */
  class ChainState {
    var utxos: Utxos
    var stxos: Stxos
    var tables: Tables
    var tip: Option<Hash>
    var height: Option<nat>

    function View(): State
      reads this
    {
      State(Ledger(utxos, stxos, tables), tip, height)
    }

    constructor ()
      ensures View() == State(Ledger(map[], map[], Tables(map[], map[], map[])), None, None)
    {
      utxos, stxos, tables, tip, height := map[], map[], Tables(map[], map[], map[]), None, None;
    }

    method Commit(st: State)
      modifies this
      ensures View() == st
    {
      utxos, stxos, tables, tip, height := st.ledger.utxos, st.ledger.stxos, st.ledger.tables, st.tip, st.height;
    }

    /** One block, one transaction after the other. */
    method Connect(cr: Crypto, header: Header, body: Body) returns (r: Result<Hash, Error>)
      modifies this
      ensures match Blocks.Connect(cr, old(View()), header, body)
              case Ok(st) => r == Ok(header.merkleRoot) && View() == st
              case Err(e) => r == Err(e) && View() == old(View())
    {
      hide ConnectTxs, CoinbaseOutputs, CoinbasePuts;
      var next := NextHeight(View());
      if tip != header.prevSide { return Err(BadPrevSideHash); }
      var outs := FillCoinbase(body.coinbase);
      if outs.Err? { return Err(outs.error); }
      var us := PutCoinbase(utxos, header, outs.value);
      var done := ConnectTransactions(Ledger(us, stxos, tables), body.transactions, next);
      if done.Err? { return Err(done.error); }
      var root := cr.merkle(body.coinbase, done.value.1);
      if root.None? { return Err(MerkleFailed); }
      if root.value != header.merkleRoot { return Err(InvalidBody); }
      Commit(State(done.value.0, Some(header.hash), Some(next)));
      return Ok(root.value);
    }

    /** One validated block, its writes collected first and applied at the end. */
    method ConnectPrevalidated(header: Header, body: Body, pre: Prevalidated) returns (r: Result<Hash, Error>)
      modifies this
      ensures match Blocks.ConnectPrevalidated(old(View()), header, body, pre)
              case Ok(st) => r == Ok(pre.merkleRoot) && View() == st
              case Err(e) => r == Err(e) && View() == old(View())
    {
      hide Accumulate, CoinbaseOutputs, CoinbasePuts;
      var outs := FillCoinbase(body.coinbase);
      if outs.Err? { return Err(outs.error); }
      var puts := PutCoinbase(map[], header, outs.value);
      assert map[] + CoinbasePuts(header, outs.value) == CoinbasePuts(header, outs.value);
      var l := Ledger(utxos, stxos, tables);
      var b := AccumulateTransactions(l, Batch({}, map[], puts, tables), pre.filled, pre.nextHeight);
      if b.Err? { return Err(b.error); }
      utxos := utxos - b.value.deletes;
      stxos := stxos + b.value.stxoPuts;
      utxos := utxos + b.value.utxoPuts;
      tables := b.value.tables;
      tip := Some(header.hash);
      height := Some(pre.nextHeight);
      return Ok(pre.merkleRoot);
    }

    method Apply(cr: Crypto, header: Header, body: Body) returns (r: Result<(), Error>)
      modifies this
      ensures match ApplyBlock(cr, old(View()), header, body)
              case Ok(st) => r == Ok(()) && View() == st
              case Err(e) => r == Err(e) && View() == old(View())
      ensures r.Ok? ==> ValidBlock(cr, old(View()), header, body)
    {
      hide Prevalidate, Blocks.ConnectPrevalidated, ValidBlock;
      var pre := PrevalidateBlock(cr, View(), header, body);
      if pre.Err? { return Err(pre.error); }
      var done := ConnectPrevalidated(header, body, pre.value);
      if done.Err? { return Err(done.error); }
      return Ok(());
    }

    method Disconnect(cr: Crypto, header: Header, body: Body) returns (r: Result<(), Error>)
      modifies this
      ensures match DisconnectTip(cr, old(View()), header, body)
              case Ok(st) => r == Ok(()) && View() == st
              case Err(e) => r == Err(e) && View() == old(View())
    {
      hide UndoTxs, CoinbaseCreated;
      if tip.None? { return Err(NoTip); }
      if tip.value != header.hash { return Err(BadBlockHash); }
      if height.None? { return Err(AssertionViolated); }
      var done := UndoTransactions(Ledger(utxos, stxos, tables), body.transactions, height.value);
      if done.Err? { return Err(done.error); }
      var l := done.value.0;
      var us := DeleteCoinbase(l.utxos, header, body);
      if us.Err? { return Err(us.error); }
      var root := cr.merkle(body.coinbase, done.value.1);
      if root.None? { return Err(MerkleFailed); }
      if root.value != header.merkleRoot { return Err(InvalidBody); }
      if header.prevSide.None? != (height.value == 0) { return Err(NoTip); }
      Commit(State(l.(utxos := us.value), header.prevSide, if height.value == 0 then None else Some(height.value - 1)));
      return Ok(());
    }
  }
}
