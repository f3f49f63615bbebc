/** Choosing transactions for a block template, and why the block is valid. */
module Producer {
  import opened Wrappers
  import opened Types
  import opened Blocks
  import opened BatchedConnect
  import opened BlockRules
  import opened DisconnectUndo
  import opened ValidBlocks
  import opened Signatures
  import opened StateDb
  import opened MemPool

  // ----- one transaction -----

  /** What makes a transaction acceptable to the memory pool; its fee. */
  function Validate(cr: Crypto, st: State, at: AuthorizedTransaction): Result<nat, Error> {
    var f :- Fill(st.ledger.utxos, at.tx);
    if |at.authorizations| != |f.spent| then Err(WrongNumberOfAuthorizations)
    else if exists k :: 0 <= k < |f.spent| && cr.address(at.authorizations[k].verifyingKey) != f.spent[k].address
      then Err(WrongPubKeyForAddress)
    else if !Signed(cr, at) then Err(AuthorizationFailed)
    else ValidateFilled(st.ledger.tables.records, f)
  }

  /** Every input has its own authorization: it signs the transaction with the key
    * that the output is addressed to. */
  ghost predicate OwnersSign(cr: Crypto, utxos: Utxos, at: AuthorizedTransaction) {
    && |at.authorizations| == |at.tx.inputs|
    && forall i :: 0 <= i < |at.tx.inputs| ==> SignedByOwner(cr, utxos, at.tx, at.tx.inputs[i], at.authorizations[i])
  }

  /** Exactly the valid transactions that their owners sign are acceptable; the fee is
    * what their inputs hold beyond their outputs. */
  lemma ValidateIs(cr: Crypto, st: State, at: AuthorizedTransaction)
    ensures Validate(cr, st, at).Ok? <==>
            ValidTransaction(st.ledger.utxos, st.ledger.tables.records, at.tx) && OwnersSign(cr, st.ledger.utxos, at)
    ensures Validate(cr, st, at).Ok? ==>
              Validate(cr, st, at).value == InputValue(st.ledger.utxos, at.tx) - OutputValue(at.tx.outputs)
  {
    hide Fill, ValidateFilled, ValidTransaction, InputValue, OutputValue;
    var utxos, records := st.ledger.utxos, st.ledger.tables.records;
    if Fill(utxos, at.tx).Ok? {
      FillFacts(utxos, at.tx);
      ValidateIff(utxos, records, Fill(utxos, at.tx).value);
      if OwnersSign(cr, utxos, at) {
        forall i | 0 <= i < |at.tx.inputs| ensures cr.verify(at.authorizations[i], at.tx) {
          assert SignedByOwner(cr, utxos, at.tx, at.tx.inputs[i], at.authorizations[i]);
        }
      }
    } else if ValidTransaction(utxos, records, at.tx) {
      ValidSpends(utxos, records, at.tx);
      Fillable(utxos, at.tx);
    }
  }

  method ValidateTransaction(cr: Crypto, st: State, at: AuthorizedTransaction) returns (r: Result<nat, Error>)
    ensures r == Validate(cr, st, at)
    ensures r.Ok? <==> ValidTransaction(st.ledger.utxos, st.ledger.tables.records, at.tx) && OwnersSign(cr, st.ledger.utxos, at)
  {
    hide Fill, Signed, ValidateFilled, ValidTransaction, OwnersSign, InputValue, OutputValue;
    ValidateIs(cr, st, at);
    var f := FillTransaction(st.ledger.utxos, at.tx);
    if f.Err? { return Err(f.error); }
    if |at.authorizations| != |f.value.spent| { return Err(WrongNumberOfAuthorizations); }
    var owned := CheckAddresses(cr, at.authorizations, f.value.spent);
    if !owned { return Err(WrongPubKeyForAddress); }
    var signed := VerifyAuthorizedTransaction(cr, at);
    if !signed { return Err(AuthorizationFailed); }
    r := ValidateFilledTransaction(st.ledger.tables.records, f.value);
  }

  // ----- the choice -----

  /** The valid transactions among those taken from the pool. */
  function Chosen(cr: Crypto, st: State, taken: seq<AuthorizedTransaction>): seq<AuthorizedTransaction> {
    if taken == [] then []
    else
      var last := taken[|taken| - 1];
      Chosen(cr, st, taken[..|taken| - 1]) + if Validate(cr, st, last).Ok? then [last] else []
  }

  /** All chosen transactions are valid, and taken from the list in its order. */
  ghost predicate AllValid(cr: Crypto, st: State, ats: seq<AuthorizedTransaction>) {
    forall i :: 0 <= i < |ats| ==> Validate(cr, st, ats[i]).Ok?
  }

  function Fees(cr: Crypto, st: State, ats: seq<AuthorizedTransaction>): (r: seq<nat>)
    ensures |r| == |ats|
  {
    seq(|ats|, i requires 0 <= i < |ats| => match Validate(cr, st, ats[i]) case Ok(fee) => fee case Err(_) => 0)
  }

  function Fills(st: State, ats: seq<AuthorizedTransaction>): Result<seq<FilledTransaction>, Error> {
    FillAll(st.ledger.utxos, Transactions(ats))
  }

  lemma {:induction false} DisjointInputs(txs: PoolTxs, spent: Spent, ats: seq<AuthorizedTransaction>)
    requires Exact(txs, spent) && FromPool(txs, ats)
    ensures Distinct(AllInputs(Transactions(ats)))
    ensures forall o :: o in AllInputs(Transactions(ats)) ==>
              exists i :: 0 <= i < |ats| && o in ats[i].tx.inputs
    decreases |ats|
  {
    if ats != [] {
      var n := |ats| - 1;
      assert Transactions(ats)[..n] == Transactions(ats[..n]);
      DisjointInputs(txs, spent, ats[..n]);
      var before, last := AllInputs(Transactions(ats[..n])), ats[n].tx.inputs;
      forall o | o in before ensures o !in last {
        var i :| 0 <= i < n && o in ats[..n][i].tx.inputs;
        if o in last { ExactMeansDisjoint(txs, spent, ats[i].tx.txid, ats[n].tx.txid, o); }
      }
      DistinctConcat(before, last);
      forall o | o in before + last ensures exists i :: 0 <= i < |ats| && o in ats[i].tx.inputs {
        if o in before {
          var i :| 0 <= i < n && o in ats[..n][i].tx.inputs;
          assert o in ats[i].tx.inputs;
        }
      }
    }
  }

  lemma {:induction false} ChosenFacts(cr: Crypto, st: State, txs: PoolTxs, taken: seq<AuthorizedTransaction>)
    requires FromPool(txs, taken)
    ensures var c := Chosen(cr, st, taken);
            && FromPool(txs, c) && AllValid(cr, st, c)
            && forall at :: at in taken && Validate(cr, st, at).Ok? <==> at in c
    decreases |taken|
  {
    hide Validate;
    if taken != [] {
      var n := |taken| - 1;
      ChosenFacts(cr, st, txs, taken[..n]);
      var c := Chosen(cr, st, taken[..n]);
      assert taken == taken[..n] + [taken[n]];
      forall i | 0 <= i < |c| ensures c[i].tx.txid < taken[n].tx.txid { assert c[i] in taken[..n]; }
    }
  }

  /** Fees of filled transactions, and what the totals are. */
  lemma {:induction false} TotalOfFees(cr: Crypto, st: State, ats: seq<AuthorizedTransaction>)
    requires AllValid(cr, st, ats)
    ensures Fills(st, ats).Ok?
    ensures ValidateAll(st.ledger.tables.records, Fills(st, ats).value) ==
            if Sum(Fees(cr, st, ats)) > AMOUNT_MAX then Err(AmountOverflow) else Ok(Sum(Fees(cr, st, ats)))
    decreases |ats|
  {
    hide Fill, Validate, ValidateFilled, FillAll;
    if ats == [] {
      NoFills(st);
    } else {
      var n := |ats| - 1;
      assert Fees(cr, st, ats)[..n] == Fees(cr, st, ats[..n]);
      assert forall i :: 0 <= i < n ==> ats[..n][i] == ats[i];
      TotalOfFees(cr, st, ats[..n]);
      ValidFills(cr, st, ats[n]);
      FillsStep(st, ats);
      var fs, f := Fills(st, ats[..n]).value, Fill(st.ledger.utxos, ats[n].tx).value;
      assert (fs + [f])[..n] == fs;
      ValidFee(cr, st, ats[n], f);
    }
  }

  lemma NoFills(st: State)
    ensures Fills(st, []) == Ok([])
  {
  }

  lemma FillsStep(st: State, ats: seq<AuthorizedTransaction>)
    requires ats != [] && Fills(st, ats[..|ats| - 1]).Ok? && Fill(st.ledger.utxos, ats[|ats| - 1].tx).Ok?
    ensures |Fills(st, ats[..|ats| - 1]).value| == |ats| - 1
    ensures Fills(st, ats) == Ok(Fills(st, ats[..|ats| - 1]).value + [Fill(st.ledger.utxos, ats[|ats| - 1].tx).value])
  {
    hide Fill;
    var n := |ats| - 1;
    assert Transactions(ats)[..n] == Transactions(ats[..n]);
    FillAllFacts(st.ledger.utxos, Transactions(ats[..n]));
  }

  lemma ValidFee(cr: Crypto, st: State, at: AuthorizedTransaction, f: FilledTransaction)
    requires Validate(cr, st, at).Ok? && Fill(st.ledger.utxos, at.tx) == Ok(f)
    ensures ValidateFilled(st.ledger.tables.records, f) == Validate(cr, st, at)
  {
    hide Fill, Signed, ValidateFilled;
  }

  // ----- the loop -----

  datatype Template = Template(txs: seq<AuthorizedTransaction>, filled: seq<FilledTransaction>, fee: nat)

  /** The template made from a list of valid transactions: exactly its total fee. */
  ghost predicate Made(cr: Crypto, st: State, ats: seq<AuthorizedTransaction>, t: Template) {
    && t.txs == ats && Fills(st, ats) == Ok(t.filled)
    && t.fee == Sum(Fees(cr, st, ats)) && t.fee <= AMOUNT_MAX
  }

  function Rejected(cr: Crypto, st: State, taken: seq<AuthorizedTransaction>): set<Txid> {
    set at | at in taken && Validate(cr, st, at).Err? :: at.tx.txid
  }

  lemma RejectedStep(cr: Crypto, st: State, taken: seq<AuthorizedTransaction>, i: nat)
    requires i < |taken|
    ensures Rejected(cr, st, taken[..i + 1]) ==
            if Validate(cr, st, taken[i]).Ok? then Rejected(cr, st, taken[..i])
            else Rejected(cr, st, taken[..i]) + {taken[i].tx.txid}
  {
    hide Validate;
    assert taken[..i + 1] == taken[..i] + [taken[i]];
  }

  lemma ChosenStep(cr: Crypto, st: State, taken: seq<AuthorizedTransaction>, i: nat)
    requires i < |taken|
    ensures Chosen(cr, st, taken[..i + 1]) ==
            Chosen(cr, st, taken[..i]) + if Validate(cr, st, taken[i]).Ok? then [taken[i]] else []
  {
    hide Validate;
    assert taken[..i + 1][..i] == taken[..i];
  }

  /** Adding one valid transaction to the template. */
  lemma MadeStep(cr: Crypto, st: State, ats: seq<AuthorizedTransaction>, t: Template, at: AuthorizedTransaction, f: FilledTransaction)
    requires Made(cr, st, ats, t) && Validate(cr, st, at).Ok? && Fill(st.ledger.utxos, at.tx) == Ok(f)
    ensures Sum(Fees(cr, st, ats + [at])) == t.fee + Validate(cr, st, at).value
    ensures t.fee + Validate(cr, st, at).value <= AMOUNT_MAX ==>
              Made(cr, st, ats + [at], Template(t.txs + [at], t.filled + [f], t.fee + Validate(cr, st, at).value))
  {
    hide Fill, Validate;
    var n := |ats|;
    assert Transactions(ats + [at])[..n] == Transactions(ats);
    assert Fees(cr, st, ats + [at])[..n] == Fees(cr, st, ats);
    assert Fees(cr, st, ats + [at])[n] == Validate(cr, st, at).value;
  }

  lemma FeeIs(cr: Crypto, st: State, at: AuthorizedTransaction, f: FilledTransaction)
    requires Validate(cr, st, at).Ok? && Fill(st.ledger.utxos, at.tx) == Ok(f)
    ensures Fee(f) == Ok(Validate(cr, st, at).value)
  {
    hide Fill, Signed, Fee, ReservationsBalance, CheckNames;
  }

  /** No input of the next transaction is spent by the template: the branch that
    * drops a double spend is never taken. */
  lemma NoDoubleSpend(cr: Crypto, st: State, txs: PoolTxs, spent: Spent, taken: seq<AuthorizedTransaction>, i: nat)
    requires Exact(txs, spent) && FromPool(txs, taken) && i < |taken|
    ensures Elements(AllInputs(Transactions(Chosen(cr, st, taken[..i])))) !! Elements(taken[i].tx.inputs)
  {
    hide Validate, Exact, AllInputs;
    var c := Chosen(cr, st, taken[..i]);
    ChosenFacts(cr, st, txs, taken[..i]);
    DisjointInputs(txs, spent, c);
    forall o | o in AllInputs(Transactions(c)) ensures o !in taken[i].tx.inputs {
      var k :| 0 <= k < |c| && o in c[k].tx.inputs;
      assert c[k] in taken[..i];
      if o in taken[i].tx.inputs { ExactMeansDisjoint(txs, spent, c[k].tx.txid, taken[i].tx.txid, o); }
    }
  }

  lemma {:induction false} ChosenPrefix(cr: Crypto, st: State, taken: seq<AuthorizedTransaction>, i: nat)
    requires i <= |taken|
    ensures Sum(Fees(cr, st, Chosen(cr, st, taken[..i]))) <= Sum(Fees(cr, st, Chosen(cr, st, taken)))
    decreases |taken|
  {
    hide Validate;
    if i < |taken| {
      assert taken[..|taken| - 1][..i] == taken[..i];
      ChosenPrefix(cr, st, taken[..|taken| - 1], i);
      var c := Chosen(cr, st, taken[..|taken| - 1]);
      var d := Chosen(cr, st, taken);
      assert Fees(cr, st, d)[..|c|] == Fees(cr, st, c);
      SumPrefix(Fees(cr, st, d), |c|);
    } else {
      assert taken[..i] == taken;
    }
  }

  /** The transactions for a template are exactly the valid ones among those taken;
    * the others, and what depends on them, leave the pool. */
  method GetTransactions(cr: Crypto, st: State, pool: Pool, number: nat)
    returns (r: Result<Template, Error>, ghost taken: seq<AuthorizedTransaction>, ghost gone: set<Txid>)
    requires pool.Valid()
    modifies pool
    ensures pool.Valid() && FromPool(old(pool.txs), taken) && |taken| <= number
    ensures |taken| < number ==> forall t :: t in old(pool.txs) ==> old(pool.txs)[t] in taken
    ensures forall t, i :: t in old(pool.txs) && old(pool.txs)[t] !in taken && 0 <= i < |taken| ==> taken[i].tx.txid < t
    ensures r.Ok? <==> Sum(Fees(cr, st, Chosen(cr, st, taken))) <= AMOUNT_MAX
    ensures r.Ok? ==>
              && Made(cr, st, Chosen(cr, st, taken), r.value)
              && IsCascadeOf(old(pool.txs), Rejected(cr, st, taken), gone) && pool.txs == Keep(old(pool.txs), gone)
    ensures r.Err? ==> pool.txs == old(pool.txs) && pool.spent == old(pool.spent)
  {
    hide Exact, Validate, Chosen, Fees, Sum, IsCascade, IsCascadeOf, Rejected, Fill, FromPool, Made, AllInputs, Spends;
    var txs, index := pool.txs, pool.spent;
    PoolKeys(txs, index);
    var list := Take(txs, number);
    taken, gone := list, {};
    var t := Template([], [], 0);
    var spent: set<OutPoint> := {};
    ChoiceStart(cr, st, txs, list);
    for i := 0 to |list|
      invariant pool.Valid() && txs == old(pool.txs) && index == old(pool.spent)
      invariant Made(cr, st, Chosen(cr, st, list[..i]), t)
      invariant spent == Elements(AllInputs(Transactions(t.txs)))
      invariant IsCascadeOf(txs, Rejected(cr, st, list[..i]), gone) && pool.txs == Keep(txs, gone)
    {
      var at := list[i];
      NoDoubleSpend(cr, st, txs, index, list, i);
      MadeParts(cr, st, Chosen(cr, st, list[..i]), t);
      assert spent !! Elements(at.tx.inputs);
      ChosenStep(cr, st, list, i);
      RejectedStep(cr, st, list, i);
      var valid := ValidateTransaction(cr, st, at);
      if valid.Err? {
        ghost var more := pool.Delete(at.tx.txid);
        CascadeMore(txs, Rejected(cr, st, list[..i]), gone, at.tx.txid, more);
        gone := gone + more;
        assert Chosen(cr, st, list[..i + 1]) == Chosen(cr, st, list[..i]);
      } else {
        ValidFills(cr, st, at);
        var f := FillTransaction(st.ledger.utxos, at.tx);
        FeeIs(cr, st, at, f.value);
        var fee := GetFee(f.value);
        var total := CheckedAdd(t.fee, fee.value);
        MadeStep(cr, st, t.txs, t, at, f.value);
        if total.None? {
          ChosenPrefix(cr, st, list, i + 1);
          pool.Restore(txs, index);
          return Err(AmountOverflow), taken, gone;
        }
        InputsStep(t.txs, at);
        spent := spent + Elements(at.tx.inputs);
        t := Template(t.txs + [at], t.filled + [f.value], total.value);
      }
    }
    assert list[..|list|] == list;
    MadeParts(cr, st, Chosen(cr, st, list), t);
    return Ok(t), taken, gone;
  }

  lemma ChoiceStart(cr: Crypto, st: State, txs: PoolTxs, list: seq<AuthorizedTransaction>)
    ensures Made(cr, st, Chosen(cr, st, list[..0]), Template([], [], 0))
    ensures IsCascadeOf(txs, Rejected(cr, st, list[..0]), {}) && txs == Keep(txs, {})
    ensures AllInputs(Transactions([])) == []
  {
    hide Validate;
    CascadeNone(txs);
    assert Rejected(cr, st, list[..0]) == {};
    assert Transactions([]) == [];
  }

  lemma MadeParts(cr: Crypto, st: State, ats: seq<AuthorizedTransaction>, t: Template)
    requires Made(cr, st, ats, t)
    ensures t.txs == ats && t.fee == Sum(Fees(cr, st, ats)) <= AMOUNT_MAX
  {
  }

  lemma ValidFills(cr: Crypto, st: State, at: AuthorizedTransaction)
    requires Validate(cr, st, at).Ok?
    ensures Fill(st.ledger.utxos, at.tx).Ok?
  {
  }

  lemma InputsStep(ats: seq<AuthorizedTransaction>, at: AuthorizedTransaction)
    ensures Elements(AllInputs(Transactions(ats + [at]))) == Elements(AllInputs(Transactions(ats))) + Elements(at.tx.inputs)
  {
    assert Transactions(ats + [at])[..|ats|] == Transactions(ats);
  }

  // ----- the block -----

  /** One coinbase output for the fees, or none. */
  function FeeOutputs(address: Address, fee: nat): seq<Output> {
    if fee == 0 then [] else [Output(address, Bitcoin(fee), [])]
  }

  lemma FeeOutputsValue(address: Address, fee: nat)
    ensures Sum(OutputValues(FeeOutputs(address, fee))) == fee
  {
    if fee > 0 {
      assert OutputValues(FeeOutputs(address, fee)) == [fee];
      assert [fee][..0] == [];
    }
  }

  /** Signatures, counts and addresses of the flat lists, from those of each transaction. */
  lemma {:induction false} FlatPairing(cr: Crypto, st: State, ats: seq<AuthorizedTransaction>, fs: seq<FilledTransaction>)
    requires AllValid(cr, st, ats) && Fills(st, ats) == Ok(fs)
    ensures Counted(ats) && (forall i :: 0 <= i < |ats| ==> Signed(cr, ats[i]))
    ensures Owned(cr, Authorizations(ats), AllSpent(fs))
    decreases |ats|
  {
    hide Signed, Validate, Fill, Owned, Fills;
    OwnedNone(cr);
    if ats == [] {
      NoFills(st);
    } else {
      var n := |ats| - 1;
      assert forall i :: 0 <= i < n ==> ats[..n][i] == ats[i];
      TotalOfFees(cr, st, ats[..n]);
      ValidFills(cr, st, ats[n]);
      FillsStep(st, ats);
      assert fs[..n] == Fills(st, ats[..n]).value;
      FlatPairing(cr, st, ats[..n], fs[..n]);
      PairingStep(cr, st, ats[n], fs[n]);
      OwnedConcat(cr, Authorizations(ats[..n]), AllSpent(fs[..n]), ats[n].authorizations, fs[n].spent);
    }
  }

  ghost predicate Owned(cr: Crypto, auths: seq<Authorization>, spent: seq<FilledOutput>) {
    |auths| == |spent| && forall k :: 0 <= k < |spent| ==> cr.address(auths[k].verifyingKey) == spent[k].address
  }

  lemma OwnedConcat(cr: Crypto, a: seq<Authorization>, s: seq<FilledOutput>, b: seq<Authorization>, t: seq<FilledOutput>)
    requires Owned(cr, a, s) && Owned(cr, b, t)
    ensures Owned(cr, a + b, s + t)
  {
  }

  lemma PairingStep(cr: Crypto, st: State, at: AuthorizedTransaction, f: FilledTransaction)
    requires Validate(cr, st, at).Ok? && Fill(st.ledger.utxos, at.tx) == Ok(f)
    ensures |at.authorizations| == |at.tx.inputs| && Signed(cr, at) && Owned(cr, at.authorizations, f.spent)
  {
  }

  lemma OwnedNone(cr: Crypto)
    ensures Owned(cr, [], [])
  {
  }

  /** The block made from a template passes every check of validation but, when it
    * is too large, the one of its size. */
  lemma TemplateIsValid(cr: Crypto, st: State, pool: PoolTxs, spent: Spent, ats: seq<AuthorizedTransaction>, t: Template,
                        address: Address, header: Header)
    requires Exact(pool, spent) && FromPool(pool, ats) && AllValid(cr, st, ats) && Made(cr, st, ats, t)
    requires cr.merkle(FeeOutputs(address, t.fee), t.filled) == Some(header.merkleRoot) && header.prevSide == st.tip
    ensures var body := Body(FeeOutputs(address, t.fee), Transactions(ats), Authorizations(ats));
            Prevalidate(cr, st, header, body) ==
            if cr.bodySize(body) > MAX_BODY_SIZE then Err(BodyTooLarge)
            else Ok(Prevalidated(t.filled, header.merkleRoot, t.fee, t.fee, NextHeight(st)))
  {
    hide Exact, FromPool, Validate, Fill, AllInputs, AllSpent, Authorized, Sum, ValidateAll, Distinct;
    var coinbase := FeeOutputs(address, t.fee);
    FeeOutputsValue(address, t.fee);
    DisjointInputs(pool, spent, ats);
    TotalOfFees(cr, st, ats);
    FlatPairing(cr, st, ats, t.filled);
    SignedBody(cr, ats, coinbase);
  }

  /** The block creates nothing that is there, and registers each name once. */
  ghost predicate AllNew(l: Ledger, header: Header, body: Body) {
    && CreatedUpTo(header, body, |body.transactions|) !! l.utxos.Keys
    && (forall i :: 0 <= i < |body.transactions| && IsReservation(body.transactions[i]) ==>
                      body.transactions[i].txid !in l.tables.reservations)
    && NamesOnce(body.transactions)
  }

  /** The transactions of a template differ, so a block made of them is clean
    * exactly when all in it is new. Nothing keeps two of them from registering one
    * name. */
  lemma TemplateIsClean(txs: PoolTxs, ats: seq<AuthorizedTransaction>, l: Ledger, header: Header, body: Body)
    requires FromPool(txs, ats) && body.transactions == Transactions(ats)
    ensures CreatedOnce(header, body)
    ensures Clean(l, header, body) <==> AllNew(l, header, body)
  {
    hide CreatedUpTo, CreatedBy, NamesOnce;
    var all := body.transactions;
    forall n, o | 0 <= n < |all| && o in CreatedBy(all[n]) ensures o !in CreatedUpTo(header, body, n) {
      CreatedMember(header, body, n, o);
      CreatedTxid(all[n], o);
      assert o !in CoinbaseCreated(header, body);
      forall i | 0 <= i < n ensures o !in CreatedBy(all[i]) {
        assert all[i] == ats[i].tx && all[n] == ats[n].tx;
        if o in CreatedBy(all[i]) { CreatedTxid(all[i], o); }
      }
    }
  }

  lemma CreatedTxid(tx: Transaction, o: OutPoint)
    requires o in CreatedBy(tx)
    ensures o.Regular? && o.txid == tx.txid
  {
  }

  lemma FeeOutputsConnect(address: Address, fee: nat)
    ensures CoinbaseOutputs(FeeOutputs(address, fee)).Ok?
  {
    assert FeeOutputs(address, fee)[..0] == [];
  }

  /** A body for the next block: under any header with its root, on the current
    * tip, it is valid unless it is too large, and then it connects. */
  method MakeBody(cr: Crypto, st: State, pool: Pool, number: nat, address: Address)
    returns (r: Result<(Body, Hash), Error>)
    requires pool.Valid()
    modifies pool
    ensures pool.Valid()
    ensures r.Ok? ==> |r.value.0.transactions| <= number
    ensures r.Ok? ==> forall h: Header :: h.merkleRoot == r.value.1 && h.prevSide == st.tip ==>
              var pre := Prevalidate(cr, st, h, r.value.0);
              if cr.bodySize(r.value.0) > MAX_BODY_SIZE then pre == Err(BodyTooLarge) else pre.Ok?
    ensures r.Ok? && cr.bodySize(r.value.0) <= MAX_BODY_SIZE && ReservationsAgree(st.ledger) && NamesListed(st.ledger) ==>
              forall h: Header :: h.merkleRoot == r.value.1 && h.prevSide == st.tip ==> ApplyBlock(cr, st, h, r.value.0).Ok?
    ensures r.Ok? ==> forall h: Header :: Clean(st.ledger, h, r.value.0) <==> AllNew(st.ledger, h, r.value.0)
  {
    hide ApplyBlock, ReservationsAgree, NamesListed, FeeOutputs, Exact, FromPool, Chosen, Made, IsCascadeOf, Rejected,
      Prevalidate, Validate, Fees, Sum, Authorizations, Clean, AllNew, CreatedOnce;
    ghost var txs, spent := pool.txs, pool.spent;
    var t, taken, gone := GetTransactions(cr, st, pool, number);
    if t.Err? { return Err(t.error); }
    MadeParts(cr, st, Chosen(cr, st, taken), t.value);
    ChosenFacts(cr, st, txs, taken);
    ChosenCount(cr, st, taken);
    var coinbase := FeeOutputs(address, t.value.fee);
    var root := cr.merkle(coinbase, t.value.filled);
    if root.None? { return Err(MerkleFailed); }
    var body := NewBody(t.value.txs, coinbase);
    forall h: Header | h.merkleRoot == root.value && h.prevSide == st.tip
      ensures var pre := Prevalidate(cr, st, h, body);
              if cr.bodySize(body) > MAX_BODY_SIZE then pre == Err(BodyTooLarge) else pre.Ok?
    {
      TemplateIsValid(cr, st, txs, spent, t.value.txs, t.value, address, h);
    }
    if ReservationsAgree(st.ledger) && NamesListed(st.ledger) {
      FeeOutputsConnect(address, t.value.fee);
      forall h: Header ensures Prevalidate(cr, st, h, body).Ok? ==> ApplyBlock(cr, st, h, body).Ok? {
        ValidBlockConnects(cr, st, h, body);
      }
    }
    forall h: Header ensures Clean(st.ledger, h, body) <==> AllNew(st.ledger, h, body) {
      TemplateIsClean(txs, t.value.txs, st.ledger, h, body);
    }
    return Ok((body, root.value));
  }

  lemma {:induction false} ChosenCount(cr: Crypto, st: State, taken: seq<AuthorizedTransaction>)
    ensures |Chosen(cr, st, taken)| <= |taken|
    decreases |taken|
  {
    hide Validate;
    if taken != [] { ChosenCount(cr, st, taken[..|taken| - 1]); }
  }
}
