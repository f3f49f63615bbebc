/** Accepted blocks that show where the properties of connecting and disconnecting
  * stop, each after a chain connected to the empty state. */
module Examples {
  import opened Wrappers
  import opened Types
  import opened Filling
  import opened BitNames
  import opened Blocks
  import opened BatchedConnect
  import opened DisconnectUndo
  import opened DisconnectExact
  import opened BatchedExact
  import opened StateInvariant
  import opened Chains
  import opened NameRuns

  const NO_DATA := MutableData(None, None, None, None, None, None)

  /** Every signature is valid, and every key has address 0. */
  function Lenient(): Crypto {
    Crypto((c, f) => Some(0), k => 0, (a, t) => true, b => 0)
  }

  function NoTables(): Tables { Tables(map[], map[], map[]) }
  function Empty(): State { State(Ledger(map[], map[], NoTables()), None, None) }

  lemma EmptyStarts()
    ensures Start(Empty())
  {
    assert SeqsDense(NoTables());
  }

  // ----- validating small blocks -----

  /** Transactions that are valid for no fee, with all spent outputs at address 0. */
  ghost predicate FreeOfCharge(st: State, txs: seq<Transaction>, fs: seq<FilledTransaction>) {
    && |fs| == |txs|
    && forall i :: 0 <= i < |txs| ==>
         && Fill(st.ledger.utxos, txs[i]) == Ok(fs[i])
         && ValidateFilled(st.ledger.tables.records, fs[i]) == Ok(0)
         && forall k :: 0 <= k < |fs[i].spent| ==> fs[i].spent[k].address == 0
  }

  lemma {:induction false} FreeFees(st: State, txs: seq<Transaction>, fs: seq<FilledTransaction>)
    requires FreeOfCharge(st, txs, fs)
    ensures ValidateAll(st.ledger.tables.records, fs) == Ok(0)
    decreases |txs|
  {
    hide Fill, ValidateFilled;
    if txs != [] {
      var n := |txs| - 1;
      assert forall i :: 0 <= i < n ==> txs[..n][i] == txs[i] && fs[..n][i] == fs[i];
      FreeFees(st, txs[..n], fs[..n]);
    }
  }

  lemma {:induction false} FreeSpent(st: State, txs: seq<Transaction>, fs: seq<FilledTransaction>)
    requires FreeOfCharge(st, txs, fs)
    ensures |AllSpent(fs)| == |InputOwners(txs)| == |AllInputs(txs)|
    ensures forall k :: 0 <= k < |AllSpent(fs)| ==> AllSpent(fs)[k].address == 0
    decreases |txs|
  {
    hide Fill, ValidateFilled;
    if txs != [] {
      var n := |txs| - 1;
      assert forall i :: 0 <= i < n ==> txs[..n][i] == txs[i] && fs[..n][i] == fs[i];
      FreeSpent(st, txs[..n], fs[..n]);
      FillFacts(st.ledger.utxos, txs[n]);
    }
  }

  lemma FreeFills(st: State, txs: seq<Transaction>, fs: seq<FilledTransaction>)
    requires FreeOfCharge(st, txs, fs)
    ensures FillAll(st.ledger.utxos, txs) == Ok(fs)
  {
    hide Fill, ValidateFilled, FillAll;
    FillAllFacts(st.ledger.utxos, txs);
    assert forall i :: 0 <= i < |txs| ==> Fill(st.ledger.utxos, txs[i]) == Ok(fs[i]);
    assert FillAll(st.ledger.utxos, txs).value == fs;
  }

  lemma Prevalidates(st: State, header: Header, txs: seq<Transaction>, auths: seq<Authorization>, fs: seq<FilledTransaction>)
    requires FreeOfCharge(st, txs, fs) && header.prevSide == st.tip && header.merkleRoot == 0
    requires Distinct(AllInputs(txs)) && |auths| == |AllInputs(txs)|
    ensures Prevalidate(Lenient(), st, header, Body([], txs, auths)) == Ok(Prevalidated(fs, 0, 0, 0, NextHeight(st)))
  {
    hide FillAll, ValidateAll, AllSpent, InputOwners, AllInputs, Distinct, FreeOfCharge;
    FreeFills(st, txs, fs);
    FreeFees(st, txs, fs);
    FreeSpent(st, txs, fs);
    assert OutputValues([]) == [];
  }

  /** Collecting one more transaction. */
  lemma CollectsOne(l: Ledger, b0: Batch, fs: seq<FilledTransaction>, f: FilledTransaction, b: Batch, height: nat)
    requires Accumulate(l, b0, fs, height) == Ok(b)
    ensures Accumulate(l, b0, fs + [f], height) == AccumulateTx(l, b, f, height)
  {
    hide AccumulateTx;
    assert (fs + [f])[..|fs|] == fs;
  }

  // ----- a transaction without inputs, sent again -----

  /** Transaction 1 has no inputs and one output of value 0. */
  function Gift(): Transaction { Transaction(1, [], [Output(0, Bitcoin(0), [])], None) }
  function GiftOutput(): FilledOutput { FilledOutput(0, FilledBitcoin(0), []) }
  function GiftPoint(): OutPoint { Regular(1, 0) }

  /** Transaction 2 spends that output. */
  function Spend(): Transaction { Transaction(2, [GiftPoint()], [], None) }

  function FilledGift(): FilledTransaction { FilledTransaction(Gift(), []) }
  function FilledSpend(): FilledTransaction { FilledTransaction(Spend(), [GiftOutput()]) }

  function Genesis(txs: seq<Transaction>): Block { Block(Header(100, 200, 0, None, 0), Body([], txs, [])) }
  function Second(txs: seq<Transaction>, auths: nat): Block {
    Block(Header(101, 201, 0, Some(100), 0), Body([], txs, seq(auths, _ => Authorization(0, 0))))
  }

  /** The state after a first block with transaction 1. */
  function Gifted(): State {
    State(Ledger(map[GiftPoint() := GiftOutput()], map[], NoTables()), Some(100), Some(0))
  }

  lemma GiftIsValid(utxos: Utxos)
    ensures Fill(utxos, Gift()) == Ok(FilledGift()) && ValidateFilled(map[], FilledGift()) == Ok(0)
    ensures FilledOutputs(FilledGift()) == Some([GiftOutput()])
  {
    var f := FilledGift();
    assert Fill(utxos, f.tx).value.spent == f.spent;
    assert f.tx.outputs[1..] == [] && SpentValues(f.spent) == [] && OutputValues(f.tx.outputs) == [0];
    assert [0][..0] == [] && Sum([0]) == 0;
    assert FillFrom(f.tx.outputs[1..], OutputNames(f), OutputClaims(f)) == Some([]);
    assert [GiftOutput()] + [] == [GiftOutput()];
  }

  lemma SpendIsValid()
    ensures Fill(Gifted().ledger.utxos, Spend()) == Ok(FilledSpend()) && ValidateFilled(map[], FilledSpend()) == Ok(0)
    ensures FilledOutputs(FilledSpend()) == Some([])
  {
    var f := FilledSpend();
    assert Fill(Gifted().ledger.utxos, f.tx).value.spent == f.spent;
    assert f.spent[1..] == [] && Claims(f.spent) == [] && Names(f.spent) == [];
    assert SpentValues(f.spent) == [0] && OutputValues(f.tx.outputs) == [];
    assert [0][..0] == [] && Sum([0]) == 0;
  }

  lemma GiftAccumulates(l: Ledger, b: Batch, height: nat)
    ensures AccumulateTx(l, b, FilledGift(), height) == Ok(b.(utxoPuts := b.utxoPuts[GiftPoint() := GiftOutput()]))
  {
    hide Fill, FilledOutputs;
    GiftIsValid(l.utxos);
    assert OutputPuts(1, [GiftOutput()]) == map[GiftPoint() := GiftOutput()];
    assert b.utxoPuts + map[GiftPoint() := GiftOutput()] == b.utxoPuts[GiftPoint() := GiftOutput()];
    assert b.deletes + Elements(Gift().inputs) == b.deletes;
    assert b.stxoPuts + SpentPuts(1, [], [], 0) == b.stxoPuts;
  }

  function SpendRow(): SpentOutput { SpentOutput(GiftOutput(), InPoint(2, 0)) }

  lemma SpendAccumulates(b: Batch, height: nat)
    ensures AccumulateTx(Gifted().ledger, b, FilledSpend(), height) ==
            Ok(b.(deletes := b.deletes + {GiftPoint()}, stxoPuts := b.stxoPuts[GiftPoint() := SpendRow()]))
  {
    hide Fill, FilledOutputs;
    SpendIsValid();
    var f := FilledSpend();
    assert Elements(f.tx.inputs) == {GiftPoint()} && OutputPuts(2, []) == map[] && b.utxoPuts + map[] == b.utxoPuts;
    assert SpentPuts(2, f.tx.inputs, f.spent, 0) == map[];
    assert SpentPuts(2, f.tx.inputs, f.spent, 1) == map[GiftPoint() := SpendRow()];
    assert b.stxoPuts + map[GiftPoint() := SpendRow()] == b.stxoPuts[GiftPoint() := SpendRow()];
  }

  lemma GiftApplies()
    ensures ApplyBlock(Lenient(), Empty(), Genesis([Gift()]).header, Genesis([Gift()]).body) == Ok(Gifted())
  {
    hide Fill, ValidateFilled, AccumulateTx, Prevalidate;
    var g := Genesis([Gift()]);
    GiftIsValid(map[]);
    assert [Gift()][..0] == [] && AllInputs([Gift()]) == [];
    Prevalidates(Empty(), g.header, [Gift()], [], [FilledGift()]);
    var l := Empty().ledger;
    var b0 := Batch({}, map[], CoinbasePuts(g.header, []), l.tables);
    assert b0.utxoPuts == map[];
    CollectsOne(l, b0, [], FilledGift(), b0, 0);
    assert [] + [FilledGift()] == [FilledGift()];
    GiftAccumulates(l, b0, 0);
    assert l.utxos - {} + map[GiftPoint() := GiftOutput()] == Gifted().ledger.utxos && l.stxos + map[] == map[];
  }

  /** A first block of transactions with different txids is fresh. */
  lemma GenesisIsFresh(txs: seq<Transaction>)
    requires forall i, j :: 0 <= i < j < |txs| ==> txs[i].txid != txs[j].txid
    requires forall i :: 0 <= i < |txs| ==> !IsRegistration(txs[i])
    ensures Fresh(Empty().ledger, Genesis(txs).header, Genesis(txs).body)
  {
    hide CreatedUpTo, CreatedBy;
    var g := Genesis(txs);
    forall n, o | 0 <= n < |txs| && o in CreatedBy(txs[n]) ensures o !in CreatedUpTo(g.header, g.body, n) {
      CreatedMember(g.header, g.body, n, o);
      assert forall i :: 0 <= i < n && o in CreatedBy(txs[i]) ==> txs[i].txid == txs[n].txid by { PointTxids(txs, o); }
    }
  }

  lemma PointTxids(txs: seq<Transaction>, o: OutPoint)
    ensures forall i :: 0 <= i < |txs| && o in CreatedBy(txs[i]) ==> o.Regular? && o.txid == txs[i].txid
  {
  }

  /** The first block is connected to the empty state, and fresh. */
  lemma GiftChain()
    ensures Fold(Lenient(), Empty(), [Genesis([Gift()])]) == Ok(Gifted())
    ensures FreshChain(Lenient(), Empty(), [Genesis([Gift()])])
    ensures StateOk(Gifted())
  {
    hide ApplyBlock, Fresh;
    GiftApplies();
    GenesisIsFresh([Gift()]);
    OneBlock(Empty(), Genesis([Gift()]), Gifted());
    assert SeqsDense(NoTables());
  }

  lemma OneBlock(init: State, g: Block, st: State)
    requires ApplyBlock(Lenient(), init, g.header, g.body) == Ok(st) && Fresh(init.ledger, g.header, g.body)
    ensures Fold(Lenient(), init, [g]) == Ok(st) && FreshChain(Lenient(), init, [g])
  {
    hide ApplyBlock, Fresh;
    assert [g][..0] == [];
  }

  function SpendThenGift(): Block { Second([Spend(), Gift()], 1) }
  function GiftThenSpend(): Block { Second([Gift(), Spend()], 1) }
  function GiftSpendGift(): Block { Second([Gift(), Spend(), Gift()], 1) }

  /** The output is unspent and spent at once. */
  function Doubled(): State {
    State(Ledger(map[GiftPoint() := GiftOutput()], map[GiftPoint() := SpendRow()], NoTables()), Some(101), Some(1))
  }

  function FilledOf(tx: Transaction): FilledTransaction { if tx == Spend() then FilledSpend() else FilledGift() }

  lemma MixIsValid(txs: seq<Transaction>, fs: seq<FilledTransaction>)
    requires |fs| == |txs| && forall i :: 0 <= i < |txs| ==> (txs[i] == Gift() || txs[i] == Spend()) && fs[i] == FilledOf(txs[i])
    ensures FreeOfCharge(Gifted(), txs, fs)
  {
    hide Fill, ValidateFilled;
    GiftIsValid(Gifted().ledger.utxos);
    SpendIsValid();
  }

  lemma MixInputs()
    ensures AllInputs(SpendThenGift().body.transactions) == [GiftPoint()]
    ensures AllInputs(GiftThenSpend().body.transactions) == [GiftPoint()]
    ensures AllInputs(GiftSpendGift().body.transactions) == [GiftPoint()]
  {
    var g, s := Gift(), Spend();
    assert [g][..0] == [] && [s][..0] == [] && [s, g][..1] == [s] && [g, s][..1] == [g] && [g, s, g][..2] == [g, s];
    assert AllInputs([g]) == [] && AllInputs([s]) == [GiftPoint()];
    assert AllInputs([g, s]) == [GiftPoint()];
  }

  function Started(): Batch { Batch({}, map[], map[], NoTables()) }
  function WithGift(b: Batch): Batch { b.(utxoPuts := b.utxoPuts[GiftPoint() := GiftOutput()]) }
  function WithSpend(b: Batch): Batch {
    b.(deletes := b.deletes + {GiftPoint()}, stxoPuts := b.stxoPuts[GiftPoint() := SpendRow()])
  }

  lemma MixCollects()
    ensures var l, g, s := Gifted().ledger, FilledGift(), FilledSpend();
            && Accumulate(l, Started(), [s, g], 1) == Ok(WithGift(WithSpend(Started())))
            && Accumulate(l, Started(), [g], 1) == Ok(WithGift(Started()))
            && Accumulate(l, Started(), [g, s], 1) == Ok(WithSpend(WithGift(Started())))
            && Accumulate(l, Started(), [g, s, g], 1) == Ok(WithGift(WithSpend(WithGift(Started()))))
  {
    hide AccumulateTx, Accumulate, Started;
    var l, g, s, b := Gifted().ledger, FilledGift(), FilledSpend(), Started();
    AccumulateNone(l, b, [], 1);
    assert [] + [s] == [s] && [] + [g] == [g] && [s] + [g] == [s, g] && [g] + [s] == [g, s] && [g, s] + [g] == [g, s, g];
    CollectsOne(l, b, [], s, b, 1);
    SpendAccumulates(b, 1);
    CollectsOne(l, b, [s], g, WithSpend(b), 1);
    GiftAccumulates(l, WithSpend(b), 1);
    CollectsOne(l, b, [], g, b, 1);
    GiftAccumulates(l, b, 1);
    CollectsOne(l, b, [g], s, WithGift(b), 1);
    SpendAccumulates(WithGift(b), 1);
    CollectsOne(l, b, [g, s], g, WithSpend(WithGift(b)), 1);
    GiftAccumulates(l, WithSpend(WithGift(b)), 1);
  }

  /** Any of the three blocks is accepted, and leaves the output unspent and spent. */
  lemma MixApplies(x: Block, fs: seq<FilledTransaction>)
    requires x == SpendThenGift() || x == GiftThenSpend() || x == GiftSpendGift()
    requires |fs| == |x.body.transactions| && forall i :: 0 <= i < |fs| ==> fs[i] == FilledOf(x.body.transactions[i])
    ensures Prevalidate(Lenient(), Gifted(), x.header, x.body) == Ok(Prevalidated(fs, 0, 0, 0, 1))
    ensures ConnectPrevalidated(Gifted(), x.header, x.body, Prevalidated(fs, 0, 0, 0, 1)) == Ok(Doubled())
    ensures ApplyBlock(Lenient(), Gifted(), x.header, x.body) == Ok(Doubled())
  {
    hide Prevalidate, Accumulate, AllInputs, FreeOfCharge;
    MixIsValid(x.body.transactions, fs);
    MixInputs();
    Prevalidates(Gifted(), x.header, x.body.transactions, x.body.authorizations, fs);
    MixCollects();
    assert CoinbasePuts(x.header, []) == map[];
    assert FilledOf(Gift()) == FilledGift() && FilledOf(Spend()) == FilledSpend();
    assert fs == [FilledSpend(), FilledGift()] || fs == [FilledGift(), FilledSpend()] || fs == [FilledGift(), FilledSpend(), FilledGift()];
    var p := GiftPoint();
    var b := Accumulate(Gifted().ledger, Started(), fs, 1).value;
    assert b.deletes == {p} && b.stxoPuts == map[p := SpendRow()] && b.utxoPuts == map[p := GiftOutput()];
    assert Gifted().ledger.utxos - {p} + map[p := GiftOutput()] == map[p := GiftOutput()];
    assert map[] + map[p := SpendRow()] == map[p := SpendRow()];
  }

  lemma MixCreates(x: Block, n: nat)
    requires x == SpendThenGift() || x == GiftThenSpend() || x == GiftSpendGift()
    requires n <= |x.body.transactions|
    ensures CreatedBy(Gift()) == {GiftPoint()} && CreatedBy(Spend()) == {} && CoinbaseCreated(x.header, x.body) == {}
    ensures CreatedUpTo(x.header, x.body, n) <= {GiftPoint()}
    ensures GiftPoint() in CreatedUpTo(x.header, x.body, n) <==> exists i :: 0 <= i < n && x.body.transactions[i] == Gift()
  {
    hide CreatedUpTo;
    assert CreatedBy(Gift()) == {GiftPoint()};
    forall o ensures o in CreatedUpTo(x.header, x.body, n) <==>
                     exists i :: 0 <= i < n && o in CreatedBy(x.body.transactions[i])
    {
      CreatedMember(x.header, x.body, n, o);
    }
  }

  lemma SpentFirstIsReversible()
    ensures Reversible(Gifted().ledger, SpendThenGift().header, SpendThenGift().body)
    ensures !Clean(Gifted().ledger, SpendThenGift().header, SpendThenGift().body)
  {
    hide CreatedUpTo, CreatedBy;
    var x := SpendThenGift();
    MixCreates(x, 0);
    MixCreates(x, 1);
    MixCreates(x, 2);
    var txs := x.body.transactions;
    assert txs[1] == Gift() && GiftPoint() in txs[0].inputs;
    assert SpentBy(txs, 2, GiftPoint());
  }

  /** A block that spends an output and then sends again the transaction without
    * inputs that made it is not clean, and is undone all the same. */
  lemma SentAgainIsUndone()
    ensures Fold(Lenient(), Empty(), [Genesis([Gift()])]) == Ok(Gifted()) && FreshChain(Lenient(), Empty(), [Genesis([Gift()])])
    ensures var x := SpendThenGift();
            && ApplyBlock(Lenient(), Gifted(), x.header, x.body) == Ok(Doubled())
            && !Clean(Gifted().ledger, x.header, x.body)
            && DisconnectTip(Lenient(), Doubled(), x.header, x.body) == Ok(Gifted())
  {
    hide ApplyBlock, DisconnectTip, Fold, FreshChain, StateOk, Reversible, Clean;
    GiftChain();
    MixApplies(SpendThenGift(), [FilledSpend(), FilledGift()]);
    SpentFirstIsReversible();
    DisconnectRestoresIff(Lenient(), Gifted(), SpendThenGift().header, SpendThenGift().body);
  }

  lemma DoubledOverlaps()
    ensures !StateOk(Doubled())
  {
    assert GiftPoint() in Doubled().ledger.utxos && GiftPoint() in Doubled().ledger.stxos;
  }

  /** A block that sends it again first and then spends its output: the batched
    * connection leaves the output unspent as well as spent, the sequential one
    * does not. The state is no longer well formed. */
  lemma SentAgainIsBatchedOtherwise()
    ensures Fold(Lenient(), Empty(), [Genesis([Gift()])]) == Ok(Gifted()) && FreshChain(Lenient(), Empty(), [Genesis([Gift()])])
    ensures var x := GiftThenSpend();
            && ApplyBlock(Lenient(), Gifted(), x.header, x.body) == Ok(Doubled())
            && Connect(Lenient(), Gifted(), x.header, x.body) != Ok(Doubled())
    ensures StateOk(Gifted()) && !StateOk(Doubled())
  {
    hide ApplyBlock, Fold, FreshChain, CreatedUpTo, CreatedBy, Prevalidate, ConnectPrevalidated, Connect, Accumulate;
    GiftChain();
    var x, fs := GiftThenSpend(), [FilledGift(), FilledSpend()];
    MixApplies(x, fs);
    MixCreates(x, 1);
    var txs := x.body.transactions;
    assert txs[0] == Gift() && GiftPoint() in txs[1].inputs && !CreatedFrom(txs, 1, GiftPoint());
    assert SpendsCreated(x.header, x.body, 1, GiftPoint());
    DoubledOverlaps();
    BatchedEqualsSequentialIff(Lenient(), Gifted(), x.header, x.body);
  }

  /** Spending an output that the block created before is harmless when the block
    * creates it once more: the two connections agree. */
  lemma SentTwiceIsBatchedAlike()
    ensures var x := GiftSpendGift();
            && ApplyBlock(Lenient(), Gifted(), x.header, x.body) == Ok(Doubled())
            && Connect(Lenient(), Gifted(), x.header, x.body) == Ok(Doubled())
            && !NoForwardSpends(x.header, x.body)
  {
    hide ApplyBlock, CreatedUpTo, CreatedBy, Prevalidate, ConnectPrevalidated, Connect, Accumulate;
    var x, fs := GiftSpendGift(), [FilledGift(), FilledSpend(), FilledGift()];
    MixApplies(x, fs);
    MixCreates(x, 1);
    var txs := x.body.transactions;
    assert txs[0] == Gift() && txs[2] == Gift() && GiftPoint() in Elements(txs[1].inputs);
    assert CreatedFrom(txs, 1, GiftPoint());
    GiftIsValid(Gifted().ledger.utxos);
    assert Makes(FilledGift(), GiftPoint(), GiftOutput());
    assert SpendsRepeated(Gifted().ledger, x.header, x.body, fs);
    BatchedEqualsSequentialIff(Lenient(), Gifted(), x.header, x.body);
  }

  // ----- one name registered twice -----

  function Reserve(txid: Txid, commitment: Hash): Transaction {
    Transaction(txid, [], [Output(0, BitNameReservation, [])], Some(Reservation(commitment)))
  }

  function Reserved(txid: Txid, commitment: Hash): FilledOutput { FilledOutput(0, FilledReservation(txid, commitment), []) }

  /** The state after a first block with two reservations. */
  function TwoReservations(): State {
    State(Ledger(map[Regular(10, 0) := Reserved(10, 1), Regular(11, 0) := Reserved(11, 2)], map[],
                 Tables(map[], map[10 := 1, 11 := 2], map[])),
          Some(100), Some(0))
  }

  lemma ReserveIsValid(utxos: Utxos, txid: Txid, commitment: Hash)
    ensures var f := FilledTransaction(Reserve(txid, commitment), []);
            && Fill(utxos, f.tx) == Ok(f) && ValidateFilled(map[], f) == Ok(0)
            && FilledOutputs(f) == Some([Reserved(txid, commitment)])
  {
    var f := FilledTransaction(Reserve(txid, commitment), []);
    assert Fill(utxos, f.tx).value.spent == f.spent;
    assert f.tx.outputs[1..] == [] && SpentValues(f.spent) == [] && OutputValues(f.tx.outputs) == [0];
    assert [0][..0] == [] && Sum([0]) == 0;
    assert Claims(f.spent) == [] && OutputClaims(f) == [(txid, commitment)];
    assert FillFrom(f.tx.outputs[1..], OutputNames(f), OutputClaims(f)[1..]) == Some([]);
    assert [Reserved(txid, commitment)] + [] == [Reserved(txid, commitment)];
  }

  lemma ReserveAccumulates(l: Ledger, b: Batch, txid: Txid, commitment: Hash, height: nat)
    ensures AccumulateTx(l, b, FilledTransaction(Reserve(txid, commitment), []), height) ==
            Ok(b.(utxoPuts := b.utxoPuts[Regular(txid, 0) := Reserved(txid, commitment)],
                  tables := b.tables.(reservations := b.tables.reservations[txid := commitment])))
  {
    hide Fill, FilledOutputs;
    ReserveIsValid(l.utxos, txid, commitment);
    var out := Reserved(txid, commitment);
    assert OutputPuts(txid, [out]) == map[Regular(txid, 0) := out];
    assert b.utxoPuts + map[Regular(txid, 0) := out] == b.utxoPuts[Regular(txid, 0) := out];
    assert b.deletes + Elements(Reserve(txid, commitment).inputs) == b.deletes;
    assert b.stxoPuts + SpentPuts(txid, [], [], 0) == b.stxoPuts;
  }

  function ReserveBlock(): Block { Genesis([Reserve(10, 1), Reserve(11, 2)]) }

  lemma ReserveApplies()
    ensures ApplyBlock(Lenient(), Empty(), ReserveBlock().header, ReserveBlock().body) == Ok(TwoReservations())
  {
    hide Fill, ValidateFilled, AccumulateTx, Prevalidate;
    var g, txs := ReserveBlock(), ReserveBlock().body.transactions;
    var f, h := FilledTransaction(txs[0], []), FilledTransaction(txs[1], []);
    ReserveIsValid(map[], 10, 1);
    ReserveIsValid(map[], 11, 2);
    assert txs[..1] == [txs[0]] && txs[..1][..0] == [] && AllInputs(txs[..1]) == [] && AllInputs(txs) == [];
    Prevalidates(Empty(), g.header, txs, [], [f, h]);
    var l := Empty().ledger;
    var b0 := Batch({}, map[], CoinbasePuts(g.header, []), l.tables);
    assert b0.utxoPuts == map[];
    CollectsOne(l, b0, [], f, b0, 0);
    ReserveAccumulates(l, b0, 10, 1, 0);
    assert [] + [f] == [f] && [f] + [h] == [f, h];
    var b1 := AccumulateTx(l, b0, f, 0).value;
    CollectsOne(l, b0, [f], h, b1, 0);
    ReserveAccumulates(l, b1, 11, 2, 0);
    var b2 := AccumulateTx(l, b1, h, 0).value;
    assert l.utxos - b2.deletes + b2.utxoPuts == TwoReservations().ledger.utxos && l.stxos + b2.stxoPuts == map[];
  }

  lemma ReserveChain()
    ensures Fold(Lenient(), Empty(), [ReserveBlock()]) == Ok(TwoReservations())
    ensures FreshChain(Lenient(), Empty(), [ReserveBlock()])
    ensures StateOk(TwoReservations())
  {
    hide ApplyBlock, Fresh;
    ReserveApplies();
    GenesisIsFresh(ReserveBlock().body.transactions);
    OneBlock(Empty(), ReserveBlock(), TwoReservations());
    assert SeqsDense(TwoReservations().ledger.tables);
  }

  /** Burns one of the two reservations for name 7. */
  function RegisterSeven(txid: Txid, k: nat): Transaction {
    Transaction(txid, [Regular(10 + k, 0)], [Output(0, BitName, [])], Some(Registration(7, k + 1, NO_DATA)))
  }

  function FilledSeven(txid: Txid, k: nat): FilledTransaction {
    FilledTransaction(RegisterSeven(txid, k), [Reserved(10 + k, k + 1)])
  }

  function TwiceBlock(): Block { Second([RegisterSeven(20, 0), RegisterSeven(21, 1)], 2) }

  lemma SevenIsValid(txid: Txid, k: nat)
    requires k < 2
    ensures Fill(TwoReservations().ledger.utxos, RegisterSeven(txid, k)) == Ok(FilledSeven(txid, k))
    ensures ValidateFilled(map[], FilledSeven(txid, k)) == Ok(0)
    ensures Burned(FilledSeven(txid, k)) == Some(10 + k)
    ensures FilledOutputs(FilledSeven(txid, k)) == Some([FilledOutput(0, FilledName(7), [])])
  {
    var f := FilledSeven(txid, k);
    assert Fill(TwoReservations().ledger.utxos, f.tx).value.spent == f.spent;
    assert f.spent[1..] == [] && f.tx.outputs[1..] == [];
    assert Claims(f.spent) == [(10 + k, k + 1)];
    assert Names(f.spent) == [];
    assert SpentValues(f.spent) == [0] && OutputValues(f.tx.outputs) == [0];
    assert [0][..0] == [] && Sum([0]) == 0;
    assert OutputNames(f) == [7];
    assert FillFrom(f.tx.outputs[1..], OutputNames(f)[1..], OutputClaims(f)) == Some([]);
    assert [FilledOutput(0, FilledName(7), [])] + [] == [FilledOutput(0, FilledName(7), [])];
  }

  lemma SevenAccumulates(b: Batch, txid: Txid, k: nat)
    requires k < 2 && 10 + k in b.tables.reservations
    ensures var r := AccumulateTx(TwoReservations().ledger, b, FilledSeven(txid, k), 1);
            r.Ok? && r.value.tables.reservations == b.tables.reservations - {10 + k}
  {
    hide Fill, FilledOutputs, Burned, SpentPuts, OutputPuts, NextSeq;
    SevenIsValid(txid, k);
  }

  lemma TwiceIsValid()
    ensures var x := TwiceBlock();
            Prevalidate(Lenient(), TwoReservations(), x.header, x.body) ==
            Ok(Prevalidated([FilledSeven(20, 0), FilledSeven(21, 1)], 0, 0, 0, 1))
  {
    hide Prevalidate, Fill, ValidateFilled;
    var x := TwiceBlock();
    var txs := x.body.transactions;
    SevenIsValid(20, 0);
    SevenIsValid(21, 1);
    assert txs[..1] == [txs[0]] && txs[..1][..0] == [];
    assert AllInputs(txs[..1]) == [Regular(10, 0)] && AllInputs(txs) == [Regular(10, 0), Regular(11, 0)];
    Prevalidates(TwoReservations(), x.header, txs, x.body.authorizations, [FilledSeven(20, 0), FilledSeven(21, 1)]);
  }

  lemma TwiceConnects()
    ensures ApplyBlock(Lenient(), TwoReservations(), TwiceBlock().header, TwiceBlock().body).Ok?
  {
    hide Prevalidate, AccumulateTx, Accumulate, Fill, ValidateFilled;
    var x, l, f, h := TwiceBlock(), TwoReservations().ledger, FilledSeven(20, 0), FilledSeven(21, 1);
    TwiceIsValid();
    var b0 := Batch({}, map[], CoinbasePuts(x.header, []), l.tables);
    AccumulateNone(l, b0, [], 1);
    CollectsOne(l, b0, [], f, b0, 1);
    SevenAccumulates(b0, 20, 0);
    assert [] + [f] == [f] && [f] + [h] == [f, h];
    var b1 := AccumulateTx(l, b0, f, 1).value;
    assert 11 in b1.tables.reservations;
    CollectsOne(l, b0, [f], h, b1, 1);
    SevenAccumulates(b1, 21, 1);
  }

  /** Validation reads names only from before the block, so it accepts two
    * registrations of one name, which gets two numbers; the block cannot be
    * disconnected again. */
  lemma SameNameTwiceIsNotUndone()
    ensures Fold(Lenient(), Empty(), [ReserveBlock()]) == Ok(TwoReservations()) && FreshChain(Lenient(), Empty(), [ReserveBlock()])
    ensures var x := TwiceBlock();
            var r := ApplyBlock(Lenient(), TwoReservations(), x.header, x.body);
            r.Ok? && DisconnectTip(Lenient(), r.value, x.header, x.body) != Ok(TwoReservations()) && !SeqsDense(r.value.ledger.tables)
  {
    hide ApplyBlock, DisconnectTip, StateOk, CreatedOnce, Fold, FreshChain, CreatedBy;
    ReserveChain();
    TwiceConnects();
    var x := TwiceBlock();
    var txs := x.body.transactions;
    assert IsRegistration(txs[0]) && IsRegistration(txs[1]) && txs[0].data.value.name == txs[1].data.value.name;
    assert !NamesOnce(txs);
    BlockDenseIff(Lenient(), TwoReservations(), x.header, x.body);
    DisconnectRestoresIff(Lenient(), TwoReservations(), x.header, x.body);
  }
}
