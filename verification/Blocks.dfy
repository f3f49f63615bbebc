/** Validating, connecting and disconnecting blocks, as functions of the state. */
module Blocks {
  import opened Wrappers
  import opened Types
  import opened Filling
  import opened BitNames

  type Utxos = map<OutPoint, FilledOutput>
  type Stxos = map<OutPoint, SpentOutput>

  /** What transactions read and change. */
  datatype Ledger = Ledger(utxos: Utxos, stxos: Stxos, tables: Tables)

  datatype State = State(ledger: Ledger, tip: Option<Hash>, height: Option<nat>)

  /** Library computations, taken as given functions. */
  datatype Crypto = Crypto(
    merkle: (seq<Output>, seq<FilledTransaction>) -> Option<Hash>,
    address: nat -> Address,
    verify: (Authorization, Transaction) -> bool,
    bodySize: Body -> nat)

  const MAX_BODY_SIZE: nat := 8 * 1024 * 1024

  datatype Error =
    | BodyTooLarge | BadPrevSideHash | BadBlockHash | NoTip
    | NoUtxo | NoStxo | DoubleSpent | AmountOverflow | Underfunded | NotEnoughFees
    | MerkleFailed | InvalidBody | BadCoinbaseOutput | FillOutputsFailed
    | UnbalancedReservations | UnbalancedNames | AlreadyRegistered(name: NameHash) | SpendsWithdrawal
    | WrongNumberOfAuthorizations | WrongPubKeyForAddress | AuthorizationFailed
    | NameError(nameError: BitNameError)
    | AssertionViolated

  function LiftName<T>(r: Result<T, BitNameError>): Result<T, Error> {
    match r
    case Ok(v) => Ok(v)
    case Err(e) => Err(NameError(e))
  }

  function NextHeight(st: State): nat {
    match st.height
    case None => 0
    case Some(h) => h + 1
  }

  // ----- spending and creating outputs -----

  function Fill(utxos: Utxos, tx: Transaction): Result<FilledTransaction, Error> {
    if forall i :: 0 <= i < |tx.inputs| ==> tx.inputs[i] in utxos
    then Ok(FilledTransaction(tx, seq(|tx.inputs|, i requires 0 <= i < |tx.inputs| => utxos[tx.inputs[i]])))
    else Err(NoUtxo)
  }

  function FillAll(utxos: Utxos, txs: seq<Transaction>): Result<seq<FilledTransaction>, Error> {
    if txs == [] then Ok([]) else
    var fs :- FillAll(utxos, txs[..|txs| - 1]);
    var f :- Fill(utxos, txs[|txs| - 1]);
    Ok(fs + [f])
  }

  /** Spent rows for the first `n` inputs. */
  function SpentPuts(txid: Txid, inputs: seq<OutPoint>, spent: seq<FilledOutput>, n: nat): Stxos
    requires n <= |inputs| == |spent|
  {
    if n == 0 then map[]
    else SpentPuts(txid, inputs, spent, n - 1)[inputs[n - 1] := SpentOutput(spent[n - 1], InPoint(txid, n - 1))]
  }

  function OutputPuts(txid: Txid, outs: seq<FilledOutput>): Utxos {
    map i: nat | 0 <= i < |outs| :: Regular(txid, i) := outs[i]
  }

  function CreatedBy(tx: Transaction): set<OutPoint> {
    set i: nat | 0 <= i < |tx.outputs| :: Regular(tx.txid, i)
  }

  function CoinbaseCreated(header: Header, body: Body): set<OutPoint> {
    set i: nat | 0 <= i < |body.coinbase| :: Coinbase(header.coinbaseTxid, i)
  }

  function CoinbaseOutputs(outputs: seq<Output>): Result<seq<FilledOutput>, Error> {
    if outputs == [] then Ok([]) else
    var rest :- CoinbaseOutputs(outputs[..|outputs| - 1]);
    var o := outputs[|outputs| - 1];
    match o.content
    case Bitcoin(v) => Ok(rest + [FilledOutput(o.address, FilledBitcoin(v), o.memo)])
    case Withdrawal(p, f, a) => Ok(rest + [FilledOutput(o.address, FilledWithdrawal(p, f, a), o.memo)])
    case _ => Err(BadCoinbaseOutput)
  }

  function CoinbasePuts(header: Header, outs: seq<FilledOutput>): Utxos {
    map i: nat | 0 <= i < |outs| :: Coinbase(header.coinbaseTxid, i) := outs[i]
  }

  // ----- sequential connection -----

  function ConnectTx(l: Ledger, tx: Transaction, height: nat): Result<(Ledger, FilledTransaction), Error> {
    var f :- Fill(l.utxos, tx);
    if !Distinct(tx.inputs) then Err(NoUtxo) else
    match FilledOutputs(f)
    case None => Err(FillOutputsFailed)
    case Some(outs) =>
      var tables :- LiftName(ApplyData(l.tables, f, height));
      Ok((Ledger(l.utxos - Elements(tx.inputs) + OutputPuts(tx.txid, outs),
                 l.stxos + SpentPuts(tx.txid, tx.inputs, f.spent, |tx.inputs|),
                 tables), f))
  }

  function ConnectTxs(l: Ledger, txs: seq<Transaction>, height: nat): Result<(Ledger, seq<FilledTransaction>), Error> {
    if txs == [] then Ok((l, [])) else
    var (l1, fs) :- ConnectTxs(l, txs[..|txs| - 1], height);
    var (l2, f) :- ConnectTx(l1, txs[|txs| - 1], height);
    Ok((l2, fs + [f]))
  }

  function Connect(cr: Crypto, st: State, header: Header, body: Body): Result<State, Error> {
    if st.tip != header.prevSide then Err(BadPrevSideHash) else
    var outs :- CoinbaseOutputs(body.coinbase);
    var height := NextHeight(st);
    var l := st.ledger.(utxos := st.ledger.utxos + CoinbasePuts(header, outs));
    var (l1, fs) :- ConnectTxs(l, body.transactions, height);
    match cr.merkle(body.coinbase, fs)
    case None => Err(MerkleFailed)
    case Some(root) =>
      if root != header.merkleRoot then Err(InvalidBody)
      else Ok(State(l1, Some(header.hash), Some(height)))
  }

  // ----- batched connection -----

  /** Mutations collected while walking the transactions of a block. */
  datatype Batch = Batch(deletes: set<OutPoint>, stxoPuts: Stxos, utxoPuts: Utxos, tables: Tables)

  function AccumulateTx(l: Ledger, b: Batch, f: FilledTransaction, height: nat): Result<Batch, Error> {
    var g :- Fill(l.utxos, f.tx);
    match FilledOutputs(f)
    case None => Err(FillOutputsFailed)
    case Some(outs) =>
      var tables :- LiftName(ApplyData(b.tables, f, height));
      Ok(Batch(b.deletes + Elements(f.tx.inputs),
               b.stxoPuts + SpentPuts(f.tx.txid, f.tx.inputs, g.spent, |f.tx.inputs|),
               b.utxoPuts + OutputPuts(f.tx.txid, outs),
               tables))
  }

  function Accumulate(l: Ledger, b: Batch, fs: seq<FilledTransaction>, height: nat): Result<Batch, Error> {
    if fs == [] then Ok(b) else
    var b1 :- Accumulate(l, b, fs[..|fs| - 1], height);
    AccumulateTx(l, b1, fs[|fs| - 1], height)
  }

  datatype Prevalidated = Prevalidated(
    filled: seq<FilledTransaction>,
    merkleRoot: Hash,
    totalFees: nat,
    coinbaseValue: nat,
    nextHeight: nat)

  function ConnectPrevalidated(st: State, header: Header, body: Body, pre: Prevalidated): Result<State, Error> {
    var outs :- CoinbaseOutputs(body.coinbase);
    var l := st.ledger;
    var b :- Accumulate(l, Batch({}, map[], CoinbasePuts(header, outs), l.tables), pre.filled, pre.nextHeight);
    Ok(State(Ledger(l.utxos - b.deletes + b.utxoPuts, l.stxos + b.stxoPuts, b.tables),
             Some(header.hash), Some(pre.nextHeight)))
  }

  // ----- disconnection -----

  function SpentFrom(stxos: Stxos, txid: Txid, inputs: seq<OutPoint>): Result<seq<FilledOutput>, Error> {
    if inputs == [] then Ok([]) else
    var last := inputs[|inputs| - 1];
    if last !in stxos then Err(NoStxo)
    else if stxos[last].inpoint != InPoint(txid, |inputs| - 1) then Err(AssertionViolated)
    else
      var rest :- SpentFrom(stxos, txid, inputs[..|inputs| - 1]);
      Ok(rest + [stxos[last].output])
  }

  function UndoTx(l: Ledger, tx: Transaction, height: nat): Result<(Ledger, FilledTransaction), Error> {
    var spent :- SpentFrom(l.stxos, tx.txid, tx.inputs);
    var f := FilledTransaction(tx, spent);
    var tables :- LiftName(RevertData(l.tables, f, height));
    if !(CreatedBy(tx) <= l.utxos.Keys) then Err(NoUtxo)
    else if !(Distinct(tx.inputs) && Elements(tx.inputs) <= l.stxos.Keys) then Err(NoStxo)
    else Ok((Ledger(l.utxos - CreatedBy(tx) + (map o | o in Elements(tx.inputs) :: l.stxos[o].output),
                    l.stxos - Elements(tx.inputs),
                    tables), f))
  }

  function UndoTxs(l: Ledger, txs: seq<Transaction>, height: nat): Result<(Ledger, seq<FilledTransaction>), Error>
    decreases |txs|
  {
    if txs == [] then Ok((l, [])) else
    var (l1, f) :- UndoTx(l, txs[|txs| - 1], height);
    var (l2, fs) :- UndoTxs(l1, txs[..|txs| - 1], height);
    Ok((l2, fs + [f]))
  }

  function DisconnectTip(cr: Crypto, st: State, header: Header, body: Body): Result<State, Error> {
    if st.tip.None? then Err(NoTip)
    else if st.tip.value != header.hash then Err(BadBlockHash)
    else if st.height.None? then Err(AssertionViolated)
    else
      var (l, fs) :- UndoTxs(st.ledger, body.transactions, st.height.value);
      if !(CoinbaseCreated(header, body) <= l.utxos.Keys) then Err(NoUtxo) else
      match cr.merkle(body.coinbase, fs)
      case None => Err(MerkleFailed)
      case Some(root) =>
        if root != header.merkleRoot then Err(InvalidBody)
        else if header.prevSide.None? != (st.height.value == 0) then Err(NoTip)
        else Ok(State(l.(utxos := l.utxos - CoinbaseCreated(header, body)),
                      header.prevSide,
                      if st.height.value == 0 then None else Some(st.height.value - 1)))
  }

  // ----- validation -----

  function Sum(s: seq<nat>): nat {
    if s == [] then 0 else Sum(s[..|s| - 1]) + s[|s| - 1]
  }

  function OutputValues(outputs: seq<Output>): seq<nat> {
    seq(|outputs|, i requires 0 <= i < |outputs| => Value(outputs[i].content))
  }

  function SpentValues(spent: seq<FilledOutput>): seq<nat> {
    seq(|spent|, i requires 0 <= i < |spent| => FilledValue(spent[i].content))
  }

  /** Inputs minus outputs, with every sum checked for overflow. */
  function Fee(f: FilledTransaction): Result<nat, Error> {
    var spent, out := Sum(SpentValues(f.spent)), Sum(OutputValues(f.tx.outputs));
    if spent > AMOUNT_MAX || out > AMOUNT_MAX then Err(AmountOverflow)
    else if spent < out then Err(Underfunded)
    else Ok(spent - out)
  }

  predicate IsReservation(tx: Transaction) { tx.data.Some? && tx.data.value.Reservation? }
  predicate IsRegistration(tx: Transaction) { tx.data.Some? && tx.data.value.Registration? }
  predicate IsUpdate(tx: Transaction) { tx.data.Some? && tx.data.value.DataUpdate? }

  predicate ReservationsBalance(f: FilledTransaction) {
    var n, m := |Claims(f.spent)|, CountContent(f.tx.outputs, BitNameReservation);
    if IsReservation(f.tx) then m == n + 1
    else if IsRegistration(f.tx) then n == m + 1
    else n == m
  }

  function CheckNames(records: map<NameHash, Record>, f: FilledTransaction): Result<(), Error> {
    var n, m := |Names(f.spent)|, CountContent(f.tx.outputs, BitName);
    if IsUpdate(f.tx) && (n < 1 || m < 1) then Err(NameError(NoNamesToUpdate))
    else if IsRegistration(f.tx) then
      var name := f.tx.data.value.name;
      if name in records then Err(AlreadyRegistered(name))
      else if Burned(f).None? then Err(NameError(NoReservationForRegistration(name)))
      else if m == n + 1 then Ok(()) else Err(UnbalancedNames)
    else if m == n then Ok(()) else Err(UnbalancedNames)
  }

  /** Checks one filled transaction and returns its fee. */
  function ValidateFilled(records: map<NameHash, Record>, f: FilledTransaction): Result<nat, Error> {
    if !ReservationsBalance(f) then Err(UnbalancedReservations) else
    var _ :- CheckNames(records, f);
    if exists i :: 0 <= i < |f.spent| && f.spent[i].content.FilledWithdrawal? then Err(SpendsWithdrawal)
    else Fee(f)
  }

  function ValidateAll(records: map<NameHash, Record>, fs: seq<FilledTransaction>): Result<nat, Error> {
    if fs == [] then Ok(0) else
    var total :- ValidateAll(records, fs[..|fs| - 1]);
    var fee :- ValidateFilled(records, fs[|fs| - 1]);
    if total + fee > AMOUNT_MAX then Err(AmountOverflow) else Ok(total + fee)
  }

  function AllInputs(txs: seq<Transaction>): seq<OutPoint> {
    if txs == [] then [] else AllInputs(txs[..|txs| - 1]) + txs[|txs| - 1].inputs
  }

  function AllSpent(fs: seq<FilledTransaction>): seq<FilledOutput> {
    if fs == [] then [] else AllSpent(fs[..|fs| - 1]) + fs[|fs| - 1].spent
  }

  /** The transaction that each input, in block order, belongs to. */
  function InputOwners(txs: seq<Transaction>): seq<Transaction> {
    if txs == [] then []
    else InputOwners(txs[..|txs| - 1]) + seq(|txs[|txs| - 1].inputs|, _ => txs[|txs| - 1])
  }

  /** One authorization per input, each signing the transaction of its input. */
  predicate Authorized(cr: Crypto, body: Body) {
    var owners := InputOwners(body.transactions);
    && |body.authorizations| == |owners|
    && forall k :: 0 <= k < |owners| ==> cr.verify(body.authorizations[k], owners[k])
  }

  function Prevalidate(cr: Crypto, st: State, header: Header, body: Body): Result<Prevalidated, Error> {
    if cr.bodySize(body) > MAX_BODY_SIZE then Err(BodyTooLarge)
    else if header.prevSide != st.tip then Err(BadPrevSideHash)
    else if Sum(OutputValues(body.coinbase)) > AMOUNT_MAX then Err(AmountOverflow)
    else
      var fs :- FillAll(st.ledger.utxos, body.transactions);
      if !Distinct(AllInputs(body.transactions)) then Err(DoubleSpent) else
      var fees :- ValidateAll(st.ledger.tables.records, fs);
      if Sum(OutputValues(body.coinbase)) > fees then Err(NotEnoughFees) else
      match cr.merkle(body.coinbase, fs)
      case None => Err(MerkleFailed)
      case Some(root) =>
        var spent := AllSpent(fs);
        if root != header.merkleRoot then Err(InvalidBody)
        else if |body.authorizations| != |spent| then Err(WrongNumberOfAuthorizations)
        else if exists k :: 0 <= k < |spent| && cr.address(body.authorizations[k].verifyingKey) != spent[k].address
          then Err(WrongPubKeyForAddress)
        else if !Authorized(cr, body) then Err(AuthorizationFailed)
        else Ok(Prevalidated(fs, root, fees, Sum(OutputValues(body.coinbase)), NextHeight(st)))
  }

  function ApplyBlock(cr: Crypto, st: State, header: Header, body: Body): Result<State, Error> {
    var pre :- Prevalidate(cr, st, header, body);
    ConnectPrevalidated(st, header, body, pre)
  }
}
