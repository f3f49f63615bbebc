/** Transactions, outputs, headers and block bodies.
  * A hash that the node computes with a library (block hash, txid, coinbase
  * txid, the commitment a registration reveals) is a field of the hashed value. */
module Types {
  import opened Wrappers

  type Hash = nat
  type Txid = nat
  type NameHash = nat
  type Address = nat

  /** Largest representable number of satoshis (a 64-bit amount). */
  const AMOUNT_MAX: nat := 0xFFFF_FFFF_FFFF_FFFF

  datatype OutPoint =
    | Regular(txid: Txid, vout: nat)
    | Coinbase(txid: Hash, vout: nat)
    | Deposit(txid: Hash, vout: nat)

  datatype Content =
    | Bitcoin(value: nat)
    | BitName
    | BitNameReservation
    | Withdrawal(payout: nat, mainFee: nat, mainAddress: nat)

  datatype FilledContent =
    | FilledBitcoin(value: nat)
    | FilledWithdrawal(payout: nat, mainFee: nat, mainAddress: nat)
    | FilledName(name: NameHash)
    | FilledReservation(txid: Txid, commitment: Hash)

  datatype Output = Output(address: Address, content: Content, memo: seq<nat>)
  datatype FilledOutput = FilledOutput(address: Address, content: FilledContent, memo: seq<nat>)

  /** Where an output was spent: input `vin` of transaction `txid`. */
  datatype InPoint = InPoint(txid: Txid, vin: nat)
  datatype SpentOutput = SpentOutput(output: FilledOutput, inpoint: InPoint)

  datatype MutableData = MutableData(
    commitment: Option<nat>,
    socketV4: Option<nat>,
    socketV6: Option<nat>,
    encryptionKey: Option<nat>,
    signingKey: Option<nat>,
    paymailFee: Option<nat>)

  datatype Update<T> = Delete | Retain | Set(value: T)

  datatype DataUpdates = DataUpdates(
    commitment: Update<nat>,
    socketV4: Update<nat>,
    socketV6: Update<nat>,
    encryptionKey: Update<nat>,
    signingKey: Update<nat>,
    paymailFee: Update<nat>)

  datatype TxData =
    | Reservation(commitment: Hash)
      // `implied` is the keyed hash of the name under the revealed nonce
    | Registration(name: NameHash, implied: Hash, data: MutableData)
    | DataUpdate(updates: DataUpdates)

  datatype Transaction = Transaction(
    txid: Txid,
    inputs: seq<OutPoint>,
    outputs: seq<Output>,
    data: Option<TxData>)

  /** A transaction with the outputs that its inputs spend. */
  datatype FilledTransaction = FilledTransaction(tx: Transaction, spent: seq<FilledOutput>)

  datatype Authorization = Authorization(verifyingKey: nat, signature: nat)
  datatype AuthorizedTransaction = AuthorizedTransaction(tx: Transaction, authorizations: seq<Authorization>)

  datatype Header = Header(
    hash: Hash,
    coinbaseTxid: Hash,
    merkleRoot: Hash,
    prevSide: Option<Hash>,
    prevMain: Hash)

  datatype Body = Body(
    coinbase: seq<Output>,
    transactions: seq<Transaction>,
    authorizations: seq<Authorization>)

  datatype Block = Block(header: Header, body: Body)

  function CheckedAdd(a: nat, b: nat): Option<nat> {
    if a + b <= AMOUNT_MAX then Some(a + b) else None
  }

  /** Satoshis that an output holds; a withdrawal holds its payout and its mainchain fee. */
  function Value(c: Content): nat {
    match c
    case Bitcoin(v) => v
    case Withdrawal(p, f, _) => if p + f <= AMOUNT_MAX then p + f else AMOUNT_MAX
    case _ => 0
  }

  function FilledValue(c: FilledContent): nat {
    match c
    case FilledBitcoin(v) => v
    case FilledWithdrawal(p, f, a) => Value(Withdrawal(p, f, a))
    case _ => 0
  }

  predicate Distinct<T(==)>(s: seq<T>) {
    forall i, j :: 0 <= i < j < |s| ==> s[i] != s[j]
  }

  function Elements<T(==)>(s: seq<T>): set<T> {
    set x | x in s
  }

  lemma ElementsConcat<T>(a: seq<T>, b: seq<T>)
    ensures Elements(a + b) == Elements(a) + Elements(b)
  {
  }

  lemma DistinctConcat<T>(a: seq<T>, b: seq<T>)
    ensures Distinct(a + b) <==> Distinct(a) && Distinct(b) && Elements(a) !! Elements(b)
  {
    var c := a + b;
    assert forall i :: 0 <= i < |b| ==> c[|a| + i] == b[i];
    if Distinct(c) {
      assert Distinct(a) by { assert forall i :: 0 <= i < |a| ==> c[i] == a[i]; }
      forall i, j | 0 <= i < j < |b| ensures b[i] != b[j] { assert c[|a| + i] != c[|a| + j]; }
      forall i, j | 0 <= i < |a| && 0 <= j < |b| ensures a[i] != b[j] { assert c[i] != c[|a| + j]; }
      assert forall x :: x in Elements(a) ==> x !in Elements(b);
    }
    if Distinct(a) && Distinct(b) && Elements(a) !! Elements(b) {
      forall i, j | 0 <= i < j < |c| ensures c[i] != c[j] {
        if i < |a| <= j { assert c[i] in Elements(a) && c[j] in Elements(b); }
      }
    }
  }
}
