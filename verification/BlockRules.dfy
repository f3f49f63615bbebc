/** What makes a block valid, told from its header, its body and the unspent
  * outputs and registered names that it meets. */
module BlockRules {
  import opened Wrappers
  import opened Types
  import opened Filling
  import opened BitNames
  import opened Blocks
  import opened BatchedConnect
  import opened DisconnectUndo
  import opened Signatures
  import opened ValidBlocks

  // ----- the rules -----

  ghost predicate HoldsName(utxos: Utxos, o: OutPoint) {
    o in utxos && utxos[o].content.FilledName?
  }

  ghost predicate HoldsReservation(utxos: Utxos, o: OutPoint) {
    o in utxos && utxos[o].content.FilledReservation?
  }

  ghost function NameInputs(utxos: Utxos, tx: Transaction): set<nat> {
    set i: nat | i < |tx.inputs| && HoldsName(utxos, tx.inputs[i])
  }

  ghost function ReservationInputs(utxos: Utxos, tx: Transaction): set<nat> {
    set i: nat | i < |tx.inputs| && HoldsReservation(utxos, tx.inputs[i])
  }

  ghost function OutputsOf(tx: Transaction, c: Content): set<nat> { PlacesOf(tx.outputs, c) }

  ghost function PlacesOf(outputs: seq<Output>, c: Content): set<nat> {
    set i: nat | i < |outputs| && outputs[i].content == c
  }

  /** Every input is unspent, and none is a withdrawal. */
  ghost predicate InputsSpendable(utxos: Utxos, tx: Transaction) {
    forall i :: 0 <= i < |tx.inputs| ==> tx.inputs[i] in utxos && !utxos[tx.inputs[i]].content.FilledWithdrawal?
  }

  /** Only a reservation makes a reservation, and only a registration uses one up. */
  ghost predicate ReservationsKept(utxos: Utxos, tx: Transaction) {
    |ReservationInputs(utxos, tx)| + (if IsReservation(tx) then 1 else 0)
    == |OutputsOf(tx, BitNameReservation)| + (if IsRegistration(tx) then 1 else 0)
  }

  /** Only a registration makes a name. */
  ghost predicate NamesKept(utxos: Utxos, tx: Transaction) {
    |NameInputs(utxos, tx)| + (if IsRegistration(tx) then 1 else 0) == |OutputsOf(tx, BitName)|
  }

  /** A registration names a new name, and spends a reservation of it. */
  ghost predicate RegistersNew(utxos: Utxos, records: map<NameHash, Record>, tx: Transaction) {
    IsRegistration(tx) ==>
      && tx.data.value.name !in records
      && exists i :: 0 <= i < |tx.inputs| && HoldsReservation(utxos, tx.inputs[i]) &&
                     utxos[tx.inputs[i]].content.commitment == tx.data.value.implied
  }

  /** An update spends a name. */
  ghost predicate UpdatesSome(utxos: Utxos, tx: Transaction) {
    IsUpdate(tx) ==> exists i :: 0 <= i < |tx.inputs| && HoldsName(utxos, tx.inputs[i])
  }

  ghost function InputValue(utxos: Utxos, tx: Transaction): nat {
    Sum(seq(|tx.inputs|, i requires 0 <= i < |tx.inputs| =>
      if tx.inputs[i] in utxos then FilledValue(utxos[tx.inputs[i]].content) else 0))
  }

  ghost function OutputValue(outputs: seq<Output>): nat {
    Sum(OutputValues(outputs))
  }

  ghost predicate ValidTransaction(utxos: Utxos, records: map<NameHash, Record>, tx: Transaction) {
    && InputsSpendable(utxos, tx)
    && ReservationsKept(utxos, tx) && NamesKept(utxos, tx)
    && RegistersNew(utxos, records, tx) && UpdatesSome(utxos, tx)
    && OutputValue(tx.outputs) <= InputValue(utxos, tx) <= AMOUNT_MAX
  }

  /** The fees of the first `n` transactions. */
  ghost function FeesOf(utxos: Utxos, txs: seq<Transaction>, n: nat): int
    requires n <= |txs|
  {
    if n == 0 then 0
    else FeesOf(utxos, txs, n - 1) + InputValue(utxos, txs[n - 1]) - OutputValue(txs[n - 1].outputs)
  }

  ghost predicate NoInputTwice(txs: seq<Transaction>) {
    forall m: nat, i: nat, n: nat, j: nat ::
      m < |txs| && i < |txs[m].inputs| && n < |txs| && j < |txs[n].inputs| && txs[m].inputs[i] == txs[n].inputs[j] ==>
        m == n && i == j
  }

  /** Authorization `a` lets transaction `tx` spend `o`: it signs the transaction with
    * the key that the output is addressed to. */
  ghost predicate SignedByOwner(cr: Crypto, utxos: Utxos, tx: Transaction, o: OutPoint, a: Authorization) {
    o in utxos && cr.address(a.verifyingKey) == utxos[o].address && cr.verify(a, tx)
  }

  /** Input `i` of transaction `n` has its own authorization: the one after those of
    * all earlier inputs. */
  ghost predicate InputSigned(cr: Crypto, utxos: Utxos, body: Body, n: nat, i: nat)
    requires n < |body.transactions| && i < |body.transactions[n].inputs|
  {
    var tx, k := body.transactions[n], InputsBefore(body.transactions, n) + i;
    k < |body.authorizations| && SignedByOwner(cr, utxos, tx, tx.inputs[i], body.authorizations[k])
  }

  /** Every input is signed for, and there are no other authorizations. */
  ghost predicate AllSigned(cr: Crypto, utxos: Utxos, body: Body) {
    && |body.authorizations| == InputsBefore(body.transactions, |body.transactions|)
    && forall n: nat, i: nat :: n < |body.transactions| && i < |body.transactions[n].inputs| ==>
         InputSigned(cr, utxos, body, n, i)
  }

  /** The transactions with the outputs that they spend. */
  ghost function FilledFrom(utxos: Utxos, txs: seq<Transaction>): seq<FilledTransaction>
    requires forall n :: 0 <= n < |txs| ==> InputsSpendable(utxos, txs[n])
  {
    seq(|txs|, n requires 0 <= n < |txs| =>
      FilledTransaction(txs[n], seq(|txs[n].inputs|, i requires 0 <= i < |txs[n].inputs| =>
        assert InputsSpendable(utxos, txs[n]); utxos[txs[n].inputs[i]])))
  }

  ghost predicate ValidBlock(cr: Crypto, st: State, header: Header, body: Body) {
    var utxos, txs := st.ledger.utxos, body.transactions;
    && cr.bodySize(body) <= 8388608
    && header.prevSide == st.tip
    && (forall n :: 0 <= n < |txs| ==> ValidTransaction(utxos, st.ledger.tables.records, txs[n]))
    && NoInputTwice(txs)
    && OutputValue(body.coinbase) <= FeesOf(utxos, txs, |txs|) <= AMOUNT_MAX
    && cr.merkle(body.coinbase, FilledFrom(utxos, txs)) == Some(header.merkleRoot)
    && AllSigned(cr, utxos, body)
  }

  // ----- one transaction -----

  lemma CountOne(a: set<nat>, b: set<nat>, n: nat, more: bool)
    requires b == a + (if more then {n} else {}) && n !in a
    ensures |b| == |a| + (if more then 1 else 0)
  {
  }

  lemma {:induction false} NamesLast(outs: seq<FilledOutput>)
    ensures outs == [] ==> Names(outs) == []
    ensures outs != [] ==>
            var n := |outs| - 1;
            Names(outs) == Names(outs[..n]) + (if outs[n].content.FilledName? then [outs[n].content.name] else [])
  {
    if |outs| > 1 {
      NamesLast(outs[1..]);
      assert outs[1..][..|outs| - 2] == outs[..|outs| - 1][1..];
    }
  }

  lemma {:induction false} ClaimsLast(outs: seq<FilledOutput>)
    ensures outs == [] ==> Claims(outs) == []
    ensures outs != [] ==>
            var n := |outs| - 1;
            Claims(outs) == Claims(outs[..n]) +
                            (if outs[n].content.FilledReservation? then [(outs[n].content.txid, outs[n].content.commitment)] else [])
  {
    if |outs| > 1 {
      ClaimsLast(outs[1..]);
      assert outs[1..][..|outs| - 2] == outs[..|outs| - 1][1..];
    }
  }

  lemma {:induction false} CountLast(outputs: seq<Output>, c: Content)
    ensures outputs == [] ==> CountContent(outputs, c) == 0
    ensures outputs != [] ==>
            var n := |outputs| - 1;
            CountContent(outputs, c) == CountContent(outputs[..n], c) + (if outputs[n].content == c then 1 else 0)
  {
    if |outputs| > 1 {
      CountLast(outputs[1..], c);
      assert outputs[1..][..|outputs| - 2] == outputs[..|outputs| - 1][1..];
    }
  }

  ghost function NamePlaces(outs: seq<FilledOutput>): set<nat> {
    set i: nat | i < |outs| && outs[i].content.FilledName?
  }

  ghost function ClaimPlaces(outs: seq<FilledOutput>): set<nat> {
    set i: nat | i < |outs| && outs[i].content.FilledReservation?
  }

  lemma NamePlacesLast(outs: seq<FilledOutput>)
    ensures NamePlaces([]) == {}
    ensures outs != [] ==>
              var n := |outs| - 1;
              |NamePlaces(outs)| == |NamePlaces(outs[..n])| + (if outs[n].content.FilledName? then 1 else 0)
  {
    if outs != [] {
      var n := |outs| - 1;
      assert forall i :: 0 <= i < n ==> outs[..n][i] == outs[i];
      CountOne(NamePlaces(outs[..n]), NamePlaces(outs), n, outs[n].content.FilledName?);
    }
  }

  lemma ClaimPlacesLast(outs: seq<FilledOutput>)
    ensures ClaimPlaces([]) == {}
    ensures outs != [] ==>
              var n := |outs| - 1;
              |ClaimPlaces(outs)| == |ClaimPlaces(outs[..n])| + (if outs[n].content.FilledReservation? then 1 else 0)
  {
    if outs != [] {
      var n := |outs| - 1;
      assert forall i :: 0 <= i < n ==> outs[..n][i] == outs[i];
      CountOne(ClaimPlaces(outs[..n]), ClaimPlaces(outs), n, outs[n].content.FilledReservation?);
    }
  }

  lemma PlacesLast(outputs: seq<Output>, c: Content)
    ensures PlacesOf([], c) == {}
    ensures outputs != [] ==>
              var n := |outputs| - 1;
              |PlacesOf(outputs, c)| == |PlacesOf(outputs[..n], c)| + (if outputs[n].content == c then 1 else 0)
  {
    if outputs != [] {
      var n := |outputs| - 1;
      assert forall i :: 0 <= i < n ==> outputs[..n][i] == outputs[i];
      CountOne(PlacesOf(outputs[..n], c), PlacesOf(outputs, c), n, outputs[n].content == c);
    }
  }

  lemma {:induction false} NamesCounted(outs: seq<FilledOutput>)
    ensures |Names(outs)| == |NamePlaces(outs)|
    decreases |outs|
  {
    hide Names, NamePlaces;
    NamesLast(outs);
    NamePlacesLast(outs);
    if outs != [] { NamesCounted(outs[..|outs| - 1]); }
  }

  lemma {:induction false} ClaimsCounted(outs: seq<FilledOutput>)
    ensures |Claims(outs)| == |ClaimPlaces(outs)|
    decreases |outs|
  {
    hide Claims, ClaimPlaces;
    ClaimsLast(outs);
    ClaimPlacesLast(outs);
    if outs != [] { ClaimsCounted(outs[..|outs| - 1]); }
  }

  lemma {:induction false} ContentCounted(outputs: seq<Output>, c: Content)
    ensures CountContent(outputs, c) == |PlacesOf(outputs, c)|
    decreases |outputs|
  {
    hide CountContent, PlacesOf;
    CountLast(outputs, c);
    PlacesLast(outputs, c);
    if outputs != [] { ContentCounted(outputs[..|outputs| - 1], c); }
  }

  /** The counts that validation takes are numbers of inputs and outputs. */
  lemma CountsOf(utxos: Utxos, f: FilledTransaction)
    requires Fill(utxos, f.tx) == Ok(f)
    ensures |Names(f.spent)| == |NameInputs(utxos, f.tx)|
    ensures |Claims(f.spent)| == |ReservationInputs(utxos, f.tx)|
    ensures CountContent(f.tx.outputs, BitName) == |OutputsOf(f.tx, BitName)|
    ensures CountContent(f.tx.outputs, BitNameReservation) == |OutputsOf(f.tx, BitNameReservation)|
  {
    hide Fill, Names, Claims, CountContent;
    FillFacts(utxos, f.tx);
    NamesCounted(f.spent);
    ClaimsCounted(f.spent);
    ContentCounted(f.tx.outputs, BitName);
    ContentCounted(f.tx.outputs, BitNameReservation);
    assert NameInputs(utxos, f.tx) == NamePlaces(f.spent);
    assert ReservationInputs(utxos, f.tx) == ClaimPlaces(f.spent);
  }

  lemma ValuesOf(utxos: Utxos, f: FilledTransaction)
    requires Fill(utxos, f.tx) == Ok(f)
    ensures Sum(SpentValues(f.spent)) == InputValue(utxos, f.tx)
  {
    hide Fill;
    FillFacts(utxos, f.tx);
    assert SpentValues(f.spent) == seq(|f.tx.inputs|, i requires 0 <= i < |f.tx.inputs| =>
      if f.tx.inputs[i] in utxos then FilledValue(utxos[f.tx.inputs[i]].content) else 0);
  }

  /** A registration finds a reservation to burn exactly when an input holds one of
    * its commitment. */
  lemma BurnsOne(utxos: Utxos, f: FilledTransaction)
    requires Fill(utxos, f.tx) == Ok(f) && IsRegistration(f.tx)
    ensures Burned(f).Some? <==>
            exists i :: 0 <= i < |f.tx.inputs| && HoldsReservation(utxos, f.tx.inputs[i]) &&
                        utxos[f.tx.inputs[i]].content.commitment == f.tx.data.value.implied
  {
    hide Fill;
    FillFacts(utxos, f.tx);
    var c := f.tx.data.value.implied;
    FirstClaimFacts(Claims(f.spent), c);
    if Burned(f).Some? {
      ClaimMember(f.spent, Burned(f).value, c);
      var i :| 0 <= i < |f.spent| && f.spent[i].content == FilledReservation(Burned(f).value, c);
      assert HoldsReservation(utxos, f.tx.inputs[i]);
    }
    if i :| 0 <= i < |f.tx.inputs| && HoldsReservation(utxos, f.tx.inputs[i]) && utxos[f.tx.inputs[i]].content.commitment == c {
      var r := utxos[f.tx.inputs[i]].content.txid;
      assert f.spent[i].content == FilledReservation(r, c);
      ClaimMember(f.spent, r, c);
      assert (r, c) in Claims(f.spent);
    }
  }

  lemma NamesSpent(utxos: Utxos, tx: Transaction)
    ensures |NameInputs(utxos, tx)| >= 1 <==> exists i :: 0 <= i < |tx.inputs| && HoldsName(utxos, tx.inputs[i])
  {
    if |NameInputs(utxos, tx)| >= 1 {
      var i :| i in NameInputs(utxos, tx);
      assert HoldsName(utxos, tx.inputs[i]);
    }
    if i :| 0 <= i < |tx.inputs| && HoldsName(utxos, tx.inputs[i]) { assert i in NameInputs(utxos, tx); }
  }

  /** Validation of a filled transaction accepts exactly the valid ones, and returns
    * what their inputs hold beyond their outputs. */
  lemma ValidateIff(utxos: Utxos, records: map<NameHash, Record>, f: FilledTransaction)
    requires Fill(utxos, f.tx) == Ok(f)
    ensures ValidateFilled(records, f).Ok? <==> ValidTransaction(utxos, records, f.tx)
    ensures ValidateFilled(records, f).Ok? ==>
              ValidateFilled(records, f).value == InputValue(utxos, f.tx) - OutputValue(f.tx.outputs)
  {
    hide Fill, Names, Claims, CountContent, Burned, Sum, SpentValues, OutputValues, InputValue,
         NameInputs, ReservationInputs, OutputsOf, HoldsName, HoldsReservation;
    CountsOf(utxos, f);
    ValuesOf(utxos, f);
    NamesSpent(utxos, f.tx);
    FillFacts(utxos, f.tx);
    if IsRegistration(f.tx) { BurnsOne(utxos, f); }
  }

  // ----- all transactions -----

  lemma {:induction false} ValidateAllIff(utxos: Utxos, records: map<NameHash, Record>, txs: seq<Transaction>, fs: seq<FilledTransaction>, n: nat)
    requires n <= |txs| == |fs|
    requires forall i :: 0 <= i < |fs| ==> fs[i].tx == txs[i] && Fill(utxos, txs[i]) == Ok(fs[i])
    ensures ValidateAll(records, fs[..n]).Ok? <==>
            (forall i :: 0 <= i < n ==> ValidTransaction(utxos, records, txs[i])) && FeesOf(utxos, txs, n) <= AMOUNT_MAX
    ensures ValidateAll(records, fs[..n]).Ok? ==> ValidateAll(records, fs[..n]).value == FeesOf(utxos, txs, n)
    decreases n
  {
    hide Fill, ValidateFilled, ValidTransaction, InputValue, OutputValue;
    if n > 0 {
      ValidateAllIff(utxos, records, txs, fs, n - 1);
      assert fs[..n][..n - 1] == fs[..n - 1];
      ValidateIff(utxos, records, fs[n - 1]);
      if ValidTransaction(utxos, records, txs[n - 1]) { ValidFee(utxos, records, txs[n - 1]); }
    }
  }

  lemma ValidFee(utxos: Utxos, records: map<NameHash, Record>, tx: Transaction)
    requires ValidTransaction(utxos, records, tx)
    ensures OutputValue(tx.outputs) <= InputValue(utxos, tx)
  {
  }

  // ----- inputs and authorizations by position -----

  /** One spent output per input. */
  ghost predicate FilledOf(txs: seq<Transaction>, fs: seq<FilledTransaction>) {
    |fs| == |txs| && forall n :: 0 <= n < |txs| ==> |fs[n].spent| == |txs[n].inputs|
  }

  lemma FlatStep(txs: seq<Transaction>, fs: seq<FilledTransaction>)
    requires FilledOf(txs, fs) && txs != []
    ensures var m := |txs| - 1;
            && FilledOf(txs[..m], fs[..m])
            && AllInputs(txs) == AllInputs(txs[..m]) + txs[m].inputs
            && AllSpent(fs) == AllSpent(fs[..m]) + fs[m].spent
            && InputOwners(txs) == InputOwners(txs[..m]) + seq(|txs[m].inputs|, _ => txs[m])
            && InputsBefore(txs, |txs|) == InputsBefore(txs[..m], m) + |txs[m].inputs|
  {
    InputsBeforeTake(txs, |txs| - 1, |txs| - 1);
  }

  lemma FlatNone()
    ensures AllInputs([]) == [] && AllSpent([]) == [] && InputOwners([]) == [] && InputsBefore([], 0) == 0
  {
  }

  lemma {:induction false} FlatLengths(txs: seq<Transaction>, fs: seq<FilledTransaction>)
    requires FilledOf(txs, fs)
    ensures |AllInputs(txs)| == |InputOwners(txs)| == |AllSpent(fs)| == InputsBefore(txs, |txs|)
    decreases |txs|
  {
    hide AllInputs, InputOwners, AllSpent, InputsBefore, FilledOf;
    FlatNone();
    FilledLengths(txs, fs);
    if txs != [] {
      FlatStep(txs, fs);
      FlatLengths(txs[..|txs| - 1], fs[..|txs| - 1]);
    } else {
      assert txs == [] && fs == [];
    }
  }

  lemma FilledLengths(txs: seq<Transaction>, fs: seq<FilledTransaction>)
    requires FilledOf(txs, fs)
    ensures |fs| == |txs|
    ensures txs != [] ==> |fs[|txs| - 1].spent| == |txs[|txs| - 1].inputs|
  {
  }

  /** Input `i` of transaction `n` in the flat lists of the block. */
  lemma {:induction false} FlatAt(txs: seq<Transaction>, fs: seq<FilledTransaction>, n: nat, i: nat)
    requires FilledOf(txs, fs) && n < |txs| && i < |txs[n].inputs|
    ensures var k := InputsBefore(txs, n) + i;
            && k < InputsBefore(txs, |txs|) == |AllInputs(txs)| == |InputOwners(txs)| == |AllSpent(fs)|
            && AllInputs(txs)[k] == txs[n].inputs[i]
            && InputOwners(txs)[k] == txs[n]
            && AllSpent(fs)[k] == fs[n].spent[i]
    decreases |txs|
  {
    hide AllInputs, InputOwners, AllSpent, InputsBefore;
    var m := |txs| - 1;
    FlatStep(txs, fs);
    FlatLengths(txs, fs);
    FlatLengths(txs[..m], fs[..m]);
    InputsBeforeTake(txs, m, m);
    if n < m {
      FlatAt(txs[..m], fs[..m], n, i);
      InputsBeforeTake(txs, n, m);
    }
  }

  /** Every position belongs to an input. */
  lemma {:induction false} PlaceOf(txs: seq<Transaction>, k: nat, m: nat) returns (n: nat, i: nat)
    requires m <= |txs| && k < InputsBefore(txs, m)
    ensures n < m && i < |txs[n].inputs| && k == InputsBefore(txs, n) + i
  {
    if k < InputsBefore(txs, m - 1) { n, i := PlaceOf(txs, k, m - 1); } else { n, i := m - 1, k - InputsBefore(txs, m - 1); }
  }

  lemma PlaceUnique(txs: seq<Transaction>, m: nat, i: nat, n: nat, j: nat)
    requires m < |txs| && i < |txs[m].inputs| && n < |txs| && j < |txs[n].inputs|
    requires InputsBefore(txs, m) + i == InputsBefore(txs, n) + j
    ensures m == n && i == j
  {
    if m < n { InputsBeforeGrows(txs, m + 1, n); }
    if n < m { InputsBeforeGrows(txs, n + 1, m); }
  }

  /** The sorted scan of the flat list looks for an input that occurs twice. */
  lemma DistinctIff(txs: seq<Transaction>, fs: seq<FilledTransaction>)
    requires FilledOf(txs, fs)
    ensures Distinct(AllInputs(txs)) <==> NoInputTwice(txs)
  {
    hide AllInputs, InputsBefore, InputOwners, AllSpent;
    var all := AllInputs(txs);
    FlatLengths(txs, fs);
    if Distinct(all) {
      forall m: nat, i: nat, n: nat, j: nat |
        m < |txs| && i < |txs[m].inputs| && n < |txs| && j < |txs[n].inputs| && txs[m].inputs[i] == txs[n].inputs[j]
        ensures m == n && i == j
      {
        FlatAt(txs, fs, m, i);
        FlatAt(txs, fs, n, j);
        PlaceUnique(txs, m, i, n, j);
      }
    }
    if NoInputTwice(txs) {
      forall a, b | 0 <= a < b < |all| ensures all[a] != all[b] {
        var m, i := PlaceOf(txs, a, |txs|);
        var n, j := PlaceOf(txs, b, |txs|);
        FlatAt(txs, fs, m, i);
        FlatAt(txs, fs, n, j);
      }
    }
  }

  /** What the flat lists say of input `i` of transaction `n`. */
  lemma OwnerAt(utxos: Utxos, txs: seq<Transaction>, fs: seq<FilledTransaction>, n: nat, i: nat)
    requires FilledOf(txs, fs) && n < |txs| && i < |txs[n].inputs|
    requires fs[n].tx == txs[n] && Fill(utxos, fs[n].tx) == Ok(fs[n])
    ensures var k := InputsBefore(txs, n) + i;
            && k < |InputOwners(txs)| == |AllSpent(fs)|
            && InputOwners(txs)[k] == txs[n]
            && txs[n].inputs[i] in utxos && AllSpent(fs)[k] == utxos[txs[n].inputs[i]]
  {
    hide AllSpent, InputOwners, Fill, AllInputs;
    FlatAt(txs, fs, n, i);
    FillFacts(utxos, fs[n].tx);
  }

  /** Authorization `k` is made with the key of output `o` and signs `tx`. */
  ghost predicate Answers(cr: Crypto, a: Authorization, o: FilledOutput, tx: Transaction) {
    cr.address(a.verifyingKey) == o.address && cr.verify(a, tx)
  }

  ghost predicate FlatSigned(cr: Crypto, auths: seq<Authorization>, spent: seq<FilledOutput>, owners: seq<Transaction>) {
    && |auths| == |spent| == |owners|
    && forall k :: 0 <= k < |auths| ==> Answers(cr, auths[k], spent[k], owners[k])
  }

  /** The checks of the flat lists: each authorization answers for its own input. */
  lemma {:induction false} SignedIff(cr: Crypto, utxos: Utxos, body: Body, fs: seq<FilledTransaction>)
    requires FilledOf(body.transactions, fs)
    requires forall n :: 0 <= n < |fs| ==> fs[n].tx == body.transactions[n] && Fill(utxos, fs[n].tx) == Ok(fs[n])
    ensures AllSigned(cr, utxos, body) <==> FlatSigned(cr, body.authorizations, AllSpent(fs), InputOwners(body.transactions))
  {
    hide AllSpent, InputOwners, InputsBefore, Fill, AllInputs;
    var txs, auths := body.transactions, body.authorizations;
    FlatLengths(txs, fs);
    if AllSigned(cr, utxos, body) {
      forall k | 0 <= k < |auths| ensures Answers(cr, auths[k], AllSpent(fs)[k], InputOwners(txs)[k]) {
        var n, i := PlaceOf(txs, k, |txs|);
        OwnerAt(utxos, txs, fs, n, i);
        assert InputSigned(cr, utxos, body, n, i);
      }
    }
    if FlatSigned(cr, auths, AllSpent(fs), InputOwners(txs)) {
      forall n: nat, i: nat | n < |txs| && i < |txs[n].inputs|
        ensures InputSigned(cr, utxos, body, n, i)
      {
        OwnerAt(utxos, txs, fs, n, i);
        var k := InputsBefore(txs, n) + i;
        assert Answers(cr, auths[k], AllSpent(fs)[k], InputOwners(txs)[k]);
      }
    }
  }

  lemma FlatSignedIs(cr: Crypto, body: Body, spent: seq<FilledOutput>)
    requires |spent| == |InputOwners(body.transactions)|
    ensures FlatSigned(cr, body.authorizations, spent, InputOwners(body.transactions)) <==>
            && |body.authorizations| == |spent|
            && (forall k :: 0 <= k < |spent| ==> cr.address(body.authorizations[k].verifyingKey) == spent[k].address)
            && Authorized(cr, body)
  {
    hide InputOwners;
    var owners := InputOwners(body.transactions);
    if FlatSigned(cr, body.authorizations, spent, owners) {
      forall k | 0 <= k < |spent| ensures cr.address(body.authorizations[k].verifyingKey) == spent[k].address
                                  ensures cr.verify(body.authorizations[k], owners[k])
      {
        assert Answers(cr, body.authorizations[k], spent[k], owners[k]);
      }
    }
  }

  // ----- blocks -----

  lemma FilledIs(utxos: Utxos, txs: seq<Transaction>, fs: seq<FilledTransaction>)
    requires |fs| == |txs| && forall n :: 0 <= n < |txs| ==> InputsSpendable(utxos, txs[n])
    requires forall n :: 0 <= n < |fs| ==> fs[n].tx == txs[n] && Fill(utxos, txs[n]) == Ok(fs[n])
    ensures FilledFrom(utxos, txs) == fs
  {
    hide Fill;
    forall n | 0 <= n < |txs| ensures FilledFrom(utxos, txs)[n] == fs[n] {
      FillFacts(utxos, txs[n]);
      assert FilledFrom(utxos, txs)[n].spent == fs[n].spent;
    }
  }

  lemma Fillable(utxos: Utxos, tx: Transaction)
    requires InputsSpendable(utxos, tx)
    ensures Fill(utxos, tx).Ok?
  {
  }

  /** Validation accepts a block exactly when it is valid. It then returns the
    * transactions with what they spend, the sum of the fees and of the coinbase. */
  lemma PrevalidateIff(cr: Crypto, st: State, header: Header, body: Body)
    ensures Prevalidate(cr, st, header, body).Ok? <==> ValidBlock(cr, st, header, body)
    ensures Prevalidate(cr, st, header, body).Ok? ==>
              Prevalidate(cr, st, header, body).value ==
              Prevalidated(FilledFrom(st.ledger.utxos, body.transactions), header.merkleRoot,
                           FeesOf(st.ledger.utxos, body.transactions, |body.transactions|),
                           OutputValue(body.coinbase), NextHeight(st))
  {
    hide Fill, FillAll, ValidateAll, AllInputs, AllSpent, Authorized, Distinct, Sum, OutputValues, ValidTransaction,
         NoInputTwice, FeesOf, FilledFrom, AllSigned, FlatSigned, InputOwners, InputsBefore;
    var utxos, txs, records := st.ledger.utxos, body.transactions, st.ledger.tables.records;
    FillAllFacts(utxos, txs);
    if FillAll(utxos, txs).Ok? {
      var fs := FillAll(utxos, txs).value;
      forall n | 0 <= n < |fs| ensures fs[n].tx == txs[n] && |fs[n].spent| == |txs[n].inputs| { FillFacts(utxos, txs[n]); }
      assert fs[..|fs|] == fs;
      ValidateAllIff(utxos, records, txs, fs, |txs|);
      DistinctIff(txs, fs);
      FlatLengths(txs, fs);
      SignedIff(cr, utxos, body, fs);
      FlatSignedIs(cr, body, AllSpent(fs));
      if forall n :: 0 <= n < |txs| ==> ValidTransaction(utxos, records, txs[n]) {
        forall n | 0 <= n < |txs| ensures InputsSpendable(utxos, txs[n]) { ValidSpends(utxos, records, txs[n]); }
        FilledIs(utxos, txs, fs);
      }
    } else {
      var n :| 0 <= n < |txs| && Fill(utxos, txs[n]).Err?;
      if ValidTransaction(utxos, records, txs[n]) {
        ValidSpends(utxos, records, txs[n]);
        Fillable(utxos, txs[n]);
      }
    }
  }

  lemma ValidSpends(utxos: Utxos, records: map<NameHash, Record>, tx: Transaction)
    requires ValidTransaction(utxos, records, tx)
    ensures InputsSpendable(utxos, tx)
  {
  }

  lemma {:induction false} CoinbaseIff(outputs: seq<Output>)
    ensures CoinbaseOutputs(outputs).Ok? <==>
            forall i :: 0 <= i < |outputs| ==> outputs[i].content.Bitcoin? || outputs[i].content.Withdrawal?
    decreases |outputs|
  {
    if outputs != [] { CoinbaseIff(outputs[..|outputs| - 1]); }
  }

  /** An accepted block spends only what its signers own. */
  lemma AcceptedIsValid(cr: Crypto, st: State, header: Header, body: Body)
    requires ApplyBlock(cr, st, header, body).Ok?
    ensures ValidBlock(cr, st, header, body)
    ensures forall i :: 0 <= i < |body.coinbase| ==> body.coinbase[i].content.Bitcoin? || body.coinbase[i].content.Withdrawal?
  {
    hide Prevalidate, ValidBlock, Accumulate, CoinbaseOutputs;
    PrevalidateIff(cr, st, header, body);
    CoinbaseIff(body.coinbase);
  }

  /** Where unspent reservations agree with their table and unspent names are
    * registered, exactly the valid blocks are accepted. */
  lemma AcceptedIffValid(cr: Crypto, st: State, header: Header, body: Body)
    requires ReservationsAgree(st.ledger) && NamesListed(st.ledger)
    ensures ApplyBlock(cr, st, header, body).Ok? <==>
            && ValidBlock(cr, st, header, body)
            && forall i :: 0 <= i < |body.coinbase| ==> body.coinbase[i].content.Bitcoin? || body.coinbase[i].content.Withdrawal?
  {
    hide Prevalidate, ApplyBlock, ValidBlock, CoinbaseOutputs, ReservationsAgree, NamesListed;
    PrevalidateIff(cr, st, header, body);
    CoinbaseIff(body.coinbase);
    ValidBlockConnects(cr, st, header, body);
  }
}
