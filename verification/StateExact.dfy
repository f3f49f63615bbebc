/** Exactly which accepted blocks keep the state well formed. */
module StateExact {
  import opened Wrappers
  import opened Types
  import opened Filling
  import opened BitNames
  import opened Blocks
  import opened BatchedConnect
  import opened DisconnectUndo
  import opened DisconnectExact
  import opened BatchedExact
  import opened StateInvariant
  import opened ValidBlocks
  import opened NameRuns
  import opened NameHistory

  // ----- the row of a reservation -----

  ghost predicate MakesRow(tx: Transaction, t: Txid) { IsReservation(tx) && tx.txid == t }

  /** The row of reservation `t` after the data of the transactions. */
  ghost function RowAfter(rows: map<Txid, Hash>, fs: seq<FilledTransaction>, t: Txid): Option<Hash>
    decreases |fs|
  {
    if fs == [] then (if t in rows then Some(rows[t]) else None)
    else
      var f := fs[|fs| - 1];
      if MakesRow(f.tx, t) then Some(f.tx.data.value.commitment)
      else if Burned(f) == Some(t) then None
      else RowAfter(rows, fs[..|fs| - 1], t)
  }

  ghost predicate RowIs(rows: map<Txid, Hash>, t: Txid, r: Option<Hash>) {
    (t in rows <==> r.Some?) && (t in rows ==> rows[t] == r.value)
  }

  lemma {:induction false} RowsAfter(t0: Tables, fs: seq<FilledTransaction>, height: nat, t: Txid)
    requires TablesAfter(t0, fs, height).Ok?
    ensures RowIs(TablesAfter(t0, fs, height).value.reservations, t, RowAfter(t0.reservations, fs, t))
    decreases |fs|
  {
    hide ApplyData, FirstClaim, Claims;
    if fs != [] {
      var n := |fs| - 1;
      RowsAfter(t0, fs[..n], height, t);
      ApplyDataEffect(TablesAfter(t0, fs[..n], height).value, fs[n], height);
    }
  }

  lemma {:induction false} RowUntouched(rows: map<Txid, Hash>, fs: seq<FilledTransaction>, t: Txid)
    requires forall i :: 0 <= i < |fs| ==> !MakesRow(fs[i].tx, t) && Burned(fs[i]) != Some(t)
    ensures RowIs(rows, t, RowAfter(rows, fs, t))
    decreases |fs|
  {
    hide Burned;
    if fs != [] {
      assert forall i :: 0 <= i < |fs| - 1 ==> fs[..|fs| - 1][i] == fs[i];
      RowUntouched(rows, fs[..|fs| - 1], t);
    }
  }

  /** A row that is made and not burned later is there. */
  lemma {:induction false} RowMade(rows: map<Txid, Hash>, fs: seq<FilledTransaction>, t: Txid, m: nat) returns (j: nat)
    requires m < |fs| && MakesRow(fs[m].tx, t) && forall s :: m < s < |fs| ==> Burned(fs[s]) != Some(t)
    ensures j < |fs| && MakesRow(fs[j].tx, t) && RowAfter(rows, fs, t) == Some(fs[j].tx.data.value.commitment)
    decreases |fs|
  {
    hide Burned;
    var n := |fs| - 1;
    if MakesRow(fs[n].tx, t) {
      j := n;
    } else {
      assert forall i :: 0 <= i < n ==> fs[..n][i] == fs[i];
      j := RowMade(rows, fs[..n], t, m);
    }
  }

  /** A row that is burned and not made later is gone. */
  lemma {:induction false} RowBurned(rows: map<Txid, Hash>, fs: seq<FilledTransaction>, t: Txid, s: nat)
    requires s < |fs| && Burned(fs[s]) == Some(t) && forall m :: s < m < |fs| ==> !MakesRow(fs[m].tx, t)
    ensures RowAfter(rows, fs, t) == None
    decreases |fs|
  {
    hide FirstClaim, Claims;
    var n := |fs| - 1;
    if s < n {
      assert forall i :: 0 <= i < n ==> fs[..n][i] == fs[i];
      if Burned(fs[n]) != Some(t) { RowBurned(rows, fs[..n], t, s); }
    }
  }

  // ----- the outputs of a block -----

  /** A txid identifies a transaction of the block. */
  ghost predicate Identified(txs: seq<Transaction>) {
    forall i, j :: 0 <= i < |txs| && 0 <= j < |txs| && txs[i].txid == txs[j].txid ==> txs[i] == txs[j]
  }

  /** What validation gives for a block. */
  ghost predicate ValidIn(l: Ledger, txs: seq<Transaction>, fs: seq<FilledTransaction>) {
    && |fs| == |txs| && Distinct(AllInputs(txs)) && ReservationsAgree(l) && Identified(txs)
    && forall i :: 0 <= i < |txs| ==>
         Fill(l.utxos, txs[i]) == Ok(fs[i]) && fs[i].tx == txs[i] && ValidateFilled(l.tables.records, fs[i]).Ok?
  }

  lemma SameFilled(l: Ledger, txs: seq<Transaction>, fs: seq<FilledTransaction>, i: nat, j: nat)
    requires ValidIn(l, txs, fs) && i < |txs| && j < |txs| && txs[i].txid == txs[j].txid
    ensures fs[i] == fs[j]
  {
    hide Fill, ValidateFilled, AllInputs, Distinct, ReservationsAgree;
  }

  /** Every output of the block is in the batch as its transaction makes it. */
  lemma {:induction false} PutsAre(l: Ledger, txs: seq<Transaction>, fs: seq<FilledTransaction>, b0: Batch, n: nat, height: nat,
                                   k: nat, o: OutPoint)
    requires ValidIn(l, txs, fs) && k < n <= |txs| && o in CreatedBy(txs[k]) && Accumulate(l, b0, fs[..n], height).Ok?
    ensures var b := Accumulate(l, b0, fs[..n], height).value; o in b.utxoPuts && Makes(fs[k], o, b.utxoPuts[o])
    decreases n
  {
    hide Accumulate, AccumulateTx, CreatedBy, FilledOutputs, ValidIn, Makes;
    ValidOne(l, txs, fs, n - 1);
    AccumulateStep(l, b0, fs, n - 1, height);
    var b := Accumulate(l, b0, fs[..n - 1], height).value;
    MakesPuts(l, b, fs[n - 1], height, o);
    if o in CreatedBy(txs[n - 1]) {
      SameTxid(txs[k], txs[n - 1], o);
      SameFilled(l, txs, fs, k, n - 1);
    } else {
      PutsAre(l, txs, fs, b0, n - 1, height, k, o);
    }
  }

  lemma ValidOne(l: Ledger, txs: seq<Transaction>, fs: seq<FilledTransaction>, i: nat)
    requires ValidIn(l, txs, fs) && i < |txs|
    ensures |fs| == |txs| && Distinct(txs[i].inputs) && ReservationsAgree(l)
    ensures Fill(l.utxos, txs[i]) == Ok(fs[i]) && fs[i].tx == txs[i] && ValidateFilled(l.tables.records, fs[i]).Ok?
  {
    hide Fill, ValidateFilled, AllInputs, Distinct, ReservationsAgree;
    InputsDistinct(txs, i);
  }

  lemma SameTxid(a: Transaction, b: Transaction, o: OutPoint)
    requires o in CreatedBy(a) && o in CreatedBy(b)
    ensures a.txid == b.txid
  {
  }

  // ----- who holds a reservation -----

  lemma {:induction false} DropKeeps(rs: seq<Claim>, c: Hash, r: Claim)
    requires r in rs && FirstClaim(rs, c) != Some(r.0)
    ensures r in DropFirstClaim(rs, c)
  {
    if rs[0].1 != c && r != rs[0] { DropKeeps(rs[1..], c, r); }
  }

  /** The outpoint of the transaction that holds a claim which it hands out. */
  lemma ClaimIsHeld(records: map<NameHash, Record>, f: FilledTransaction, t: Txid, c: Hash) returns (p: OutPoint)
    requires ValidateFilled(records, f).Ok? && (t, c) in OutputClaims(f)
    ensures p in CreatedBy(f.tx) && forall out :: Makes(f, p, out) ==> out.content == FilledReservation(t, c)
  {
    hide ValidateFilled, FillFrom, OutputClaims, OutputNames, Claims;
    FillsExactly(records, f);
    FilledOutputsFacts(f);
    var outs := FilledOutputs(f).value;
    ClaimMember(outs, t, c);
    var i :| 0 <= i < |outs| && outs[i].content == FilledReservation(t, c);
    p := Regular(f.tx.txid, i);
  }

  lemma InputClaim(utxos: Utxos, f: FilledTransaction, o: OutPoint, t: Txid)
    requires Fill(utxos, f.tx) == Ok(f) && o in f.tx.inputs && HoldsRow(utxos, o, t)
    ensures (t, utxos[o].content.commitment) in Claims(f.spent)
  {
    hide Fill, Claims;
    FillFacts(utxos, f.tx);
    var i :| 0 <= i < |f.tx.inputs| && f.tx.inputs[i] == o;
    assert f.spent[i].content == FilledReservation(t, utxos[o].content.commitment);
    ClaimMember(f.spent, t, utxos[o].content.commitment);
  }

  /** A reservation that an input holds is burned or handed out. */
  lemma InputIsHandedOut(utxos: Utxos, f: FilledTransaction, o: OutPoint, t: Txid)
    requires Fill(utxos, f.tx) == Ok(f) && o in f.tx.inputs && HoldsRow(utxos, o, t)
    ensures Burned(f) == Some(t) || (t, utxos[o].content.commitment) in OutputClaims(f)
  {
    hide Fill, Claims, FirstClaim, DropFirstClaim;
    InputClaim(utxos, f, o, t);
    if IsRegistration(f.tx) && Burned(f) != Some(t) {
      DropKeeps(Claims(f.spent), f.tx.data.value.implied, (t, utxos[o].content.commitment));
    }
  }

  /** What the block makes of a reservation at one of its outputs. */
  lemma NewHolder(l: Ledger, txs: seq<Transaction>, fs: seq<FilledTransaction>, k: nat, o: OutPoint, out: FilledOutput)
    requires ValidIn(l, txs, fs) && k < |txs| == |fs| && Makes(fs[k], o, out) && out.content.FilledReservation?
    ensures var t, c := out.content.txid, out.content.commitment;
            Carried(l, fs[k], t, c) || (MakesRow(txs[k], t) && c == txs[k].data.value.commitment)
  {
    hide Fill, ValidateFilled, FillFrom, OutputClaims, OutputNames, Claims, Carried, ValidIn, ReservationsAgree, Distinct, DistinctTxids;
    var f, t, c := fs[k], out.content.txid, out.content.commitment;
    ValidOne(l, txs, fs, k);
    FilledOutputsFacts(f);
    OutputClaimsFacts(l, f);
    ClaimMember(FilledOutputs(f).value, t, c);
    assert FilledOutputs(f).value[o.vout].content == FilledReservation(t, c);
    assert (t, c) in OutputClaims(f);
  }

  /** Two outputs before the block do not hold one reservation. */
  lemma OneHolder(l: Ledger, o: OutPoint, o': OutPoint, t: Txid)
    requires ReservationsAgree(l) && HoldsRow(l.utxos, o, t) && HoldsRow(l.utxos, o', t)
    ensures o == o'
  {
  }

  lemma CarriedFrom(l: Ledger, f: FilledTransaction, t: Txid, c: Hash) returns (o: OutPoint)
    requires Carried(l, f, t, c)
    ensures o in f.tx.inputs && HoldsRow(l.utxos, o, t) && l.utxos[o].content.commitment == c && Burned(f) != Some(t)
  {
    hide Burned;
    o :| o in f.tx.inputs && o in l.utxos && l.utxos[o].content == FilledReservation(t, c);
  }

  /** The transaction that burns a reservation spends its only holder. */
  lemma BurnerSpends(l: Ledger, txs: seq<Transaction>, fs: seq<FilledTransaction>, s: nat, t: Txid, o: OutPoint)
    requires ValidIn(l, txs, fs) && s < |txs| == |fs| && Burned(fs[s]) == Some(t) && HoldsRow(l.utxos, o, t)
    ensures o in txs[s].inputs && BurnsRow(l.utxos, txs[s], t)
  {
    hide Fill, Burned, ValidIn, ReservationsAgree, ValidateFilled, Distinct;
    ValidOne(l, txs, fs, s);
    var o' := BurnedIsSpent(l.utxos, fs[s]);
    OneHolder(l, o, o', t);
  }

  lemma BurnerHolder(l: Ledger, txs: seq<Transaction>, fs: seq<FilledTransaction>, s: nat, t: Txid) returns (o: OutPoint)
    requires ValidIn(l, txs, fs) && s < |txs| == |fs| && Burned(fs[s]) == Some(t)
    ensures o in txs[s].inputs && HoldsRow(l.utxos, o, t) && o in Elements(AllInputs(txs))
  {
    hide Fill, Burned, ValidIn, ReservationsAgree, ValidateFilled, Distinct, AllInputs;
    ValidOne(l, txs, fs, s);
    o := BurnedIsSpent(l.utxos, fs[s]);
    AllInputsMember(txs, o);
  }

  /** Only one transaction spends an outpoint. */
  lemma OneSpender(l: Ledger, txs: seq<Transaction>, fs: seq<FilledTransaction>, i: nat, j: nat, o: OutPoint)
    requires ValidIn(l, txs, fs) && i < |txs| && j < |txs| && o in txs[i].inputs && o in txs[j].inputs
    ensures i == j
  {
    hide Fill, ValidateFilled, AllInputs, Distinct, ReservationsAgree, Identified;
    if i < j { SpentOnce(txs, i, j, o); }
    if j < i { SpentOnce(txs, j, i, o); }
  }

  // ----- the condition -----

  ghost predicate BurnedThenMade(utxos: Utxos, txs: seq<Transaction>, t: Txid) {
    exists s, m :: 0 <= s < m < |txs| && BurnsRow(utxos, txs[s], t) && MakesRow(txs[m], t)
  }

  /** If the block makes a reservation that an unspent output holds, it burns that
    * one first, or creates that very output again. */
  ghost predicate ReservationsKept(l: Ledger, header: Header, body: Body) {
    var txs := body.transactions;
    forall k, o :: 0 <= k < |txs| && IsReservation(txs[k]) && HoldsRow(l.utxos, o, txs[k].txid) ==>
      if o in Elements(AllInputs(txs)) then BurnedThenMade(l.utxos, txs, txs[k].txid)
      else o in CreatedUpTo(header, body, |txs|)
  }

  lemma KeptAt(l: Ledger, header: Header, body: Body, k: nat, o: OutPoint, t: Txid)
    requires ReservationsKept(l, header, body) && k < |body.transactions| && MakesRow(body.transactions[k], t) && HoldsRow(l.utxos, o, t)
    ensures if o in Elements(AllInputs(body.transactions)) then BurnedThenMade(l.utxos, body.transactions, t)
            else o in CreatedUpTo(header, body, |body.transactions|)
  {
    hide CreatedUpTo, AllInputs, BurnedThenMade;
  }

  /** The ledger after the block. */
  ghost predicate Leads(l: Ledger, header: Header, body: Body, fs: seq<FilledTransaction>, b: Batch) {
    var txs := body.transactions;
    && |fs| == |txs| && BatchOf(header, body, |txs|, b)
    && (forall k: nat, o :: k < |txs| && o in CreatedBy(txs[k]) ==> o in b.utxoPuts && Makes(fs[k], o, b.utxoPuts[o]))
    && (forall o :: o in CoinbaseCreated(header, body) ==> o in b.utxoPuts && !b.utxoPuts[o].content.FilledReservation?)
    && (forall t :: RowIs(b.tables.reservations, t, RowAfter(l.tables.reservations, fs, t)))
  }

  /** A holder after the block: an old one, or an output of the block. */
  ghost predicate OldHolder(l: Ledger, header: Header, body: Body, p: OutPoint, t: Txid) {
    && HoldsRow(l.utxos, p, t) && p !in Elements(AllInputs(body.transactions))
    && p !in CreatedUpTo(header, body, |body.transactions|)
  }

  lemma HolderFrom(l: Ledger, header: Header, body: Body, fs: seq<FilledTransaction>, b: Batch, p: OutPoint, t: Txid) returns (k: Option<nat>)
    requires ValidIn(l, body.transactions, fs) && Leads(l, header, body, fs, b) && HoldsRow(Flush(l, b).utxos, p, t)
    ensures k.None? ==> OldHolder(l, header, body, p, t) && Flush(l, b).utxos[p] == l.utxos[p]
    ensures k.Some? ==>
              && k.value < |body.transactions| == |fs| && p in CreatedBy(body.transactions[k.value])
              && Makes(fs[k.value], p, Flush(l, b).utxos[p])
  {
    hide ValidIn, CreatedBy, CreatedUpTo, CoinbaseCreated, Makes, RowAfter, AllInputs;
    var txs := body.transactions;
    assert txs[..|txs|] == txs;
    CreatedMember(header, body, |txs|, p);
    k := None;
    if p in b.utxoPuts {
      assert p !in CoinbaseCreated(header, body);
      var i :| 0 <= i < |txs| && p in CreatedBy(txs[i]);
      k := Some(i);
    }
  }

  // ----- the condition suffices -----

  /** With the condition, a reservation that an input holds and that is not burned is not made. */
  lemma NotMade(l: Ledger, header: Header, body: Body, fs: seq<FilledTransaction>, o: OutPoint, t: Txid, k: nat, m: nat)
    requires ValidIn(l, body.transactions, fs) && ReservationsKept(l, header, body) && |fs| == |body.transactions|
    requires k < |fs| && o in body.transactions[k].inputs && HoldsRow(l.utxos, o, t) && Burned(fs[k]) != Some(t) && m < |fs|
    ensures !MakesRow(body.transactions[m], t) && Burned(fs[m]) != Some(t)
  {
    hide ValidIn, ReservationsKept, AllInputs, Burned, Fill, CreatedUpTo;
    var txs := body.transactions;
    AllInputsMember(txs, o);
    forall s | 0 <= s < |txs| ensures Burned(fs[s]) != Some(t) {
      if Burned(fs[s]) == Some(t) {
        BurnerSpends(l, txs, fs, s, t, o);
        OneSpender(l, txs, fs, k, s, o);
      }
    }
    if MakesRow(txs[m], t) {
      KeptAt(l, header, body, m, o, t);
      var s, j :| 0 <= s < j < |txs| && BurnsRow(l.utxos, txs[s], t) && MakesRow(txs[j], t);
      ValidOne(l, txs, fs, s);
    }
  }

  lemma OldRow(l: Ledger, header: Header, body: Body, fs: seq<FilledTransaction>, p: OutPoint, t: Txid, m: nat)
    requires ValidIn(l, body.transactions, fs) && ReservationsKept(l, header, body) && |fs| == |body.transactions|
    requires OldHolder(l, header, body, p, t) && m < |fs|
    ensures !MakesRow(body.transactions[m], t) && Burned(fs[m]) != Some(t)
  {
    hide ValidIn, ReservationsKept, AllInputs, Burned, CreatedUpTo, BurnedThenMade;
    if MakesRow(body.transactions[m], t) { KeptAt(l, header, body, m, p, t); }
    if Burned(fs[m]) == Some(t) {
      var o := BurnerHolder(l, body.transactions, fs, m, t);
      SameHolder(l, body.transactions, fs, o, p, t);
    }
  }

  lemma SameHolder(l: Ledger, txs: seq<Transaction>, fs: seq<FilledTransaction>, o: OutPoint, p: OutPoint, t: Txid)
    requires ValidIn(l, txs, fs) && HoldsRow(l.utxos, o, t) && HoldsRow(l.utxos, p, t)
    ensures o == p
  {
    hide Fill, ValidateFilled, AllInputs, Distinct, Identified, ReservationsAgree;
    OneHolder(l, o, p, t);
  }

  /** The row of a reservation that transaction `k` makes. */
  lemma MadeRow(l: Ledger, header: Header, body: Body, fs: seq<FilledTransaction>, t: Txid, k: nat)
    requires ValidIn(l, body.transactions, fs) && ReservationsKept(l, header, body) && |fs| == |body.transactions|
    requires k < |fs| && MakesRow(body.transactions[k], t)
    ensures RowAfter(l.tables.reservations, fs, t) == Some(body.transactions[k].data.value.commitment)
  {
    hide ValidIn, ReservationsKept, AllInputs, Burned, CreatedUpTo, RowAfter, Fill;
    var txs := body.transactions;
    var m := k;
    if s :| 0 <= s < |fs| && Burned(fs[s]) == Some(t) {
      var o := BurnerHolder(l, txs, fs, s, t);
      KeptAt(l, header, body, k, o, t);
      var s', j :| 0 <= s' < j < |txs| && BurnsRow(l.utxos, txs[s'], t) && MakesRow(txs[j], t);
      ValidOne(l, txs, fs, s');
      BurnerSpends(l, txs, fs, s', t, o);
      OneSpender(l, txs, fs, s, s', o);
      m := j;
      forall i | 0 <= i < |fs| && Burned(fs[i]) == Some(t) ensures i == s {
        BurnerSpends(l, txs, fs, i, t, o);
        OneSpender(l, txs, fs, s, i, o);
      }
    }
    ValidOne(l, txs, fs, m);
    var j := RowMade(l.tables.reservations, fs, t, m);
    ValidOne(l, txs, fs, j);
    SameFilled(l, txs, fs, j, k);
    ValidOne(l, txs, fs, k);
  }

  lemma KeptMeansListed(l: Ledger, header: Header, body: Body, fs: seq<FilledTransaction>, b: Batch, p: OutPoint, t: Txid)
    requires ValidIn(l, body.transactions, fs) && Leads(l, header, body, fs, b) && ReservationsKept(l, header, body)
    requires HoldsRow(Flush(l, b).utxos, p, t)
    ensures t in b.tables.reservations && b.tables.reservations[t] == Flush(l, b).utxos[p].content.commitment
  {
    hide ValidIn, ReservationsKept, AllInputs, Burned, CreatedUpTo, RowAfter, Makes, CreatedBy, CoinbaseCreated, BatchOf, Carried;
    var txs, rows := body.transactions, l.tables.reservations;
    var out := Flush(l, b).utxos[p];
    var k := HolderFrom(l, header, body, fs, b, p, t);
    assert RowIs(b.tables.reservations, t, RowAfter(rows, fs, t));
    if k.None? {
      forall m | 0 <= m < |fs| ensures !MakesRow(fs[m].tx, t) && Burned(fs[m]) != Some(t) {
        OldRow(l, header, body, fs, p, t, m);
        ValidOne(l, txs, fs, m);
      }
      RowUntouched(rows, fs, t);
      RowListed(l, txs, fs, p, t);
    } else {
      NewHolder(l, txs, fs, k.value, p, out);
      if MakesRow(txs[k.value], t) && out.content.commitment == txs[k.value].data.value.commitment {
        MadeRow(l, header, body, fs, t, k.value);
      } else {
        var o := CarriedFrom(l, fs[k.value], t, out.content.commitment);
        ValidOne(l, txs, fs, k.value);
        forall m | 0 <= m < |fs| ensures !MakesRow(fs[m].tx, t) && Burned(fs[m]) != Some(t) {
          NotMade(l, header, body, fs, o, t, k.value, m);
          ValidOne(l, txs, fs, m);
        }
        RowUntouched(rows, fs, t);
        RowListed(l, txs, fs, o, t);
      }
    }
  }

  lemma RowListed(l: Ledger, txs: seq<Transaction>, fs: seq<FilledTransaction>, o: OutPoint, t: Txid)
    requires ValidIn(l, txs, fs) && HoldsRow(l.utxos, o, t)
    ensures t in l.tables.reservations && l.tables.reservations[t] == l.utxos[o].content.commitment
  {
    hide Fill, ValidateFilled, AllInputs, Distinct, Identified;
  }

  /** One transaction hands a reservation out once. */
  lemma HandsOutOnce(l: Ledger, header: Header, body: Body, fs: seq<FilledTransaction>, k: nat)
    requires ValidIn(l, body.transactions, fs) && ReservationsKept(l, header, body) && k < |fs| == |body.transactions|
    ensures FilledOutputs(fs[k]).Some? && DistinctReservations(FilledOutputs(fs[k]).value)
  {
    hide ValidIn, ReservationsKept, Fill, ValidateFilled, FillFrom, OutputClaims, OutputNames, Claims, Distinct, DistinctTxids, Burned,
      ReservationsAgree, DistinctReservations;
    var txs, f := body.transactions, fs[k];
    ValidOne(l, txs, fs, k);
    forall o | IsReservation(f.tx) && o in f.tx.inputs ensures !HoldsRow(l.utxos, o, f.tx.txid) {
      if HoldsRow(l.utxos, o, f.tx.txid) {
        NotBurning(f);
        NotMade(l, header, body, fs, o, f.tx.txid, k, k);
      }
    }
    OutputClaimsFacts(l, f);
    FillsExactly(l.tables.records, f);
    DistinctClaims(FilledOutputs(f).value);
  }

  lemma NotBurning(f: FilledTransaction)
    requires IsReservation(f.tx)
    ensures Burned(f) == None
  {
  }

  /** Two outputs of the block do not hold one reservation. */
  lemma NewApart(l: Ledger, header: Header, body: Body, fs: seq<FilledTransaction>, i: nat, j: nat, p: OutPoint, q: OutPoint,
                 a: FilledOutput, b: FilledOutput)
    requires ValidIn(l, body.transactions, fs) && ReservationsKept(l, header, body) && |fs| == |body.transactions|
    requires i < |fs| && j < |fs| && p in CreatedBy(body.transactions[i]) && q in CreatedBy(body.transactions[j]) && p != q
    requires Makes(fs[i], p, a) && Makes(fs[j], q, b) && a.content.FilledReservation? && b.content.FilledReservation?
    ensures a.content.txid != b.content.txid
  {
    hide ValidIn, ReservationsKept, Burned, FilledOutputs, Carried;
    var txs, t := body.transactions, a.content.txid;
    if txs[i].txid == txs[j].txid {
      SameFilled(l, txs, fs, i, j);
      HandsOutOnce(l, header, body, fs, i);
      assert p.vout != q.vout;
    } else if t == b.content.txid {
      NewHolder(l, txs, fs, i, p, a);
      NewHolder(l, txs, fs, j, q, b);
      if Carried(l, fs[i], t, a.content.commitment) && Carried(l, fs[j], t, b.content.commitment) {
        BothCarried(l, txs, fs, i, j, t, a.content.commitment, b.content.commitment);
      } else if Carried(l, fs[i], t, a.content.commitment) {
        OneCarried(l, header, body, fs, i, j, t, a.content.commitment);
      } else if Carried(l, fs[j], t, b.content.commitment) {
        OneCarried(l, header, body, fs, j, i, t, b.content.commitment);
      }
    }
  }

  lemma BothCarried(l: Ledger, txs: seq<Transaction>, fs: seq<FilledTransaction>, i: nat, j: nat, t: Txid, c: Hash, d: Hash)
    requires ValidIn(l, txs, fs) && i < |txs| == |fs| && j < |txs| && Carried(l, fs[i], t, c) && Carried(l, fs[j], t, d)
    ensures i == j
  {
    hide ValidIn, Burned, Carried, Fill, ValidateFilled, ReservationsAgree, Distinct;
    var o := CarriedFrom(l, fs[i], t, c);
    var o' := CarriedFrom(l, fs[j], t, d);
    SameHolder(l, txs, fs, o, o', t);
    ValidOne(l, txs, fs, i);
    ValidOne(l, txs, fs, j);
    OneSpender(l, txs, fs, i, j, o);
  }

  lemma OneCarried(l: Ledger, header: Header, body: Body, fs: seq<FilledTransaction>, i: nat, j: nat, t: Txid, c: Hash)
    requires ValidIn(l, body.transactions, fs) && ReservationsKept(l, header, body) && |fs| == |body.transactions|
    requires i < |fs| && j < |fs| && Carried(l, fs[i], t, c)
    ensures !MakesRow(body.transactions[j], t)
  {
    hide ValidIn, Burned, Carried, Fill, ValidateFilled, ReservationsAgree, Distinct, ReservationsKept;
    var o := CarriedFrom(l, fs[i], t, c);
    ValidOne(l, body.transactions, fs, i);
    NotMade(l, header, body, fs, o, t, i, j);
  }

  lemma OldNewApart(l: Ledger, header: Header, body: Body, fs: seq<FilledTransaction>, p: OutPoint, t: Txid, k: nat, q: OutPoint, out: FilledOutput)
    requires ValidIn(l, body.transactions, fs) && ReservationsKept(l, header, body) && |fs| == |body.transactions|
    requires OldHolder(l, header, body, p, t) && k < |fs| && Makes(fs[k], q, out) && out.content.FilledReservation?
    ensures out.content.txid != t
  {
    hide ValidIn, Burned, Carried, Fill, ValidateFilled, ReservationsAgree, Distinct, ReservationsKept, AllInputs, CreatedUpTo, FilledOutputs;
    var txs := body.transactions;
    NewHolder(l, txs, fs, k, q, out);
    OldRow(l, header, body, fs, p, t, k);
    if out.content.txid == t {
      var o := CarriedFrom(l, fs[k], t, out.content.commitment);
      SameHolder(l, txs, fs, o, p, t);
      ValidOne(l, txs, fs, k);
      AllInputsMember(txs, o);
    }
  }

  lemma KeptMeansApart(l: Ledger, header: Header, body: Body, fs: seq<FilledTransaction>, b: Batch, p: OutPoint, q: OutPoint, t: Txid)
    requires ValidIn(l, body.transactions, fs) && Leads(l, header, body, fs, b) && ReservationsKept(l, header, body)
    requires HoldsRow(Flush(l, b).utxos, p, t) && HoldsRow(Flush(l, b).utxos, q, t)
    ensures p == q
  {
    hide ValidIn, ReservationsKept, CreatedUpTo, RowAfter, Makes, CreatedBy, CoinbaseCreated, BatchOf, AllInputs;
    var txs, u := body.transactions, Flush(l, b).utxos;
    var i := HolderFrom(l, header, body, fs, b, p, t);
    var j := HolderFrom(l, header, body, fs, b, q, t);
    if p != q {
      if i.None? && j.None? {
        SameHolder(l, txs, fs, p, q, t);
      } else if i.None? {
        OldNewApart(l, header, body, fs, p, t, j.value, q, u[q]);
      } else if j.None? {
        OldNewApart(l, header, body, fs, q, t, i.value, p, u[p]);
      } else {
        NewApart(l, header, body, fs, i.value, j.value, p, q, u[p], u[q]);
      }
    }
  }

  lemma KeptMeansAgree(l: Ledger, header: Header, body: Body, fs: seq<FilledTransaction>, b: Batch)
    requires ValidIn(l, body.transactions, fs) && Leads(l, header, body, fs, b) && ReservationsKept(l, header, body)
    ensures ReservationsAgree(Flush(l, b))
  {
    hide ValidIn, ReservationsKept, Leads, Flush;
    var l' := Flush(l, b);
    forall o | o in l'.utxos && l'.utxos[o].content.FilledReservation?
      ensures var c := l'.utxos[o].content; c.txid in l'.tables.reservations && l'.tables.reservations[c.txid] == c.commitment
    {
      FlushTables(l, b);
      KeptMeansListed(l, header, body, fs, b, o, l'.utxos[o].content.txid);
    }
    forall o, o' | o in l'.utxos && o' in l'.utxos && o != o' &&
                   l'.utxos[o].content.FilledReservation? && l'.utxos[o'].content.FilledReservation?
      ensures l'.utxos[o].content.txid != l'.utxos[o'].content.txid
    {
      if l'.utxos[o].content.txid == l'.utxos[o'].content.txid {
        KeptMeansApart(l, header, body, fs, b, o, o', l'.utxos[o].content.txid);
      }
    }
  }

  lemma FlushTables(l: Ledger, b: Batch)
    ensures Flush(l, b).tables == b.tables
  {
  }

  // ----- the condition is necessary -----

  /** A reservation that transaction `k` hands out is held after the block. */
  lemma HandedIsHeld(l: Ledger, header: Header, body: Body, fs: seq<FilledTransaction>, b: Batch, k: nat, t: Txid, c: Hash)
    returns (p: OutPoint)
    requires ValidIn(l, body.transactions, fs) && Leads(l, header, body, fs, b) && k < |fs| && (t, c) in OutputClaims(fs[k])
    ensures p in CreatedBy(body.transactions[k]) && HoldsRow(Flush(l, b).utxos, p, t)
  {
    hide ValidIn, ValidateFilled, OutputClaims, Makes, RowAfter, CoinbaseCreated, BatchOf, CreatedBy, Fill, Distinct, ReservationsAgree;
    ValidOne(l, body.transactions, fs, k);
    p := ClaimIsHeld(l.tables.records, fs[k], t, c);
    assert Makes(fs[k], p, b.utxoPuts[p]);
  }

  /** No transaction hands a reservation out twice. */
  lemma AgreeMeansDistinct(l: Ledger, header: Header, body: Body, fs: seq<FilledTransaction>, b: Batch, k: nat)
    requires ValidIn(l, body.transactions, fs) && Leads(l, header, body, fs, b) && k < |fs| && ReservationsAgree(Flush(l, b))
    ensures DistinctTxids(OutputClaims(fs[k]))
  {
    hide ValidIn, ValidateFilled, OutputClaims, OutputNames, Claims, FillFrom, RowAfter, CoinbaseCreated, BatchOf, Fill, Distinct, DistinctTxids;
    var f, txs := fs[k], body.transactions;
    ValidOne(l, txs, fs, k);
    FillsExactly(l.tables.records, f);
    FilledOutputsFacts(f);
    var outs, u := FilledOutputs(f).value, Flush(l, b).utxos;
    forall i, j | 0 <= i < j < |outs| && outs[i].content.FilledReservation? && outs[j].content.FilledReservation?
      ensures outs[i].content.txid != outs[j].content.txid
    {
      var p, q := Regular(f.tx.txid, i), Regular(f.tx.txid, j);
      assert p in CreatedBy(txs[k]) && q in CreatedBy(txs[k]);
      assert Makes(fs[k], p, b.utxoPuts[p]) && Makes(fs[k], q, b.utxoPuts[q]);
      assert u[p] == outs[i] && u[q] == outs[j];
    }
    DistinctClaims(outs);
  }

  /** A transaction that makes a reservation and spends its holder hands it out twice. */
  lemma TwoClaims(utxos: Utxos, f: FilledTransaction, o: OutPoint)
    requires Fill(utxos, f.tx) == Ok(f) && IsReservation(f.tx) && o in f.tx.inputs && HoldsRow(utxos, o, f.tx.txid)
    ensures !DistinctTxids(OutputClaims(f))
  {
    hide Fill, Claims;
    InputClaim(utxos, f, o, f.tx.txid);
    var rs, r := Claims(f.spent), (f.tx.txid, utxos[o].content.commitment);
    var i :| 0 <= i < |rs| && rs[i] == r;
    var all := OutputClaims(f);
    assert all[i].0 == f.tx.txid && all[|rs|].0 == f.tx.txid;
  }

  lemma OwnClaim(f: FilledTransaction)
    requires IsReservation(f.tx)
    ensures (f.tx.txid, f.tx.data.value.commitment) in OutputClaims(f)
  {
    hide Claims;
    var all := OutputClaims(f);
    assert all[|all| - 1] == (f.tx.txid, f.tx.data.value.commitment);
  }

  /** The holder of a reservation that the block makes is not left as it is. */
  lemma HolderGoes(l: Ledger, header: Header, body: Body, fs: seq<FilledTransaction>, b: Batch, k: nat, o: OutPoint, t: Txid)
    requires ValidIn(l, body.transactions, fs) && Leads(l, header, body, fs, b) && ReservationsAgree(Flush(l, b))
    requires k < |fs| && MakesRow(body.transactions[k], t) && HoldsRow(l.utxos, o, t) && o !in Elements(AllInputs(body.transactions))
    ensures o in CreatedUpTo(header, body, |body.transactions|)
  {
    hide ValidIn, OutputClaims, AllInputs, CreatedUpTo, CreatedBy, CoinbaseCreated, Fill, Distinct, ValidateFilled, ReservationsAgree, RowAfter, Makes;
    var txs := body.transactions;
    assert txs[..|txs|] == txs;
    ValidOne(l, txs, fs, k);
    OwnClaim(fs[k]);
    var p := HandedIsHeld(l, header, body, fs, b, k, t, fs[k].tx.data.value.commitment);
    CreatedMember(header, body, |txs|, p);
    if o !in CreatedUpTo(header, body, |txs|) { OneHolder(Flush(l, b), o, p, t); }
  }

  /** The spender of that holder burns it, and the reservation is made again later. */
  lemma HolderBurned(l: Ledger, header: Header, body: Body, fs: seq<FilledTransaction>, b: Batch, k: nat, q: nat, o: OutPoint, t: Txid)
    requires ValidIn(l, body.transactions, fs) && Leads(l, header, body, fs, b) && ReservationsAgree(Flush(l, b))
    requires k < |fs| && MakesRow(body.transactions[k], t) && HoldsRow(l.utxos, o, t) && q < |fs| && o in body.transactions[q].inputs
    ensures Burned(fs[q]) == Some(t) && BurnedThenMade(l.utxos, body.transactions, t)
  {
    hide ValidIn, OutputClaims, AllInputs, CreatedUpTo, CreatedBy, CoinbaseCreated, Fill, Distinct, ValidateFilled, ReservationsAgree,
      RowAfter, Makes, Burned, BatchOf, DistinctTxids;
    var txs := body.transactions;
    ValidOne(l, txs, fs, k);
    ValidOne(l, txs, fs, q);
    OwnClaim(fs[k]);
    var p := HandedIsHeld(l, header, body, fs, b, k, t, fs[k].tx.data.value.commitment);
    InputIsHandedOut(l.utxos, fs[q], o, t);
    if Burned(fs[q]) != Some(t) {
      if txs[q].txid == t {
        SameFilled(l, txs, fs, q, k);
        TwoClaims(l.utxos, fs[q], o);
        AgreeMeansDistinct(l, header, body, fs, b, q);
      } else {
        var p' := HandedIsHeld(l, header, body, fs, b, q, t, l.utxos[o].content.commitment);
        OneHolder(Flush(l, b), p, p', t);
        SameTxid(txs[k], txs[q], p);
      }
    }
    BurnerSpends(l, txs, fs, q, t, o);
    if forall m :: q < m < |txs| ==> !MakesRow(txs[m], t) {
      forall m | q < m < |fs| ensures !MakesRow(fs[m].tx, t) { ValidOne(l, txs, fs, m); }
      RowBurned(l.tables.reservations, fs, t, q);
      RowHeld(l, header, body, fs, b, p, t);
    }
  }

  lemma RowHeld(l: Ledger, header: Header, body: Body, fs: seq<FilledTransaction>, b: Batch, p: OutPoint, t: Txid)
    requires Leads(l, header, body, fs, b) && ReservationsAgree(Flush(l, b)) && HoldsRow(Flush(l, b).utxos, p, t)
    ensures RowAfter(l.tables.reservations, fs, t).Some?
  {
    hide BatchOf, CreatedBy, CoinbaseCreated, Makes, RowAfter;
    assert t in Flush(l, b).tables.reservations;
    assert RowIs(b.tables.reservations, t, RowAfter(l.tables.reservations, fs, t));
  }

  lemma AgreeMeansKept(l: Ledger, header: Header, body: Body, fs: seq<FilledTransaction>, b: Batch)
    requires ValidIn(l, body.transactions, fs) && Leads(l, header, body, fs, b) && ReservationsAgree(Flush(l, b))
    ensures ReservationsKept(l, header, body)
  {
    hide ValidIn, Leads, AllInputs, CreatedUpTo, ReservationsAgree, BurnedThenMade, Burned;
    var txs := body.transactions;
    LeadsLength(l, header, body, fs, b);
    forall k, o | 0 <= k < |txs| && IsReservation(txs[k]) && HoldsRow(l.utxos, o, txs[k].txid)
      ensures if o in Elements(AllInputs(txs)) then BurnedThenMade(l.utxos, txs, txs[k].txid)
              else o in CreatedUpTo(header, body, |txs|)
    {
      if o in Elements(AllInputs(txs)) {
        AllInputsMember(txs, o);
        var q :| 0 <= q < |txs| && o in txs[q].inputs;
        HolderBurned(l, header, body, fs, b, k, q, o, txs[k].txid);
      } else {
        HolderGoes(l, header, body, fs, b, k, o, txs[k].txid);
      }
    }
  }

  lemma LeadsLength(l: Ledger, header: Header, body: Body, fs: seq<FilledTransaction>, b: Batch)
    requires Leads(l, header, body, fs, b)
    ensures |fs| == |body.transactions|
  {
  }

  // ----- the theorem -----

  /** Spent and unspent outputs stay apart exactly when the block creates nothing
    * that was spent before or that it spends. */
  lemma ApartIff(l: Ledger, header: Header, body: Body, b: Batch)
    requires l.utxos.Keys !! l.stxos.Keys && BatchOf(header, body, |body.transactions|, b)
    requires Elements(AllInputs(body.transactions)) <= l.utxos.Keys
    ensures Flush(l, b).utxos.Keys !! Flush(l, b).stxos.Keys <==>
            CreatedUpTo(header, body, |body.transactions|) !! l.stxos.Keys + Elements(AllInputs(body.transactions))
  {
    hide CreatedUpTo, AllInputs;
    assert body.transactions[..|body.transactions|] == body.transactions;
  }

  /** What an accepted block must be like to keep the state well formed. */
  ghost predicate Keeps(l: Ledger, header: Header, body: Body) {
    && CreatedUpTo(header, body, |body.transactions|) !! l.stxos.Keys + Elements(AllInputs(body.transactions))
    && NamesOnce(body.transactions)
    && ReservationsKept(l, header, body)
  }

  /** The parts of an accepted block. */
  lemma AcceptedParts(cr: Crypto, st: State, header: Header, body: Body) returns (fs: seq<FilledTransaction>, b: Batch)
    requires StateOk(st) && ApplyBlock(cr, st, header, body).Ok? && Identified(body.transactions)
    ensures ValidIn(st.ledger, body.transactions, fs) && Leads(st.ledger, header, body, fs, b)
    ensures Elements(AllInputs(body.transactions)) <= st.ledger.utxos.Keys
    ensures ApplyBlock(cr, st, header, body).value == State(Flush(st.ledger, b), Some(header.hash), Some(NextHeight(st)))
  {
    hide Prevalidate, ValidateAll, ValidateFilled, Accumulate, Fill, AllInputs, Distinct, ReservationsAgree, SeqsDense, RecordsUpTo;
    hide Makes, RowAfter, CreatedBy, CoinbaseCreated, TablesAfter, CreatedUpTo;
    PrevalidateFacts(cr, st, header, body);
    var l, pre, txs := st.ledger, Prevalidate(cr, st, header, body).value, body.transactions;
    fs := pre.filled;
    forall i | 0 <= i < |fs|
      ensures fs[i].tx == txs[i] && ValidateFilled(l.tables.records, fs[i]).Ok? && Elements(txs[i].inputs) <= l.utxos.Keys
    {
      FillFacts(l.utxos, txs[i]);
      ValidateAllFacts(l.tables.records, fs, i);
    }
    assert ValidIn(l, txs, fs);
    var outs := CoinbaseOutputs(body.coinbase).value;
    var b0 := Batch({}, map[], CoinbasePuts(header, outs), l.tables);
    b := Accumulate(l, b0, fs, pre.nextHeight).value;
    BatchLeads(l, header, body, fs, outs, pre.nextHeight);
    forall o | o in Elements(AllInputs(txs)) ensures o in l.utxos {
      AllInputsMember(txs, o);
      var i :| 0 <= i < |txs| && o in txs[i].inputs;
      assert o in Elements(txs[i].inputs);
    }
  }

  lemma BatchLeads(l: Ledger, header: Header, body: Body, fs: seq<FilledTransaction>, outs: seq<FilledOutput>, height: nat)
    requires ValidIn(l, body.transactions, fs) && CoinbaseOutputs(body.coinbase) == Ok(outs)
    requires Accumulate(l, Batch({}, map[], CoinbasePuts(header, outs), l.tables), fs, height).Ok?
    ensures Leads(l, header, body, fs, Accumulate(l, Batch({}, map[], CoinbasePuts(header, outs), l.tables), fs, height).value)
  {
    hide Accumulate, Fill, AllInputs, Distinct, ReservationsAgree, ValidateFilled, Makes, RowAfter, CreatedBy, TablesAfter, CreatedUpTo, RowIs,
      CoinbaseOutputs;
    var txs, b0 := body.transactions, Batch({}, map[], CoinbasePuts(header, outs), l.tables);
    var b := Accumulate(l, b0, fs, height).value;
    CoinbaseStartBatch(l, header, body, outs);
    assert fs[..|fs|] == fs;
    BatchKeys(l, header, body, fs, b0, |txs|, height);
    forall k: nat, o | k < |txs| && o in CreatedBy(txs[k]) ensures o in b.utxoPuts && Makes(fs[k], o, b.utxoPuts[o]) {
      PutsAre(l, txs, fs, b0, |txs|, height, k, o);
    }
    forall o | o in CoinbaseCreated(header, body) ensures o in b.utxoPuts && !b.utxoPuts[o].content.FilledReservation? {
      CoinbaseStays(l, header, body, fs, outs, |txs|, height, o);
    }
    AccumulateIsTablesAfter(l, b0, fs, height);
    forall t ensures RowIs(b.tables.reservations, t, RowAfter(l.tables.reservations, fs, t)) { RowsAfter(l.tables, fs, height, t); }
  }

  /** No transaction replaces an output of the coinbase. */
  lemma {:induction false} CoinbaseStays(l: Ledger, header: Header, body: Body, fs: seq<FilledTransaction>, outs: seq<FilledOutput>,
                                         n: nat, height: nat, o: OutPoint)
    requires CoinbaseOutputs(body.coinbase) == Ok(outs) && n <= |fs| && o in CoinbaseCreated(header, body)
    requires Accumulate(l, Batch({}, map[], CoinbasePuts(header, outs), l.tables), fs[..n], height).Ok?
    ensures var b := Accumulate(l, Batch({}, map[], CoinbasePuts(header, outs), l.tables), fs[..n], height).value;
            o in b.utxoPuts && !b.utxoPuts[o].content.FilledReservation?
    decreases n
  {
    hide Accumulate, AccumulateTx, FilledOutputs, CoinbaseOutputs;
    var b0 := Batch({}, map[], CoinbasePuts(header, outs), l.tables);
    if n == 0 {
      AccumulateNone(l, b0, fs, height);
      CoinbaseOutputsFacts(body.coinbase);
    } else {
      AccumulateStep(l, b0, fs, n - 1, height);
      CoinbaseStays(l, header, body, fs, outs, n - 1, height, o);
      MakesPuts(l, Accumulate(l, b0, fs[..n - 1], height).value, fs[n - 1], height, o);
    }
  }

  /** Every accepted block, whose txids identify its transactions, keeps the state
    * well formed if and only if it creates no output that was or is spent, registers
    * each name once, and makes no reservation that an unspent output keeps holding. */
  lemma KeepsStateOkIff(cr: Crypto, st: State, header: Header, body: Body)
    requires StateOk(st) && ApplyBlock(cr, st, header, body).Ok? && Identified(body.transactions)
    ensures StateOk(ApplyBlock(cr, st, header, body).value) <==> Keeps(st.ledger, header, body)
  {
    hide ApplyBlock, ValidIn, Leads, AllInputs, CreatedUpTo, ReservationsAgree, SeqsDense, NamesOnce, ReservationsKept, RecordsUpTo;
    var fs, b := AcceptedParts(cr, st, header, body);
    LeadsBatch(st.ledger, header, body, fs, b);
    ApartIff(st.ledger, header, body, b);
    BlockDenseIff(cr, st, header, body);
    StampsKept(cr, st, header, body);
    if ReservationsKept(st.ledger, header, body) { KeptMeansAgree(st.ledger, header, body, fs, b); }
    if ReservationsAgree(Flush(st.ledger, b)) { AgreeMeansKept(st.ledger, header, body, fs, b); }
  }

  lemma LeadsBatch(l: Ledger, header: Header, body: Body, fs: seq<FilledTransaction>, b: Batch)
    requires Leads(l, header, body, fs, b)
    ensures BatchOf(header, body, |body.transactions|, b)
  {
    hide BatchOf, Makes, RowAfter;
  }

  lemma StampsKept(cr: Crypto, st: State, header: Header, body: Body)
    requires StateOk(st) && ApplyBlock(cr, st, header, body).Ok?
    ensures RecordsUpTo(ApplyBlock(cr, st, header, body).value.ledger.tables, NextHeight(st))
  {
    hide ApplyBlock, TablesAfter, Fill, RowsHold, AllInputs, Registered, ReservationsAgree, SeqsDense, StampedUpTo;
    var fs := ApplyBlockFacts(cr, st, header, body);
    RecordsUpToNext(st.ledger, st.height, NextHeight(st));
    BlockKeepsStamps(st.ledger.tables, fs, NextHeight(st));
  }
}
