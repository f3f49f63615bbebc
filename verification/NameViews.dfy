/** What readers see of a name after an accepted block, told from the block's
  * transactions and the outputs that they spend. */
module NameViews {
  import opened Wrappers
  import opened Types
  import opened Filling
  import opened BitNames
  import opened Blocks
  import opened BatchedConnect
  import opened BlockRules
  import opened ValidBlocks
  import opened NameRuns
  import opened NameHistory

  // ----- which name an update changes -----

  /** Input `i` is the last one that spends a name, and the name is `x`. */
  ghost predicate LastName(utxos: Utxos, inputs: seq<OutPoint>, i: nat, x: NameHash) {
    && i < |inputs| && HoldsName(utxos, inputs[i]) && utxos[inputs[i]].content.name == x
    && forall j :: i < j < |inputs| ==> !HoldsName(utxos, inputs[j])
  }

  /** The transaction updates `x`: it carries an update, and the last of its inputs
    * that spend a name spends `x`. */
  ghost predicate Updates(utxos: Utxos, tx: Transaction, x: NameHash) {
    IsUpdate(tx) && exists i: nat :: LastName(utxos, tx.inputs, i, x)
  }

  /** The last of the names among outputs belongs to the last output that holds one. */
  lemma {:induction false} LastOfNames(outs: seq<FilledOutput>) returns (i: nat)
    requires Names(outs) != []
    ensures i < |outs| && outs[i].content == FilledName(Names(outs)[|Names(outs)| - 1])
    ensures forall j :: i < j < |outs| ==> !outs[j].content.FilledName?
  {
    assert forall j :: 0 < j < |outs| ==> outs[j] == outs[1..][j - 1];
    if Names(outs[1..]) == [] {
      i := 0;
      NoNames(outs[1..]);
    } else {
      var k := LastOfNames(outs[1..]);
      i := k + 1;
    }
  }

  lemma {:induction false} NoNames(outs: seq<FilledOutput>)
    requires Names(outs) == []
    ensures forall j :: 0 <= j < |outs| ==> !outs[j].content.FilledName?
  {
    if outs != [] {
      NoNames(outs[1..]);
      assert forall j :: 0 < j < |outs| ==> outs[j] == outs[1..][j - 1];
    }
  }

  lemma {:induction false} SomeName(outs: seq<FilledOutput>, i: nat)
    requires i < |outs| && outs[i].content.FilledName?
    ensures Names(outs) != []
  {
    if i > 0 { SomeName(outs[1..], i - 1); }
  }

  lemma UpdatedNameIs(utxos: Utxos, f: FilledTransaction, x: NameHash)
    requires Fill(utxos, f.tx) == Ok(f)
    ensures UpdatedName(f) == Some(x) <==> exists i: nat :: LastName(utxos, f.tx.inputs, i, x)
  {
    hide Fill, Names;
    FillFacts(utxos, f.tx);
    if Names(f.spent) != [] {
      var i := LastOfNames(f.spent);
      assert LastName(utxos, f.tx.inputs, i, UpdatedName(f).value);
    }
    if i: nat :| LastName(utxos, f.tx.inputs, i, x) {
      SomeName(f.spent, i);
      var k := LastOfNames(f.spent);
    }
  }

  /** In a valid update that name also goes to the last of the outputs that are
    * given one. */
  lemma UpdatedIsLastOutput(records: map<NameHash, Record>, f: FilledTransaction) returns (v: nat)
    requires IsUpdate(f.tx) && ValidateFilled(records, f).Ok?
    ensures UpdatedName(f).Some? && FilledOutputs(f).Some?
    ensures var outs := FilledOutputs(f).value;
            && v < |outs| && outs[v].content == FilledName(UpdatedName(f).value)
            && forall j :: v < j < |outs| ==> !outs[j].content.FilledName?
  {
    hide Names, Claims, FilledOutputs;
    FillsExactly(records, f);
    v := LastOfNames(FilledOutputs(f).value);
  }

  // ----- what readers see -----

  /** The data of `x` after one transaction. */
  ghost function DataAfterOne(d: Option<MutableData>, utxos: Utxos, tx: Transaction, x: NameHash): Option<MutableData> {
    if IsRegistration(tx) && tx.data.value.name == x then Some(tx.data.value.data)
    else if d.Some? && Updates(utxos, tx, x) then Some(UpdatedData(d.value, tx.data.value.updates))
    else d
  }

  /** The data of `x` after the transactions of a block, which spend from `utxos`. */
  ghost function DataAfter(d: Option<MutableData>, utxos: Utxos, txs: seq<Transaction>, x: NameHash): Option<MutableData> {
    if txs == [] then d
    else DataAfterOne(DataAfter(d, utxos, txs[..|txs| - 1], x), utxos, txs[|txs| - 1], x)
  }

  ghost function DataOf(t: Tables, x: NameHash): Option<MutableData>
    requires Historied(t)
  {
    match LookupCurrent(t, x)
    case Some(v) => Some(v.data)
    case None => None
  }

  ghost predicate SameNumber(t: Tables, t': Tables, x: NameHash) {
    x in t.records && x in t'.records ==> t'.records[x].seqId == t.records[x].seqId
  }

  /** One transaction: a registration shows its data and takes the next number, an
    * update changes the name of its last input that spends one, field by field, and
    * every other name stays as it was. */
  lemma ViewAfterOne(t: Tables, utxos: Utxos, f: FilledTransaction, height: nat, x: NameHash)
    requires Historied(t) && Fill(utxos, f.tx) == Ok(f) && ApplyData(t, f, height).Ok?
    ensures Historied(ApplyData(t, f, height).value)
    ensures DataOf(ApplyData(t, f, height).value, x) == DataAfterOne(DataOf(t, x), utxos, f.tx, x)
    ensures Registers(f, x) ==> ApplyData(t, f, height).value.records[x].seqId == NextSeq(t.seqs)
    ensures !Registers(f, x) ==> SameNumber(t, ApplyData(t, f, height).value, x)
  {
    hide Fill, Names, Claims, Burned, NextSeq, HasHistory, UpdatedName, UpdatedData, ApplyRecord, Init;
    ApplyDataKeepsHistory(t, f, height);
    match f.tx.data
    case Some(Registration(name, _, d)) => ViewOfNew(d, f.tx.txid, height, NextSeq(t.seqs));
    case Some(DataUpdate(u)) =>
      UpdatedNameIs(utxos, f, x);
      var name := UpdatedName(f).value;
      ViewAfterUpdate(t.records[name], u, f.tx.txid, height);
      UpdateKeepsSeq(t.records[name], u, f.tx.txid, height);
    case _ =>
  }

  lemma UpdateKeepsSeq(r: Record, u: DataUpdates, txid: Txid, height: nat)
    ensures ApplyRecord(r, u, txid, height).seqId == r.seqId
  {
  }

  lemma {:induction false} ViewsAfterAll(t: Tables, utxos: Utxos, txs: seq<Transaction>, fs: seq<FilledTransaction>, height: nat, x: NameHash)
    requires Historied(t) && |fs| == |txs| && TablesAfter(t, fs, height).Ok?
    requires forall i :: 0 <= i < |fs| ==> fs[i].tx == txs[i] && Fill(utxos, txs[i]) == Ok(fs[i])
    ensures Historied(TablesAfter(t, fs, height).value)
    ensures DataOf(TablesAfter(t, fs, height).value, x) == DataAfter(DataOf(t, x), utxos, txs, x)
    ensures x !in Registered(fs) ==> SameNumber(t, TablesAfter(t, fs, height).value, x)
    decreases |fs|
  {
    hide ApplyData, Fill, Historied, DataOf, DataAfterOne, Registered;
    if fs != [] {
      var n := |fs| - 1;
      assert forall i :: 0 <= i < n ==> fs[..n][i] == fs[i] && txs[..n][i] == txs[i];
      ViewsAfterAll(t, utxos, txs[..n], fs[..n], height, x);
      ViewAfterOne(TablesAfter(t, fs[..n], height).value, utxos, fs[n], height, x);
      RecordsAfter(t, fs[..n], height);
      RegisteredStep(fs);
    }
  }

  /** After an accepted block readers see of every name what the block's
    * transactions make of what they saw before, and a name from before the block
    * keeps its number. */
  lemma BlockViews(cr: Crypto, st: State, header: Header, body: Body, x: NameHash)
    requires Historied(st.ledger.tables) && ApplyBlock(cr, st, header, body).Ok?
    ensures var t' := ApplyBlock(cr, st, header, body).value.ledger.tables;
            && Historied(t')
            && DataOf(t', x) == DataAfter(DataOf(st.ledger.tables, x), st.ledger.utxos, body.transactions, x)
            && SameNumber(st.ledger.tables, t', x)
  {
    hide ApplyBlock, TablesAfter, Fill, Historied, DataOf, DataAfter, Registered, AllInputs;
    var fs := ApplyBlockFacts(cr, st, header, body);
    ViewsAfterAll(st.ledger.tables, st.ledger.utxos, body.transactions, fs, NextHeight(st), x);
  }
}
