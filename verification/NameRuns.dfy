/** The tables of registered names over every run of connects and disconnects,
  * whatever the blocks: a disconnect that succeeds restores records and sequence
  * numbers, and the numbers are dense exactly while no block of the active chain
  * registers a name twice. */
module NameRuns {
  import opened Wrappers
  import opened Types
  import opened Filling
  import opened BitNames
  import opened Blocks
  import opened BatchedConnect
  import opened DisconnectUndo
  import opened DisconnectExact
  import opened Chains

  // ----- the data of a block, applied and reverted -----

  /** The tables after the data of all transactions. */
  ghost function TablesAfter(t: Tables, fs: seq<FilledTransaction>, height: nat): Result<Tables, BitNameError> {
    if fs == [] then Ok(t) else
    var t1 :- TablesAfter(t, fs[..|fs| - 1], height);
    ApplyData(t1, fs[|fs| - 1], height)
  }

  /** The tables after reverting it, last transaction first. */
  ghost function TablesBefore(t: Tables, fs: seq<FilledTransaction>, height: nat): Result<Tables, BitNameError>
    decreases |fs|
  {
    if fs == [] then Ok(t) else
    var t1 :- RevertData(t, fs[|fs| - 1], height);
    TablesBefore(t1, fs[..|fs| - 1], height)
  }

  lemma {:induction false} AccumulateIsTablesAfter(l: Ledger, b: Batch, fs: seq<FilledTransaction>, height: nat)
    requires Accumulate(l, b, fs, height).Ok?
    ensures TablesAfter(b.tables, fs, height) == Ok(Accumulate(l, b, fs, height).value.tables)
    decreases |fs|
  {
    hide ApplyData, AccumulateTx;
    if fs != [] {
      var n := |fs| - 1;
      AccumulateIsTablesAfter(l, b, fs[..n], height);
      AccumulateTables(l, Accumulate(l, b, fs[..n], height).value, fs[n], height);
    }
  }

  ghost predicate Registers(f: FilledTransaction, x: NameHash) {
    IsRegistration(f.tx) && f.tx.data.value.name == x
  }

  /** The names that the transactions register. */
  ghost function Registered(fs: seq<FilledTransaction>): set<NameHash> {
    set i | 0 <= i < |fs| && IsRegistration(fs[i].tx) :: fs[i].tx.data.value.name
  }

  ghost predicate RegistersTwice(fs: seq<FilledTransaction>, x: NameHash) {
    exists i, j :: 0 <= i < j < |fs| && Registers(fs[i], x) && Registers(fs[j], x)
  }

  ghost predicate Historied(t: Tables) {
    forall x :: x in t.records ==> HasHistory(t.records[x])
  }

  lemma RegisteredStep(fs: seq<FilledTransaction>)
    requires fs != []
    ensures var n := |fs| - 1;
            Registered(fs) == Registered(fs[..n]) + (if IsRegistration(fs[n].tx) then {fs[n].tx.data.value.name} else {})
  {
    var n := |fs| - 1;
    assert forall i :: 0 <= i < n ==> fs[..n][i] == fs[i];
    forall x ensures x in Registered(fs) <==>
        x in Registered(fs[..n]) || (IsRegistration(fs[n].tx) && x == fs[n].tx.data.value.name)
    {
      if x in Registered(fs[..n]) {
        var i :| 0 <= i < n && IsRegistration(fs[..n][i].tx) && fs[..n][i].tx.data.value.name == x;
        assert IsRegistration(fs[i].tx) && fs[i].tx.data.value.name == x;
      }
    }
  }

  lemma TwiceMore(fs: seq<FilledTransaction>, x: NameHash)
    requires fs != []
    ensures RegistersTwice(fs[..|fs| - 1], x) ==> RegistersTwice(fs, x)
    ensures x in Registered(fs[..|fs| - 1]) && Registers(fs[|fs| - 1], x) ==> RegistersTwice(fs, x)
  {
    var n := |fs| - 1;
    assert forall i :: 0 <= i < n ==> fs[..n][i] == fs[i];
    if x in Registered(fs[..n]) && Registers(fs[n], x) {
      var i :| 0 <= i < n && IsRegistration(fs[..n][i].tx) && fs[..n][i].tx.data.value.name == x;
      assert Registers(fs[i], x);
    }
  }

  /** Records come from before or are registered on the way. */
  lemma {:induction false} RecordsAfter(t: Tables, fs: seq<FilledTransaction>, height: nat)
    requires TablesAfter(t, fs, height).Ok?
    ensures TablesAfter(t, fs, height).value.records.Keys == t.records.Keys + Registered(fs)
    ensures Historied(t) ==> Historied(TablesAfter(t, fs, height).value)
    decreases |fs|
  {
    hide ApplyData, HasHistory;
    if fs != [] {
      var n := |fs| - 1;
      RecordsAfter(t, fs[..n], height);
      RegisteredStep(fs);
      var t1 := TablesAfter(t, fs[..n], height).value;
      ApplyDataEffect(t1, fs[n], height);
      if Historied(t) { ApplyDataKeepsHistory(t1, fs[n], height); }
    }
  }

  lemma NextSeqIsNew(seqs: map<nat, NameHash>)
    ensures NextSeq(seqs) !in seqs && forall k :: k in seqs ==> k < NextSeq(seqs)
  {
    if seqs.Keys != {} { MaxExists(seqs.Keys); }
  }

  lemma NextSeqIsLast(seqs: map<nat, NameHash>, x: NameHash)
    ensures LastSeq(seqs[NextSeq(seqs) := x]) == Some(NextSeq(seqs))
  {
    NextSeqIsNew(seqs);
    var s' := seqs[NextSeq(seqs) := x];
    assert NextSeq(seqs) in s'.Keys;
  }

  lemma FieldBack(s: History, u: Update<nat>, txid: Txid, height: nat)
    ensures var r := RevertField(ApplyField(s, u, txid, height), u, txid, height); r.Some? ==> r == Some(s)
  {
    assert ApplyField(s, u, txid, height)[..|s|] == s;
  }

  lemma RecordBack(r: Record, u: DataUpdates, txid: Txid, height: nat)
    ensures var b := RevertRecord(ApplyRecord(r, u, txid, height), u, txid, height); b.Some? ==> b == Some(r)
    ensures HasHistory(r) ==> RevertRecord(ApplyRecord(r, u, txid, height), u, txid, height).Some?
  {
    FieldBack(r.commitment, u.commitment, txid, height);
    FieldBack(r.socketV4, u.socketV4, txid, height);
    FieldBack(r.socketV6, u.socketV6, txid, height);
    FieldBack(r.encryptionKey, u.encryptionKey, txid, height);
    FieldBack(r.signingKey, u.signingKey, txid, height);
    FieldBack(r.paymailFee, u.paymailFee, txid, height);
    if HasHistory(r) { RevertRecordUndoesApply(r, u, txid, height); }
  }

  /** Reverting one transaction, in tables that lack some records `gone`: the test
    * of the last number and the other assertions hold; it fails on a record that is
    * gone, or on a missing reservation. */
  lemma RevertOne(t: Tables, f: FilledTransaction, height: nat, u: Tables, gone: set<NameHash>)
    requires ApplyData(t, f, height).Ok?
    requires var t' := ApplyData(t, f, height).value; u.seqs == t'.seqs && u.records == t'.records - gone
    ensures match RevertData(u, f, height)
            case Ok(u') =>
              u'.seqs == t.seqs &&
              u'.records == t.records - (gone + if IsRegistration(f.tx) then {f.tx.data.value.name} else {})
            case Err(e) =>
              || e == MissingReservation(f.tx.txid) || (e == AssertionFailed && !Historied(t))
              || (e.MissingName? && e.name in gone && (e.name in t.records || Registers(f, e.name)))
  {
    hide Burned, Names, LastSeq, ApplyRecord, RevertRecord, HasHistory;
    match f.tx.data
    case None =>
    case Some(Reservation(_)) =>
    case Some(Registration(name, implied, d)) =>
      NextSeqIsNew(t.seqs);
      NextSeqIsLast(t.seqs, name);
      assert t.seqs[NextSeq(t.seqs) := name] - {NextSeq(t.seqs)} == t.seqs;
      if name !in gone { assert u.records[name].seqId == NextSeq(t.seqs); }
      assert u.records - {name} == t.records - (gone + {name});
    case Some(DataUpdate(d)) =>
      var name := UpdatedName(f).value;
      var r := t.records[name];
      RecordBack(r, d, f.tx.txid, height);
      if name !in gone {
        assert u.records[name := r] == t.records - gone;
        assert t.records - gone == t.records - (gone + {});
      }
  }

  /** Reverting the data of a block, starting from tables that lack `gone`. */
  lemma {:induction false} RevertAll(t: Tables, fs: seq<FilledTransaction>, height: nat, u: Tables, gone: set<NameHash>)
    requires TablesAfter(t, fs, height).Ok? && Registered(fs) !! t.records.Keys
    requires var t' := TablesAfter(t, fs, height).value; u.seqs == t'.seqs && u.records == t'.records - gone
    ensures match TablesBefore(u, fs, height)
            case Ok(u') => u'.seqs == t.seqs && u'.records == t.records - (gone + Registered(fs))
            case Err(e) =>
              || e.MissingReservation? || (e == AssertionFailed && !Historied(t))
              || (e.MissingName? && (e.name in gone || RegistersTwice(fs, e.name)) &&
                  (e.name in t.records || e.name in Registered(fs)))
    decreases |fs|
  {
    hide ApplyData, RevertData, Historied, Registered, RegistersTwice;
    if fs == [] {
      NoneRegistered();
    } else {
      var n := |fs| - 1;
      var t1 := TablesAfter(t, fs[..n], height).value;
      RecordsAfter(t, fs[..n], height);
      RegisteredStep(fs);
      RevertOne(t1, fs[n], height, u, gone);
      var gone' := gone + if IsRegistration(fs[n].tx) then {fs[n].tx.data.value.name} else {};
      match RevertData(u, fs[n], height)
      case Ok(u1) =>
        RevertAll(t, fs[..n], height, u1, gone');
        assert gone' + Registered(fs[..n]) == gone + Registered(fs);
        forall x ensures RegistersTwice(fs[..n], x) ==> RegistersTwice(fs, x)
                 ensures x in Registered(fs[..n]) && Registers(fs[n], x) ==> RegistersTwice(fs, x)
        {
          TwiceMore(fs, x);
        }
      case Err(_) =>
    }
  }

  lemma NoneRegistered()
    ensures Registered([]) == {}
  {
  }

  // ----- undoing the transactions of a block -----

  /** With rows that hold what the transactions spent, undoing them reverts their
    * data, and a failure of the name tables is one of reverting it. */
  lemma {:induction false} UndoIsTablesBefore(l: Ledger, utxos: Utxos, txs: seq<Transaction>, fs: seq<FilledTransaction>, height: nat)
    requires RowsHold(l.stxos, utxos, txs) && |fs| == |txs|
    requires forall i :: 0 <= i < |txs| ==> Fill(utxos, txs[i]) == Ok(fs[i])
    ensures var r, t := UndoTxs(l, txs, height), TablesBefore(l.tables, fs, height);
            && (r.Ok? ==> t == Ok(r.value.0.tables) && r.value.0.stxos == l.stxos - Elements(AllInputs(txs)))
            && (r.Err? && r.error.NameError? ==> t == Err(r.error.nameError))
    decreases |txs|
  {
    hide UndoTx, RevertData, Fill, RowsHold;
    if txs == [] {
      assert Elements(AllInputs(txs)) == {};
    } else {
      var n := |txs| - 1;
      UndoOneData(l, utxos, txs, height);
      assert Fill(utxos, txs[n]) == Ok(fs[n]);
      if UndoTx(l, txs[n], height).Ok? {
        var l1 := UndoTx(l, txs[n], height).value.0;
        UndoFills(l, utxos, txs, height);
        UndoTxFacts(l, txs[n], height);
        assert forall i :: 0 <= i < n ==> txs[..n][i] == txs[i] && fs[..n][i] == fs[i];
        UndoIsTablesBefore(l1, utxos, txs[..n], fs[..n], height);
        ElementsConcat(AllInputs(txs[..n]), txs[n].inputs);
        MinusTwice(l.stxos, Elements(txs[n].inputs), Elements(AllInputs(txs[..n])));
      }
    }
  }

  lemma MinusTwice(s: Stxos, a: set<OutPoint>, b: set<OutPoint>)
    ensures s - a - b == s - (b + a)
  {
  }

  /** A name error of one transaction is one of reverting its data as it was filled. */
  lemma UndoOneData(l: Ledger, utxos: Utxos, txs: seq<Transaction>, height: nat)
    requires txs != [] && RowsHold(l.stxos, utxos, txs)
    ensures var r := UndoTx(l, txs[|txs| - 1], height);
            r.Err? && r.error.NameError? ==>
              Fill(utxos, txs[|txs| - 1]).Ok? &&
              RevertData(l.tables, Fill(utxos, txs[|txs| - 1]).value, height) == Err(r.error.nameError)
  {
    hide RevertData;
    var n := |txs| - 1;
    var tx := txs[n];
    var spent := SpentFrom(l.stxos, tx.txid, tx.inputs);
    if spent.Ok? {
      SpentFromOutputs(l.stxos, tx.txid, tx.inputs);
      forall i | 0 <= i < |tx.inputs| ensures tx.inputs[i] in utxos && spent.value[i] == utxos[tx.inputs[i]] {
        assert tx.inputs[i] in txs[n].inputs;
      }
      assert Fill(utxos, tx).value.spent == spent.value;
    } else {
      SpentFromError(l.stxos, tx.txid, tx.inputs);
    }
  }

  lemma {:induction false} SpentFromError(stxos: Stxos, txid: Txid, inputs: seq<OutPoint>)
    ensures SpentFrom(stxos, txid, inputs).Err? ==> !SpentFrom(stxos, txid, inputs).error.NameError?
  {
    if inputs != [] { SpentFromError(stxos, txid, inputs[..|inputs| - 1]); }
  }

  // ----- one block -----

  /** What an accepted block does to the tables and the spent rows. */
  lemma ApplyBlockFacts(cr: Crypto, st: State, header: Header, body: Body) returns (fs: seq<FilledTransaction>)
    requires ApplyBlock(cr, st, header, body).Ok?
    ensures |fs| == |body.transactions|
    ensures forall i :: 0 <= i < |fs| ==> Fill(st.ledger.utxos, body.transactions[i]) == Ok(fs[i]) && fs[i].tx == body.transactions[i]
    ensures Registered(fs) !! st.ledger.tables.records.Keys
    ensures var st' := ApplyBlock(cr, st, header, body).value;
            && TablesAfter(st.ledger.tables, fs, NextHeight(st)) == Ok(st'.ledger.tables)
            && RowsHold(st'.ledger.stxos, st.ledger.utxos, body.transactions)
            && SameRowsBut(st.ledger.stxos, st'.ledger.stxos, Elements(AllInputs(body.transactions)))
            && NextHeight(st') == NextHeight(st) + 1
  {
    hide Prevalidate, ValidateAll, ValidateFilled, Accumulate, TablesAfter, Fill, AllInputs, Distinct, RowsHold;
    PrevalidateFacts(cr, st, header, body);
    var pre := Prevalidate(cr, st, header, body).value;
    fs := pre.filled;
    forall i | 0 <= i < |fs|
      ensures fs[i].tx == body.transactions[i]
      ensures IsRegistration(fs[i].tx) ==> fs[i].tx.data.value.name !in st.ledger.tables.records
    {
      FillFacts(st.ledger.utxos, body.transactions[i]);
      ValidateAllFacts(st.ledger.tables.records, fs, i);
      ValidTxFacts(st.ledger.tables.records, fs[i]);
    }
    var outs := CoinbaseOutputs(body.coinbase).value;
    var b0 := Batch({}, map[], CoinbasePuts(header, outs), st.ledger.tables);
    AccumulateIsTablesAfter(st.ledger, b0, fs, pre.nextHeight);
    BatchRows(st.ledger, header, body, fs, outs, pre.nextHeight);
    CoinbaseStartBatch(st.ledger, header, body, outs);
    assert fs[..|fs|] == fs && body.transactions[..|fs|] == body.transactions;
    BatchKeys(st.ledger, header, body, fs, b0, |fs|, pre.nextHeight);
    PutsKeep(st.ledger.stxos, Accumulate(st.ledger, b0, fs, pre.nextHeight).value.stxoPuts);
  }

  ghost predicate SameRowsBut(s: Stxos, s': Stxos, changed: set<OutPoint>) {
    forall o :: o !in changed ==> (o in s <==> o in s') && (o in s ==> s[o] == s'[o])
  }

  lemma PutsKeep(s: Stxos, p: Stxos)
    ensures SameRowsBut(s, s + p, p.Keys)
  {
  }

  ghost predicate SameNames(t: Tables, t': Tables) { t.records == t'.records && t.seqs == t'.seqs }

  lemma NamesOnceIff(body: Body, fs: seq<FilledTransaction>)
    requires |fs| == |body.transactions| && forall i :: 0 <= i < |fs| ==> fs[i].tx == body.transactions[i]
    ensures NamesOnce(body.transactions) <==> forall x :: !RegistersTwice(fs, x)
  {
    var txs := body.transactions;
    if !NamesOnce(txs) {
      var i, j :| 0 <= i < j < |txs| && IsRegistration(txs[i]) && IsRegistration(txs[j]) &&
                  txs[i].data.value.name == txs[j].data.value.name;
      assert Registers(fs[i], txs[i].data.value.name) && Registers(fs[j], txs[i].data.value.name);
      assert RegistersTwice(fs, txs[i].data.value.name);
    }
  }

  // ----- runs -----

  /** A block of the active chain, with the states around its connection. */
  datatype Link = Link(block: Block, before: State, after: State)

  /** The links of the active chain; a disconnect drops the last. */
  ghost function NextLinks(cr: Crypto, n: Active, links: seq<Link>, s: Step): seq<Link> {
    match s
    case ConnectStep(b) =>
      (match ApplyBlock(cr, n.state, b.header, b.body)
       case Ok(st) => links + [Link(b, n.state, st)]
       case Err(_) => links)
    case DisconnectStep =>
      if links == [] || n.chain == [] then links else
      var b := n.chain[|n.chain| - 1];
      match DisconnectTip(cr, n.state, b.header, b.body)
      case Ok(_) => links[..|links| - 1]
      case Err(_) => links
  }

  ghost function Links(cr: Crypto, init: State, steps: seq<Step>): seq<Link> {
    if steps == [] then []
    else
      var k := |steps| - 1;
      NextLinks(cr, Run(cr, init, steps[..k]), Links(cr, init, steps[..k]), steps[k])
  }

  /** The tables below block `i`: right after the block before it was connected. */
  ghost function TablesBelow(init: State, links: seq<Link>, i: nat): Tables
    requires i <= |links|
  {
    if i == 0 then init.ledger.tables else links[i - 1].after.ledger.tables
  }

  ghost predicate LinkOk(cr: Crypto, init: State, links: seq<Link>, i: nat)
    requires i < |links|
  {
    var k := links[i];
    && ApplyBlock(cr, k.before, k.block.header, k.block.body) == Ok(k.after)
    && SameNames(k.before.ledger.tables, TablesBelow(init, links, i))
    && NextHeight(k.before) == NextHeight(init) + i
  }

  ghost predicate AllLinksOk(cr: Crypto, init: State, links: seq<Link>) {
    forall i :: 0 <= i < |links| ==> LinkOk(cr, init, links, i)
  }

  ghost predicate Spends(b: Block, o: OutPoint) { o in Elements(AllInputs(b.body.transactions)) }

  /** Block `i` is the last of the chain that spends the outpoint. */
  ghost predicate LastSpender(links: seq<Link>, i: nat, o: OutPoint)
    requires i < |links|
  {
    Spends(links[i].block, o) && forall j :: i < j < |links| ==> !Spends(links[j].block, o)
  }

  /** A spent row, if it is there, holds what the last spender of its outpoint spent. */
  ghost predicate RowsKept(links: seq<Link>, stxos: Stxos) {
    forall i: nat, o :: i < |links| && LastSpender(links, i, o) && o in stxos ==>
      o in links[i].before.ledger.utxos && stxos[o].output == links[i].before.ledger.utxos[o]
  }

  /** The links belong to the active chain, and the names are those after its tip. */
  ghost predicate Tracked(cr: Crypto, init: State, n: Active, links: seq<Link>) {
    && |links| == |n.chain| && (forall i :: 0 <= i < |links| ==> links[i].block == n.chain[i])
    && AllLinksOk(cr, init, links)
    && SameNames(n.state.ledger.tables, TablesBelow(init, links, |links|))
    && NextHeight(n.state) == NextHeight(init) + |links|
    && RowsKept(links, n.state.ledger.stxos)
  }

  lemma ConnectTracked(cr: Crypto, init: State, n: Active, links: seq<Link>, b: Block)
    requires Tracked(cr, init, n, links) && ApplyBlock(cr, n.state, b.header, b.body).Ok?
    ensures var st := ApplyBlock(cr, n.state, b.header, b.body).value;
            Tracked(cr, init, Active(n.chain + [b], st), links + [Link(b, n.state, st)])
  {
    hide ApplyBlock, AllInputs, Elements, RowsHold, TablesAfter, Fill, RowsKept, NextHeight;
    var st := ApplyBlock(cr, n.state, b.header, b.body).value;
    var links' := links + [Link(b, n.state, st)];
    var fs := ApplyBlockFacts(cr, n.state, b.header, b.body);
    forall i | 0 <= i < |links'| ensures LinkOk(cr, init, links', i) {
      if i < |links| { assert LinkOk(cr, init, links, i) && links'[i] == links[i]; }
    }
    ConnectRows(n.state.ledger, st.ledger, links, b, n.state, st);
  }

  lemma ConnectRows(l: Ledger, l': Ledger, links: seq<Link>, b: Block, before: State, after: State)
    requires RowsKept(links, l.stxos) && before.ledger == l
    requires RowsHold(l'.stxos, l.utxos, b.body.transactions)
    requires SameRowsBut(l.stxos, l'.stxos, Elements(AllInputs(b.body.transactions)))
    ensures RowsKept(links + [Link(b, before, after)], l'.stxos)
  {
    hide AllInputs;
    var links' := links + [Link(b, before, after)];
    forall i: nat, o | i < |links'| && LastSpender(links', i, o) && o in l'.stxos
      ensures o in links'[i].before.ledger.utxos && l'.stxos[o].output == links'[i].before.ledger.utxos[o]
    {
      AllInputsMember(b.body.transactions, o);
      if i < |links| {
        assert !Spends(links'[|links|].block, o);
        assert forall j :: i < j < |links| ==> links[j] == links'[j];
        assert LastSpender(links, i, o);
      }
    }
  }

  /** Undoing the tip in a tracked state, as reverting the data of its block. */
  lemma UndoTracked(cr: Crypto, init: State, n: Active, links: seq<Link>) returns (fs: seq<FilledTransaction>)
    requires Tracked(cr, init, n, links) && links != []
    ensures var k := links[|links| - 1];
            var h := NextHeight(k.before);
            var t := k.before.ledger.tables;
            var r := UndoTxs(n.state.ledger, k.block.body.transactions, h);
            && |fs| == |k.block.body.transactions| && (forall i :: 0 <= i < |fs| ==> fs[i].tx == k.block.body.transactions[i])
            && n.state.height == Some(h) && Registered(fs) !! t.records.Keys
            && (r.Ok? ==>
                  && SameNames(r.value.0.tables, t)
                  && r.value.0.stxos == n.state.ledger.stxos - Elements(AllInputs(k.block.body.transactions)))
            && (r.Err? && r.error.NameError? ==>
                  var e := r.error.nameError;
                  e.MissingReservation? || (e == AssertionFailed && !Historied(t)) || (e.MissingName? && RegistersTwice(fs, e.name)))
  {
    hide ApplyBlock, AllInputs, RowsHold, TablesAfter, TablesBefore, Fill, UndoTxs, Registered, RegistersTwice, Historied;
    var k := links[|links| - 1];
    assert LinkOk(cr, init, links, |links| - 1);
    var h, t, u := NextHeight(k.before), k.before.ledger.tables, n.state.ledger.tables;
    fs := ApplyBlockFacts(cr, k.before, k.block.header, k.block.body);
    TipRows(links, n.state.ledger.stxos);
    UndoIsTablesBefore(n.state.ledger, k.before.ledger.utxos, k.block.body.transactions, fs, h);
    var t' := TablesAfter(t, fs, h).value;
    assert u.records == t'.records - {};
    RevertAll(t, fs, h, u, {});
    assert t.records - ({} + Registered(fs)) == t.records;
  }

  lemma TipRows(links: seq<Link>, stxos: Stxos)
    requires links != [] && RowsKept(links, stxos)
    ensures var k := links[|links| - 1]; RowsHold(stxos, k.before.ledger.utxos, k.block.body.transactions)
  {
    hide AllInputs;
    var n := |links| - 1;
    var txs := links[n].block.body.transactions;
    forall i, o | 0 <= i < |txs| && o in txs[i].inputs && o in stxos
      ensures o in links[n].before.ledger.utxos && stxos[o].output == links[n].before.ledger.utxos[o]
    {
      AllInputsMember(txs, o);
      assert LastSpender(links, n, o);
    }
  }

  lemma DisconnectRows(links: seq<Link>, stxos: Stxos)
    requires links != [] && RowsKept(links, stxos)
    ensures RowsKept(links[..|links| - 1], stxos - Elements(AllInputs(links[|links| - 1].block.body.transactions)))
  {
    hide AllInputs, Elements;
    var n := |links| - 1;
    var rest, s' := links[..n], stxos - Elements(AllInputs(links[n].block.body.transactions));
    forall i: nat, o | i < n && LastSpender(rest, i, o) && o in s'
      ensures o in rest[i].before.ledger.utxos && s'[o].output == rest[i].before.ledger.utxos[o]
    {
      assert !Spends(links[n].block, o);
      assert forall j :: i < j < n ==> links[j] == rest[j];
      assert LastSpender(links, i, o);
    }
  }

  lemma DisconnectTracked(cr: Crypto, init: State, n: Active, links: seq<Link>)
    requires Tracked(cr, init, n, links) && links != []
    requires var b := links[|links| - 1].block; DisconnectTip(cr, n.state, b.header, b.body).Ok?
    ensures var b := links[|links| - 1].block;
            Tracked(cr, init, Active(n.chain[..|n.chain| - 1], DisconnectTip(cr, n.state, b.header, b.body).value), links[..|links| - 1])
  {
    hide ApplyBlock, AllInputs, Elements, RowsKept, UndoTxs, Historied, Registered, RegistersTwice;
    var m := |links| - 1;
    var fs := UndoTracked(cr, init, n, links);
    DisconnectRows(links, n.state.ledger.stxos);
    assert LinkOk(cr, init, links, m);
    var rest := links[..m];
    forall i | 0 <= i < m ensures LinkOk(cr, init, rest, i) {
      assert LinkOk(cr, init, links, i) && rest[i] == links[i];
    }
    assert TablesBelow(init, rest, m) == TablesBelow(init, links, m);
  }

  /** After every run, whatever its blocks: each block of the active chain was
    * connected where the names were those right after the block before it, and the
    * names are now those right after the tip was connected. So a disconnect that
    * succeeds restores records and sequence numbers, even if it does not restore
    * the state. */
  lemma {:induction false} RunKeepsNames(cr: Crypto, init: State, steps: seq<Step>)
    ensures Tracked(cr, init, Run(cr, init, steps), Links(cr, init, steps))
  {
    hide ApplyBlock, DisconnectTip, Tracked;
    if steps == [] {
      NothingTracked(cr, init);
    } else {
      var k := |steps| - 1;
      var n, links := Run(cr, init, steps[..k]), Links(cr, init, steps[..k]);
      RunKeepsNames(cr, init, steps[..k]);
      TrackedChain(cr, init, n, links);
      match steps[k]
      case ConnectStep(b) =>
        if ApplyBlock(cr, n.state, b.header, b.body).Ok? { ConnectTracked(cr, init, n, links, b); }
      case DisconnectStep =>
        if n.chain != [] {
          var b := n.chain[|n.chain| - 1];
          if DisconnectTip(cr, n.state, b.header, b.body).Ok? { DisconnectTracked(cr, init, n, links); }
        }
    }
  }

  lemma NothingTracked(cr: Crypto, init: State)
    ensures Tracked(cr, init, Active([], init), [])
  {
  }

  lemma TrackedChain(cr: Crypto, init: State, n: Active, links: seq<Link>)
    requires Tracked(cr, init, n, links)
    ensures |links| == |n.chain| && forall i :: 0 <= i < |links| ==> links[i].block == n.chain[i]
  {
    hide AllLinksOk, RowsKept, SameNames;
  }

  /** Where a link comes from: the step that connected its block, after which the
    * chain always kept that block. */
  lemma {:induction false} LinkMeaning(cr: Crypto, init: State, steps: seq<Step>, i: nat) returns (k: nat)
    requires i < |Links(cr, init, steps)|
    ensures k < |steps|
    ensures var link := Links(cr, init, steps)[i];
            && steps[k] == ConnectStep(link.block)
            && |Run(cr, init, steps[..k]).chain| == i && Run(cr, init, steps[..k]).state == link.before
            && Run(cr, init, steps[..k + 1]).state == link.after
    ensures forall m :: k < m <= |steps| ==> |Run(cr, init, steps[..m]).chain| > i
    decreases |steps|
  {
    hide ApplyBlock, DisconnectTip, Run, Tracked;
    var n := |steps| - 1;
    var before := steps[..n];
    RunKeepsNames(cr, init, before);
    RunKeepsNames(cr, init, steps);
    TrackedChain(cr, init, Run(cr, init, before), Links(cr, init, before));
    TrackedChain(cr, init, Run(cr, init, steps), Links(cr, init, steps));
    RunStep(cr, init, steps);
    assert steps[..n + 1] == steps;
    if i < |Links(cr, init, before)| {
      k := LinkMeaning(cr, init, before, i);
      assert before[..k] == steps[..k] && before[..k + 1] == steps[..k + 1];
      forall m | k < m <= |steps| ensures |Run(cr, init, steps[..m]).chain| > i {
        if m < |steps| { assert before[..m] == steps[..m]; } else { assert steps[..m] == steps; }
      }
    } else {
      k := n;
    }
  }

  lemma RunStep(cr: Crypto, init: State, steps: seq<Step>)
    requires steps != []
    ensures var n := |steps| - 1; Run(cr, init, steps) == Next(cr, Run(cr, init, steps[..n]), steps[n])
  {
    hide Next;
  }

  // ----- sequence numbers -----

  /** One name has two numbers. */
  ghost predicate Twinned(seqs: map<nat, NameHash>) {
    exists a, b :: a in seqs && b in seqs && a != b && seqs[a] == seqs[b]
  }

  lemma TwinnedIsNotDense(t: Tables)
    requires Twinned(t.seqs)
    ensures !SeqsDense(t)
  {
  }

  /** Numbers stay where they are. */
  ghost predicate Grows(s: map<nat, NameHash>, s': map<nat, NameHash>) {
    forall i :: i in s ==> i in s' && s'[i] == s[i]
  }

  lemma GrowsOne(t: Tables, f: FilledTransaction, height: nat)
    requires ApplyData(t, f, height).Ok?
    ensures var t' := ApplyData(t, f, height).value;
            && Grows(t.seqs, t'.seqs)
            && (IsRegistration(f.tx) ==>
                  var n := NextSeq(t.seqs); n !in t.seqs && n in t'.seqs && t'.seqs[n] == f.tx.data.value.name)
  {
    hide Burned, Names, LastSeq;
    NextSeqIsNew(t.seqs);
  }

  lemma {:induction false} NumbersAfter(t: Tables, fs: seq<FilledTransaction>, height: nat)
    requires TablesAfter(t, fs, height).Ok?
    ensures var s := TablesAfter(t, fs, height).value.seqs;
            && Grows(t.seqs, s)
            && (forall x :: x in Registered(fs) ==> exists a :: a in s && s[a] == x)
            && (forall x :: RegistersTwice(fs, x) ==> Twinned(s))
    decreases |fs|
  {
    hide ApplyData, Registered, RegistersTwice, NextSeq;
    if fs == [] {
      NoneRegistered();
      NoneTwice();
    } else {
      var n := |fs| - 1;
      NumbersAfter(t, fs[..n], height);
      RegisteredStep(fs);
      var t1, t' := TablesAfter(t, fs[..n], height).value, TablesAfter(t, fs, height).value;
      GrowsOne(t1, fs[n], height);
      forall x | x in Registered(fs) ensures exists a :: a in t'.seqs && t'.seqs[a] == x {
        if x in Registered(fs[..n]) {
          var a :| a in t1.seqs && t1.seqs[a] == x;
          assert t'.seqs[a] == x;
        }
      }
      forall x | RegistersTwice(fs, x) ensures Twinned(t'.seqs) {
        TwiceStep(fs, x);
        if RegistersTwice(fs[..n], x) {
          var a, b :| a in t1.seqs && b in t1.seqs && a != b && t1.seqs[a] == t1.seqs[b];
          assert t'.seqs[a] == t'.seqs[b];
        } else {
          var a :| a in t1.seqs && t1.seqs[a] == x;
          assert t'.seqs[a] == t'.seqs[NextSeq(t1.seqs)];
        }
      }
    }
  }

  lemma NoneTwice()
    ensures forall x :: !RegistersTwice([], x)
  {
  }

  lemma TwiceStep(fs: seq<FilledTransaction>, x: NameHash)
    requires RegistersTwice(fs, x)
    ensures fs != []
    ensures var n := |fs| - 1; RegistersTwice(fs[..n], x) || (x in Registered(fs[..n]) && Registers(fs[n], x))
  {
    var n := |fs| - 1;
    assert forall i :: 0 <= i < n ==> fs[..n][i] == fs[i];
    var i, j :| 0 <= i < j < |fs| && Registers(fs[i], x) && Registers(fs[j], x);
    assert Registers(fs[..n][i], x);
    if j < n { assert Registers(fs[..n][j], x); }
  }

  lemma {:induction false} DenseAfter(t: Tables, fs: seq<FilledTransaction>, height: nat)
    requires TablesAfter(t, fs, height).Ok? && SeqsDense(t) && Registered(fs) !! t.records.Keys
    requires forall x :: !RegistersTwice(fs, x)
    ensures SeqsDense(TablesAfter(t, fs, height).value)
    decreases |fs|
  {
    hide ApplyData, Registered, RegistersTwice, SeqsDense;
    if fs != [] {
      var n := |fs| - 1;
      RegisteredStep(fs);
      forall x ensures !RegistersTwice(fs[..n], x) && !(x in Registered(fs[..n]) && Registers(fs[n], x)) { TwiceMore(fs, x); }
      DenseAfter(t, fs[..n], height);
      RecordsAfter(t, fs[..n], height);
      var t1 := TablesAfter(t, fs[..n], height).value;
      if IsRegistration(fs[n].tx) { assert Registers(fs[n], fs[n].tx.data.value.name); }
      ApplyDataKeepsDense(t1, fs[n], height);
    }
  }

  /** What an accepted block does to the sequence numbers. */
  lemma BlockNumbers(cr: Crypto, st: State, header: Header, body: Body)
    requires ApplyBlock(cr, st, header, body).Ok?
    ensures var t, t' := st.ledger.tables, ApplyBlock(cr, st, header, body).value.ledger.tables;
            && Grows(t.seqs, t'.seqs)
            && (NamesOnce(body.transactions) && SeqsDense(t) ==> SeqsDense(t'))
            && (!NamesOnce(body.transactions) ==> Twinned(t'.seqs))
  {
    hide ApplyBlock, TablesAfter, Fill, RowsHold, AllInputs, SeqsDense, Registered, RegistersTwice, NamesOnce;
    var fs := ApplyBlockFacts(cr, st, header, body);
    NamesOnceIff(body, fs);
    NumbersAfter(st.ledger.tables, fs, NextHeight(st));
    if NamesOnce(body.transactions) && SeqsDense(st.ledger.tables) { DenseAfter(st.ledger.tables, fs, NextHeight(st)); }
  }

  /** An accepted block keeps the sequence numbers dense and one-to-one if and only
    * if it registers each name once. */
  lemma BlockDenseIff(cr: Crypto, st: State, header: Header, body: Body)
    requires SeqsDense(st.ledger.tables) && ApplyBlock(cr, st, header, body).Ok?
    ensures SeqsDense(ApplyBlock(cr, st, header, body).value.ledger.tables) <==> NamesOnce(body.transactions)
  {
    hide ApplyBlock, SeqsDense, NamesOnce, Twinned;
    BlockNumbers(cr, st, header, body);
    if !NamesOnce(body.transactions) { TwinnedIsNotDense(ApplyBlock(cr, st, header, body).value.ledger.tables); }
  }

  ghost predicate AllNamesOnce(chain: seq<Block>) {
    forall i :: 0 <= i < |chain| ==> NamesOnce(chain[i].body.transactions)
  }

  lemma SameNamesDense(t: Tables, t': Tables)
    requires SameNames(t, t')
    ensures SeqsDense(t) <==> SeqsDense(t')
  {
  }

  lemma {:induction false} LinksDense(cr: Crypto, init: State, links: seq<Link>, i: nat)
    requires AllLinksOk(cr, init, links) && i <= |links| && SeqsDense(init.ledger.tables)
    ensures (forall j :: 0 <= j < i ==> NamesOnce(links[j].block.body.transactions)) ==> SeqsDense(TablesBelow(init, links, i))
    ensures (exists j :: 0 <= j < i && !NamesOnce(links[j].block.body.transactions)) ==> Twinned(TablesBelow(init, links, i).seqs)
    decreases i
  {
    hide ApplyBlock, SeqsDense, NamesOnce;
    if i > 0 {
      var k := links[i - 1];
      LinksDense(cr, init, links, i - 1);
      assert LinkOk(cr, init, links, i - 1);
      SameNamesDense(k.before.ledger.tables, TablesBelow(init, links, i - 1));
      BlockNumbers(cr, k.before, k.block.header, k.block.body);
      if Twinned(k.before.ledger.tables.seqs) { TwinnedGrows(k.before.ledger.tables.seqs, k.after.ledger.tables.seqs); }
    }
  }

  lemma TwinnedGrows(s: map<nat, NameHash>, s': map<nat, NameHash>)
    requires Twinned(s) && Grows(s, s')
    ensures Twinned(s')
  {
    var a, b :| a in s && b in s && a != b && s[a] == s[b];
    assert s'[a] == s'[b];
  }

  /** After every run of connects and disconnects, successful or not: the sequence
    * numbers are 0..n-1 and one-to-one with the registered names if and only if
    * every block of the active chain registers each of its names once. */
  lemma RunDenseIff(cr: Crypto, init: State, steps: seq<Step>)
    requires SeqsDense(init.ledger.tables)
    ensures var n := Run(cr, init, steps); SeqsDense(n.state.ledger.tables) <==> AllNamesOnce(n.chain)
  {
    hide Run, Links, SeqsDense, NamesOnce, Twinned, RowsKept, LinkOk;
    RunKeepsNames(cr, init, steps);
    var n, links := Run(cr, init, steps), Links(cr, init, steps);
    LinksDense(cr, init, links, |links|);
    SameNamesDense(n.state.ledger.tables, TablesBelow(init, links, |links|));
    if !AllNamesOnce(n.chain) {
      var j :| 0 <= j < |n.chain| && !NamesOnce(n.chain[j].body.transactions);
      assert !NamesOnce(links[j].block.body.transactions);
      TwinnedIsNotDense(TablesBelow(init, links, |links|));
    }
  }

  // ----- why a disconnect can fail -----

  lemma {:induction false} LinksHistoried(cr: Crypto, init: State, links: seq<Link>, i: nat)
    requires AllLinksOk(cr, init, links) && i <= |links| && Historied(init.ledger.tables)
    ensures Historied(TablesBelow(init, links, i))
    decreases i
  {
    hide ApplyBlock, TablesAfter, Fill, RowsHold, AllInputs, HasHistory;
    if i > 0 {
      var k := links[i - 1];
      LinksHistoried(cr, init, links, i - 1);
      assert LinkOk(cr, init, links, i - 1);
      var fs := ApplyBlockFacts(cr, k.before, k.block.header, k.block.body);
      RecordsAfter(k.before.ledger.tables, fs, NextHeight(k.before));
    }
  }

  /** In every run, disconnecting the tip fails in the name tables only for a
    * reservation that is not there, or for a name that the tip registers twice. The
    * test that the last sequence number belongs to the name, and every other
    * assertion on names, holds. */
  lemma DisconnectNameErrors(cr: Crypto, init: State, steps: seq<Step>)
    requires Historied(init.ledger.tables) && Run(cr, init, steps).chain != []
    ensures var n := Run(cr, init, steps);
            var b := n.chain[|n.chain| - 1];
            var r := DisconnectTip(cr, n.state, b.header, b.body);
            r.Err? && r.error.NameError? ==>
              r.error.nameError.MissingReservation? ||
              (r.error.nameError.MissingName? && !NamesOnce(b.body.transactions))
  {
    hide Run, Links, UndoTxs, NamesOnce, Historied, RegistersTwice, Registered, RowsKept, LinkOk, AllInputs;
    RunKeepsNames(cr, init, steps);
    var n, links := Run(cr, init, steps), Links(cr, init, steps);
    var m := |links| - 1;
    var fs := UndoTracked(cr, init, n, links);
    LinksHistoried(cr, init, links, m);
    BelowHistoried(cr, init, links, m);
    NamesOnceIff(links[m].block.body, fs);
  }

  lemma BelowHistoried(cr: Crypto, init: State, links: seq<Link>, i: nat)
    requires i < |links| && LinkOk(cr, init, links, i) && Historied(TablesBelow(init, links, i))
    ensures Historied(links[i].before.ledger.tables)
  {
    hide ApplyBlock, HasHistory;
  }
}
