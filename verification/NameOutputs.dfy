/** Unspent outputs that hold names, and the records of those names, over runs. */
module NameOutputs {
  import opened Wrappers
  import opened Types
  import opened Filling
  import opened BitNames
  import opened Blocks
  import opened BatchedConnect
  import opened DisconnectUndo
  import opened DisconnectExact
  import opened Chains
  import opened NameRuns
  import opened ValidBlocks

  // ----- outputs of an accepted block -----

  /** Names that a transaction hands to its outputs are spent ones or the new one. */
  lemma OutputName(l: Ledger, f: FilledTransaction, i: nat)
    requires Fill(l.utxos, f.tx) == Ok(f) && FilledOutputs(f).Some? && i < |FilledOutputs(f).value|
    requires FilledOutputs(f).value[i].content.FilledName? && NamesListed(l)
    ensures var x := FilledOutputs(f).value[i].content.name; x in l.tables.records || Registers(f, x)
  {
    hide Fill, FillFrom, Names, Claims;
    var outs := FilledOutputs(f).value;
    var x := outs[i].content.name;
    FilledOutputsFacts(f);
    NameMember(outs, x);
    assert x in OutputNames(f);
    if x in Names(f.spent) { var o := SpentName(l.utxos, f, x); }
  }

  /** Names that the batch puts are registered in its tables. */
  lemma {:induction false} PutsListed(l: Ledger, b0: Batch, fs: seq<FilledTransaction>, height: nat)
    requires NamesListed(l) && b0.tables == l.tables && Accumulate(l, b0, fs, height).Ok?
    requires forall i :: 0 <= i < |fs| ==> Fill(l.utxos, fs[i].tx) == Ok(fs[i])
    requires forall o :: o in b0.utxoPuts ==> !b0.utxoPuts[o].content.FilledName?
    ensures var b := Accumulate(l, b0, fs, height).value;
            && l.tables.records.Keys <= b.tables.records.Keys
            && forall o :: o in b.utxoPuts && b.utxoPuts[o].content.FilledName? ==> b.utxoPuts[o].content.name in b.tables.records
    decreases |fs|
  {
    hide ApplyData, Fill, FilledOutputs, NamesListed, SpentPuts;
    if fs != [] {
      var n := |fs| - 1;
      PutsListed(l, b0, fs[..n], height);
      var b, b' := Accumulate(l, b0, fs[..n], height).value, Accumulate(l, b0, fs, height).value;
      var f := fs[n];
      AccumulateTables(l, b, f, height);
      ApplyDataEffect(b.tables, f, height);
      var outs := FilledOutputs(f).value;
      forall o | o in b'.utxoPuts && b'.utxoPuts[o].content.FilledName? ensures b'.utxoPuts[o].content.name in b'.tables.records {
        if o in OutputPuts(f.tx.txid, outs) {
          assert b'.utxoPuts[o] == outs[o.vout];
          OutputName(l, f, o.vout);
        } else {
          assert o in b.utxoPuts && b'.utxoPuts[o] == b.utxoPuts[o];
        }
      }
    }
  }

  /** Every accepted block, whatever its transactions, keeps unspent names registered.
    * What is unspent after it was unspent before and is not created by it, or is
    * one of its outputs. */
  lemma ApplyKeepsListed(cr: Crypto, st: State, header: Header, body: Body)
    requires ApplyBlock(cr, st, header, body).Ok?
    ensures var st' := ApplyBlock(cr, st, header, body).value;
            && (NamesListed(st.ledger) ==> NamesListed(st'.ledger))
            && forall o :: o in st'.ledger.utxos && o !in CreatedUpTo(header, body, |body.transactions|) ==>
                 o in st.ledger.utxos && st'.ledger.utxos[o] == st.ledger.utxos[o]
  {
    hide Prevalidate, ValidateAll, Accumulate, Fill, AllInputs, Distinct, CreatedUpTo;
    PrevalidateFacts(cr, st, header, body);
    var l, pre := st.ledger, Prevalidate(cr, st, header, body).value;
    var fs := pre.filled;
    forall i | 0 <= i < |fs| ensures fs[i].tx == body.transactions[i] { FillFacts(l.utxos, body.transactions[i]); }
    var outs := CoinbaseOutputs(body.coinbase).value;
    CoinbaseOutputsFacts(body.coinbase);
    CoinbaseStartBatch(l, header, body, outs);
    var b0 := Batch({}, map[], CoinbasePuts(header, outs), l.tables);
    assert fs[..|fs|] == fs && body.transactions[..|fs|] == body.transactions;
    BatchKeys(l, header, body, fs, b0, |fs|, pre.nextHeight);
    if NamesListed(l) { PutsListed(l, b0, fs, pre.nextHeight); }
  }

  // ----- outputs over every run -----

  ghost predicate SubMap(u: Utxos, v: Utxos) {
    forall o :: o in u ==> o in v && u[o] == v[o]
  }

  /** Where the outputs come from that are unspent after an undo. */
  ghost predicate Restored(u: Utxos, was: Utxos, now: Utxos, txs: seq<Transaction>) {
    forall o :: o in u ==>
      || (o in was && u[o] == was[o])
      || (o in now && u[o] == now[o] && forall i :: 0 <= i < |txs| ==> o !in CreatedBy(txs[i]))
  }

  lemma {:induction false} UndoOutputs(l: Ledger, utxos: Utxos, txs: seq<Transaction>, height: nat)
    requires RowsHold(l.stxos, utxos, txs) && UndoTxs(l, txs, height).Ok?
    ensures Restored(UndoTxs(l, txs, height).value.0.utxos, utxos, l.utxos, txs)
    decreases |txs|
  {
    hide UndoTx, RowsHold, CreatedBy, UndoTxs;
    if txs == [] {
      UndoNothing(l, height);
    } else {
      var n := |txs| - 1;
      UndoTxsStep(l, txs, height);
      UndoFills(l, utxos, txs, height);
      var l1 := UndoTx(l, txs[n], height).value.0;
      UndoOutputsOne(l, utxos, txs, height);
      UndoOutputs(l1, utxos, txs[..n], height);
      var u := UndoTxs(l, txs, height).value.0.utxos;
      forall o | o in u && !(o in utxos && u[o] == utxos[o])
        ensures o in l.utxos && u[o] == l.utxos[o] && forall i :: 0 <= i < |txs| ==> o !in CreatedBy(txs[i])
      {
        assert forall i :: 0 <= i < n ==> txs[..n][i] == txs[i];
      }
    }
  }

  lemma UndoNothing(l: Ledger, height: nat)
    ensures UndoTxs(l, [], height) == Ok((l, []))
  {
  }

  lemma UndoOutputsOne(l: Ledger, utxos: Utxos, txs: seq<Transaction>, height: nat)
    requires txs != [] && RowsHold(l.stxos, utxos, txs) && UndoTx(l, txs[|txs| - 1], height).Ok?
    ensures var tx, u := txs[|txs| - 1], UndoTx(l, txs[|txs| - 1], height).value.0.utxos;
            forall o :: o in u ==>
              (o in utxos && u[o] == utxos[o]) || (o in l.utxos && u[o] == l.utxos[o] && o !in CreatedBy(tx))
  {
    hide RevertData, SpentFrom, CreatedBy;
  }

  /** The outputs below block `i`: right after the block before it was connected. */
  ghost function OutputsBelow(init: State, links: seq<Link>, i: nat): Utxos
    requires i <= |links|
  {
    if i == 0 then init.ledger.utxos else links[i - 1].after.ledger.utxos
  }

  ghost predicate OutputsOk(init: State, n: Active, links: seq<Link>) {
    && (forall i :: 0 <= i < |links| ==> SubMap(links[i].before.ledger.utxos, OutputsBelow(init, links, i)))
    && SubMap(n.state.ledger.utxos, OutputsBelow(init, links, |links|))
  }

  lemma DisconnectOutputs(cr: Crypto, init: State, n: Active, links: seq<Link>)
    requires Tracked(cr, init, n, links) && links != [] && OutputsOk(init, n, links)
    requires var b := links[|links| - 1].block; DisconnectTip(cr, n.state, b.header, b.body).Ok?
    ensures var k := links[|links| - 1];
            SubMap(DisconnectTip(cr, n.state, k.block.header, k.block.body).value.ledger.utxos, k.before.ledger.utxos)
  {
    hide ApplyBlock, UndoTxs, RowsHold, RowsKept, CreatedBy, CreatedUpTo, CoinbaseCreated, Historied, Registered, RegistersTwice, AllInputs;
    var k := links[|links| - 1];
    var header, body := k.block.header, k.block.body;
    assert LinkOk(cr, init, links, |links| - 1);
    TipRows(links, n.state.ledger.stxos);
    var fs := UndoTracked(cr, init, n, links);
    UndoOutputs(n.state.ledger, k.before.ledger.utxos, body.transactions, NextHeight(k.before));
    ApplyKeepsListed(cr, k.before, header, body);
    var u := DisconnectTip(cr, n.state, header, body).value.ledger.utxos;
    forall o | o in u ensures o in k.before.ledger.utxos && u[o] == k.before.ledger.utxos[o] {
      CreatedMember(header, body, |body.transactions|, o);
    }
  }

  lemma OutputsConnect(init: State, n: Active, links: seq<Link>, b: Block, st: State)
    requires OutputsOk(init, n, links)
    ensures OutputsOk(init, Active(n.chain + [b], st), links + [Link(b, n.state, st)])
  {
    hide SubMap;
    var links' := links + [Link(b, n.state, st)];
    SubMapSelf(st.ledger.utxos);
    forall i | 0 <= i < |links'| ensures SubMap(links'[i].before.ledger.utxos, OutputsBelow(init, links', i)) {
      if i < |links| { assert SubMap(links[i].before.ledger.utxos, OutputsBelow(init, links, i)); }
    }
  }

  lemma OutputsDisconnect(init: State, n: Active, links: seq<Link>, chain: seq<Block>, st: State)
    requires OutputsOk(init, n, links) && links != [] && SubMap(st.ledger.utxos, links[|links| - 1].before.ledger.utxos)
    ensures OutputsOk(init, Active(chain, st), links[..|links| - 1])
  {
    hide SubMap;
    var m := |links| - 1;
    var rest := links[..m];
    SubMapTrans(st.ledger.utxos, links[m].before.ledger.utxos, OutputsBelow(init, links, m));
    forall i | 0 <= i < m ensures SubMap(rest[i].before.ledger.utxos, OutputsBelow(init, rest, i)) {
      assert SubMap(links[i].before.ledger.utxos, OutputsBelow(init, links, i));
    }
  }

  lemma OutputsStart(init: State)
    ensures OutputsOk(init, Active([], init), [])
  {
  }

  /** After every run, whatever its blocks: the unspent outputs are among those right
    * after the tip was connected. A disconnect may lose outputs, but brings none
    * back that was not there. */
  lemma {:induction false} RunKeepsOutputs(cr: Crypto, init: State, steps: seq<Step>)
    ensures OutputsOk(init, Run(cr, init, steps), Links(cr, init, steps))
  {
    hide ApplyBlock, DisconnectTip, Tracked, SubMap, OutputsOk;
    if steps == [] {
      OutputsStart(init);
    } else {
      var k := |steps| - 1;
      var n, links := Run(cr, init, steps[..k]), Links(cr, init, steps[..k]);
      RunKeepsOutputs(cr, init, steps[..k]);
      RunKeepsNames(cr, init, steps[..k]);
      TrackedChain(cr, init, n, links);
      match steps[k]
      case ConnectStep(b) =>
        var r := ApplyBlock(cr, n.state, b.header, b.body);
        if r.Ok? { OutputsConnect(init, n, links, b, r.value); }
      case DisconnectStep =>
        if n.chain != [] {
          var b := n.chain[|n.chain| - 1];
          var r := DisconnectTip(cr, n.state, b.header, b.body);
          if r.Ok? {
            DisconnectOutputs(cr, init, n, links);
            OutputsDisconnect(init, n, links, n.chain[..|n.chain| - 1], r.value);
          }
        }
    }
  }

  lemma SubMapSelf(u: Utxos)
    ensures SubMap(u, u)
  {
  }

  lemma SubMapTrans(u: Utxos, v: Utxos, w: Utxos)
    requires SubMap(u, v) && SubMap(v, w)
    ensures SubMap(u, w)
  {
  }

  lemma FewerListed(l: Ledger, l': Ledger)
    requires NamesListed(l) && SubMap(l'.utxos, l.utxos) && SameNames(l'.tables, l.tables)
    ensures NamesListed(l')
  {
  }

  ghost function LedgerBelow(init: State, links: seq<Link>, i: nat): Ledger
    requires i <= |links|
  {
    if i == 0 then init.ledger else links[i - 1].after.ledger
  }

  lemma {:induction false} LinksListed(cr: Crypto, init: State, n: Active, links: seq<Link>, i: nat)
    requires AllLinksOk(cr, init, links) && OutputsOk(init, n, links) && i <= |links| && NamesListed(init.ledger)
    ensures NamesListed(LedgerBelow(init, links, i))
    decreases i
  {
    hide ApplyBlock, NamesListed, SubMap, CreatedUpTo;
    if i > 0 {
      var k := links[i - 1];
      LinksListed(cr, init, n, links, i - 1);
      assert LinkOk(cr, init, links, i - 1);
      FewerListed(LedgerBelow(init, links, i - 1), k.before.ledger);
      ApplyKeepsListed(cr, k.before, k.block.header, k.block.body);
    }
  }

  /** After every run, whatever its blocks, every unspent output that holds a name
    * holds a registered one. */
  lemma RunKeepsListed(cr: Crypto, init: State, steps: seq<Step>)
    requires NamesListed(init.ledger)
    ensures NamesListed(Run(cr, init, steps).state.ledger)
  {
    hide Run, Links, NamesListed, SubMap, RowsKept, LinkOk;
    RunKeepsNames(cr, init, steps);
    RunKeepsOutputs(cr, init, steps);
    var n, links := Run(cr, init, steps), Links(cr, init, steps);
    LinksListed(cr, init, n, links, |links|);
    FewerListed(LedgerBelow(init, links, |links|), n.state.ledger);
  }

  // ----- one output for each name -----

  /** Unspent names are registered, each registered name has an unspent output, and
    * no two outputs hold one name. */
  ghost predicate NamesExact(l: Ledger) {
    && NamesListed(l)
    && (forall x :: x in l.tables.records ==> NameHeld(l.utxos, x))
    && (forall o, o' :: o in l.utxos && o' in l.utxos && o != o' &&
                        l.utxos[o].content.FilledName? && l.utxos[o'].content.FilledName? ==>
                          l.utxos[o].content.name != l.utxos[o'].content.name)
  }

  ghost predicate NameHeld(utxos: Utxos, x: NameHash) {
    exists o :: o in utxos && utxos[o].content == FilledName(x)
  }

  ghost predicate DistinctHeld(outs: seq<FilledOutput>) {
    forall i, j :: 0 <= i < j < |outs| && outs[i].content.FilledName? && outs[j].content.FilledName? ==>
                     outs[i].content.name != outs[j].content.name
  }

  lemma {:induction false} DistinctNames(outs: seq<FilledOutput>)
    ensures Distinct(Names(outs)) <==> DistinctHeld(outs)
  {
    hide DistinctHeld, Distinct;
    if outs == [] {
      NoneHeld();
    } else {
      var tail := outs[1..];
      DistinctNames(tail);
      HeldTail(outs);
      if outs[0].content.FilledName? {
        var x := outs[0].content.name;
        assert Names(outs) == [x] + Names(tail);
        DistinctConcat([x], Names(tail));
        DistinctOne(x);
        NameMember(tail, x);
        assert Elements([x]) == {x};
        assert Elements([x]) !! Elements(Names(tail)) <==> x !in Names(tail);
      } else {
        assert Names(outs) == Names(tail);
      }
    }
  }

  lemma NoneHeld()
    ensures Distinct(Names([])) && DistinctHeld([])
  {
  }

  lemma DistinctOne(x: NameHash)
    ensures Distinct([x])
  {
  }

  lemma HeldTail(outs: seq<FilledOutput>)
    requires outs != []
    ensures DistinctHeld(outs) <==>
            DistinctHeld(outs[1..]) &&
            (outs[0].content.FilledName? ==>
               !exists i :: 0 <= i < |outs[1..]| && outs[1..][i].content == FilledName(outs[0].content.name))
  {
    var tail := outs[1..];
    assert forall i :: 0 <= i < |tail| ==> outs[i + 1] == tail[i];
    if DistinctHeld(outs) {
      forall i, j | 0 <= i < j < |tail| && tail[i].content.FilledName? && tail[j].content.FilledName?
        ensures tail[i].content.name != tail[j].content.name
      {
        assert outs[i + 1] == tail[i] && outs[j + 1] == tail[j];
      }
    } else {
      var i, j :| 0 <= i < j < |outs| && outs[i].content.FilledName? && outs[j].content.FilledName? &&
                  outs[i].content.name == outs[j].content.name;
      assert outs[j] == tail[j - 1];
      if i > 0 { assert outs[i] == tail[i - 1]; } else { assert tail[j - 1].content == FilledName(outs[0].content.name); }
    }
  }

  /** What one valid transaction does to outputs and names. */
  ghost predicate MovesNames(l: Ledger, f: FilledTransaction, outs: seq<FilledOutput>, l': Ledger) {
    && Fill(l.utxos, f.tx) == Ok(f) && Distinct(f.tx.inputs) && Names(outs) == OutputNames(f)
    && l'.utxos == l.utxos - Elements(f.tx.inputs) + OutputPuts(f.tx.txid, outs)
    && OutputPuts(f.tx.txid, outs).Keys !! l.utxos.Keys - Elements(f.tx.inputs)
    && (IsRegistration(f.tx) ==> f.tx.data.value.name !in l.tables.records)
    && l'.tables.records.Keys == l.tables.records.Keys + (if IsRegistration(f.tx) then {f.tx.data.value.name} else {})
  }

  lemma SpentNamesDistinct(l: Ledger, f: FilledTransaction)
    requires NamesExact(l) && Fill(l.utxos, f.tx) == Ok(f) && Distinct(f.tx.inputs)
    ensures Distinct(Names(f.spent))
  {
    hide Fill, NameHeld;
    FillFacts(l.utxos, f.tx);
    forall i, j | 0 <= i < j < |f.spent| && f.spent[i].content.FilledName? && f.spent[j].content.FilledName?
      ensures f.spent[i].content.name != f.spent[j].content.name
    {
      assert f.tx.inputs[i] != f.tx.inputs[j];
    }
    DistinctNames(f.spent);
  }

  /** Handed-out names are distinct, and held by spent inputs or new. */
  lemma HandedNames(l: Ledger, f: FilledTransaction, outs: seq<FilledOutput>, l': Ledger)
    requires NamesExact(l) && MovesNames(l, f, outs, l')
    ensures DistinctHeld(outs)
    ensures forall i :: 0 <= i < |outs| && outs[i].content.FilledName? ==>
              Registers(f, outs[i].content.name) ||
              exists o :: o in f.tx.inputs && o in l.utxos && l.utxos[o].content == outs[i].content
  {
    hide Fill, Names, NameHeld, Distinct;
    SpentNamesDistinct(l, f);
    if IsRegistration(f.tx) {
      var x := f.tx.data.value.name;
      DistinctConcat(Names(f.spent), [x]);
      DistinctOne(x);
      if x in Names(f.spent) { var o := SpentName(l.utxos, f, x); }
    } else {
      assert OutputNames(f) == Names(f.spent);
    }
    DistinctNames(outs);
    forall i | 0 <= i < |outs| && outs[i].content.FilledName?
      ensures Registers(f, outs[i].content.name) ||
              exists o :: o in f.tx.inputs && o in l.utxos && l.utxos[o].content == outs[i].content
    {
      var x := outs[i].content.name;
      NameMember(outs, x);
      if x in Names(f.spent) { var o := SpentName(l.utxos, f, x); }
    }
  }

  lemma NamesApart(l: Ledger, f: FilledTransaction, outs: seq<FilledOutput>, l': Ledger, o: OutPoint, o': OutPoint)
    requires NamesExact(l) && MovesNames(l, f, outs, l') && o in l'.utxos && o' in l'.utxos && o != o'
    requires l'.utxos[o].content.FilledName? && l'.utxos[o'].content.FilledName?
    ensures l'.utxos[o].content.name != l'.utxos[o'].content.name
  {
    hide Fill, Names, OutputNames, NameHeld, Distinct;
    HandedNames(l, f, outs, l');
    var u, u', p := l.utxos, l'.utxos, OutputPuts(f.tx.txid, outs);
    if o in p && o' in p {
      assert u'[o] == outs[o.vout] && u'[o'] == outs[o'.vout] && o.vout != o'.vout;
    } else if o !in p && o' !in p {
      assert u'[o] == u[o] && u'[o'] == u[o'];
    } else {
      var a, b := if o in p then o else o', if o in p then o' else o;
      assert u'[a] == outs[a.vout] && u'[b] == u[b] && b !in f.tx.inputs;
    }
  }

  lemma NamesStayHeld(l: Ledger, f: FilledTransaction, outs: seq<FilledOutput>, l': Ledger, x: NameHash)
    requires NamesExact(l) && MovesNames(l, f, outs, l') && x in l'.tables.records
    ensures NameHeld(l'.utxos, x)
  {
    hide Fill, Names, Distinct;
    var p := OutputPuts(f.tx.txid, outs);
    if x !in OutputNames(f) {
      var o :| o in l.utxos && l.utxos[o].content == FilledName(x);
      if o in f.tx.inputs { InputName(l.utxos, f, o, x); }
      assert l'.utxos[o] == l.utxos[o];
    } else {
      NameMember(outs, x);
      var i :| 0 <= i < |outs| && outs[i].content == FilledName(x);
      assert l'.utxos[Regular(f.tx.txid, i)] == outs[i];
    }
  }

  lemma InputName(utxos: Utxos, f: FilledTransaction, o: OutPoint, x: NameHash)
    requires Fill(utxos, f.tx) == Ok(f) && o in f.tx.inputs && o in utxos && utxos[o].content == FilledName(x)
    ensures x in Names(f.spent)
  {
    hide Fill;
    FillFacts(utxos, f.tx);
    var i :| 0 <= i < |f.tx.inputs| && f.tx.inputs[i] == o;
    assert f.spent[i].content == FilledName(x);
    NameMember(f.spent, x);
  }

  lemma NamesMove(l: Ledger, f: FilledTransaction, outs: seq<FilledOutput>, l': Ledger)
    requires NamesExact(l) && MovesNames(l, f, outs, l')
    ensures NamesExact(l')
  {
    hide MovesNames, NameHeld;
    var u := l'.utxos;
    forall o | o in u && u[o].content.FilledName? ensures u[o].content.name in l'.tables.records { NamesRegistered(l, f, outs, l', o); }
    forall x | x in l'.tables.records ensures NameHeld(u, x) { NamesStayHeld(l, f, outs, l', x); }
    forall o, o' | o in u && o' in u && o != o' && u[o].content.FilledName? && u[o'].content.FilledName?
      ensures u[o].content.name != u[o'].content.name
    {
      NamesApart(l, f, outs, l', o, o');
    }
  }

  lemma NamesRegistered(l: Ledger, f: FilledTransaction, outs: seq<FilledOutput>, l': Ledger, o: OutPoint)
    requires NamesExact(l) && MovesNames(l, f, outs, l') && o in l'.utxos && l'.utxos[o].content.FilledName?
    ensures l'.utxos[o].content.name in l'.tables.records
  {
    hide Fill, Names, OutputNames, NameHeld, Distinct;
    HandedNames(l, f, outs, l');
    if o in OutputPuts(f.tx.txid, outs) {
      assert l'.utxos[o] == outs[o.vout];
    } else {
      assert l'.utxos[o] == l.utxos[o];
    }
  }

  /** One connected transaction that is valid and creates only new outputs. */
  lemma ConnectTxKeepsNames(l: Ledger, records: map<NameHash, Record>, tx: Transaction, height: nat, l': Ledger, f: FilledTransaction)
    requires ConnectTx(l, tx, height) == Ok((l', f)) && ValidateFilled(records, f).Ok?
    requires NamesExact(l) && CreatedBy(tx) !! l.utxos.Keys - Elements(tx.inputs)
    requires IsRegistration(tx) ==> tx.data.value.name !in l.tables.records
    ensures NamesExact(l')
  {
    hide Fill, FilledOutputs, ApplyData, OutputClaims, OutputNames, Claims, Names, SpentPuts, ValidateFilled, NamesExact, OutputPuts, CreatedBy;
    FillFacts(l.utxos, tx);
    FillsExactly(records, f);
    FilledOutputsFacts(f);
    var outs := FilledOutputs(f).value;
    OutputPutsKeys(tx, outs);
    ApplyDataEffect(l.tables, f, height);
    NamesMove(l, f, outs, l');
  }

  lemma {:induction false} BlockKeepsNames(l: Ledger, header: Header, body: Body, fs: seq<FilledTransaction>,
                                           b0: Batch, n: nat, height: nat)
    requires n <= |body.transactions| && Ready(l, header, body, fs)
    requires BatchOf(header, body, 0, b0) && TablesTrack(l, body.transactions, 0, b0.tables)
    requires NamesExact(Flush(l, b0)) && Accumulate(l, b0, fs, height).Ok?
    ensures Accumulate(l, b0, fs[..n], height).Ok?
    ensures NamesExact(Flush(l, Accumulate(l, b0, fs[..n], height).value))
  {
    hide NamesExact, TablesTrack, Accumulate, AccumulateTx, ConnectTxs, ConnectTx, ApplyData, Fill, ReservationsAgree;
    hide Distinct, AllInputs, ValidateFilled, Reversible, CreatedUpTo, SeqsDense, HasHistory, BurnAgrees, CreatedBy;
    assert fs[..|fs|] == fs;
    AccumulatePrefixOk(l, b0, fs, n, |fs|, height);
    if n == 0 {
      AccumulateNone(l, b0, fs, height);
    } else {
      var m := n - 1;
      BlockKeepsNames(l, header, body, fs, b0, m, height);
      AccumulateStep(l, b0, fs, m, height);
      var b := Accumulate(l, b0, fs[..m], height).value;
      BlockTables(l, header, body, fs, b0, m, height);
      UndoableInBlock(l, header, body, fs, m, b);
      InputsDistinct(body.transactions, m);
      StepAgrees(l, b, fs[m], height);
      ConnectTxKeepsNames(Flush(l, b), l.tables.records, fs[m].tx, height, Flush(l, Accumulate(l, b0, fs[..n], height).value), fs[m]);
    }
  }

  lemma CoinbaseNoNames(header: Header, outs: seq<FilledOutput>)
    requires forall i :: 0 <= i < |outs| ==> !outs[i].content.FilledName?
    ensures forall o :: o in CoinbasePuts(header, outs) ==> !CoinbasePuts(header, outs)[o].content.FilledName?
  {
  }

  lemma CoinbaseKeepsNames(l: Ledger, header: Header, body: Body, outs: seq<FilledOutput>, b0: Batch)
    requires NamesExact(l) && CoinbaseOutputs(body.coinbase) == Ok(outs) && CoinbaseCreated(header, body) !! l.utxos.Keys
    requires b0 == Batch({}, map[], CoinbasePuts(header, outs), l.tables)
    ensures NamesExact(Flush(l, b0))
  {
    hide CoinbaseOutputs;
    CoinbaseOutputsFacts(body.coinbase);
    CoinbaseStartBatch(l, header, body, outs);
    var u := Flush(l, b0).utxos;
    CoinbaseNoNames(header, outs);
    assert forall o :: o in l.utxos ==> o in u && u[o] == l.utxos[o];
    assert forall o :: o in u && u[o].content.FilledName? ==> o in l.utxos && u[o] == l.utxos[o];
    hide CoinbasePuts, CoinbaseCreated;
    forall x | x in l.tables.records ensures NameHeld(u, x) {
      var o :| o in l.utxos && l.utxos[o].content == FilledName(x);
      assert u[o].content == FilledName(x);
    }
  }

  /** An accepted, reversible block keeps names and unspent outputs one-to-one. */
  lemma ApplyKeepsNamesExact(cr: Crypto, st: State, header: Header, body: Body)
    requires StateOk(st) && NamesExact(st.ledger) && Reversible(st.ledger, header, body)
    requires ApplyBlock(cr, st, header, body).Ok?
    ensures NamesExact(ApplyBlock(cr, st, header, body).value.ledger)
  {
    hide Prevalidate, ValidateAll, Ready, Fill, Distinct, AllInputs, Reversible, Accumulate, TablesTrack, BatchOf, NamesExact;
    hide SeqsDense, StampedUpTo, HasHistory, ReservationsAgree, CoinbaseCreated;
    PrevalidateFacts(cr, st, header, body);
    ReadyIfAccepted(cr, st, header, body);
    var pre := Prevalidate(cr, st, header, body).value;
    var l, fs := st.ledger, pre.filled;
    var outs := CoinbaseOutputs(body.coinbase).value;
    RecordsHaveHistory(l, st.height);
    CoinbaseStart(l, header, body, outs);
    CoinbaseIsNew(l, header, body);
    var b0 := Batch({}, map[], CoinbasePuts(header, outs), l.tables);
    CoinbaseKeepsNames(l, header, body, outs, b0);
    BlockKeepsNames(l, header, body, fs, b0, |fs|, pre.nextHeight);
    assert fs[..|fs|] == fs;
  }

  lemma {:induction false} FoldKeepsNames(cr: Crypto, init: State, chain: seq<Block>)
    requires Start(init) && FreshChain(cr, init, chain) && Fold(cr, init, chain).Ok? && NamesExact(init.ledger)
    ensures NamesExact(Fold(cr, init, chain).value.ledger)
    decreases |chain|
  {
    hide ApplyBlock, StateOk, Clean, Reversible, NamesExact;
    if chain != [] {
      var n := |chain| - 1;
      FreshPrefix(cr, init, chain, n);
      FoldOk(cr, init, chain[..n]);
      FoldKeepsNames(cr, init, chain[..n]);
      CleanIsReversible(Fold(cr, init, chain[..n]).value.ledger, chain[n].header, chain[n].body);
      ApplyKeepsNamesExact(cr, Fold(cr, init, chain[..n]).value, chain[n].header, chain[n].body);
    }
  }

  /** Over every run of fresh blocks, registered names and unspent outputs that hold
    * names are one-to-one. */
  lemma RunNamesOneToOne(cr: Crypto, init: State, steps: seq<Step>)
    requires Start(init) && NamesExact(init.ledger) && FreshRun(cr, init, steps)
    ensures NamesExact(Run(cr, init, steps).state.ledger)
  {
    hide Run, Fold, FreshChain, FreshRun, StateOk, NamesExact;
    RunIsFold(cr, init, steps);
    FoldKeepsNames(cr, init, Run(cr, init, steps).chain);
  }
}
