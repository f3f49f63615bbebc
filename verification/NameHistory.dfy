/** Lookups of names at earlier heights are snapshots: they give what a lookup gave
  * right after the block at that height was connected. */
module NameHistory {
  import opened Wrappers
  import opened Types
  import opened Filling
  import opened BitNames
  import opened Blocks
  import opened Chains
  import opened DisconnectExact
  import opened NameRuns

  /** What a reader sees for a name at a block height. */
  function LookupAt(t: Tables, name: NameHash, height: nat): Option<RecordView> {
    if name in t.records then AtBlockHeight(t.records[name], height) else None
  }

  /** What a reader sees for a name now. */
  ghost function LookupCurrent(t: Tables, name: NameHash): Option<RecordView>
    requires Historied(t)
  {
    if name in t.records then Some(Current(t.records[name])) else None
  }

  lemma InitHasNoPast(d: MutableData, txid: Txid, height: nat, seqId: nat, h: nat)
    requires h < height
    ensures AtBlockHeight(Init(d, txid, height, seqId), h) == None
  {
    var s := [Stamped(d.commitment, txid, height)];
    assert s[..0] == [];
    assert AtHeight(s, h) == None;
  }

  /** One transaction at a height: invisible below it, if the name that it registers
    * was not visible there. */
  lemma ApplyDataKeepsPast(t: Tables, f: FilledTransaction, height: nat, name: NameHash, h: nat)
    requires h < height && ApplyData(t, f, height).Ok?
    requires Registers(f, name) ==> LookupAt(t, name, h) == None
    ensures LookupAt(ApplyData(t, f, height).value, name, h) == LookupAt(t, name, h)
  {
    hide Names, Claims, NextSeq, AtHeight, ApplyField, Burned;
    match f.tx.data
    case Some(DataUpdate(u)) =>
      if UpdatedName(f) == Some(name) { UpdateKeepsPast(t.records[name], u, f.tx.txid, height, h); }
    case Some(Registration(n, _, d)) =>
      if n == name { InitHasNoPast(d, f.tx.txid, height, NextSeq(t.seqs), h); }
    case _ =>
  }

  /** All transactions of a block that registers no name from before it. A name that
    * it registers twice is stamped with the block's height both times. */
  lemma {:induction false} BlockKeepsPast(t: Tables, fs: seq<FilledTransaction>, height: nat, name: NameHash, h: nat)
    requires h < height && TablesAfter(t, fs, height).Ok? && Registered(fs) !! t.records.Keys
    ensures LookupAt(TablesAfter(t, fs, height).value, name, h) == LookupAt(t, name, h)
    decreases |fs|
  {
    hide ApplyData, Registered, AtBlockHeight;
    if fs != [] {
      var n := |fs| - 1;
      RegisteredStep(fs);
      BlockKeepsPast(t, fs[..n], height, name, h);
      ApplyDataKeepsPast(TablesAfter(t, fs[..n], height).value, fs[n], height, name, h);
    }
  }

  lemma {:induction false} BlockKeepsStamps(t: Tables, fs: seq<FilledTransaction>, height: nat)
    requires RecordsUpTo(t, height) && TablesAfter(t, fs, height).Ok?
    ensures RecordsUpTo(TablesAfter(t, fs, height).value, height)
    decreases |fs|
  {
    hide ApplyData, RecordsUpTo;
    if fs != [] {
      var n := |fs| - 1;
      BlockKeepsStamps(t, fs[..n], height);
      ApplyDataKeepsStamps(TablesAfter(t, fs[..n], height).value, fs[n], height);
    }
  }

  lemma LookupNow(t: Tables, name: NameHash, height: nat)
    requires RecordsUpTo(t, height)
    ensures Historied(t)
    ensures LookupAt(t, name, height) == LookupCurrent(t, name)
  {
  }

  lemma StampsLater(t: Tables, h: nat, height: nat)
    requires RecordsUpTo(t, h) && h <= height
    ensures RecordsUpTo(t, height)
  {
  }

  /** An accepted block keeps every lookup below its height. */
  lemma ApplyKeepsPast(cr: Crypto, st: State, header: Header, body: Body, name: NameHash, h: nat)
    requires ApplyBlock(cr, st, header, body).Ok? && h < NextHeight(st)
    ensures LookupAt(ApplyBlock(cr, st, header, body).value.ledger.tables, name, h) == LookupAt(st.ledger.tables, name, h)
  {
    hide ApplyBlock, TablesAfter, Fill, RowsHold, AllInputs, LookupAt, Registered;
    var fs := ApplyBlockFacts(cr, st, header, body);
    BlockKeepsPast(st.ledger.tables, fs, NextHeight(st), name, h);
  }

  // ----- along the links of a chain -----

  lemma {:induction false} LinksStamped(cr: Crypto, init: State, links: seq<Link>, i: nat)
    requires AllLinksOk(cr, init, links) && i < |links| && RecordsUpTo(init.ledger.tables, NextHeight(init))
    ensures RecordsUpTo(links[i].after.ledger.tables, NextHeight(init) + i)
    decreases i
  {
    hide ApplyBlock, TablesAfter, Fill, RowsHold, AllInputs, StampedUpTo, Registered, NextHeight;
    var k, h := links[i], NextHeight(init) + i;
    assert LinkOk(cr, init, links, i);
    if i > 0 {
      LinksStamped(cr, init, links, i - 1);
      StampsLater(links[i - 1].after.ledger.tables, h - 1, h);
    }
    assert RecordsUpTo(k.before.ledger.tables, h);
    var fs := ApplyBlockFacts(cr, k.before, k.block.header, k.block.body);
    BlockKeepsStamps(k.before.ledger.tables, fs, h);
  }

  lemma {:induction false} LinksHistory(cr: Crypto, init: State, links: seq<Link>, name: NameHash, h: nat, i: nat)
    requires AllLinksOk(cr, init, links) && h <= i < |links| && RecordsUpTo(init.ledger.tables, NextHeight(init))
    ensures Historied(links[h].after.ledger.tables)
    ensures LookupAt(links[i].after.ledger.tables, name, NextHeight(init) + h) == LookupCurrent(links[h].after.ledger.tables, name)
    decreases i
  {
    hide ApplyBlock, RecordsUpTo, LookupCurrent, Historied, AtBlockHeight, NextHeight;
    if i == h {
      LinksStamped(cr, init, links, h);
      LookupNow(links[h].after.ledger.tables, name, NextHeight(init) + h);
    } else {
      LinksHistory(cr, init, links, name, h, i - 1);
      assert LinkOk(cr, init, links, i);
      var k := links[i];
      ApplyKeepsPast(cr, k.before, k.block.header, k.block.body, name, NextHeight(init) + h);
    }
  }

  /** After every run of connects and disconnects, whatever the blocks: looking a
    * name up at the height of block `h` of the active chain gives what a lookup gave
    * right after that block was connected. */
  lemma RunHistoryIsSnapshot(cr: Crypto, init: State, steps: seq<Step>, name: NameHash, h: nat)
    requires RecordsUpTo(init.ledger.tables, NextHeight(init)) && h < |Run(cr, init, steps).chain|
    ensures h < |Links(cr, init, steps)| && Historied(Links(cr, init, steps)[h].after.ledger.tables)
    ensures LookupAt(Run(cr, init, steps).state.ledger.tables, name, NextHeight(init) + h)
         == LookupCurrent(Links(cr, init, steps)[h].after.ledger.tables, name)
  {
    hide Run, Links, RecordsUpTo, LookupCurrent, Historied, RowsKept, LinkOk, AtBlockHeight;
    RunKeepsNames(cr, init, steps);
    var links := Links(cr, init, steps);
    LinksHistory(cr, init, links, name, h, |links| - 1);
  }

  // ----- along an accepted chain -----

  /** The links of a chain that is connected without a disconnect. */
  ghost function FoldLinks(cr: Crypto, init: State, chain: seq<Block>): (links: seq<Link>)
    requires Fold(cr, init, chain).Ok?
    ensures |links| == |chain|
  {
    seq(|chain|, i requires 0 <= i < |chain| =>
      PrefixFolds(cr, init, chain, i);
      PrefixFolds(cr, init, chain, i + 1);
      Link(chain[i], Fold(cr, init, chain[..i]).value, Fold(cr, init, chain[..i + 1]).value))
  }

  lemma {:induction false} FoldHeight(cr: Crypto, init: State, chain: seq<Block>)
    requires Fold(cr, init, chain).Ok?
    ensures NextHeight(Fold(cr, init, chain).value) == NextHeight(init) + |chain|
    decreases |chain|
  {
    hide ApplyBlock, TablesAfter, Fill, RowsHold, AllInputs, Registered;
    if chain != [] {
      var n := |chain| - 1;
      FoldHeight(cr, init, chain[..n]);
      var fs := ApplyBlockFacts(cr, Fold(cr, init, chain[..n]).value, chain[n].header, chain[n].body);
    }
  }

  lemma FoldLinksOk(cr: Crypto, init: State, chain: seq<Block>)
    requires Fold(cr, init, chain).Ok?
    ensures AllLinksOk(cr, init, FoldLinks(cr, init, chain))
  {
    hide ApplyBlock, NextHeight;
    var links := FoldLinks(cr, init, chain);
    forall i | 0 <= i < |links| ensures LinkOk(cr, init, links, i) {
      PrefixFolds(cr, init, chain, i);
      PrefixFolds(cr, init, chain, i + 1);
      FoldHeight(cr, init, chain[..i]);
      assert chain[..i + 1][..i] == chain[..i];
      if i == 0 { assert chain[..i] == []; }
    }
  }

  /** Looking a name up at height `h` of an accepted chain, whatever its blocks, gives
    * exactly what a lookup gave just after block `h` was connected, and nothing if
    * the name was not registered by then; later blocks do not change it. */
  lemma HistoryIsSnapshot(cr: Crypto, init: State, chain: seq<Block>, name: NameHash, h: nat)
    requires init.height.None? && init.ledger.tables.records == map[] && Fold(cr, init, chain).Ok? && h < |chain|
    ensures Fold(cr, init, chain[..h + 1]).Ok?
    ensures Historied(Fold(cr, init, chain[..h + 1]).value.ledger.tables)
    ensures LookupAt(Fold(cr, init, chain).value.ledger.tables, name, h)
         == LookupCurrent(Fold(cr, init, chain[..h + 1]).value.ledger.tables, name)
  {
    hide Fold, LookupCurrent, Historied, AllLinksOk, AtBlockHeight;
    PrefixFolds(cr, init, chain, h + 1);
    FoldLinksOk(cr, init, chain);
    var links := FoldLinks(cr, init, chain);
    LinksHistory(cr, init, links, name, h, |links| - 1);
    assert chain[..|chain|] == chain;
  }
}
