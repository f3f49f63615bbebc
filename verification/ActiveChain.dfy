/** The state of a node follows the chain of its tip in the archive: it is the
  * result of connecting the stored blocks of that chain from the start. */
module ActiveChain {
  import opened Wrappers
  import opened Types
  import opened BlockIndex
  import opened Blocks
  import opened DisconnectUndo
  import opened Chains
  import opened ArchiveDb
  import opened BmmTable
  import opened AncestorWalks

  /** The chain of a tip, oldest first; empty without a tip. */
  ghost function Hashes(db: Db, tip: Option<Hash>): seq<Hash> {
    if tip.Some? && tip.value in db.side.height then From(db.side, tip.value, 0) else []
  }

  ghost predicate HasBlocks(db: Db, hs: seq<Hash>) {
    forall i :: 0 <= i < |hs| ==> hs[i] in db.headers && hs[i] in db.bodies
  }

  ghost function BlocksAt(db: Db, hs: seq<Hash>): (r: seq<Block>)
    requires HasBlocks(db, hs)
    ensures |r| == |hs|
  {
    seq(|hs|, i requires 0 <= i < |hs| => Block(db.headers[hs[i]], db.bodies[hs[i]]))
  }

  /** Every block of the chain of `b` is stored, and fresh where it is connected. */
  ghost predicate GoodChain(cr: Crypto, init: State, db: Db, tip: Option<Hash>) {
    && (tip.Some? ==> tip.value in db.headers)
    && HasBlocks(db, Hashes(db, tip))
    && FreshChain(cr, init, BlocksAt(db, Hashes(db, tip)))
  }

  ghost predicate Follows(cr: Crypto, init: State, db: Db, st: State) {
    && GoodChain(cr, init, db, st.tip)
    && Fold(cr, init, BlocksAt(db, Hashes(db, st.tip))) == Ok(st)
  }

  lemma SideKeys(db: Db)
    requires TablesOk(db)
    ensures Valid(db.side) && db.side.height.Keys == db.side.parent.Keys == db.headers.Keys
  {
    hide SkipOk, SuccOk;
  }

  lemma HashesStep(db: Db, b: Hash)
    requires TablesOk(db) && b in db.headers
    ensures Hashes(db, Some(b)) == Hashes(db, db.headers[b].prevSide) + [b]
    ensures b in db.side.height && |Hashes(db, Some(b))| == db.side.height[b] + 1
  {
    hide TablesOk, Valid;
    SideKeys(db);
    SideFacts(db, b);
    if db.headers[b].prevSide.None? { HeightZero(db, b); }
    FromEntries(db.side, b, 0);
  }

  lemma HeightZero(db: Db, b: Hash)
    requires TablesOk(db) && b in db.headers && db.headers[b].prevSide.None?
    ensures b in db.side.height && db.side.height[b] == 0
  {
    hide SkipOk, SuccOk;
    assert db.side.parent[b] == None;
  }

  /** Height and tip agree with the archive. */
  lemma FollowsHeight(cr: Crypto, init: State, db: Db, st: State)
    requires Start(init) && TablesOk(db) && Follows(cr, init, db, st)
    ensures StateOk(st)
    ensures st.tip.None? ==> st.height.None? && st == init
    ensures st.tip.Some? ==> st.tip.value in db.side.height && st.height == Some(db.side.height[st.tip.value])
  {
    hide TablesOk, Fold, StateOk, FreshChain;
    var c := BlocksAt(db, Hashes(db, st.tip));
    FoldOk(cr, init, c);
    if st.tip.Some? {
      HashesStep(db, st.tip.value);
    } else {
      FoldNone(cr, init);
      assert c == [];
    }
  }

  lemma PrefixBlocks(db: Db, hs: seq<Hash>, n: nat)
    requires HasBlocks(db, hs) && n <= |hs|
    ensures HasBlocks(db, hs[..n]) && BlocksAt(db, hs[..n]) == BlocksAt(db, hs)[..n]
  {
  }

  /** Undoing the tip follows the chain of its parent. */
  lemma FollowsDown(cr: Crypto, init: State, db: Db, st: State)
    requires Start(init) && TablesOk(db) && Follows(cr, init, db, st) && st.tip.Some?
    ensures var b := st.tip.value;
            && b in db.headers && b in db.bodies && Authorized(cr, db.bodies[b])
            && var r := DisconnectTip(cr, st, db.headers[b], db.bodies[b]);
               r.Ok? && Follows(cr, init, db, r.value) && r.value.tip == db.headers[b].prevSide
  {
    hide TablesOk, ApplyBlock, DisconnectTip, FreshChain, Fold, Hashes, Authorized, Start;
    var b := st.tip.value;
    var hs := Hashes(db, st.tip);
    HashesStep(db, b);
    var n := |hs| - 1;
    var c := BlocksAt(db, hs);
    assert hs[n] == b && c[n] == Block(db.headers[b], db.bodies[b]);
    assert hs[..n] == Hashes(db, db.headers[b].prevSide);
    PrefixBlocks(db, hs, n);
    FreshPrefix(cr, init, c, n);
    PrefixFolds(cr, init, c, n);
    DisconnectFold(cr, init, c);
    LastAccepted(cr, init, c);
    FoldTip(cr, init, c[..n]);
    ParentStored(db, b);
    var r := DisconnectTip(cr, st, db.headers[b], db.bodies[b]);
    assert r == Fold(cr, init, c[..n]);
    var parent := db.headers[b].prevSide;
    assert r.value.tip == parent by {
      if n > 0 { assert c[n - 1].header == db.headers[hs[n - 1]]; ParentHash(db, b); }
    }
    assert GoodChain(cr, init, db, parent);
  }

  lemma ParentHash(db: Db, b: Hash)
    requires TablesOk(db) && b in db.headers && db.headers[b].prevSide.Some?
    ensures var q := db.headers[b].prevSide.value; q in db.headers && db.headers[q].hash == q
  {
    hide Valid;
    SideFacts(db, b);
  }

  lemma ParentStored(db: Db, b: Hash)
    requires TablesOk(db) && b in db.headers
    ensures db.headers[b].prevSide.Some? ==> db.headers[b].prevSide.value in db.headers
    ensures db.headers[b].prevSide.Some? ==>
              |Hashes(db, db.headers[b].prevSide)| > 0 &&
              Hashes(db, db.headers[b].prevSide)[|Hashes(db, db.headers[b].prevSide)| - 1] == db.headers[b].prevSide.value
    ensures db.headers[b].prevSide.None? ==> Hashes(db, db.headers[b].prevSide) == []
    ensures db.headers[b].hash == b
  {
    hide Valid;
    SideFacts(db, b);
    if db.headers[b].prevSide.Some? { HashesStep(db, db.headers[b].prevSide.value); }
  }

  lemma FoldTip(cr: Crypto, init: State, c: seq<Block>)
    requires Start(init) && FreshChain(cr, init, c) && Fold(cr, init, c).Ok?
    ensures Fold(cr, init, c).value.tip == if c == [] then None else Some(c[|c| - 1].header.hash)
  {
    hide Fold, FreshChain, Start, StateOk;
    FoldOk(cr, init, c);
  }

  lemma LastAccepted(cr: Crypto, init: State, c: seq<Block>)
    requires c != [] && Fold(cr, init, c).Ok?
    ensures Authorized(cr, c[|c| - 1].body)
  {
    hide Authorized, Blocks.ConnectPrevalidated;
  }

  /** Connecting a block on the tip follows its chain, or the block is rejected. */
  lemma FollowsUp(cr: Crypto, init: State, db: Db, st: State, b: Hash)
    requires Start(init) && TablesOk(db) && Follows(cr, init, db, st)
    requires b in db.headers && b in db.bodies && db.headers[b].prevSide == st.tip && GoodChain(cr, init, db, Some(b))
    ensures var r := ApplyBlock(cr, st, db.headers[b], db.bodies[b]);
            if r.Ok? then Follows(cr, init, db, r.value) && r.value.tip == Some(b)
            else Fold(cr, init, BlocksAt(db, Hashes(db, Some(b)))).Err?
  {
    hide TablesOk, ApplyBlock, FreshChain, Fold, Hashes, Start;
    HashesStep(db, b);
    ParentStored(db, b);
    var hs := Hashes(db, Some(b));
    var n := |hs| - 1;
    PrefixBlocks(db, hs, n);
    var c := BlocksAt(db, hs);
    assert hs[..n] == Hashes(db, st.tip);
    assert c == c[..n] + [c[n]];
    FoldStep(cr, init, c[..n], c[n]);
    if Fold(cr, init, c).Ok? { FoldTip(cr, init, c); }
  }
}
