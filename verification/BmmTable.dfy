/** The incrementally kept table of BMM results agrees with its definition. */
module BmmTable {
  import opened Wrappers
  import opened Types
  import opened Ancestry
  import opened BlockIndex
  import opened ArchiveDb

  /** What the argument needs of the header tables. */
  ghost predicate TablesOk(db: Db) {
    && Valid(db.side) && db.side.parent == SideParents(db.headers)
    && (forall b :: b in db.headers ==> db.headers[b].hash == b)
    && Valid(db.main) && db.main.parent == MainParents(db.mainHeaders)
    && (forall m :: m in db.mainHeaders ==> db.mainHeaders[m].hash == m && m != ZERO)
    && db.infos.Keys <= db.mainHeaders.Keys
    && (forall m :: m in db.infos && db.mainHeaders[m].prev != ZERO ==> db.mainHeaders[m].prev in db.infos)
  }

  /** A row is Verified exactly when it should be; only headers ever stored have rows. */
  ghost predicate BmmOk(db: Db) {
    && db.bmm.Keys <= db.headers.Keys + db.invalid
    && forall b, m :: b in db.headers ==> (IsVerified(db, b, m) <==> BmmValid(db, b, m))
  }

  lemma SideFacts(db: Db, b: Hash)
    requires TablesOk(db) && b in db.headers
    ensures b in db.side.height && b in db.side.parent && db.side.parent[b] == db.headers[b].prevSide
    ensures db.headers[b].prevSide.Some? ==>
              var q := db.headers[b].prevSide.value;
              q in db.headers && q in db.side.height && db.side.height[b] == db.side.height[q] + 1
  {
    hide SkipOk, SuccOk;
  }

  /** Unfolding the definition for a stored block. */
  lemma BmmUnfold(db: Db, b: Hash, m: Hash)
    requires TablesOk(db) && b in db.headers
    ensures BmmValid(db, b, m) <==>
            Committed(db, b, m) &&
            (db.headers[b].prevSide.None? ||
             exists m' :: BmmValid(db, db.headers[b].prevSide.value, m') && IsAncestor(db.main.parent, m', m))
  {
    hide TablesOk;
    SideFacts(db, b);
  }

  // ----- what later writes leave unchanged -----

  /** Storing or removing sidechain headers keeps the meaning for the blocks in both. */
  lemma {:induction false} SideFrame(db: Db, db': Db, b: Hash, m: Hash)
    requires TablesOk(db) && TablesOk(db')
    requires db.mainHeaders == db'.mainHeaders && db.main == db'.main && db.infos == db'.infos
    requires forall x :: x in db.headers ==> x in db'.headers && db'.headers[x] == db.headers[x]
    requires b in db.headers
    ensures BmmValid(db', b, m) <==> BmmValid(db, b, m)
    decreases if b in db.side.height then db.side.height[b] else 0
  {
    hide BmmValid, TablesOk, IsAncestor;
    BmmUnfold(db, b, m);
    BmmUnfold(db', b, m);
    SideFacts(db, b);
    if db.headers[b].prevSide.Some? {
      var q := db.headers[b].prevSide.value;
      forall m' ensures BmmValid(db', q, m') <==> BmmValid(db, q, m') {
        SideFrame(db, db', q, m');
      }
    }
  }

  lemma MainFacts(db: Db, m: Hash)
    requires TablesOk(db) && m in db.infos
    ensures m in db.mainHeaders && m in db.main.parent && m in db.main.height
    ensures db.main.parent[m] == MainParent(db.mainHeaders[m].prev)
    ensures db.main.parent[m].Some? ==> db.main.parent[m].value in db.infos
  {
    hide SkipOk, SuccOk;
  }

  /** Mainchain ancestors of a block with stored info have stored info. */
  lemma {:induction false} InfosClosed(db: Db, a: Hash, m: Hash, n: nat)
    requires TablesOk(db) && m in db.infos && Nth(db.main.parent, m, n) == Some(a)
    ensures a in db.infos
    decreases n
  {
    hide TablesOk;
    if n > 0 {
      MainFacts(db, m);
      InfosClosed(db, a, db.main.parent[m].value, n - 1);
    }
  }

  lemma AncestorHasInfo(db: Db, a: Hash, m: Hash)
    requires TablesOk(db) && m in db.infos && IsAncestor(db.main.parent, a, m)
    ensures a in db.infos
  {
    hide TablesOk, Nth;
    var n: nat :| Nth(db.main.parent, m, n) == Some(a);
    InfosClosed(db, a, m, n);
  }

  /** Storing mainchain headers keeps the meaning. */
  lemma {:induction false} MainFrame(db: Db, db': Db, b: Hash, m: Hash)
    requires TablesOk(db) && TablesOk(db')
    requires db.headers == db'.headers && db.side == db'.side && db.infos == db'.infos
    requires forall x :: x in db.mainHeaders ==> x in db'.mainHeaders && db'.mainHeaders[x] == db.mainHeaders[x]
    requires b in db.headers
    ensures BmmValid(db', b, m) <==> BmmValid(db, b, m)
    decreases if b in db.side.height then db.side.height[b] else 0
  {
    hide BmmValid, TablesOk, IsAncestor;
    BmmUnfold(db, b, m);
    BmmUnfold(db', b, m);
    SideFacts(db, b);
    if m in db.infos { MainFacts(db, m); }
    if db.headers[b].prevSide.Some? && m in db.infos {
      var q := db.headers[b].prevSide.value;
      forall m'
        ensures BmmValid(db', q, m') <==> BmmValid(db, q, m')
        ensures IsAncestor(db'.main.parent, m', m) <==> IsAncestor(db.main.parent, m', m)
      {
        MainFrame(db, db', q, m');
        MainAncestorsKept(db, db', m', m);
      }
    }
  }

  lemma MainAncestorsKept(db: Db, db': Db, a: Hash, m: Hash)
    requires TablesOk(db) && TablesOk(db') && m in db.infos
    requires forall x :: x in db.mainHeaders ==> x in db'.mainHeaders && db'.mainHeaders[x] == db.mainHeaders[x]
    ensures IsAncestor(db'.main.parent, a, m) <==> IsAncestor(db.main.parent, a, m)
  {
    hide SkipOk, SuccOk, IsAncestor;
    AncestorFrame(db.main.parent, db'.main.parent, a, m);
  }

  /** Storing the info of a new mainchain block keeps the meaning at all others. */
  lemma {:induction false} InfoFrame(db: Db, db': Db, m0: Hash, b: Hash, m: Hash)
    requires TablesOk(db) && TablesOk(db')
    requires db.headers == db'.headers && db.side == db'.side
    requires db.mainHeaders == db'.mainHeaders && db.main == db'.main
    requires m0 !in db.infos && m0 in db'.infos && db'.infos == db.infos[m0 := db'.infos[m0]]
    requires b in db.headers && m != m0
    ensures BmmValid(db', b, m) <==> BmmValid(db, b, m)
    decreases if b in db.side.height then db.side.height[b] else 0
  {
    hide BmmValid, TablesOk, IsAncestor;
    BmmUnfold(db, b, m);
    BmmUnfold(db', b, m);
    SideFacts(db, b);
    if db.headers[b].prevSide.Some? && m in db.infos {
      var q := db.headers[b].prevSide.value;
      forall m' | IsAncestor(db.main.parent, m', m)
        ensures BmmValid(db', q, m') <==> BmmValid(db, q, m')
      {
        AncestorHasInfo(db, m', m);
        InfoFrame(db, db', m0, q, m');
      }
    }
  }

  /** A mainchain block commits to one block, so not to a block and its parent. */
  lemma NotBoth(db: Db, b: Hash, m: Hash)
    requires TablesOk(db) && b in db.headers && db.headers[b].prevSide.Some?
    requires m in db.infos && db.infos[m] == Some(b)
    ensures !BmmValid(db, db.headers[b].prevSide.value, m)
  {
    hide TablesOk;
    SideFacts(db, b);
  }

  // ----- the writers -----

  /** With correct rows, the check against the parent's rows is the recursive condition. */
  lemma ParentCheck(db: Db, parent: Option<Hash>, m: Hash)
    requires BmmOk(db) && (parent.Some? ==> parent.value in db.headers)
    ensures ParentVerified(db, parent, m) <==>
            parent.None? || exists m' :: BmmValid(db, parent.value, m') && IsAncestor(db.main.parent, m', m)
  {
    hide BmmValid, IsAncestor;
    if parent.Some? {
      assert forall m' :: IsVerified(db, parent.value, m') <==> BmmValid(db, parent.value, m');
    }
  }

  lemma PutMainHeaderKeepsBmm(db: Db, db': Db, hi: MainHeader)
    requires TablesOk(db) && TablesOk(db') && BmmOk(db) && PutMainHeader(db, hi) == Ok(db')
    requires hi.hash in db.mainHeaders ==> db.mainHeaders[hi.hash] == hi
    ensures BmmOk(db')
  {
    hide BmmValid, TablesOk, Insert;
    forall b, m | b in db'.headers ensures IsVerified(db', b, m) <==> BmmValid(db', b, m) {
      MainFrame(db, db', b, m);
    }
  }

  lemma PutInfoKeepsBmm(db: Db, db': Db, m0: Hash, c: Option<Hash>)
    requires TablesOk(db) && TablesOk(db') && BmmOk(db) && PutMainBlockInfo(db, m0, c) == Ok(db')
    requires m0 in db.infos ==> db.infos[m0] == c
    ensures BmmOk(db')
  {
    hide BmmValid, TablesOk, InfoResult, IsAncestor;
    assert m0 in db'.infos && db'.infos[m0] == c;
    if m0 in db.infos { assert db'.infos == db.infos; }
    forall b, m | b in db'.headers ensures IsVerified(db', b, m) <==> BmmValid(db', b, m) {
      if m == m0 && c == Some(b) {
        InfoRow(db, db', m0, b);
      } else {
        InfoOther(db, db', m0, c, b, m);
      }
    }
  }

  /** Rows that storing the info does not write. */
  lemma InfoRows(db: Db, db': Db, m0: Hash, c: Option<Hash>, b: Hash, m: Hash)
    requires PutMainBlockInfo(db, m0, c) == Ok(db') && !(m == m0 && c == Some(b))
    ensures IsVerified(db', b, m) <==> IsVerified(db, b, m)
  {
    hide InfoResult;
  }

  lemma InfoOther(db: Db, db': Db, m0: Hash, c: Option<Hash>, b: Hash, m: Hash)
    requires TablesOk(db) && TablesOk(db') && PutMainBlockInfo(db, m0, c) == Ok(db')
    requires m0 in db.infos ==> db.infos[m0] == c
    requires b in db.headers && !(m == m0 && c == Some(b))
    requires IsVerified(db, b, m) <==> BmmValid(db, b, m)
    ensures IsVerified(db', b, m) <==> BmmValid(db', b, m)
  {
    hide BmmValid, TablesOk, InfoResult, IsAncestor;
    InfoRows(db, db', m0, c, b, m);
    hide IsVerified;
    if m0 in db.infos {
      assert db'.infos == db.infos;
      SideFrame(db, db', b, m);
    } else if m != m0 {
      InfoFrame(db, db', m0, b, m);
    } else {
      NotCommitted(db, db', b, m);
    }
  }

  lemma NotCommitted(db: Db, db': Db, b: Hash, m: Hash)
    requires TablesOk(db) && TablesOk(db') && b in db.headers && b in db'.headers
    requires m !in db.infos && (m in db'.infos ==> db'.infos[m] != Some(b))
    ensures !BmmValid(db, b, m) && !BmmValid(db', b, m)
  {
    hide BmmValid, TablesOk, IsAncestor;
    BmmUnfold(db, b, m);
    BmmUnfold(db', b, m);
  }

  /** The row that storing the info writes. */
  lemma InfoRow(db: Db, db': Db, m0: Hash, b: Hash)
    requires TablesOk(db) && TablesOk(db') && BmmOk(db) && b in db.headers && m0 in db.mainHeaders
    requires m0 in db.infos ==> db.infos[m0] == Some(b)
    requires m0 in db'.infos && db'.infos[m0] == Some(b)
    requires db'.headers == db.headers && db'.side == db.side && db'.mainHeaders == db.mainHeaders && db'.main == db.main
    requires db'.infos == db.infos[m0 := Some(b)]
    ensures InfoResult(db, m0, b) == Verified <==> BmmValid(db', b, m0)
  {
    hide BmmValid, TablesOk, IsAncestor, BmmOk, IsVerified, ParentVerified;
    SideFacts(db, b);
    BmmUnfold(db', b, m0);
    var parent := db.headers[b].prevSide;
    ParentCheck(db, parent, m0);
    if parent.Some? {
      forall m' | IsAncestor(db.main.parent, m', m0)
        ensures BmmValid(db', parent.value, m') <==> BmmValid(db, parent.value, m')
      {
        if m0 in db.infos {
          assert db'.infos == db.infos;
          SideFrame(db, db', parent.value, m');
        } else if m' == m0 {
          NotBoth(db', b, m0);
          BmmUnfold(db, parent.value, m0);
        } else {
          InfoFrame(db, db', m0, parent.value, m');
        }
      }
    }
  }

  lemma PutHeaderKeepsBmm(db: Db, db': Db, header: Header)
    requires TablesOk(db) && TablesOk(db') && BmmOk(db) && PutHeader(db, header) == Ok(db')
    requires header.hash in db.headers ==> db.headers[header.hash] == header
    requires header.hash !in db.invalid
    ensures BmmOk(db')
  {
    hide BmmValid, TablesOk, IsAncestor, Insert, HeaderResult;
    forall b, m | b in db'.headers ensures IsVerified(db', b, m) <==> BmmValid(db', b, m) {
      if b == header.hash {
        HeaderRow(db, db', header, m);
      } else {
        SideFrame(db, db', b, m);
      }
    }
  }

  lemma HeaderRow(db: Db, db': Db, header: Header, m: Hash)
    requires TablesOk(db) && TablesOk(db') && BmmOk(db) && PutHeader(db, header) == Ok(db')
    requires header.hash in db.headers ==> db.headers[header.hash] == header
    requires header.hash !in db.invalid
    ensures IsVerified(db', header.hash, m) <==> BmmValid(db', header.hash, m)
  {
    hide BmmValid, TablesOk, IsAncestor, Insert, BmmOk;
    var b := header.hash;
    var mains := db.main.succ[MainParent(header.prevMain)];
    assert b in db'.headers && db'.headers[b] == header;
    BmmUnfold(db', b, m);
    SideFacts(db', b);
    HeaderParentStored(db, db', header);
    ParentCheck(db, header.prevSide, m);
    if header.prevSide.Some? { HeaderFrame(db, db', header); }
    SuccessorOf(db, header.prevMain, m);
    OldRow(db, b, m);
    if m !in mains && b in db.headers { SideFrame(db, db', b, m); }
  }

  lemma HeaderFrame(db: Db, db': Db, header: Header)
    requires TablesOk(db) && TablesOk(db') && PutHeader(db, header) == Ok(db') && header.prevSide.Some?
    requires header.hash in db.headers ==> db.headers[header.hash] == header
    ensures forall m :: BmmValid(db', header.prevSide.value, m) <==> BmmValid(db, header.prevSide.value, m)
  {
    hide BmmValid, TablesOk, Insert, HeaderResult;
    HeaderParentStored(db, db', header);
    forall m ensures BmmValid(db', header.prevSide.value, m) <==> BmmValid(db, header.prevSide.value, m) {
      SideFrame(db, db', header.prevSide.value, m);
    }
  }

  lemma OldRow(db: Db, b: Hash, m: Hash)
    requires BmmOk(db) && b !in db.invalid
    ensures if b in db.headers then IsVerified(db, b, m) <==> BmmValid(db, b, m) else b !in db.bmm
  {
    hide BmmValid;
  }

  lemma HeaderParentStored(db: Db, db': Db, header: Header)
    requires TablesOk(db) && TablesOk(db') && PutHeader(db, header) == Ok(db')
    ensures header.prevSide.Some? ==> header.prevSide.value in db.headers && header.prevSide.value != header.hash
  {
    hide SkipOk, SuccOk, Insert;
    assert db'.headers[header.hash] == header;
    SideFacts(db', header.hash);
    RankedKeys(db.side.parent, db.side.height);
  }

  lemma SuccessorOf(db: Db, prev: Hash, m: Hash)
    requires TablesOk(db) && MainParent(prev) in db.main.succ
    ensures m in db.main.succ[MainParent(prev)] <==>
            m in db.mainHeaders && MainParent(db.mainHeaders[m].prev) == MainParent(prev)
  {
    hide SkipOk, Ranked;
  }

  /** Removing a set of blocks that is closed under children keeps the rest correct. */
  lemma RemoveKeepsBmm(db: Db, db': Db)
    requires TablesOk(db) && TablesOk(db') && BmmOk(db)
    requires db.mainHeaders == db'.mainHeaders && db.main == db'.main && db.infos == db'.infos && db.bmm == db'.bmm
    requires forall x :: x in db'.headers ==> x in db.headers && db'.headers[x] == db.headers[x]
    requires db.headers.Keys + db.invalid <= db'.headers.Keys + db'.invalid
    ensures BmmOk(db')
  {
    hide BmmValid, TablesOk;
    forall b, m | b in db'.headers ensures IsVerified(db', b, m) <==> BmmValid(db', b, m) {
      SideFrame(db', db, b, m);
    }
  }

  // ----- consequences -----

  /** `ms[i]` validly commits to the i-th parent of `b`, each in the ancestry of
    * the one before it and strictly lower, down to the genesis block. */
  ghost predicate CommitmentChain(db: Db, b: Hash, ms: seq<Hash>) {
    && |ms| > 0
    && (forall i :: 0 <= i < |ms| ==>
          Nth(db.side.parent, b, i).Some? && Committed(db, Nth(db.side.parent, b, i).value, ms[i]))
    && (forall i :: 0 <= i < |ms| - 1 ==> LowerMain(db, ms[i + 1], ms[i]))
    && b in db.side.height && |ms| == db.side.height[b] + 1
  }

  ghost predicate LowerMain(db: Db, a: Hash, m: Hash) {
    && IsAncestor(db.main.parent, a, m)
    && a in db.main.height && m in db.main.height && db.main.height[a] < db.main.height[m]
  }

  /** Every validly committed block has a chain of commitments to its genesis. */
  lemma {:induction false} ChainToGenesis(db: Db, b: Hash, m: Hash) returns (ms: seq<Hash>)
    requires TablesOk(db) && BmmValid(db, b, m)
    ensures CommitmentChain(db, b, ms) && ms[0] == m
    decreases if b in db.side.height then db.side.height[b] else 0
  {
    hide TablesOk, IsAncestor, Ranked, Valid;
    SideFacts(db, b);
    BmmUnfold(db, b, m);
    ms := [m];
    if db.headers[b].prevSide.Some? {
      var q := db.headers[b].prevSide.value;
      var m' :| BmmValid(db, q, m') && IsAncestor(db.main.parent, m', m);
      var rest := ChainToGenesis(db, q, m');
      StrictlyLower(db, b, m', m);
      ms := [m] + rest;
      forall i | 0 <= i < |ms|
        ensures Nth(db.side.parent, b, i).Some? && Committed(db, Nth(db.side.parent, b, i).value, ms[i])
      {
        if i > 0 { assert Nth(db.side.parent, b, i) == Nth(db.side.parent, q, i - 1) && ms[i] == rest[i - 1]; }
      }
      forall i | 0 <= i < |ms| - 1 ensures LowerMain(db, ms[i + 1], ms[i]) {
        if i > 0 { assert ms[i] == rest[i - 1] && ms[i + 1] == rest[i]; }
      }
    } else {
      assert Nth(db.side.parent, b, 0) == Some(b);
      GenesisHeight(db, b);
    }
  }

  lemma GenesisHeight(db: Db, b: Hash)
    requires TablesOk(db) && b in db.headers && db.headers[b].prevSide.None?
    ensures b in db.side.height && db.side.height[b] == 0
  {
    hide SkipOk, SuccOk;
  }

  lemma StrictlyLower(db: Db, b: Hash, a: Hash, m: Hash)
    requires TablesOk(db) && Committed(db, b, m) && db.headers[b].prevSide.Some?
    requires BmmValid(db, db.headers[b].prevSide.value, a) && IsAncestor(db.main.parent, a, m)
    ensures LowerMain(db, a, m)
  {
    hide Nth, BmmValid, SkipOk, SuccOk;
    NotBoth(db, b, m);
    MainFacts(db, m);
    AncestorsStored(db.main.parent, db.main.height, a, m);
    AncestorByHeight(db.main.parent, db.main.height, a, m);
    AncestorRefl(db.main.parent, m);
    if db.main.height[a] == db.main.height[m] { SameHeight(db.main.parent, db.main.height, a, m); }
  }

  lemma SameHeight(p: Parents, h: Heights, a: Hash, d: Hash)
    requires Ranked(p, h) && a in p && d in p && IsAncestor(p, a, d) && h[a] == h[d]
    ensures a == d
  {
    AncestorByHeight(p, h, a, d);
  }

  /** The set of verified rows is a function of the stored headers and infos: two
    * archives that hold the same ones agree, in whatever order they arrived. */
  lemma ArrivalOrderIrrelevant(db: Db, db': Db, b: Hash, m: Hash)
    requires TablesOk(db) && TablesOk(db') && BmmOk(db) && BmmOk(db')
    requires db.headers == db'.headers && db.mainHeaders == db'.mainHeaders && db.infos == db'.infos
    requires b in db.headers
    ensures IsVerified(db, b, m) <==> IsVerified(db', b, m)
  {
    IndexDetermined(db.main, db'.main);
    SideFrame(db, db', b, m);
  }
}
