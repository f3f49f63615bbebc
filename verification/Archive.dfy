/** The archive as the node runs it: tables updated in place, with loops over
  * successors and a stack of blocks to invalidate. A write transaction works on
  * local copies of the tables; assigning the fields is its commit. */
module Archives {
  import opened Wrappers
  import opened Types
  import opened Ancestry
  import opened BlockIndex
  import opened ArchiveDb
  import opened BmmTable
  import opened Inclusions
  import opened ArchiveRuns
  import opened Invalidation

  lemma MainHeaderFails(db: Db, hi: MainHeader)
    requires ArchiveOk(db) && hi.prev != ZERO && hi.prev !in db.mainHeaders
    ensures PutMainHeader(db, hi) == Err(NoMainHeaderInfo)
  {
  }

  lemma MainHeaderPut(db: Db, hi: MainHeader)
    requires ArchiveOk(db) && Allowed(db, OpMainHeader(hi)) && (hi.prev == ZERO || hi.prev in db.mainHeaders)
    ensures Insertable(db.main, hi.hash, MainParent(hi.prev))
    ensures hi.prev != ZERO ==> hi.prev in db.work && hi.prev in db.main.height
    ensures var db' := db.(mainHeaders := db.mainHeaders[hi.hash := hi],
                           main := Insert(db.main, hi.hash, MainParent(hi.prev)),
                           work := db.work[hi.hash := hi.work + if hi.prev == ZERO then 0 else db.work[hi.prev]]);
            PutMainHeader(db, hi) == Ok(db') && ArchiveOk(db')
  {
    hide ArchiveOk, Valid, Insert;
    ArchiveFacts(db);
    ApplyKeepsArchive(db, OpMainHeader(hi));
  }

  class Archive {
    var headers: map<Hash, Header>
    var side: Index
    var mainHeaders: map<Hash, MainHeader>
    var main: Index
    var work: map<Hash, nat>
    var infos: map<Hash, Option<Hash>>
    var bmm: map<Hash, map<Hash, BmmResult>>
    var bodies: map<Hash, Body>
    var inclusions: map<Txid, map<Hash, nat>>
    var invalid: set<Hash>

    function View(): Db
      reads this
    {
      Db(headers, side, mainHeaders, main, work, infos, bmm, bodies, inclusions, invalid)
    }

    /** Dropping a write transaction: the tables are as they were committed. */
    method Restore(db: Db)
      modifies this
      ensures View() == db
    {
      headers, side, mainHeaders, main, work := db.headers, db.side, db.mainHeaders, db.main, db.work;
      infos, bmm, bodies, inclusions, invalid := db.infos, db.bmm, db.bodies, db.inclusions, db.invalid;
    }

    constructor ()
      ensures View() == EmptyDb() && ArchiveOk(View())
    {
      headers, side, mainHeaders, main, work := map[], EmptyIndex(), map[], EmptyIndex(), map[];
      infos, bmm, bodies, inclusions, invalid := map[], map[], map[], map[], {};
      new;
      EmptyArchiveOk();
    }

    /** Stores a mainchain header. */
    method PutMainHeaderInfo(hi: MainHeader) returns (r: Result<(), ArchiveError>)
      requires ArchiveOk(View()) && Allowed(View(), OpMainHeader(hi))
      modifies this
      ensures ArchiveOk(View())
      ensures match PutMainHeader(old(View()), hi)
              case Ok(db) => r == Ok(()) && View() == db
              case Err(e) => r == Err(e) && View() == old(View())
    {
      hide Valid, Insert, Insertable, ArchiveOk, TablesOk, PutMainHeader, Allowed;
      ghost var db := View();
      if hi.prev != ZERO && hi.prev !in mainHeaders {
        MainHeaderFails(db, hi);
        return Err(NoMainHeaderInfo);
      }
      MainHeaderPut(db, hi);
      var total := if hi.prev != ZERO then work[hi.prev] + hi.work else hi.work;
      var index := InsertBlock(main, hi.hash, MainParent(hi.prev));
      mainHeaders, work, main := mainHeaders[hi.hash := hi], work[hi.hash := total], index;
      return Ok(());
    }

    /** Whether an ancestor of `m` has a verified row for the parent block. */
    method CommittedInAncestry(parent: Option<Hash>, m: Hash) returns (ok: bool)
      requires ArchiveOk(View()) && m in mainHeaders && (parent.Some? ==> parent.value in headers)
      ensures ok <==> ParentVerified(View(), parent, m)
    {
      hide BmmOk, InclusionsOk, Valid, BmmValid, ArchiveOk, TablesOk, WorkOk, IsAncestor;
      ArchiveFacts(View());
      if parent.None? { return true; }
      var rows := if parent.value in bmm then bmm[parent.value] else map[];
      var todo := rows.Keys;
      ok := false;
      while todo != {}
        invariant todo <= rows.Keys
        invariant ok <==> exists a :: a in rows.Keys - todo && rows[a] == Verified && IsAncestor(main.parent, a, m)
        decreases todo
      {
        var a :| a in todo;
        if rows[a] == Verified {
          VerifiedStored(View(), parent.value, a);
          var d := IsDescendant(main, a, m);
          ok := ok || d.value;
        }
        todo := todo - {a};
      }
      assert forall a :: IsVerified(View(), parent.value, a) <==> a in rows.Keys && rows[a] == Verified;
    }

    /** The row for stored block `c` at mainchain block `m`. */
    method DecideInfoRow(m: Hash, c: Hash) returns (result: BmmResult)
      requires ArchiveOk(View()) && m in mainHeaders && c in headers
      ensures result == InfoResult(View(), m, c)
    {
      hide BmmOk, InclusionsOk, Valid, BmmValid, ArchiveOk, TablesOk, WorkOk, ParentVerified;
      ArchiveFacts(View());
      SideFacts(View(), c);
      if headers[c].prevMain != mainHeaders[m].prev { return Failed; }
      var ok := CommittedInAncestry(headers[c].prevSide, m);
      return if ok then Verified else Failed;
    }

    /** Stores what a mainchain block commits to, and the row this decides. */
    method PutMainInfo(m: Hash, commitment: Option<Hash>) returns (r: Result<(), ArchiveError>)
      requires ArchiveOk(View()) && Allowed(View(), OpMainInfo(m, commitment))
      modifies this
      ensures ArchiveOk(View())
      ensures match PutMainBlockInfo(old(View()), m, commitment)
              case Ok(db) => r == Ok(()) && View() == db
              case Err(e) => r == Err(e) && View() == old(View())
    {
      hide ArchiveOk, InfoResult, Allowed, PutHeader, PutMainHeader, PutBody, DeleteBody, Invalidate;
      ghost var db := View();
      ApplyKeepsArchive(db, OpMainInfo(m, commitment));
      if m !in mainHeaders { return Err(NoMainHeaderInfo); }
      var prev := mainHeaders[m].prev;
      if prev != ZERO && prev !in infos { return Err(NoMainBlockInfo); }
      if commitment.None? || commitment.value !in headers {
        infos := infos[m := commitment];
        return Ok(());
      }
      var c := commitment.value;
      var result := DecideInfoRow(m, c);
      var rows := if c in bmm then bmm[c] else map[];
      infos := infos[m := commitment];
      bmm := bmm[c := rows[m := result]];
      return Ok(());
    }

    /** The row for a header to be stored, at mainchain block `m`. */
    method DecideHeaderRow(header: Header, m: Hash) returns (result: BmmResult)
      requires ArchiveOk(View()) && m in mainHeaders && m in infos
      requires header.prevSide.Some? ==> header.prevSide.value in headers
      ensures result == HeaderResult(View(), header, m)
    {
      hide ArchiveOk, ParentVerified;
      if infos[m] != Some(header.hash) || header.prevMain != mainHeaders[m].prev { return Failed; }
      var ok := CommittedInAncestry(header.prevSide, m);
      return if ok then Verified else Failed;
    }

    /** The rows for a header at every successor of the mainchain block it names. */
    method DecideHeaderRows(header: Header, mains: set<Hash>) returns (r: Option<map<Hash, BmmResult>>)
      requires ArchiveOk(View()) && mains <= mainHeaders.Keys
      requires header.prevSide.Some? ==> header.prevSide.value in headers
      ensures r.Some? <==> mains <= infos.Keys
      ensures r.Some? ==> r.value == map m | m in mains :: HeaderResult(View(), header, m)
    {
      hide ArchiveOk, HeaderResult;
      var rows: map<Hash, BmmResult> := map[];
      var todo := mains;
      while todo != {}
        invariant todo <= mains && mains - todo <= infos.Keys
        invariant rows == map m | m in mains - todo :: HeaderResult(View(), header, m)
        decreases todo
      {
        var m :| m in todo;
        if m !in infos { return None; }
        var result := DecideHeaderRow(header, m);
        assert mains - (todo - {m}) == (mains - todo) + {m};
        rows := rows[m := result];
        todo := todo - {m};
      }
      assert mains - {} == mains;
      return Some(rows);
    }

    /** What storing a sidechain header writes: its index entries and BMM rows. */
    method PrepareHeader(header: Header) returns (r: Result<(Index, map<Hash, BmmResult>), ArchiveError>)
      requires ArchiveOk(View()) && Allowed(View(), OpHeader(header))
      ensures match PutHeader(View(), header)
              case Ok(db) => r == Ok((db.side, db.bmm[header.hash]))
              case Err(e) => r == Err(e)
    {
      hide ArchiveOk, HeaderResult, Insert, Insertable, Allowed, PutHeader;
      ghost var db := View();
      PutHeaderFails(db, header);
      if header.prevSide.Some? && header.prevSide.value !in side.height { return Err(InvalidPrevSideHash); }
      if MainParent(header.prevMain) !in main.succ { return Err(NoMainBlockHash); }
      var mains := main.succ[MainParent(header.prevMain)];
      HeaderInsertable(db, header);
      var rows := DecideHeaderRows(header, mains);
      if rows.None? { return Err(NoMainBlockInfo); }
      PutHeaderStores(db, header, rows.value);
      var index := InsertBlock(side, header.hash, header.prevSide);
      return Ok((index, (if header.hash in bmm then bmm[header.hash] else map[]) + rows.value));
    }

    /** Stores a sidechain header. */
    method StoreHeader(header: Header) returns (r: Result<(), ArchiveError>)
      requires ArchiveOk(View()) && Allowed(View(), OpHeader(header))
      modifies this
      ensures ArchiveOk(View())
      ensures match PutHeader(old(View()), header)
              case Ok(db) => r == Ok(()) && View() == db
              case Err(e) => r == Err(e) && View() == old(View())
    {
      hide ArchiveOk, Allowed, PutHeader;
      ghost var db := View();
      ApplyKeepsArchive(db, OpHeader(header));
      PutHeaderFrame(db, header);
      var plan := PrepareHeader(header);
      if plan.Err? { return Err(plan.error); }
      headers, side, bmm := headers[header.hash := header], plan.value.0, bmm[header.hash := plan.value.1];
      return Ok(());
    }

    /** Stores a body and lists its transactions. */
    method StoreBody(b: Hash, body: Body) returns (r: Result<(), ArchiveError>)
      requires ArchiveOk(View()) && Allowed(View(), OpBody(b, body))
      modifies this
      ensures ArchiveOk(View())
      ensures match PutBody(old(View()), b, body)
              case Ok(db) => r == Ok(()) && View() == db
              case Err(e) => r == Err(e) && View() == old(View())
    {
      hide BmmOk, InclusionsOk, BmmValid, ArchiveOk, TablesOk, WorkOk;
      ghost var db := View();
      ApplyKeepsArchive(db, OpBody(b, body));
      if b !in headers { return Err(NoHeader); }
      var inc := inclusions;
      for i := 0 to |body.transactions|
        invariant inc == AddInclusions(inclusions, b, Txids(body), i)
      {
        var t := body.transactions[i].txid;
        inc := inc[t := Row(inc, t)[b := i]];
      }
      bodies := bodies[b := body];
      inclusions := inc;
      assert View() == Apply(db, OpBody(b, body));
      return Ok(());
    }

    /** Deletes a block and its descendants, and marks them invalid. */
    method InvalidateBlock(b: Hash)
      requires ArchiveOk(View())
      modifies this
      ensures ArchiveOk(View()) && View() == Invalidate(old(View()), b)
    {
      hide ArchiveOk, Subtree, RemoveFromIndex, RemoveFromInclusions;
      ghost var db := View();
      InvalidateKeeps(db, b);
      var w := RemoveSubtree(db, Work(headers, side, bodies, inclusions, invalid), b);
      headers, side, bodies, inclusions, invalid := w.headers, w.side, w.bodies, w.inclusions, w.invalid;
      assert View() == Invalidate(db, b);
    }

    /** Deletes a stored body and its entries in the inclusion index. */
    method DropBody(b: Hash, body: Body)
      requires ArchiveOk(View()) && Allowed(View(), OpDeleteBody(b, body))
      modifies this
      ensures ArchiveOk(View()) && View() == DeleteBody(old(View()), b, body)
    {
      hide BmmOk, InclusionsOk, BmmValid, ArchiveOk, TablesOk, WorkOk;
      ghost var db := View();
      ApplyKeepsArchive(db, OpDeleteBody(b, body));
      var inc := Unlist(inclusions, b, body);
      bodies := bodies - {b};
      inclusions := inc;
      assert View() == Apply(db, OpDeleteBody(b, body));
    }
  }

  // ----- facts the methods use -----

  lemma HeaderInsertable(db: Db, header: Header)
    requires ArchiveOk(db) && Allowed(db, OpHeader(header)) && MainParent(header.prevMain) in db.main.succ
    requires header.prevSide.Some? ==> header.prevSide.value in db.side.height
    ensures Insertable(db.side, header.hash, header.prevSide)
    ensures header.prevSide.Some? ==> header.prevSide.value in db.headers
    ensures db.main.succ[MainParent(header.prevMain)] <= db.mainHeaders.Keys
  {
    hide ArchiveOk, Valid, TablesOk;
    ArchiveFacts(db);
    SuccessorsStored(db, header.prevMain);
  }

  lemma PutHeaderFrame(db: Db, header: Header)
    ensures PutHeader(db, header).Ok? ==>
              var db' := PutHeader(db, header).value;
              && header.hash in db'.bmm
              && db' == db.(headers := db.headers[header.hash := header], side := db'.side,
                            bmm := db.bmm[header.hash := db'.bmm[header.hash]])
  {
    hide HeaderResult, Insert;
  }

  lemma PutHeaderFails(db: Db, header: Header)
    ensures header.prevSide.Some? && header.prevSide.value !in db.side.height ==>
              PutHeader(db, header) == Err(InvalidPrevSideHash)
    ensures (header.prevSide.Some? ==> header.prevSide.value in db.side.height) &&
            MainParent(header.prevMain) !in db.main.succ ==>
              PutHeader(db, header) == Err(NoMainBlockHash)
    ensures (header.prevSide.Some? ==> header.prevSide.value in db.side.height) &&
            MainParent(header.prevMain) in db.main.succ &&
            !(db.main.succ[MainParent(header.prevMain)] <= db.infos.Keys) ==>
              PutHeader(db, header) == Err(NoMainBlockInfo)
  {
  }

  lemma PutHeaderStores(db: Db, header: Header, rows: map<Hash, BmmResult>)
    requires header.prevSide.Some? ==> header.prevSide.value in db.side.height
    requires MainParent(header.prevMain) in db.main.succ
    requires db.main.succ[MainParent(header.prevMain)] <= db.infos.Keys
    requires db.main.succ[MainParent(header.prevMain)] <= db.mainHeaders.Keys
    requires rows == map m | m in db.main.succ[MainParent(header.prevMain)] :: HeaderResult(db, header, m)
    ensures PutHeader(db, header) ==
            Ok(db.(headers := db.headers[header.hash := header],
                   side := Insert(db.side, header.hash, header.prevSide),
                   bmm := db.bmm[header.hash := Results(db, header.hash) + rows]))
  {
    hide HeaderResult, Insert;
  }

  lemma SuccessorsStored(db: Db, prev: Hash)
    requires TablesOk(db) && MainParent(prev) in db.main.succ
    ensures db.main.succ[MainParent(prev)] <= db.mainHeaders.Keys
  {
    hide TablesOk;
    forall m | m in db.main.succ[MainParent(prev)] ensures m in db.mainHeaders { SuccessorOf(db, prev, m); }
  }

  lemma VerifiedStored(db: Db, b: Hash, m: Hash)
    requires ArchiveOk(db) && b in db.headers && IsVerified(db, b, m)
    ensures m in db.mainHeaders
  {
    hide TablesOk, InclusionsOk, WorkOk;
    assert BmmValid(db, b, m);
  }
}
