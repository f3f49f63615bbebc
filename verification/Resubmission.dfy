/** Storing again what the archive holds already, as connecting a stored block does. */
module Resubmission {
  import opened Wrappers
  import opened Types
  import opened Ancestry
  import opened BlockIndex
  import opened ArchiveDb
  import opened BmmTable
  import opened Inclusions
  import opened ArchiveRuns

  /** Equal but for rows of results, and those agree on what is Verified. */
  ghost predicate SameArchive(db: Db, db': Db) {
    && db' == db.(bmm := db'.bmm)
    && forall b, m :: IsVerified(db', b, m) <==> IsVerified(db, b, m)
  }

  lemma SameTrans(a: Db, b: Db, c: Db)
    requires SameArchive(a, b) && SameArchive(b, c)
    ensures SameArchive(a, c)
  {
  }

  /** The mainchain block is stored, or is the one before the first, and all stored
    * blocks above it have their contents stored. */
  ghost predicate ChildrenKnown(db: Db, m: Hash) {
    && (m == ZERO || m in db.mainHeaders)
    && forall n :: n in db.mainHeaders && db.mainHeaders[n].prev == m ==> n in db.infos
  }

  /** A stored header can be stored again exactly where the contents of the mainchain
    * blocks that may commit to it are known. */
  lemma StoresAgain(db: Db, h: Header)
    requires ArchiveOk(db) && h.hash in db.headers && db.headers[h.hash] == h
    ensures PutHeader(db, h).Ok? <==> ChildrenKnown(db, h.prevMain)
  {
    hide TablesOk, BmmOk, InclusionsOk, WorkOk, HeaderResult, Insert;
    SideFacts(db, h.hash);
    MainChildren(db, h.prevMain);
  }

  lemma MainChildren(db: Db, m: Hash)
    requires TablesOk(db)
    ensures MainParent(m) in db.main.succ <==> m == ZERO || m in db.mainHeaders
    ensures MainParent(m) in db.main.succ ==>
              forall n :: n in db.main.succ[MainParent(m)] <==> n in db.mainHeaders && db.mainHeaders[n].prev == m
  {
    hide SkipOk, Ranked;
  }

  lemma HeaderAgain(db: Db, h: Header, db': Db)
    requires ArchiveOk(db) && h.hash in db.headers && db.headers[h.hash] == h && PutHeader(db, h) == Ok(db')
    ensures ArchiveOk(db') && SameArchive(db, db')
  {
    hide TablesOk, BmmOk, WorkOk, InclusionsOk, HeaderResult, Insert, IsVerified;
    ApplyKeepsArchive(db, OpHeader(h));
    assert Apply(db, OpHeader(h)) == db';
    assert db'.headers == db.headers;
    SideAgain(db, db');
    forall b, m ensures IsVerified(db', b, m) <==> IsVerified(db, b, m) {
      VerifiedAgain(db, db', h, b, m);
    }
  }

  lemma SideAgain(db: Db, db': Db)
    requires TablesOk(db) && TablesOk(db') && db'.headers == db.headers
    ensures db'.side == db.side
  {
    hide SkipOk, SuccOk, Ranked;
    IndexDetermined(db.side, db'.side);
  }

  lemma VerifiedAgain(db: Db, db': Db, h: Header, b: Hash, m: Hash)
    requires TablesOk(db) && TablesOk(db') && BmmOk(db) && BmmOk(db')
    requires h.hash in db.headers && db'.headers == db.headers
    requires db.mainHeaders == db'.mainHeaders && db.main == db'.main && db.infos == db'.infos
    requires forall x :: x != h.hash ==> Results(db', x) == Results(db, x)
    ensures IsVerified(db', b, m) <==> IsVerified(db, b, m)
  {
    hide TablesOk, BmmValid, IsAncestor;
    if b in db.headers {
      SideFrame(db, db', b, m);
    } else {
      assert Results(db', b) == Results(db, b);
    }
  }

  lemma StoredTxidsDistinct(db: Db, b: Hash)
    requires InclusionsOk(db.bodies, db.inclusions) && b in db.bodies
    ensures Distinct(Txids(db.bodies[b]))
  {
  }

  lemma BodyAgain(db: Db, b: Hash)
    requires ArchiveOk(db) && b in db.bodies
    ensures Allowed(db, OpBody(b, db.bodies[b])) && PutBody(db, b, db.bodies[b]) == Ok(db)
  {
    hide TablesOk, BmmOk, WorkOk, InclusionsOk, AddInclusions, Distinct;
    StoredTxidsDistinct(db, b);
    PutKeepsInclusions(db.bodies, db.inclusions, b, db.bodies[b]);
    assert db.bodies[b := db.bodies[b]] == db.bodies;
    InclusionsDetermined(db.bodies, db.inclusions, PutBody(db, b, db.bodies[b]).value.inclusions);
  }
}
