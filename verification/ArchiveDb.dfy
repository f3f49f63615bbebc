/** The archive's tables, and what each write to them does. */
module ArchiveDb {
  import opened Wrappers
  import opened Types
  import opened Ancestry
  import opened BlockIndex

  /** The all-zeros hash, parent of a mainchain genesis block. */
  const ZERO: Hash := 0

  datatype MainHeader = MainHeader(hash: Hash, prev: Hash, height: nat, work: nat)
  datatype BmmResult = Verified | Failed

  datatype Db = Db(
    headers: map<Hash, Header>,
    side: Index,
    mainHeaders: map<Hash, MainHeader>,
    main: Index,
    work: map<Hash, nat>,
    // block commitment of each mainchain block
    infos: map<Hash, Option<Hash>>,
    bmm: map<Hash, map<Hash, BmmResult>>,
    bodies: map<Hash, Body>,
    inclusions: map<Txid, map<Hash, nat>>,
    invalid: set<Hash>)

  datatype ArchiveError =
    | NoMainHeaderInfo | NoMainBlockInfo | NoMainBlockHash
    | InvalidPrevSideHash | NoHeader | NoBody | NoBlockHash
    | Lookup(error: LookupError)

  function EmptyIndex(): Index { Index(map[], map[], map[], map[None := {}]) }

  function EmptyDb(): Db {
    Db(map[], EmptyIndex(), map[], EmptyIndex(), map[], map[], map[], map[], map[], {})
  }

  function MainParent(prev: Hash): Option<Hash> { if prev == ZERO then None else Some(prev) }

  function SideParents(headers: map<Hash, Header>): Parents { map b | b in headers :: headers[b].prevSide }

  function MainParents(mh: map<Hash, MainHeader>): Parents { map m | m in mh :: MainParent(mh[m].prev) }

  function Results(db: Db, b: Hash): map<Hash, BmmResult> { if b in db.bmm then db.bmm[b] else map[] }

  // ----- blind merged mining -----

  /** Main block `m` commits to stored block `b`, on the mainchain parent that `b` names. */
  ghost predicate Committed(db: Db, b: Hash, m: Hash) {
    && b in db.headers && m in db.infos && db.infos[m] == Some(b)
    && m in db.mainHeaders && db.headers[b].prevMain == db.mainHeaders[m].prev
  }

  /** What the table of results should say: `m` commits to `b`, and `b` has no
    * parent or its parent is validly committed to by an ancestor of `m`. */
  ghost predicate BmmValid(db: Db, b: Hash, m: Hash)
    decreases if b in db.side.height then db.side.height[b] else 0
  {
    && Committed(db, b, m) && b in db.side.height
    && match db.headers[b].prevSide
       case None => true
       case Some(q) =>
         && q in db.side.height && db.side.height[q] < db.side.height[b]
         && exists m' :: BmmValid(db, q, m') && IsAncestor(db.main.parent, m', m)
  }

  ghost predicate IsVerified(db: Db, b: Hash, m: Hash) {
    b in db.bmm && m in db.bmm[b] && db.bmm[b][m] == Verified
  }

  /** The check that both writers make against the rows of the parent block. */
  ghost predicate ParentVerified(db: Db, parent: Option<Hash>, m: Hash) {
    parent.None? || exists m' :: IsVerified(db, parent.value, m') && IsAncestor(db.main.parent, m', m)
  }

  // ----- writes -----

  ghost function PutMainHeader(db: Db, hi: MainHeader): Result<Db, ArchiveError> {
    if hi.prev != ZERO && (hi.prev !in db.mainHeaders || hi.prev !in db.main.height || hi.prev !in db.work)
    then Err(NoMainHeaderInfo)
    else Ok(db.(mainHeaders := db.mainHeaders[hi.hash := hi],
                main := Insert(db.main, hi.hash, MainParent(hi.prev)),
                work := db.work[hi.hash := hi.work + if hi.prev == ZERO then 0 else db.work[hi.prev]]))
  }

  ghost function InfoResult(db: Db, m: Hash, c: Hash): BmmResult
    requires c in db.headers && m in db.mainHeaders
  {
    if db.headers[c].prevMain == db.mainHeaders[m].prev && ParentVerified(db, db.headers[c].prevSide, m)
    then Verified else Failed
  }

  ghost function PutMainBlockInfo(db: Db, m: Hash, commitment: Option<Hash>): Result<Db, ArchiveError> {
    if m !in db.mainHeaders then Err(NoMainHeaderInfo)
    else if db.mainHeaders[m].prev != ZERO && db.mainHeaders[m].prev !in db.infos then Err(NoMainBlockInfo)
    else
      var db1 := db.(infos := db.infos[m := commitment]);
      if commitment.None? || commitment.value !in db.headers then Ok(db1)
      else Ok(db1.(bmm := db.bmm[commitment.value := Results(db, commitment.value)[m := InfoResult(db, m, commitment.value)]]))
  }

  ghost function HeaderResult(db: Db, header: Header, m: Hash): BmmResult
    requires m in db.infos && m in db.mainHeaders
  {
    if db.infos[m] == Some(header.hash) && header.prevMain == db.mainHeaders[m].prev && ParentVerified(db, header.prevSide, m)
    then Verified else Failed
  }

  ghost function PutHeader(db: Db, header: Header): Result<Db, ArchiveError> {
    if header.prevSide.Some? && header.prevSide.value !in db.side.height then Err(InvalidPrevSideHash)
    else if MainParent(header.prevMain) !in db.main.succ then Err(NoMainBlockHash)
    else
      var mains := db.main.succ[MainParent(header.prevMain)];
      if !(mains <= db.infos.Keys) then Err(NoMainBlockInfo)
      else if !(mains <= db.mainHeaders.Keys) then Err(NoMainHeaderInfo)
      else Ok(db.(headers := db.headers[header.hash := header],
                  side := Insert(db.side, header.hash, header.prevSide),
                  bmm := db.bmm[header.hash := Results(db, header.hash) +
                                               map m | m in mains :: HeaderResult(db, header, m)]))
  }

  function Txids(body: Body): seq<Txid> {
    seq(|body.transactions|, i requires 0 <= i < |body.transactions| => body.transactions[i].txid)
  }

  function Row(inc: map<Txid, map<Hash, nat>>, t: Txid): map<Hash, nat> { if t in inc then inc[t] else map[] }

  /** The inclusion index after adding the first `n` transactions of block `b`. */
  function AddInclusions(inc: map<Txid, map<Hash, nat>>, b: Hash, ts: seq<Txid>, n: nat): map<Txid, map<Hash, nat>>
    requires n <= |ts|
  {
    if n == 0 then inc
    else var inc' := AddInclusions(inc, b, ts, n - 1); inc'[ts[n - 1] := Row(inc', ts[n - 1])[b := n - 1]]
  }

  /** Removing block `b` from the rows of the first `n` transactions; empty rows go. */
  function RemoveInclusions(inc: map<Txid, map<Hash, nat>>, b: Hash, ts: seq<Txid>, n: nat): map<Txid, map<Hash, nat>>
    requires n <= |ts|
  {
    if n == 0 then inc
    else
      var inc' := RemoveInclusions(inc, b, ts, n - 1);
      var row := Row(inc', ts[n - 1]) - {b};
      if row == map[] then inc' - {ts[n - 1]} else inc'[ts[n - 1] := row]
  }

  function PutBody(db: Db, b: Hash, body: Body): Result<Db, ArchiveError> {
    if b !in db.headers then Err(NoHeader)
    else Ok(db.(bodies := db.bodies[b := body],
                inclusions := AddInclusions(db.inclusions, b, Txids(body), |body.transactions|)))
  }

  function DeleteBody(db: Db, b: Hash, body: Body): Db {
    db.(bodies := db.bodies - {b},
        inclusions := RemoveInclusions(db.inclusions, b, Txids(body), |body.transactions|))
  }

  /** The stored blocks at or above `b`. */
  ghost function Subtree(db: Db, b: Hash): set<Hash> {
    set x | x in db.headers && IsAncestor(db.side.parent, b, x)
  }

  ghost function RemoveFromIndex(ix: Index, gone: set<Hash>): Index {
    Index(ix.parent - gone, ix.height - gone, ix.skip - gone,
          map k | k in ix.succ && (k.None? || k.value !in gone) :: ix.succ[k] - gone)
  }

  ghost function RemoveFromInclusions(inc: map<Txid, map<Hash, nat>>, gone: set<Hash>): map<Txid, map<Hash, nat>> {
    map t | t in inc && inc[t] - gone != map[] :: inc[t] - gone
  }

  /** Removing a block and everything above it, and marking them invalid. */
  ghost function Invalidate(db: Db, b: Hash): Db {
    var gone := Subtree(db, b);
    db.(headers := db.headers - gone,
        side := RemoveFromIndex(db.side, gone),
        bodies := db.bodies - gone,
        inclusions := RemoveFromInclusions(db.inclusions, gone),
        invalid := db.invalid + gone + {b})
  }
}
