/** Moving the stored mainchain tip to a new tip: disconnect down to the last
  * common ancestor, then connect up to the new tip in batches. */
module MainchainSync {
  import opened Wrappers
  import opened Types
  import opened Ancestry
  import opened BlockIndex
  import opened ArchiveDb
  import opened BmmTable
  import opened ArchiveRuns
  import opened AncestorWalks

  const BATCH_SIZE: nat := 32

  /** The stored tip record: the tip, and the total work of the chain below it. */
  datatype MainTip = MainTip(work: nat, info: Option<MainHeader>) {
    function Hash(): Hash { if info.None? then ZERO else info.value.hash }
    function NextHeight(): nat { if info.None? then 0 else info.value.height + 1 }
  }

  datatype Event = DisconnectBlock(hash: Hash) | ConnectBlock(hash: Hash)

  datatype SyncError =
    | ArchiveFailed(error: ArchiveError)
    | InvalidMainchainParent | InvalidTipHeight | NoMainchainTip

  /** Moving the stored tip up by one block. */
  function ConnectTip(tip: MainTip, header: MainHeader): Result<MainTip, SyncError> {
    if header.prev != tip.Hash() then Err(InvalidMainchainParent)
    else if tip.info.Some? && header.height != tip.info.value.height + 1 then Err(InvalidTipHeight)
    else Ok(MainTip(tip.work + header.work, Some(header)))
  }

  /** Moving the stored tip down by one block, to the parent the caller looked up. */
  function DisconnectTip(tip: MainTip, parent: Option<MainHeader>): Result<MainTip, SyncError>
    requires tip.info.Some? ==> tip.info.value.work <= tip.work
  {
    if tip.info.None? then Err(NoMainchainTip)
    else
      var top := tip.info.value;
      if parent.Some? && parent.value.hash != top.prev then Err(InvalidMainchainParent)
      else if parent.Some? && parent.value.height + 1 != top.height then Err(InvalidTipHeight)
      else if parent.None? && top.prev != ZERO then Err(InvalidMainchainParent)
      else Ok(MainTip(tip.work - top.work, if top.prev == ZERO then None else parent))
  }

  /** Header infos carry the height that the index computes. */
  ghost predicate HeightsMatch(db: Db) {
    forall m :: m in db.mainHeaders ==> m in db.main.height && db.mainHeaders[m].height == db.main.height[m]
  }

  ghost predicate Synced(db: Db) { TablesOk(db) && HeightsMatch(db) && WorkOk(db.mainHeaders, db.work) }

  /** The stored tip names a stored block with stored info, and carries its total work. */
  ghost predicate TipOk(db: Db, tip: MainTip) {
    match tip.info
    case None => tip.work == 0
    case Some(hi) =>
      && hi.hash in db.mainHeaders && db.mainHeaders[hi.hash] == hi
      && hi.hash in db.infos && hi.hash in db.work && tip.work == db.work[hi.hash]
  }

  ghost function Disconnects(s: seq<Hash>): seq<Event> { seq(|s|, i requires 0 <= i < |s| => DisconnectBlock(s[i])) }
  ghost function Connects(s: seq<Hash>): seq<Event> { seq(|s|, i requires 0 <= i < |s| => ConnectBlock(s[i])) }

  /** What the tables say of one stored mainchain block. */
  lemma BlockFacts(db: Db, m: Hash)
    requires Synced(db) && m in db.mainHeaders
    ensures m in db.main.parent && m in db.main.height && db.main.parent[m] == MainParent(db.mainHeaders[m].prev)
    ensures db.mainHeaders[m].hash == m && m != ZERO && db.mainHeaders[m].height == db.main.height[m]
    ensures m in db.work
    ensures var q := db.mainHeaders[m].prev;
            if q == ZERO then db.work[m] == db.mainHeaders[m].work && db.main.height[m] == 0
            else
              && q in db.mainHeaders && q in db.main.height && db.main.height[m] == db.main.height[q] + 1
              && q in db.work && db.work[m] == db.work[q] + db.mainHeaders[m].work
              && db.mainHeaders[q].hash == q && db.mainHeaders[q].height == db.main.height[q]
              && (m in db.infos ==> q in db.infos)
  {
    hide SkipOk, SuccOk;
  }

  lemma MainKeys(db: Db)
    requires Synced(db)
    ensures Valid(db.main) && db.main.height.Keys == db.main.parent.Keys == db.mainHeaders.Keys
    ensures db.infos.Keys <= db.mainHeaders.Keys && ZERO !in db.mainHeaders
  {
    hide SkipOk, SuccOk;
  }

  // ----- disconnecting -----

  /** The walk down from the first tip: the first `n` blocks are disconnected. */
  ghost predicate Down(db: Db, top: Hash, n: nat, tip: MainTip) {
    && top in db.main.parent && top in db.main.height && TipOk(db, tip)
    && (tip.info.Some? ==> n <= db.main.height[top] && Nth(db.main.parent, top, n) == Some(tip.info.value.hash))
    && (tip.info.None? ==> n == db.main.height[top] + 1)
  }

  function Parent(db: Db, header: MainHeader): (r: Result<Option<MainHeader>, SyncError>) {
    if header.prev == ZERO then Ok(None)
    else if header.prev in db.mainHeaders then Ok(Some(db.mainHeaders[header.prev]))
    else Err(ArchiveFailed(NoMainHeaderInfo))
  }

  lemma DownStep(db: Db, top: Hash, n: nat, tip: MainTip)
    requires Synced(db) && Down(db, top, n, tip) && tip.info.Some?
    ensures tip.info.value.work <= tip.work
    ensures var parent := Parent(db, tip.info.value);
            parent.Ok? &&
            var next := DisconnectTip(tip, parent.value);
            next.Ok? && Down(db, top, n + 1, next.value) && next.value.NextHeight() < tip.NextHeight()
    ensures Descending(db.main.parent, top, n + 1) == Descending(db.main.parent, top, n) + [tip.info.value.hash]
  {
    hide Nth, Valid, Descending, TablesOk, Synced;
    var cur := tip.info.value.hash;
    MainKeys(db);
    BlockFacts(db, cur);
    StepUp(db.main, top, n, cur);
    DescendingMore(db.main.parent, top, n, cur);
  }

  /** Disconnects the tip down to `common`, or all of it if that is not an ancestor.
    * No lookup and no check of the tip fails on the way. */
  method DisconnectTo(db: Db, start: MainTip, common: Hash)
    returns (tip: MainTip, events: seq<Event>, ghost n: nat)
    requires Synced(db) && TipOk(db, start)
    ensures TipOk(db, tip) && (tip.info.Some? ==> tip.Hash() == common)
    ensures start.info.None? ==> tip == start && events == [] && n == 0
    ensures start.info.Some? ==>
              && Down(db, start.Hash(), n, tip)
              && events == Disconnects(Descending(db.main.parent, start.Hash(), n))
              && forall k :: 0 <= k < n ==> Nth(db.main.parent, start.Hash(), k) != Some(common)
  {
    hide Nth, Descending, Synced, DisconnectTip, Parent, Valid;
    tip, events, n := start, [], 0;
    if start.info.Some? { DownStart(db, start); }
    while tip.info.Some? && tip.info.value.hash != common
      invariant TipOk(db, tip)
      invariant start.info.None? ==> tip == start && events == [] && n == 0
      invariant start.info.Some? ==>
                  && Down(db, start.Hash(), n, tip)
                  && events == Disconnects(Descending(db.main.parent, start.Hash(), n))
                  && forall k :: 0 <= k < n ==> Nth(db.main.parent, start.Hash(), k) != Some(common)
      decreases tip.NextHeight()
    {
      DownStep(db, start.Hash(), n, tip);
      var parent := Parent(db, tip.info.value).value;
      events := events + [DisconnectBlock(tip.info.value.hash)];
      tip := DisconnectTip(tip, parent).value;
      n := n + 1;
    }
  }

  lemma DownStart(db: Db, tip: MainTip)
    requires Synced(db) && TipOk(db, tip) && tip.info.Some?
    ensures Down(db, tip.Hash(), 0, tip) && Descending(db.main.parent, tip.Hash(), 0) == []
  {
    hide Synced;
    BlockFacts(db, tip.Hash());
  }

  // ----- connecting -----

  /** The walk up: `j` blocks of the path `s` to the target are connected. */
  ghost predicate Up(db: Db, s: seq<Hash>, start: MainTip, j: nat, tip: MainTip) {
    && j <= |s| && TipOk(db, tip)
    && tip.NextHeight() == start.NextHeight() + j
    && (j == 0 ==> tip == start)
    && (j > 0 ==> tip.info.Some? && tip.Hash() == s[j - 1])
  }

  /** The blocks of the path follow one another. */
  ghost predicate Linked(db: Db, s: seq<Hash>, start: MainTip) {
    forall i {:trigger s[i]} :: 0 <= i < |s| ==>
      && s[i] in db.mainHeaders && db.mainHeaders[s[i]].height == start.NextHeight() + i
      && db.mainHeaders[s[i]].prev == if i == 0 then start.Hash() else s[i - 1]
  }

  /** A path up to the target starts right above an ancestor of it. */
  lemma PathLinked(db: Db, start: MainTip, target: Hash)
    requires Synced(db) && TipOk(db, start) && target in db.main.parent && target in db.main.height
    requires start.info.Some? ==> IsAncestor(db.main.parent, start.Hash(), target)
    ensures Linked(db, From(db.main, target, start.NextHeight()), start)
    ensures |From(db.main, target, start.NextHeight())| == db.main.height[target] + 1 - start.NextHeight()
    ensures start.NextHeight() <= db.main.height[target] ==>
              var s := From(db.main, target, start.NextHeight());
              s[|s| - 1] == target
    ensures start.NextHeight() > db.main.height[target] ==> start.Hash() == target
  {
    hide Nth, Valid, Ascending, Synced, IsAncestor;
    MainKeys(db);
    var k := db.main.height[target];
    if start.info.Some? { StartFacts(db, start, target); }
    if start.NextHeight() <= k {
      var s := From(db.main, target, start.NextHeight());
      WalkEntries(db.main, target, k + 1 - start.NextHeight());
      forall i {:trigger s[i]} | 0 <= i < |s|
        ensures s[i] in db.mainHeaders && db.mainHeaders[s[i]].height == start.NextHeight() + i
             && db.mainHeaders[s[i]].prev == if i == 0 then start.Hash() else s[i - 1]
      {
        EntryLinked(db, start, target, s, i);
      }
      NthZero(db.main.parent, target);
    }
  }

  lemma StartFacts(db: Db, start: MainTip, target: Hash)
    requires Synced(db) && TipOk(db, start) && target in db.main.parent && target in db.main.height
    requires start.info.Some? && IsAncestor(db.main.parent, start.Hash(), target)
    ensures start.Hash() in db.main.height && start.NextHeight() == db.main.height[start.Hash()] + 1
    ensures start.NextHeight() <= db.main.height[target] + 1
    ensures Nth(db.main.parent, target, db.main.height[target] + 1 - start.NextHeight()) == Some(start.Hash())
    ensures start.NextHeight() > db.main.height[target] ==> start.Hash() == target
  {
    hide Nth, Valid, IsAncestor, Synced;
    MainKeys(db);
    BlockFacts(db, start.Hash());
    DescendantByHeight(db.main, start.Hash(), target);
    NthZero(db.main.parent, target);
  }

  lemma EntryLinked(db: Db, start: MainTip, target: Hash, s: seq<Hash>, i: nat)
    requires Synced(db) && TipOk(db, start) && target in db.main.parent && target in db.main.height
    requires start.NextHeight() + i <= db.main.height[target] && |s| == db.main.height[target] + 1 - start.NextHeight()
    requires start.info.Some? ==> Nth(db.main.parent, target, |s|) == Some(start.Hash())
    requires forall j :: 0 <= j < |s| ==>
               Nth(db.main.parent, target, |s| - 1 - j) == Some(s[j]) && s[j] in db.main.height
               && db.main.height[s[j]] == start.NextHeight() + j
    ensures s[i] in db.mainHeaders && db.mainHeaders[s[i]].height == start.NextHeight() + i
    ensures db.mainHeaders[s[i]].prev == if i == 0 then start.Hash() else s[i - 1]
  {
    hide Nth, Valid, Synced;
    MainKeys(db);
    BlockFacts(db, s[i]);
    StepUp(db.main, target, |s| - 1 - i, s[i]);
    if i > 0 {
      assert Nth(db.main.parent, target, |s| - 1 - (i - 1)) == Some(s[i - 1]);
    }
  }

  /** The path from a later start is the rest of the path. */
  lemma FromSuffix(ix: Index, b: Hash, start: nat, j: nat)
    requires Valid(ix) && b in ix.parent && b in ix.height && start + j <= ix.height[b] + 1
    ensures |From(ix, b, start)| == ix.height[b] + 1 - start
    ensures From(ix, b, start + j) == From(ix, b, start)[j..]
  {
    hide Nth, Valid, Ascending;
    var k := ix.height[b] + 1 - start;
    var s, t := From(ix, b, start), From(ix, b, start + j);
    if j < k {
      WalkEntries(ix, b, k);
      WalkEntries(ix, b, k - j);
      forall i | 0 <= i < k - j ensures t[i] == s[j..][i] {
        assert Nth(ix.parent, b, k - 1 - (j + i)) == Some(s[j + i]);
      }
    } else if k > 0 {
      WalkEntries(ix, b, k);
    }
  }

  /** The first blocks of the batched iterator. */
  method TakeBatch(ix: Index, ends: Heights, b: Hash, start: nat) returns (r: Result<seq<Hash>, LookupError>)
    requires Valid(ix)
    requires b in ends <==> b in ix.parent
    requires b in ends ==> b in ix.height && ends[b] == ix.height[b]
    ensures b !in ix.parent ==> r == Err(NoHeight(b))
    ensures b in ix.parent ==>
              var s := From(ix, b, start);
              r == Ok(s[..if |s| <= BATCH_SIZE then |s| else BATCH_SIZE])
  {
    hide Valid, Reverse, From;
    var it := new AncestorsRev(ix, ends, b, start);
    ghost var all := if b in ix.parent then it.Remaining() else [];
    var batch: seq<Hash> := [];
    var done := false;
    while !done && |batch| < BATCH_SIZE
      invariant it.Ready() && |batch| <= BATCH_SIZE && fresh(it)
      invariant b !in ix.parent ==> batch == [] && !done
      invariant b in ix.parent ==> batch + it.Remaining() == all
      invariant done ==> it.Remaining() == []
      decreases !done, BATCH_SIZE - |batch|
    {
      ghost var before := if b in ix.parent then it.Remaining() else [];
      var item := it.Next();
      match item {
        case Err(e) => return Err(e);
        case Ok(None) => done := true;
        case Ok(Some(x)) =>
          TakenStep(batch, before);
          batch := batch + [x];
      }
    }
    if b in ix.parent { TakenPrefix(batch, it.Remaining(), all); }
    return Ok(batch);
  }

  lemma TakenStep(batch: seq<Hash>, rest: seq<Hash>)
    requires rest != []
    ensures batch + rest == (batch + [rest[0]]) + rest[1..]
  {
  }

  lemma TakenPrefix(batch: seq<Hash>, rest: seq<Hash>, all: seq<Hash>)
    requires batch + rest == all
    ensures batch == all[..|batch|] && (rest == [] ==> |all| == |batch|) && |all| >= |batch|
  {
  }

  /** Connecting a run of blocks of the path. */
  method ConnectBatch(db: Db, batch: seq<Hash>, tip0: MainTip, ghost s: seq<Hash>, ghost start: MainTip, ghost j: nat)
    returns (r: Result<MainTip, SyncError>, events: seq<Event>)
    requires Synced(db) && Linked(db, s, start) && Up(db, s, start, j, tip0)
    requires j + |batch| <= |s| && batch == s[j..j + |batch|]
    ensures r.Ok? ==> Up(db, s, start, j + |batch|, r.value) && events == Connects(batch)
    ensures r.Err? ==> exists i :: 0 <= i < |batch| && batch[i] !in db.infos
  {
    hide Synced, ConnectTip, Up, Linked, Connects;
    UpBound(db, s, start, j, tip0);
    ConnectsNone(batch);
    var tip := tip0;
    events := [];
    for i := 0 to |batch|
      invariant Up(db, s, start, j + i, tip) && events == Connects(batch[..i])
    {
      assert batch[i] == s[j + i];
      if batch[i] !in db.infos { return Err(ArchiveFailed(NoMainBlockInfo)), events; }
      UpStep(db, s, start, j + i, tip);
      tip := ConnectTip(tip, db.mainHeaders[batch[i]]).value;
      ConnectsStep(batch, i);
      events := events + [ConnectBlock(batch[i])];
    }
    assert batch[..|batch|] == batch;
    return Ok(tip), events;
  }

  lemma UpBound(db: Db, s: seq<Hash>, start: MainTip, j: nat, tip: MainTip)
    requires Up(db, s, start, j, tip)
    ensures TipOk(db, tip)
    ensures s == [] ==> tip == start
  {
  }

  lemma ConnectsJoin(a: seq<Hash>, b: seq<Hash>)
    ensures Connects(a + b) == Connects(a) + Connects(b)
  {
  }

  lemma ConnectsNone(s: seq<Hash>)
    ensures Connects(s[..0]) == []
  {
  }

  lemma ConnectsStep(s: seq<Hash>, i: nat)
    requires i < |s|
    ensures Connects(s[..i + 1]) == Connects(s[..i]) + [ConnectBlock(s[i])]
  {
  }

  lemma UpStep(db: Db, s: seq<Hash>, start: MainTip, j: nat, tip: MainTip)
    requires Synced(db) && Linked(db, s, start) && Up(db, s, start, j, tip) && j < |s| && s[j] in db.infos
    ensures s[j] in db.mainHeaders && ConnectTip(tip, db.mainHeaders[s[j]]).Ok?
    ensures Up(db, s, start, j + 1, ConnectTip(tip, db.mainHeaders[s[j]]).value)
  {
    hide Synced, Linked;
    LinkedAt(db, s, start, j);
    BlockFacts(db, s[j]);
  }

  lemma LinkedAt(db: Db, s: seq<Hash>, start: MainTip, j: nat)
    requires Linked(db, s, start) && j < |s|
    ensures s[j] in db.mainHeaders && db.mainHeaders[s[j]].height == start.NextHeight() + j
    ensures db.mainHeaders[s[j]].prev == if j == 0 then start.Hash() else s[j - 1]
  {
  }

  lemma SyncedTables(db: Db)
    requires Synced(db)
    ensures TablesOk(db)
  {
  }

  lemma PathHasInfos(db: Db, target: Hash, from: nat)
    requires Synced(db) && target in db.infos && target in db.main.height
    ensures forall i :: 0 <= i < |From(db.main, target, from)| ==> From(db.main, target, from)[i] in db.infos
  {
    hide Nth, Valid, Synced, Ascending, TablesOk;
    MainKeys(db);
    SyncedTables(db);
    var s := From(db.main, target, from);
    if from <= db.main.height[target] {
      WalkEntries(db.main, target, db.main.height[target] + 1 - from);
      forall i | 0 <= i < |s| ensures s[i] in db.infos { InfosClosed(db, s[i], target, |s| - 1 - i); }
    }
  }

  /** Where connecting may start. */
  ghost predicate CanConnect(db: Db, start: MainTip, target: Hash) {
    && TipOk(db, start)
    && (target !in db.main.parent ==> start.info.None?)
    && (target in db.main.parent && start.info.Some? ==> IsAncestor(db.main.parent, start.Hash(), target))
  }

  /** The blocks to connect. */
  ghost function Path(db: Db, start: MainTip, target: Hash): seq<Hash> {
    if target in db.main.height then From(db.main, target, start.NextHeight()) else []
  }

  lemma PathFacts(db: Db, start: MainTip, target: Hash)
    requires Synced(db) && CanConnect(db, start, target)
    ensures Linked(db, Path(db, start, target), start)
    ensures Path(db, start, target) == [] ==> start.Hash() == target || (target !in db.main.parent && start.Hash() == ZERO)
    ensures Path(db, start, target) != [] ==> Path(db, start, target)[|Path(db, start, target)| - 1] == target
    ensures target in db.infos ==> forall i :: 0 <= i < |Path(db, start, target)| ==> Path(db, start, target)[i] in db.infos
  {
    hide Synced, Nth, Valid, From, IsAncestor, Linked;
    MainKeys(db);
    if target in db.main.height {
      PathLinked(db, start, target);
      if target in db.infos { PathHasInfos(db, target, start.NextHeight()); }
    } else {
      NothingLinked(db, start);
    }
  }

  lemma NothingLinked(db: Db, start: MainTip)
    ensures Linked(db, [], start)
  {
  }

  /** The rest of the path, as the iterator yields it. */
  lemma PathRest(db: Db, start: MainTip, target: Hash, j: nat, tip: MainTip)
    requires Synced(db) && CanConnect(db, start, target) && target in db.main.height
    requires Up(db, Path(db, start, target), start, j, tip)
    ensures From(db.main, target, tip.NextHeight()) == Path(db, start, target)[j..]
  {
    hide Synced, Nth, Valid, From, IsAncestor;
    MainKeys(db);
    PathLinked(db, start, target);
    FromSuffix(db.main, target, start.NextHeight(), j);
  }

  /** The tip is the target exactly at the end of the path. */
  lemma PathEnds(db: Db, start: MainTip, target: Hash, j: nat, tip: MainTip)
    requires Synced(db) && CanConnect(db, start, target) && Up(db, Path(db, start, target), start, j, tip)
    requires target in db.main.height
    ensures tip.Hash() == target <==> j == |Path(db, start, target)|
  {
    hide Synced, Nth, Valid, From, IsAncestor;
    MainKeys(db);
    PathLinked(db, start, target);
    BlockFacts(db, target);
    if tip.info.Some? { BlockFacts(db, tip.Hash()); }
  }

  /** Connects the blocks above the tip up to the target, a batch at a time. */
  method ConnectTo(db: Db, start: MainTip, target: Hash)
    returns (r: Result<MainTip, SyncError>, events: seq<Event>)
    requires Synced(db) && CanConnect(db, start, target)
    ensures r.Ok? <==> target == ZERO || target in db.infos
    ensures r.Ok? ==> TipOk(db, r.value) && r.value.Hash() == target && events == Connects(Path(db, start, target))
  {
    hide Synced, Nth, Valid, From, IsAncestor, Linked, ConnectTip, CanConnect, Path, Connects, TipOk, Up;
    MainKeys(db);
    CanFacts(db, start, target);
    PathFacts(db, start, target);
    ghost var s := Path(db, start, target);
    ghost var j := 0;
    var ends := map m | m in db.mainHeaders :: db.mainHeaders[m].height;
    EndsMatch(db, target, ends);
    var tip := start;
    events := [];
    ConnectsNone(s);
    UpStart(db, s, start);
    while tip.Hash() != target
      invariant j <= |s| && Up(db, s, start, j, tip) && events == Connects(s[..j])
      decreases |s| - j
    {
      var batch := TakeBatch(db.main, ends, target, tip.NextHeight());
      if batch.Err? {
        UpBound(db, s, start, j, tip);
        return Err(ArchiveFailed(Lookup(batch.error))), events;
      }
      PathRest(db, start, target, j, tip);
      PathEnds(db, start, target, j, tip);
      Slice(s, j, |batch.value|);
      assert batch.value == s[j..j + |batch.value|];
      var next, more := ConnectBatch(db, batch.value, tip, s, start, j);
      if next.Err? { return Err(next.error), events; }
      events := events + more;
      assert s[..j + |batch.value|] == s[..j] + batch.value;
      ConnectsJoin(s[..j], batch.value);
      tip := next.value;
      j := j + |batch.value|;
    }
    if target in db.main.height { PathEnds(db, start, target, j, tip); }
    assert s[..|s|] == s;
    UpBound(db, s, start, j, tip);
    TipReached(db, tip);
    return Ok(tip), events;
  }

  lemma UpStart(db: Db, s: seq<Hash>, start: MainTip)
    requires TipOk(db, start)
    ensures Up(db, s, start, 0, start)
  {
  }

  lemma Slice(s: seq<Hash>, j: nat, n: nat)
    requires j + n <= |s|
    ensures s[j..][..n] == s[j..j + n]
  {
  }

  lemma TipReached(db: Db, tip: MainTip)
    requires TipOk(db, tip)
    ensures tip.Hash() == ZERO || tip.Hash() in db.infos
  {
  }

  lemma CanFacts(db: Db, start: MainTip, target: Hash)
    requires CanConnect(db, start, target)
    ensures TipOk(db, start)
    ensures target !in db.main.height ==> Path(db, start, target) == []
    ensures target !in db.main.parent ==> start.Hash() == ZERO
  {
  }

  lemma EndsMatch(db: Db, target: Hash, ends: Heights)
    requires Synced(db) && ends == map m | m in db.mainHeaders :: db.mainHeaders[m].height
    ensures target in ends <==> target in db.main.parent
    ensures target in ends ==> target in db.main.height && ends[target] == db.main.height[target]
  {
    hide Synced;
    MainKeys(db);
    if target in db.mainHeaders { BlockFacts(db, target); }
  }

  // ----- the whole switch -----

  /** The blocks of the chain of `b` above `common`, oldest first; none for no tip. */
  ghost function Segment(db: Db, b: Hash, common: Option<Hash>): seq<Hash> {
    if b in db.main.height then Above(db.main, b, common) else []
  }

  /** Disconnections newest first, then connections oldest first. */
  ghost function Switch(db: Db, top: Hash, target: Hash, common: Option<Hash>): seq<Event> {
    Disconnects(Reverse(Segment(db, top, common))) + Connects(Segment(db, target, common))
  }

  /** The hash that disconnecting stops at. */
  ghost predicate StopsAt(db: Db, top: Hash, target: Hash, stop: Hash, common: Option<Hash>) {
    && IsCommon(db.main, target, top, common)
    && (common.Some? ==> stop == common.value)
    && (common.None? && top in db.main.height ==> !IsAncestor(db.main.parent, stop, top))
  }

  /** Disconnecting removes the blocks above the common ancestor, and what is
    * left is a point the target can be connected from. */
  lemma DownEnds(db: Db, top: Hash, target: Hash, stop: Hash, common: Option<Hash>, n: nat, tip: MainTip)
    requires Synced(db) && StopsAt(db, top, target, stop, common) && Down(db, top, n, tip)
    requires tip.info.Some? ==> tip.Hash() == stop
    requires forall k :: 0 <= k < n ==> Nth(db.main.parent, top, k) != Some(stop)
    ensures Descending(db.main.parent, top, n) == Reverse(Segment(db, top, common))
    ensures CanConnect(db, tip, target) && Path(db, tip, target) == Segment(db, target, common)
  {
    hide Synced, Nth, Valid, IsAncestor, IsLca, OneGenesis, Descending, Ascending, Reverse;
    MainKeys(db);
    ReverseDescending(db.main.parent, top, n);
    ReverseTwice(Descending(db.main.parent, top, n));
    NotCommon(db.main, top, stop, n);
    if tip.info.Some? {
      BlockFacts(db, stop);
      NthMeansAncestor(db.main.parent, stop, top, n);
      NthStored(db.main, top, n, stop);
      WalkEnds(db.main, top, Some(stop), n, Some(stop));
      LcaParts(db.main, target, top, stop);
    } else {
      WalkEnds(db.main, top, Some(stop), n, None);
      NothingAbove(db, top, target, stop, common, n);
    }
  }

  lemma NotCommon(ix: Index, top: Hash, stop: Hash, n: nat)
    requires Valid(ix) && top in ix.parent && top in ix.height
    requires forall k :: 0 <= k < n ==> Nth(ix.parent, top, k) != Some(stop)
    ensures n > ix.height[top] ==> !IsAncestor(ix.parent, stop, top)
  {
    hide Nth, Valid;
    if n > ix.height[top] && IsAncestor(ix.parent, stop, top) {
      var k: nat :| Nth(ix.parent, top, k) == Some(stop);
      NthStored(ix, top, k, stop);
      assert false;
    }
  }

  lemma LcaParts(ix: Index, a: Hash, b: Hash, c: Hash)
    ensures IsLca(ix.parent, a, b, c) ==> IsAncestor(ix.parent, c, a) && IsAncestor(ix.parent, c, b)
  {
  }

  /** All of the old chain is gone exactly when there is nothing in common. */
  lemma NothingAbove(db: Db, top: Hash, target: Hash, stop: Hash, common: Option<Hash>, n: nat)
    requires Synced(db) && StopsAt(db, top, target, stop, common)
    requires top in db.main.height && n == db.main.height[top] + 1
    requires !IsAncestor(db.main.parent, stop, top)
    ensures common.None?
  {
    hide Synced, IsLca, IsAncestor, OneGenesis;
    if common.Some? { LcaParts(db.main, target, top, stop); }
  }

  /** The common ancestor as it is computed: zero when either side has no tip, and
    * the genesis block of the target when the chains share no block. */
  method StopHash(db: Db, top: Hash, target: Hash) returns (r: Result<Hash, SyncError>, ghost common: Option<Hash>)
    requires Synced(db) && (top == ZERO || top in db.main.parent)
    ensures r.Err? <==> top != ZERO && target != ZERO && target !in db.main.parent
    ensures r.Ok? ==> StopsAt(db, top, target, r.value, common)
    ensures r.Ok? && top in db.main.parent ==> target == ZERO || target in db.main.parent
  {
    hide Synced, Nth, Valid, IsAncestor, IsLca, OneGenesis;
    MainKeys(db);
    common := None;
    if top == ZERO || target == ZERO {
      if top != ZERO { ZeroIsNone(db, top); }
      return Ok(ZERO), None;
    }
    var lca := LastCommonMainAncestor(db.main, target, top);
    if lca.Err? { return Err(ArchiveFailed(Lookup(lca.error))), None; }
    OneGenesisSymmetric(db.main, target, top);
    if OneGenesis(db.main, target, top) {
      common := Some(lca.value);
    } else {
      OtherGenesis(db.main, target, top, lca.value);
    }
    return Ok(lca.value), common;
  }

  lemma OneGenesisSymmetric(ix: Index, a: Hash, b: Hash)
    requires a in ix.height && b in ix.height
    ensures OneGenesis(ix, a, b) <==> OneGenesis(ix, b, a)
  {
  }

  lemma ZeroIsNone(db: Db, top: Hash)
    requires Synced(db) && top in db.main.parent
    ensures !IsAncestor(db.main.parent, ZERO, top)
  {
    hide Synced, Nth;
    MainKeys(db);
    forall n: nat ensures Nth(db.main.parent, top, n) != Some(ZERO) {
      hide Valid;
      if Nth(db.main.parent, top, n) == Some(ZERO) { NthStored(db.main, top, n, ZERO); }
    }
  }

  lemma OtherGenesis(ix: Index, target: Hash, top: Hash, g: Hash)
    requires Valid(ix) && target in ix.parent && top in ix.parent && target in ix.height && top in ix.height
    requires !OneGenesis(ix, target, top) && Nth(ix.parent, target, ix.height[target]) == Some(g)
    ensures !IsAncestor(ix.parent, g, top)
  {
    hide Nth, IsAncestor;
    NthHeight(ix.parent, ix.height, target, ix.height[target]);
    NthZero(ix.parent, g);
    if IsAncestor(ix.parent, g, top) { GenesisOfAncestor(ix.parent, ix.height, top, g); }
  }

  /** The tip record kept beside the archive. */
  class MainchainTips {
    var tip: MainTip

    constructor ()
      ensures tip == MainTip(0, None) && forall db :: TipOk(db, tip)
    {
      tip := MainTip(0, None);
    }

    /** Succeeds exactly for no tip or a tip with stored info, and then emits
      * precisely the blocks on which the two chains differ. */
    method Sync(db: Db, target: Hash)
      returns (r: Result<seq<Event>, SyncError>, ghost common: Option<Hash>)
      requires Synced(db) && TipOk(db, tip)
      modifies this
      ensures TipOk(db, tip)
      ensures r.Ok? <==> target == ZERO || target in db.infos
      ensures r.Err? ==> tip == old(tip)
      ensures r.Ok? ==>
                && tip.Hash() == target
                && IsCommon(db.main, target, old(tip).Hash(), common)
                && r.value == Switch(db, old(tip).Hash(), target, common)
    {
      hide Synced, Nth, Valid, IsAncestor, IsLca, OneGenesis, IsCommon, Above, From, Descending, Down, CanConnect,
        Path, Segment;
      MainKeys(db);
      TipFacts(db, tip);
      var stop;
      stop, common := StopHash(db, tip.Hash(), target);
      if stop.Err? { return Err(stop.error), common; }
      var base, down, n := DisconnectTo(db, tip, stop.value);
      SwitchDown(db, tip, target, stop.value, common, n, base);
      var next, up := ConnectTo(db, base, target);
      if next.Err? { return Err(next.error), common; }
      tip := next.value;
      return Ok(down + up), common;
    }
  }

  lemma TipFacts(db: Db, tip: MainTip)
    requires Synced(db) && TipOk(db, tip)
    ensures tip.info.None? ==> tip.Hash() == ZERO && ZERO !in db.main.height
    ensures tip.info.Some? ==> tip.Hash() in db.main.parent && tip.Hash() in db.main.height && tip.Hash() != ZERO
  {
    hide Synced;
    MainKeys(db);
  }

  lemma SwitchDown(db: Db, start: MainTip, target: Hash, stop: Hash, common: Option<Hash>, n: nat, base: MainTip)
    requires Synced(db) && TipOk(db, start) && TipOk(db, base) && StopsAt(db, start.Hash(), target, stop, common)
    requires base.info.Some? ==> base.Hash() == stop
    requires start.info.None? ==> base == start && n == 0
    requires start.info.Some? ==> Down(db, start.Hash(), n, base)
    requires start.info.Some? ==> forall k :: 0 <= k < n ==> Nth(db.main.parent, start.Hash(), k) != Some(stop)
    ensures IsCommon(db.main, target, start.Hash(), common)
    ensures CanConnect(db, base, target) && Path(db, base, target) == Segment(db, target, common)
    ensures start.info.None? ==> Segment(db, start.Hash(), common) == [] && Reverse<Hash>([]) == []
    ensures start.info.Some? ==>
              Descending(db.main.parent, start.Hash(), n) == Reverse(Segment(db, start.Hash(), common))
  {
    hide Synced, Nth, Valid, IsAncestor, IsLca, OneGenesis, From, Descending, Down;
    TipFacts(db, start);
    if start.info.Some? { DownEnds(db, start.Hash(), target, stop, common, n, base); }
  }

  // ----- what a listener can do with the events -----

  /** Following the events on a copy of the chain: only the last block can be
    * disconnected, and only a child of the last block connected. */
  ghost function Replay(db: Db, chain: seq<Hash>, events: seq<Event>): Option<seq<Hash>>
    decreases |events|
  {
    if events == [] then Some(chain)
    else
      match events[0]
      case DisconnectBlock(b) =>
        if chain != [] && chain[|chain| - 1] == b then Replay(db, chain[..|chain| - 1], events[1..]) else None
      case ConnectBlock(b) =>
        if b in db.main.parent && db.main.parent[b] == (if chain == [] then None else Some(chain[|chain| - 1]))
        then Replay(db, chain + [b], events[1..]) else None
  }

  lemma {:induction false} ReplayConcat(db: Db, chain: seq<Hash>, a: seq<Event>, b: seq<Event>)
    ensures Replay(db, chain, a + b) ==
            match Replay(db, chain, a) case None => None case Some(c) => Replay(db, c, b)
    decreases |a|
  {
    if a == [] {
      assert a + b == b;
    } else {
      assert (a + b)[1..] == a[1..] + b;
      match a[0]
      case DisconnectBlock(x) =>
        if chain != [] { ReplayConcat(db, chain[..|chain| - 1], a[1..], b); }
      case ConnectBlock(x) =>
        ReplayConcat(db, chain + [x], a[1..], b);
    }
  }

  lemma {:induction false} ReplayDown(db: Db, base: seq<Hash>, s: seq<Hash>)
    ensures Replay(db, base + s, Disconnects(Reverse(s))) == Some(base)
    decreases |s|
  {
    if s == [] {
      assert base + s == base;
    } else {
      var n := |s| - 1;
      assert Disconnects(Reverse(s))[1..] == Disconnects(Reverse(s[..n]));
      assert (base + s)[..|base + s| - 1] == base + s[..n];
      ReplayDown(db, base, s[..n]);
    }
  }

  lemma {:induction false} ReplayUp(db: Db, chain: seq<Hash>, s: seq<Hash>)
    requires forall i {:trigger s[i]} :: 0 <= i < |s| ==>
               s[i] in db.main.parent && (i > 0 ==> db.main.parent[s[i]] == Some(s[i - 1]))
    requires s != [] ==> db.main.parent[s[0]] == if chain == [] then None else Some(chain[|chain| - 1])
    ensures Replay(db, chain, Connects(s)) == Some(chain + s)
    decreases |s|
  {
    if s == [] {
      assert chain + s == chain;
    } else {
      assert Connects(s)[1..] == Connects(s[1..]);
      assert chain + [s[0]] + s[1..] == chain + s;
      ReplayUp(db, chain + [s[0]], s[1..]);
    }
  }

  /** The whole chain of a tip, genesis first. */
  ghost function Chain(db: Db, b: Hash): seq<Hash> { Segment(db, b, None) }

  /** A chain is that of its ancestor followed by the blocks above it. */
  lemma ChainSplit(db: Db, b: Hash, common: Option<Hash>)
    requires Synced(db) && (b in db.main.height || b == ZERO)
    requires common.Some? ==> b in db.main.height && IsAncestor(db.main.parent, common.value, b)
    ensures Chain(db, b) == (if common.Some? then Chain(db, common.value) else []) + Segment(db, b, common)
  {
    hide Synced, Nth, Valid, IsAncestor, Ascending;
    MainKeys(db);
    if common.Some? {
      var c := common.value;
      AncestorAt(db.main, c, b);
      AscendingSplit(db.main.parent, b, db.main.height[b] - db.main.height[c], db.main.height[c] + 1);
      AscendingNone(db.main.parent, b);
    }
  }

  /** The blocks above an ancestor follow one another, from that ancestor on. */
  lemma SegmentLinked(db: Db, b: Hash, common: Option<Hash>)
    requires Synced(db)
    requires common.Some? ==> b in db.main.height && IsAncestor(db.main.parent, common.value, b)
    ensures var s := Segment(db, b, common);
            && (forall i {:trigger s[i]} :: 0 <= i < |s| ==>
                  s[i] in db.main.parent && (i > 0 ==> db.main.parent[s[i]] == Some(s[i - 1])))
            && (s != [] ==> db.main.parent[s[0]] == common)
  {
    hide Synced, Nth, Valid, IsAncestor, Ascending;
    MainKeys(db);
    if b in db.main.height {
      if common.Some? { AncestorAt(db.main, common.value, b); }
      var start := if common.Some? then db.main.height[common.value] + 1 else 0;
      var s := From(db.main, b, start);
      if start <= db.main.height[b] {
        WalkEntries(db.main, b, db.main.height[b] + 1 - start);
        forall i {:trigger s[i]} | 0 <= i < |s|
          ensures s[i] in db.main.parent && db.main.parent[s[i]] == if i > 0 then Some(s[i - 1]) else common
        {
          StepUp(db.main, b, |s| - 1 - i, s[i]);
          if i > 0 { assert Nth(db.main.parent, b, |s| - 1 - (i - 1)) == Some(s[i - 1]); }
        }
      }
    }
  }

  lemma ChainLast(db: Db, b: Hash)
    requires Synced(db) && b in db.main.height
    ensures Chain(db, b) != [] && Chain(db, b)[|Chain(db, b)| - 1] == b
  {
    hide Synced;
  }

  /** Whoever follows the events on a copy of the old chain has the new chain. */
  lemma EventsReplay(db: Db, top: Hash, target: Hash, common: Option<Hash>)
    requires Synced(db) && IsCommon(db.main, target, top, common)
    requires (top == ZERO || top in db.main.height) && (target == ZERO || target in db.main.height)
    ensures Replay(db, Chain(db, top), Switch(db, top, target, common)) == Some(Chain(db, target))
  {
    hide Synced, Nth, Valid, IsAncestor, IsLca, OneGenesis, Segment, Chain, Replay, Disconnects, Connects;
    MainKeys(db);
    if common.Some? {
      LcaParts(db.main, target, top, common.value);
      AncestorAt(db.main, common.value, top);
      ChainLast(db, common.value);
    }
    ChainSplit(db, top, common);
    ChainSplit(db, target, common);
    SegmentLinked(db, target, common);
    var base := if common.Some? then Chain(db, common.value) else [];
    var s, t := Segment(db, top, common), Segment(db, target, common);
    ReplayDown(db, base, s);
    ReplayUp(db, base, t);
    ReplayConcat(db, base + s, Disconnects(Reverse(s)), Connects(t));
  }
}
