# BitNames node: archive, state and the drivers on top

BitNames is a Bitcoin sidechain node. It stores a tree of sidechain headers and
a tree of mainchain headers in an *archive*, follows one branch of the sidechain
with a *state* (unspent and spent outputs, name reservations, registered names
with their histories, tip and height), and keeps unconfirmed transactions in a
*memory pool*. This project models those three and the code that moves them
together, and proves what the node relies on between operations.

How to read it:

- **Transactions and blocks.** `Types`, `Filling`, `BitNames` and `Blocks` define
  validation, connection and disconnection as functions of the state.
  `BlockRules` says in terms of a block and the state which blocks are valid,
  `BlockEffect` what an accepted one does to the outputs and `NameViews` to what
  readers see of names. `BatchedConnect` and `BatchedExact` show when the batched
  connection is the sequential one, `DisconnectUndo` and `DisconnectExact` when a
  disconnect undoes a block, `ValidBlocks` why a valid block connects,
  `StateInvariant`, `StateExact`, `Conservation` and `Chains` what holds over whole
  chains, `NameRuns`, `NameHistory` and `NameOutputs` what holds of names over every
  run, `Examples` blocks at the edge of these properties.
  `DoubleSpend`, `Signatures` and `StateDb` are the loops that run on the state,
  each proved to compute the corresponding function.
- **The archive.** `Ancestry` and `BlockIndex` cover parent links, the
  binary-lifting table and last common ancestors; `ArchiveDb`, `BmmTable`,
  `Inclusions`, `ArchiveRuns` and `Invalidation` the tables and what every write
  keeps; `Archive` the object whose methods update them in place;
  `AncestorWalks` the batched iterators.
- **The drivers.** `MainchainSync` moves the stored mainchain tip; `BetterTip`
  and `TipOrder` compare tips, `TipExamples` builds archives at the edge of the
  comparison; `MemPool`, `PoolReturns` and `Producer` keep, take back and choose
  transactions; `ActiveChain`, `Resubmission`, `Node`, `ReorgPath`, `Reorg`,
  `ReorgGoal` and `ReorgRun` connect, disconnect, reorganise and invalidate.
- **Sequence numbers in print.** `SeqId`.

Conventions. A database table is a map. A write transaction works on copies or is
undone by restoring a snapshot, so an error leaves the tables as they were
committed. Hashes computed by a library (block hash, txid, coinbase txid, the
commitment a registration reveals) are fields of the hashed value; the Merkle
root, the address of a key, a single signature check and the size of a body are
function parameters (`Crypto`). Where a hash must identify what it hashes, that is
a precondition (`Allowed`, `OneEach`, `Identified`).

`Fresh`, and with it `Trusted`, is not such a precondition. It says that a block
creates no output that exists or existed, that its reservations are new and that it
registers each name once. Hashing does not make it so: a transaction without inputs
is valid, and can be sent again with the same txid, and nothing keeps a block from
registering one name twice. A result that needs it says so; the exact conditions
for a single block are `DisconnectExact.DisconnectRestoresIff` and
`StateExact.KeepsStateOkIff`. What the node promises about names (density of the
sequence numbers, historical lookups, registered owners) is proved over runs that
need not be fresh.

Heights, sequence numbers and total work are unbounded.

Where the code and its comments disagree, the model follows the code:

- The comment on `better_tip` (lib/archive/mod.rs:1387-1402) says that on one
  mainchain lineage and at equal height the tip with *greater* total work is
  better. The code prefers the *lower* work (lib/archive/mod.rs:1435-1460);
  `TipOrder.SharedLineageOrder` states what the code does.
- A string with an empty segment between two dashes is reported as an invalid
  segment, not as an empty one: the test for an empty segment looks for a leading
  dash, which no segment has (types/bitname_seq_id.rs:73-76).

Properties that do not hold of the code, with their exact conditions:

- Disconnecting an accepted block does not always restore the state:
  `Examples.SameNameTwiceIsNotUndone` gives a block that registers one name twice.
  `DisconnectExact.DisconnectRestoresIff` says exactly which accepted blocks are
  undone. Not all of them create only new outputs:
  `Examples.SentAgainIsUndone`.
- An accepted block does not always keep the state well formed:
  `Examples.SentAgainIsBatchedOtherwise` gives one after which an output is unspent
  and spent. `StateExact.KeepsStateOkIff` says exactly which blocks do.
- Sequence numbers are not always dense: `Examples.SameNameTwiceIsNotUndone` is a
  block that gives one name two numbers. `NameRuns.BlockDenseIff` says exactly
  which accepted blocks keep them dense, `NameRuns.RunDenseIff` exactly when they are
  after a run.
- The batched connection is not always the sequential one:
  `Examples.SentAgainIsBatchedOtherwise` gives a block after which an output is
  unspent and spent at once. `BatchedExact.BatchedEqualsSequentialIff` says exactly
  for which validated blocks the two agree. Spending an output that the block
  created before is harmful in most blocks, but not in all:
  `Examples.SentTwiceIsBatchedAlike`.
- The preference between tips is not transitive: `TipExamples.CircleExists` and
  `TipExamples.CircleOfHeightsExists` give three verified tips, of one height and of
  three, that beat one another in a circle. `TipOrder.CircleIff` says exactly when
  three tips of one height and different work do, `TipOrder.CircleByHeight` exactly
  when three tips of different heights do. Every circle needs a fork of the
  mainchain (`TipOrder.CircleNeedsFork`). For three tips of which exactly two have
  one height, and for tips of one height of which two have equal work, that is the
  only condition stated.
- A reorg to a tip on the chain of the node is not always harmless. Such a verified
  target is refused exactly unless it is above the genesis block and has more total
  work than every verification of the current tip (`TipOrder.BelowTipIff`,
  `ReorgRun.ReorgToTip`). If it is not refused, the blocks to apply run from genesis
  (`ReorgPath.AncestorPathFails`): the node ends with an error, its state, tip and
  pool as they were, and, unless the pool or a lookup failed before, without the
  body of its first block.
  `TipExamples.TargetBelowTip` gives such a target.
- Reading and printing a sequence number gives the string back if and only if it
  has no leading group of zeros and its number fits in 32 bits
  (`SeqId.ParseThenPrint`).

## Model

| member | source | states |
|---|---|---|
| Filling.FillFromFacts | types/transaction/mod.rs:873-900 | filling outputs succeeds exactly when there are enough names and reservations to hand out; it keeps each output's position, address, memo, kind and value, bitcoin and withdrawals unchanged, and hands names and reservations out in order, each at most once |
| Filling.FirstClaimFacts | types/transaction/mod.rs:833-869 | a registration burns a spent reservation with the implied commitment exactly when there is one; what is left is one entry shorter, holds nothing new and nothing of the burned reservation |
| Filling.DropsFirst | types/transaction/mod.rs:833-869 | burning takes out the first spent reservation of the implied commitment and leaves the others in their order |
| BitNames.RevertRecordUndoesApply | lib/state/bitnames.rs:156-239 | reverting an update restores every field history of a record |
| BitNames.ViewAfterUpdate | lib/state/bitnames.rs:90-154 | after an update readers see each of the six fields as its own part of the update leaves it: none if it deletes, the new value if it sets, the old one if it retains; the sequence number stays |
| BitNames.ViewOfNew | lib/state/bitnames.rs:47-87 | readers see a new name with exactly the data of its registration |
| BitNames.UpdateKeepsPast | lib/state/bitnames.rs:241-264 | an update at some height does not change what a lookup at a lower height returns |
| BitNames.LastSeqDense | lib/state/bitnames.rs:328-347 | with sequence numbers 0..n-1 in use, the last is n-1 and the next is n |
| BitNames.RegistrationKeepsDense | lib/state/bitnames.rs:500-542 | a registration keeps the sequence numbers dense and the two tables exact inverses |
| BitNames.ApplyDataKeepsDense | lib/state/block.rs:323-358 | so does every kind of transaction data, if a name that it registers is new |
| BitNames.ApplyDataEffect | lib/state/block.rs:323-358 | which names and reservations a transaction adds or removes, which sequence number a registration takes, and that every other record, reservation and sequence number keeps its value; what the changed record shows is `NameViews.ViewAfterOne` |
| BitNames.RevertRegistrationUndoesApply | lib/state/bitnames.rs:544-588 | reverting a registration restores records, reservations and sequence numbers; its check that the last sequence number belongs to the name does not fail |
| BitNames.RevertDataUndoesApply | lib/state/block.rs:549-583 | reverting any transaction data restores all three tables exactly |
| BatchedConnect.StepAgrees | lib/state/block.rs:285-358 | accumulating one transaction is connecting it to the ledger that the batch stands for |
| BatchedConnect.BatchedEqualsSequential | lib/state/block.rs:244-377 | for every validated block in which no transaction spends an output created earlier in it, the batched connection gives the same state, or the same rejection, as connecting one transaction at a time |
| BatchedExact.BatchedEqualsSequentialIff | lib/state/block.rs:361-369 | for every validated block that the batch connects, on any state, the two agree if and only if each output that is spent after being created in the block was unspent before it, is made the same, and is created again by its spender or later |
| BatchedExact.ValidatedAgreeIff | lib/state/block.rs:244-377 | for every validated block, connected or rejected, where unspent reservations agree with their table and unspent names are registered, the two give the same result if and only if the coinbase is refused or that condition holds |
| ValidBlocks.FillsExactly | types/transaction/mod.rs:873-900 | a valid transaction hands out all its names and reservations, each once, in order |
| ValidBlocks.ValidBlockConnects | lib/state/block.rs:381-397 | where unspent reservations agree with their table and unspent names are registered, a block is accepted exactly when it is valid and its coinbase makes only bitcoin outputs and withdrawals |
| BlockRules.ValidateIff | lib/state/mod.rs:413-569 | a filled transaction is accepted exactly when its inputs are unspent and none is a withdrawal, the numbers of reservations and of names in inputs and outputs differ by exactly what it reserves or registers, a registered name is new and an input holds a reservation of it, an update spends a name, and the inputs cover the outputs without overflow; the fee is the difference |
| BlockRules.DistinctIff | lib/state/block.rs:161-177 | the flat list of inputs has no repetition exactly when no two inputs of the block, of one transaction or of two, are the same |
| BlockRules.SignedIff | lib/state/block.rs:203-230 | the checks of the flat lists pass exactly when input i of transaction n is signed for by the authorization that follows those of all earlier inputs, made with the key that the spent output is addressed to, and there are no other authorizations |
| BlockRules.PrevalidateIff | lib/state/block.rs:127-240 | validation accepts a block exactly when it is at most 8388608 bytes large, its parent is the tip, every transaction is valid, no input occurs twice, the fees do not overflow and cover the coinbase, the root is that of the transactions with the outputs they spend, and every input is signed for by its owner; it returns those transactions and sums |
| BlockRules.AcceptedIsValid | lib/state/block.rs:381-397 | every accepted block is valid in that sense, on any state: it spends only what its signers own, and no withdrawal |
| BlockRules.AcceptedIffValid | lib/state/block.rs:381-397 | where unspent reservations agree with their table and unspent names are registered, exactly those blocks are accepted whose coinbase makes only bitcoin outputs and withdrawals |
| BlockEffect.AppliedOutputs | lib/state/block.rs:244-377 | after an accepted block every output that it creates is unspent as the last transaction creating it, or else its coinbase, makes it; of all others exactly those are unspent that were and that it does not spend, unchanged; every input has a spent row with the output and its place, every other row is as before; tip and height are the block's |
| Examples.SentAgainIsBatchedOtherwise | lib/state/block.rs:361-369 | a block on a chain from the empty state that sends a transaction without inputs again and spends its output: the batched connection leaves the output both spent and unspent, unlike the sequential one, and the state is no longer well formed |
| Examples.SentTwiceIsBatchedAlike | lib/state/block.rs:361-369 | a block that spends an output created earlier in it for which the two connections agree |
| DisconnectUndo.UndoConnectTx | lib/state/block.rs:546-617 | undoing one connected transaction restores outputs and name tables |
| DisconnectUndo.DisconnectUndoesConnect | lib/state/block.rs:527-657 | disconnecting an accepted block restores the whole state, with no assertion failing, if the block creates each outpoint once, creates none that is unspent without spending it first, records no reservation that is there without burning it first, and registers each name once |
| DisconnectExact.DisconnectRestoresIff | lib/state/block.rs:527-657 | every accepted block is undone if and only if it creates no outpoint twice, its coinbase outputs are not unspent already, every other outpoint that it creates and that was unspent is spent by a transaction up to the one creating it, every reservation that was there is burned by an earlier transaction, and each name is registered once |
| Examples.SameNameTwiceIsNotUndone | lib/state/mod.rs:448-500 | validation reads names from before the block, so on a chain from the empty state it accepts a block with one name twice; the name gets two sequence numbers and the block is not undone |
| Examples.SentAgainIsUndone | lib/state/block.rs:527-657 | a block that spends an output and then sends the transaction without inputs that made it again is undone, though it creates an outpoint that was unspent |
| StateInvariant.ConnectTxKeepsReservations | lib/state/block.rs:442-510 | unspent reservation outputs keep agreeing with the reservations table |
| StateInvariant.ApplyKeepsStateOk | lib/state/block.rs:381-397 | every accepted fresh block keeps spent and unspent outputs apart, reservations in agreement and sequence numbers dense and one-to-one |
| StateExact.KeepsStateOkIff | lib/state/block.rs:244-377 | every accepted block whose txids identify its transactions keeps the state well formed if and only if it creates no output that was spent before or that it spends, registers each name once, and, if it makes a reservation that an unspent output holds, burns that one first and makes it after, or creates that very output again |
| Conservation.ApplyConservesValue | lib/state/block.rs:149-189 | the total value of unspent outputs never grows, and with new outpoints drops by exactly the fees the coinbase left unclaimed |
| Chains.DisconnectFold | lib/state/block.rs:527-657 | on a chain of fresh blocks, disconnecting the last block gives the state of the chain without it |
| Chains.DisconnectFoldIff | lib/state/block.rs:527-657 | for any chain that ends after a well-formed state, it does so if and only if the last block is reversible there |
| Chains.RunIsFold | lib/state/block.rs:381-397 | after any run of connects and disconnects in which every offered block is fresh, the state is the fold of the active chain, and well formed |
| NameHistory.HistoryIsSnapshot | lib/state/rollback.rs:96-105 | for every accepted chain from a state without height and names, whatever its blocks: a lookup at height h equals the current lookup as it was right after block h; nothing below the registration |
| NameHistory.RunHistoryIsSnapshot | lib/state/rollback.rs:96-105 | after every run of connects and disconnects, whatever its blocks, a lookup at the height of a block of the active chain equals the current lookup as it was right after the last connection of that block |
| NameHistory.ApplyKeepsPast | lib/state/bitnames.rs:241-264 | no accepted block changes a lookup below its height |
| NameViews.UpdatedNameIs | lib/state/bitnames.rs:442-469 | the name that an update changes is the one held by the last of its inputs that hold a name |
| NameViews.UpdatedIsLastOutput | lib/state/bitnames.rs:442-469 | in a valid update it is also the name that goes to the last of the outputs that are given one |
| NameViews.ViewAfterOne | lib/state/block.rs:323-358 | what readers see of any name after one transaction: the data of its registration, which takes the next sequence number; the updated fields, if the transaction updates it; otherwise what they saw before |
| NameViews.BlockViews | lib/state/block.rs:381-397 | after an accepted block readers see of every name what the transactions in their order make of what they saw before; a name from before the block keeps its sequence number |
| NameRuns.RunKeepsNames | lib/state/block.rs:527-657 | in every run, whatever its blocks, a disconnect that succeeds restores records and sequence numbers exactly: they are those right after the tip was connected |
| NameRuns.LinkMeaning | lib/state/block.rs:381-397 | the recorded connection of a block of the active chain is the last step that connected it, with the states before and after that step |
| NameRuns.BlockDenseIff | lib/state/bitnames.rs:500-542 | an accepted block keeps the sequence numbers dense and one-to-one with the names if and only if it registers each name once |
| NameRuns.RunDenseIff | lib/state/bitnames.rs:500-588 | after every run, with disconnects that succeed or fail, they are dense and one-to-one if and only if every block of the active chain registers each of its names once |
| NameRuns.DisconnectNameErrors | lib/state/bitnames.rs:544-588 | in every run the test that the last sequence number belongs to the name, and every other assertion on names, holds when the tip is disconnected; it fails there only for a missing reservation, or for a name that the tip registers twice |
| NameOutputs.ApplyKeepsListed | types/transaction/mod.rs:873-900 | every accepted block keeps each unspent name output naming a registered record |
| NameOutputs.RunKeepsOutputs | lib/state/block.rs:599-616 | after every run the unspent outputs are among those right after the tip was connected: a disconnect brings nothing back that was not there |
| NameOutputs.RunKeepsListed | lib/state/block.rs:527-657 | after every run each unspent name output names a registered record |
| NameOutputs.RunNamesOneToOne | types/transaction/mod.rs:873-900 | over runs of fresh blocks, registered names and unspent name outputs are one-to-one |
| DoubleSpend.HasRepeat | lib/state/block.rs:161-177 | sorting the keys and comparing neighbours finds a repeated input exactly when two inputs are equal |
| Signatures.VerifyChunks | types/authorization.rs:315-328 | checking in chunks of 2^14 accepts exactly when every pair verifies; no chunk is empty |
| Signatures.VerifyAuthorizations | types/authorization.rs:284-329 | accepts exactly when there is one authorization per input and the k-th signs the transaction of the k-th input |
| Signatures.VerifyAuthorizedTransaction | types/authorization.rs:250-282 | accepts exactly when every input has a valid signature of the transaction; a transaction without inputs passes |
| Signatures.NewBody | types/lib.rs:683-704 | the transactions in order, and their authorizations in one flat list |
| Signatures.AuthorizedTransactions | types/lib.rs:709-725 | each transaction with exactly its own authorizations: as many as it has inputs, after those of all earlier inputs |
| Signatures.RoundTrip | types/lib.rs:683-725 | building a body and taking it apart gives the transactions back if and only if each had one authorization per input |
| Signatures.SignedBody | types/authorization.rs:284-329 | a body passes the flat check if and only if each of its transactions passes its own |
| StateDb.CheckedSum | lib/state/block.rs:149-154 | adding with overflow checks fails exactly when the total overflows |
| StateDb.GetFee | types/transaction/mod.rs:767-799 | inputs minus outputs, or the overflow or underfunding error |
| StateDb.ValidateFilledTransaction | lib/state/mod.rs:550-569 | reservations balance, names balance, no withdrawal spent; then the fee |
| StateDb.TotalFees | lib/state/block.rs:179-186 | the loop over transactions computes the checked sum of fees or the first error |
| StateDb.FillTransaction | lib/state/mod.rs:319-336 | the spent outputs in order, or an error at a missing one |
| StateDb.FillFromStxos | lib/state/mod.rs:339-366 | the outputs read back from the spent rows, last input first, with the position check |
| StateDb.PrevalidateBlock | lib/state/block.rs:127-240 | the checks in their order, each with its error, computing the specified result; it accepts exactly the valid blocks |
| StateDb.SpendInputs | lib/state/block.rs:445-461 | moves all inputs to the spent rows, or fails exactly on a repeated input |
| StateDb.ConnectTransaction | lib/state/block.rs:442-510 | one transaction connected in place computes the specified ledger |
| StateDb.AccumulateTransaction | lib/state/block.rs:285-358 | one transaction accumulated into the batch computes the specified batch |
| StateDb.Unspend | lib/state/block.rs:599-616 | moves the spent rows back last to first, or fails exactly on a repeated or missing one |
| StateDb.UndoTransactions | lib/state/block.rs:544-618 | undoes the transactions last to first and returns them in block order |
| StateDb.ChainState.Connect | lib/state/block.rs:399-525 | the new state is the specified one; on any error nothing changed |
| StateDb.ChainState.ConnectPrevalidated | lib/state/block.rs:244-377 | the collected deletes and puts, applied at the end, give the specified state |
| StateDb.ChainState.Apply | lib/state/block.rs:381-397 | validation and batched connection together: the specified state, or the error and nothing changed; a block that it applies is valid |
| StateDb.ChainState.Disconnect | lib/state/block.rs:527-657 | the new state is the specified one; on any error nothing changed |
| BlockIndex.NthAncestor | lib/archive/mod.rs:441-473 | the n-fold parent, in as many jumps as n has ones; an error exactly for a missing block or n above the height |
| BlockIndex.IsDescendant | lib/archive/mod.rs:531-556 | decides the reflexive-transitive parent relation on stored blocks |
| BlockIndex.LastCommonAncestor | lib/archive/mod.rs:1246-1306 | none exactly when the genesis blocks differ, else the unique highest common ancestor |
| BlockIndex.LastCommonMainAncestor | lib/archive/mod.rs:1308-1355 | the last common ancestor on one genesis; otherwise the genesis block of the first argument |
| BlockIndex.SharedLineage | lib/archive/mod.rs:1357-1385 | whether one block is an ancestor of the other |
| BlockIndex.InsertValid | lib/archive/mod.rs:882-904 | inserting a block keeps heights, jump table and successors exact |
| BlockIndex.InsertBlock | lib/archive/mod.rs:850-904 | the loop that builds the jump table stores exactly the 2^(i+1)-th parents, floor(log2(height)) of them |
| BlockIndex.IndexDetermined | lib/archive/mod.rs:850-904 | heights, jump table and successors are determined by the parent links |
| BmmTable.PutHeaderKeepsBmm | lib/archive/mod.rs:905-971 | storing a header keeps a row Verified exactly when the recursive definition says so |
| BmmTable.PutInfoKeepsBmm | lib/archive/mod.rs:977-1029 | so does storing the info of a mainchain block |
| BmmTable.PutMainHeaderKeepsBmm | lib/archive/mod.rs:1031-1113 | so does storing a mainchain header |
| BmmTable.ChainToGenesis | lib/archive/mod.rs:905-971 | every validly committed block has a chain of commitments to its genesis at strictly lower mainchain heights |
| BmmTable.ArrivalOrderIrrelevant | lib/archive/mod.rs:905-1029 | what is Verified depends only on the stored headers and infos, not on their order of arrival |
| Inclusions.PutKeepsInclusions | lib/archive/mod.rs:654-671 | storing a body keeps the inclusion index exact |
| Inclusions.DeleteKeepsInclusions | lib/archive/mod.rs:744-761 | deleting a body keeps it exact, with no empty rows |
| Inclusions.InclusionsDetermined | lib/archive/mod.rs:654-671 | the inclusion index is determined by the stored bodies |
| ArchiveRuns.ApplyKeepsArchive | lib/archive/mod.rs:654-1113 | every write keeps parents stored, heights and successors exact, the results table right, total work summed and the inclusion index exact |
| ArchiveRuns.RunKeepsArchive | lib/archive/mod.rs:654-1113 | so does every run of writes from the empty archive |
| ArchiveRuns.InvalidateRemovesSubtree | lib/archive/mod.rs:785-842 | exactly the block and its descendants go and are marked; the rest keeps headers, heights and ancestry |
| Invalidation.RemoveSubtree | lib/archive/mod.rs:785-842 | the stack loop terminates and removes exactly the subtree from every table |
| Archives.Archive.constructor | lib/archive/mod.rs:112-203 | an empty archive is exact |
| Archives.Archive.StoreHeader | lib/archive/mod.rs:844-973 | stores header, index and rows as specified, or fails and changes nothing |
| Archives.Archive.PutMainHeaderInfo | lib/archive/mod.rs:1031-1113 | stores a mainchain header with its index and total work, or fails and changes nothing |
| Archives.Archive.PutMainInfo | lib/archive/mod.rs:977-1029 | stores a commitment and decides its row, or fails and changes nothing |
| Archives.Archive.CommittedInAncestry | lib/archive/mod.rs:943-957 | whether the parent block is Verified at some ancestor of a mainchain block |
| Archives.Archive.StoreBody | lib/archive/mod.rs:654-671 | stores a body and lists each transaction at its position |
| Archives.Archive.DropBody | lib/archive/mod.rs:744-761 | removes a body and exactly its entries |
| Archives.Archive.InvalidateBlock | lib/archive/mod.rs:785-842 | the tables become those without the subtree |
| AncestorWalks.AncestorsRev.Next | lib/archive/iter.rs:94-144 | yields the next block of what remains, refilling its buffer with a batch; an error for an unknown block |
| AncestorWalks.AncestorsFrom | lib/archive/iter.rs:53-248 | run to its end, each reverse iterator yields exactly the ancestors at the start height and above, ascending, each once |
| AncestorWalks.FetchBatch | lib/archive/iter.rs:110-140 | a batch located by the jump table is the front of what remains, and the next start continues it |
| AncestorWalks.GetMissingBodies | lib/archive/mod.rs:1143-1165 | the parent walk lists the blocks above an ancestor without a body, oldest first |
| AncestorWalks.IterMissingBodies | lib/archive/mod.rs:1167-1183 | the iterator from height(a)+1 lists the same blocks in the same order |
| MainchainSync.DisconnectTo | lib/node/mainchain_task.rs:296-318 | disconnects each block above the stop, newest first, or the whole chain; no lookup or check fails |
| MainchainSync.TakeBatch | lib/node/mainchain_task.rs:331-344 | the first 32 of the blocks from a height on |
| MainchainSync.ConnectTo | lib/node/mainchain_task.rs:329-406 | connects exactly the blocks up to the target, oldest first, across batches; fails exactly when the target has no stored info |
| MainchainSync.MainchainTips.Sync | lib/node/mainchain_task.rs:267-415 | succeeds exactly for no tip or a tip with stored info; emits disconnects down to the last common ancestor, then connects up, each block once; the stored tip keeps the total work of its chain; an error changes nothing |
| MainchainSync.UpStep | lib/archive/side_tips/mod.rs:258-293 | the parent and height checks pass and the total work stays right when the next block of the path is connected |
| MainchainSync.DownStep | lib/archive/side_tips/mod.rs:295-359 | so they do when the tip is disconnected |
| MainchainSync.EventsReplay | lib/node/mainchain_task.rs:408-415 | following the events on a copy of the old chain gives the new chain |
| BetterTip.LastBelowMeaning | lib/archive/mod.rs:1469-1484 | the scan finds the newest ancestor that was built strictly below the common mainchain ancestor |
| BetterTip.FindBelow | lib/archive/mod.rs:1469-1484 | the loop over ancestors computes it, and fails exactly when it meets an ancestor built on a mainchain block that is not stored before it finds one |
| BetterTip.OutranksIff | lib/archive/mod.rs:1403-1620 | the order of tips by their blocks: more height wins, unless the lower tip has more work and the higher one had no ancestor that high built below the fork of the mainchains; at equal heights less work wins on one mainchain and more work otherwise; at equal heights and works the tip with the higher ancestor built below the fork, then the one whose highest such ancestor was built where less work had been done |
| BetterTip.StoredAnswers | lib/archive/mod.rs:1403-1620 | for stored tips the comparison answers when heights and works decide, or when all ancestors were built on stored mainchain blocks |
| BetterTip.Compare | lib/archive/mod.rs:1403-1620 | for stored tips an answer is none exactly for equal tips or two of height 0, and otherwise the second tip exactly when it ranks above the first in the order of `OutranksIff`, else the first; a block above genesis beats a genesis block whatever their mainchain blocks; it answers exactly when the heights, the works if no height is 0, and what the scans that it needs look up are stored |
| TipOrder.OrderOfArguments | lib/archive/mod.rs:1403-1620 | never are both tips better; outside ties both argument orders give one answer, in a tie of different tips the first argument wins |
| TipOrder.ExtensionIsBetter | lib/archive/mod.rs:1425-1434 | a tip built on another and committed to later on the same mainchain is better |
| TipOrder.SharedLineageOrder | lib/archive/mod.rs:1425-1490 | on one mainchain lineage the greater height wins, and at equal height the lower work, unless the tip is committed to by a mainchain genesis block |
| TipOrder.LineageOrder | lib/archive/mod.rs:1403-1620 | of two validly committed tips on one mainchain lineage, of any heights, the better one is exactly the higher one or, at one positive height, the one committed to first |
| TipOrder.LineageTransitive | lib/archive/mod.rs:1403-1620 | for tips pairwise on one lineage the preference is transitive, and decides between any two of positive height |
| TipOrder.BelowTipIff | lib/archive/mod.rs:1403-1620 | a validly committed tip at or below the current one is picked exactly when it is above genesis and its mainchain block has more total work |
| TipOrder.SoonerByHeight | lib/archive/mod.rs:1521-1618 | where every mainchain header adds work, the last rule prefers, between highest ancestors at one height below the fork, the one built on the lower mainchain block |
| TipOrder.CircleIff | lib/archive/mod.rs:1435-1460 | three tips of one height and different work beat one another in a circle exactly when the least and greatest in work share a lineage and the third shares one with neither |
| TipOrder.CircleNeedsFork | lib/archive/mod.rs:1403-1620 | a circle of validly committed tips of positive heights needs two that are on no common mainchain lineage |
| TipOrder.CircleByHeight | lib/archive/mod.rs:1461-1620 | three tips of different heights beat one another in a circle, in either direction, exactly under conditions on their works and on how high their chains were below the forks |
| TipExamples.CircleExists | lib/archive/mod.rs:1435-1460 | such a circle of verified tips exists in an archive reached by a run of writes |
| TipExamples.CircleOfHeightsExists | lib/archive/mod.rs:1461-1620 | so does one of verified tips of heights 3, 2 and 1 |
| TipExamples.TargetBelowTip | lib/node/net_task.rs:227-378 | a consistent node in such an archive, and a verified target on its chain, one below its tip, with more work than every verification of the tip |
| TipExamples.TargetAboveTip | lib/node/net_task.rs:227-422 | a consistent node with a tip in such an archive, and a target that it is sure to reach |
| MemPool.Pool.Put | lib/mempool.rs:110-125 | stores the transaction exactly when its inputs are distinct and unspent in the pool; otherwise nothing changes |
| MemPool.Pool.Delete | lib/mempool.rs:127-147 | terminates and removes exactly the transaction, if stored, and every stored transaction that depends on it; the index stays exact |
| MemPool.CascadeUnique | lib/mempool.rs:127-147 | the set to remove is unique, and empty for a transaction that is not stored |
| MemPool.CascadeMore | lib/mempool.rs:127-147 | several deletions remove the least closed set of all of them |
| MemPool.CascadesCompose | lib/mempool.rs:127-147 | so do deletions of several sets, one after the other |
| MemPool.ExactDetermined | lib/mempool.rs:110-125 | the spent index is determined by the stored transactions |
| MemPool.DeleteUndoesPut | lib/mempool.rs:110-147 | deleting right after storing restores the pool if and only if no stored transaction spends the new one |
| MemPool.Take | lib/mempool.rs:149-161 | the first transactions in order of txid |
| Producer.ValidateTransaction | lib/state/mod.rs:571-610 | count, addresses, signatures and the filled checks in their order; then the fee; it accepts exactly valid transactions that the owners of their inputs sign |
| Producer.ValidateIs | lib/state/mod.rs:571-610 | a transaction is acceptable exactly when it is valid and every input has its own authorization, made with the key of the spent output; the fee is what the inputs hold beyond the outputs |
| Producer.GetTransactions | lib/node/mod.rs:581-642 | takes the first transactions in order of txid, all of them if there are fewer than asked for; chooses exactly the valid ones of those, with the exact sum of fees; the others and their dependents leave the pool; fails exactly on overflow of the fees, and then nothing changed |
| Producer.NoDoubleSpend | lib/node/mod.rs:593-599 | no chosen transaction shares an input with an earlier one, so the double-spend branch is never taken |
| Producer.FlatPairing | lib/state/block.rs:203-230 | in the flat lists the k-th authorization belongs to the owner of the k-th spent output |
| Producer.TemplateIsValid | app/app.rs:643-679 | the block from a template passes every check of validation except, when too large, the one of its size |
| Producer.MakeBody | app/app.rs:643-679 | the body built from the pool is valid under any header with its root on the current tip, unless it is too large, and then it connects to a well-formed state; it is clean exactly when all that it creates is new and it registers each name once |
| Producer.TemplateIsClean | lib/node/mod.rs:581-642 | the transactions of a template differ, so its block creates no outpoint twice; whether two of them register one name is not checked |
| ActiveChain.FollowsDown | lib/node/net_task.rs:118-215 | disconnecting the tip of a state that is the fold of its chain succeeds and gives the fold of the parent chain |
| ActiveChain.FollowsUp | lib/node/net_task.rs:88-116 | connecting the next stored block gives the fold of its chain, or the chain of that block is invalid |
| Resubmission.HeaderAgain | lib/archive/mod.rs:844-973 | storing a stored header again changes no table but rows of results, and not which are Verified |
| Resubmission.StoresAgain | lib/archive/mod.rs:844-973 | a stored header can be stored again exactly when the mainchain block that it builds on is stored, or is the one before genesis, and the contents of all stored mainchain blocks above that are known |
| Resubmission.BodyAgain | lib/archive/mod.rs:654-671 | storing a stored body again changes nothing |
| Nodes.Node.ConnectTip | lib/node/net_task.rs:88-116 | it succeeds exactly when the block applies and its header can be stored again; then the state is what applying the block makes of it, and the block's transactions and their dependents have left the pool; the archive stays the same; a state error exactly when the block is invalid |
| Nodes.Node.ReturnToPool | lib/node/net_task.rs:212-214 | puts all transactions back, with the authorizations given, if and only if no two inputs among them are the same and none is spent in the pool; every other entry stays |
| PoolReturns.PutBackTook | lib/node/net_task.rs:212-214 | after transactions have been put back, each is stored as it was given and every other entry has its old value |
| PoolReturns.OneEntryEach | types/lib.rs:709-725 | among transactions of blocks that spend no output twice, those with one txid carry the same authorizations |
| Nodes.Node.ReturnBody | lib/node/net_task.rs:212-214 | each transaction of a stored body is in the pool with exactly its own authorizations, those after the ones of all earlier inputs; every other entry has its old value |
| Nodes.Node.DisconnectTip | lib/node/net_task.rs:118-215 | the state follows the chain of the parent; each of the block's transactions is in the pool again with exactly its own authorizations, and every other entry has its old value; only the pool can refuse, exactly when inputs of the block repeat or are spent in it |
| ReorgPath.BestMain | lib/archive/mod.rs:411-439 | a verification of greatest total work, or none exactly when there is none |
| ReorgPath.PathContinues | lib/node/net_task.rs:260-294 | for a target that is not its own common ancestor, the blocks to apply continue the chain of the common ancestor |
| ReorgPath.AncestorPathFails | lib/node/net_task.rs:260-294 | for a target that is the tip or an ancestor of it they start at genesis, which no state with a tip accepts |
| Reorgs.CollectBlocks | lib/node/net_task.rs:269-294 | the headers and bodies of exactly those blocks, newest first; an error exactly when the target or one of them is not stored, before anything is disconnected |
| Reorgs.DisconnectBlocks | lib/node/net_task.rs:295-322 | after k disconnects the tip is the k-th ancestor, the state its fold, and the transactions of the k blocks are in the pool, each with its own authorizations, beside what was there; fails exactly when the pool cannot take them all |
| Reorgs.Decide | lib/node/net_task.rs:385-397 | whether to commit: without an old tip always, otherwise when the comparison picks the block with its best verification; it fails when there is none or the comparison does not answer |
| Reorgs.ApplyNext | lib/node/net_task.rs:344-399 | one block connected. It succeeds if the block is valid on its chain, the contents of the mainchain blocks that may commit to it are known, it has a verification and the comparison answers for every best one; and only if it answers for some. It commits exactly when there was no old tip or the comparison picks the block with its best verification; a first block on a tip is a state error |
| Reorgs.ApplyPath | lib/node/net_task.rs:344-399 | succeeds if no block of the path is invalid or lacks what connecting and comparing it looks up, and only then up to the choice among best verifications; the tip is then the last block, and the transactions of the path and their dependents have left the pool. Otherwise it falls back to the last block that was committed, after which none was better; an invalid block loses its body and nothing else changes |
| ReorgGoal.PathMembers | lib/node/net_task.rs:260-294 | the blocks to apply are exactly the ancestors of the target that are not ancestors of the tip |
| ReorgGoal.TopIsOff | lib/node/net_task.rs:295-322 | the blocks to disconnect are exactly those of the tip that are not ancestors of the target |
| ReorgGoal.PathSure | lib/node/net_task.rs:344-399 | a valid chain whose new blocks have what is looked up lets the whole path be connected |
| ReorgGoal.PathMay | lib/node/net_task.rs:344-399 | and the path can be connected only so |
| ReorgGoal.NoTies | lib/archive/mod.rs:411-439 | where no two verifications of the tip, or of a new block, tie for the greatest work, what may win is sure to win |
| ReorgRun.ReorgToTip | lib/node/net_task.rs:227-422 | for a target off the chain of the node, Ok(true) if its chain is stored and valid, the header of every new block can be stored again and is verified, the pool can take the transactions of the blocks to disconnect, and the comparison answers and picks the target over the current tip and answers on every new block, whichever best verifications are taken; and only if so for some of them. Then the tip is the target, the state the fold of its chain, the archive the same, and the pool holds its old entries and the returned transactions with their authorizations, less the confirmed ones and their dependents. Ok(false): nothing changed, the comparison did not pick the target. Error: the old node or a prefix of the new chain whose tip was preferred, minus the body of an invalid block. A target on the chain of the node is never reached; a verified one gives Ok(false) exactly unless it is above genesis and has more work than every verification of the tip, and then an error that costs at most the body of the first block; both assertions hold |
| ReorgRun.RunReorgs | lib/node/net_task.rs:227-422 | in every run of reorgs, whatever fails, the node stays consistent up to the first target on its own chain that it tries to apply; there exactly the body of its first block is lost |
| ReorgRun.PathIndependence | lib/node/net_task.rs:227-422 | two nodes at one tip have one state, whatever led there |
| ReorgRun.InvalidateBlock | lib/node/mod.rs:204-232 | the block and its descendants are gone, the tip is the parent of the block if that was on the active chain, the state follows it, and the transactions of the disconnected blocks are in the pool, each with its own authorizations, beside what was there; it fails, changing nothing, exactly when the pool cannot take them |
| SeqId.Parse | types/bitname_seq_id.rs:68-147 | accepts exactly two or three groups of four digits whose leading group times 10^8 fits in 32 bits, and returns the encoded number |
| SeqId.DisplayShape | types/bitname_seq_id.rs:29-66 | printing gives two groups, or three for numbers from 10^8 on, that encode the number |
| SeqId.PrintedDigits | types/bitname_seq_id.rs:29-66 | each printed digit: of the number plus 23071990, taken within eight digits, the 5th, 4th, 2nd and 7th digit, then the 3rd, 8th, 1st and 6th, behind the hundred millions as four digits if there are any |
| SeqId.PrintThenParse | types/bitname_seq_id.rs:29-147 | reading what was printed gives the number back, for every 32-bit number |
| SeqId.ParseThenPrint | types/bitname_seq_id.rs:29-147 | printing what was read gives the string back if and only if the number fits in 32 bits and there is no leading group of zeros |

## Left out

- Two-way peg data (deposits and withdrawal bundles) is taken as empty, in the state and in reorgs.
- Nodes.Node.DisconnectTip: does not model the lookups of mainchain block infos for the peg data, which can fail fatally; that only the pool can refuse holds without them.
- ReorgRun.ReorgToTip: does not model those lookups either, when disconnecting or when applying blocks; a failure there is a fatal error like the others.
- TipOrder.CircleIff: covers tips of one height and different work only.
- TipOrder.CircleByHeight: covers three different heights only.
- The list of sidechain tips (lib/archive/side_tips) is not modelled; only the stored mainchain tip and its total work are.
- BatchIcann transactions: every validation rejects them, so they are not part of the transaction type.
- The Merkle tree, signatures, hashes, addresses and serialization are given functions; batch verification is taken to accept exactly when every signature in a nonempty batch is valid.
- The byte encoding of outpoint keys and storage order: sorting uses a total order on the parts of an outpoint, and the pool is read in order of txid.
- 32-bit heights, sequence numbers and vout indices and 256-bit work do not overflow in the model; amounts do.
- BitNames functions are the operations on the name tables as values: the in-place writes to the three tables by `apply_*` and `revert_*` happen through the fields of `ChainState`.
- Archives.Archive.StoreBody: does not model the sidechain tips that storing a body also updates.
- Archives.Archive.DropBody: does not model the sidechain tips that dropping a body also updates.
- MainchainSync.MainchainTips.Sync: does not model the errors that the omitted sidechain tips can raise.
- MainchainSync.MainchainTips.Sync: header infos must carry the height that the parent links give, as the node receives them.
- SeqId.Parse: the final addition wraps around in 32 bits, as in a build without overflow checks; with checks it would abort.
- MemPool.Pool.Put: a stored txid must name the same transaction.
- ReorgRun.RunReorgs: ends at a target that costs the node the body of its first block; what the node does without that body is not followed further.
- Networking, peers, the mainchain client, the wallet, RPC, GUI and logging.
- Database versions, environments and the reads that only look up a row.
