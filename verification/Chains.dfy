/** Runs of connected and disconnected blocks: the state is a function of the
  * active chain. */
module Chains {
  import opened Wrappers
  import opened Types
  import opened Blocks
  import opened DisconnectUndo
  import opened DisconnectExact
  import opened StateInvariant

  /** The state after connecting a chain of blocks to a starting state. */
  ghost function Fold(cr: Crypto, init: State, chain: seq<Block>): Result<State, Error> {
    if chain == [] then Ok(init) else
    var st :- Fold(cr, init, chain[..|chain| - 1]);
    ApplyBlock(cr, st, chain[|chain| - 1].header, chain[|chain| - 1].body)
  }

  /** A state to start chains from: well formed, with no block connected. */
  ghost predicate Start(init: State) {
    StateOk(init) && init.tip.None?
  }

  /** Each block is fresh where it is connected. */
  ghost predicate FreshChain(cr: Crypto, init: State, chain: seq<Block>) {
    forall k :: 0 <= k < |chain| ==>
                  Fold(cr, init, chain[..k]).Ok? ==>
                    Fresh(Fold(cr, init, chain[..k]).value.ledger, chain[k].header, chain[k].body)
  }

  lemma FoldStep(cr: Crypto, init: State, chain: seq<Block>, b: Block)
    ensures Fold(cr, init, chain + [b]) ==
            (match Fold(cr, init, chain)
             case Err(e) => Err(e)
             case Ok(st) => ApplyBlock(cr, st, b.header, b.body))
  {
    assert (chain + [b])[..|chain|] == chain;
  }

  lemma FreshExtend(cr: Crypto, init: State, chain: seq<Block>, b: Block)
    requires FreshChain(cr, init, chain) && Fold(cr, init, chain).Ok?
    requires Fresh(Fold(cr, init, chain).value.ledger, b.header, b.body)
    ensures FreshChain(cr, init, chain + [b])
  {
    hide Fold, Fresh;
    var c := chain + [b];
    forall k | 0 <= k < |c| && Fold(cr, init, c[..k]).Ok?
      ensures Fresh(Fold(cr, init, c[..k]).value.ledger, c[k].header, c[k].body)
    {
      if k < |chain| { assert c[..k] == chain[..k]; } else { assert c[..k] == chain; }
    }
  }

  lemma FreshPrefix(cr: Crypto, init: State, chain: seq<Block>, n: nat)
    requires FreshChain(cr, init, chain) && n <= |chain|
    ensures FreshChain(cr, init, chain[..n])
  {
    hide Fold, Fresh;
    forall k | 0 <= k < n ensures chain[..n][..k] == chain[..k] && chain[..n][k] == chain[k] {}
  }

  /** Connecting keeps the state well formed, with the last block as its tip. */
  lemma {:induction false} FoldOk(cr: Crypto, init: State, chain: seq<Block>)
    requires Start(init) && FreshChain(cr, init, chain) && Fold(cr, init, chain).Ok?
    ensures var st := Fold(cr, init, chain).value;
            && StateOk(st)
            && NextHeight(st) == |chain|
            && st.tip == (if chain == [] then None else Some(chain[|chain| - 1].header.hash))
    decreases |chain|
  {
    hide ApplyBlock, LedgerOk, Fresh;
    if chain != [] {
      var n := |chain| - 1;
      FreshPrefix(cr, init, chain, n);
      FoldOk(cr, init, chain[..n]);
      ApplyKeepsStateOk(cr, Fold(cr, init, chain[..n]).value, chain[n].header, chain[n].body);
    }
  }

  /** Disconnecting the tip of a chain gives the state of the shorter chain if and
    * only if the last block is reversible there. */
  lemma DisconnectFoldIff(cr: Crypto, init: State, chain: seq<Block>, b: Block, st: State, st': State)
    requires Fold(cr, init, chain) == Ok(st) && Fold(cr, init, chain + [b]) == Ok(st') && StateOk(st)
    ensures DisconnectTip(cr, st', b.header, b.body) == Ok(st) <==> Reversible(st.ledger, b.header, b.body)
  {
    hide ApplyBlock, StateOk, DisconnectTip, Reversible, Fold;
    FoldStep(cr, init, chain, b);
    DisconnectRestoresIff(cr, st, b.header, b.body);
  }

  /** On a chain of fresh blocks it does. */
  lemma DisconnectFold(cr: Crypto, init: State, chain: seq<Block>)
    requires Start(init) && FreshChain(cr, init, chain) && Fold(cr, init, chain).Ok? && chain != []
    ensures var n := |chain| - 1;
            DisconnectTip(cr, Fold(cr, init, chain).value, chain[n].header, chain[n].body) == Fold(cr, init, chain[..n])
  {
    hide ApplyBlock, StateOk, DisconnectTip, Clean, Reversible;
    var n := |chain| - 1;
    FreshPrefix(cr, init, chain, n);
    FoldOk(cr, init, chain[..n]);
    CleanIsReversible(Fold(cr, init, chain[..n]).value.ledger, chain[n].header, chain[n].body);
    assert chain == chain[..n] + [chain[n]];
    DisconnectFoldIff(cr, init, chain[..n], chain[n], Fold(cr, init, chain[..n]).value, Fold(cr, init, chain).value);
  }

  // ----- runs -----

  datatype Step = ConnectStep(block: Block) | DisconnectStep

  datatype Active = Active(chain: seq<Block>, state: State)

  /** A rejected block, or a disconnect that fails, leaves the node as it was. */
  ghost function Next(cr: Crypto, n: Active, s: Step): Active {
    match s
    case ConnectStep(b) =>
      (match ApplyBlock(cr, n.state, b.header, b.body)
       case Ok(st) => Active(n.chain + [b], st)
       case Err(_) => n)
    case DisconnectStep =>
      if n.chain == [] then n else
      var b := n.chain[|n.chain| - 1];
      match DisconnectTip(cr, n.state, b.header, b.body)
      case Ok(st) => Active(n.chain[..|n.chain| - 1], st)
      case Err(_) => n
  }

  ghost function Run(cr: Crypto, init: State, steps: seq<Step>): Active {
    if steps == [] then Active([], init)
    else Next(cr, Run(cr, init, steps[..|steps| - 1]), steps[|steps| - 1])
  }

  /** Every block offered along the run is fresh when it is offered. */
  ghost predicate FreshRun(cr: Crypto, init: State, steps: seq<Step>) {
    forall k :: 0 <= k < |steps| && steps[k].ConnectStep? ==>
                  Fresh(Run(cr, init, steps[..k]).state.ledger, steps[k].block.header, steps[k].block.body)
  }

  lemma NextIsFold(cr: Crypto, init: State, n: Active, s: Step)
    requires Start(init) && FreshChain(cr, init, n.chain) && Fold(cr, init, n.chain) == Ok(n.state)
    requires s.ConnectStep? ==> Fresh(n.state.ledger, s.block.header, s.block.body)
    ensures var n' := Next(cr, n, s);
            && FreshChain(cr, init, n'.chain) && Fold(cr, init, n'.chain) == Ok(n'.state)
            && (s.DisconnectStep? && n.chain != [] ==> n'.chain == n.chain[..|n.chain| - 1])
  {
    hide ApplyBlock, DisconnectTip, FreshChain, Fold, Fresh;
    match s
    case ConnectStep(b) =>
      FoldStep(cr, init, n.chain, b);
      if ApplyBlock(cr, n.state, b.header, b.body).Ok? { FreshExtend(cr, init, n.chain, b); }
    case DisconnectStep =>
      if n.chain != [] {
        var k := |n.chain| - 1;
        DisconnectFold(cr, init, n.chain);
        FreshPrefix(cr, init, n.chain, k);
        PrefixFolds(cr, init, n.chain, k);
      }
  }

  lemma {:induction false} PrefixFolds(cr: Crypto, init: State, chain: seq<Block>, n: nat)
    requires Fold(cr, init, chain).Ok? && n <= |chain|
    ensures Fold(cr, init, chain[..n]).Ok?
    decreases |chain|
  {
    hide ApplyBlock;
    if n < |chain| {
      PrefixFolds(cr, init, chain[..|chain| - 1], n);
      assert chain[..|chain| - 1][..n] == chain[..n];
    } else {
      assert chain[..n] == chain;
    }
  }

  /** Path independence: after any run of connects and disconnects, the state is
    * the fold of the active chain, whatever blocks came and went before. */
  lemma {:induction false} RunIsFold(cr: Crypto, init: State, steps: seq<Step>)
    requires Start(init) && FreshRun(cr, init, steps)
    ensures var n := Run(cr, init, steps);
            && Fold(cr, init, n.chain) == Ok(n.state) && FreshChain(cr, init, n.chain)
            && StateOk(n.state) && NextHeight(n.state) == |n.chain|
  {
    hide ApplyBlock, DisconnectTip, Fold, Fresh, StateOk, Next;
    if steps == [] {
      FoldNone(cr, init);
    } else {
      var k := |steps| - 1;
      assert forall i :: 0 <= i < k ==> steps[..k][..i] == steps[..i] && steps[..k][i] == steps[i];
      RunIsFold(cr, init, steps[..k]);
      NextIsFold(cr, init, Run(cr, init, steps[..k]), steps[k]);
    }
    FoldOk(cr, init, Run(cr, init, steps).chain);
  }

  lemma FoldNone(cr: Crypto, init: State)
    ensures Fold(cr, init, []) == Ok(init)
  {
  }
}
