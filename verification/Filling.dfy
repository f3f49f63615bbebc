/** How the outputs of a transaction receive their BitName and reservation
  * contents from the outputs that it spends. */
module Filling {
  import opened Wrappers
  import opened Types

  /** A reservation: the transaction that made it, and its commitment. */
  type Claim = (Txid, Hash)

  /** The BitNames among spent outputs, in input order. */
  function Names(spent: seq<FilledOutput>): seq<NameHash> {
    if spent == [] then []
    else (if spent[0].content.FilledName? then [spent[0].content.name] else []) + Names(spent[1..])
  }

  /** The reservations among outputs, in order. */
  function Claims(outs: seq<FilledOutput>): seq<Claim> {
    if outs == [] then []
    else (if outs[0].content.FilledReservation? then [(outs[0].content.txid, outs[0].content.commitment)] else [])
         + Claims(outs[1..])
  }

  function CountContent(outputs: seq<Output>, c: Content): nat {
    if outputs == [] then 0
    else (if outputs[0].content == c then 1 else 0) + CountContent(outputs[1..], c)
  }

  /** The transaction of the first reservation that carries commitment `c`. */
  function FirstClaim(rs: seq<Claim>, c: Hash): Option<Txid> {
    if rs == [] then None
    else if rs[0].1 == c then Some(rs[0].0)
    else FirstClaim(rs[1..], c)
  }

  function DropFirstClaim(rs: seq<Claim>, c: Hash): seq<Claim> {
    if rs == [] then []
    else if rs[0].1 == c then rs[1..]
    else [rs[0]] + DropFirstClaim(rs[1..], c)
  }

  /** The reservation that a registration burns. */
  function Burned(f: FilledTransaction): Option<Txid> {
    match f.tx.data
    case Some(Registration(_, implied, _)) => FirstClaim(Claims(f.spent), implied)
    case _ => None
  }

  /** Names left to hand to BitName outputs: the spent ones, then a new one. */
  function OutputNames(f: FilledTransaction): seq<NameHash> {
    Names(f.spent) +
    match f.tx.data
    case Some(Registration(name, _, _)) => [name]
    case _ => []
  }

  /** Reservations left to hand to reservation outputs. */
  function OutputClaims(f: FilledTransaction): seq<Claim> {
    match f.tx.data
    case Some(Registration(_, implied, _)) => DropFirstClaim(Claims(f.spent), implied)
    case Some(Reservation(commitment)) => Claims(f.spent) + [(f.tx.txid, commitment)]
    case _ => Claims(f.spent)
  }

  function FillFrom(outputs: seq<Output>, names: seq<NameHash>, rs: seq<Claim>): Option<seq<FilledOutput>> {
    if outputs == [] then Some([]) else
    var o := outputs[0];
    match o.content
    case BitName =>
      if names == [] then None else
      var rest :- FillFrom(outputs[1..], names[1..], rs);
      Some([FilledOutput(o.address, FilledName(names[0]), o.memo)] + rest)
    case BitNameReservation =>
      if rs == [] then None else
      var rest :- FillFrom(outputs[1..], names, rs[1..]);
      Some([FilledOutput(o.address, FilledReservation(rs[0].0, rs[0].1), o.memo)] + rest)
    case Bitcoin(v) =>
      var rest :- FillFrom(outputs[1..], names, rs);
      Some([FilledOutput(o.address, FilledBitcoin(v), o.memo)] + rest)
    case Withdrawal(p, fee, a) =>
      var rest :- FillFrom(outputs[1..], names, rs);
      Some([FilledOutput(o.address, FilledWithdrawal(p, fee, a), o.memo)] + rest)
  }

  /** The filled outputs, or None if some output has no content left to take. */
  function FilledOutputs(f: FilledTransaction): Option<seq<FilledOutput>> {
    FillFrom(f.tx.outputs, OutputNames(f), OutputClaims(f))
  }

  /** Bitcoin and withdrawals are filled with themselves, the others with some name
    * or some reservation. */
  ghost predicate SameKind(c: Content, d: FilledContent) {
    match c
    case Bitcoin(v) => d == FilledBitcoin(v)
    case Withdrawal(p, fee, a) => d == FilledWithdrawal(p, fee, a)
    case BitName => d.FilledName?
    case BitNameReservation => d.FilledReservation?
  }

  /** One filled output per output, with its address, memo, kind and value. */
  ghost predicate SameShape(outputs: seq<Output>, outs: seq<FilledOutput>) {
    && |outs| == |outputs|
    && forall i :: 0 <= i < |outs| ==>
         && outs[i].address == outputs[i].address && outs[i].memo == outputs[i].memo
         && SameKind(outputs[i].content, outs[i].content)
         && FilledValue(outs[i].content) == Value(outputs[i].content)
  }

  /** Filling succeeds exactly when there are enough names and reservations; it
    * keeps every output's position, address, memo, kind and value, and hands names and
    * reservations out in order, each at most once. */
  lemma {:induction false} FillFromFacts(outputs: seq<Output>, names: seq<NameHash>, rs: seq<Claim>)
    ensures FillFrom(outputs, names, rs).Some? <==>
            CountContent(outputs, BitName) <= |names| && CountContent(outputs, BitNameReservation) <= |rs|
    ensures FillFrom(outputs, names, rs).Some? ==>
              var outs := FillFrom(outputs, names, rs).value;
              && SameShape(outputs, outs)
              && Claims(outs) <= rs
              && Names(outs) <= names
  {
    hide Names, Claims, SameShape;
    FillFromNone(names, rs);
    if outputs != [] {
      var o := outputs[0];
      match o.content
      case BitName =>
        if names != [] {
          FillFromFacts(outputs[1..], names[1..], rs);
          FillStep(outputs, FilledName(names[0]), FillFrom(outputs[1..], names[1..], rs));
        }
      case BitNameReservation =>
        if rs != [] {
          FillFromFacts(outputs[1..], names, rs[1..]);
          FillStep(outputs, FilledReservation(rs[0].0, rs[0].1), FillFrom(outputs[1..], names, rs[1..]));
        }
      case Bitcoin(v) =>
        FillFromFacts(outputs[1..], names, rs);
        FillStep(outputs, FilledBitcoin(v), FillFrom(outputs[1..], names, rs));
      case Withdrawal(p, fee, a) =>
        FillFromFacts(outputs[1..], names, rs);
        FillStep(outputs, FilledWithdrawal(p, fee, a), FillFrom(outputs[1..], names, rs));
    }
  }

  lemma FillFromNone(names: seq<NameHash>, rs: seq<Claim>)
    ensures Claims([]) <= rs && Names([]) <= names && SameShape([], [])
  {
  }

  lemma FilledOutputsFacts(f: FilledTransaction)
    requires FilledOutputs(f).Some?
    ensures var outs := FilledOutputs(f).value;
            && |outs| == |f.tx.outputs| && SameShape(f.tx.outputs, outs)
            && (forall i :: 0 <= i < |outs| ==> FilledValue(outs[i].content) == Value(f.tx.outputs[i].content))
            && Claims(outs) <= OutputClaims(f)
            && Names(outs) <= OutputNames(f)
  {
    FillFromFacts(f.tx.outputs, OutputNames(f), OutputClaims(f));
  }

  lemma FillStep(outputs: seq<Output>, c: FilledContent, rest: Option<seq<FilledOutput>>)
    requires outputs != [] && SameKind(outputs[0].content, c)
    requires rest.Some? ==> SameShape(outputs[1..], rest.value)
    ensures rest.Some? ==>
              var outs := [FilledOutput(outputs[0].address, c, outputs[0].memo)] + rest.value;
              && SameShape(outputs, outs)
              && Claims(outs) == (if c.FilledReservation? then [(c.txid, c.commitment)] else []) + Claims(rest.value)
              && Names(outs) == (if c.FilledName? then [c.name] else []) + Names(rest.value)
              && outs[1..] == rest.value
  {
    if rest.Some? {
      var outs := [FilledOutput(outputs[0].address, c, outputs[0].memo)] + rest.value;
      assert outs[1..] == rest.value;
    }
  }

  /** Burning takes out the first reservation of the commitment, and leaves the others
    * in their order. */
  lemma {:induction false} DropsFirst(rs: seq<Claim>, c: Hash) returns (k: nat)
    requires FirstClaim(rs, c).Some?
    ensures k < |rs| && rs[k] == (FirstClaim(rs, c).value, c) && forall j :: 0 <= j < k ==> rs[j].1 != c
    ensures DropFirstClaim(rs, c) == rs[..k] + rs[k + 1..]
  {
    if rs[0].1 == c {
      k := 0;
    } else {
      var i := DropsFirst(rs[1..], c);
      k := i + 1;
      assert forall j :: 0 < j < |rs| ==> rs[j] == rs[1..][j - 1];
      assert [rs[0]] + rs[1..][..i] == rs[..k] && rs[1..][i + 1..] == rs[k + 1..];
    }
  }

  // ----- reservations as a set of transactions -----

  ghost predicate DistinctTxids(rs: seq<Claim>) {
    forall i, j :: 0 <= i < j < |rs| ==> rs[i].0 != rs[j].0
  }

  /** No two of these outputs hold the same reservation. */
  ghost predicate DistinctReservations(outs: seq<FilledOutput>) {
    forall i, j :: 0 <= i < j < |outs| && outs[i].content.FilledReservation? && outs[j].content.FilledReservation?
      ==> outs[i].content.txid != outs[j].content.txid
  }

  lemma {:induction false} ClaimMember(outs: seq<FilledOutput>, t: Txid, c: Hash)
    ensures (t, c) in Claims(outs) <==>
            exists i :: 0 <= i < |outs| && outs[i].content == FilledReservation(t, c)
  {
    if outs != [] {
      ClaimMember(outs[1..], t, c);
      if (t, c) in Claims(outs[1..]) {
        var i :| 0 <= i < |outs[1..]| && outs[1..][i].content == FilledReservation(t, c);
        assert outs[i + 1].content == FilledReservation(t, c);
      }
      if i :| 0 <= i < |outs| && outs[i].content == FilledReservation(t, c) {
        if i > 0 { assert outs[1..][i - 1].content == FilledReservation(t, c); }
      }
    }
  }

  lemma DistinctMore(head: Claim, tail: seq<Claim>)
    ensures DistinctTxids([head] + tail) <==> DistinctTxids(tail) && forall r :: r in tail ==> r.0 != head.0
  {
    var all := [head] + tail;
    assert forall i :: 0 <= i < |tail| ==> all[i + 1] == tail[i];
    if DistinctTxids(all) {
      forall i, j | 0 <= i < j < |tail| ensures tail[i].0 != tail[j].0 { assert all[i + 1].0 != all[j + 1].0; }
      forall r | r in tail ensures r.0 != head.0 {
        var i :| 0 <= i < |tail| && tail[i] == r;
        assert all[0].0 != all[i + 1].0;
      }
    }
  }

  ghost predicate HasClaim(outs: seq<FilledOutput>, t: Txid, c: Hash) {
    exists i :: 0 <= i < |outs| && outs[i].content == FilledReservation(t, c)
  }

  lemma DistinctTail(outs: seq<FilledOutput>)
    requires outs != []
    ensures DistinctReservations(outs) <==>
            DistinctReservations(outs[1..]) &&
            (outs[0].content.FilledReservation? ==>
               forall t, c :: HasClaim(outs[1..], t, c) ==> t != outs[0].content.txid)
  {
    var tail := outs[1..];
    assert forall i :: 0 <= i < |tail| ==> outs[i + 1] == tail[i];
    if DistinctReservations(outs) {
      forall i, j | 0 <= i < j < |tail| && tail[i].content.FilledReservation? && tail[j].content.FilledReservation?
        ensures tail[i].content.txid != tail[j].content.txid
      {
        assert outs[i + 1] == tail[i] && outs[j + 1] == tail[j];
      }
    } else {
      var i, j :| 0 <= i < j < |outs| && outs[i].content.FilledReservation? && outs[j].content.FilledReservation? &&
                  outs[i].content.txid == outs[j].content.txid;
      assert outs[j] == tail[j - 1] && tail[j - 1].content == FilledReservation(outs[j].content.txid, outs[j].content.commitment);
      assert HasClaim(tail, outs[j].content.txid, outs[j].content.commitment);
      if i > 0 { assert outs[i] == tail[i - 1]; }
    }
  }

  lemma {:induction false} DistinctClaims(outs: seq<FilledOutput>)
    ensures DistinctReservations(outs) <==> DistinctTxids(Claims(outs))
  {
    hide DistinctReservations, DistinctTxids;
    if outs == [] {
      NoneDistinct();
    } else {
      var tail := outs[1..];
      DistinctClaims(tail);
      DistinctTail(outs);
      if outs[0].content.FilledReservation? {
        var head := (outs[0].content.txid, outs[0].content.commitment);
        assert Claims(outs) == [head] + Claims(tail);
        DistinctMore(head, Claims(tail));
        forall t: Txid, c: Hash ensures HasClaim(tail, t, c) <==> (t, c) in Claims(tail) { ClaimMember(tail, t, c); }
        forall r | r in Claims(tail) ensures HasClaim(tail, r.0, r.1) { ClaimMember(tail, r.0, r.1); }
      } else {
        assert Claims(outs) == Claims(tail);
      }
    }
  }

  lemma NoneDistinct()
    ensures DistinctReservations([]) && DistinctTxids([])
  {
  }

  lemma {:induction false} FirstClaimFacts(rs: seq<Claim>, c: Hash)
    ensures FirstClaim(rs, c).Some? ==> (FirstClaim(rs, c).value, c) in rs
    ensures FirstClaim(rs, c).None? <==> forall r :: r in rs ==> r.1 != c
    ensures |DropFirstClaim(rs, c)| == |rs| - (if FirstClaim(rs, c).Some? then 1 else 0)
    ensures forall r :: r in DropFirstClaim(rs, c) ==> r in rs
    ensures DistinctTxids(rs) ==> DistinctTxids(DropFirstClaim(rs, c))
    ensures DistinctTxids(rs) && FirstClaim(rs, c).Some? ==>
              forall r :: r in DropFirstClaim(rs, c) ==> r.0 != FirstClaim(rs, c).value
  {
    if rs != [] {
      FirstClaimFacts(rs[1..], c);
      if DistinctTxids(rs) {
        assert DistinctTxids(rs[1..]);
        forall r | r in rs[1..] ensures r.0 != rs[0].0 {
          var i :| 0 <= i < |rs[1..]| && rs[1..][i] == r;
          assert rs[i + 1] == r;
        }
      }
    }
  }
}
