/** The inclusion index lists exactly the positions of stored transactions. */
module Inclusions {
  import opened Types
  import opened ArchiveDb

  type Inc = map<Txid, map<Hash, nat>>

  ghost predicate Includes(bodies: map<Hash, Body>, b: Hash, i: nat, t: Txid) {
    b in bodies && i < |bodies[b].transactions| && bodies[b].transactions[i].txid == t
  }

  ghost predicate Listed(inc: Inc, t: Txid, b: Hash, i: nat) {
    b in Row(inc, t) && Row(inc, t)[b] == i
  }

  /** Rows list exactly the (block, position) pairs of stored bodies, and none is empty. */
  ghost predicate InclusionsOk(bodies: map<Hash, Body>, inc: Inc) {
    && (forall t, b, i: nat :: Listed(inc, t, b, i) <==> Includes(bodies, b, i, t))
    && (forall t :: t in inc ==> inc[t] != map[])
    && (forall b :: b in bodies ==> Distinct(Txids(bodies[b])))
  }

  lemma {:induction false} AddRows(inc: Inc, b: Hash, ts: seq<Txid>, n: nat, t: Txid)
    requires n <= |ts| && Distinct(ts)
    ensures t !in ts[..n] ==> Row(AddInclusions(inc, b, ts, n), t) == Row(inc, t)
    ensures forall i :: 0 <= i < n && ts[i] == t ==> Row(AddInclusions(inc, b, ts, n), t) == Row(inc, t)[b := i]
    ensures (forall u :: u in inc ==> inc[u] != map[]) ==>
              forall u :: u in AddInclusions(inc, b, ts, n) ==> AddInclusions(inc, b, ts, n)[u] != map[]
  {
    if n > 0 {
      AddRows(inc, b, ts, n - 1, t);
      var inc' := AddInclusions(inc, b, ts, n - 1);
      assert b in Row(inc', ts[n - 1])[b := n - 1];
      assert ts[..n] == ts[..n - 1] + [ts[n - 1]];
      if ts[n - 1] == t { assert t !in ts[..n - 1]; }
    }
  }

  lemma PutKeepsInclusions(bodies: map<Hash, Body>, inc: Inc, b: Hash, body: Body)
    requires InclusionsOk(bodies, inc) && Distinct(Txids(body))
    requires b in bodies ==> bodies[b] == body
    ensures InclusionsOk(bodies[b := body], AddInclusions(inc, b, Txids(body), |body.transactions|))
  {
    hide AddInclusions, Distinct;
    var ts, n := Txids(body), |body.transactions|;
    var inc', bodies' := AddInclusions(inc, b, ts, n), bodies[b := body];
    assert ts[..n] == ts;
    forall t, x, i: nat ensures Listed(inc', t, x, i) <==> Includes(bodies', x, i, t) {
      AddRows(inc, b, ts, n, t);
      assert Listed(inc, t, x, i) <==> Includes(bodies, x, i, t);
      if t in ts {
        var k :| 0 <= k < n && ts[k] == t;
        assert Row(inc', t) == Row(inc, t)[b := k];
        SamePosition(ts, t, k);
        assert i < n ==> ts[i] == body.transactions[i].txid;
      } else {
        assert i < n ==> ts[i] == body.transactions[i].txid;
      }
    }
    AddRows(inc, b, ts, n, 0);
  }

  lemma SamePosition(ts: seq<Txid>, t: Txid, k: nat)
    requires Distinct(ts) && k < |ts| && ts[k] == t
    ensures forall i :: 0 <= i < |ts| && ts[i] == t ==> i == k
  {
  }

  lemma {:induction false} RemoveRows(inc: Inc, b: Hash, ts: seq<Txid>, n: nat, t: Txid)
    requires n <= |ts| && forall u :: u in inc ==> inc[u] != map[]
    ensures Row(RemoveInclusions(inc, b, ts, n), t) == if t in ts[..n] then Row(inc, t) - {b} else Row(inc, t)
    ensures forall u :: u in RemoveInclusions(inc, b, ts, n) ==> RemoveInclusions(inc, b, ts, n)[u] != map[]
  {
    if n > 0 {
      RemoveRows(inc, b, ts, n - 1, t);
      assert ts[..n] == ts[..n - 1] + [ts[n - 1]];
    }
  }

  lemma DeleteKeepsInclusions(bodies: map<Hash, Body>, inc: Inc, b: Hash, body: Body)
    requires InclusionsOk(bodies, inc)
    requires b in bodies ==> bodies[b] == body
    ensures InclusionsOk(bodies - {b}, RemoveInclusions(inc, b, Txids(body), |body.transactions|))
  {
    hide RemoveInclusions, Distinct;
    var ts, n := Txids(body), |body.transactions|;
    var inc' := RemoveInclusions(inc, b, ts, n);
    assert ts[..n] == ts;
    forall t, x, i: nat ensures Listed(inc', t, x, i) <==> Includes(bodies - {b}, x, i, t) {
      RemoveRows(inc, b, ts, n, t);
      assert Listed(inc, t, x, i) <==> Includes(bodies, x, i, t);
      if b in bodies && i < n { assert ts[i] == body.transactions[i].txid; }
    }
    RemoveRows(inc, b, ts, n, 0);
  }

  lemma RemoveKeepsInclusions(bodies: map<Hash, Body>, inc: Inc, gone: set<Hash>)
    requires InclusionsOk(bodies, inc)
    ensures InclusionsOk(bodies - gone, RemoveFromInclusions(inc, gone))
  {
    hide Distinct;
    var inc' := RemoveFromInclusions(inc, gone);
    forall t, x, i: nat ensures Listed(inc', t, x, i) <==> Includes(bodies - gone, x, i, t) {
      assert Row(inc', t) == Row(inc, t) - gone;
      assert Listed(inc, t, x, i) <==> Includes(bodies, x, i, t);
    }
  }

  /** The index is a function of the stored bodies. */
  lemma InclusionsDetermined(bodies: map<Hash, Body>, inc: Inc, inc': Inc)
    requires InclusionsOk(bodies, inc) && InclusionsOk(bodies, inc')
    ensures inc == inc'
  {
    forall t ensures Row(inc, t) == Row(inc', t) {
      forall b ensures b in Row(inc, t) <==> b in Row(inc', t) {
        if b in Row(inc, t) {
          assert Listed(inc, t, b, Row(inc, t)[b]);
          assert Includes(bodies, b, Row(inc, t)[b], t);
          assert Listed(inc', t, b, Row(inc, t)[b]);
        }
        if b in Row(inc', t) {
          assert Listed(inc', t, b, Row(inc', t)[b]);
          assert Includes(bodies, b, Row(inc', t)[b], t);
          assert Listed(inc, t, b, Row(inc', t)[b]);
        }
      }
      forall b | b in Row(inc, t) ensures Row(inc, t)[b] == Row(inc', t)[b] {
        assert Listed(inc, t, b, Row(inc, t)[b]);
        assert Includes(bodies, b, Row(inc, t)[b], t);
        assert Listed(inc', t, b, Row(inc, t)[b]);
      }
    }
    forall t ensures t in inc <==> t in inc' {
      assert Row(inc, t) == Row(inc', t);
    }
    forall t | t in inc ensures inc[t] == inc'[t] {
      assert Row(inc, t) == Row(inc', t);
    }
  }

  /** Removes block `b` from the rows of the transactions of `body`. */
  method Unlist(inclusions: Inc, b: Hash, body: Body) returns (inc: Inc)
    ensures inc == RemoveInclusions(inclusions, b, Txids(body), |body.transactions|)
  {
    inc := inclusions;
    for i := 0 to |body.transactions|
      invariant inc == RemoveInclusions(inclusions, b, Txids(body), i)
    {
      var t := body.transactions[i].txid;
      var row := Row(inc, t) - {b};
      if row == map[] { inc := inc - {t}; } else { inc := inc[t := row]; }
    }
  }
}
