/** Finding a double spend by sorting the spent outpoints and comparing neighbours. */
module DoubleSpend {
  import opened Types

  /** The parts of an outpoint key, most significant first. */
  function Key(o: OutPoint): (nat, nat, nat) {
    match o
    case Regular(t, v) => (0, t, v)
    case Coinbase(t, v) => (1, t, v)
    case Deposit(t, v) => (2, t, v)
  }

  predicate Leq(a: OutPoint, b: OutPoint) {
    var (k, l) := (Key(a), Key(b));
    k.0 < l.0 || (k.0 == l.0 && (k.1 < l.1 || (k.1 == l.1 && k.2 <= l.2)))
  }

  lemma LeqTotal(a: OutPoint, b: OutPoint)
    ensures Leq(a, b) || Leq(b, a)
    ensures Leq(a, b) && Leq(b, a) ==> a == b
  {
    if Leq(a, b) && Leq(b, a) { assert Key(a) == Key(b); }
  }

  predicate Sorted(s: seq<OutPoint>) {
    forall i, j :: 0 <= i < j < |s| ==> Leq(s[i], s[j])
  }

  /** Places one key into a sorted sequence. */
  method Place(s: seq<OutPoint>, o: OutPoint) returns (t: seq<OutPoint>)
    requires Sorted(s)
    ensures Sorted(t) && multiset(t) == multiset(s) + multiset{o}
  {
    hide Leq;
    var i := |s|;
    while i > 0 && !Leq(s[i - 1], o)
      invariant 0 <= i <= |s|
      invariant forall k :: i <= k < |s| ==> Leq(o, s[k])
    {
      LeqTotal(s[i - 1], o);
      i := i - 1;
    }
    forall k | 0 <= k < i ensures Leq(s[k], o) {
      if k < i - 1 { LeqTrans(s[k], s[i - 1], o); }
    }
    t := s[..i] + [o] + s[i..];
    Placed(s, o, i);
  }

  lemma Placed(s: seq<OutPoint>, o: OutPoint, i: nat)
    requires i <= |s| && Sorted(s) && (forall k :: 0 <= k < i ==> Leq(s[k], o)) && forall k :: i <= k < |s| ==> Leq(o, s[k])
    ensures Sorted(s[..i] + [o] + s[i..])
    ensures multiset(s[..i] + [o] + s[i..]) == multiset(s) + multiset{o}
  {
    hide Leq;
    assert s == s[..i] + s[i..];
  }

  lemma LeqTrans(a: OutPoint, b: OutPoint, c: OutPoint)
    requires Leq(a, b) && Leq(b, c)
    ensures Leq(a, c)
  {
  }

  method Sort(s: seq<OutPoint>) returns (t: seq<OutPoint>)
    ensures Sorted(t) && multiset(t) == multiset(s)
  {
    hide Leq;
    t := [];
    for i := 0 to |s|
      invariant Sorted(t) && multiset(t) == multiset(s[..i])
    {
      assert s[..i + 1] == s[..i] + [s[i]];
      t := Place(t, s[i]);
    }
    assert s[..|s|] == s;
  }

  lemma {:induction false} DistinctByCount(s: seq<OutPoint>)
    ensures Distinct(s) <==> forall o :: multiset(s)[o] <= 1
    decreases |s|
  {
    if s != [] {
      var n := |s| - 1;
      assert s == s[..n] + [s[n]];
      DistinctByCount(s[..n]);
      assert s[n] in s[..n] <==> multiset(s[..n])[s[n]] > 0;
      assert forall o :: multiset(s)[o] == multiset(s[..n])[o] + if o == s[n] then 1 else 0;
      if !Distinct(s) && Distinct(s[..n]) {
        var i, j :| 0 <= i < j < |s| && s[i] == s[j];
        assert s[..n][i] == s[n];
        assert multiset(s)[s[n]] > 1;
      }
      if Distinct(s) {
        assert forall i :: 0 <= i < n ==> s[..n][i] == s[i];
      }
    }
  }

  /** In a sorted sequence equal keys are neighbours. */
  lemma NeighboursSuffice(s: seq<OutPoint>, i: nat, j: nat)
    requires Sorted(s) && i < j < |s| && s[i] == s[j]
    ensures s[i] == s[i + 1]
  {
    hide Leq;
    if i + 1 < j { LeqTotal(s[i], s[i + 1]); }
  }

  /** Sort and scan finds a repeated outpoint exactly when there is one. */
  method HasRepeat(s: seq<OutPoint>) returns (r: bool)
    ensures r <==> !Distinct(s)
  {
    hide Leq;
    var t := Sort(s);
    DistinctByCount(s);
    DistinctByCount(t);
    var i := 0;
    while i + 1 < |t|
      invariant forall k :: 0 <= k < i && k + 1 < |t| ==> t[k] != t[k + 1]
    {
      if t[i] == t[i + 1] { return true; }
      i := i + 1;
    }
    forall i, j | 0 <= i < j < |t| ensures t[i] != t[j] {
      if t[i] == t[j] { NeighboursSuffice(t, i, j); }
    }
    return false;
  }
}
