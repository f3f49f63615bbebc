/** Pairing the flat list of authorizations of a body with the inputs of its
  * transactions, and checking the pairs in chunks. */
module Signatures {
  import opened Types
  import opened Blocks

  const CHUNK_SIZE: nat := 0x4000

  type Pair = (Authorization, Transaction)

  /** A batch of signatures is valid if it is not empty and every signature is. */
  method BatchVerify(cr: Crypto, items: seq<Pair>) returns (ok: bool)
    ensures ok <==> items != [] && forall i :: 0 <= i < |items| ==> cr.verify(items[i].0, items[i].1)
  {
    ok := items != [];
    for i := 0 to |items|
      invariant ok <==> items != [] && forall j :: 0 <= j < i ==> cr.verify(items[j].0, items[j].1)
    {
      ok := ok && cr.verify(items[i].0, items[i].1);
    }
  }

  /** Splits the pairs into chunks, none of them empty. */
  method VerifyChunks(cr: Crypto, pairs: seq<Pair>) returns (ok: bool)
    ensures ok <==> forall i :: 0 <= i < |pairs| ==> cr.verify(pairs[i].0, pairs[i].1)
  {
    var at := 0;
    while at < |pairs|
      invariant 0 <= at <= |pairs|
      invariant forall i :: 0 <= i < at ==> cr.verify(pairs[i].0, pairs[i].1)
    {
      var next := if at + CHUNK_SIZE <= |pairs| then at + CHUNK_SIZE else |pairs|;
      var chunk := pairs[at..next];
      var valid := BatchVerify(cr, chunk);
      if !valid {
        var i :| 0 <= i < |chunk| && !cr.verify(chunk[i].0, chunk[i].1);
        assert chunk[i] == pairs[at + i];
        return false;
      }
      assert forall i :: at <= i < next ==> pairs[i] == chunk[i - at];
      at := next;
    }
    return true;
  }

  /** The check of a whole body: every input has its own authorization, and it
    * signs the transaction of that input. */
  method VerifyAuthorizations(cr: Crypto, body: Body) returns (ok: bool)
    ensures ok <==> Authorized(cr, body)
  {
    var messages := InputOwners(body.transactions);
    if |body.authorizations| != |messages| { return false; }
    var pairs := seq(|messages|, i requires 0 <= i < |messages| => (body.authorizations[i], messages[i]));
    ok := VerifyChunks(cr, pairs);
    if ok {
      forall k | 0 <= k < |messages| ensures cr.verify(body.authorizations[k], messages[k]) {
        assert cr.verify(pairs[k].0, pairs[k].1);
      }
    } else {
      var k :| 0 <= k < |pairs| && !cr.verify(pairs[k].0, pairs[k].1);
      assert !cr.verify(body.authorizations[k], messages[k]);
    }
  }

  /** What a transaction must show by itself. */
  predicate Signed(cr: Crypto, at: AuthorizedTransaction) {
    && |at.authorizations| == |at.tx.inputs|
    && forall i :: 0 <= i < |at.authorizations| ==> cr.verify(at.authorizations[i], at.tx)
  }

  /** The check of one transaction; one without inputs is not put to the batch. */
  method VerifyAuthorizedTransaction(cr: Crypto, at: AuthorizedTransaction) returns (ok: bool)
    ensures ok <==> Signed(cr, at)
  {
    if |at.authorizations| != |at.tx.inputs| { return false; }
    if at.authorizations == [] { return true; }
    var items := seq(|at.authorizations|, i requires 0 <= i < |at.authorizations| => (at.authorizations[i], at.tx));
    ok := BatchVerify(cr, items);
    if ok {
      forall k | 0 <= k < |items| ensures cr.verify(at.authorizations[k], at.tx) {
        assert cr.verify(items[k].0, items[k].1);
      }
    } else {
      var k :| 0 <= k < |items| && !cr.verify(items[k].0, items[k].1);
      assert !cr.verify(at.authorizations[k], at.tx);
    }
  }

  // ----- bodies from authorized transactions, and back -----

  function Transactions(ats: seq<AuthorizedTransaction>): (r: seq<Transaction>)
    ensures |r| == |ats| && forall i :: 0 <= i < |r| ==> r[i] == ats[i].tx
  {
    seq(|ats|, i requires 0 <= i < |ats| => ats[i].tx)
  }

  lemma TransactionsConcat(a: seq<AuthorizedTransaction>, b: seq<AuthorizedTransaction>)
    ensures Transactions(a + b) == Transactions(a) + Transactions(b)
  {
  }

  function Authorizations(ats: seq<AuthorizedTransaction>): seq<Authorization> {
    if ats == [] then [] else Authorizations(ats[..|ats| - 1]) + ats[|ats| - 1].authorizations
  }

  method NewBody(ats: seq<AuthorizedTransaction>, coinbase: seq<Output>) returns (body: Body)
    ensures body == Body(coinbase, Transactions(ats), Authorizations(ats))
  {
    var authorizations, transactions := [], [];
    for i := 0 to |ats|
      invariant transactions == Transactions(ats[..i]) && authorizations == Authorizations(ats[..i])
    {
      assert ats[..i + 1][..i] == ats[..i];
      authorizations := authorizations + ats[i].authorizations;
      transactions := transactions + [ats[i].tx];
    }
    assert ats[..|ats|] == ats;
    return Body(coinbase, transactions, authorizations);
  }

  /** The number of inputs of the first `n` transactions. */
  function InputsBefore(txs: seq<Transaction>, n: nat): nat
    requires n <= |txs|
  {
    if n == 0 then 0 else InputsBefore(txs, n - 1) + |txs[n - 1].inputs|
  }

  lemma {:induction false} InputsBeforeGrows(txs: seq<Transaction>, m: nat, n: nat)
    requires m <= n <= |txs|
    ensures InputsBefore(txs, m) <= InputsBefore(txs, n)
    decreases n
  {
    if m < n { InputsBeforeGrows(txs, m, n - 1); }
  }

  lemma {:induction false} InputsBeforeTake(txs: seq<Transaction>, m: nat, n: nat)
    requires m <= n <= |txs|
    ensures InputsBefore(txs[..n], m) == InputsBefore(txs, m)
    decreases m
  {
    if m > 0 { InputsBeforeTake(txs, m - 1, n); }
  }

  /** Every transaction carries one authorization per input. */
  predicate Counted(ats: seq<AuthorizedTransaction>) {
    forall i :: 0 <= i < |ats| ==> |ats[i].authorizations| == |ats[i].tx.inputs|
  }

  /** The authorizations of transaction `n`: one per input, after those of all
    * earlier inputs. */
  ghost function Slice(body: Body, n: nat): seq<Authorization>
    requires n < |body.transactions|
  {
    var from := InputsBefore(body.transactions, n);
    var to := from + |body.transactions[n].inputs|;
    if to <= |body.authorizations| then body.authorizations[from..to] else []
  }

  /** The transactions of a body, each with its own authorizations. */
  ghost function Entries(body: Body): (ats: seq<AuthorizedTransaction>)
    ensures Transactions(ats) == body.transactions
  {
    seq(|body.transactions|, n requires 0 <= n < |body.transactions| =>
      AuthorizedTransaction(body.transactions[n], Slice(body, n)))
  }

  /** Taking the authorizations apart again; there must be enough of them. */
  method AuthorizedTransactions(body: Body) returns (ats: seq<AuthorizedTransaction>)
    requires |body.authorizations| >= |InputOwners(body.transactions)|
    ensures ats == Entries(body)
    ensures Transactions(ats) == body.transactions && Counted(ats)
    ensures Authorizations(ats) == body.authorizations[..|InputOwners(body.transactions)|]
  {
    hide InputOwners, InputsBefore, Slice;
    ats := [];
    var next := 0;
    var txs := body.transactions;
    OwnersAre(txs, |txs|);
    assert txs[..|txs|] == txs;
    EntriesSplit(body, 0);
    for i := 0 to |txs|
      invariant next == InputsBefore(txs, i) && ats == Entries(body)[..i]
    {
      var last := next + |txs[i].inputs|;
      SliceIs(body, i);
      var at := AuthorizedTransaction(txs[i], body.authorizations[next..last]);
      ats, next := ats + [at], last;
    }
    EntriesCounted(body);
    EntriesSplit(body, |txs|);
  }

  lemma SliceIs(body: Body, n: nat)
    requires n < |body.transactions| && |body.authorizations| >= InputsBefore(body.transactions, |body.transactions|)
    ensures InputsBefore(body.transactions, n + 1) ==
            InputsBefore(body.transactions, n) + |body.transactions[n].inputs| <= |body.authorizations|
    ensures Slice(body, n) == body.authorizations[InputsBefore(body.transactions, n)..InputsBefore(body.transactions, n + 1)]
  {
    InputsBeforeGrows(body.transactions, n + 1, |body.transactions|);
  }

  lemma EntriesCounted(body: Body)
    requires |body.authorizations| >= InputsBefore(body.transactions, |body.transactions|)
    ensures Counted(Entries(body))
  {
    hide InputsBefore, Slice;
    forall n | 0 <= n < |body.transactions| ensures |Slice(body, n)| == |body.transactions[n].inputs| { SliceIs(body, n); }
  }

  lemma AuthorizationsMore(ats: seq<AuthorizedTransaction>, at: AuthorizedTransaction)
    ensures Authorizations(ats + [at]) == Authorizations(ats) + at.authorizations
  {
    assert (ats + [at])[..|ats|] == ats;
  }

  lemma EntriesMore(body: Body, n: nat)
    requires n < |body.transactions|
    ensures Entries(body)[..n + 1] == Entries(body)[..n] + [AuthorizedTransaction(body.transactions[n], Slice(body, n))]
  {
    hide Slice;
  }

  lemma NoEntries(body: Body)
    ensures Entries(body)[..0] == [] && Authorizations([]) == [] && InputsBefore(body.transactions, 0) == 0
  {
    hide Slice;
  }

  lemma {:induction false} EntriesSplit(body: Body, n: nat)
    requires n <= |body.transactions| && |body.authorizations| >= InputsBefore(body.transactions, |body.transactions|)
    ensures InputsBefore(body.transactions, 0) == 0 && InputsBefore(body.transactions, n) <= |body.authorizations|
    ensures Authorizations(Entries(body)[..n]) == body.authorizations[..InputsBefore(body.transactions, n)]
    decreases n
  {
    hide Slice, Authorizations, InputsBefore, Entries;
    NoEntries(body);
    InputsBeforeGrows(body.transactions, n, |body.transactions|);
    if n > 0 {
      var j, k := InputsBefore(body.transactions, n - 1), InputsBefore(body.transactions, n);
      EntriesSplit(body, n - 1);
      SliceIs(body, n - 1);
      EntriesMore(body, n - 1);
      AuthorizationsMore(Entries(body)[..n - 1], AuthorizedTransaction(body.transactions[n - 1], Slice(body, n - 1)));
      assert body.authorizations[..j] + body.authorizations[j..k] == body.authorizations[..k];
    }
  }

  lemma {:induction false} OwnersAre(txs: seq<Transaction>, n: nat)
    requires n <= |txs|
    ensures |InputOwners(txs[..n])| == InputsBefore(txs, n)
    decreases n
  {
    if n > 0 {
      OwnersAre(txs, n - 1);
      assert txs[..n][..n - 1] == txs[..n - 1];
    }
  }

  lemma SameEnds<T>(a: seq<T>, x: seq<T>, b: seq<T>, y: seq<T>)
    requires a + x == b + y && |x| == |y|
    ensures a == b && x == y
  {
    assert a == (a + x)[..|a|] && b == (b + y)[..|b|] && x == (a + x)[|a|..] && y == (b + y)[|b|..];
  }

  /** Two lists with one transaction list and matching counts are split alike. */
  lemma {:induction false} SplitUnique(a: seq<AuthorizedTransaction>, b: seq<AuthorizedTransaction>)
    requires Transactions(a) == Transactions(b) && Counted(a) && Counted(b) && Authorizations(a) == Authorizations(b)
    ensures a == b
    decreases |a|
  {
    assert |a| == |Transactions(a)| == |b|;
    if a != [] {
      var n := |a| - 1;
      assert Transactions(a)[n] == Transactions(b)[n];
      SameEnds(Authorizations(a[..n]), a[n].authorizations, Authorizations(b[..n]), b[n].authorizations);
      forall i | 0 <= i < n ensures Transactions(a[..n])[i] == Transactions(b[..n])[i] {
        assert Transactions(a)[i] == Transactions(b)[i];
      }
      SplitUnique(a[..n], b[..n]);
      assert a == a[..n] + [a[n]] && b == b[..n] + [b[n]];
    }
  }

  lemma {:induction false} OwnersCount(ats: seq<AuthorizedTransaction>)
    requires Counted(ats)
    ensures |InputOwners(Transactions(ats))| == |Authorizations(ats)|
    decreases |ats|
  {
    if ats != [] {
      var n := |ats| - 1;
      assert Transactions(ats)[..n] == Transactions(ats[..n]);
      OwnersCount(ats[..n]);
    }
  }

  /** Building a body and taking it apart gives the transactions back, exactly
    * when each had one authorization per input. */
  method RoundTrip(ats: seq<AuthorizedTransaction>, coinbase: seq<Output>) returns (back: seq<AuthorizedTransaction>)
    requires |Authorizations(ats)| >= |InputOwners(Transactions(ats))|
    ensures back == ats <==> Counted(ats)
  {
    var body := NewBody(ats, coinbase);
    back := AuthorizedTransactions(body);
    if Counted(ats) {
      OwnersCount(ats);
      assert Authorizations(ats)[..|Authorizations(ats)|] == Authorizations(ats);
      SplitUnique(ats, back);
    }
  }

  /** A body whose transactions are each signed passes the check of the whole. */
  lemma {:induction false} SignedBody(cr: Crypto, ats: seq<AuthorizedTransaction>, coinbase: seq<Output>)
    requires Counted(ats)
    ensures Authorized(cr, Body(coinbase, Transactions(ats), Authorizations(ats))) <==>
            forall i :: 0 <= i < |ats| ==> Signed(cr, ats[i])
    decreases |ats|
  {
    if ats != [] {
      var n := |ats| - 1;
      assert Transactions(ats)[..n] == Transactions(ats[..n]);
      OwnersCount(ats[..n]);
      assert Counted(ats[..n]);
      SignedBody(cr, ats[..n], coinbase);
      AuthorizedStep(cr, ats, coinbase);
      assert forall i :: 0 <= i < n ==> ats[..n][i] == ats[i];
    }
  }

  /** Aligned lists of authorizations and of the transactions they sign. */
  predicate AllVerify(cr: Crypto, auths: seq<Authorization>, txs: seq<Transaction>) {
    && |auths| == |txs|
    && forall k :: 0 <= k < |txs| ==> cr.verify(auths[k], txs[k])
  }

  lemma AllVerifyConcat(cr: Crypto, a: seq<Authorization>, s: seq<Transaction>, b: seq<Authorization>, t: seq<Transaction>)
    requires |a| == |s| && |b| == |t|
    ensures AllVerify(cr, a + b, s + t) <==> AllVerify(cr, a, s) && AllVerify(cr, b, t)
  {
    if AllVerify(cr, a + b, s + t) {
      forall k | 0 <= k < |s| ensures cr.verify(a[k], s[k]) { assert cr.verify((a + b)[k], (s + t)[k]); }
      forall k | 0 <= k < |t| ensures cr.verify(b[k], t[k]) { assert cr.verify((a + b)[|a| + k], (s + t)[|s| + k]); }
    }
  }

  lemma AuthorizedStep(cr: Crypto, ats: seq<AuthorizedTransaction>, coinbase: seq<Output>)
    requires Counted(ats) && ats != []
    requires var n := |ats| - 1; |InputOwners(Transactions(ats[..n]))| == |Authorizations(ats[..n])|
    ensures Authorized(cr, Body(coinbase, Transactions(ats), Authorizations(ats))) <==>
            Authorized(cr, Body(coinbase, Transactions(ats[..|ats| - 1]), Authorizations(ats[..|ats| - 1]))) &&
            Signed(cr, ats[|ats| - 1])
  {
    hide AllVerify;
    var n := |ats| - 1;
    var at := ats[n];
    assert Transactions(ats)[..n] == Transactions(ats[..n]);
    var own := seq(|at.tx.inputs|, _ => at.tx);
    AllVerifyConcat(cr, Authorizations(ats[..n]), InputOwners(Transactions(ats[..n])), at.authorizations, own);
    AuthorizedIs(cr, Body(coinbase, Transactions(ats), Authorizations(ats)));
    AuthorizedIs(cr, Body(coinbase, Transactions(ats[..n]), Authorizations(ats[..n])));
    SignedIs(cr, at, own);
  }

  lemma AuthorizedIs(cr: Crypto, body: Body)
    ensures Authorized(cr, body) <==> AllVerify(cr, body.authorizations, InputOwners(body.transactions))
  {
  }

  lemma SignedIs(cr: Crypto, at: AuthorizedTransaction, own: seq<Transaction>)
    requires own == seq(|at.tx.inputs|, _ => at.tx)
    ensures Signed(cr, at) <==> AllVerify(cr, at.authorizations, own)
  {
  }
}
