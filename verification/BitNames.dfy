/** BitName records with per-field histories, and the three BitName tables. */
module BitNames {
  import opened Wrappers
  import opened Types
  import opened Filling

  // ----- rollback histories -----

  datatype Stamped<T> = Stamped(data: T, txid: Txid, height: nat)

  /** Values of one field, oldest first; never empty in a stored record. */
  type History = seq<Stamped<Option<nat>>>

  /** The newest value whose height is at most `height`. */
  function AtHeight(s: History, height: nat): Option<Stamped<Option<nat>>> {
    if s == [] then None
    else if s[|s| - 1].height <= height then Some(s[|s| - 1])
    else AtHeight(s[..|s| - 1], height)
  }

  function ApplyField(s: History, u: Update<nat>, txid: Txid, height: nat): History {
    match u
    case Delete => s + [Stamped(None, txid, height)]
    case Retain => s
    case Set(v) => s + [Stamped(Some(v), txid, height)]
  }

  /** Pops the value that `u` pushed; None where the node's assertions fail.
    * The first value of a history is never popped. */
  function RevertField(s: History, u: Update<nat>, txid: Txid, height: nat): Option<History> {
    match u
    case Retain => Some(s)
    case Delete =>
      if |s| >= 2 && s[|s| - 1] == Stamped(None, txid, height) then Some(s[..|s| - 1]) else None
    case Set(v) =>
      if |s| >= 2 && s[|s| - 1] == Stamped(Some(v), txid, height) then Some(s[..|s| - 1]) else None
  }

  // ----- records -----

  datatype Record = Record(
    seqId: nat,
    commitment: History,
    socketV4: History,
    socketV6: History,
    encryptionKey: History,
    signingKey: History,
    paymailFee: History)

  /** A record as readers see it. */
  datatype RecordView = RecordView(seqId: nat, data: MutableData)

  function Init(d: MutableData, txid: Txid, height: nat, seqId: nat): Record {
    Record(seqId,
           [Stamped(d.commitment, txid, height)],
           [Stamped(d.socketV4, txid, height)],
           [Stamped(d.socketV6, txid, height)],
           [Stamped(d.encryptionKey, txid, height)],
           [Stamped(d.signingKey, txid, height)],
           [Stamped(d.paymailFee, txid, height)])
  }

  function ApplyRecord(r: Record, u: DataUpdates, txid: Txid, height: nat): Record {
    Record(r.seqId,
           ApplyField(r.commitment, u.commitment, txid, height),
           ApplyField(r.socketV4, u.socketV4, txid, height),
           ApplyField(r.socketV6, u.socketV6, txid, height),
           ApplyField(r.encryptionKey, u.encryptionKey, txid, height),
           ApplyField(r.signingKey, u.signingKey, txid, height),
           ApplyField(r.paymailFee, u.paymailFee, txid, height))
  }

  function RevertRecord(r: Record, u: DataUpdates, txid: Txid, height: nat): Option<Record> {
    var paymailFee :- RevertField(r.paymailFee, u.paymailFee, txid, height);
    var signingKey :- RevertField(r.signingKey, u.signingKey, txid, height);
    var encryptionKey :- RevertField(r.encryptionKey, u.encryptionKey, txid, height);
    var socketV4 :- RevertField(r.socketV4, u.socketV4, txid, height);
    var socketV6 :- RevertField(r.socketV6, u.socketV6, txid, height);
    var commitment :- RevertField(r.commitment, u.commitment, txid, height);
    Some(Record(r.seqId, commitment, socketV4, socketV6, encryptionKey, signingKey, paymailFee))
  }

  /** Every history is non-empty and stamped at heights up to `height`. */
  ghost predicate StampedUpTo(r: Record, height: nat) {
    && HistoryUpTo(r.commitment, height) && HistoryUpTo(r.socketV4, height)
    && HistoryUpTo(r.socketV6, height) && HistoryUpTo(r.encryptionKey, height)
    && HistoryUpTo(r.signingKey, height) && HistoryUpTo(r.paymailFee, height)
  }

  ghost predicate HistoryUpTo(s: History, height: nat) {
    s != [] && forall i :: 0 <= i < |s| ==> s[i].height <= height
  }

  ghost predicate HasHistory(r: Record) {
    && r.commitment != [] && r.socketV4 != [] && r.socketV6 != []
    && r.encryptionKey != [] && r.signingKey != [] && r.paymailFee != []
  }

  function AtBlockHeight(r: Record, height: nat): Option<RecordView> {
    var commitment :- AtHeight(r.commitment, height);
    var socketV4 :- AtHeight(r.socketV4, height);
    var socketV6 :- AtHeight(r.socketV6, height);
    var encryptionKey :- AtHeight(r.encryptionKey, height);
    var signingKey :- AtHeight(r.signingKey, height);
    var paymailFee :- AtHeight(r.paymailFee, height);
    Some(RecordView(r.seqId, MutableData(commitment.data, socketV4.data, socketV6.data,
                                         encryptionKey.data, signingKey.data, paymailFee.data)))
  }

  function Current(r: Record): RecordView
    requires HasHistory(r)
  {
    RecordView(r.seqId, MutableData(
                 r.commitment[|r.commitment| - 1].data,
                 r.socketV4[|r.socketV4| - 1].data,
                 r.socketV6[|r.socketV6| - 1].data,
                 r.encryptionKey[|r.encryptionKey| - 1].data,
                 r.signingKey[|r.signingKey| - 1].data,
                 r.paymailFee[|r.paymailFee| - 1].data))
  }

  lemma RevertRecordUndoesApply(r: Record, u: DataUpdates, txid: Txid, height: nat)
    requires HasHistory(r)
    ensures RevertRecord(ApplyRecord(r, u, txid, height), u, txid, height) == Some(r)
  {
    FieldUndo(r.commitment, u.commitment, txid, height);
    FieldUndo(r.socketV4, u.socketV4, txid, height);
    FieldUndo(r.socketV6, u.socketV6, txid, height);
    FieldUndo(r.encryptionKey, u.encryptionKey, txid, height);
    FieldUndo(r.signingKey, u.signingKey, txid, height);
    FieldUndo(r.paymailFee, u.paymailFee, txid, height);
  }

  lemma FieldUndo(s: History, u: Update<nat>, txid: Txid, height: nat)
    requires s != []
    ensures RevertField(ApplyField(s, u, txid, height), u, txid, height) == Some(s)
  {
    assert ApplyField(s, u, txid, height)[..|s|] == s;
  }

  /** An update at height `height` is invisible to lookups below `height`. */
  lemma UpdateKeepsPast(r: Record, u: DataUpdates, txid: Txid, height: nat, h: nat)
    requires h < height
    ensures AtBlockHeight(ApplyRecord(r, u, txid, height), h) == AtBlockHeight(r, h)
  {
    FieldKeepsPast(r.commitment, u.commitment, txid, height, h);
    FieldKeepsPast(r.socketV4, u.socketV4, txid, height, h);
    FieldKeepsPast(r.socketV6, u.socketV6, txid, height, h);
    FieldKeepsPast(r.encryptionKey, u.encryptionKey, txid, height, h);
    FieldKeepsPast(r.signingKey, u.signingKey, txid, height, h);
    FieldKeepsPast(r.paymailFee, u.paymailFee, txid, height, h);
  }

  lemma FieldKeepsPast(s: History, u: Update<nat>, txid: Txid, height: nat, h: nat)
    requires h < height
    ensures AtHeight(ApplyField(s, u, txid, height), h) == AtHeight(s, h)
  {
    assert ApplyField(s, u, txid, height)[..|s|] == s;
  }

  // ----- what a reader sees -----

  /** A field after an update of it. */
  function Updated(v: Option<nat>, u: Update<nat>): Option<nat> {
    match u
    case Delete => None
    case Retain => v
    case Set(n) => Some(n)
  }

  function UpdatedData(d: MutableData, u: DataUpdates): MutableData {
    MutableData(Updated(d.commitment, u.commitment),
                Updated(d.socketV4, u.socketV4),
                Updated(d.socketV6, u.socketV6),
                Updated(d.encryptionKey, u.encryptionKey),
                Updated(d.signingKey, u.signingKey),
                Updated(d.paymailFee, u.paymailFee))
  }

  /** After an update, readers see each field as its own update leaves it: gone if it
    * deletes, the new value if it sets, the old one if it retains. */
  lemma ViewAfterUpdate(r: Record, u: DataUpdates, txid: Txid, height: nat)
    requires HasHistory(r)
    ensures HasHistory(ApplyRecord(r, u, txid, height))
    ensures Current(ApplyRecord(r, u, txid, height)) == RecordView(r.seqId, UpdatedData(Current(r).data, u))
  {
  }

  /** Readers see a new name with the data that its registration gives. */
  lemma ViewOfNew(d: MutableData, txid: Txid, height: nat, seqId: nat)
    ensures HasHistory(Init(d, txid, height, seqId))
    ensures Current(Init(d, txid, height, seqId)) == RecordView(seqId, d)
  {
  }

  // ----- tables -----

  datatype BitNameError =
    | MissingName(name: NameHash)
    | MissingReservation(txid: Txid)
    | NoNamesToUpdate
    | NoReservationForRegistration(name: NameHash)
    | AssertionFailed

  datatype Tables = Tables(
    records: map<NameHash, Record>,
    reservations: map<Txid, Hash>,
    seqs: map<nat, NameHash>)

  lemma {:induction false} MaxExists(s: set<nat>)
    requires s != {}
    ensures exists m :: m in s && forall k :: k in s ==> k <= m
  {
    var x :| x in s;
    var rest := s - {x};
    if rest == {} {
      assert s == {x};
    } else {
      MaxExists(rest);
      var m :| m in rest && forall k :: k in rest ==> k <= m;
      var top := if x <= m then m else x;
      assert forall k :: k in s ==> k == x || k in rest;
      assert top in s && forall k :: k in s ==> k <= top;
    }
  }

  /** The largest sequence number in use. */
  function LastSeq(seqs: map<nat, NameHash>): Option<nat> {
    if seqs.Keys == {} then None
    else
      MaxExists(seqs.Keys);
      var m :| m in seqs.Keys && forall k :: k in seqs.Keys ==> k <= m;
      Some(m)
  }

  function NextSeq(seqs: map<nat, NameHash>): nat {
    match LastSeq(seqs)
    case Some(m) => m + 1
    case None => 0
  }

  /** The BitName that an update changes: the last one spent. */
  function UpdatedName(f: FilledTransaction): Option<NameHash> {
    var names := Names(f.spent);
    if names == [] then None else Some(names[|names| - 1])
  }

  function ApplyRegistration(t: Tables, f: FilledTransaction, name: NameHash, d: MutableData, height: nat)
    : Result<Tables, BitNameError>
  {
    match Burned(f)
    case None => Err(NoReservationForRegistration(name))
    case Some(burned) =>
      if burned !in t.reservations then Err(MissingReservation(burned)) else
      var seqId := NextSeq(t.seqs);
      Ok(Tables(t.records[name := Init(d, f.tx.txid, height, seqId)],
                t.reservations - {burned},
                t.seqs[seqId := name]))
  }

  function RevertRegistration(t: Tables, f: FilledTransaction, name: NameHash, implied: Hash)
    : Result<Tables, BitNameError>
  {
    if name !in t.records then Err(MissingName(name)) else
    var seqId := t.records[name].seqId;
    var last := LastSeq(t.seqs);
    if last.None? || t.seqs[last.value] != name then Err(AssertionFailed)
    else if seqId !in t.seqs then Err(MissingName(name))
    else match Burned(f)
         case None => Err(AssertionFailed)
         case Some(burned) =>
           Ok(Tables(t.records - {name}, t.reservations[burned := implied], t.seqs - {seqId}))
  }

  function ApplyUpdates(t: Tables, f: FilledTransaction, u: DataUpdates, height: nat): Result<Tables, BitNameError> {
    match UpdatedName(f)
    case None => Err(NoNamesToUpdate)
    case Some(name) =>
      if name !in t.records then Err(MissingName(name))
      else Ok(t.(records := t.records[name := ApplyRecord(t.records[name], u, f.tx.txid, height)]))
  }

  function RevertUpdates(t: Tables, f: FilledTransaction, u: DataUpdates, height: nat): Result<Tables, BitNameError> {
    match UpdatedName(f)
    case None => Err(NoNamesToUpdate)
    case Some(name) =>
      if name !in t.records then Err(MissingName(name))
      else match RevertRecord(t.records[name], u, f.tx.txid, height)
           case None => Err(AssertionFailed)
           case Some(r) => Ok(t.(records := t.records[name := r]))
  }

  /** The effect of a transaction's data on the tables. */
  function ApplyData(t: Tables, f: FilledTransaction, height: nat): Result<Tables, BitNameError> {
    match f.tx.data
    case None => Ok(t)
    case Some(Reservation(commitment)) => Ok(t.(reservations := t.reservations[f.tx.txid := commitment]))
    case Some(Registration(name, _, d)) => ApplyRegistration(t, f, name, d, height)
    case Some(DataUpdate(u)) => ApplyUpdates(t, f, u, height)
  }

  function RevertData(t: Tables, f: FilledTransaction, height: nat): Result<Tables, BitNameError> {
    match f.tx.data
    case None => Ok(t)
    case Some(Reservation(_)) =>
      if f.tx.txid !in t.reservations then Err(MissingReservation(f.tx.txid))
      else Ok(t.(reservations := t.reservations - {f.tx.txid}))
    case Some(Registration(name, implied, _)) => RevertRegistration(t, f, name, implied)
    case Some(DataUpdate(u)) => RevertUpdates(t, f, u, height)
  }

  // ----- invariants -----

  /** Sequence numbers are 0..n-1, and map one-to-one to the registered names. */
  ghost predicate SeqsDense(t: Tables) {
    && (forall i :: i in t.seqs <==> 0 <= i < |t.seqs|)
    && (forall i :: i in t.seqs ==> t.seqs[i] in t.records && t.records[t.seqs[i]].seqId == i)
    && (forall x :: x in t.records ==> t.records[x].seqId in t.seqs && t.seqs[t.records[x].seqId] == x)
  }

  ghost predicate RecordsUpTo(t: Tables, height: nat) {
    forall x :: x in t.records ==> StampedUpTo(t.records[x], height)
  }

  lemma LastSeqDense(t: Tables)
    requires SeqsDense(t)
    ensures LastSeq(t.seqs) == (if |t.seqs| == 0 then None else Some(|t.seqs| - 1))
    ensures NextSeq(t.seqs) == |t.seqs|
  {
    assert |t.seqs| == |t.seqs.Keys|;
    if |t.seqs| == 0 {
      assert t.seqs.Keys == {};
    } else {
      assert |t.seqs| - 1 in t.seqs;
    }
  }

  /** The name whose record a transaction's data sets or updates. */
  function TouchedName(f: FilledTransaction): Option<NameHash> {
    match f.tx.data
    case Some(Registration(name, _, _)) => Some(name)
    case Some(DataUpdate(_)) => UpdatedName(f)
    case _ => None
  }

  /** What a transaction's data changes in the tables: at most one record, one row of
    * reservations and one sequence number. */
  lemma ApplyDataEffect(t: Tables, f: FilledTransaction, height: nat)
    requires ApplyData(t, f, height).Ok?
    ensures var t' := ApplyData(t, f, height).value;
            && t'.records.Keys == t.records.Keys +
               (if f.tx.data.Some? && f.tx.data.value.Registration? then {f.tx.data.value.name} else {})
            && (forall x :: x in t.records && TouchedName(f) != Some(x) ==> t'.records[x] == t.records[x])
            && t'.seqs ==
               (if f.tx.data.Some? && f.tx.data.value.Registration? then t.seqs[NextSeq(t.seqs) := f.tx.data.value.name]
                else t.seqs)
            && (f.tx.data.Some? && f.tx.data.value.Registration? ==>
                  Burned(f).Some? && Burned(f).value in t.reservations)
            && t'.reservations ==
               (if f.tx.data.Some? && f.tx.data.value.Reservation? then
                  t.reservations[f.tx.txid := f.tx.data.value.commitment]
                else if f.tx.data.Some? && f.tx.data.value.Registration? then t.reservations - {Burned(f).value}
                else t.reservations)
  {
    hide Claims, Names, ApplyRecord, Init;
  }

  lemma ApplyDataKeepsHistory(t: Tables, f: FilledTransaction, height: nat)
    requires ApplyData(t, f, height).Ok?
    requires forall x :: x in t.records ==> HasHistory(t.records[x])
    ensures forall x :: x in ApplyData(t, f, height).value.records ==>
                          HasHistory(ApplyData(t, f, height).value.records[x])
  {
    hide Claims, Names;
  }

  /** What a transaction's data must not collide with for its effect to be undone. */
  ghost predicate DataFresh(t: Tables, tx: Transaction) {
    && (tx.data.Some? && tx.data.value.Reservation? ==> tx.txid !in t.reservations)
    && (tx.data.Some? && tx.data.value.Registration? ==> tx.data.value.name !in t.records)
  }

  /** The reservation that a registration burns carries the revealed commitment. */
  ghost predicate BurnAgrees(t: Tables, f: FilledTransaction) {
    Burned(f).Some? && Burned(f).value in t.reservations ==>
      f.tx.data.Some? && f.tx.data.value.Registration? && t.reservations[Burned(f).value] == f.tx.data.value.implied
  }

  lemma AppendKeepsNumbers(t: Tables, seqs: map<nat, NameHash>, name: NameHash)
    requires SeqsDense(t) && seqs == t.seqs[|t.seqs| := name]
    ensures |seqs| == |t.seqs| + 1 && forall i :: i in seqs <==> 0 <= i < |seqs|
  {
    var n := |t.seqs|;
    assert n !in t.seqs;
    assert seqs.Keys == t.seqs.Keys + {n};
    assert |seqs| == |seqs.Keys| == |t.seqs.Keys| + 1 == n + 1;
    assert forall i :: i in seqs <==> i in t.seqs || i == n;
  }

  lemma AppendKeepsDense(t: Tables, t': Tables, name: NameHash, r: Record)
    requires SeqsDense(t) && name !in t.records && r.seqId == |t.seqs|
    requires t'.records == t.records[name := r] && t'.seqs == t.seqs[|t.seqs| := name]
    ensures SeqsDense(t') && |t'.seqs| == |t.seqs| + 1
  {
    var n := |t.seqs|;
    AppendKeepsNumbers(t, t'.seqs, name);
    forall i | i in t'.seqs
      ensures t'.seqs[i] in t'.records && t'.records[t'.seqs[i]].seqId == i
    {
      if i == n { assert t'.seqs[i] == name; } else { assert t'.seqs[i] == t.seqs[i]; assert t.seqs[i] in t.records; }
    }
    forall x | x in t'.records
      ensures t'.records[x].seqId in t'.seqs && t'.seqs[t'.records[x].seqId] == x
    {
      if x == name { assert t'.records[x] == r; } else { assert t'.records[x] == t.records[x]; assert t.records[x].seqId in t.seqs; }
    }
  }

  lemma RegistrationKeepsDense(t: Tables, f: FilledTransaction, name: NameHash, d: MutableData, height: nat)
    requires SeqsDense(t) && name !in t.records
    requires ApplyRegistration(t, f, name, d, height).Ok?
    ensures var t' := ApplyRegistration(t, f, name, d, height).value;
            && SeqsDense(t') && |t'.seqs| == |t.seqs| + 1
            && t'.seqs == t.seqs[|t.seqs| := name] && t'.records[name].seqId == |t.seqs|
  {
    LastSeqDense(t);
    AppendKeepsDense(t, ApplyRegistration(t, f, name, d, height).value, name,
                     Init(d, f.tx.txid, height, |t.seqs|));
  }

  lemma ApplyDataKeepsDense(t: Tables, f: FilledTransaction, height: nat)
    requires SeqsDense(t)
    requires f.tx.data.Some? && f.tx.data.value.Registration? ==> f.tx.data.value.name !in t.records
    requires ApplyData(t, f, height).Ok?
    ensures SeqsDense(ApplyData(t, f, height).value)
  {
    match f.tx.data
    case Some(Registration(name, _, d)) => RegistrationKeepsDense(t, f, name, d, height);
    case Some(DataUpdate(u)) =>
      var t' := ApplyUpdates(t, f, u, height).value;
      assert forall x :: x in t.records <==> x in t'.records;
      assert forall x :: x in t.records ==> t'.records[x].seqId == t.records[x].seqId;
    case _ =>
  }

  lemma FieldKeepsUpTo(s: History, u: Update<nat>, txid: Txid, height: nat)
    requires HistoryUpTo(s, height)
    ensures HistoryUpTo(ApplyField(s, u, txid, height), height)
  {
  }

  lemma ApplyRecordKeepsUpTo(r: Record, u: DataUpdates, txid: Txid, height: nat)
    requires StampedUpTo(r, height)
    ensures StampedUpTo(ApplyRecord(r, u, txid, height), height)
  {
    FieldKeepsUpTo(r.commitment, u.commitment, txid, height);
    FieldKeepsUpTo(r.socketV4, u.socketV4, txid, height);
    FieldKeepsUpTo(r.socketV6, u.socketV6, txid, height);
    FieldKeepsUpTo(r.encryptionKey, u.encryptionKey, txid, height);
    FieldKeepsUpTo(r.signingKey, u.signingKey, txid, height);
    FieldKeepsUpTo(r.paymailFee, u.paymailFee, txid, height);
  }

  lemma ApplyDataKeepsStamps(t: Tables, f: FilledTransaction, height: nat)
    requires RecordsUpTo(t, height)
    requires ApplyData(t, f, height).Ok?
    ensures RecordsUpTo(ApplyData(t, f, height).value, height)
  {
    var t' := ApplyData(t, f, height).value;
    forall x | x in t'.records ensures StampedUpTo(t'.records[x], height) {
      match f.tx.data
      case Some(Registration(name, _, d)) =>
        if x == name { assert StampedUpTo(Init(d, f.tx.txid, height, NextSeq(t.seqs)), height); }
      case Some(DataUpdate(u)) =>
        ApplyRecordKeepsUpTo(t.records[x], u, f.tx.txid, height);
      case _ =>
    }
  }

  lemma RevertRegistrationUndoesApply(t: Tables, f: FilledTransaction, name: NameHash, implied: Hash,
                                      d: MutableData, height: nat)
    requires f.tx.data == Some(Registration(name, implied, d))
    requires SeqsDense(t) && name !in t.records && BurnAgrees(t, f)
    requires ApplyRegistration(t, f, name, d, height).Ok?
    ensures RevertRegistration(ApplyRegistration(t, f, name, d, height).value, f, name, implied) == Ok(t)
  {
    hide Burned, Init, SeqsDense;
    FreshSeq(t);
    var t' := ApplyRegistration(t, f, name, d, height).value;
    RegistrationKeepsDense(t, f, name, d, height);
    LastSeqDense(t');
    assert t'.records - {name} == t.records;
    assert t'.reservations[Burned(f).value := implied] == t.reservations;
    assert t'.seqs - {|t.seqs|} == t.seqs;
  }

  lemma FreshSeq(t: Tables)
    requires SeqsDense(t)
    ensures |t.seqs| !in t.seqs
  {
  }

  /** Reverting a transaction's data restores all three tables exactly. */
  lemma RevertDataUndoesApply(t: Tables, f: FilledTransaction, height: nat)
    requires SeqsDense(t) && DataFresh(t, f.tx) && BurnAgrees(t, f)
    requires forall x :: x in t.records ==> HasHistory(t.records[x])
    requires ApplyData(t, f, height).Ok?
    ensures RevertData(ApplyData(t, f, height).value, f, height) == Ok(t)
  {
    match f.tx.data
    case None =>
    case Some(Reservation(c)) =>
      assert t.reservations[f.tx.txid := c] - {f.tx.txid} == t.reservations;
    case Some(Registration(name, implied, d)) =>
      RevertRegistrationUndoesApply(t, f, name, implied, d, height);
    case Some(DataUpdate(u)) =>
      var name := UpdatedName(f).value;
      var r := t.records[name];
      assert HasHistory(r);
      RevertRecordUndoesApply(r, u, f.tx.txid, height);
      assert t.records[name := ApplyRecord(r, u, f.tx.txid, height)][name := r] == t.records;
  }
}
