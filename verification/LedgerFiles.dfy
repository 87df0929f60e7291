/**
 The ledger file, field by field: which files load and as which ledger, for both versions.
 */
module LedgerFiles {
  import opened Basics
  import opened LedgerFormat

  // -- Rows -------------------------------------------------------------------------------------------------

  predicate OwnerRow(j: Json, o: Owner) {
    && j == JObj(map["token" := JStr(o.token), "pid" := JInt(o.pid), "operation" := JStr(o.operation),
                     "created_at" := JStr(o.createdAt)])
    && o.token != "" && o.pid > 0 && o.operation != "" && o.createdAt != ""
  }

  /** An integer or a finite float; not a truth value. */
  predicate Time(j: Json, t: real) {
    j == JFloat(t) || (j.JInt? && j.i as real == t)
  }

  predicate IntentRow(j: Json, t: Intent) {
    && j.JObj? && "deadline_at" in j.fields && Time(j.fields["deadline_at"], t.deadlineAt)
    && j == JObj(map["pid" := JInt(t.pid), "sequence" := JInt(t.sequence), "created_at" := JStr(t.createdAt),
                     "deadline_at" := j.fields["deadline_at"]])
    && t.pid > 0 && t.sequence >= 1 && t.createdAt != ""
  }

  /** In version 1 there is no deadline. */
  predicate LegacyRow(j: Json, t: Intent) {
    && j == JObj(map["pid" := JInt(t.pid), "sequence" := JInt(t.sequence), "created_at" := JStr(t.createdAt)])
    && t.pid > 0 && t.sequence >= 1 && t.createdAt != ""
  }

  predicate ReservationRow(j: Json, r: Reservation) {
    && j == JObj(map["job_id" := JStr(r.jobId), "manifest_path" := JStr(r.manifestPath)])
    && r.jobId != "" && r.manifestPath != ""
  }

  lemma OwnersAreRead(j: Json, o: Owner)
    ensures DecodeOwner(j) == Some(o) <==> OwnerRow(j, o)
  {
    if DecodeOwner(j) == Some(o) {
      assert j.fields == map["token" := JStr(o.token), "pid" := JInt(o.pid), "operation" := JStr(o.operation),
                             "created_at" := JStr(o.createdAt)];
    }
  }

  lemma IntentsAreRead(j: Json, t: Intent)
    ensures DecodeIntent(j, false) == Some(t) <==> IntentRow(j, t)
  {
    if DecodeIntent(j, false) == Some(t) {
      assert j.fields == map["pid" := JInt(t.pid), "sequence" := JInt(t.sequence), "created_at" := JStr(t.createdAt),
                             "deadline_at" := j.fields["deadline_at"]];
    }
  }

  lemma LegacyIntentsAreRead(j: Json, t: Intent)
    ensures DecodeIntent(j, true).Some? && DecodeIntent(j, true).value.(deadlineAt := t.deadlineAt) == t
            <==> LegacyRow(j, t)
  {
    if DecodeIntent(j, true).Some? && DecodeIntent(j, true).value.(deadlineAt := t.deadlineAt) == t {
      assert j.fields == map["pid" := JInt(t.pid), "sequence" := JInt(t.sequence), "created_at" := JStr(t.createdAt)];
    }
  }

  lemma ReservationsAreRead(j: Json, r: Reservation)
    ensures DecodeReservation(j) == Some(r) <==> ReservationRow(j, r)
  {
    if DecodeReservation(j) == Some(r) {
      assert j.fields == map["job_id" := JStr(r.jobId), "manifest_path" := JStr(r.manifestPath)];
    }
  }

  // -- Files ------------------------------------------------------------------------------------------------

  predicate RootKeys(j: Json) {
    && j.JObj?
    && j.fields.Keys == {"version", "next_sequence", "metadata_owners", "launch_intents", "job_reservations"}
    && j.fields["metadata_owners"].JList? && j.fields["launch_intents"].JList? && j.fields["job_reservations"].JList?
  }

  function Rows(j: Json, key: string): seq<Json>
    requires RootKeys(j) && key in {"metadata_owners", "launch_intents", "job_reservations"}
  {
    j.fields[key].items
  }

  /** No token, sequence or job id occurs twice, and the next sequence is above every queued one. */
  predicate Consistent(l: Ledger) {
    && (forall i, k :: 0 <= i < |l.owners| && 0 <= k < |l.owners| && i != k ==> l.owners[i].token != l.owners[k].token)
    && (forall i, k :: 0 <= i < |l.intents| && 0 <= k < |l.intents| && i != k ==>
          l.intents[i].sequence != l.intents[k].sequence)
    && (forall i, k :: 0 <= i < |l.reservations| && 0 <= k < |l.reservations| && i != k ==>
          l.reservations[i].jobId != l.reservations[k].jobId)
    && l.nextSequence >= 1 && (forall k :: 0 <= k < |l.intents| ==> l.intents[k].sequence < l.nextSequence)
  }

  /** The file holds the rows of the ledger, in order; `legacy` for version 1. */
  predicate Holds(j: Json, l: Ledger, legacy: bool) {
    HoldsRows(j, l, legacy) && Consistent(l)
  }

  predicate HoldsRows(j: Json, l: Ledger, legacy: bool) {
    && RootKeys(j) && j.fields["next_sequence"] == JInt(l.nextSequence)
    && |Rows(j, "metadata_owners")| == |l.owners|
    && (forall k :: 0 <= k < |l.owners| ==> OwnerRow(Rows(j, "metadata_owners")[k], l.owners[k]))
    && |Rows(j, "launch_intents")| == |l.intents|
    && (forall k :: 0 <= k < |l.intents| ==>
          if legacy then LegacyRow(Rows(j, "launch_intents")[k], l.intents[k])
          else IntentRow(Rows(j, "launch_intents")[k], l.intents[k]))
    && |Rows(j, "job_reservations")| == |l.reservations|
    && (forall k :: 0 <= k < |l.reservations| ==> ReservationRow(Rows(j, "job_reservations")[k], l.reservations[k]))
  }

  /** Python takes True for 1 and 2.0 for 2. */
  predicate IsVersion(j: Json, n: int) {
    j == JInt(n) || j == JFloat(n as real) || (n == 1 && j == JBool(true)) || (n == 0 && j == JBool(false))
  }

  lemma VersionsAreCompared(j: Json, n: int)
    ensures EqualsInt(j, n) <==> IsVersion(j, n)
  {
  }

  lemma {:induction false} DecodesEach<T>(items: seq<Json>, decode: Json -> Option<T>, values: seq<T>)
    ensures DecodeAll(items, decode) == Some(values) <==>
            |items| == |values| && forall k :: 0 <= k < |items| ==> decode(items[k]) == Some(values[k])
  {
    var r := DecodeAll(items, decode);
    if |items| == |values| && forall k :: 0 <= k < |items| ==> decode(items[k]) == Some(values[k]) {
      assert forall k :: 0 <= k < |items| ==> r.value[k] == values[k];
      assert r.value == values;
    }
  }

  /** A version 2 file loads as exactly the ledger it holds, every other one is refused. */
  lemma FilesAreRead(j: Json, l: Ledger)
    ensures DecodeVersion(j, 2, false) == Some(l) <==>
            Holds(j, l, false) && IsVersion(j.fields["version"], 2)
  {
    if RootKeys(j) {
      VersionsAreCompared(j.fields["version"], 2);
      ListsAreRead(j, l);
      ConsistentIsValid(l);
    }
  }

  lemma ConsistentIsValid(l: Ledger)
    ensures Consistent(l) <==>
            && DistinctTokens(l.owners) && DistinctSequences(l.intents) && DistinctJobs(l.reservations)
            && l.nextSequence >= 1 && forall t <- l.intents :: t.sequence < l.nextSequence
  {
  }

  lemma ListsAreRead(j: Json, l: Ledger)
    requires RootKeys(j)
    ensures DecodeAll(Rows(j, "metadata_owners"), DecodeOwner) == Some(l.owners) <==>
            && |Rows(j, "metadata_owners")| == |l.owners|
            && forall k :: 0 <= k < |l.owners| ==> OwnerRow(Rows(j, "metadata_owners")[k], l.owners[k])
    ensures DecodeAll(Rows(j, "launch_intents"), IntentDecoder(false)) == Some(l.intents) <==>
            && |Rows(j, "launch_intents")| == |l.intents|
            && forall k :: 0 <= k < |l.intents| ==> IntentRow(Rows(j, "launch_intents")[k], l.intents[k])
    ensures DecodeAll(Rows(j, "job_reservations"), DecodeReservation) == Some(l.reservations) <==>
            && |Rows(j, "job_reservations")| == |l.reservations|
            && forall k :: 0 <= k < |l.reservations| ==>
                 ReservationRow(Rows(j, "job_reservations")[k], l.reservations[k])
  {
    DecodesEach(Rows(j, "metadata_owners"), DecodeOwner, l.owners);
    DecodesEach(Rows(j, "launch_intents"), IntentDecoder(false), l.intents);
    DecodesEach(Rows(j, "job_reservations"), DecodeReservation, l.reservations);
    forall x, o ensures DecodeOwner(x) == Some(o) <==> OwnerRow(x, o) { OwnersAreRead(x, o); }
    forall x, t ensures DecodeIntent(x, false) == Some(t) <==> IntentRow(x, t) { IntentsAreRead(x, t); }
    forall x, r ensures DecodeReservation(x) == Some(r) <==> ReservationRow(x, r) { ReservationsAreRead(x, r); }
  }

  // -- Both versions ------------------------------------------------------------------------------------------

  predicate SameButDeadlines(a: Ledger, l: Ledger) {
    && a == l.(intents := a.intents) && |a.intents| == |l.intents|
    && forall k :: 0 <= k < |l.intents| ==> a.intents[k].(deadlineAt := l.intents[k].deadlineAt) == l.intents[k]
  }

  lemma {:induction false} LegacyListIsRead(items: seq<Json>, intents: seq<Intent>)
    ensures var read := DecodeAll(items, IntentDecoder(true));
            (read.Some? && |read.value| == |intents|
             && forall k :: 0 <= k < |intents| ==>
                  read.value[k].(deadlineAt := intents[k].deadlineAt) == intents[k]) <==>
            |items| == |intents| && forall k :: 0 <= k < |intents| ==> LegacyRow(items[k], intents[k])
  {
    if |items| == |intents| {
      forall k | 0 <= k < |intents|
        ensures (DecodeIntent(items[k], true).Some?
                 && DecodeIntent(items[k], true).value.(deadlineAt := intents[k].deadlineAt) == intents[k])
                <==> LegacyRow(items[k], intents[k])
      {
        LegacyIntentsAreRead(items[k], intents[k]);
      }
      assert forall k :: 0 <= k < |items| ==> IntentDecoder(true)(items[k]) == DecodeIntent(items[k], true);
    }
  }

  /** The parts of a decoded file. */
  lemma DecodedParts(j: Json, version: int, legacy: bool, l: Ledger)
    requires RootKeys(j)
    ensures DecodeVersion(j, version, legacy) == Some(l) <==>
            && EqualsInt(j.fields["version"], version)
            && PositiveInt(j.fields["next_sequence"]) && j.fields["next_sequence"].i == l.nextSequence
            && DecodeAll(Rows(j, "metadata_owners"), DecodeOwner) == Some(l.owners)
            && DecodeAll(Rows(j, "launch_intents"), IntentDecoder(legacy)) == Some(l.intents)
            && DecodeAll(Rows(j, "job_reservations"), DecodeReservation) == Some(l.reservations)
            && DistinctTokens(l.owners) && DistinctSequences(l.intents) && DistinctJobs(l.reservations)
            && forall t <- l.intents :: t.sequence < l.nextSequence
  {
  }

  lemma LegacyConsistent(was: Ledger, l: Ledger)
    requires SameButDeadlines(was, l)
    ensures Consistent(was) <==> Consistent(l)
  {
    assert forall k :: 0 <= k < |l.intents| ==> was.intents[k].sequence == l.intents[k].sequence;
  }

  lemma LegacyRowsAreRead(j: Json, was: Ledger, l: Ledger)
    requires RootKeys(j) && SameButDeadlines(was, l)
    requires DecodeAll(Rows(j, "metadata_owners"), DecodeOwner) == Some(was.owners)
    requires DecodeAll(Rows(j, "launch_intents"), IntentDecoder(true)) == Some(was.intents)
    requires DecodeAll(Rows(j, "job_reservations"), DecodeReservation) == Some(was.reservations)
    requires j.fields["next_sequence"] == JInt(was.nextSequence)
    ensures HoldsRows(j, l, true)
  {
    ListsAreRead(j, l);
    LegacyListIsRead(Rows(j, "launch_intents"), l.intents);
  }

  lemma LegacyHolds(j: Json, l: Ledger, was: Ledger)
    requires DecodeVersion(j, 1, true) == Some(was) && SameButDeadlines(was, l)
    ensures Holds(j, l, true) && IsVersion(j.fields["version"], 1)
  {
    DecodedParts(j, 1, true, was);
    VersionsAreCompared(j.fields["version"], 1);
    LegacyRowsAreRead(j, was, l);
    ConsistentIsValid(was);
    LegacyConsistent(was, l);
  }

  lemma LegacyRowsDecode(j: Json, l: Ledger) returns (was: Ledger)
    requires HoldsRows(j, l, true)
    ensures SameButDeadlines(was, l)
    ensures DecodeAll(Rows(j, "metadata_owners"), DecodeOwner) == Some(was.owners)
    ensures DecodeAll(Rows(j, "launch_intents"), IntentDecoder(true)) == Some(was.intents)
    ensures DecodeAll(Rows(j, "job_reservations"), DecodeReservation) == Some(was.reservations)
  {
    ListsAreRead(j, l);
    LegacyListIsRead(Rows(j, "launch_intents"), l.intents);
    was := l.(intents := DecodeAll(Rows(j, "launch_intents"), IntentDecoder(true)).value);
  }

  lemma LegacyDecodes(j: Json, l: Ledger)
    requires Holds(j, l, true) && IsVersion(j.fields["version"], 1)
    ensures DecodeVersion(j, 1, true).Some? && SameButDeadlines(DecodeVersion(j, 1, true).value, l)
  {
    var was := LegacyRowsDecode(j, l);
    VersionsAreCompared(j.fields["version"], 1);
    LegacyConsistent(was, l);
    ConsistentIsValid(was);
    DecodedParts(j, 1, true, was);
  }

  /** A version 1 file holds a ledger up to the deadlines, which it does not have. */
  lemma LegacyFilesAreRead(j: Json, l: Ledger)
    ensures DecodeVersion(j, 1, true).Some? && SameButDeadlines(DecodeVersion(j, 1, true).value, l) <==>
            Holds(j, l, true) && IsVersion(j.fields["version"], 1)
  {
    if DecodeVersion(j, 1, true).Some? && SameButDeadlines(DecodeVersion(j, 1, true).value, l) {
      LegacyHolds(j, l, DecodeVersion(j, 1, true).value);
    }
    if Holds(j, l, true) && IsVersion(j.fields["version"], 1) { LegacyDecodes(j, l); }
  }

  /** What loading does with a file, by its version. */
  lemma LoadsByVersion(j: Json, now: real)
    ensures !RootKeys(j) ==> LoadLedger(j, now).None?
    ensures RootKeys(j) && !IsVersion(j.fields["version"], 1) ==> LoadLedger(j, now) == DecodeVersion(j, 2, false)
    ensures RootKeys(j) && IsVersion(j.fields["version"], 1) ==>
              (LoadLedger(j, now).Some? <==> DecodeVersion(j, 1, true).Some?)
  {
    if j.JObj? && "version" in j.fields { VersionsAreCompared(j.fields["version"], 1); }
    if DecodeVersion(j, 1, true).Some? { MigrationKeepsEntries(j, now); }
  }

  predicate Stamped(l: Ledger, deadlineAt: real) {
    forall k :: 0 <= k < |l.intents| ==> l.intents[k].deadlineAt == deadlineAt
  }

  lemma MigratedLedger(was: Ledger, now: Ledger, l: Ledger, deadlineAt: real)
    requires now == was.(intents := now.intents) && |now.intents| == |was.intents|
    requires forall k :: 0 <= k < |was.intents| ==> now.intents[k] == was.intents[k].(deadlineAt := deadlineAt)
    ensures now == l <==> SameButDeadlines(was, l) && Stamped(l, deadlineAt)
  {
    if SameButDeadlines(was, l) && Stamped(l, deadlineAt) {
      forall k | 0 <= k < |l.intents| ensures now.intents[k] == l.intents[k] {
        assert was.intents[k].(deadlineAt := l.intents[k].deadlineAt) == l.intents[k];
      }
      assert now.intents == l.intents;
    }
  }

  /**
   What loading yields, for every file: a version 2 file the ledger it holds, a version 1 file the ledger it holds with
   30 seconds for every queued launch, and any other file nothing.
   */
  lemma LedgersAreLoaded(j: Json, now: real, l: Ledger)
    ensures LoadLedger(j, now) == Some(l) <==>
            && RootKeys(j)
            && if IsVersion(j.fields["version"], 1) then Holds(j, l, true) && Stamped(l, now + 30.0)
               else Holds(j, l, false) && IsVersion(j.fields["version"], 2)
  {
    LoadsByVersion(j, now);
    FilesAreRead(j, l);
    LegacyFilesAreRead(j, l);
    if RootKeys(j) && DecodeVersion(j, 1, true).Some? {
      MigrationKeepsEntries(j, now);
      MigratedLedger(DecodeVersion(j, 1, true).value, LoadLedger(j, now).value, l, now + 30.0);
    }
  }
}
