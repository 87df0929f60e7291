/**
 The durable representation of the shared capacity ledger: what is accepted on load,
 how a version 1 file is migrated, and why a saved ledger can always be loaded again.
 */
module LedgerFormat {
  import opened Basics

  // What json.load can return; JNonFinite is NaN or an infinity, which Python's parser accepts.
  datatype Json =
    | JNull
    | JBool(b: bool)
    | JInt(i: int)
    | JFloat(r: real)
    | JNonFinite
    | JStr(s: string)
    | JList(items: seq<Json>)
    | JObj(fields: map<string, Json>)

  datatype Owner = Owner(token: string, pid: int, operation: string, createdAt: string)
  datatype Intent = Intent(pid: int, sequence: int, createdAt: string, deadlineAt: real)
  datatype Reservation = Reservation(jobId: string, manifestPath: string)
  datatype Ledger = Ledger(
    nextSequence: int, owners: seq<Owner>, intents: seq<Intent>, reservations: seq<Reservation>)

  const LEDGER_VERSION := 2
  const MIGRATED_INTENT_TTL_SECONDS := 30.0
  const NEW_LEDGER := Ledger(1, [], [], [])

  const ROOT_KEYS := {"version", "next_sequence", "metadata_owners", "launch_intents", "job_reservations"}
  const OWNER_KEYS := {"token", "pid", "operation", "created_at"}
  const LEGACY_INTENT_KEYS := {"pid", "sequence", "created_at"}
  const INTENT_KEYS := {"pid", "sequence", "created_at", "deadline_at"}
  const RESERVATION_KEYS := {"job_id", "manifest_path"}

  // -- Well-formed ledgers ------------------------------------------------------------------

  predicate DistinctTokens(owners: seq<Owner>) {
    forall i, j :: 0 <= i < j < |owners| ==> owners[i].token != owners[j].token
  }

  predicate DistinctSequences(intents: seq<Intent>) {
    forall i, j :: 0 <= i < j < |intents| ==> intents[i].sequence != intents[j].sequence
  }

  predicate DistinctJobs(reservations: seq<Reservation>) {
    forall i, j :: 0 <= i < j < |reservations| ==> reservations[i].jobId != reservations[j].jobId
  }

  predicate WellFormedOwner(o: Owner) {
    o.token != "" && o.pid > 0 && o.operation != "" && o.createdAt != ""
  }

  predicate WellFormedIntent(t: Intent) {
    t.pid > 0 && t.sequence >= 1 && t.createdAt != ""
  }

  predicate WellFormedReservation(r: Reservation) {
    r.jobId != "" && r.manifestPath != ""
  }

  predicate Valid(l: Ledger) {
    && l.nextSequence >= 1
    && (forall o <- l.owners :: WellFormedOwner(o))
    && (forall t <- l.intents :: WellFormedIntent(t) && t.sequence < l.nextSequence)
    && (forall r <- l.reservations :: WellFormedReservation(r))
    && DistinctTokens(l.owners)
    && DistinctSequences(l.intents)
    && DistinctJobs(l.reservations)
  }

  // -- Decoding -----------------------------------------------------------------------------

  /** Python's `value == n`: True equals 1 and 2.0 equals 2. */
  predicate EqualsInt(j: Json, n: int) {
    match j
    case JInt(i) => i == n
    case JBool(b) => n == if b then 1 else 0
    case JFloat(r) => r == n as real
    case _ => false
  }

  predicate HasKeys(j: Json, keys: set<string>) {
    j.JObj? && j.fields.Keys == keys
  }

  predicate NonEmptyString(j: Json) {
    j.JStr? && j.s != ""
  }

  predicate PositiveInt(j: Json) {
    j.JInt? && j.i > 0
  }

  function Number(j: Json): Option<real> {
    match j
    case JInt(i) => Some(i as real)
    case JFloat(r) => Some(r)
    case _ => None
  }

  function DecodeOwner(j: Json): Option<Owner> {
    if && HasKeys(j, OWNER_KEYS)
       && NonEmptyString(j.fields["token"]) && PositiveInt(j.fields["pid"])
       && NonEmptyString(j.fields["operation"]) && NonEmptyString(j.fields["created_at"])
    then Some(Owner(j.fields["token"].s, j.fields["pid"].i, j.fields["operation"].s, j.fields["created_at"].s))
    else None
  }

  /** A version 1 intent has no deadline; it is read with the placeholder 0.0. */
  function DecodeIntent(j: Json, legacy: bool): Option<Intent> {
    if && HasKeys(j, if legacy then LEGACY_INTENT_KEYS else INTENT_KEYS)
       && PositiveInt(j.fields["pid"]) && PositiveInt(j.fields["sequence"])
       && NonEmptyString(j.fields["created_at"])
       && (legacy || Number(j.fields["deadline_at"]).Some?)
    then Some(Intent(j.fields["pid"].i, j.fields["sequence"].i, j.fields["created_at"].s,
                     if legacy then 0.0 else Number(j.fields["deadline_at"]).value))
    else None
  }

  function IntentDecoder(legacy: bool): Json -> Option<Intent> {
    (x: Json) => DecodeIntent(x, legacy)
  }

  function DecodeReservation(j: Json): Option<Reservation> {
    if HasKeys(j, RESERVATION_KEYS) && NonEmptyString(j.fields["job_id"]) && NonEmptyString(j.fields["manifest_path"])
    then Some(Reservation(j.fields["job_id"].s, j.fields["manifest_path"].s))
    else None
  }

  function DecodeAll<T>(items: seq<Json>, decode: Json -> Option<T>): (r: Option<seq<T>>)
    ensures r.Some? <==> forall k :: 0 <= k < |items| ==> decode(items[k]).Some?
    ensures r.Some? ==> |r.value| == |items| && forall k :: 0 <= k < |items| ==> decode(items[k]) == Some(r.value[k])
  {
    if items == [] then Some([])
    else
      var rest := DecodeAll(items[..|items| - 1], decode);
      var last := decode(items[|items| - 1]);
      if rest.Some? && last.Some? then Some(rest.value + [last.value]) else None
  }

  /** The accepted ledgers of one version, as a property of the file's contents. */
  function DecodeVersion(j: Json, version: int, legacy: bool): Option<Ledger> {
    if && HasKeys(j, ROOT_KEYS) && EqualsInt(j.fields["version"], version)
       && PositiveInt(j.fields["next_sequence"])
       && j.fields["metadata_owners"].JList? && j.fields["launch_intents"].JList?
       && j.fields["job_reservations"].JList?
    then
      var owners := DecodeAll(j.fields["metadata_owners"].items, DecodeOwner);
      var intents := DecodeAll(j.fields["launch_intents"].items, IntentDecoder(legacy));
      var reservations := DecodeAll(j.fields["job_reservations"].items, DecodeReservation);
      if && owners.Some? && DistinctTokens(owners.value)
         && intents.Some? && DistinctSequences(intents.value)
         && reservations.Some? && DistinctJobs(reservations.value)
         && forall t <- intents.value :: t.sequence < j.fields["next_sequence"].i
      then Some(Ledger(j.fields["next_sequence"].i, owners.value, intents.value, reservations.value))
      else None
    else None
  }

  // -- The validation loops -----------------------------------------------------------------

  method ValidateMetadataOwners(items: seq<Json>) returns (r: Option<seq<Owner>>)
    ensures r.Some? <==> DecodeAll(items, DecodeOwner).Some? && DistinctTokens(DecodeAll(items, DecodeOwner).value)
    ensures r.Some? ==> r == DecodeAll(items, DecodeOwner)
  {
    var owners: seq<Owner> := [];
    var seen: set<string> := {};
    for n := 0 to |items|
      invariant |owners| == n
      invariant forall k :: 0 <= k < n ==> DecodeOwner(items[k]) == Some(owners[k])
      invariant seen == set o <- owners :: o.token
      invariant DistinctTokens(owners)
    {
      var owner := DecodeOwner(items[n]);
      if owner.None? || owner.value.token in seen {
        if owner.Some? {
          var k :| 0 <= k < n && owners[k].token == owner.value.token;
          assert DecodeAll(items, DecodeOwner).Some? ==>
            DecodeAll(items, DecodeOwner).value[k].token == DecodeAll(items, DecodeOwner).value[n].token;
        }
        return None;
      }
      owners, seen := owners + [owner.value], seen + {owner.value.token};
    }
    assert owners == DecodeAll(items, DecodeOwner).value;
    return Some(owners);
  }

  method ValidateLaunchIntents(items: seq<Json>, legacy: bool) returns (r: Option<seq<Intent>>)
    ensures var all := DecodeAll(items, IntentDecoder(legacy));
            (r.Some? <==> all.Some? && DistinctSequences(all.value)) && (r.Some? ==> r == all)
  {
    ghost var decode := IntentDecoder(legacy);
    var intents: seq<Intent> := [];
    var seen: set<int> := {};
    for n := 0 to |items|
      invariant |intents| == n
      invariant forall k :: 0 <= k < n ==> decode(items[k]) == Some(intents[k])
      invariant seen == set t <- intents :: t.sequence
      invariant DistinctSequences(intents)
    {
      var intent := DecodeIntent(items[n], legacy);
      assert decode(items[n]) == intent;
      if intent.None? || intent.value.sequence in seen {
        if intent.Some? {
          var k :| 0 <= k < n && intents[k].sequence == intent.value.sequence;
          assert DecodeAll(items, decode).Some? ==>
            DecodeAll(items, decode).value[k].sequence == DecodeAll(items, decode).value[n].sequence;
        }
        return None;
      }
      intents, seen := intents + [intent.value], seen + {intent.value.sequence};
    }
    assert intents == DecodeAll(items, decode).value;
    return Some(intents);
  }

  method ValidateJobReservations(items: seq<Json>) returns (r: Option<seq<Reservation>>)
    ensures r.Some? <==>
            DecodeAll(items, DecodeReservation).Some? && DistinctJobs(DecodeAll(items, DecodeReservation).value)
    ensures r.Some? ==> r == DecodeAll(items, DecodeReservation)
  {
    var reservations: seq<Reservation> := [];
    var seen: set<string> := {};
    for n := 0 to |items|
      invariant |reservations| == n
      invariant forall k :: 0 <= k < n ==> DecodeReservation(items[k]) == Some(reservations[k])
      invariant seen == set o <- reservations :: o.jobId
      invariant DistinctJobs(reservations)
    {
      var reservation := DecodeReservation(items[n]);
      if reservation.None? || reservation.value.jobId in seen {
        if reservation.Some? {
          var k :| 0 <= k < n && reservations[k].jobId == reservation.value.jobId;
          assert DecodeAll(items, DecodeReservation).Some? ==>
            DecodeAll(items, DecodeReservation).value[k].jobId == DecodeAll(items, DecodeReservation).value[n].jobId;
        }
        return None;
      }
      reservations, seen := reservations + [reservation.value], seen + {reservation.value.jobId};
    }
    assert reservations == DecodeAll(items, DecodeReservation).value;
    return Some(reservations);
  }

  method ValidateLedgerVersion(j: Json, version: int, legacy: bool) returns (r: Option<Ledger>)
    ensures r == DecodeVersion(j, version, legacy)
  {
    if !HasKeys(j, ROOT_KEYS) || !EqualsInt(j.fields["version"], version)
       || !PositiveInt(j.fields["next_sequence"]) {
      return None;
    }
    var owners, intents, reservations :=
      j.fields["metadata_owners"], j.fields["launch_intents"], j.fields["job_reservations"];
    if !owners.JList? || !intents.JList? || !reservations.JList? {
      return None;
    }
    var validOwners := ValidateMetadataOwners(owners.items);
    if validOwners.None? { return None; }
    var validIntents := ValidateLaunchIntents(intents.items, legacy);
    if validIntents.None? { return None; }
    var validReservations := ValidateJobReservations(reservations.items);
    if validReservations.None? { return None; }
    var next := j.fields["next_sequence"].i;
    if exists t <- validIntents.value :: t.sequence >= next { return None; }
    return Some(Ledger(next, validOwners.value, validIntents.value, validReservations.value));
  }

  // -- Loading and saving -------------------------------------------------------------------

  function AddDeadline(item: Json, deadlineAt: real): Json {
    if item.JObj? then JObj(item.fields["deadline_at" := JFloat(deadlineAt)]) else item
  }

  function NormalizeLedger(j: Json, now: real): Option<Json> {
    if !j.JObj? || "version" !in j.fields || !EqualsInt(j.fields["version"], 1) then Some(j)
    else if DecodeVersion(j, 1, true).None? then None
    else
      var items := j.fields["launch_intents"].items;
      var intents := seq(|items|, k requires 0 <= k < |items| =>
        AddDeadline(items[k], now + MIGRATED_INTENT_TTL_SECONDS));
      Some(JObj(map["version" := JInt(LEDGER_VERSION),
                    "next_sequence" := j.fields["next_sequence"],
                    "metadata_owners" := j.fields["metadata_owners"],
                    "launch_intents" := JList(intents),
                    "job_reservations" := j.fields["job_reservations"]]))
  }

  function LoadLedger(j: Json, now: real): Option<Ledger> {
    var normalized := NormalizeLedger(j, now);
    if normalized.None? then None else DecodeVersion(normalized.value, LEDGER_VERSION, false)
  }

  function EncodeOwner(o: Owner): Json {
    JObj(map["token" := JStr(o.token), "pid" := JInt(o.pid), "operation" := JStr(o.operation),
             "created_at" := JStr(o.createdAt)])
  }

  function EncodeIntent(t: Intent): Json {
    JObj(map["pid" := JInt(t.pid), "sequence" := JInt(t.sequence), "created_at" := JStr(t.createdAt),
             "deadline_at" := JFloat(t.deadlineAt)])
  }

  function EncodeReservation(r: Reservation): Json {
    JObj(map["job_id" := JStr(r.jobId), "manifest_path" := JStr(r.manifestPath)])
  }

  function EncodeAll<T>(items: seq<T>, encode: T -> Json): seq<Json> {
    seq(|items|, k requires 0 <= k < |items| => encode(items[k]))
  }

  function SaveLedger(l: Ledger): Json {
    JObj(map["version" := JInt(LEDGER_VERSION), "next_sequence" := JInt(l.nextSequence),
             "metadata_owners" := JList(EncodeAll(l.owners, EncodeOwner)),
             "launch_intents" := JList(EncodeAll(l.intents, EncodeIntent)),
             "job_reservations" := JList(EncodeAll(l.reservations, EncodeReservation))])
  }

  // -- Theorems -----------------------------------------------------------------------------

  lemma DecodedIsValid(j: Json, version: int, legacy: bool)
    requires DecodeVersion(j, version, legacy).Some?
    ensures Valid(DecodeVersion(j, version, legacy).value)
  {
    var l := DecodeVersion(j, version, legacy).value;
    forall o <- l.owners ensures WellFormedOwner(o) {
      var k :| 0 <= k < |l.owners| && l.owners[k] == o;
      assert DecodeOwner(j.fields["metadata_owners"].items[k]) == Some(o);
    }
    forall t <- l.intents ensures WellFormedIntent(t) {
      var k :| 0 <= k < |l.intents| && l.intents[k] == t;
      assert IntentDecoder(legacy)(j.fields["launch_intents"].items[k]) == Some(t);
    }
    forall r <- l.reservations ensures WellFormedReservation(r) {
      var k :| 0 <= k < |l.reservations| && l.reservations[k] == r;
      assert DecodeReservation(j.fields["job_reservations"].items[k]) == Some(r);
    }
  }

  lemma RowsDecodeBack<T>(items: seq<T>, encode: T -> Json, decode: Json -> Option<T>, good: T -> bool)
    requires forall x <- items :: decode(encode(x)) == if good(x) then Some(x) else None
    ensures DecodeAll(EncodeAll(items, encode), decode) ==
            if forall x <- items :: good(x) then Some(items) else None
  {
    var rows := EncodeAll(items, encode);
    assert forall k :: 0 <= k < |items| ==> items[k] in items && rows[k] == encode(items[k]);
    var r := DecodeAll(rows, decode);
    if r.Some? {
      assert r.value == items;
      assert forall x <- items :: good(x);
    } else {
      var k :| 0 <= k < |items| && decode(rows[k]).None?;
      assert !good(items[k]);
    }
  }

  lemma OwnersDecodeBack(owners: seq<Owner>)
    ensures DecodeAll(EncodeAll(owners, EncodeOwner), DecodeOwner) ==
            if forall o <- owners :: WellFormedOwner(o) then Some(owners) else None
  {
    forall o: Owner ensures DecodeOwner(EncodeOwner(o)) == if WellFormedOwner(o) then Some(o) else None {
      assert EncodeOwner(o).fields.Keys == OWNER_KEYS;
    }
    RowsDecodeBack(owners, EncodeOwner, DecodeOwner, WellFormedOwner);
  }

  lemma IntentsDecodeBack(intents: seq<Intent>)
    ensures DecodeAll(EncodeAll(intents, EncodeIntent), IntentDecoder(false)) ==
            if forall t <- intents :: WellFormedIntent(t) then Some(intents) else None
  {
    forall t: Intent ensures IntentDecoder(false)(EncodeIntent(t)) == if WellFormedIntent(t) then Some(t) else None {
      assert EncodeIntent(t).fields.Keys == INTENT_KEYS;
    }
    RowsDecodeBack(intents, EncodeIntent, IntentDecoder(false), WellFormedIntent);
  }

  lemma ReservationsDecodeBack(reservations: seq<Reservation>)
    ensures DecodeAll(EncodeAll(reservations, EncodeReservation), DecodeReservation) ==
            if forall r <- reservations :: WellFormedReservation(r) then Some(reservations) else None
  {
    forall r: Reservation
      ensures DecodeReservation(EncodeReservation(r)) == if WellFormedReservation(r) then Some(r) else None
    {
      assert EncodeReservation(r).fields.Keys == RESERVATION_KEYS;
    }
    RowsDecodeBack(reservations, EncodeReservation, DecodeReservation, WellFormedReservation);
  }

  /** Round trip: what is saved can be loaded back unchanged exactly when it is well-formed. */
  lemma SavedLoadsBack(l: Ledger, now: real)
    ensures LoadLedger(SaveLedger(l), now) == if Valid(l) then Some(l) else None
  {
    var j := SaveLedger(l);
    assert j.fields.Keys == ROOT_KEYS;
    assert NormalizeLedger(j, now) == Some(j);
    OwnersDecodeBack(l.owners);
    IntentsDecodeBack(l.intents);
    ReservationsDecodeBack(l.reservations);
  }

  lemma {:induction false} MigratedIntents(items: seq<Json>, stamped: seq<Json>, deadlineAt: real)
    requires DecodeAll(items, IntentDecoder(true)).Some?
    requires |stamped| == |items| && forall k :: 0 <= k < |items| ==> stamped[k] == AddDeadline(items[k], deadlineAt)
    ensures DecodeAll(stamped, IntentDecoder(false)).Some?
    ensures var was, now := DecodeAll(items, IntentDecoder(true)).value, DecodeAll(stamped, IntentDecoder(false)).value;
            |now| == |was| && forall k :: 0 <= k < |was| ==> now[k] == was[k].(deadlineAt := deadlineAt)
  {
    var was := DecodeAll(items, IntentDecoder(true)).value;
    forall k | 0 <= k < |items|
      ensures IntentDecoder(false)(stamped[k]) == Some(was[k].(deadlineAt := deadlineAt))
    {
      assert IntentDecoder(true)(items[k]) == Some(was[k]);
      assert stamped[k].fields.Keys == INTENT_KEYS;
    }
  }

  lemma NormalizedFields(j: Json, now: real)
    requires DecodeVersion(j, 1, true).Some?
    ensures NormalizeLedger(j, now).Some?
    ensures var n := NormalizeLedger(j, now).value;
            && HasKeys(n, ROOT_KEYS) && n.fields["version"] == JInt(LEDGER_VERSION)
            && n.fields["next_sequence"] == j.fields["next_sequence"]
            && n.fields["metadata_owners"] == j.fields["metadata_owners"]
            && n.fields["job_reservations"] == j.fields["job_reservations"]
            && n.fields["launch_intents"].JList?
            && (var items, stamped := j.fields["launch_intents"].items, n.fields["launch_intents"].items;
                && |stamped| == |items|
                && forall k :: 0 <= k < |items| ==>
                     stamped[k] == AddDeadline(items[k], now + MIGRATED_INTENT_TTL_SECONDS))
  {
    assert NormalizeLedger(j, now).value.fields.Keys == ROOT_KEYS;
  }

  /** A valid version 1 file loads as a valid ledger that keeps every entry and stamps one deadline on the intents. */
  lemma MigrationKeepsEntries(j: Json, now: real)
    requires DecodeVersion(j, 1, true).Some?
    ensures LoadLedger(j, now).Some? && Valid(LoadLedger(j, now).value)
    ensures var was, l := DecodeVersion(j, 1, true).value, LoadLedger(j, now).value;
            && l == was.(intents := l.intents)
            && |l.intents| == |was.intents|
            && forall k :: 0 <= k < |l.intents| ==>
                 l.intents[k] == was.intents[k].(deadlineAt := now + MIGRATED_INTENT_TTL_SECONDS)
  {
    NormalizedFields(j, now);
    var n := NormalizeLedger(j, now).value;
    MigratedIntents(j.fields["launch_intents"].items, n.fields["launch_intents"].items,
                    now + MIGRATED_INTENT_TTL_SECONDS);
    MigratedDecodes(j, n, now + MIGRATED_INTENT_TTL_SECONDS);
    DecodedIsValid(n, LEDGER_VERSION, false);
  }

  lemma MigratedDecodes(j: Json, n: Json, deadlineAt: real)
    requires DecodeVersion(j, 1, true).Some?
    requires HasKeys(n, ROOT_KEYS) && n.fields["version"] == JInt(LEDGER_VERSION)
    requires n.fields["next_sequence"] == j.fields["next_sequence"]
    requires n.fields["metadata_owners"] == j.fields["metadata_owners"]
    requires n.fields["job_reservations"] == j.fields["job_reservations"]
    requires n.fields["launch_intents"].JList?
    requires DecodeAll(n.fields["launch_intents"].items, IntentDecoder(false)).Some?
    requires var was, intents := DecodeVersion(j, 1, true).value.intents,
                                 DecodeAll(n.fields["launch_intents"].items, IntentDecoder(false)).value;
             |intents| == |was| && forall k :: 0 <= k < |was| ==> intents[k] == was[k].(deadlineAt := deadlineAt)
    ensures DecodeVersion(n, LEDGER_VERSION, false) ==
            Some(DecodeVersion(j, 1, true).value.(
              intents := DecodeAll(n.fields["launch_intents"].items, IntentDecoder(false)).value))
  {
    var was := DecodeVersion(j, 1, true).value;
    var intents := DecodeAll(n.fields["launch_intents"].items, IntentDecoder(false)).value;
    assert DistinctSequences(intents);
    forall t <- intents ensures t.sequence < was.nextSequence {
      var k :| 0 <= k < |intents| && intents[k] == t;
      assert was.intents[k] in was.intents;
    }
  }
}
