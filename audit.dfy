/** The audit helper: `computeChanges`, a field-by-field diff of two entity
    snapshots over an allow-list of field names, and `logAudit`, a
    best-effort append to the audit log that never fails its caller. */
module Audit {
  import opened JsValue

  datatype EntityType = Client | MBA | Invoice | SpendEntry | InvoiceAllocation

  datatype Action = CREATE | UPDATE | DELETE

  /** Identifier the store assigns to an entity. */
  type Id = nat

  /** The tracked fields of an entity, by name; an absent name reads as
      `Undefined`. */
  type Snapshot = map<string, Value>

  /** One `{old, new}` entry of a change set. */
  datatype Change = Change(oldValue: Value, newValue: Value)

  type ChangeSet = map<string, Change>

  datatype AuditRecord = AuditRecord(
    entityType: EntityType,
    entityId: Id,
    action: Action,
    changes: Option<ChangeSet>,
    userId: Option<string>,
    userEmail: Option<string>)

  // ---------------------------------------------------------------------
  // computeChanges
  // ---------------------------------------------------------------------

  /** Property access on a snapshot. */
  function Field(obj: Snapshot, f: string): Value
  {
    if f in obj then obj[f] else Undefined
  }

  /** A decimal-like object is replaced by its numeric value; every other
      value is compared as it is. */
  function Normalize(v: Value): (r: Value)
    ensures !r.Decimal?
    ensures v.Decimal? ==> r == Num(v.d)
    ensures !v.Decimal? ==> r == v
  {
    if v.Decimal? then Num(v.d) else v
  }

  /** Field `f` changed: its normalized values are strictly unequal. */
  predicate Differs(o: Snapshot, n: Snapshot, f: string)
  {
    Normalize(Field(o, f)) != Normalize(Field(n, f))
  }

  /** The entry recorded for field `f`. */
  function Entry(o: Snapshot, n: Snapshot, f: string): Change
  {
    Change(Normalize(Field(o, f)), Normalize(Field(n, f)))
  }

  /** Every listed field that differs, with its normalized old and new value. */
  function DiffOn(o: Snapshot, n: Snapshot, fields: seq<string>): ChangeSet
  {
    map f | f in fields && Differs(o, n, f) :: Entry(o, n, f)
  }

  /** What `computeChanges` returns: nothing without a previous snapshot,
      nothing when no listed field changed, and the change set otherwise. */
  function Changes(oldObj: Option<Snapshot>, newObj: Snapshot, fields: seq<string>): (r: Option<ChangeSet>)
    ensures oldObj.None? ==> r.None?
  {
    match oldObj
    case None => None
    case Some(o) =>
      var d := DiffOn(o, newObj, fields);
      if |d| > 0 then Some(d) else None
  }

  /** One more field of the list extends the diff by at most that field. */
  lemma DiffOnExtend(o: Snapshot, n: Snapshot, fields: seq<string>, i: nat)
    requires i < |fields|
    ensures DiffOn(o, n, fields[..i + 1]) ==
      if Differs(o, n, fields[i]) then DiffOn(o, n, fields[..i])[fields[i] := Entry(o, n, fields[i])]
      else DiffOn(o, n, fields[..i])
  {
  }

  /** The diff loop of `computeChanges`. */
  method ComputeChanges(oldObj: Option<Snapshot>, newObj: Snapshot, fields: seq<string>)
    returns (r: Option<ChangeSet>)
    ensures r == Changes(oldObj, newObj, fields)
    ensures oldObj.None? ==> r.None?
    ensures r.Some? ==> |r.value| > 0
    ensures r.Some? ==> forall k :: k in r.value ==>
      k in fields && Differs(oldObj.value, newObj, k) && r.value[k] == Entry(oldObj.value, newObj, k)
  {
    if oldObj.None? {
      return None;
    }
    var o := oldObj.value;
    var changes: ChangeSet := map[];
    assert fields[..0] == [];
    for i := 0 to |fields|
      invariant changes == DiffOn(o, newObj, fields[..i])
    {
      var field := fields[i];
      var normalizedOld := Normalize(Field(o, field));
      var normalizedNew := Normalize(Field(newObj, field));
      if normalizedOld != normalizedNew {
        changes := changes[field := Change(normalizedOld, normalizedNew)];
      }
      DiffOnExtend(o, newObj, fields, i);
    }
    assert fields[..|fields|] == fields;
    r := if |changes| > 0 then Some(changes) else None;
  }

  /** A listed field is in the result exactly when its normalized values
      differ, and then its entry holds those normalized values. */
  lemma ChangedExactlyWhenDiffers(o: Snapshot, n: Snapshot, fields: seq<string>, f: string)
    requires f in fields
    ensures (Changes(Some(o), n, fields).Some? && f in Changes(Some(o), n, fields).value) <==> Differs(o, n, f)
    ensures Differs(o, n, f) ==> Changes(Some(o), n, fields).value[f] == Change(Normalize(Field(o, f)), Normalize(Field(n, f)))
  {
    var d := DiffOn(o, n, fields);
    if Differs(o, n, f) {
      assert f in d;
      assert |d| > 0;
    }
  }

  /** Fields outside the allow-list never appear, whatever their values. */
  lemma OnlyListedFields(oldObj: Option<Snapshot>, n: Snapshot, fields: seq<string>, f: string)
    requires f !in fields
    ensures Changes(oldObj, n, fields).None? || f !in Changes(oldObj, n, fields).value
  {
  }

  /** The result is never an empty change set. */
  lemma NeverEmpty(oldObj: Option<Snapshot>, n: Snapshot, fields: seq<string>)
    ensures Changes(oldObj, n, fields) != Some(map[])
  {
  }

  /** No decimal wrapper leaks into an `{old, new}` entry. */
  lemma NoDecimalInChanges(o: Snapshot, n: Snapshot, fields: seq<string>, f: string)
    requires Changes(Some(o), n, fields).Some? && f in Changes(Some(o), n, fields).value
    ensures !Changes(Some(o), n, fields).value[f].oldValue.Decimal?
    ensures !Changes(Some(o), n, fields).value[f].newValue.Decimal?
  {
  }

  /** Snapshots that agree on every listed field yield no change set. */
  lemma AgreeingSnapshotsNoChanges(o: Snapshot, n: Snapshot, fields: seq<string>)
    requires forall f :: f in fields ==> Field(o, f) == Field(n, f)
    ensures Changes(Some(o), n, fields) == None
  {
  }

  /** Snapshots whose normalized values differ in exactly one listed field
      yield exactly that field's entry. */
  lemma SingleFieldChange(o: Snapshot, n: Snapshot, fields: seq<string>, f: string)
    requires f in fields && Differs(o, n, f)
    requires forall g :: g in fields && g != f ==> !Differs(o, n, g)
    ensures Changes(Some(o), n, fields) == Some(map[f := Entry(o, n, f)])
  {
    var d := DiffOn(o, n, fields);
    assert d.Keys == {f};
    assert d == map[f := Entry(o, n, f)];
  }

  /** The order of the allow-list does not matter, nor do repeated names. */
  lemma FieldOrderIrrelevant(oldObj: Option<Snapshot>, n: Snapshot, a: seq<string>, b: seq<string>)
    requires forall f :: f in a <==> f in b
    ensures Changes(oldObj, n, a) == Changes(oldObj, n, b)
  {
    if oldObj.Some? {
      assert DiffOn(oldObj.value, n, a) == DiffOn(oldObj.value, n, b);
    }
  }

  /** Strict equality: an undefined (absent) field against a null one is a
      change. */
  lemma UndefinedIsNotNull(o: Snapshot, n: Snapshot, fields: seq<string>, f: string)
    requires f in fields && Field(o, f) == Undefined && Field(n, f) == Null
    ensures Changes(Some(o), n, fields).Some?
    ensures Changes(Some(o), n, fields).value[f] == Change(Undefined, Null)
  {
    ChangedExactlyWhenDiffers(o, n, fields, f);
  }

  /** A decimal compares by its value: a decimal against an equal decimal or
      an equal plain number, on either side, is no change. */
  lemma EqualDecimalsNoChange(o: Snapshot, n: Snapshot, fields: seq<string>, f: string, x: int)
    requires Field(o, f) == Decimal(x) || Field(o, f) == Num(x)
    requires Field(n, f) == Decimal(x) || Field(n, f) == Num(x)
    ensures Changes(Some(o), n, fields).None? || f !in Changes(Some(o), n, fields).value
  {
  }

  /** An amount edit on plain numbers: the edited amount is recorded, the
      unchanged notes are not. */
  lemma AmountEditScenario()
    ensures Changes(Some(map["amount" := Num(100), "notes" := Str("x")]),
                    map["amount" := Num(150), "notes" := Str("x")],
                    ["amount", "notes"])
         == Some(map["amount" := Change(Num(100), Num(150))])
  {
    var o := map["amount" := Num(100), "notes" := Str("x")];
    var n := map["amount" := Num(150), "notes" := Str("x")];
    SingleFieldChange(o, n, ["amount", "notes"], "amount");
  }

  /** A spend entry's amount edit as its caller passes it: the amounts are
      decimals, and the entry records them as plain numbers. */
  lemma SpendEntryAmountEditScenario()
    ensures Changes(Some(map["amount" := Decimal(100), "notes" := Str("x")]),
                    map["amount" := Decimal(150), "notes" := Str("x")],
                    ["amount", "notes"])
         == Some(map["amount" := Change(Num(100), Num(150))])
  {
    var o := map["amount" := Decimal(100), "notes" := Str("x")];
    var n := map["amount" := Decimal(150), "notes" := Str("x")];
    SingleFieldChange(o, n, ["amount", "notes"], "amount");
  }

  /** Marking an MBA paid: the flag, the serialized date (undefined before)
      and the amount (null before, a decimal after) are all changes. */
  lemma ClientPaidScenario()
    ensures Changes(Some(map["clientPaid" := Bool(false), "clientPaidDate" := Undefined, "clientPaidAmount" := Null]),
                    map["clientPaid" := Bool(true), "clientPaidDate" := Str("2024-03-01T00:00:00.000Z"),
                        "clientPaidAmount" := Decimal(5000)],
                    ["clientPaid", "clientPaidDate", "clientPaidAmount"])
         == Some(map["clientPaid" := Change(Bool(false), Bool(true)),
                     "clientPaidDate" := Change(Undefined, Str("2024-03-01T00:00:00.000Z")),
                     "clientPaidAmount" := Change(Null, Num(5000))])
  {
    var o := map["clientPaid" := Bool(false), "clientPaidDate" := Undefined, "clientPaidAmount" := Null];
    var n := map["clientPaid" := Bool(true), "clientPaidDate" := Str("2024-03-01T00:00:00.000Z"),
                 "clientPaidAmount" := Decimal(5000)];
    var fields := ["clientPaid", "clientPaidDate", "clientPaidAmount"];
    var d := DiffOn(o, n, fields);
    assert Differs(o, n, "clientPaid") && Differs(o, n, "clientPaidDate") && Differs(o, n, "clientPaidAmount");
    assert d.Keys == {"clientPaid", "clientPaidDate", "clientPaidAmount"};
    assert d == map["clientPaid" := Change(Bool(false), Bool(true)),
                    "clientPaidDate" := Change(Undefined, Str("2024-03-01T00:00:00.000Z")),
                    "clientPaidAmount" := Change(Null, Num(5000))];
  }

  // ---------------------------------------------------------------------
  // logAudit
  // ---------------------------------------------------------------------

  /** The audit-log table of the store.  A write may fail for reasons the
      model does not see (validation, connectivity, timeout). */
  class AuditLog {
    var records: seq<AuditRecord>

    constructor ()
      ensures records == []
    {
      records := [];
    }

    /** `auditLog.create`: appends the record, or fails and leaves the log
        as it was. */
    method Create(record: AuditRecord) returns (outcome: Outcome)
      modifies this
      ensures outcome.Pass? ==> records == old(records) + [record]
      ensures outcome.Fail? ==> records == old(records)
    {
      var fails: bool :| true;
      if fails {
        var error: Thrown :| true;
        outcome := Fail(error);
      } else {
        records := records + [record];
        outcome := Pass;
      }
    }
  }

  /** `logAudit`: one attempted write of the record; a failure is reported
      to the operator and swallowed, so the call always returns normally
      and either the record was appended or the log is unchanged.  An
      omitted change set is stored as null. */
  method LogAudit(log: AuditLog, entityType: EntityType, entityId: Id, action: Action,
                  changes: Option<ChangeSet>, userId: Option<string>, userEmail: Option<string>)
    modifies log
    ensures log.records == old(log.records) + [AuditRecord(entityType, entityId, action, changes, userId, userEmail)]
         || log.records == old(log.records)
  {
    var outcome := log.Create(AuditRecord(entityType, entityId, action, changes, userId, userEmail));
    // A failed write is logged for the operator and goes no further.
  }
}
