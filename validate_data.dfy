/** The catalog validator (scripts/validate_data.py): each check takes part of
    the loaded hardware-specification document and returns freshly built
    `(errors, warnings)` lists. Findings are kept as structured values in the
    order the checks append them; the message text is not modelled. The
    document is a `Value`, so no check can change it. */
module CatalogValidate {
  import opened PyValues

  datatype RecordKind = DriveRecord | CpuRecord

  datatype Finding =
    | MissingKey(key: string)
    | MissingMetadataKey(key: string)
    | NoVendorData
    | VendorMissingChassis(vendor: string)
    | VendorMissingSupportedSizes(vendor: string)
    | VendorNoChassisModels(vendor: string)
    | NoStorageDrives
    | MissingField(record: RecordKind, index: nat, field: string)
    | HighCapacity(model: Value, capacityTb: Value)
    | HighReadSpeed(model: Value, seqReadMbps: Value)
    | NoCpus
    | HighCoreCount(model: Value, cores: Value)
    | NoErasureSchemes
    | MissingScheme(name: string)
    | EfficiencyMismatch(name: string, expected: real, actual: real)
    | UnknownDriveVendors(vendors: set<Value>)
    | FewPreferredDrives(count: nat)
    | FewPreferredCpus(count: nat)

  /** The keys of `keys` for which `key in v` is false, in list order */
  function Absent(keys: seq<string>, v: Value): (r: seq<string>)
    ensures |r| <= |keys|
    ensures forall k :: k in r <==> k in keys && !In(k, v)
    decreases |keys|
  {
    if keys == [] then []
    else
      var init, last := keys[..|keys| - 1], keys[|keys| - 1];
      assert keys == init + [last];
      Absent(init, v) + (if In(last, v) then [] else [last])
  }

  /** One step of a loop over `keys` */
  lemma AbsentStep(keys: seq<string>, j: nat, v: Value)
    requires j < |keys|
    ensures Absent(keys[..j + 1], v) == Absent(keys[..j], v) + (if In(keys[j], v) then [] else [keys[j]])
  {
    assert keys[..j + 1][..j] == keys[..j];
  }

  // ---------------------------------------------------------------------
  // validate_json_structure

  const REQUIRED_KEYS: seq<string> := ["metadata", "vendors", "storage_drives", "cpus", "memory", "erasure_coding"]
  const METADATA_KEYS: seq<string> := ["version", "generated", "description"]

  function AsMissingKey(key: string): (finding: Finding) { MissingKey(key) }
  function AsMissingMetadataKey(key: string): (finding: Finding) { MissingMetadataKey(key) }

  /** The document supports `in`; where it holds "metadata" it is a dict
      (`data['metadata']` indexes it) whose metadata supports `in` too */
  predicate StructureShapeOk(data: Value) {
    Sized(data) && (In("metadata", data) ==> data.Dict? && Sized(Get(data.entries, "metadata", Null)))
  }

  /** The loop `for key in keys: if key not in v: report(key)` */
  method ReportAbsent(keys: seq<string>, v: Value, report: string -> Finding) returns (found: seq<Finding>)
    requires Sized(v)
    ensures found == MapSeq(Absent(keys, v), report)
  {
    found := [];
    for j := 0 to |keys|
      invariant found == MapSeq(Absent(keys[..j], v), report)
    {
      var key := keys[j];
      ReportAbsentStep(keys, j, v, report);
      if !In(key, v) {
        found := found + [report(key)];
      }
    }
    assert keys[..|keys|] == keys;
  }

  lemma ReportAbsentStep(keys: seq<string>, j: nat, v: Value, report: string -> Finding)
    requires j < |keys|
    ensures MapSeq(Absent(keys[..j + 1], v), report)
         == MapSeq(Absent(keys[..j], v), report) + (if In(keys[j], v) then [] else [report(keys[j])])
  {
    var before := Absent(keys[..j], v);
    assert Absent(keys[..j + 1], v) == before + (if In(keys[j], v) then [] else [keys[j]]) by {
      AbsentStep(keys, j, v);
    }
    if !In(keys[j], v) {
      MapSeqAppend(before, keys[j], report);
    }
  }

  /** One error per missing top-level key, in list order; the metadata keys
      are looked up only where metadata is present, and give warnings */
  method ValidateJsonStructure(data: Value) returns (errors: seq<Finding>, warnings: seq<Finding>)
    requires StructureShapeOk(data)
    ensures errors == MapSeq(Absent(REQUIRED_KEYS, data), AsMissingKey)
    ensures !In("metadata", data) ==> warnings == []
    ensures In("metadata", data) ==>
              warnings == MapSeq(Absent(METADATA_KEYS, Get(data.entries, "metadata", Null)), AsMissingMetadataKey)
  {
    errors := ReportAbsent(REQUIRED_KEYS, data, AsMissingKey);
    warnings := [];
    if In("metadata", data) {
      var metadata := Get(data.entries, "metadata", Null);
      warnings := ReportAbsent(METADATA_KEYS, metadata, AsMissingMetadataKey);
    }
  }

  /** A required key is reported iff the document lacks it; a complete
      document gives no errors */
  lemma {:induction false} StructureErrors(data: Value)
    ensures forall k :: MissingKey(k) in MapSeq(Absent(REQUIRED_KEYS, data), AsMissingKey)
              <==> k in REQUIRED_KEYS && !In(k, data)
    ensures (MapSeq(Absent(REQUIRED_KEYS, data), AsMissingKey) == [])
              <==> (forall k | k in REQUIRED_KEYS :: In(k, data))
  {
    forall k
      ensures MissingKey(k) in MapSeq(Absent(REQUIRED_KEYS, data), AsMissingKey) <==> k in REQUIRED_KEYS && !In(k, data)
    {
      MapSeqMember(Absent(REQUIRED_KEYS, data), AsMissingKey, k);
    }
    if Absent(REQUIRED_KEYS, data) != [] {
      assert Absent(REQUIRED_KEYS, data)[0] in Absent(REQUIRED_KEYS, data);
    }
  }

  // ---------------------------------------------------------------------
  // validate_vendors

  /** `'chassis' in v` does not raise, and where it holds `v['chassis']` is a
      value with a length */
  predicate VendorShapeOk(vendor: Value) {
    Sized(vendor) && (In("chassis", vendor) ==> vendor.Dict? && Sized(Get(vendor.entries, "chassis", Null)))
  }

  predicate VendorsShapeOk(vendors: Value) {
    Truthy(vendors) ==> vendors.Dict? && forall e | e in vendors.entries :: VendorShapeOk(e.value)
  }

  function VendorErrorsOf(e: Entry): (errors: seq<Finding>) {
    if In("chassis", e.value) then [] else [VendorMissingChassis(e.key)]
  }

  /** A vendor without chassis data is skipped after its error */
  function VendorWarningsOf(e: Entry): (warnings: seq<Finding>) {
    if !In("chassis", e.value) then []
    else
      (if In("supported_sizes", e.value) then [] else [VendorMissingSupportedSizes(e.key)])
      + (if e.value.Dict? && Len(Get(e.value.entries, "chassis", Null)) == 0 then [VendorNoChassisModels(e.key)] else [])
  }

  /** `f` applied to each element in turn, the results concatenated */
  function Concat<T>(s: seq<T>, f: T -> seq<Finding>): (all: seq<Finding>)
    decreases |s|
  {
    if s == [] then [] else Concat(s[..|s| - 1], f) + f(s[|s| - 1])
  }

  lemma ConcatStep<T>(s: seq<T>, j: nat, f: T -> seq<Finding>)
    requires j < |s|
    ensures Concat(s[..j + 1], f) == Concat(s[..j], f) + f(s[j])
  {
    assert s[..j + 1][..j] == s[..j];
  }

  /** The element a finding of the concatenation comes from */
  lemma {:induction false} ConcatSource<T>(s: seq<T>, f: T -> seq<Finding>, x: Finding) returns (i: nat)
    requires x in Concat(s, f)
    ensures i < |s| && x in f(s[i])
    decreases |s|
  {
    var init := s[..|s| - 1];
    if x in Concat(init, f) {
      i := ConcatSource(init, f, x);
      assert init[i] == s[i];
    } else {
      i := |s| - 1;
    }
  }

  /** Every finding of every element is in the concatenation */
  lemma {:induction false} ConcatIncludes<T>(s: seq<T>, f: T -> seq<Finding>, i: nat)
    requires i < |s|
    ensures forall x | x in f(s[i]) :: x in Concat(s, f)
    decreases |s|
  {
    var init := s[..|s| - 1];
    if i < |s| - 1 {
      ConcatIncludes(init, f, i);
      assert init[i] == s[i];
    }
  }

  lemma {:induction false} ConcatLength<T>(s: seq<T>, f: T -> seq<Finding>, n: nat)
    requires forall x | x in s :: |f(x)| <= n
    ensures |Concat(s, f)| <= n * |s|
    decreases |s|
  {
    if s != [] {
      var init := s[..|s| - 1];
      assert forall x | x in init :: x in s;
      ConcatLength(init, f, n);
      assert |Concat(s, f)| == |Concat(init, f)| + |f(s[|s| - 1])|;
      MulSucc(n, |init|);
    }
  }

  /** The body of the loop over vendors: one vendor's error, or its
      warnings */
  method CheckVendor(name: string, vendor: Value) returns (errors: seq<Finding>, warnings: seq<Finding>)
    requires VendorShapeOk(vendor)
    ensures errors == VendorErrorsOf(Entry(name, vendor))
    ensures warnings == VendorWarningsOf(Entry(name, vendor))
  {
    errors := [];
    warnings := [];
    if !In("chassis", vendor) {
      errors := errors + [VendorMissingChassis(name)];
      return;
    }
    if !In("supported_sizes", vendor) {
      warnings := warnings + [VendorMissingSupportedSizes(name)];
    }
    var chassisCount := Len(Get(vendor.entries, "chassis", Null));
    if chassisCount == 0 {
      warnings := warnings + [VendorNoChassisModels(name)];
    }
  }

  method ValidateVendors(vendors: Value) returns (errors: seq<Finding>, warnings: seq<Finding>)
    requires VendorsShapeOk(vendors)
    ensures !Truthy(vendors) ==> errors == [NoVendorData] && warnings == []
    ensures Truthy(vendors) ==>
              errors == Concat(vendors.entries, VendorErrorsOf) && warnings == Concat(vendors.entries, VendorWarningsOf)
  {
    errors := [];
    warnings := [];
    if !Truthy(vendors) {
      errors := errors + [NoVendorData];
      return;
    }
    var es := vendors.entries;
    for i := 0 to |es|
      invariant errors == Concat(es[..i], VendorErrorsOf)
      invariant warnings == Concat(es[..i], VendorWarningsOf)
    {
      ConcatStep(es, i, VendorErrorsOf);
      ConcatStep(es, i, VendorWarningsOf);
      var vendorErrors, vendorWarnings := CheckVendor(es[i].key, es[i].value);
      errors := errors + vendorErrors;
      warnings := warnings + vendorWarnings;
    }
    assert es[..|es|] == es;
  }

  /** The only errors are missing chassis data, one per vendor without it */
  lemma {:induction false} VendorErrors(es: seq<Entry>)
    ensures forall x | x in Concat(es, VendorErrorsOf) :: x.VendorMissingChassis?
    ensures forall n :: VendorMissingChassis(n) in Concat(es, VendorErrorsOf)
              <==> exists e :: e in es && e.key == n && !In("chassis", e.value)
    ensures |Concat(es, VendorErrorsOf)| <= |es|
  {
    ConcatLength(es, VendorErrorsOf, 1);
    forall x | x in Concat(es, VendorErrorsOf)
      ensures x.VendorMissingChassis?
    {
      var i := ConcatSource(es, VendorErrorsOf, x);
    }
    forall n
      ensures VendorMissingChassis(n) in Concat(es, VendorErrorsOf)
              <==> exists e :: e in es && e.key == n && !In("chassis", e.value)
    {
      if VendorMissingChassis(n) in Concat(es, VendorErrorsOf) {
        var i := ConcatSource(es, VendorErrorsOf, VendorMissingChassis(n));
        assert es[i] in es;
      }
      if exists e :: e in es && e.key == n && !In("chassis", e.value) {
        var e :| e in es && e.key == n && !In("chassis", e.value);
        var i :| 0 <= i < |es| && es[i] == e;
        ConcatIncludes(es, VendorErrorsOf, i);
        assert VendorMissingChassis(n) in VendorErrorsOf(es[i]);
      }
    }
  }

  /** Only vendors with chassis data are checked further: they warn iff
      `supported_sizes` is absent, and iff their chassis table is empty */
  lemma {:induction false} VendorWarnings(es: seq<Entry>)
    ensures forall x | x in Concat(es, VendorWarningsOf) :: x.VendorMissingSupportedSizes? || x.VendorNoChassisModels?
    ensures forall n :: VendorMissingSupportedSizes(n) in Concat(es, VendorWarningsOf)
              <==> exists e :: e in es && e.key == n && In("chassis", e.value) && !In("supported_sizes", e.value)
    ensures forall n :: VendorNoChassisModels(n) in Concat(es, VendorWarningsOf)
              <==> (exists e :: e in es && e.key == n && In("chassis", e.value)
                      && e.value.Dict? && Len(Get(e.value.entries, "chassis", Null)) == 0)
    ensures |Concat(es, VendorWarningsOf)| <= 2 * |es|
  {
    ConcatLength(es, VendorWarningsOf, 2);
    forall x | x in Concat(es, VendorWarningsOf)
      ensures x.VendorMissingSupportedSizes? || x.VendorNoChassisModels?
    {
      var i := ConcatSource(es, VendorWarningsOf, x);
    }
    MissingSizesWarnings(es);
    NoChassisWarnings(es);
  }

  lemma {:induction false} MissingSizesWarnings(es: seq<Entry>)
    ensures forall n :: VendorMissingSupportedSizes(n) in Concat(es, VendorWarningsOf)
              <==> exists e :: e in es && e.key == n && In("chassis", e.value) && !In("supported_sizes", e.value)
  {
    forall n
      ensures VendorMissingSupportedSizes(n) in Concat(es, VendorWarningsOf)
              <==> exists e :: e in es && e.key == n && In("chassis", e.value) && !In("supported_sizes", e.value)
    {
      if VendorMissingSupportedSizes(n) in Concat(es, VendorWarningsOf) {
        var i := ConcatSource(es, VendorWarningsOf, VendorMissingSupportedSizes(n));
        assert es[i] in es;
      }
      if exists e :: e in es && e.key == n && In("chassis", e.value) && !In("supported_sizes", e.value) {
        var e :| e in es && e.key == n && In("chassis", e.value) && !In("supported_sizes", e.value);
        var i :| 0 <= i < |es| && es[i] == e;
        ConcatIncludes(es, VendorWarningsOf, i);
        assert VendorMissingSupportedSizes(n) in VendorWarningsOf(es[i]);
      }
    }
  }

  lemma {:induction false} NoChassisWarnings(es: seq<Entry>)
    ensures forall n :: VendorNoChassisModels(n) in Concat(es, VendorWarningsOf)
              <==> (exists e :: e in es && e.key == n && In("chassis", e.value)
                      && e.value.Dict? && Len(Get(e.value.entries, "chassis", Null)) == 0)
  {
    forall n
      ensures VendorNoChassisModels(n) in Concat(es, VendorWarningsOf)
              <==> (exists e :: e in es && e.key == n && In("chassis", e.value)
                      && e.value.Dict? && Len(Get(e.value.entries, "chassis", Null)) == 0)
    {
      if VendorNoChassisModels(n) in Concat(es, VendorWarningsOf) {
        var i := ConcatSource(es, VendorWarningsOf, VendorNoChassisModels(n));
        assert es[i] in es;
      }
      if exists e :: e in es && e.key == n && In("chassis", e.value)
                     && e.value.Dict? && Len(Get(e.value.entries, "chassis", Null)) == 0 {
        var e :| e in es && e.key == n && In("chassis", e.value)
                 && e.value.Dict? && Len(Get(e.value.entries, "chassis", Null)) == 0;
        var i :| 0 <= i < |es| && es[i] == e;
        ConcatIncludes(es, VendorWarningsOf, i);
        assert VendorNoChassisModels(n) in VendorWarningsOf(es[i]);
      }
    }
  }


  // ---------------------------------------------------------------------
  // Required fields of drive and CPU records

  const DRIVE_FIELDS: seq<string> := ["vendor", "model", "capacity_tb", "seq_read_mbps", "power_active_w"]
  const CPU_FIELDS: seq<string> := ["vendor", "model", "cores"]

  /** `field not in record or record[field] is None` */
  predicate FieldMissing(record: Row, field: string) {
    !HasKey(record, field) || Get(record, field, Null) == Null
  }

  /** The errors for one record, field by field */
  function FieldErrors(kind: RecordKind, index: nat, record: Row, fields: seq<string>): (errors: seq<Finding>)
    decreases |fields|
  {
    if fields == [] then []
    else
      FieldErrors(kind, index, record, fields[..|fields| - 1])
      + (if FieldMissing(record, fields[|fields| - 1]) then [MissingField(kind, index, fields[|fields| - 1])] else [])
  }

  /** One error per required field that is absent or None, and no other */
  lemma {:induction false} FieldErrorsSpec(kind: RecordKind, index: nat, record: Row, fields: seq<string>)
    ensures |FieldErrors(kind, index, record, fields)| <= |fields|
    ensures forall x | x in FieldErrors(kind, index, record, fields) ::
              x.MissingField? && x.record == kind && x.index == index
              && x.field in fields && FieldMissing(record, x.field)
    ensures forall f | f in fields && FieldMissing(record, f) ::
              MissingField(kind, index, f) in FieldErrors(kind, index, record, fields)
    decreases |fields|
  {
    if fields != [] {
      var init, last := fields[..|fields| - 1], fields[|fields| - 1];
      assert fields == init + [last];
      FieldErrorsSpec(kind, index, record, init);
    }
  }

  /** The errors for every record, in record order */
  function RecordErrors(kind: RecordKind, records: seq<Row>, fields: seq<string>): (errors: seq<Finding>)
    decreases |records|
  {
    if records == [] then []
    else
      var init := records[..|records| - 1];
      RecordErrors(kind, init, fields) + FieldErrors(kind, |init|, records[|init|], fields)
  }

  /** One error per (record index, required field) pair whose field is
      absent or None, and no other error */
  lemma {:induction false} RecordErrorsSpec(kind: RecordKind, records: seq<Row>, fields: seq<string>)
    ensures |RecordErrors(kind, records, fields)| <= |fields| * |records|
    ensures forall x | x in RecordErrors(kind, records, fields) ::
              x.MissingField? && x.record == kind && x.index < |records|
              && x.field in fields && FieldMissing(records[x.index], x.field)
    ensures forall i, f | 0 <= i < |records| && f in fields && FieldMissing(records[i], f) ::
              MissingField(kind, i, f) in RecordErrors(kind, records, fields)
    decreases |records|
  {
    if records != [] {
      var init := records[..|records| - 1];
      RecordErrorsSpec(kind, init, fields);
      FieldErrorsSpec(kind, |init|, records[|init|], fields);
      var before := RecordErrors(kind, init, fields);
      var own := FieldErrors(kind, |init|, records[|init|], fields);
      var r := RecordErrors(kind, records, fields);
      assert r == before + own;
      MulSucc(|fields|, |init|);
      forall x | x in r
        ensures x.MissingField? && x.record == kind && x.index < |records|
                && x.field in fields && FieldMissing(records[x.index], x.field)
      {
        if x in before {
          assert records[x.index] == init[x.index];
        }
      }
      forall i, f | 0 <= i < |records| && f in fields && FieldMissing(records[i], f)
        ensures MissingField(kind, i, f) in r
      {
        if i < |init| {
          assert init[i] == records[i];
        }
      }
    }
  }

  /** No element occurs twice */
  predicate NoRepeats<T(==)>(s: seq<T>) {
    forall i, j | 0 <= i < j < |s| :: s[i] != s[j]
  }

  lemma NoRepeatsAppend<T>(a: seq<T>, b: seq<T>)
    requires NoRepeats(a) && NoRepeats(b)
    requires forall x | x in a :: x !in b
    ensures NoRepeats(a + b)
  {
    forall i, j | 0 <= i < j < |a + b|
      ensures (a + b)[i] != (a + b)[j]
    {
      if i < |a| && |a| <= j {
        assert (a + b)[i] in a;
        assert (a + b)[j] == b[j - |a|];
      }
    }
  }

  /** Distinct required fields give a record distinct errors */
  lemma {:induction false} FieldErrorsNoRepeats(kind: RecordKind, index: nat, record: Row, fields: seq<string>)
    requires NoRepeats(fields)
    ensures NoRepeats(FieldErrors(kind, index, record, fields))
    decreases |fields|
  {
    if fields != [] {
      var init, last := fields[..|fields| - 1], fields[|fields| - 1];
      assert NoRepeats(init);
      assert last !in init;
      FieldErrorsNoRepeats(kind, index, record, init);
      FieldErrorsSpec(kind, index, record, init);
      NoRepeatsAppend(FieldErrors(kind, index, record, init),
        if FieldMissing(record, last) then [MissingField(kind, index, last)] else []);
    }
  }

  /** With distinct required fields (as DRIVE_FIELDS and CPU_FIELDS are), no
      (record index, field) pair is reported twice */
  lemma {:induction false} RecordErrorsNoRepeats(kind: RecordKind, records: seq<Row>, fields: seq<string>)
    requires NoRepeats(fields)
    ensures NoRepeats(RecordErrors(kind, records, fields))
    decreases |records|
  {
    if records != [] {
      var init := records[..|records| - 1];
      RecordErrorsNoRepeats(kind, init, fields);
      RecordErrorsSpec(kind, init, fields);
      FieldErrorsNoRepeats(kind, |init|, records[|init|], fields);
      FieldErrorsSpec(kind, |init|, records[|init|], fields);
      NoRepeatsAppend(RecordErrors(kind, init, fields), FieldErrors(kind, |init|, records[|init|], fields));
    }
  }

  /** The validator's two field lists name each field once */
  lemma RequiredFieldsDistinct()
    ensures NoRepeats(DRIVE_FIELDS) && NoRepeats(CPU_FIELDS)
  {
  }

  lemma MulSucc(a: nat, b: nat)
    ensures a * (b + 1) == a * b + a
  {
  }

  lemma RecordErrorsStep(kind: RecordKind, records: seq<Row>, i: nat, fields: seq<string>)
    requires i < |records|
    ensures RecordErrors(kind, records[..i + 1], fields)
         == RecordErrors(kind, records[..i], fields) + FieldErrors(kind, i, records[i], fields)
  {
    assert records[..i + 1][..i] == records[..i];
  }

  lemma FieldErrorsStep(kind: RecordKind, index: nat, record: Row, fields: seq<string>, j: nat)
    requires j < |fields|
    ensures FieldErrors(kind, index, record, fields[..j + 1])
         == FieldErrors(kind, index, record, fields[..j])
            + (if FieldMissing(record, fields[j]) then [MissingField(kind, index, fields[j])] else [])
  {
    assert fields[..j + 1][..j] == fields[..j];
  }

  /** The inner loop over the required fields of one record */
  method MissingFields(kind: RecordKind, index: nat, record: Row, fields: seq<string>) returns (errors: seq<Finding>)
    ensures errors == FieldErrors(kind, index, record, fields)
  {
    errors := [];
    for j := 0 to |fields|
      invariant errors == FieldErrors(kind, index, record, fields[..j])
    {
      FieldErrorsStep(kind, index, record, fields, j);
      var field := fields[j];
      if !HasKey(record, field) || Get(record, field, Null) == Null {
        errors := errors + [MissingField(kind, index, field)];
      }
    }
    assert fields[..|fields|] == fields;
  }

  /** The dict records of a list, as rows */
  function Records(items: seq<Value>): (records: seq<Row>)
    requires forall x | x in items :: x.Dict?
    ensures |records| == |items| && forall i | 0 <= i < |items| :: records[i] == items[i].entries
  {
    seq(|items|, i requires 0 <= i < |items| => items[i].entries)
  }

  /** `record.get('model', 'unknown')` */
  function ModelOf(record: Row): (model: Value) {
    Get(record, "model", Str("unknown"))
  }

  /** `record.get(key, 0)` */
  function NumberField(record: Row, key: string): (value: Value) {
    Get(record, key, Int(0))
  }

  // ---------------------------------------------------------------------
  // validate_storage_drives

  /** The comparisons of the preference, capacity and read speed with numbers
      do not raise */
  predicate DriveShapeOk(item: Value) {
    && item.Dict?
    && IsNumber(NumberField(item.entries, "preferred"))
    && IsNumber(NumberField(item.entries, "capacity_tb"))
    && IsNumber(NumberField(item.entries, "seq_read_mbps"))
  }

  predicate DrivesShapeOk(drives: Value) {
    Truthy(drives) ==> drives.List? && forall x | x in drives.items :: DriveShapeOk(x)
  }

  predicate CapacityTooHigh(record: Row) {
    NumValue(NumberField(record, "capacity_tb")) > 100.0
  }

  predicate ReadSpeedTooHigh(record: Row) {
    NumValue(NumberField(record, "seq_read_mbps")) > 10000.0
  }

  function DriveWarningsOf(record: Row): (warnings: seq<Finding>) {
    (if CapacityTooHigh(record) then [HighCapacity(ModelOf(record), Get(record, "capacity_tb", Null))] else [])
    + (if ReadSpeedTooHigh(record) then [HighReadSpeed(ModelOf(record), Get(record, "seq_read_mbps", Null))] else [])
  }

  method ValidateStorageDrives(drives: Value) returns (errors: seq<Finding>, warnings: seq<Finding>)
    requires DrivesShapeOk(drives)
    ensures !Truthy(drives) ==> errors == [NoStorageDrives] && warnings == []
    ensures Truthy(drives) ==>
              && errors == RecordErrors(DriveRecord, Records(drives.items), DRIVE_FIELDS)
              && warnings == Concat(Records(drives.items), DriveWarningsOf)
  {
    errors := [];
    warnings := [];
    if !Truthy(drives) {
      errors := errors + [NoStorageDrives];
      return;
    }
    var requiredFields := DRIVE_FIELDS;
    var records := Records(drives.items);
    for i := 0 to |records|
      invariant errors == RecordErrors(DriveRecord, records[..i], requiredFields)
      invariant warnings == Concat(records[..i], DriveWarningsOf)
    {
      var drive := records[i];
      RecordErrorsStep(DriveRecord, records, i, requiredFields);
      ConcatStep(records, i, DriveWarningsOf);
      var missing := MissingFields(DriveRecord, i, drive, requiredFields);
      errors := errors + missing;
      if CapacityTooHigh(drive) {
        warnings := warnings + [HighCapacity(ModelOf(drive), Get(drive, "capacity_tb", Null))];
      }
      if ReadSpeedTooHigh(drive) {
        warnings := warnings + [HighReadSpeed(ModelOf(drive), Get(drive, "seq_read_mbps", Null))];
      }
    }
    assert records[..|records|] == records;
  }

  /** Drive warnings: one per drive whose capacity exceeds 100 TB and one per
      drive whose sequential read exceeds 10000 MB/s, and nothing else */
  lemma {:induction false} DriveWarnings(records: seq<Row>)
    ensures forall x | x in Concat(records, DriveWarningsOf) :: x.HighCapacity? || x.HighReadSpeed?
    ensures forall i | 0 <= i < |records| && CapacityTooHigh(records[i]) ::
              HighCapacity(ModelOf(records[i]), Get(records[i], "capacity_tb", Null)) in Concat(records, DriveWarningsOf)
    ensures forall i | 0 <= i < |records| && ReadSpeedTooHigh(records[i]) ::
              HighReadSpeed(ModelOf(records[i]), Get(records[i], "seq_read_mbps", Null)) in Concat(records, DriveWarningsOf)
    ensures forall m, c :: HighCapacity(m, c) in Concat(records, DriveWarningsOf) ==>
              exists i :: 0 <= i < |records| && CapacityTooHigh(records[i])
                && ModelOf(records[i]) == m && Get(records[i], "capacity_tb", Null) == c
    ensures forall m, c :: HighReadSpeed(m, c) in Concat(records, DriveWarningsOf) ==>
              exists i :: 0 <= i < |records| && ReadSpeedTooHigh(records[i])
                && ModelOf(records[i]) == m && Get(records[i], "seq_read_mbps", Null) == c
    ensures |Concat(records, DriveWarningsOf)| <= 2 * |records|
  {
    ConcatLength(records, DriveWarningsOf, 2);
    forall x | x in Concat(records, DriveWarningsOf)
      ensures x.HighCapacity? || x.HighReadSpeed?
    {
      var i := ConcatSource(records, DriveWarningsOf, x);
    }
    forall i | 0 <= i < |records| && CapacityTooHigh(records[i])
      ensures HighCapacity(ModelOf(records[i]), Get(records[i], "capacity_tb", Null)) in Concat(records, DriveWarningsOf)
    {
      ConcatIncludes(records, DriveWarningsOf, i);
      assert HighCapacity(ModelOf(records[i]), Get(records[i], "capacity_tb", Null)) in DriveWarningsOf(records[i]);
    }
    forall i | 0 <= i < |records| && ReadSpeedTooHigh(records[i])
      ensures HighReadSpeed(ModelOf(records[i]), Get(records[i], "seq_read_mbps", Null)) in Concat(records, DriveWarningsOf)
    {
      ConcatIncludes(records, DriveWarningsOf, i);
      assert HighReadSpeed(ModelOf(records[i]), Get(records[i], "seq_read_mbps", Null)) in DriveWarningsOf(records[i]);
    }
    forall m, c | HighCapacity(m, c) in Concat(records, DriveWarningsOf)
      ensures exists i :: 0 <= i < |records| && CapacityTooHigh(records[i])
                && ModelOf(records[i]) == m && Get(records[i], "capacity_tb", Null) == c
    {
      var i := ConcatSource(records, DriveWarningsOf, HighCapacity(m, c));
    }
    forall m, c | HighReadSpeed(m, c) in Concat(records, DriveWarningsOf)
      ensures exists i :: 0 <= i < |records| && ReadSpeedTooHigh(records[i])
                && ModelOf(records[i]) == m && Get(records[i], "seq_read_mbps", Null) == c
    {
      var i := ConcatSource(records, DriveWarningsOf, HighReadSpeed(m, c));
    }
  }

  // ---------------------------------------------------------------------
  // validate_cpus

  /** The preference compares with a number, and a truthy core count too */
  predicate CpuShapeOk(item: Value) {
    item.Dict? && IsNumber(NumberField(item.entries, "preferred")) && Orderable(NumberField(item.entries, "cores"))
  }

  predicate CpusShapeOk(cpus: Value) {
    Truthy(cpus) ==> cpus.List? && forall x | x in cpus.items :: CpuShapeOk(x)
  }

  /** `cores and cores > 128` */
  predicate CoresTooHigh(record: Row) {
    Truthy(NumberField(record, "cores")) && NumValue(NumberField(record, "cores")) > 128.0
  }

  function CpuWarningsOf(record: Row): (warnings: seq<Finding>) {
    if CoresTooHigh(record) then [HighCoreCount(ModelOf(record), NumberField(record, "cores"))] else []
  }

  method ValidateCpus(cpus: Value) returns (errors: seq<Finding>, warnings: seq<Finding>)
    requires CpusShapeOk(cpus)
    ensures !Truthy(cpus) ==> errors == [NoCpus] && warnings == []
    ensures Truthy(cpus) ==>
              && errors == RecordErrors(CpuRecord, Records(cpus.items), CPU_FIELDS)
              && warnings == Concat(Records(cpus.items), CpuWarningsOf)
  {
    errors := [];
    warnings := [];
    if !Truthy(cpus) {
      errors := errors + [NoCpus];
      return;
    }
    var requiredFields := CPU_FIELDS;
    var records := Records(cpus.items);
    for i := 0 to |records|
      invariant errors == RecordErrors(CpuRecord, records[..i], requiredFields)
      invariant warnings == Concat(records[..i], CpuWarningsOf)
    {
      var cpu := records[i];
      RecordErrorsStep(CpuRecord, records, i, requiredFields);
      ConcatStep(records, i, CpuWarningsOf);
      var missing := MissingFields(CpuRecord, i, cpu, requiredFields);
      errors := errors + missing;
      var cores := NumberField(cpu, "cores");
      if Truthy(cores) && NumValue(cores) > 128.0 {
        warnings := warnings + [HighCoreCount(ModelOf(cpu), cores)];
      }
    }
    assert records[..|records|] == records;
  }

  /** A CPU warning is emitted exactly for the CPUs whose core count is
      truthy and above 128 */
  lemma {:induction false} CpuWarnings(records: seq<Row>)
    ensures forall x | x in Concat(records, CpuWarningsOf) :: x.HighCoreCount?
    ensures forall i | 0 <= i < |records| && CoresTooHigh(records[i]) ::
              HighCoreCount(ModelOf(records[i]), NumberField(records[i], "cores")) in Concat(records, CpuWarningsOf)
    ensures forall m, c :: HighCoreCount(m, c) in Concat(records, CpuWarningsOf) ==>
              exists i :: 0 <= i < |records| && CoresTooHigh(records[i])
                && ModelOf(records[i]) == m && NumberField(records[i], "cores") == c
    ensures |Concat(records, CpuWarningsOf)| <= |records|
  {
    ConcatLength(records, CpuWarningsOf, 1);
    forall x | x in Concat(records, CpuWarningsOf)
      ensures x.HighCoreCount?
    {
      var i := ConcatSource(records, CpuWarningsOf, x);
    }
    forall i | 0 <= i < |records| && CoresTooHigh(records[i])
      ensures HighCoreCount(ModelOf(records[i]), NumberField(records[i], "cores")) in Concat(records, CpuWarningsOf)
    {
      ConcatIncludes(records, CpuWarningsOf, i);
      assert HighCoreCount(ModelOf(records[i]), NumberField(records[i], "cores")) in CpuWarningsOf(records[i]);
    }
    forall m, c | HighCoreCount(m, c) in Concat(records, CpuWarningsOf)
      ensures exists i :: 0 <= i < |records| && CoresTooHigh(records[i])
                && ModelOf(records[i]) == m && NumberField(records[i], "cores") == c
    {
      var i := ConcatSource(records, CpuWarningsOf, HighCoreCount(m, c));
    }
  }

  // ---------------------------------------------------------------------
  // validate_erasure_coding

  const REQUIRED_SCHEMES: seq<string> := ["EC 8:3", "EC 8:2", "EC 8:4"]

  function AsMissingScheme(name: string): (finding: Finding) { MissingScheme(name) }

  function DataBlocks(scheme: Row): (blocks: real) { NumValue(Get(scheme, "data_blocks", Null)) }
  function ParityBlocks(scheme: Row): (blocks: real) { NumValue(Get(scheme, "parity_blocks", Null)) }

  /** `scheme['data_blocks']` and `scheme['parity_blocks']` exist and are
      numbers with a nonzero sum, and the efficiency is a number */
  predicate SchemeShapeOk(scheme: Value) {
    && scheme.Dict?
    && HasKey(scheme.entries, "data_blocks") && IsNumber(Get(scheme.entries, "data_blocks", Null))
    && HasKey(scheme.entries, "parity_blocks") && IsNumber(Get(scheme.entries, "parity_blocks", Null))
    && DataBlocks(scheme.entries) + ParityBlocks(scheme.entries) != 0.0
    && IsNumber(NumberField(scheme.entries, "efficiency"))
  }

  /** Where the table holds `name`, it is a dict and that scheme is well
      shaped */
  predicate SchemeUsable(schemes: Value, name: string) {
    In(name, schemes) ==> schemes.Dict? && SchemeShapeOk(Get(schemes.entries, name, Null))
  }

  /** The table supports `in`, and each required scheme present in it is
      well shaped */
  predicate SchemesShapeOk(schemes: Value) {
    && Sized(schemes)
    && SchemeUsable(schemes, REQUIRED_SCHEMES[0])
    && SchemeUsable(schemes, REQUIRED_SCHEMES[1])
    && SchemeUsable(schemes, REQUIRED_SCHEMES[2])
  }

  predicate ErasureShapeOk(ec: Value) {
    Truthy(ec) ==> Sized(ec) && (In("schemes", ec) ==> ec.Dict? && SchemesShapeOk(Get(ec.entries, "schemes", Null)))
  }

  /** `schemes[name]` */
  function SchemeOf(schemes: Value, name: string): (scheme: Row)
    requires In(name, schemes) && SchemeUsable(schemes, name)
    ensures DataBlocks(scheme) + ParityBlocks(scheme) != 0.0
  {
    Get(schemes.entries, name, Null).entries
  }

  /** data / (data + parity) */
  function ExpectedEfficiency(scheme: Row): (efficiency: real)
    requires DataBlocks(scheme) + ParityBlocks(scheme) != 0.0
  {
    DataBlocks(scheme) / (DataBlocks(scheme) + ParityBlocks(scheme))
  }

  function ActualEfficiency(scheme: Row): (efficiency: real) {
    NumValue(NumberField(scheme, "efficiency"))
  }

  function Abs(x: real): (a: real) { if x < 0.0 then -x else x }

  /** The stored efficiency is off by more than 0.001 */
  predicate EfficiencyOff(scheme: Row)
    requires DataBlocks(scheme) + ParityBlocks(scheme) != 0.0
  {
    Abs(ExpectedEfficiency(scheme) - ActualEfficiency(scheme)) > 0.001
  }

  /** The error, if any, for the required scheme `name` */
  function SchemeErrorOf(schemes: Value, name: string): (errors: seq<Finding>)
    requires SchemeUsable(schemes, name)
  {
    if !In(name, schemes) then []
    else
      var scheme := SchemeOf(schemes, name);
      if EfficiencyOff(scheme) then [EfficiencyMismatch(name, ExpectedEfficiency(scheme), ActualEfficiency(scheme))]
      else []
  }

  /** The mismatch errors for the required schemes `names`, in order */
  function SchemeErrors(names: seq<string>, schemes: Value): (errors: seq<Finding>)
    requires forall k | 0 <= k < |names| :: SchemeUsable(schemes, names[k])
    decreases |names|
  {
    if names == [] then []
    else
      SchemeErrors(names[..|names| - 1], schemes) + SchemeErrorOf(schemes, names[|names| - 1])
  }

  lemma SchemeErrorsStep(names: seq<string>, j: nat, schemes: Value)
    requires j < |names|
    requires forall k | 0 <= k < |names| :: SchemeUsable(schemes, names[k])
    ensures SchemeErrors(names[..j + 1], schemes) == SchemeErrors(names[..j], schemes) + SchemeErrorOf(schemes, names[j])
  {
    assert names[..j + 1][..j] == names[..j];
  }

  /** The body of the loop over required schemes: a warning when `name` is
      missing, otherwise the mismatch error, if any */
  method CheckScheme(schemes: Value, name: string) returns (errors: seq<Finding>, warnings: seq<Finding>)
    requires SchemeUsable(schemes, name)
    ensures warnings == (if In(name, schemes) then [] else [MissingScheme(name)])
    ensures errors == SchemeErrorOf(schemes, name)
  {
    errors := [];
    warnings := [];
    if !In(name, schemes) {
      warnings := warnings + [MissingScheme(name)];
    } else {
      var scheme := SchemeOf(schemes, name);
      var expected := ExpectedEfficiency(scheme);
      var actual := ActualEfficiency(scheme);
      if Abs(expected - actual) > 0.001 {
        errors := errors + [EfficiencyMismatch(name, expected, actual)];
      }
    }
  }

  method ValidateErasureCoding(ec: Value) returns (errors: seq<Finding>, warnings: seq<Finding>)
    requires ErasureShapeOk(ec)
    ensures !(Truthy(ec) && In("schemes", ec)) ==> errors == [NoErasureSchemes] && warnings == []
    ensures Truthy(ec) && In("schemes", ec) ==>
              var schemes := Get(ec.entries, "schemes", Null);
              && warnings == MapSeq(Absent(REQUIRED_SCHEMES, schemes), AsMissingScheme)
              && errors == SchemeErrors(REQUIRED_SCHEMES, schemes)
  {
    errors := [];
    warnings := [];
    if !Truthy(ec) || !In("schemes", ec) {
      errors := errors + [NoErasureSchemes];
      return;
    }
    var schemes := Get(ec.entries, "schemes", Null);
    var requiredSchemes := REQUIRED_SCHEMES;
    assert forall k | 0 <= k < |requiredSchemes| :: SchemeUsable(schemes, requiredSchemes[k]);
    for j := 0 to |requiredSchemes|
      invariant warnings == MapSeq(Absent(requiredSchemes[..j], schemes), AsMissingScheme)
      invariant errors == SchemeErrors(requiredSchemes[..j], schemes)
    {
      var schemeErrors, schemeWarnings := CheckScheme(schemes, requiredSchemes[j]);
      ReportAbsentStep(requiredSchemes, j, schemes, AsMissingScheme);
      SchemeErrorsStep(requiredSchemes, j, schemes);
      errors := errors + schemeErrors;
      warnings := warnings + schemeWarnings;
    }
    assert requiredSchemes[..|requiredSchemes|] == requiredSchemes;
  }

  /** A required scheme is reported missing iff the table lacks it */
  lemma SchemeWarnings(names: seq<string>, schemes: Value)
    ensures forall n :: MissingScheme(n) in MapSeq(Absent(names, schemes), AsMissingScheme)
              <==> n in names && !In(n, schemes)
  {
    forall n
      ensures MissingScheme(n) in MapSeq(Absent(names, schemes), AsMissingScheme) <==> n in names && !In(n, schemes)
    {
      MapSeqMember(Absent(names, schemes), AsMissingScheme, n);
    }
  }

  /** A present required scheme gives an error iff its stored efficiency is
      more than 0.001 away from data / (data + parity), and the error
      carries both values; nothing else is an error */
  lemma {:induction false} SchemeErrorsSpec(names: seq<string>, schemes: Value)
    requires forall k | 0 <= k < |names| :: SchemeUsable(schemes, names[k])
    ensures forall x | x in SchemeErrors(names, schemes) ::
              && x.EfficiencyMismatch? && x.name in names && In(x.name, schemes)
              && EfficiencyOff(SchemeOf(schemes, x.name))
              && x.expected == ExpectedEfficiency(SchemeOf(schemes, x.name))
              && x.actual == ActualEfficiency(SchemeOf(schemes, x.name))
    ensures forall n | n in names && In(n, schemes) && EfficiencyOff(SchemeOf(schemes, n)) ::
              EfficiencyMismatch(n, ExpectedEfficiency(SchemeOf(schemes, n)), ActualEfficiency(SchemeOf(schemes, n)))
                in SchemeErrors(names, schemes)
    decreases |names|
  {
    if names != [] {
      var init, name := names[..|names| - 1], names[|names| - 1];
      assert names == init + [name];
      SchemeErrorsSpec(init, schemes);
      assert SchemeErrors(names, schemes) == SchemeErrors(init, schemes) + SchemeErrorOf(schemes, name);
    }
  }

  // ---------------------------------------------------------------------
  // validate_consistency

  /** What `for d in v` iterates over as dicts without raising: a list of
      dicts, or an empty dict or string */
  predicate RecordList(v: Value) {
    (v.List? && forall x | x in v.items :: x.Dict?) || v == Dict([]) || v == Str("")
  }

  function RecordsOf(v: Value): (records: seq<Row>)
    requires RecordList(v)
  {
    if v.List? then Records(v.items) else []
  }

  function DriveList(data: Value): (drives: Value) requires data.Dict? { Get(data.entries, "storage_drives", List([])) }
  function CpuList(data: Value): (cpus: Value) requires data.Dict? { Get(data.entries, "cpus", List([])) }

  /** `d.get('preferred', 0) <= 2`: an unranked record counts as preferred */
  predicate IsPreferred(record: Row) {
    NumValue(NumberField(record, "preferred")) <= 2.0
  }

  predicate ConsistencyShapeOk(data: Value) {
    && data.Dict?
    && Get(data.entries, "vendors", Dict([])).Dict?
    && RecordList(DriveList(data))
    && (forall r | r in RecordsOf(DriveList(data)) ::
          IsNumber(NumberField(r, "preferred"))
          && (Truthy(Get(r, "vendor", Null)) ==> IsScalar(Get(r, "vendor", Null))))
    && RecordList(CpuList(data))
    && (forall r | r in RecordsOf(CpuList(data)) :: IsNumber(NumberField(r, "preferred")))
  }

  /** `set(vendors.keys())` */
  function VendorNames(vendors: seq<Entry>): (names: set<Value>) {
    set e | e in vendors :: Str(e.key)
  }

  /** The truthy drive vendors */
  function DriveVendors(records: seq<Row>): (vendors: set<Value>)
    ensures forall v :: v in vendors <==>
              exists i :: 0 <= i < |records| && Truthy(Get(records[i], "vendor", Null)) && Get(records[i], "vendor", Null) == v
    decreases |records|
  {
    if records == [] then {}
    else
      var init, last := records[..|records| - 1], records[|records| - 1];
      var vendors := DriveVendors(init);
      assert forall i | 0 <= i < |init| :: init[i] == records[i];
      var vendor := Get(last, "vendor", Null);
      if Truthy(vendor) then vendors + {vendor} else vendors
  }

  /** The loop that collects the drive vendors */
  method CollectDriveVendors(drives: seq<Row>) returns (driveVendors: set<Value>)
    ensures driveVendors == DriveVendors(drives)
  {
    driveVendors := {};
    for i := 0 to |drives|
      invariant driveVendors == DriveVendors(drives[..i])
    {
      assert drives[..i + 1][..i] == drives[..i];
      var vendor := Get(drives[i], "vendor", Null);
      if Truthy(vendor) {
        driveVendors := driveVendors + {vendor};
      }
    }
    assert drives[..|drives|] == drives;
  }

  /** `[d for d in records if d.get('preferred', 0) <= 2]` */
  function Preferred(records: seq<Row>): (r: seq<Row>)
    ensures |r| <= |records|
    ensures forall x :: x in r <==> x in records && IsPreferred(x)
    decreases |records|
  {
    if records == [] then []
    else
      var init, last := records[..|records| - 1], records[|records| - 1];
      assert records == init + [last];
      Preferred(init) + (if IsPreferred(last) then [last] else [])
  }

  /** The warnings of validate_consistency, in the order it appends them,
      given the drive vendors missing from the vendor keys and the numbers
      of preferred drives and CPUs */
  function ConsistencyWarnings(unknownVendors: set<Value>, preferredDrives: nat, preferredCpus: nat): (warnings: seq<Finding>) {
    (if unknownVendors != {} then [UnknownDriveVendors(unknownVendors)] else [])
    + (if preferredDrives < 3 then [FewPreferredDrives(preferredDrives)] else [])
    + (if preferredCpus < 2 then [FewPreferredCpus(preferredCpus)] else [])
  }

  /** A warning iff some drive vendor is not a vendor key (naming exactly
      those), iff fewer than three drives are preferred, iff fewer than two
      CPUs are (giving the count) */
  lemma ConsistencyWarningsSpec(driveVendors: set<Value>, allVendors: set<Value>, drives: nat, cpus: nat)
    ensures |ConsistencyWarnings(driveVendors - allVendors, drives, cpus)| <= 3
    ensures (UnknownDriveVendors(driveVendors - allVendors) in ConsistencyWarnings(driveVendors - allVendors, drives, cpus))
              <==> !(driveVendors <= allVendors)
    ensures forall x | x in ConsistencyWarnings(driveVendors - allVendors, drives, cpus) && x.UnknownDriveVendors? ::
              x.vendors == driveVendors - allVendors
    ensures FewPreferredDrives(drives) in ConsistencyWarnings(driveVendors - allVendors, drives, cpus) <==> drives < 3
    ensures forall x | x in ConsistencyWarnings(driveVendors - allVendors, drives, cpus) && x.FewPreferredDrives? ::
              x.count == drives
    ensures FewPreferredCpus(cpus) in ConsistencyWarnings(driveVendors - allVendors, drives, cpus) <==> cpus < 2
    ensures forall x | x in ConsistencyWarnings(driveVendors - allVendors, drives, cpus) && x.FewPreferredCpus? ::
              x.count == cpus
  {
    if !(driveVendors <= allVendors) {
      var v :| v in driveVendors && v !in allVendors;
      assert v in driveVendors - allVendors;
    }
  }

  /** Never an error; the warnings are those above */
  method ValidateConsistency(data: Value) returns (errors: seq<Finding>, warnings: seq<Finding>)
    requires ConsistencyShapeOk(data)
    ensures errors == []
    ensures warnings == ConsistencyWarnings(
              DriveVendors(RecordsOf(DriveList(data))) - VendorNames(Get(data.entries, "vendors", Dict([])).entries),
              |Preferred(RecordsOf(DriveList(data)))|,
              |Preferred(RecordsOf(CpuList(data)))|)
  {
    errors := [];
    warnings := [];
    var allVendors := VendorNames(Get(data.entries, "vendors", Dict([])).entries);
    var drives := RecordsOf(DriveList(data));
    var driveVendors := CollectDriveVendors(drives);
    var missingVendors := driveVendors - allVendors;
    if missingVendors != {} {
      warnings := warnings + [UnknownDriveVendors(missingVendors)];
    }
    var preferredDrives := Preferred(drives);
    if |preferredDrives| < 3 {
      warnings := warnings + [FewPreferredDrives(|preferredDrives|)];
    }
    var preferredCpus := Preferred(RecordsOf(CpuList(data)));
    if |preferredCpus| < 2 {
      warnings := warnings + [FewPreferredCpus(|preferredCpus|)];
    }
  }
}
