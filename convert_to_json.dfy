/** The record processing of the catalog converter (scripts/convert_to_json.py):
    the unit and power-string parsers, the chassis size classifier, the
    filter-and-sort of drive, CPU and memory rows, the fixed erasure-scheme
    table and the grouping of chassis by vendor. Rows are the CSV rows the
    converter loads; Python's `float()` and `int()` are parameters
    (`None` where they raise ValueError). */
module CatalogConvert {
  import opened PyValues
  import opened KeySort

  /** Python's `float(s)`: `None` where it raises ValueError */
  type FloatParser = string -> Option<real>

  /** Python's `int(s)`: `None` where it raises ValueError */
  type IntParser = string -> Option<int>

  // ---------------------------------------------------------------------
  // parse_capacity

  predicate HasUnit(u: string) {
    Contains(u, "TB") || Contains(u, "GB") || Contains(u, "PB")
  }

  /** Capacity in TB of a `Capacity` cell. `None` where `float()` raises,
      which parse_capacity does not catch. */
  function ParseCapacity(v: Value, parseFloat: FloatParser): (r: Option<real>)
    requires IsScalar(v)
    ensures !(v.Str? && HasUnit(Upper(v.s))) ==> r == Some(0.0)
  {
    if !Truthy(v) || !v.Str? then Some(0.0)
    else
      var u := Upper(v.s);
      if Contains(u, "TB") then parseFloat(RemoveAll(u, "TB"))
      else if Contains(u, "GB") then
        match parseFloat(RemoveAll(u, "GB"))
        case Some(x) => Some(x / 1000.0)
        case None => None
      else if Contains(u, "PB") then
        match parseFloat(RemoveAll(u, "PB"))
        case Some(x) => Some(x * 1000.0)
        case None => None
      else Some(0.0)
  }

  /** A plain decimal numeral: digits and points only */
  predicate IsDecimal(n: string) {
    forall k | 0 <= k < |n| :: '0' <= n[k] <= '9' || n[k] == '.'
  }

  /** TB per unit */
  function UnitFactor(unit: string): (factor: real) {
    if unit == "GB" then 0.001 else if unit == "PB" then 1000.0 else 1.0
  }

  lemma UpperDecimal(n: string)
    requires IsDecimal(n)
    ensures Upper(n) == n
  {
    assert forall k | 0 <= k < |n| :: Upper(n)[k] == n[k];
  }

  /** A numeral followed by a unit is converted to TB: TB as is, GB divided
      by 1000, PB multiplied by 1000 (with CapacityCaseInsensitive, the unit
      may be written in any letter case) */
  lemma CapacityWithUnit(n: string, u: string, parseFloat: FloatParser)
    requires IsDecimal(n)
    requires u == "TB" || u == "GB" || u == "PB"
    ensures ParseCapacity(Str(n + u), parseFloat)
         == match parseFloat(n)
            case Some(x) => Some(x * UnitFactor(u))
            case None => None
  {
    UpperAppend(n, u);
    UpperDecimal(n);
    UpperUnit(u);
    StripUnit(n, u);
    if u == "GB" {
      NotContainsWithoutHead(n + u, "TB");
    } else if u == "PB" {
      NotContainsWithoutHead(n + u, "TB");
      NotContainsWithoutHead(n + u, "GB");
    }
  }

  lemma UpperUnit(u: string)
    requires u == "TB" || u == "GB" || u == "PB"
    ensures Upper(u) == u
  {
    assert Upper(u)[0] == u[0] && Upper(u)[1] == u[1];
  }

  /** The unit is found at the end of the numeral, and removing it leaves
      the numeral */
  lemma StripUnit(n: string, u: string)
    requires IsDecimal(n)
    requires u == "TB" || u == "GB" || u == "PB"
    ensures Contains(n + u, u) && RemoveAll(n + u, u) == n
  {
    assert u[0] !in n;
    ContainsSuffix(n, u);
    RemoveAllAfterFree(n, u, u);
    RemoveAllSelf(u);
    assert n + [] == n;
  }

  /** Only the upper-cased text matters: the unit letters may have any case */
  lemma CapacityCaseInsensitive(s: string, t: string, parseFloat: FloatParser)
    requires Upper(s) == Upper(t)
    ensures ParseCapacity(Str(s), parseFloat) == ParseCapacity(Str(t), parseFloat)
  {
    assert |s| == |Upper(s)| == |Upper(t)| == |t|;
  }

  // ---------------------------------------------------------------------
  // parse_power

  datatype Power = Power(active: real, idle: real)

  /** Active and idle watts of an "active/idle" cell; `(0, 0)` where the
      cell is empty, has no single '/' or a half does not parse */
  function ParsePower(v: Value, parseFloat: FloatParser): (p: Power)
    requires IsScalar(v)
    ensures !(v.Str? && CountChar(v.s, '/') == 1) ==> p == Power(0.0, 0.0)
  {
    if !Truthy(v) || !v.Str? || '/' !in v.s then Power(0.0, 0.0)
    else
      var parts := Split(v.s, '/');
      if |parts| != 2 then Power(0.0, 0.0)  // tuple unpacking raises, and is caught
      else
        match (parseFloat(parts[0]), parseFloat(parts[1]))
        case (Some(active), Some(idle)) => Power(active, idle)
        case _ => Power(0.0, 0.0)
  }

  /** "a/b" gives `(float(a), float(b))` when both parse, `(0, 0)` otherwise */
  lemma PowerOfPair(a: string, b: string, parseFloat: FloatParser)
    requires '/' !in a && '/' !in b
    ensures ParsePower(Str(a + "/" + b), parseFloat)
         == if parseFloat(a).Some? && parseFloat(b).Some?
            then Power(parseFloat(a).value, parseFloat(b).value)
            else Power(0.0, 0.0)
  {
    var s := a + "/" + b;
    assert s == a + ['/'] + b;
    assert s[|a|] == '/';
    SplitAt(a, b, '/');
    SplitWithout(b, '/');
  }

  // ---------------------------------------------------------------------
  // Chassis size category

  datatype SizeCategory = Small | Medium | Large

  /** The comparisons with the bay count do not raise: it is falsy or a
      number, or the 2U test short-circuits them */
  predicate ClassifyDefined(formFactor: Value, driveBays: Value) {
    Orderable(driveBays) || formFactor == Str("2U")
  }

  function SizeCategoryOf(formFactor: Value, driveBays: Value): (category: SizeCategory)
    requires ClassifyDefined(formFactor, driveBays)
  {
    if formFactor == Str("1U") && Truthy(driveBays) && NumValue(driveBays) <= 8.0 then Small
    else if formFactor == Str("2U") || (Truthy(driveBays) && NumValue(driveBays) >= 24.0) then Large
    else Medium
  }

  function CategoryRank(c: SizeCategory): (rank: nat) {
    match c
    case Small => 0
    case Medium => 1
    case Large => 2
  }

  /** For a fixed form factor and nonzero bay counts, more drive bays never
      give a smaller category (zero or missing bays: see SizeCategoryWithoutBays) */
  lemma SizeCategoryMonotone(formFactor: Value, fewer: Value, more: Value)
    requires Truthy(fewer) && IsNumber(fewer) && Truthy(more) && IsNumber(more)
    requires NumValue(fewer) <= NumValue(more)
    ensures CategoryRank(SizeCategoryOf(formFactor, fewer)) <= CategoryRank(SizeCategoryOf(formFactor, more))
  {
  }

  /** A falsy bay count (0, None, empty) skips both bay tests: such a chassis
      is large when 2U and medium otherwise; so a 1U chassis with 0 bays ranks
      above one with 4, and monotonicity needs nonzero counts */
  lemma SizeCategoryWithoutBays(formFactor: Value, driveBays: Value)
    requires !Truthy(driveBays)
    ensures SizeCategoryOf(formFactor, driveBays) == if formFactor == Str("2U") then Large else Medium
    ensures CategoryRank(SizeCategoryOf(Str("1U"), Int(0))) > CategoryRank(SizeCategoryOf(Str("1U"), Int(4)))
  {
  }

  /** The descriptive size_categories table the converter writes beside the
      classification */
  datatype SizeCategoryInfo = SizeCategoryInfo(
    category: SizeCategory, description: string, typicalFormFactor: string,
    minBays: int, maxBays: int)

  const SIZE_CATEGORIES: seq<SizeCategoryInfo> := [
    SizeCategoryInfo(Small, "1U servers with 8-16 drive bays", "1U", 8, 16),
    SizeCategoryInfo(Medium, "1U servers with 16-24 drive bays", "1U", 16, 24),
    SizeCategoryInfo(Large, "2U servers with 24-32+ drive bays", "2U", 24, 64)
  ]

  /** The classifier and the descriptive table disagree: a 1U chassis with 12
      bays lies in the table's small range but is classified medium, and a 2U
      chassis with 8 bays is classified large, below the large range */
  lemma SizeCategoryDiffersFromTable()
    ensures SIZE_CATEGORIES[0].category == Small && SIZE_CATEGORIES[0].minBays <= 12 <= SIZE_CATEGORIES[0].maxBays
    ensures SizeCategoryOf(Str("1U"), Int(12)) == Medium
    ensures SIZE_CATEGORIES[2].category == Large && 8 < SIZE_CATEGORIES[2].minBays
    ensures SizeCategoryOf(Str("2U"), Int(8)) == Large
  {
  }

  // ---------------------------------------------------------------------
  // process_chassis_data

  datatype Chassis = Chassis(
    model: Value, formFactor: Value, driveBays: Value, driveTypes: Value,
    cpuSockets: Value, memorySlots: Value, memoryMax: Value,
    sizeCategory: SizeCategory, psu: Value, depth: Value, vendorLink: Value,
    notes: Value, preferred: Value)

  /** `item.get(name) or item.get(column)`: a named column, else its
      positional fallback */
  function Field(row: Row, name: string, column: string): (value: Value) {
    Or(Get(row, name, Null), Get(row, column, Null))
  }

  function ChassisVendor(row: Row): (vendor: Value) { Field(row, "Vendor", "Column_1") }
  function ChassisModel(row: Row): (model: Value) { Field(row, "Model", "Column_2") }
  function ChassisFormFactor(row: Row): (formFactor: Value) { Field(row, "Form Factor", "Column_5") }
  function ChassisDriveBays(row: Row): (bays: Value) { Field(row, "Drive Bay", "Column_6") }

  /** Rows with a falsy vendor or model are skipped */
  predicate ChassisKept(row: Row) {
    Truthy(ChassisVendor(row)) && Truthy(ChassisModel(row))
  }

  predicate ChassisRowOk(row: Row) {
    ChassisKept(row) ==> ClassifyDefined(ChassisFormFactor(row), ChassisDriveBays(row))
  }

  function ChassisOf(row: Row): (chassis: Chassis)
    requires ChassisKept(row) && ChassisRowOk(row)
  {
    Chassis(
      ChassisModel(row),
      ChassisFormFactor(row),
      ChassisDriveBays(row),
      Field(row, "Drive Type", "Column_7"),
      Field(row, "CPU Sockets", "Column_4"),
      Field(row, "Memory Slots", "Column_9"),
      Field(row, "Memory Max", "Column_10"),
      SizeCategoryOf(ChassisFormFactor(row), ChassisDriveBays(row)),
      Field(row, "PSU", "Column_12"),
      Field(row, "Depth", "Column_13"),
      Field(row, "Vendor Link", "Column_14"),
      Field(row, "Notes", "Column_15"),
      Field(row, "Preferred", "Column_0"))
  }

  /** vendor -> model -> chassis record */
  type ChassisIndex = map<Value, map<Value, Chassis>>

  /** The nested dict process_chassis_data has built after `rows` */
  function IndexChassis(rows: seq<Row>): (index: ChassisIndex)
    requires forall r | r in rows :: ChassisRowOk(r)
    decreases |rows|
  {
    if rows == [] then map[]
    else
      var index := IndexChassis(rows[..|rows| - 1]);
      var row := rows[|rows| - 1];
      if !ChassisKept(row) then index
      else
        AddChassis(index, ChassisVendor(row), ChassisModel(row), ChassisOf(row))
  }

  /** `processed.setdefault(vendor, {})[model] = c` */
  function AddChassis(index: ChassisIndex, vendor: Value, model: Value, c: Chassis): (updated: ChassisIndex) {
    var models := if vendor in index then index[vendor] else map[];
    index[vendor := models[model := c]]
  }

  /** Adding a record adds its pair and keeps every other pair and record */
  lemma AddChassisEffect(index: ChassisIndex, vendor: Value, model: Value, c: Chassis)
    ensures forall v, m :: InIndex(AddChassis(index, vendor, model, c), v, m)
              <==> InIndex(index, v, m) || (v == vendor && m == model)
    ensures AddChassis(index, vendor, model, c)[vendor][model] == c
    ensures forall v, m | InIndex(index, v, m) && (v, m) != (vendor, model) ::
              AddChassis(index, vendor, model, c)[v][m] == index[v][m]
  {
  }

  method ProcessChassis(rows: seq<Row>) returns (processed: ChassisIndex)
    requires forall r | r in rows :: ChassisRowOk(r)
    ensures processed == IndexChassis(rows)
  {
    processed := map[];
    var i := 0;
    while i < |rows|
      invariant 0 <= i <= |rows|
      invariant processed == IndexChassis(rows[..i])
    {
      var item := rows[i];
      var vendor := ChassisVendor(item);
      var model := ChassisModel(item);
      assert rows[..i + 1][..i] == rows[..i];
      if Truthy(vendor) && Truthy(model) {
        if vendor !in processed {
          processed := processed[vendor := map[]];
        }
        processed := processed[vendor := processed[vendor][model := ChassisOf(item)]];
      }
      i := i + 1;
    }
    assert rows[..|rows|] == rows;
  }

  predicate KeyedAs(row: Row, vendor: Value, model: Value) {
    ChassisKept(row) && ChassisVendor(row) == vendor && ChassisModel(row) == model
  }

  predicate InIndex(index: ChassisIndex, vendor: Value, model: Value) {
    vendor in index && model in index[vendor]
  }

  /** One row adds its own pair, and nothing else, to the index */
  lemma {:induction false} IndexChassisStep(rows: seq<Row>)
    requires rows != [] && forall r | r in rows :: ChassisRowOk(r)
    ensures forall v, m :: InIndex(IndexChassis(rows), v, m)
              <==> InIndex(IndexChassis(rows[..|rows| - 1]), v, m) || KeyedAs(rows[|rows| - 1], v, m)
  {
    var init, row := rows[..|rows| - 1], rows[|rows| - 1];
    if ChassisKept(row) {
      AddChassisEffect(IndexChassis(init), ChassisVendor(row), ChassisModel(row), ChassisOf(row));
    }
  }

  /** A (vendor, model) pair is in the index iff some kept row carries it, and
      every vendor has at least one model */
  lemma {:induction false} IndexChassisDomain(rows: seq<Row>)
    requires forall r | r in rows :: ChassisRowOk(r)
    ensures forall v, m :: InIndex(IndexChassis(rows), v, m)
              <==> exists i :: 0 <= i < |rows| && KeyedAs(rows[i], v, m)
    ensures forall v | v in IndexChassis(rows) :: IndexChassis(rows)[v] != map[]
    decreases |rows|
  {
    if rows != [] {
      var init := rows[..|rows| - 1];
      var row := rows[|rows| - 1];
      IndexChassisDomain(init);
      IndexChassisStep(rows);
      forall v, m
        ensures InIndex(IndexChassis(rows), v, m) <==> exists i :: 0 <= i < |rows| && KeyedAs(rows[i], v, m)
      {
        if InIndex(IndexChassis(init), v, m) {
          var i :| 0 <= i < |init| && KeyedAs(init[i], v, m);
          assert KeyedAs(rows[i], v, m);
        }
        if KeyedAs(row, v, m) {
          assert KeyedAs(rows[|rows| - 1], v, m);
        }
        if exists i :: 0 <= i < |rows| && KeyedAs(rows[i], v, m) {
          var i :| 0 <= i < |rows| && KeyedAs(rows[i], v, m);
          if i < |rows| - 1 {
            assert KeyedAs(init[i], v, m);
          }
        }
      }
      forall v | v in IndexChassis(rows)
        ensures IndexChassis(rows)[v] != map[]
      {
        if v in IndexChassis(init) {
          var m :| m in IndexChassis(init)[v];
          assert InIndex(IndexChassis(rows), v, m);
        } else {
          assert InIndex(IndexChassis(rows), v, ChassisModel(row));
        }
      }
    }
  }

  /** The record stored for a pair is that of the last row carrying it */
  lemma {:induction false} IndexChassisLatest(rows: seq<Row>, i: nat)
    requires forall r | r in rows :: ChassisRowOk(r)
    requires i < |rows| && ChassisKept(rows[i])
    requires forall j | i < j < |rows| :: !KeyedAs(rows[j], ChassisVendor(rows[i]), ChassisModel(rows[i]))
    ensures ChassisVendor(rows[i]) in IndexChassis(rows)
    ensures ChassisModel(rows[i]) in IndexChassis(rows)[ChassisVendor(rows[i])]
    ensures IndexChassis(rows)[ChassisVendor(rows[i])][ChassisModel(rows[i])] == ChassisOf(rows[i])
    decreases |rows|
  {
    var init := rows[..|rows| - 1];
    if i < |rows| - 1 {
      assert rows[i] == init[i];
      forall j | i < j < |init|
        ensures !KeyedAs(init[j], ChassisVendor(init[i]), ChassisModel(init[i]))
      {
        assert init[j] == rows[j];
      }
      IndexChassisLatest(init, i);
      assert !KeyedAs(rows[|rows| - 1], ChassisVendor(rows[i]), ChassisModel(rows[i]));
    }
  }

  // ---------------------------------------------------------------------
  // Shared by the drive, CPU and memory processing

  /** The `processed.append(...)` loop guard: truthy vendor and model */
  predicate RowKept(row: Row) {
    Truthy(Get(row, "Vendor", Null)) && Truthy(Get(row, "Model", Null))
  }

  /** The rows kept, in input order */
  function Kept(rows: seq<Row>): (kept: seq<Row>)
    ensures forall r :: r in kept <==> r in rows && RowKept(r)
    decreases |rows|
  {
    if rows == [] then []
    else
      var init := rows[..|rows| - 1];
      assert rows == init + [rows[|rows| - 1]];
      Kept(init) + (if RowKept(rows[|rows| - 1]) then [rows[|rows| - 1]] else [])
  }

  /** `item.get('Preferred') or 0` */
  function PreferredOf(row: Row): (preferred: Value) {
    Or(Get(row, "Preferred", Null), Int(0))
  }

  /** `x['preferred'] or 99`: an unranked (falsy) preference sorts as 99 */
  function Rank(preferred: Value): (rank: real) {
    if Truthy(preferred) then NumValue(preferred) else 99.0
  }

  // ---------------------------------------------------------------------
  // process_storage_data

  datatype Drive = Drive(
    vendor: Value, model: Value, partNumber: Value, nvmeGen: Value,
    formFactor: Value, interface: Value, technology: Value,
    capacityTb: real, capacityRaw: Value,
    seqReadMbps: Value, seqWriteMbps: Value,
    randomReadIops: Value, randomWriteIops: Value,
    powerActiveW: real, powerIdleW: real, powerRaw: Value,
    techSpecUrl: Value, preferred: Value)

  /** The record for a kept row; `None` where its capacity does not parse */
  function DriveOf(row: Row, parseFloat: FloatParser): (drive: Option<Drive>)
    requires CsvRow(row)
  {
    GetScalar(row, "Capacity", Null);
    GetScalar(row, "Power Active / Idle (W)", Null);
    match ParseCapacity(Get(row, "Capacity", Null), parseFloat)
    case None => None
    case Some(capacity) =>
      var power := ParsePower(Get(row, "Power Active / Idle (W)", Null), parseFloat);
      Some(Drive(
        Get(row, "Vendor", Null), Get(row, "Model", Null),
        Get(row, "Mfg Part #", Null), Get(row, "NVMe Gen", Null),
        Get(row, "Form Factor", Null), Get(row, "Interface", Null),
        Get(row, "Technology", Null),
        capacity, Get(row, "Capacity", Null),
        Get(row, "Seq Read 128K (MB/s)", Null), Get(row, "Seq Write 128K (MB/s)", Null),
        Get(row, "Random Read 4K (IOPS)", Null), Get(row, "Random Write 4K (IOPS)", Null),
        power.active, power.idle, Get(row, "Power Active / Idle (W)", Null),
        Get(row, "Tech Spec Sheet", Null), PreferredOf(row)))
  }

  /** The unsorted list the loop of process_storage_data builds; `None` once
      a kept row's capacity raises */
  function DrivesIn(rows: seq<Row>, parseFloat: FloatParser): (drives: Option<seq<Drive>>)
    requires forall r | r in rows :: CsvRow(r)
    decreases |rows|
  {
    if rows == [] then Some([])
    else
      match DrivesIn(rows[..|rows| - 1], parseFloat)
      case None => None
      case Some(drives) =>
        var row := rows[|rows| - 1];
        if !RowKept(row) then Some(drives)
        else
          match DriveOf(row, parseFloat)
          case None => None
          case Some(d) => Some(drives + [d])
  }

  predicate CapacityFails(row: Row, parseFloat: FloatParser)
    requires CsvRow(row)
  {
    RowKept(row) && DriveOf(row, parseFloat).None?
  }

  /** The drive list fails iff some kept row's capacity does not parse;
      otherwise it holds exactly the kept rows, converted, in input order */
  lemma {:induction false} DrivesInSpec(rows: seq<Row>, parseFloat: FloatParser)
    requires forall r | r in rows :: CsvRow(r)
    ensures DrivesIn(rows, parseFloat).None? <==> exists i :: 0 <= i < |rows| && CapacityFails(rows[i], parseFloat)
    ensures DrivesIn(rows, parseFloat).Some? ==>
              |DrivesIn(rows, parseFloat).value| == |Kept(rows)|
              && forall k | 0 <= k < |Kept(rows)| :: DriveOf(Kept(rows)[k], parseFloat) == Some(DrivesIn(rows, parseFloat).value[k])
    decreases |rows|
  {
    if rows != [] {
      var init := rows[..|rows| - 1];
      var row := rows[|rows| - 1];
      DrivesInSpec(init, parseFloat);
      if exists i :: 0 <= i < |init| && CapacityFails(init[i], parseFloat) {
        var i :| 0 <= i < |init| && CapacityFails(init[i], parseFloat);
        assert CapacityFails(rows[i], parseFloat);
      }
      if exists i :: 0 <= i < |rows| && CapacityFails(rows[i], parseFloat) {
        var i :| 0 <= i < |rows| && CapacityFails(rows[i], parseFloat);
        if i < |rows| - 1 {
          assert CapacityFails(init[i], parseFloat);
        }
      }
    }
  }

  function DriveKey(d: Drive): (k: SortKey) {
    SortKey(Rank(d.preferred), d.capacityTb)
  }

  predicate StorageRowOk(row: Row) {
    RowKept(row) ==> Orderable(Get(row, "Preferred", Null))
  }

  method ProcessStorage(rows: seq<Row>, parseFloat: FloatParser) returns (drives: Option<seq<Drive>>)
    requires forall r | r in rows :: CsvRow(r) && StorageRowOk(r)
    ensures drives.None? <==> exists i :: 0 <= i < |rows| && CapacityFails(rows[i], parseFloat)
    ensures drives.Some? ==> DrivesIn(rows, parseFloat).Some?
    ensures drives.Some? ==> drives.value == SortBy(DrivesIn(rows, parseFloat).value, DriveKey)
    ensures drives.Some? ==> multiset(drives.value) == multiset(DrivesIn(rows, parseFloat).value)
    ensures drives.Some? ==> forall i, j | 0 <= i < j < |drives.value| ::
              Rank(drives.value[i].preferred) < Rank(drives.value[j].preferred)
              || (Rank(drives.value[i].preferred) == Rank(drives.value[j].preferred)
                  && drives.value[i].capacityTb <= drives.value[j].capacityTb)
  {
    var processed: seq<Drive> := [];
    var i := 0;
    while i < |rows|
      invariant 0 <= i <= |rows|
      invariant DrivesIn(rows[..i], parseFloat) == Some(processed)
    {
      var item := rows[i];
      assert rows[..i + 1][..i] == rows[..i];
      if RowKept(item) {
        var drive := DriveOf(item, parseFloat);
        if drive.None? {
          DrivesInSpec(rows[..i + 1], parseFloat);
          assert CapacityFails(rows[i], parseFloat);
          return None;
        }
        processed := processed + [drive.value];
      }
      i := i + 1;
    }
    assert rows[..|rows|] == rows;
    DrivesInSpec(rows, parseFloat);
    drives := Some(SortBy(processed, DriveKey));
  }

  // ---------------------------------------------------------------------
  // process_cpu_data

  datatype Cpu = Cpu(
    vendor: Value, model: Value, line: Value, cores: Value, threads: Value,
    boostClock: Value, baseClock: Value, l3Cache: Value, tdp: Value,
    memoryType: Value, memoryChannels: Value, maxMemoryFreq: Value,
    memoryBandwidth: Value, pcieLanes: Value, socketSupport: Value,
    generation: Value, year: Value, codename: Value, architecture: Value,
    socket: Value, preferred: Value)

  function CpuOf(row: Row): (cpu: Cpu) {
    Cpu(
      Get(row, "Vendor", Null), Get(row, "Model", Null), Get(row, "Line", Null),
      Get(row, "Cores", Null), Get(row, "Threads", Null),
      Get(row, "Boost Clock", Null), Get(row, "Base Clock", Null),
      Get(row, "L3 Cache", Null), Get(row, "TDP", Null),
      Get(row, "Memory", Null), Get(row, "DDR Channels", Null),
      Get(row, "Max DDR Freq. (1DPC)", Null),
      Get(row, "Per-Socket Theoretical Memory Bandwidth", Null),
      Get(row, "PCIe® Gen 5 Lanes", Null), Get(row, "2P/1P", Null),
      Get(row, "Gen", Null), Get(row, "Year", Null), Get(row, "Codename", Null),
      Get(row, "Architecture", Null), Get(row, "Socket", Null),
      PreferredOf(row))
  }

  /** `x['cores'] or 0` */
  function CoreCount(c: Cpu): (cores: real) {
    NumValue(Or(c.cores, Int(0)))
  }

  function CpuKey(c: Cpu): (k: SortKey) {
    SortKey(Rank(c.preferred), -CoreCount(c))
  }

  predicate CpuRowOk(row: Row) {
    RowKept(row) ==> Orderable(Get(row, "Preferred", Null)) && Orderable(Get(row, "Cores", Null))
  }

  method ProcessCpus(rows: seq<Row>) returns (cpus: seq<Cpu>)
    requires forall r | r in rows :: CpuRowOk(r)
    ensures cpus == SortBy(MapSeq(Kept(rows), CpuOf), CpuKey)
    ensures multiset(cpus) == multiset(MapSeq(Kept(rows), CpuOf))
    ensures forall i, j | 0 <= i < j < |cpus| :: Rank(cpus[i].preferred) <= Rank(cpus[j].preferred)
    ensures forall i, j | 0 <= i < j < |cpus| && Rank(cpus[i].preferred) == Rank(cpus[j].preferred) ::
              CoreCount(cpus[i]) >= CoreCount(cpus[j])
  {
    var processed: seq<Cpu> := [];
    var i := 0;
    while i < |rows|
      invariant 0 <= i <= |rows|
      invariant processed == MapSeq(Kept(rows[..i]), CpuOf)
    {
      var item := rows[i];
      assert rows[..i + 1][..i] == rows[..i];
      if RowKept(item) {
        ghost var kept := Kept(rows[..i + 1]);
        assert kept == Kept(rows[..i]) + [item];
        assert kept[..|kept| - 1] == Kept(rows[..i]);
        processed := processed + [CpuOf(item)];
      }
      i := i + 1;
    }
    assert rows[..|rows|] == rows;
    cpus := SortBy(processed, CpuKey);
  }

  // ---------------------------------------------------------------------
  // process_memory_data

  datatype MemoryModule = MemoryModule(
    vendor: Value, model: Value, description: Value, sizeGb: int,
    sizeRaw: Value, speed: Value, profile: Value, preferred: Value)

  /** The integer before "GB" in a `Size` cell; 0 without "GB" (the test is
      case-sensitive) or where `int()` raises, which is caught */
  function SizeGb(size: Value, parseInt: IntParser): (gb: int)
    ensures !(size.Str? && Contains(size.s, "GB")) ==> gb == 0
  {
    if Truthy(size) && size.Str? && Contains(size.s, "GB") then
      match parseInt(RemoveAll(size.s, "GB"))
      case Some(n) => n
      case None => 0
    else 0
  }

  /** A numeral followed by "GB" gives that number of gigabytes */
  lemma SizeGbWithUnit(n: string, parseInt: IntParser)
    requires 'G' !in n
    ensures SizeGb(Str(n + "GB"), parseInt) == match parseInt(n) case Some(x) => x case None => 0
  {
    ContainsSuffix(n, "GB");
    RemoveAllAfterFree(n, "GB", "GB");
    RemoveAllSelf("GB");
    assert n + [] == n;
  }

  function MemoryOf(row: Row, parseInt: IntParser): (memory: MemoryModule) {
    MemoryModule(
      Get(row, "Vendor", Null), Get(row, "Model", Null),
      Get(row, "Description", Null),
      SizeGb(Get(row, "Size", Str("")), parseInt),
      Get(row, "Size", Null), Get(row, "Speed", Null), Get(row, "Profile", Null),
      PreferredOf(row))
  }

  function MemoryKey(m: MemoryModule): (k: SortKey) {
    SortKey(Rank(m.preferred), m.sizeGb as real)
  }

  predicate MemoryRowOk(row: Row) {
    RowKept(row) ==> Orderable(Get(row, "Preferred", Null))
  }

  method ProcessMemory(rows: seq<Row>, parseInt: IntParser) returns (modules: seq<MemoryModule>)
    requires forall r | r in rows :: MemoryRowOk(r)
    ensures modules == SortBy(MapSeq(Kept(rows), row => MemoryOf(row, parseInt)), MemoryKey)
    ensures multiset(modules) == multiset(MapSeq(Kept(rows), row => MemoryOf(row, parseInt)))
    ensures forall i, j | 0 <= i < j < |modules| ::
              Rank(modules[i].preferred) < Rank(modules[j].preferred)
              || (Rank(modules[i].preferred) == Rank(modules[j].preferred) && modules[i].sizeGb <= modules[j].sizeGb)
  {
    var convert := row => MemoryOf(row, parseInt);
    var processed: seq<MemoryModule> := [];
    var i := 0;
    while i < |rows|
      invariant 0 <= i <= |rows|
      invariant processed == MapSeq(Kept(rows[..i]), convert)
    {
      var item := rows[i];
      assert rows[..i + 1][..i] == rows[..i];
      if RowKept(item) {
        ghost var kept := Kept(rows[..i + 1]);
        assert kept == Kept(rows[..i]) + [item];
        assert kept[..|kept| - 1] == Kept(rows[..i]);
        processed := processed + [MemoryOf(item, parseInt)];
      }
      i := i + 1;
    }
    assert rows[..|rows|] == rows;
    modules := SortBy(processed, MemoryKey);
  }

  // ---------------------------------------------------------------------
  // create_hardware_json

  datatype Scheme = Scheme(
    dataBlocks: nat, parityBlocks: nat, totalBlocks: nat, efficiency: real,
    minDrives: nat, faultTolerance: nat)

  datatype NamedScheme = NamedScheme(name: string, scheme: Scheme)

  /** The relations every scheme's fields keep */
  predicate WellFormedScheme(s: Scheme) {
    && s.totalBlocks == s.dataBlocks + s.parityBlocks
    && s.totalBlocks > 0
    && s.efficiency == s.dataBlocks as real / s.totalBlocks as real
    && s.minDrives == s.totalBlocks
    && s.faultTolerance == s.parityBlocks
  }

  const DEFAULT_SCHEME: string := "EC 8:3"

  /** The fixed erasure-coding table, in the order the converter writes it */
  function SchemeTable(): (table: seq<NamedScheme>)
    ensures forall i | 0 <= i < |table| :: WellFormedScheme(table[i].scheme)
    ensures forall i, j | 0 <= i < j < |table| :: table[i].name != table[j].name
    ensures |table| == 3 && table[0].name == DEFAULT_SCHEME
  {
    [ NamedScheme("EC 8:3", Scheme(8, 3, 11, 8.0 / 11.0, 11, 3)),
      NamedScheme("EC 8:2", Scheme(8, 2, 10, 8.0 / 10.0, 10, 2)),
      NamedScheme("EC 8:4", Scheme(8, 4, 12, 8.0 / 12.0, 12, 4)) ]
  }

  datatype VendorEntry = VendorEntry(name: Value, chassis: map<Value, Chassis>, supportedSizes: set<SizeCategory>)

  /** The loop that fills `hardware_specs['vendors']` */
  method GroupVendors(index: ChassisIndex) returns (vendors: map<Value, VendorEntry>)
    ensures vendors.Keys == index.Keys
    ensures forall v | v in vendors :: vendors[v].name == v && vendors[v].chassis == index[v]
    ensures forall v, c | v in vendors ::
              c in vendors[v].supportedSizes <==> exists m :: m in index[v] && index[v][m].sizeCategory == c
  {
    vendors := map[];
    var todo := index.Keys;
    while todo != {}
      invariant todo <= index.Keys
      invariant vendors.Keys == index.Keys - todo
      invariant forall v | v in vendors :: vendors[v].name == v && vendors[v].chassis == index[v]
      invariant forall v, c | v in vendors ::
                  c in vendors[v].supportedSizes <==> exists m :: m in index[v] && index[v][m].sizeCategory == c
      decreases todo
    {
      var vendor :| vendor in todo;
      var models := index[vendor];
      vendors := vendors[vendor := VendorEntry(vendor, models, set m | m in models.Values :: m.sizeCategory)];
      todo := todo - {vendor};
    }
  }

  datatype Metadata = Metadata(version: string, generated: string, description: string)

  datatype ErasureCoding = ErasureCoding(defaultScheme: string, schemes: seq<NamedScheme>)

  datatype HardwareSpecs = HardwareSpecs(
    metadata: Metadata,
    vendors: map<Value, VendorEntry>,
    storageDrives: seq<Drive>,
    cpus: seq<Cpu>,
    memory: seq<MemoryModule>,
    bootDrives: seq<Row>,
    erasureCoding: ErasureCoding,
    sizeCategories: seq<SizeCategoryInfo>)

  /** The five sheets load_csv_data returns */
  datatype CsvData = CsvData(
    chassis: seq<Row>, cpus: seq<Row>, memory: seq<Row>,
    storageDrives: seq<Row>, bootDrives: seq<Row>)

  const DESCRIPTION: string := "MinIO Hardware Calculator - Hardware Specifications"

  predicate CsvDataOk(data: CsvData) {
    && (forall r | r in data.storageDrives :: CsvRow(r) && StorageRowOk(r))
    && (forall r | r in data.cpus :: CpuRowOk(r))
    && (forall r | r in data.memory :: MemoryRowOk(r))
    && (forall r | r in data.chassis :: ChassisRowOk(r))
  }

  /** The whole document; `None` where a drive capacity raises. The
      generation timestamp is a parameter. */
  method CreateHardwareJson(data: CsvData, generated: string, parseFloat: FloatParser, parseInt: IntParser)
    returns (specs: Option<HardwareSpecs>)
    requires CsvDataOk(data)
    ensures specs.None? <==> exists i :: 0 <= i < |data.storageDrives| && CapacityFails(data.storageDrives[i], parseFloat)
    ensures specs.Some? ==>
              && specs.value.metadata == Metadata("1.0", generated, DESCRIPTION)
              && DrivesIn(data.storageDrives, parseFloat).Some?
              && specs.value.storageDrives == SortBy(DrivesIn(data.storageDrives, parseFloat).value, DriveKey)
              && specs.value.cpus == SortBy(MapSeq(Kept(data.cpus), CpuOf), CpuKey)
              && specs.value.memory == SortBy(MapSeq(Kept(data.memory), row => MemoryOf(row, parseInt)), MemoryKey)
              && specs.value.bootDrives == data.bootDrives
              && specs.value.erasureCoding == ErasureCoding(DEFAULT_SCHEME, SchemeTable())
              && specs.value.sizeCategories == SIZE_CATEGORIES
    ensures specs.Some? ==>
              && specs.value.vendors.Keys == IndexChassis(data.chassis).Keys
              && (forall v | v in specs.value.vendors ::
                    && specs.value.vendors[v].name == v
                    && specs.value.vendors[v].chassis == IndexChassis(data.chassis)[v]
                    && specs.value.vendors[v].supportedSizes != {})
              && forall v, c | v in specs.value.vendors ::
                   c in specs.value.vendors[v].supportedSizes <==>
                   exists m :: m in IndexChassis(data.chassis)[v] && IndexChassis(data.chassis)[v][m].sizeCategory == c
  {
    var drives := ProcessStorage(data.storageDrives, parseFloat);
    if drives.None? {
      return None;
    }
    var cpus := ProcessCpus(data.cpus);
    var memory := ProcessMemory(data.memory, parseInt);
    var index := ProcessChassis(data.chassis);
    var vendors := GroupVendors(index);
    IndexChassisDomain(data.chassis);
    forall v | v in vendors
      ensures vendors[v].supportedSizes != {}
    {
      var m :| m in index[v];
      assert index[v][m].sizeCategory in vendors[v].supportedSizes;
    }
    specs := Some(HardwareSpecs(
      Metadata("1.0", generated, DESCRIPTION),
      vendors, drives.value, cpus, memory, data.bootDrives,
      ErasureCoding(DEFAULT_SCHEME, SchemeTable()),
      SIZE_CATEGORIES));
  }
}
