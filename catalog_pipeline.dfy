/** The two scripts together: the erasure-coding section the converter
    writes, once serialised as JSON, is accepted by the validator's
    erasure-coding check. */
module CatalogPipeline {
  import opened PyValues
  import opened CatalogConvert
  import opened CatalogValidate

  /** One scheme as the converter serialises it */
  function SchemeJson(s: Scheme): (json: Value) {
    Dict([
      Entry("data_blocks", Int(s.dataBlocks)),
      Entry("parity_blocks", Int(s.parityBlocks)),
      Entry("total_blocks", Int(s.totalBlocks)),
      Entry("efficiency", Real(s.efficiency)),
      Entry("min_drives", Int(s.minDrives)),
      Entry("fault_tolerance", Int(s.faultTolerance))])
  }

  function SchemeEntry(n: NamedScheme): (entry: Entry) {
    Entry(n.name, SchemeJson(n.scheme))
  }

  /** The `schemes` dict, in table order */
  function SchemesJson(table: seq<NamedScheme>): (json: Value) {
    Dict(MapSeq(table, SchemeEntry))
  }

  /** `hardware_specs['erasure_coding']` */
  function ErasureJson(ec: ErasureCoding): (json: Value) {
    Dict([Entry("default_scheme", Str(ec.defaultScheme)), Entry("schemes", SchemesJson(ec.schemes))])
  }

  /** A key is in a dict iff some entry carries it, and `.get` then returns
      the value of such an entry */
  lemma {:induction false} GetEntry(es: seq<Entry>, key: string, default: Value) returns (k: nat)
    requires HasKey(es, key)
    ensures k < |es| && es[k].key == key && Get(es, key, default) == es[k].value
    decreases |es|
  {
    if es[0].key == key {
      k := 0;
    } else {
      var j := GetEntry(es[1..], key, default);
      k := j + 1;
    }
  }

  lemma {:induction false} HasKeyAt(es: seq<Entry>, k: nat)
    requires k < |es|
    ensures HasKey(es, es[k].key)
    decreases k
  {
    if k > 0 && es[0].key != es[k].key {
      assert es[1..][k - 1] == es[k];
      HasKeyAt(es[1..], k - 1);
    }
  }

  /** Every scheme of a well-formed table is accepted: its blocks are numbers
      with a nonzero sum and its stored efficiency is exact */
  lemma WellFormedSchemeAccepted(s: Scheme)
    requires WellFormedScheme(s)
    ensures SchemeShapeOk(SchemeJson(s))
    ensures !EfficiencyOff(SchemeJson(s).entries)
  {
    var es := SchemeJson(s).entries;
    assert Get(es, "parity_blocks", Null) == Get(es[1..], "parity_blocks", Null) == Int(s.parityBlocks);
    assert Get(es, "efficiency", Int(0)) == Get(es[1..], "efficiency", Int(0));
    assert Get(es[1..], "efficiency", Int(0)) == Get(es[1..][1..], "efficiency", Int(0));
    assert Get(es[1..][1..], "efficiency", Int(0)) == Get(es[1..][1..][1..], "efficiency", Int(0)) == Real(s.efficiency);
  }

  /** What `.get` finds under a scheme name of a well-formed table */
  lemma {:induction false} LookupScheme(table: seq<NamedScheme>, name: string)
    requires forall i | 0 <= i < |table| :: WellFormedScheme(table[i].scheme)
    requires In(name, SchemesJson(table))
    ensures SchemeShapeOk(Get(SchemesJson(table).entries, name, Null))
    ensures !EfficiencyOff(Get(SchemesJson(table).entries, name, Null).entries)
  {
    var k := GetEntry(SchemesJson(table).entries, name, Null);
    WellFormedSchemeAccepted(table[k].scheme);
  }

  /** A table holding the three required names, each scheme well formed,
      passes validate_erasure_coding with neither errors nor warnings */
  lemma {:induction false} WellFormedTableValidates(table: seq<NamedScheme>)
    requires forall i | 0 <= i < |table| :: WellFormedScheme(table[i].scheme)
    requires forall k | 0 <= k < |REQUIRED_SCHEMES| :: exists i :: 0 <= i < |table| && table[i].name == REQUIRED_SCHEMES[k]
    ensures ErasureShapeOk(ErasureJson(ErasureCoding(DEFAULT_SCHEME, table)))
    ensures Absent(REQUIRED_SCHEMES, SchemesJson(table)) == []
    ensures forall k | 0 <= k < |REQUIRED_SCHEMES| :: SchemeUsable(SchemesJson(table), REQUIRED_SCHEMES[k])
    ensures SchemeErrors(REQUIRED_SCHEMES, SchemesJson(table)) == []
  {
    var schemes := SchemesJson(table);
    var names := REQUIRED_SCHEMES;
    forall n | n in names
      ensures In(n, schemes) && SchemeUsable(schemes, n)
      ensures !EfficiencyOff(SchemeOf(schemes, n))
    {
      var k :| 0 <= k < |names| && names[k] == n;
      var i :| 0 <= i < |table| && table[i].name == names[k];
      assert schemes.entries[i] == SchemeEntry(table[i]);
      HasKeyAt(schemes.entries, i);
      LookupScheme(table, n);
    }
    NoSchemeErrors(names, schemes);
  }

  lemma {:induction false} NoSchemeErrors(names: seq<string>, schemes: Value)
    requires forall k | 0 <= k < |names| :: SchemeUsable(schemes, names[k])
    requires forall n | n in names :: In(n, schemes) && !EfficiencyOff(SchemeOf(schemes, n))
    ensures SchemeErrors(names, schemes) == []
    decreases |names|
  {
    if names != [] {
      var init := names[..|names| - 1];
      assert forall n | n in init :: n in names;
      NoSchemeErrors(init, schemes);
    }
  }

  /** The converter's own table passes the validator's erasure-coding check */
  lemma ConverterSchemesValidate()
    ensures ErasureShapeOk(ErasureJson(ErasureCoding(DEFAULT_SCHEME, SchemeTable())))
    ensures Absent(REQUIRED_SCHEMES, SchemesJson(SchemeTable())) == []
    ensures forall k | 0 <= k < |REQUIRED_SCHEMES| :: SchemeUsable(SchemesJson(SchemeTable()), REQUIRED_SCHEMES[k])
    ensures SchemeErrors(REQUIRED_SCHEMES, SchemesJson(SchemeTable())) == []
  {
    var table := SchemeTable();
    assert table[0].name == REQUIRED_SCHEMES[0];
    assert table[1].name == REQUIRED_SCHEMES[1];
    assert table[2].name == REQUIRED_SCHEMES[2];
    WellFormedTableValidates(table);
  }
}
