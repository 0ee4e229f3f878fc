# MinIO hardware catalog: converter and validator

This project models the two Python scripts that build the hardware catalog
of the MinIO hardware calculator, and proves properties of the model.

- `scripts/convert_to_json.py` turns the spreadsheet's CSV sheets into the
  hardware-specification JSON document. It covers chassis, storage drives,
  CPUs, memory and boot drives. It also adds a fixed erasure-coding scheme
  table and a table of chassis size categories.
- `scripts/validate_data.py` checks such a document. Each check returns a
  list of errors and a list of warnings.

The Dafny modules are:

- `PyValues` (`py_values.dfy`): the Python values both scripts handle.
  - A CSV cell or JSON node is a `Value`. A dict is a list of entries in insertion order.
  - Truthiness, `or`, `dict.get`, `in` and `len` are modelled.
  - The string methods the scripts call are modelled: `upper`, `replace(p, '')` and `split` on one character.
- `KeySort` (`key_sort.dfy`): Python's stable `sorted(..., key=...)` on two-number tuple keys.
  - `SortBy` is a stable insertion sort. It is proved sorted, a permutation of its input, and stable.
  - `StableSortUnique` proves that a stable sort has only one possible result. So `SortBy` stands for whatever algorithm `sorted` runs.
- `CatalogConvert` (`convert_to_json.dfy`): the converter.
  - The processing functions are methods whose loops build the same lists and dicts as the source.
  - Each method is proved equal to a specification function, which lemmas then characterise.
- `CatalogValidate` (`validate_data.dfy`): the validator.
  - Each check is a method. Its loops append to `errors` and `warnings` as the source does.
  - Each check is proved equal to a specification function. Lemmas say exactly which findings it reports.
- `CatalogPipeline` (`catalog_pipeline.dfy`): the two scripts together.
  - The erasure-coding section the converter writes is serialised as JSON.
  - Once serialised, it passes the validator's erasure-coding check with no errors and no warnings.

Modelling conventions:

- Python's `float()` and `int()` are parameters of type `string -> Option<...>`, where `None` means `ValueError`.
- The generation timestamp is a parameter.
- The source raises in three kinds of place:
  - Where it raises `TypeError`, `KeyError` or `AttributeError` (comparing a string with a number, indexing a non-dict), the model requires input on which it does not raise. These are the `...ShapeOk` and `...RowOk` predicates.
  - The `ValueError` that `parse_capacity` lets escape is modelled as `None`. It propagates through `process_storage_data` and `create_hardware_json`.
  - The errors that `parse_power` and the memory size parser catch become their fallback values.

The default scheme `EC 8:3` is 8 data and 3 parity blocks, 11 in total, with
efficiency 8/11 (scripts/convert_to_json.py:291-298).

The descriptive `size_categories` table gives bay ranges. The classifier
does not follow them: a 1U chassis with 12 bays falls in the small range but
is classified medium, and any 2U chassis is large.
`CatalogConvert.SizeCategoryDiffersFromTable` states both cases. The bay
tests apply only to a nonzero bay count: a 1U chassis with 0 bays, or none,
is medium, while one with 4 bays is small (`CatalogConvert.SizeCategoryWithoutBays`).

## Model

| member | source | states |
|---|---|---|
| CatalogConvert.ParseCapacity | scripts/convert_to_json.py:26-40 | A cell that is not a string holding TB, GB or PB after upper-casing is 0 TB; the parse failure of a unit string is `None` (not caught) |
| CatalogConvert.CapacityWithUnit | scripts/convert_to_json.py:31-38 | A decimal numeral followed by TB, GB or PB is that number times 1, 0.001 or 1000 TB, or `None` where `float` fails |
| CatalogConvert.CapacityCaseInsensitive | scripts/convert_to_json.py:31 | Two strings with the same upper-case form parse to the same capacity |
| CatalogConvert.ParsePower | scripts/convert_to_json.py:42-58 | A cell without exactly one '/' gives active 0 and idle 0 |
| CatalogConvert.PowerOfPair | scripts/convert_to_json.py:48-56 | "a/b" gives (float(a), float(b)) when both parse, and (0, 0) when either fails |
| CatalogConvert.SizeCategoryMonotone | scripts/convert_to_json.py:144-148 | For a fixed form factor and nonzero bay counts, more drive bays never give a smaller size category |
| CatalogConvert.SizeCategoryWithoutBays | scripts/convert_to_json.py:144-148 | A zero or missing bay count skips both bay tests: 2U is large, anything else medium; so a 1U chassis with 0 bays ranks above one with 4 |
| CatalogConvert.SizeCategoryDiffersFromTable | scripts/convert_to_json.py:144-148 | 1U with 12 bays is medium although the small range holds 12; 2U with 8 bays is large although the large range starts at 24 |
| CatalogConvert.AddChassisEffect | scripts/convert_to_json.py:137-163 | Storing a chassis adds its (vendor, model) pair with that record and keeps every other pair and record |
| CatalogConvert.ProcessChassis | scripts/convert_to_json.py:126-166 | The loop builds exactly the nested vendor/model index of the rows (`IndexChassis`) |
| CatalogConvert.IndexChassisStep | scripts/convert_to_json.py:130-163 | Each row adds its own (vendor, model) pair if kept, and no other pair |
| CatalogConvert.IndexChassisDomain | scripts/convert_to_json.py:130-137 | A pair is in the index iff some row with truthy vendor and model carries it; every vendor has at least one model |
| CatalogConvert.IndexChassisLatest | scripts/convert_to_json.py:150-163 | The record stored for a pair is the one built from the last row carrying that pair |
| CatalogConvert.Kept | scripts/convert_to_json.py:172-177 | The kept rows are exactly the input rows with truthy Vendor and Model, in input order |
| CatalogConvert.DrivesInSpec | scripts/convert_to_json.py:168-201 | The drive list fails iff some kept row's capacity fails to parse; otherwise it holds one converted record per kept row, in order |
| CatalogConvert.ProcessStorage | scripts/convert_to_json.py:168-203 | Fails iff a kept row's capacity fails; otherwise the stable sort of the records by (preferred or 99, capacity): a permutation, ordered by rank then capacity |
| CatalogConvert.ProcessCpus | scripts/convert_to_json.py:205-240 | The stable sort of the kept CPU records by (preferred or 99, -(cores or 0)): a permutation, ordered by rank, cores non-increasing within a rank |
| CatalogConvert.SizeGb | scripts/convert_to_json.py:254-260 | A size without a case-sensitive "GB" is 0 GB |
| CatalogConvert.SizeGbWithUnit | scripts/convert_to_json.py:256-260 | "nGB" gives int(n), or 0 where `int` fails |
| CatalogConvert.ProcessMemory | scripts/convert_to_json.py:242-273 | The stable sort of the kept memory records by (preferred or 99, size in GB): a permutation, ordered by rank then size |
| CatalogConvert.SchemeTable | scripts/convert_to_json.py:288-315 | Three distinct schemes, default first; each has total = data + parity, efficiency = data / total, min drives = total, fault tolerance = parity |
| CatalogConvert.GroupVendors | scripts/convert_to_json.py:339-345 | One vendor entry per indexed vendor, with its name and chassis; a size is supported iff one of its chassis has that category |
| CatalogConvert.CreateHardwareJson | scripts/convert_to_json.py:275-347 | Fails iff a drive capacity fails; otherwise metadata, the three sorted lists, boot drives unchanged, the scheme table, size categories, and one vendor entry per vendor of the chassis index, carrying its own name, its chassis, and exactly the size categories of those chassis (never empty) |
| KeySort.SortBy | scripts/convert_to_json.py:203 | `sorted` with a tuple key: ordered by key, a permutation of the input, and equal-key elements in input order |
| KeySort.StableSortUnique | scripts/convert_to_json.py:203 | Two lists sorted by the same key that agree on the order within each key are equal |
| KeySort.SortByIsTheStableSort | scripts/convert_to_json.py:240 | Any stable sort of a list by a key equals `SortBy` |
| CatalogValidate.Absent | scripts/validate_data.py:18-20 | The absent keys are exactly the listed keys for which `in` fails, in list order |
| CatalogValidate.ReportAbsent | scripts/validate_data.py:18-20 | The loop over a key list reports, in list order, exactly the keys the value lacks |
| CatalogValidate.ValidateJsonStructure | scripts/validate_data.py:12-28 | One error per missing required key in list order, for any document that supports `in`; metadata keys are checked only when metadata is present, as warnings |
| CatalogValidate.StructureErrors | scripts/validate_data.py:17-20 | A required key is reported iff the document lacks it; no errors iff all six keys are present |
| CatalogValidate.CheckVendor | scripts/validate_data.py:40-51 | One vendor: the missing-chassis error and nothing else, or its supported-sizes and empty-chassis warnings, as `VendorErrorsOf` and `VendorWarningsOf` state |
| CatalogValidate.ValidateVendors | scripts/validate_data.py:30-53 | A falsy vendor table is the single "no vendor data" error; otherwise the per-vendor errors and warnings in dict order |
| CatalogValidate.VendorErrors | scripts/validate_data.py:39-42 | The only errors are missing-chassis errors, one for each vendor without chassis data |
| CatalogValidate.VendorWarnings | scripts/validate_data.py:43-51 | Only vendors with chassis data warn: iff `supported_sizes` is absent, and iff their chassis table is empty |
| CatalogValidate.FieldErrorsSpec | scripts/validate_data.py:68-70 | One error per required field of a record that is absent or None, and no other |
| CatalogValidate.MissingFields | scripts/validate_data.py:68-70 | The inner loop over a record's required fields yields exactly `FieldErrors` for that record |
| CatalogValidate.RecordErrorsSpec | scripts/validate_data.py:67-70 | An error for record i and field f iff f is required and absent or None in record i |
| CatalogValidate.RecordErrorsNoRepeats | scripts/validate_data.py:67-70 | With distinct required fields, no (record, field) error is reported twice |
| CatalogValidate.FieldErrorsNoRepeats | scripts/validate_data.py:68-70 | With distinct required fields, a record's errors are distinct |
| CatalogValidate.ValidateStorageDrives | scripts/validate_data.py:55-85 | A falsy drive list is the single "no drives" error; otherwise the missing-field errors and the per-drive warnings in order |
| CatalogValidate.DriveWarnings | scripts/validate_data.py:75-81 | A warning exactly for each drive above 100 TB and each drive above 10000 MB/s sequential read, carrying that drive's model and value |
| CatalogValidate.ValidateCpus | scripts/validate_data.py:87-114 | A falsy CPU list is the single "no CPUs" error; otherwise the missing-field errors and the per-CPU warnings in order |
| CatalogValidate.CpuWarnings | scripts/validate_data.py:107-110 | A warning exactly for each CPU whose core count is truthy and above 128 |
| CatalogValidate.SchemeOf | scripts/validate_data.py:131-133 | The lookup `schemes[name]` of a present, well-shaped scheme; its nonzero block sum is what makes the division at :134 defined |
| CatalogValidate.CheckScheme | scripts/validate_data.py:129-138 | One required scheme: a warning exactly when it is missing, otherwise exactly its `SchemeErrorOf` mismatch error |
| CatalogValidate.ValidateErasureCoding | scripts/validate_data.py:116-142 | No section or no `schemes` is the single error; otherwise a warning per missing required scheme and an error per efficiency mismatch, in list order |
| CatalogValidate.SchemeWarnings | scripts/validate_data.py:128-130 | A required scheme is reported missing iff the table lacks it |
| CatalogValidate.SchemeErrorsSpec | scripts/validate_data.py:131-138 | A present required scheme is an error iff its efficiency is more than 0.001 from data/(data+parity), with both values |
| CatalogValidate.DriveVendors | scripts/validate_data.py:153-157 | The drive vendor set holds exactly the truthy `vendor` values of the drives |
| CatalogValidate.CollectDriveVendors | scripts/validate_data.py:153-157 | The loop over the drives collects exactly `DriveVendors`, the truthy vendor values |
| CatalogValidate.Preferred | scripts/validate_data.py:165 | The preferred records are exactly those with `preferred` (default 0) at most 2 |
| CatalogValidate.ConsistencyWarningsSpec | scripts/validate_data.py:159-171 | A warning iff some drive vendor is not a vendor key (naming exactly those), iff fewer than 3 drives are preferred, iff fewer than 2 CPUs are |
| CatalogValidate.ValidateConsistency | scripts/validate_data.py:144-173 | No errors; the warnings are built from the unknown drive vendors and the two preferred counts |
| CatalogPipeline.WellFormedTableValidates | scripts/validate_data.py:116-142 | A table holding the required schemes, each well formed, passes the erasure-coding check with neither errors nor warnings |
| CatalogPipeline.ConverterSchemesValidate | scripts/convert_to_json.py:288-315 | The converter's own scheme table passes the validator's erasure-coding check |

## Left out

- Reading the spreadsheet and CSV files and writing the JSON file are left out: `clean_data`, `convert_excel_to_csv`, `load_csv_data`, the two `main` functions and `check_file_sizes`. These are I/O and pandas.
- pandas NaN cells are not modelled; a missing cell is `None`. pandas reads an empty Vendor or Model cell as NaN, which is truthy, so the scripts keep such a row (scripts/convert_to_json.py:134, :176), while the model, reading `None`, drops it.
- `pd.isna` is therefore not modelled either.
- Floating point is modelled as exact reals, with no rounding or IEEE special values.
- `float()` and `int()` are parameters, not definitions.
- `str(x).upper()` is modelled on ASCII letters only.
- A non-string capacity or power cell is treated as carrying no unit and no '/'. That holds for Python's `str()` of a number or bool.
- Python's equal keys `1 == 1.0 == True` are not modelled. They merge in a dict or set, but the model's `Value`s keep them apart.
- The order of the JSON `supported_sizes` list is not modelled. `set` iteration order is unspecified, so the model keeps it as a set.
- The vendor dict and each vendor's model dict (`ChassisIndex`, `VendorEntry.chassis`) are maps, so the insertion order of `processed[vendor][model] = ...` (scripts/convert_to_json.py:150) is not kept in the written JSON.
- The message text of each finding is left out; findings are structured values.
- The `print` lines of the validator are left out, as is the count of preferred drives and CPUs they report in `validate_storage_drives` and `validate_cpus`.
- CatalogConvert.ProcessStorage: requires every kept row's preference to be falsy or a number. Python raises only when `sorted` actually compares a string key with a number. So a single kept row, or rows that all share one string preference, would not raise.
- CatalogConvert.ProcessMemory: requires the same of the memory rows, for the same reason.
- CatalogConvert.ProcessCpus: requires the same of the preference, for the same reason. The core count's requirement matches the source, because `-(x['cores'] or 0)` raises on a string even for one element.
- The calculator's sizing engine is not part of this model.
