# openpyxl workbook reader bookkeeping and chart schema records, in Dafny

This project models two parts of openpyxl, the Python library that reads and
writes Office Open XML spreadsheets.

**The workbook reader** (`openpyxl/packaging/workbook.py`). `WorkbookParser`
picks the archive part that holds the workbook: the first `officeDocument` root
relationship, or `xl/workbook.xml` when there is none. It then loads that part's
relationships. `parse` copies the date system, code name, active sheet and
sheet list from the parsed workbook part. It reads one external link per
external reference, but only when the workbook keeps links, and then installs
the defined names. `find_sheets` pairs every sheet that has a relationship id
with that relationship and skips the others. `assign_names` binds the reserved
`Print_Titles` and `Print_Area` names onto the worksheets they are local to and
keeps every other defined name, in order.

The value-level behaviour is stated as functions in module `WorkbookSpec`, and
lemmas there say what they mean. The classes `Workbook`, `Worksheet` and
`WorkbookParser` in module `WorkbookReader` update their fields in place, as the
source does. Each of their methods is proved against those functions. Python
exceptions become error values:

- the `KeyError` of an unknown relationship id;
- the `TypeError` of a missing `localSheetId`;
- the `IndexError` of an out-of-range `localSheetId`.

The state the source has changed before it raises is kept in the model. For
`assign_names`, the sheets bound before the error keep their new settings and
the defined-name list stays as it was.

Archive reading, XML parsing and relationship lookup are inputs. An `Archive`
value carries three things:

- the root relationships;
- a function from a part name to that part's relationships (`get_dependents` on `get_rels_path(part)`);
- a function from a part name to the parsed workbook package.

An external link is represented by the part it is read from. `_unpack_print_titles`
and `_unpack_print_area` are passed in as functions (`Unpackers`), since their
definitions are not part of this model. Python list indexing with
`localSheetId`, which accepts negative indices, is written out as `ListIndex`.

**The chart and pivot schema records** (`openpyxl/chart/bar_chart.py`,
`openpyxl/chart/data_source.py`, `openpyxl/workbook/pivot.py`). Each record is a
class with the declared fields. Its static constants give the tag name, the
declared field names and the declared child-element order (`__elements__`). A
field declared with `allow_none=True` is an `Option` or a nullable reference,
with one exception: `_BarChartBase.ser`, a `Sequence` declared with
`allow_none=True`, is a plain sequence of series whose default is the empty
sequence, as in the constructor's `ser=[]`. The source's default is one
mutable list shared by every call; the model's `seq` is a value, so it has no
shared default object. Whether that sharing is ever observable depends on the
`Sequence` descriptor, which is not part of this model.

- **Enumerated fields.** `barDir`, `grouping` and `shape` are strings kept inside
  their vocabularies by each class's `Valid()`. The setters refuse any other
  value, return the error and keep the old value, as an assignment through a
  `Set` or `NoneSet` descriptor raises.
- **Constructors and `Create`.** Each constructor takes validated arguments. The
  static `Create` methods model the Python constructor call with the source's
  defaults, including the call that raises.
- **Non-nullable fields defaulting to `None`.** Several fields are declared
  without `allow_none` while their constructor argument defaults to `None`:
  `NumVal.idx`, `NumRef.f`, `StrVal.v`, `NumData.pt` (a sequence field) and
  `PivotCache.cacheId`. The constructors only assign their arguments. What
  happens to a `None` is decided by the descriptor classes, which are defined
  in a file that is not part of this model. The model reads a descriptor
  declared without `allow_none` as one that refuses `None`, so that default
  gives a `NotNullable` error.
- **Aliases.** `dataLabels` and `ref` are accessors over the single field they
  alias.
- **Dropped arguments.** `extLst`, `axId` and `numCache` are accepted by the
  constructors and never stored, so the classes have no field for them.
- **The shared base.** `_BarChartBase` is a class of its own. `BarChart` and
  `BarChart3D` each own one as `base` and install fresh axes (and for
  `BarChart`, a fresh legend) on construction.

Two points where the code differs from what the schema's meaning suggests:

- **`AxDataSource` types.** `strRef` is declared with type `StrData` and
  `strLit` with type `StrRef`. This looks swapped with respect to the OOXML
  element names, but the model keeps the declared types.
- **`None` defaults.** Under the reading of non-nullable descriptors above, a
  constructor call that relies on a `None` default for such a field fails
  rather than building an instance. The descriptor code itself is not part of
  this model.

## Model

| member | source | states |
|---|---|---|
| WorkbookSpec.WorkbookPartName | openpyxl/packaging/workbook.py:40-42 | the workbook part is the target of the first officeDocument root relationship, and ARC_WORKBOOK when there is none |
| WorkbookReader.WorkbookParser.constructor | openpyxl/packaging/workbook.py:34-43 | the parser starts with a fresh workbook and no sheets; wb_name is chosen from the root relationships, and rels are that part's relationships |
| WorkbookReader.WorkbookParser.Parse | openpyxl/packaging/workbook.py:46-69 | date1904 sets the base date to 1904-01-01, otherwise it is unchanged; code name, active sheet and sheets come from the package; links are appended only when keep_links is set; defined names are installed only when there are some and no link lookup failed |
| WorkbookReader.WorkbookParser.ReadExternalLinks | openpyxl/packaging/workbook.py:61-65 | the workbook's external links grow by exactly the links ReadLinks gives for the references, in order, and the error is the KeyError ReadLinks gives |
| WorkbookSpec.ReadLinksSpec | openpyxl/packaging/workbook.py:61-65 | one link per reference, in order, read from its relationship's target; reading fails exactly when some reference id is not a relationship, and it stops at the first such reference |
| WorkbookSpec.DroppedLinks | openpyxl/packaging/workbook.py:58-59 | with keep_links false no reference is walked, so no link is read and nothing fails |
| WorkbookReader.WorkbookParser.FindSheets | openpyxl/packaging/workbook.py:72-85 | the loop returns exactly what FoundSheets gives for the parser's sheets and relationships |
| WorkbookSpec.FoundSheetsSpec | openpyxl/packaging/workbook.py:80-85 | the yielded sheets are exactly the sheets with a truthy id, in their original order, each paired with rels[id]; it fails exactly when such an id is missing from rels, having yielded a prefix |
| WorkbookSpec.FoundSheetsFailure | openpyxl/packaging/workbook.py:80-85 | when find_sheets raises, the pairs yielded are exactly those of the sheets with a truthy id before the first one whose id is missing from rels, every earlier such id is in rels, and the KeyError names that first missing id |
| WorkbookSpec.SkippedSheetsNotFound | openpyxl/packaging/workbook.py:81-84 | a sheet whose id is empty or missing is never yielded |
| WorkbookSpec.ListIndex | openpyxl/packaging/workbook.py:97 | indexing the sheet list succeeds exactly for an index in -n..n-1; the result is below n and congruent to the index modulo n (negative indices count from the end) |
| WorkbookSpec.Assign | openpyxl/packaging/workbook.py:92-106 | binding names never changes how many sheets there are |
| WorkbookReader.WorkbookParser.AssignNames | openpyxl/packaging/workbook.py:88-106 | the worksheets' print settings become those of Assign; definedName is replaced by the kept names on success and left as it was when an index fails; distinct worksheets stay distinct |
| WorkbookSpec.AssignKeepsOthers | openpyxl/packaging/workbook.py:94-106 | after success definedName is the original list minus its Print_Titles and Print_Area entries, in the original order (every other entry kept unchanged); after a failure the kept list is a prefix of that |
| WorkbookSpec.AssignFails | openpyxl/packaging/workbook.py:96-97 | assign_names fails exactly when some Print_Titles or Print_Area entry's localSheetId names no sheet, and the error is that of the first such entry |
| WorkbookSpec.TitlesUntouched | openpyxl/packaging/workbook.py:98-101 | the print titles of a sheet that no Print_Titles entry targets are unchanged |
| WorkbookSpec.AreaUntouched | openpyxl/packaging/workbook.py:102-103 | the print area of a sheet that no Print_Area entry targets is unchanged |
| WorkbookSpec.UntargetedSheetUnchanged | openpyxl/packaging/workbook.py:94-105 | a sheet targeted by no Print_Titles or Print_Area entry is not modified |
| WorkbookSpec.LastTitlesWin | openpyxl/packaging/workbook.py:98-101 | after success a sheet's print title rows and columns are the unpacked pair of the last Print_Titles entry targeting it |
| WorkbookSpec.LastAreaWins | openpyxl/packaging/workbook.py:102-103 | after success a sheet's print area is the unpacked area of the last Print_Area entry targeting it |
| BarCharts.BarChartBase.ArgsError | openpyxl/chart/bar_chart.py:36-38 | construction fails exactly when barDir is not bar/col or grouping is not one of the four groupings; barDir is reported first |
| BarCharts.BarChartBase.constructor | openpyxl/chart/bar_chart.py:46-58 | the base fields hold the arguments, and barDir and grouping are in their vocabularies |
| BarCharts.BarChartBase.SetBarDir | openpyxl/chart/bar_chart.py:36 | barDir accepts exactly bar and col; a refused value leaves barDir as it was, so Valid is preserved |
| BarCharts.BarChartBase.SetGrouping | openpyxl/chart/bar_chart.py:37-38 | grouping accepts exactly percentStacked, clustered, standard and stacked; a refused value leaves grouping as it was |
| BarCharts.BarChartBase.GetDataLabels | openpyxl/chart/bar_chart.py:42 | reading dataLabels reads dLbls |
| BarCharts.BarChartBase.SetDataLabels | openpyxl/chart/bar_chart.py:42 | writing dataLabels writes dLbls and no other field |
| BarCharts.BarChart.constructor | openpyxl/chart/bar_chart.py:84-98 | defaults gapWidth 150, overlap None, barDir col, grouping clustered, varyColors and dLbls None; fresh x axis, y axis and legend; axId and extLst not stored |
| BarCharts.BarChart.Create | openpyxl/chart/bar_chart.py:84-98 | BarChart(...) fails exactly when the base arguments are out of their vocabularies, with that error; otherwise it yields a fresh valid chart holding the arguments |
| BarCharts.BarChart3D.ArgsError | openpyxl/chart/bar_chart.py:132-140 | construction fails when shape is neither None nor one of the six shapes (checked first, as shape is assigned first), or when the base arguments fail |
| BarCharts.BarChart3D.constructor | openpyxl/chart/bar_chart.py:123-140 | defaults gapWidth 150, gapDepth 150, shape None and the base defaults; fresh x, y and z axes; axId and extLst not stored |
| BarCharts.BarChart3D.Create | openpyxl/chart/bar_chart.py:123-140 | BarChart3D(...) fails exactly when ArgsError reports an error; otherwise it yields a fresh valid chart holding the arguments |
| BarCharts.BarChart3D.SetShape | openpyxl/chart/bar_chart.py:113 | shape accepts None and the six listed shapes only; a refused value leaves shape as it was |
| BarCharts.ElementOrders | openpyxl/chart/bar_chart.py:44-121 | the base child order is barDir, grouping, varyColors, ser, dLbls; each bar chart's is the base's followed by its own; every child but axId is a declared field |
| ChartDataSource.NumVal.Create | openpyxl/chart/data_source.py:25-36 | NumVal(...) fails exactly when idx is None; otherwise idx, formatCode and v hold the arguments |
| ChartDataSource.NumData.Create | openpyxl/chart/data_source.py:43-56 | NumData(...) fails exactly when pt is None; otherwise formatCode, ptCount and the sequence of NumVal points are stored, and extLst is not |
| ChartDataSource.NumRef.Create | openpyxl/chart/data_source.py:61-73 | NumRef(...) fails exactly when f is None; otherwise only f is stored, and numCache and extLst are dropped |
| ChartDataSource.NumRef.Ref | openpyxl/chart/data_source.py:62 | reading ref reads f |
| ChartDataSource.NumRef.SetRef | openpyxl/chart/data_source.py:62 | writing ref writes f and nothing else |
| ChartDataSource.StrVal.Create | openpyxl/chart/data_source.py:80-88 | StrVal(...) defaults idx to 0 and v to None; it fails when idx or v is None (idx reported first), otherwise both are stored |
| ChartDataSource.StrData.constructor | openpyxl/chart/data_source.py:101-107 | ptCount and the single optional StrVal point hold the arguments, defaulting to None; extLst is not stored |
| ChartDataSource.StrRef.constructor | openpyxl/chart/data_source.py:120-126 | f and strCache hold the arguments, defaulting to None; extLst is not stored |
| ChartDataSource.NumDataSource.constructor | openpyxl/chart/data_source.py:135-140 | numRef and numLit hold the arguments, defaulting to None |
| ChartDataSource.AxDataSource.constructor | openpyxl/chart/data_source.py:145-159 | the four optional fields hold the arguments, defaulting to None, with strRef typed StrData and strLit typed StrRef as declared |
| ChartDataSource.ElementsAreDeclared | openpyxl/chart/data_source.py:46-118 | every child element of NumData (formatCode, ptCount, pt), NumRef (f), StrData (ptCount, pt) and StrRef (f, strCache) is a declared field |
| Pivot.PivotCache.constructor | openpyxl/workbook/pivot.py:15-20 | cacheId and id hold the arguments unchanged |
| Pivot.PivotCache.Create | openpyxl/workbook/pivot.py:12-20 | PivotCache(...) defaults both fields to None and fails exactly when cacheId, an integer field without allow_none, is None; otherwise both are stored |

## Left out

- Archive and XML input/output (`archive.read`, `fromstring`, `WorkbookPackage.from_tree`, `get_dependents`, `get_rels_path`, `read_external_link`) are inputs of the `Archive` value. Their own failures (a missing part, malformed XML) are not modelled.
- `RelationshipList.find` is modelled as selecting the relationships whose type equals the officeDocument type, in order. Its definition is not part of this model.
- The `warn` call in `find_sheets` is not modelled; a skipped sheet is simply absent from the result.
- `find_sheets` is a generator. The model returns all pairs yielded before the `KeyError` together with that error; lazy consumption is not modelled.
- `_unpack_print_titles` and `_unpack_print_area` are function parameters. Their definitions, and any error they raise, are not part of this model.
- `is_reserved` is computed from the name in a file that is not part of this model; it is an input field of `DefinedName`.
- `DefinedNameList._cleanup` and the truth value of `package.definedNames` are not part of this model. The package's defined names are taken as already cleaned, and an empty list counts as false. The source tests the list before it calls `_cleanup()` (openpyxl/packaging/workbook.py lines 67-69), while `Parse` tests the already-cleaned list. So when cleaning would empty a non-empty list, the source installs the empty list, while `Parse` keeps the workbook's previous defined names. Starting from a freshly built parser, both give the empty list.
- The worksheet's `print_title_rows` and `print_area` property setters, and the workbook's `code_name` and `active` setters, are modelled as plain field assignments.
- `Workbook()` itself is not part of this model. The model starts a workbook with the 1899-12-30 base date, `keep_links` true, and no links, defined names or worksheets. The values of `ARC_WORKBOOK`, `CALENDAR_WINDOWS_1900` and `CALENDAR_MAC_1904` are those of openpyxl's constants.
- The descriptor engine (`Serialisable.to_tree`/`from_tree`, `Typed`, `Sequence`, `Nested*`, `Alias`, `Relation`, `ExtensionList`) is not part of this model. No XML output or parse behaviour is claimed. Value coercions that descriptors apply on assignment are not modelled, such as `Integer` converting a string or a `NoneSet` turning `'none'` into `None`; the Dafny types stand for the expected types.
- `NestedGapAmount` and `NestedOverlap` are defined in a file that is not part of this model. `gapWidth`, `gapDepth` and `overlap` accept any integer or `None`.
- `NumVal.v` is a float; it is a `real` on which no arithmetic is done.
- Fields the constructors never set (`extLst`, `numCache`) have no Dafny field, so a later assignment to them is not modelled.
- `ChartBase` is not part of this model: its own fields and constructor, and the `axId` property named in the child orders. `BarChart` re-declares the base descriptors as class attributes. The model instead shares them through `base`.
- The internals of `Series`, `DataLabels`, `ChartLines`, `CatAx`, `ValAx`, `SerAx`, `Legend` and `ExtensionList` are not modelled; these are empty classes, used by reference. `openpyxl/chart/tests/test_label.py` exercises `label.py`, which is not part of this model.
- BarCharts.BarChart.constructor: requires barDir and grouping in their vocabularies. The call that raises instead is `BarChart.Create`; the same holds for `BarChart3D.constructor` and `BarChart3D.Create`.
- ChartDataSource.NumVal.constructor: takes validated field values without the source's `None` defaults. The call with those defaults is `Create`; the same holds for `NumData`, `NumRef`, `StrVal` and `PivotCache`.
- ChartDataSource.NumRef.Create: refuses `f = None` with `NotNullable("f")`, the model's reading of a descriptor declared without `allow_none`. `f` is a `NestedText(expected_type=basestring)`, and the text descriptors are defined in a file that is not part of this model. If such a descriptor converts a value of the wrong type with `expected_type(value)` rather than raising, the source stores the string `"None"` instead of failing. The model does not capture that conversion.
- ChartDataSource.StrVal.Create: refuses `v = None` with `NotNullable("v")`, the same reading, applied to its `NestedString()` field `v`. A converting descriptor would store `"None"` instead; the model does not capture that conversion.
- BarCharts.BarChartBase.constructor: `ser` is a plain sequence, although the source declares it with `allow_none=True`. Assigning `None` to `ser` is not modelled; the empty sequence stands for no series.
