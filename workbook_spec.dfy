/**
 * The bookkeeping of the workbook reader (openpyxl/packaging/workbook.py) stated
 * on values: which part holds the workbook, which sheets are linked to a part,
 * which external links are read, and how reserved defined names are bound to
 * worksheets. The classes in module WorkbookReader are proved against these
 * functions; the lemmas here state what the functions mean.
 */
module WorkbookSpec {
  import opened Wrappers

  const RelationshipsNs: string := "http://schemas.openxmlformats.org/officeDocument/2006/relationships"
  /** The relationship type that marks the workbook part in the package's root relationships. */
  const OfficeDocumentType: string := RelationshipsNs + "/officeDocument"
  /** ARC_WORKBOOK: the workbook part used when the root relationships name none. */
  const ArcWorkbook: string := "xl/workbook.xml"

  const PrintTitles: string := "Print_Titles"
  const PrintArea: string := "Print_Area"

  datatype Date = Date(year: int, month: int, day: int)
  /** The default base date of a workbook (CALENDAR_WINDOWS_1900). */
  const CalendarWindows1900: Date := Date(1899, 12, 30)
  /** The base date of a workbook that uses the 1904 date system (CALENDAR_MAC_1904). */
  const CalendarMac1904: Date := Date(1904, 1, 1)

  /** A package relationship: its id, its type and the part it points to. */
  datatype Relationship = Relationship(id: string, relType: string, target: string)

  /** The relationships of one part, looked up by id (a missing id raises KeyError). */
  type RelMap = map<string, Relationship>

  /** A `<sheet>` element of the workbook part; `id` is its relationship id, possibly absent or empty. */
  datatype Sheet = Sheet(name: string, sheetId: int, id: Option<string>)

  /** Python truthiness of `sheet.id`: present and not the empty string. */
  predicate HasRelId(s: Sheet)
  {
    s.id.Some? && s.id.value != ""
  }

  /**
   * A defined name. `isReserved` is the reserved name it spells, if any
   * (`is_reserved`, computed from the name outside this model); `localSheetId`
   * is the index of the sheet it is local to.
   */
  datatype DefinedName = DefinedName(name: string, value: string, localSheetId: Option<int>, isReserved: Option<string>)

  /** A reserved name that assign_names binds to a worksheet instead of keeping. */
  predicate IsPrintReserved(d: DefinedName)
  {
    d.isReserved == Some(PrintTitles) || d.isReserved == Some(PrintArea)
  }

  /** A defined name that assign_names keeps in the workbook's list. */
  predicate IsKeptName(d: DefinedName)
  {
    !IsPrintReserved(d)
  }

  /** A reference from the workbook part to an external link, by relationship id. */
  datatype ExternalReference = ExternalReference(id: string)

  /** An external link, represented by the archive part it was read from. */
  datatype ExternalLink = ExternalLink(part: string)

  /**
   * What WorkbookPackage.from_tree yields for the workbook part. `definedNames`
   * is the list of the package's defined names after `_cleanup`; an absent list
   * is the empty one.
   */
  datatype WorkbookPackage = WorkbookPackage(
    date1904: Option<bool>,
    codeName: Option<string>,
    active: int,
    sheets: seq<Sheet>,
    externalReferences: seq<ExternalReference>,
    definedNames: seq<DefinedName>)

  /**
   * The archive as the reader sees it: the root relationships, the relationships
   * of a part (get_dependents on that part's .rels), and the parsed workbook part.
   */
  datatype Archive = Archive(
    rootRels: seq<Relationship>,
    partRels: string -> RelMap,
    workbookPart: string -> WorkbookPackage)

  /** The exceptions the reader lets through: KeyError, TypeError and IndexError. */
  datatype ReaderError =
    | MissingRelationship(id: string)
    | NoSheetIndex(definedName: string)
    | SheetIndexOutOfRange(definedName: string, index: int)

  /** What a loop produced before it stopped, and the error that stopped it, if any. */
  datatype Scan<T> = Scan(items: seq<T>, error: Option<ReaderError>)
  {
    /** The same outcome with `acc` produced first. */
    function Prepend(acc: seq<T>): Scan<T>
    {
      Scan(acc + items, error)
    }
  }

  // ---------------------------------------------------------------------------
  // Filtering, the reference definition for the lists the reader keeps

  function Filter<T>(s: seq<T>, p: T -> bool): (r: seq<T>)
  {
    if s == [] then [] else (if p(s[0]) then [s[0]] else []) + Filter(s[1..], p)
  }

  lemma {:induction false} FilterMembers<T>(s: seq<T>, p: T -> bool)
    ensures forall x :: x in Filter(s, p) <==> x in s && p(x)
  {
    if s != [] {
      FilterMembers(s[1..], p);
      assert s == [s[0]] + s[1..];
    }
  }

  /** Filtering keeps relative order: the filter of a concatenation is the concatenation of the filters. */
  lemma {:induction false} FilterAppend<T>(a: seq<T>, b: seq<T>, p: T -> bool)
    ensures Filter(a + b, p) == Filter(a, p) + Filter(b, p)
  {
    if a == [] {
      assert a + b == b;
    } else {
      var head := if p(a[0]) then [a[0]] else [];
      assert (a + b)[0] == a[0];
      assert (a + b)[1..] == a[1..] + b;
      assert Filter(a + b, p) == head + Filter(a[1..] + b, p);
      FilterAppend(a[1..], b, p);
      assert head + (Filter(a[1..], p) + Filter(b, p)) == (head + Filter(a[1..], p)) + Filter(b, p);
    }
  }

  // ---------------------------------------------------------------------------
  // WorkbookParser.__init__: which part holds the workbook

  /** The targets of the officeDocument relationships, in order. */
  function OfficeDocumentTargets(rels: seq<Relationship>): seq<string>
  {
    if rels == [] then []
    else (if rels[0].relType == OfficeDocumentType then [rels[0].target] else []) + OfficeDocumentTargets(rels[1..])
  }

  /** `i` is the position of the first officeDocument relationship. */
  ghost predicate IsFirstOfficeDocument(rels: seq<Relationship>, i: int)
  {
    0 <= i < |rels| && rels[i].relType == OfficeDocumentType &&
    forall j :: 0 <= j < i ==> rels[j].relType != OfficeDocumentType
  }

  lemma {:induction false} OfficeDocumentTargetsHead(rels: seq<Relationship>)
    ensures OfficeDocumentTargets(rels) == [] <==> forall rel :: rel in rels ==> rel.relType != OfficeDocumentType
    ensures forall i :: IsFirstOfficeDocument(rels, i) ==> OfficeDocumentTargets(rels) != [] && OfficeDocumentTargets(rels)[0] == rels[i].target
  {
    if rels != [] {
      OfficeDocumentTargetsHead(rels[1..]);
      assert rels == [rels[0]] + rels[1..];
      forall i | IsFirstOfficeDocument(rels, i)
        ensures OfficeDocumentTargets(rels) != [] && OfficeDocumentTargets(rels)[0] == rels[i].target
      {
        if i > 0 {
          assert IsFirstOfficeDocument(rels[1..], i - 1);
        }
      }
    }
  }

  /** wb_name: the target of the first officeDocument root relationship, else ARC_WORKBOOK. */
  function WorkbookPartName(rootRels: seq<Relationship>): (r: string)
    ensures (forall rel :: rel in rootRels ==> rel.relType != OfficeDocumentType) ==> r == ArcWorkbook
    ensures forall i :: IsFirstOfficeDocument(rootRels, i) ==> r == rootRels[i].target
  {
    OfficeDocumentTargetsHead(rootRels);
    var targets := OfficeDocumentTargets(rootRels);
    if targets != [] then targets[0] else ArcWorkbook
  }

  // ---------------------------------------------------------------------------
  // WorkbookParser.find_sheets

  /**
   * The pairs find_sheets yields: each sheet with a relationship id, with that
   * relationship; sheets without one are skipped. A relationship id missing from
   * `rels` raises KeyError after the pairs before it were yielded.
   */
  function FoundSheets(sheets: seq<Sheet>, rels: RelMap): Scan<(Sheet, Relationship)>
  {
    if sheets == [] then Scan([], None)
    else
      var s := sheets[0];
      if !HasRelId(s) then FoundSheets(sheets[1..], rels)
      else if s.id.value !in rels then Scan([], Some(MissingRelationship(s.id.value)))
      else FoundSheets(sheets[1..], rels).Prepend([(s, rels[s.id.value])])
  }

  /** The sheets of a list of pairs. */
  function Firsts<A, B>(ps: seq<(A, B)>): (r: seq<A>)
    ensures |r| == |ps| && forall i :: 0 <= i < |ps| ==> r[i] == ps[i].0
  {
    if ps == [] then [] else [ps[0].0] + Firsts(ps[1..])
  }

  /**
   * find_sheets yields exactly the sheets with a relationship id, in their order,
   * each with `rels[id]`; it fails exactly when one of their ids is not in `rels`,
   * and then it has yielded the sheets before that one.
   */
  lemma {:induction false} FoundSheetsSpec(sheets: seq<Sheet>, rels: RelMap)
    ensures var r := FoundSheets(sheets, rels);
      (r.error.None? <==> forall s :: s in sheets && HasRelId(s) ==> s.id.value in rels) &&
      (r.error.None? ==> Firsts(r.items) == Filter(sheets, HasRelId)) &&
      Firsts(r.items) <= Filter(sheets, HasRelId) &&
      (forall p :: p in r.items ==> HasRelId(p.0) && p.0.id.value in rels && p.1 == rels[p.0.id.value])
  {
    if sheets != [] {
      FoundSheetsSpec(sheets[1..], rels);
      assert sheets == [sheets[0]] + sheets[1..];
      var s := sheets[0];
      if HasRelId(s) && s.id.value in rels {
        var rest := FoundSheets(sheets[1..], rels);
        assert Firsts([(s, rels[s.id.value])] + rest.items) == [s] + Firsts(rest.items);
      }
    }
  }

  /**
   * Position `k` of the sheets with a relationship id holds the first one whose
   * id is not in `rels`, and `e` is the KeyError it raises.
   */
  ghost predicate FailsAt(found: seq<Sheet>, rels: RelMap, k: int, e: ReaderError)
  {
    0 <= k < |found| && found[k].id.Some? && found[k].id.value !in rels &&
    (forall j :: 0 <= j < k ==> found[j].id.Some? && found[j].id.value in rels) &&
    e == MissingRelationship(found[k].id.value)
  }

  /**
   * When find_sheets raises, it has yielded one pair for each sheet with a
   * relationship id before the first one whose id is not in `rels`, and the
   * KeyError names that id.
   */
  lemma {:induction false} FoundSheetsFailure(sheets: seq<Sheet>, rels: RelMap)
    ensures var r := FoundSheets(sheets, rels);
      r.error.Some? ==> FailsAt(Filter(sheets, HasRelId), rels, |r.items|, r.error.value)
  {
    if sheets != [] {
      FoundSheetsFailure(sheets[1..], rels);
      var s := sheets[0];
      var rest := FoundSheets(sheets[1..], rels);
      var f := Filter(sheets[1..], HasRelId);
      if HasRelId(s) {
        assert Filter(sheets, HasRelId) == [s] + f;
        if s.id.value in rels && rest.error.Some? {
          assert FoundSheets(sheets, rels) == Scan([(s, rels[s.id.value])] + rest.items, rest.error);
          assert FailsAt(f, rels, |rest.items|, rest.error.value);
          assert FailsAt([s] + f, rels, |rest.items| + 1, rest.error.value);
        }
      } else {
        assert Filter(sheets, HasRelId) == f;
      }
    }
  }

  /** A sheet with an empty or missing relationship id is never yielded. */
  lemma {:induction false} SkippedSheetsNotFound(sheets: seq<Sheet>, rels: RelMap, s: Sheet)
    requires !HasRelId(s)
    ensures forall p :: p in FoundSheets(sheets, rels).items ==> p.0 != s
  {
    FoundSheetsSpec(sheets, rels);
  }

  // ---------------------------------------------------------------------------
  // WorkbookParser.parse: external links

  /** The external references parse walks: none when links are not kept. */
  function LinkedReferences(pkg: WorkbookPackage, keepLinks: bool): seq<ExternalReference>
  {
    if keepLinks then pkg.externalReferences else []
  }

  /**
   * The external links parse appends: one per reference, read from the target of
   * its relationship; a reference whose id is not in `rels` raises KeyError.
   */
  function ReadLinks(refs: seq<ExternalReference>, rels: RelMap): Scan<ExternalLink>
  {
    if refs == [] then Scan([], None)
    else if refs[0].id !in rels then Scan([], Some(MissingRelationship(refs[0].id)))
    else ReadLinks(refs[1..], rels).Prepend([ExternalLink(rels[refs[0].id].target)])
  }

  /**
   * Links are read one per reference, in order, each from its relationship's
   * target; reading stops at the first reference with an unknown id.
   */
  lemma {:induction false} ReadLinksSpec(refs: seq<ExternalReference>, rels: RelMap)
    ensures var r := ReadLinks(refs, rels);
      (r.error.None? <==> forall ref :: ref in refs ==> ref.id in rels) &&
      |r.items| <= |refs| &&
      (forall i :: 0 <= i < |r.items| ==> refs[i].id in rels && r.items[i] == ExternalLink(rels[refs[i].id].target)) &&
      (r.error.None? ==> |r.items| == |refs|) &&
      (r.error.Some? ==> |r.items| < |refs| && refs[|r.items|].id !in rels &&
                         r.error == Some(MissingRelationship(refs[|r.items|].id)))
  {
    if refs != [] {
      ReadLinksSpec(refs[1..], rels);
      assert refs == [refs[0]] + refs[1..];
      if refs[0].id in rels {
        var rest := ReadLinks(refs[1..], rels);
        assert ReadLinks(refs, rels) == Scan([ExternalLink(rels[refs[0].id].target)] + rest.items, rest.error);
      }
    }
  }

  /** With keep_links false no link is read and nothing can fail. */
  lemma {:induction false} DroppedLinks(pkg: WorkbookPackage, rels: RelMap)
    ensures ReadLinks(LinkedReferences(pkg, false), rels) == Scan([], None)
  {
  }

  // ---------------------------------------------------------------------------
  // WorkbookParser.assign_names

  /**
   * Python list indexing `xs[i]` on a list of length `n`: a negative index counts
   * from the end; `None` stands for the TypeError or IndexError it raises.
   */
  function ListIndex(i: Option<int>, n: nat): (r: Option<nat>)
    ensures r.Some? <==> i.Some? && -(n as int) <= i.value < n
    ensures r.Some? ==> r.value < n && r.value % n == i.value % n
  {
    if i.None? then None
    else if 0 <= i.value < n then Some(i.value)
    else if -(n as int) <= i.value < 0 then Some(i.value + n)
    else None
  }

  /** The error assign_names raises for a reserved name whose localSheetId names no sheet. */
  function SheetIndexError(d: DefinedName): ReaderError
  {
    if d.localSheetId.None? then NoSheetIndex(d.name) else SheetIndexOutOfRange(d.name, d.localSheetId.value)
  }

  /** The print settings of one worksheet. */
  datatype PrintSettings = PrintSettings(titleRows: Option<string>, titleCols: Option<string>, area: Option<string>)

  /** `_unpack_print_titles` and `_unpack_print_area`, whose definitions are not part of this model. */
  datatype Unpackers = Unpackers(
    titles: DefinedName -> (Option<string>, Option<string>),
    area: DefinedName -> Option<string>)

  /** Binding one reserved name onto the settings of the sheet it is local to. */
  function Bind(p: PrintSettings, d: DefinedName, u: Unpackers): PrintSettings
  {
    if d.isReserved == Some(PrintTitles) then p.(titleRows := u.titles(d).0, titleCols := u.titles(d).1)
    else if d.isReserved == Some(PrintArea) then p.(area := u.area(d))
    else p
  }

  /** The sheet settings after assign_names, the names it keeps, and the error that stopped it. */
  datatype Assigned = Assigned(settings: seq<PrintSettings>, kept: seq<DefinedName>, error: Option<ReaderError>)
  {
    function PrependKept(acc: seq<DefinedName>): Assigned
    {
      this.(kept := acc + kept)
    }
  }

  /**
   * assign_names on sheets whose settings are `settings`: Print_Titles and
   * Print_Area entries update the sheet at their localSheetId, every other entry
   * is kept. An entry whose localSheetId names no sheet raises; the sheets bound
   * before it keep their new settings.
   */
  function Assign(settings: seq<PrintSettings>, names: seq<DefinedName>, u: Unpackers): (r: Assigned)
    ensures |r.settings| == |settings|
    decreases |names|
  {
    if names == [] then Assigned(settings, [], None)
    else
      var d := names[0];
      if IsPrintReserved(d) then
        match ListIndex(d.localSheetId, |settings|)
        case None => Assigned(settings, [], Some(SheetIndexError(d)))
        case Some(k) => Assign(settings[k := Bind(settings[k], d, u)], names[1..], u)
      else
        Assign(settings, names[1..], u).PrependKept([d])
  }

  /** `d` is a reserved name of kind `kind` that is bound to sheet `k` of `n`. */
  predicate Targets(d: DefinedName, kind: string, n: nat, k: nat)
  {
    d.isReserved == Some(kind) && ListIndex(d.localSheetId, n) == Some(k)
  }

  /** `d` is a reserved entry whose localSheetId names no sheet of `n`. */
  predicate Unresolved(d: DefinedName, n: nat)
  {
    IsPrintReserved(d) && ListIndex(d.localSheetId, n).None?
  }

  /**
   * After a successful assign_names the list of defined names is the original
   * one without its Print_Titles and Print_Area entries, in the original order;
   * after a failed one, what was collected is a prefix of it.
   */
  lemma {:induction false} AssignKeepsOthers(settings: seq<PrintSettings>, names: seq<DefinedName>, u: Unpackers)
    ensures var r := Assign(settings, names, u);
      r.kept <= Filter(names, IsKeptName) &&
      (r.error.None? ==> r.kept == Filter(names, IsKeptName))
    decreases |names|
  {
    if names != [] {
      var d := names[0];
      if IsPrintReserved(d) {
        match ListIndex(d.localSheetId, |settings|)
        case None =>
        case Some(k) => AssignKeepsOthers(settings[k := Bind(settings[k], d, u)], names[1..], u);
      } else {
        AssignKeepsOthers(settings, names[1..], u);
      }
    }
  }

  /**
   * assign_names fails exactly when some Print_Titles or Print_Area entry names no
   * sheet, and the error is the one for the first such entry.
   */
  lemma {:induction false} AssignFails(settings: seq<PrintSettings>, names: seq<DefinedName>, u: Unpackers)
    ensures var r := Assign(settings, names, u);
      (r.error.None? <==> forall d :: d in names ==> !Unresolved(d, |settings|)) &&
      (r.error.Some? ==> exists i :: 0 <= i < |names| && Unresolved(names[i], |settings|) &&
                          (forall j :: 0 <= j < i ==> !Unresolved(names[j], |settings|)) &&
                          r.error == Some(SheetIndexError(names[i])))
    decreases |names|
  {
    if names != [] {
      var d := names[0];
      assert names == [d] + names[1..];
      if IsPrintReserved(d) && ListIndex(d.localSheetId, |settings|).Some? {
        var k := ListIndex(d.localSheetId, |settings|).value;
        var s' := settings[k := Bind(settings[k], d, u)];
        AssignFails(s', names[1..], u);
        if Assign(settings, names, u).error.Some? {
          var i :| 0 <= i < |names[1..]| && Unresolved(names[1..][i], |s'|) &&
                   (forall j :: 0 <= j < i ==> !Unresolved(names[1..][j], |s'|)) &&
                   Assign(s', names[1..], u).error == Some(SheetIndexError(names[1..][i]));
          assert names[i + 1] == names[1..][i];
          assert forall j :: 0 < j < i + 1 ==> names[j] == names[1..][j - 1];
        }
      } else if !IsPrintReserved(d) {
        AssignFails(settings, names[1..], u);
        if Assign(settings, names, u).error.Some? {
          var i :| 0 <= i < |names[1..]| && Unresolved(names[1..][i], |settings|) &&
                   (forall j :: 0 <= j < i ==> !Unresolved(names[1..][j], |settings|)) &&
                   Assign(settings, names[1..], u).error == Some(SheetIndexError(names[1..][i]));
          assert names[i + 1] == names[1..][i];
          assert forall j :: 0 < j < i + 1 ==> names[j] == names[1..][j - 1];
        }
      } else {
        assert Unresolved(names[0], |settings|);
      }
    }
  }

  /** The print titles of a sheet that no Print_Titles entry targets are left as they were. */
  lemma {:induction false} TitlesUntouched(settings: seq<PrintSettings>, names: seq<DefinedName>, u: Unpackers, k: nat)
    requires k < |settings|
    requires forall j :: 0 <= j < |names| ==> !Targets(names[j], PrintTitles, |settings|, k)
    ensures var p := Assign(settings, names, u).settings[k];
      p.titleRows == settings[k].titleRows && p.titleCols == settings[k].titleCols
    decreases |names|
  {
    if names != [] {
      var d := names[0];
      assert !Targets(d, PrintTitles, |settings|, k);
      assert forall j :: 0 <= j < |names[1..]| ==> names[1..][j] == names[j + 1];
      if IsPrintReserved(d) {
        match ListIndex(d.localSheetId, |settings|)
        case None =>
        case Some(m) => TitlesUntouched(settings[m := Bind(settings[m], d, u)], names[1..], u, k);
      } else {
        TitlesUntouched(settings, names[1..], u, k);
      }
    }
  }

  /** The print area of a sheet that no Print_Area entry targets is left as it was. */
  lemma {:induction false} AreaUntouched(settings: seq<PrintSettings>, names: seq<DefinedName>, u: Unpackers, k: nat)
    requires k < |settings|
    requires forall j :: 0 <= j < |names| ==> !Targets(names[j], PrintArea, |settings|, k)
    ensures Assign(settings, names, u).settings[k].area == settings[k].area
    decreases |names|
  {
    if names != [] {
      var d := names[0];
      assert !Targets(d, PrintArea, |settings|, k);
      assert forall j :: 0 <= j < |names[1..]| ==> names[1..][j] == names[j + 1];
      if IsPrintReserved(d) {
        match ListIndex(d.localSheetId, |settings|)
        case None =>
        case Some(m) => AreaUntouched(settings[m := Bind(settings[m], d, u)], names[1..], u, k);
      } else {
        AreaUntouched(settings, names[1..], u, k);
      }
    }
  }

  /** A sheet that no Print_Titles or Print_Area entry targets is not modified. */
  lemma UntargetedSheetUnchanged(settings: seq<PrintSettings>, names: seq<DefinedName>, u: Unpackers, k: nat)
    requires k < |settings|
    requires forall j :: 0 <= j < |names| ==>
      !Targets(names[j], PrintTitles, |settings|, k) && !Targets(names[j], PrintArea, |settings|, k)
    ensures Assign(settings, names, u).settings[k] == settings[k]
  {
    TitlesUntouched(settings, names, u, k);
    AreaUntouched(settings, names, u, k);
  }

  /**
   * After a successful assign_names, a sheet's print titles are the unpacked
   * titles of the last Print_Titles entry that targets it.
   */
  lemma {:induction false} LastTitlesWin(settings: seq<PrintSettings>, names: seq<DefinedName>, u: Unpackers, i: nat, k: nat)
    requires i < |names| && Targets(names[i], PrintTitles, |settings|, k)
    requires forall j :: i < j < |names| ==> !Targets(names[j], PrintTitles, |settings|, k)
    requires Assign(settings, names, u).error.None?
    ensures var p := Assign(settings, names, u).settings[k];
      p.titleRows == u.titles(names[i]).0 && p.titleCols == u.titles(names[i]).1
    decreases |names|
  {
    var d := names[0];
    assert forall j :: 0 <= j < |names[1..]| ==> names[1..][j] == names[j + 1];
    if IsPrintReserved(d) {
      match ListIndex(d.localSheetId, |settings|)
      case Some(m) =>
        var s' := settings[m := Bind(settings[m], d, u)];
        if i == 0 {
          TitlesUntouched(s', names[1..], u, k);
        } else {
          LastTitlesWin(s', names[1..], u, i - 1, k);
        }
    } else {
      LastTitlesWin(settings, names[1..], u, i - 1, k);
    }
  }

  /**
   * After a successful assign_names, a sheet's print area is the unpacked area of
   * the last Print_Area entry that targets it.
   */
  lemma {:induction false} LastAreaWins(settings: seq<PrintSettings>, names: seq<DefinedName>, u: Unpackers, i: nat, k: nat)
    requires i < |names| && Targets(names[i], PrintArea, |settings|, k)
    requires forall j :: i < j < |names| ==> !Targets(names[j], PrintArea, |settings|, k)
    requires Assign(settings, names, u).error.None?
    ensures Assign(settings, names, u).settings[k].area == u.area(names[i])
    decreases |names|
  {
    var d := names[0];
    assert forall j :: 0 <= j < |names[1..]| ==> names[1..][j] == names[j + 1];
    if IsPrintReserved(d) {
      match ListIndex(d.localSheetId, |settings|)
      case Some(m) =>
        var s' := settings[m := Bind(settings[m], d, u)];
        if i == 0 {
          AreaUntouched(s', names[1..], u, k);
        } else {
          LastAreaWins(s', names[1..], u, i - 1, k);
        }
    } else {
      LastAreaWins(settings, names[1..], u, i - 1, k);
    }
  }
}
