/**
 * The workbook reader of openpyxl/packaging/workbook.py as objects: the parser
 * keeps the archive, the workbook it fills in, the name of the workbook part,
 * that part's relationships and the parsed sheet list. Each method is proved
 * against the functions of module WorkbookSpec.
 */
module WorkbookReader {
  import opened Wrappers
  import opened WorkbookSpec

  /** The print settings of a worksheet, the only worksheet state the reader touches. */
  class Worksheet {
    var printTitleRows: Option<string>
    var printTitleCols: Option<string>
    var printArea: Option<string>

    constructor ()
      ensures printTitleRows == None && printTitleCols == None && printArea == None
    {
      printTitleRows, printTitleCols, printArea := None, None, None;
    }

    ghost function Settings(): PrintSettings
      reads this
    {
      PrintSettings(printTitleRows, printTitleCols, printArea)
    }
  }

  /** The workbook fields the reader sets. `sheets` is the workbook's `_sheets` list. */
  class Workbook {
    var excelBaseDate: Date
    var codeName: Option<string>
    var active: int
    var keepLinks: bool
    var externalLinks: seq<ExternalLink>
    var definedNames: seq<DefinedName>
    var sheets: seq<Worksheet>

    /** Every position of `sheets` holds its own worksheet. */
    ghost predicate Valid()
      reads this
    {
      forall i, j :: 0 <= i < j < |sheets| ==> sheets[i] != sheets[j]
    }

    /** The print settings of the worksheets, by position. */
    ghost function Settings(): (r: seq<PrintSettings>)
      reads this, sheets
      ensures |r| == |sheets|
    {
      seq(|sheets|, i reads this, sheets requires 0 <= i < |sheets| => sheets[i].Settings())
    }

    constructor ()
      ensures Valid()
      ensures excelBaseDate == CalendarWindows1900 && codeName == None && active == 0 && keepLinks
      ensures externalLinks == [] && definedNames == [] && sheets == []
    {
      excelBaseDate, codeName, active, keepLinks := CalendarWindows1900, None, 0, true;
      externalLinks, definedNames, sheets := [], [], [];
    }
  }

  class WorkbookParser {
    const archive: Archive
    const wb: Workbook
    /** wb_name: the archive part that holds the workbook. */
    const wbName: string
    /** The relationships of the workbook part. */
    const rels: RelMap
    /** The sheet elements of the workbook part, filled in by Parse. */
    var sheets: seq<Sheet>

    /** The parsed workbook part. */
    function Package(): WorkbookPackage
    {
      archive.workbookPart(wbName)
    }

    constructor (archive: Archive)
      ensures this.archive == archive && fresh(wb) && wb.Valid()
      ensures wb.excelBaseDate == CalendarWindows1900 && wb.keepLinks
      ensures wb.externalLinks == [] && wb.definedNames == [] && wb.sheets == []
      ensures sheets == []
      ensures wbName == WorkbookPartName(archive.rootRels)
      ensures rels == archive.partRels(wbName)
    {
      this.archive := archive;
      wb := new Workbook();
      sheets := [];
      var name := WorkbookPartName(archive.rootRels);
      wbName := name;
      rels := archive.partRels(name);
    }

    /**
     * Copies the workbook part's properties and sheet list, reads the external
     * links when links are kept, then installs the defined names. An unknown
     * external-link relationship id stops it before the defined names are set.
     */
    method Parse() returns (err: Option<ReaderError>)
      modifies this`sheets, wb`excelBaseDate, wb`codeName, wb`active, wb`externalLinks, wb`definedNames
      ensures sheets == Package().sheets
      ensures wb.excelBaseDate == (if Package().date1904 == Some(true) then CalendarMac1904 else old(wb.excelBaseDate))
      ensures wb.codeName == Package().codeName && wb.active == Package().active
      ensures var links := ReadLinks(LinkedReferences(Package(), wb.keepLinks), rels);
        wb.externalLinks == old(wb.externalLinks) + links.items && err == links.error
      ensures !wb.keepLinks ==> wb.externalLinks == old(wb.externalLinks) && err.None?
      ensures wb.definedNames ==
        (if err.None? && Package().definedNames != [] then Package().definedNames else old(wb.definedNames))
    {
      var package := Package();
      if package.date1904 == Some(true) {
        wb.excelBaseDate := CalendarMac1904;
      }
      wb.codeName := package.codeName;
      wb.active := package.active;
      sheets := package.sheets;

      var refs := LinkedReferences(package, wb.keepLinks);
      err := ReadExternalLinks(refs);
      if err.None? && package.definedNames != [] {
        wb.definedNames := package.definedNames;
      }
    }

    /**
     * Appends one external link per reference, read from the target of its
     * relationship, and stops at the first reference with an unknown id.
     */
    method ReadExternalLinks(refs: seq<ExternalReference>) returns (err: Option<ReaderError>)
      modifies wb`externalLinks
      ensures wb.externalLinks == old(wb.externalLinks) + ReadLinks(refs, rels).items
      ensures err == ReadLinks(refs, rels).error
    {
      ghost var acc: seq<ExternalLink> := [];
      var i := 0;
      while i < |refs|
        invariant 0 <= i <= |refs|
        invariant wb.externalLinks == old(wb.externalLinks) + acc
        invariant ReadLinks(refs, rels) == ReadLinks(refs[i..], rels).Prepend(acc)
      {
        var ref := refs[i];
        assert refs[i..][1..] == refs[i + 1..];
        if ref.id !in rels {
          return Some(MissingRelationship(ref.id));
        }
        var link := ExternalLink(rels[ref.id].target);
        wb.externalLinks := wb.externalLinks + [link];
        acc := acc + [link];
        i := i + 1;
      }
      assert refs[i..] == [];
      return None;
    }

    /**
     * The sheets with a relationship id, each with its relationship, in order;
     * sheets without one are skipped (the source warns about each).
     */
    method FindSheets() returns (found: seq<(Sheet, Relationship)>, err: Option<ReaderError>)
      ensures Scan(found, err) == FoundSheets(sheets, rels)
    {
      found := [];
      var i := 0;
      while i < |sheets|
        invariant 0 <= i <= |sheets|
        invariant FoundSheets(sheets, rels) == FoundSheets(sheets[i..], rels).Prepend(found)
      {
        var sheet := sheets[i];
        assert sheets[i..][1..] == sheets[i + 1..];
        if HasRelId(sheet) {
          if sheet.id.value !in rels {
            return found, Some(MissingRelationship(sheet.id.value));
          }
          found := found + [(sheet, rels[sheet.id.value])];
        }
        i := i + 1;
      }
      assert sheets[i..] == [];
      return found, None;
    }

    /**
     * Binds Print_Titles and Print_Area entries onto the worksheets they are
     * local to and keeps every other defined name, in order. An entry whose
     * localSheetId names no worksheet raises; the worksheets bound before it keep
     * their new settings and the list of defined names is left as it was.
     */
    method AssignNames(u: Unpackers) returns (err: Option<ReaderError>)
      requires wb.Valid()
      modifies wb`definedNames, wb.sheets
      ensures wb.Valid()
      ensures var r := Assign(old(wb.Settings()), old(wb.definedNames), u);
        wb.Settings() == r.settings && err == r.error &&
        wb.definedNames == (if r.error.None? then r.kept else old(wb.definedNames))
    {
      var names := wb.definedNames;
      ghost var initial := wb.Settings();
      var defns := [];
      var i := 0;
      while i < |names|
        invariant 0 <= i <= |names|
        invariant wb.definedNames == names
        invariant |wb.Settings()| == |initial|
        invariant Assign(initial, names, u) == Assign(wb.Settings(), names[i..], u).PrependKept(defns)
      {
        var defn := names[i];
        assert names[i..][1..] == names[i + 1..];
        if IsPrintReserved(defn) {
          var index := ListIndex(defn.localSheetId, |wb.sheets|);
          if index.None? {
            return Some(SheetIndexError(defn));
          }
          var k := index.value;
          ghost var before := wb.Settings();
          var sheet := wb.sheets[k];
          if defn.isReserved == Some(PrintTitles) {
            var (rows, cols) := u.titles(defn);
            sheet.printTitleRows := rows;
            sheet.printTitleCols := cols;
          } else if defn.isReserved == Some(PrintArea) {
            sheet.printArea := u.area(defn);
          }
          assert forall j :: 0 <= j < |wb.sheets| && j != k ==> wb.sheets[j] != sheet;
          assert wb.Settings() == before[k := Bind(before[k], defn, u)];
        } else {
          defns := defns + [defn];
        }
        i := i + 1;
      }
      assert names[i..] == [];
      wb.definedNames := defns;
      return None;
    }
  }
}
