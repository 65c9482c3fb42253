/**
 * The chart data-source records of openpyxl/chart/data_source.py: numeric and
 * string points, their caches, and references to worksheet ranges. A field
 * declared with `allow_none=True` is an Option or a nullable reference; a field
 * declared without it holds a value. The `Create` methods model the constructor
 * call, reading a descriptor without `allow_none` as one that refuses `None`. Constructor
 * arguments the source accepts but does not store (`extLst`, `numCache`) have no
 * field.
 */
module ChartDataSource {
  import opened Wrappers
  import opened Schema
  import opened Collaborators

  /** The floating-point value of a point; the model does no arithmetic on it. */
  type Float = real

  /** One numeric point. */
  class NumVal {
    static const Fields: set<string> := {"idx", "formatCode", "v"}

    var idx: int
    var formatCode: Option<string>
    var v: Option<Float>

    constructor (idx: int, formatCode: Option<string> := None, v: Option<Float> := None)
      ensures this.idx == idx && this.formatCode == formatCode && this.v == v
    {
      this.idx := idx;
      this.formatCode := formatCode;
      this.v := v;
    }

    /** NumVal(...) with the source's defaults: `idx` does not accept `None`. */
    static method Create(idx: Option<int> := None, formatCode: Option<string> := None, v: Option<Float> := None)
      returns (r: Result<NumVal, SchemaError>)
      ensures r.Failure? <==> idx.None?
      ensures r.Failure? ==> r.error == NotNullable("idx")
      ensures r.Success? ==> fresh(r.value) && r.value.idx == idx.value && r.value.formatCode == formatCode && r.value.v == v
    {
      if idx.None? {
        return Failure(NotNullable("idx"));
      }
      var val := new NumVal(idx.value, formatCode, v);
      return Success(val);
    }
  }

  /** A cache of numeric points. */
  class NumData {
    static const Fields: set<string> := {"formatCode", "ptCount", "pt", "extLst"}
    static const Elements: seq<string> := ["formatCode", "ptCount", "pt"]

    var formatCode: Option<string>
    var ptCount: Option<int>
    var pt: seq<NumVal>

    constructor (pt: seq<NumVal>, formatCode: Option<string> := None, ptCount: Option<int> := None,
                 extLst: ExtensionList? := null)
      ensures this.formatCode == formatCode && this.ptCount == ptCount && this.pt == pt
    {
      this.formatCode := formatCode;
      this.ptCount := ptCount;
      this.pt := pt;
    }

    /** NumData(...) with the source's defaults: `pt` holds a sequence, and `None` is not one. */
    static method Create(formatCode: Option<string> := None, ptCount: Option<int> := None,
                         pt: Option<seq<NumVal>> := None, extLst: ExtensionList? := null)
      returns (r: Result<NumData, SchemaError>)
      ensures r.Failure? <==> pt.None?
      ensures r.Failure? ==> r.error == NotNullable("pt")
      ensures r.Success? ==> fresh(r.value) && r.value.formatCode == formatCode && r.value.ptCount == ptCount &&
                             r.value.pt == pt.value
    {
      if pt.None? {
        return Failure(NotNullable("pt"));
      }
      var data := new NumData(pt.value, formatCode, ptCount, extLst);
      return Success(data);
    }
  }

  /** A reference to a range of numbers, by formula. */
  class NumRef {
    static const Fields: set<string> := {"f", "ref", "numCache", "extLst"}
    /**
     * `__elements__` is written `('f')`, a parenthesised string rather than a
     * tuple; iterated, it gives the single name "f".
     */
    static const Elements: seq<string> := ["f"]

    var f: string

    constructor (f: string, numCache: NumData? := null, extLst: ExtensionList? := null)
      ensures this.f == f
    {
      this.f := f;
    }

    /** NumRef(...) with the source's defaults: `f` does not accept `None`; the other arguments are dropped. */
    static method Create(f: Option<string> := None, numCache: NumData? := null, extLst: ExtensionList? := null)
      returns (r: Result<NumRef, SchemaError>)
      ensures r.Failure? <==> f.None?
      ensures r.Failure? ==> r.error == NotNullable("f")
      ensures r.Success? ==> fresh(r.value) && r.value.f == f.value
    {
      if f.None? {
        return Failure(NotNullable("f"));
      }
      var numRef := new NumRef(f.value, numCache, extLst);
      return Success(numRef);
    }

    /** `ref`, an alias of `f`: reading it reads `f`. */
    function Ref(): (r: string)
      reads this
      ensures r == f
    {
      f
    }

    /** Writing `ref` writes `f`, and nothing else. */
    method SetRef(v: string)
      modifies this`f
      ensures f == v && Ref() == v
    {
      f := v;
    }
  }

  /** One string point (`<strVal>`). */
  class StrVal {
    static const Tagname: string := "strVal"
    static const Fields: set<string> := {"idx", "v"}

    var idx: int
    var v: string

    constructor (v: string, idx: int := 0)
      ensures this.idx == idx && this.v == v
    {
      this.idx := idx;
      this.v := v;
    }

    /** StrVal(...) with the source's defaults (`idx=0`, `v=None`): neither field accepts `None`. */
    static method Create(idx: Option<int> := Some(0), v: Option<string> := None)
      returns (r: Result<StrVal, SchemaError>)
      ensures r.Failure? <==> idx.None? || v.None?
      ensures idx.None? ==> r == Failure(NotNullable("idx"))
      ensures idx.Some? && v.None? ==> r == Failure(NotNullable("v"))
      ensures r.Success? ==> fresh(r.value) && r.value.idx == idx.value && r.value.v == v.value
    {
      if idx.None? {
        return Failure(NotNullable("idx"));
      }
      if v.None? {
        return Failure(NotNullable("v"));
      }
      var val := new StrVal(v.value, idx.value);
      return Success(val);
    }
  }

  /** A cache of string points (`<strData>`); it holds at most one point. */
  class StrData {
    static const Tagname: string := "strData"
    static const Fields: set<string> := {"ptCount", "pt", "extLst"}
    static const Elements: seq<string> := ["ptCount", "pt"]

    var ptCount: Option<int>
    var pt: StrVal?

    constructor (ptCount: Option<int> := None, pt: StrVal? := null, extLst: ExtensionList? := null)
      ensures this.ptCount == ptCount && this.pt == pt
    {
      this.ptCount := ptCount;
      this.pt := pt;
    }
  }

  /** A reference to a range of strings, with its cache (`<strRef>`). */
  class StrRef {
    static const Tagname: string := "strRef"
    static const Fields: set<string> := {"f", "strCache", "extLst"}
    static const Elements: seq<string> := ["f", "strCache"]

    var f: Option<string>
    var strCache: StrData?

    constructor (f: Option<string> := None, strCache: StrData? := null, extLst: ExtensionList? := null)
      ensures this.f == f && this.strCache == strCache
    {
      this.f := f;
      this.strCache := strCache;
    }
  }

  /** Numeric data given by reference or literally. */
  class NumDataSource {
    static const Fields: set<string> := {"numRef", "numLit"}

    var numRef: NumRef?
    var numLit: NumData?

    constructor (numRef: NumRef? := null, numLit: NumData? := null)
      ensures this.numRef == numRef && this.numLit == numLit
    {
      this.numRef := numRef;
      this.numLit := numLit;
    }
  }

  /**
   * Axis data given by numeric or string reference or literal. The field types
   * are those the source declares: `strRef` holds a StrData and `strLit` a StrRef.
   */
  class AxDataSource {
    static const Fields: set<string> := {"numRef", "numLit", "strRef", "strLit"}

    var numRef: NumRef?
    var numLit: NumData?
    var strRef: StrData?
    var strLit: StrRef?

    constructor (numRef: NumRef? := null, numLit: NumData? := null, strRef: StrData? := null, strLit: StrRef? := null)
      ensures this.numRef == numRef && this.numLit == numLit && this.strRef == strRef && this.strLit == strLit
    {
      this.numRef := numRef;
      this.numLit := numLit;
      this.strRef := strRef;
      this.strLit := strLit;
    }
  }

  /** Every declared child element names a declared field. */
  lemma ElementsAreDeclared()
    ensures forall e :: e in NumData.Elements ==> e in NumData.Fields
    ensures forall e :: e in NumRef.Elements ==> e in NumRef.Fields
    ensures forall e :: e in StrData.Elements ==> e in StrData.Fields
    ensures forall e :: e in StrRef.Elements ==> e in StrRef.Fields
  {
  }
}
