/**
 * The bar chart records of openpyxl/chart/bar_chart.py. `_BarChartBase` holds
 * the fields both bar charts share; BarChart and BarChart3D each own one (its
 * `base`) alongside their own fields. Enumerated fields keep a value of their
 * vocabulary: the constructors require it, and the `Create` methods and setters
 * model the assignment that raises instead.
 */
module BarCharts {
  import opened Wrappers
  import opened Schema
  import opened Collaborators

  /** The fields and child order shared by both bar charts (`_BarChartBase`). */
  class BarChartBase {
    static const BarDirValues: seq<string> := ["bar", "col"]
    static const GroupingValues: seq<string> := ["percentStacked", "clustered", "standard", "stacked"]
    /** The declared descriptors. */
    static const Fields: set<string> := {"barDir", "grouping", "varyColors", "ser", "dLbls", "dataLabels"}
    /** `__elements__`: the child elements, in output order. */
    static const Elements: seq<string> := ["barDir", "grouping", "varyColors", "ser", "dLbls"]

    var barDir: string
    var grouping: string
    var varyColors: Option<bool>
    var ser: seq<Series>
    var dLbls: DataLabels?

    ghost predicate Valid()
      reads this
    {
      barDir in BarDirValues && grouping in GroupingValues
    }

    /**
     * The error `__init__` raises for these arguments: barDir is assigned, and so
     * checked, before grouping.
     */
    static function ArgsError(barDir: string, grouping: string): (r: Option<SchemaError>)
      ensures r.None? <==> barDir in BarDirValues && grouping in GroupingValues
      ensures barDir !in BarDirValues ==> r == Some(NotInDomain("barDir", barDir))
      ensures barDir in BarDirValues && grouping !in GroupingValues ==> r == Some(NotInDomain("grouping", grouping))
    {
      var e := CheckMember("barDir", BarDirValues, barDir);
      if e.Some? then e else CheckMember("grouping", GroupingValues, grouping)
    }

    constructor (barDir: string, grouping: string, varyColors: Option<bool>, ser: seq<Series>, dLbls: DataLabels?)
      requires ArgsError(barDir, grouping).None?
      ensures Valid()
      ensures this.barDir == barDir && this.grouping == grouping && this.varyColors == varyColors
      ensures this.ser == ser && this.dLbls == dLbls
    {
      this.barDir := barDir;
      this.grouping := grouping;
      this.varyColors := varyColors;
      this.ser := ser;
      this.dLbls := dLbls;
    }

    /** `chart.barDir = v`: any value but "bar" and "col" is refused and the old one kept. */
    method SetBarDir(v: string) returns (err: Option<SchemaError>)
      modifies this`barDir
      ensures err.None? <==> v in BarDirValues
      ensures err.Some? ==> err == Some(NotInDomain("barDir", v))
      ensures barDir == (if err.None? then v else old(barDir))
      ensures old(Valid()) ==> Valid()
    {
      err := CheckMember("barDir", BarDirValues, v);
      if err.None? {
        barDir := v;
      }
    }

    /** `chart.grouping = v`: any value outside the four groupings is refused and the old one kept. */
    method SetGrouping(v: string) returns (err: Option<SchemaError>)
      modifies this`grouping
      ensures err.None? <==> v in GroupingValues
      ensures err.Some? ==> err == Some(NotInDomain("grouping", v))
      ensures grouping == (if err.None? then v else old(grouping))
      ensures old(Valid()) ==> Valid()
    {
      err := CheckMember("grouping", GroupingValues, v);
      if err.None? {
        grouping := v;
      }
    }

    /** `dataLabels`, an alias of `dLbls`: reading it reads `dLbls`. */
    function GetDataLabels(): (r: DataLabels?)
      reads this
      ensures r == dLbls
    {
      dLbls
    }

    /** Writing `dataLabels` writes `dLbls`, and nothing else. */
    method SetDataLabels(v: DataLabels?)
      modifies this`dLbls
      ensures dLbls == v && GetDataLabels() == v
    {
      dLbls := v;
    }
  }

  /** A 2D bar chart (`<barChart>`). */
  class BarChart {
    static const Tagname: string := "barChart"
    static const SeriesType: string := "bar"
    static const Fields: set<string> :=
      BarChartBase.Fields + {"gapWidth", "overlap", "serLines", "extLst", "x_axis", "y_axis"}
    static const Elements: seq<string> := BarChartBase.Elements + ["gapWidth", "overlap", "serLines", "axId"]

    const base: BarChartBase
    var gapWidth: Option<int>
    var overlap: Option<int>
    var serLines: ChartLines?
    var xAxis: CatAx
    var yAxis: ValAx
    var legend: Legend?

    ghost predicate Valid()
      reads this, base
    {
      base.Valid()
    }

    /** The fields hold the given constructor arguments. */
    ghost predicate Holds(gapWidth: Option<int>, overlap: Option<int>, serLines: ChartLines?,
                          barDir: string, grouping: string, varyColors: Option<bool>, ser: seq<Series>, dLbls: DataLabels?)
      reads this, base
    {
      this.gapWidth == gapWidth && this.overlap == overlap && this.serLines == serLines &&
      base.barDir == barDir && base.grouping == grouping && base.varyColors == varyColors &&
      base.ser == ser && base.dLbls == dLbls
    }

    /**
     * BarChart(...) with arguments that pass validation. `axId` and `extLst` are
     * accepted and not stored; fresh axes and a fresh legend are installed.
     */
    constructor (gapWidth: Option<int> := Some(150), overlap: Option<int> := None, serLines: ChartLines? := null,
                 axId: Option<seq<int>> := None, extLst: ExtensionList? := null,
                 barDir: string := "col", grouping: string := "clustered", varyColors: Option<bool> := None,
                 ser: seq<Series> := [], dLbls: DataLabels? := null)
      requires BarChartBase.ArgsError(barDir, grouping).None?
      ensures Valid() && Holds(gapWidth, overlap, serLines, barDir, grouping, varyColors, ser, dLbls)
      ensures fresh(base) && fresh(xAxis) && fresh(yAxis) && legend != null && fresh(legend)
    {
      this.gapWidth := gapWidth;
      this.overlap := overlap;
      this.serLines := serLines;
      xAxis := new CatAx();
      yAxis := new ValAx();
      legend := new Legend();
      base := new BarChartBase(barDir, grouping, varyColors, ser, dLbls);
    }

    /** BarChart(...) for any arguments: it raises for a barDir or grouping outside its vocabulary. */
    static method Create(gapWidth: Option<int> := Some(150), overlap: Option<int> := None, serLines: ChartLines? := null,
                         axId: Option<seq<int>> := None, extLst: ExtensionList? := null,
                         barDir: string := "col", grouping: string := "clustered", varyColors: Option<bool> := None,
                         ser: seq<Series> := [], dLbls: DataLabels? := null)
      returns (r: Result<BarChart, SchemaError>)
      ensures r.Failure? <==> BarChartBase.ArgsError(barDir, grouping).Some?
      ensures r.Failure? ==> r.error == BarChartBase.ArgsError(barDir, grouping).value
      ensures r.Success? ==> fresh(r.value) && fresh(r.value.base) && fresh(r.value.xAxis) && fresh(r.value.yAxis)
      ensures r.Success? ==> r.value.legend != null && fresh(r.value.legend)
      ensures r.Success? ==> r.value.Valid() && r.value.Holds(gapWidth, overlap, serLines, barDir, grouping, varyColors, ser, dLbls)
    {
      var e := BarChartBase.ArgsError(barDir, grouping);
      if e.Some? {
        return Failure(e.value);
      }
      var chart := new BarChart(gapWidth, overlap, serLines, axId, extLst, barDir, grouping, varyColors, ser, dLbls);
      return Success(chart);
    }
  }

  /** A 3D bar chart (`<bar3DChart>`). */
  class BarChart3D {
    static const Tagname: string := "bar3DChart"
    static const ShapeValues: seq<string> := ["cone", "coneToMax", "box", "cylinder", "pyramid", "pyramidToMax"]
    static const Fields: set<string> :=
      BarChartBase.Fields + {"gapWidth", "gapDepth", "shape", "serLines", "extLst", "x_axis", "y_axis", "z_axis"}
    static const Elements: seq<string> := BarChartBase.Elements + ["gapWidth", "gapDepth", "shape", "serLines", "axId"]

    const base: BarChartBase
    var gapWidth: Option<int>
    var gapDepth: Option<int>
    var shape: Option<string>
    var serLines: ChartLines?
    var xAxis: CatAx
    var yAxis: ValAx
    var zAxis: SerAx?

    ghost predicate Valid()
      reads this, base
    {
      base.Valid() && (shape.None? || shape.value in ShapeValues)
    }

    /**
     * The error `__init__` raises for these arguments: shape is assigned before
     * the base fields, so it is checked first.
     */
    static function ArgsError(shape: Option<string>, barDir: string, grouping: string): (r: Option<SchemaError>)
      ensures r.None? <==> (shape.None? || shape.value in ShapeValues) && BarChartBase.ArgsError(barDir, grouping).None?
      ensures shape.Some? && shape.value !in ShapeValues ==> r == Some(NotInDomain("shape", shape.value))
      ensures (shape.None? || shape.value in ShapeValues) ==> r == BarChartBase.ArgsError(barDir, grouping)
    {
      var e := CheckNoneMember("shape", ShapeValues, shape);
      if e.Some? then e else BarChartBase.ArgsError(barDir, grouping)
    }

    /** The fields hold the given constructor arguments. */
    ghost predicate Holds(gapWidth: Option<int>, gapDepth: Option<int>, shape: Option<string>, serLines: ChartLines?,
                          barDir: string, grouping: string, varyColors: Option<bool>, ser: seq<Series>, dLbls: DataLabels?)
      reads this, base
    {
      this.gapWidth == gapWidth && this.gapDepth == gapDepth && this.shape == shape && this.serLines == serLines &&
      base.barDir == barDir && base.grouping == grouping && base.varyColors == varyColors &&
      base.ser == ser && base.dLbls == dLbls
    }

    /**
     * BarChart3D(...) with arguments that pass validation. `axId` and `extLst`
     * are accepted and not stored; three fresh axes are installed.
     */
    constructor (gapWidth: Option<int> := Some(150), gapDepth: Option<int> := Some(150), shape: Option<string> := None,
                 serLines: ChartLines? := null, axId: Option<seq<int>> := None, extLst: ExtensionList? := null,
                 barDir: string := "col", grouping: string := "clustered", varyColors: Option<bool> := None,
                 ser: seq<Series> := [], dLbls: DataLabels? := null)
      requires ArgsError(shape, barDir, grouping).None?
      ensures Valid() && Holds(gapWidth, gapDepth, shape, serLines, barDir, grouping, varyColors, ser, dLbls)
      ensures fresh(base) && fresh(xAxis) && fresh(yAxis) && zAxis != null && fresh(zAxis)
    {
      this.gapWidth := gapWidth;
      this.gapDepth := gapDepth;
      this.shape := shape;
      this.serLines := serLines;
      xAxis := new CatAx();
      yAxis := new ValAx();
      zAxis := new SerAx();
      base := new BarChartBase(barDir, grouping, varyColors, ser, dLbls);
    }

    /** BarChart3D(...) for any arguments: it raises for a shape, barDir or grouping outside its vocabulary. */
    static method Create(gapWidth: Option<int> := Some(150), gapDepth: Option<int> := Some(150), shape: Option<string> := None,
                         serLines: ChartLines? := null, axId: Option<seq<int>> := None, extLst: ExtensionList? := null,
                         barDir: string := "col", grouping: string := "clustered", varyColors: Option<bool> := None,
                         ser: seq<Series> := [], dLbls: DataLabels? := null)
      returns (r: Result<BarChart3D, SchemaError>)
      ensures r.Failure? <==> ArgsError(shape, barDir, grouping).Some?
      ensures r.Failure? ==> r.error == ArgsError(shape, barDir, grouping).value
      ensures r.Success? ==> fresh(r.value) && fresh(r.value.base) && fresh(r.value.xAxis) && fresh(r.value.yAxis)
      ensures r.Success? ==> r.value.zAxis != null && fresh(r.value.zAxis)
      ensures r.Success? ==> r.value.Valid()
      ensures r.Success? ==> r.value.Holds(gapWidth, gapDepth, shape, serLines, barDir, grouping, varyColors, ser, dLbls)
    {
      var e := ArgsError(shape, barDir, grouping);
      if e.Some? {
        return Failure(e.value);
      }
      var chart := new BarChart3D(gapWidth, gapDepth, shape, serLines, axId, extLst, barDir, grouping, varyColors, ser, dLbls);
      return Success(chart);
    }

    /** `chart.shape = v`: `None` or one of the six shapes; anything else is refused and the old value kept. */
    method SetShape(v: Option<string>) returns (err: Option<SchemaError>)
      modifies this`shape
      ensures err.None? <==> (v.None? || v.value in ShapeValues)
      ensures err.Some? ==> err == Some(NotInDomain("shape", v.value))
      ensures shape == (if err.None? then v else old(shape))
      ensures old(Valid()) ==> Valid()
    {
      err := CheckNoneMember("shape", ShapeValues, v);
      if err.None? {
        shape := v;
      }
    }
  }

  /**
   * The declared child orders: each bar chart's is the base order followed by its
   * own, and every child element is a declared field, except `axId`, which the
   * chart base class provides.
   */
  lemma ElementOrders()
    ensures BarChartBase.Elements == ["barDir", "grouping", "varyColors", "ser", "dLbls"]
    ensures BarChart.Elements == ["barDir", "grouping", "varyColors", "ser", "dLbls", "gapWidth", "overlap", "serLines", "axId"]
    ensures BarChart3D.Elements ==
      ["barDir", "grouping", "varyColors", "ser", "dLbls", "gapWidth", "gapDepth", "shape", "serLines", "axId"]
    ensures forall e :: e in BarChart.Elements ==> e in BarChart.Fields || e == "axId"
    ensures forall e :: e in BarChart3D.Elements ==> e in BarChart3D.Fields || e == "axId"
  {
  }
}
