/**
 * Classes the chart records refer to but whose contents are not part of this
 * model: series, data labels, chart lines, the three axis kinds, the legend and
 * the extension list. They are used only by reference.
 */
module Collaborators {
  class Series {
    constructor () {}
  }
  class DataLabels {
    constructor () {}
  }
  class ChartLines {
    constructor () {}
  }
  class CatAx {
    constructor () {}
  }
  class ValAx {
    constructor () {}
  }
  class SerAx {
    constructor () {}
  }
  class Legend {
    constructor () {}
  }
  class ExtensionList {
    constructor () {}
  }
}
