/**
 * The pivot cache reference of openpyxl/workbook/pivot.py: a `<pivotCache>`
 * element with two attributes and no child elements.
 */
module Pivot {
  import opened Wrappers
  import opened Schema

  class PivotCache {
    static const Tagname: string := "pivotCache"
    static const Fields: set<string> := {"cacheId", "id"}
    /** No child elements are declared: both fields are attributes. */
    static const Elements: seq<string> := []

    /** An integer field that does not accept `None`. */
    var cacheId: int
    /** The relationship id of the cache part; it may be absent. */
    var id: Option<string>

    constructor (cacheId: int, id: Option<string> := None)
      ensures this.cacheId == cacheId && this.id == id
    {
      this.cacheId := cacheId;
      this.id := id;
    }

    /** PivotCache(...) with the source's defaults: both default to `None`, which `cacheId` does not accept. */
    static method Create(cacheId: Option<int> := None, id: Option<string> := None)
      returns (r: Result<PivotCache, SchemaError>)
      ensures r.Failure? <==> cacheId.None?
      ensures r.Failure? ==> r.error == NotNullable("cacheId")
      ensures r.Success? ==> fresh(r.value) && r.value.cacheId == cacheId.value && r.value.id == id
    {
      if cacheId.None? {
        return Failure(NotNullable("cacheId"));
      }
      var cache := new PivotCache(cacheId.value, id);
      return Success(cache);
    }
  }
}
