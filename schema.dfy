/**
 * The validation rules that the schema records rely on: a field restricted to a
 * fixed vocabulary (`Set`), the same vocabulary plus `None` (`NoneSet`), and a
 * field that does not accept `None`.
 */
module Schema {
  import opened Wrappers

  /** Why an assignment to a schema field was refused. */
  datatype SchemaError =
    | NotInDomain(field: string, value: string)   // a value outside the field's vocabulary
    | NotNullable(field: string)                  // `None` for a field declared without allow_none

  /** Assigning `v` to a `Set` field `field` restricted to `values`. */
  function CheckMember(field: string, values: seq<string>, v: string): (r: Option<SchemaError>)
    ensures r.None? <==> v in values
    ensures r.Some? ==> r.value.NotInDomain? && r.value.field == field && r.value.value == v
  {
    if v in values then None else Some(NotInDomain(field, v))
  }

  /** Assigning `v` to a `NoneSet` field: `None` is accepted besides the listed values. */
  function CheckNoneMember(field: string, values: seq<string>, v: Option<string>): (r: Option<SchemaError>)
    ensures r.None? <==> (v.None? || v.value in values)
    ensures r.Some? ==> v.Some? && r.value == NotInDomain(field, v.value)
  {
    match v
    case None => None
    case Some(s) => CheckMember(field, values, s)
  }
}
