/** A record as the reflection in Table.Insert and Table.BatchInsert sees it:
    its fields in declaration order, each with its identifier, its `name` tag
    and its value. */
module Records {
  import opened Values

  /** One struct field: identifier, value of the `name` tag ("" when absent), value. */
  datatype Field = Field(ident: string, tag: string, value: Value)

  type Record = seq<Field>

  /** The column a field is written to: its `name` tag, or its identifier
      when the tag is empty. */
  function ColumnName(f: Field): string
  {
    if f.tag == "" then f.ident else f.tag
  }

  /** The column list, one entry per field in declaration order. */
  function ColumnNames(r: Record): seq<string>
  {
    seq(|r|, i requires 0 <= i < |r| => ColumnName(r[i]))
  }

  /** The rendered values, one entry per field in declaration order. */
  function RecordValues(r: Record): seq<string>
  {
    seq(|r|, i requires 0 <= i < |r| => FieldValue(r[i].value))
  }

  /** With no `name` tags the columns are the field identifiers, in order. */
  lemma UntaggedColumnsAreIdentifiers(r: Record)
    requires forall i :: 0 <= i < |r| ==> r[i].tag == ""
    ensures |ColumnNames(r)| == |r|
    ensures forall i :: 0 <= i < |r| ==> ColumnNames(r)[i] == r[i].ident
  {
  }

  /** Field by field, in any record: a non-empty tag is the column whatever the
      identifier, and an empty tag leaves the identifier. */
  lemma TagOverridesIdentifier(r: Record)
    ensures |ColumnNames(r)| == |r|
    ensures forall i :: 0 <= i < |r| && r[i].tag != "" ==> ColumnNames(r)[i] == r[i].tag
    ensures forall i :: 0 <= i < |r| && r[i].tag == "" ==> ColumnNames(r)[i] == r[i].ident
  {
  }

  /** Columns and values stay positionally aligned: entry i of each comes from field i. */
  lemma ColumnsAlignWithValues(r: Record, i: int)
    requires 0 <= i < |r|
    ensures |ColumnNames(r)| == |RecordValues(r)| == |r|
    ensures ColumnNames(r)[i] == ColumnName(r[i]) && RecordValues(r)[i] == FieldValue(r[i].value)
  {
  }
}
