/**
 * backend/api/food/category/model.go: the FoodCategory record, its table and
 * columns (gorm tags), and the whitelist of columns a request may order by.
 */
module CategoryModel {
  import opened Gorm

  datatype FoodCategory = FoodCategory(id: int, name: string, description: string)

  /** The zero value of the Go struct. */
  const Zero: FoodCategory := FoodCategory(0, "", "")

  const TableName: string := "food_categories"
  /** The primary-key column. */
  const IdColumn: string := "id"
  /** Not null and unique. */
  const NameColumn: string := "name"
  const DescriptionColumn: string := "description"
  const Columns: set<string> := {IdColumn, NameColumn, DescriptionColumn}

  const OrderByColumnsAllowed: set<string> := {"id", "name"}

  /** The stored row as a column map. */
  function ToRecord(c: FoodCategory): Record {
    map[IdColumn := IntValue(c.id), NameColumn := TextValue(c.name), DescriptionColumn := TextValue(c.description)]
  }

  /**
   * gorm's struct condition Where(&fc): one equality per non-zero field, in field
   * order, each qualified by the table name.
   */
  function Conditions(fc: FoodCategory): seq<Predicate> {
    (if fc.id != 0 then [Equals(Column(TableName, IdColumn), IntValue(fc.id))] else [])
    + (if fc.name != "" then [Equals(Column(TableName, NameColumn), TextValue(fc.name))] else [])
    + (if fc.description != "" then [Equals(Column(TableName, DescriptionColumn), TextValue(fc.description))] else [])
  }

  /** The reference meaning of a struct condition: every non-zero field of `fc` equals that of `c`. */
  predicate ConditionsMatch(fc: FoodCategory, c: FoodCategory) {
    && (fc.id != 0 ==> c.id == fc.id)
    && (fc.name != "" ==> c.name == fc.name)
    && (fc.description != "" ==> c.description == fc.description)
  }

  /** Accepts the rows that do not match the filter. */
  function Unmatched(f: FoodCategory): (keep: FoodCategory -> bool)
    ensures forall c :: keep(c) <==> !ConditionsMatch(f, c)
  {
    (c: FoodCategory) => !ConditionsMatch(f, c)
  }

  /** Evaluated on a category row, the struct condition holds exactly when the row matches the filter. */
  lemma ConditionsMeaning(db: Tables, like: (string, string) -> bool, t: Tuple, fc: FoodCategory, c: FoodCategory)
    requires TableName in t && t[TableName] == ToRecord(c)
    ensures AllHold(db, like, t, Conditions(fc)) <==> ConditionsMatch(fc, c)
  {
    var a := if fc.id != 0 then [Equals(Column(TableName, IdColumn), IntValue(fc.id))] else [];
    var b := if fc.name != "" then [Equals(Column(TableName, NameColumn), TextValue(fc.name))] else [];
    var d := if fc.description != "" then [Equals(Column(TableName, DescriptionColumn), TextValue(fc.description))] else [];
    AllHoldAppend(db, like, t, a + b, d);
    AllHoldAppend(db, like, t, a, b);
    assert Get(t, Column(TableName, IdColumn)) == IntValue(c.id);
    assert Get(t, Column(TableName, NameColumn)) == TextValue(c.name);
    assert Get(t, Column(TableName, DescriptionColumn)) == TextValue(c.description);
    AllHoldOne(db, like, t, Equals(Column(TableName, IdColumn), IntValue(fc.id)));
    AllHoldOne(db, like, t, Equals(Column(TableName, NameColumn), TextValue(fc.name)));
    AllHoldOne(db, like, t, Equals(Column(TableName, DescriptionColumn), TextValue(fc.description)));
  }

  /** The struct condition names only columns of the table, so it resolves wherever the table is in scope. */
  lemma ConditionsResolve(schema: Schema, scope: set<string>, fc: FoodCategory)
    requires TableName in scope && TableName in schema && schema[TableName] == Columns
    ensures AllResolve(schema, scope, Conditions(fc))
  {
  }

  /** An all-zero filter adds no condition. */
  lemma ConditionsOfZero()
    ensures Conditions(Zero) == []
  {
  }

  /** A request may order categories by "id" and "name", but not by "description". */
  lemma OrderableColumns()
    ensures OrderByColumnsAllowed <= Columns
    ensures DescriptionColumn !in OrderByColumnsAllowed
  {
  }
}
