/**
 * backend/api/food/unit/model.go: the FoodUnit record with its parent
 * reference (FoodSubcategoryID and the embedded FoodSubcategory), its table and
 * columns (gorm tags and gorm's column naming), and the order-by whitelist.
 */
module UnitModel {
  import opened Gorm
  import Subcategory = SubcategoryModel

  datatype FoodUnit = FoodUnit(
    id: int,
    name: string,
    description: string,
    foodSubcategoryId: int,
    foodSubcategory: Subcategory.FoodSubcategory)

  /** What the table stores of a FoodUnit: the association itself is not a column. */
  datatype Row = Row(id: int, name: string, description: string, foodSubcategoryId: int)

  const Zero: FoodUnit := FoodUnit(0, "", "", 0, Subcategory.Zero)

  const TableName: string := "food_units"
  /** The primary-key column. */
  const IdColumn: string := "food_unit_id"
  /** Not null and unique. */
  const NameColumn: string := "name"
  const DescriptionColumn: string := "description"
  /** The column gorm derives from the FoodSubcategoryID field. */
  const ForeignKeyColumn: string := "food_subcategory_id"
  const Columns: set<string> := {IdColumn, NameColumn, DescriptionColumn, ForeignKeyColumn}

  const OrderByColumnsAllowed: set<string> := {"id", "name"}

  function ToRow(u: FoodUnit): Row {
    Row(u.id, u.name, u.description, u.foodSubcategoryId)
  }

  /** The stored row as a column map. */
  function ToRecord(r: Row): Record {
    map[IdColumn := IntValue(r.id), NameColumn := TextValue(r.name),
        DescriptionColumn := TextValue(r.description), ForeignKeyColumn := IntValue(r.foodSubcategoryId)]
  }

  /**
   * gorm's struct condition Where(&fu): one equality per non-zero column field,
   * in field order; the FoodSubcategory association contributes nothing.
   */
  function Conditions(fu: FoodUnit): seq<Predicate> {
    (if fu.id != 0 then [Equals(Column(TableName, IdColumn), IntValue(fu.id))] else [])
    + (if fu.name != "" then [Equals(Column(TableName, NameColumn), TextValue(fu.name))] else [])
    + (if fu.description != "" then [Equals(Column(TableName, DescriptionColumn), TextValue(fu.description))] else [])
    + (if fu.foodSubcategoryId != 0 then [Equals(Column(TableName, ForeignKeyColumn), IntValue(fu.foodSubcategoryId))] else [])
  }

  /** The reference meaning of a struct condition: every non-zero column field of `fu` equals that of `r`. */
  predicate ConditionsMatch(fu: FoodUnit, r: Row) {
    && (fu.id != 0 ==> r.id == fu.id)
    && (fu.name != "" ==> r.name == fu.name)
    && (fu.description != "" ==> r.description == fu.description)
    && (fu.foodSubcategoryId != 0 ==> r.foodSubcategoryId == fu.foodSubcategoryId)
  }

  /** Accepts the rows that do not match the filter. */
  function Unmatched(f: FoodUnit): (keep: Row -> bool)
    ensures forall r :: keep(r) <==> !ConditionsMatch(f, r)
  {
    (r: Row) => !ConditionsMatch(f, r)
  }

  /** Evaluated on a unit row, the struct condition holds exactly when the row matches the filter. */
  lemma ConditionsMeaning(db: Tables, like: (string, string) -> bool, t: Tuple, fu: FoodUnit, r: Row)
    requires TableName in t && t[TableName] == ToRecord(r)
    ensures AllHold(db, like, t, Conditions(fu)) <==> ConditionsMatch(fu, r)
  {
    var a := if fu.id != 0 then [Equals(Column(TableName, IdColumn), IntValue(fu.id))] else [];
    var b := if fu.name != "" then [Equals(Column(TableName, NameColumn), TextValue(fu.name))] else [];
    var d := if fu.description != "" then [Equals(Column(TableName, DescriptionColumn), TextValue(fu.description))] else [];
    var e := if fu.foodSubcategoryId != 0 then [Equals(Column(TableName, ForeignKeyColumn), IntValue(fu.foodSubcategoryId))] else [];
    AllHoldAppend(db, like, t, a + b + d, e);
    AllHoldAppend(db, like, t, a + b, d);
    AllHoldAppend(db, like, t, a, b);
    assert Get(t, Column(TableName, IdColumn)) == IntValue(r.id);
    assert Get(t, Column(TableName, NameColumn)) == TextValue(r.name);
    assert Get(t, Column(TableName, DescriptionColumn)) == TextValue(r.description);
    assert Get(t, Column(TableName, ForeignKeyColumn)) == IntValue(r.foodSubcategoryId);
    AllHoldOne(db, like, t, Equals(Column(TableName, IdColumn), IntValue(fu.id)));
    AllHoldOne(db, like, t, Equals(Column(TableName, NameColumn), TextValue(fu.name)));
    AllHoldOne(db, like, t, Equals(Column(TableName, DescriptionColumn), TextValue(fu.description)));
    AllHoldOne(db, like, t, Equals(Column(TableName, ForeignKeyColumn), IntValue(fu.foodSubcategoryId)));
  }

  /** The struct condition names only columns of the table, so it resolves wherever the table is in scope. */
  lemma ConditionsResolve(schema: Schema, scope: set<string>, fu: FoodUnit)
    requires TableName in scope && TableName in schema && schema[TableName] == Columns
    ensures AllResolve(schema, scope, Conditions(fu))
  {
  }

  /**
   * The whitelist names "id", which is not a column of this table: the primary
   * key is food_unit_id.
   */
  lemma OrderableColumns()
    ensures OrderByColumnsAllowed == {"id", NameColumn}
    ensures "id" !in Columns && DescriptionColumn !in OrderByColumnsAllowed
  {
  }
}
