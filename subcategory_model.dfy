/**
 * backend/api/food/subcategory/model.go: the FoodSubcategory record with its
 * parent reference (FoodCategoryID and the embedded FoodCategory), its table
 * and columns (gorm tags and gorm's column naming), and the order-by whitelist.
 */
module SubcategoryModel {
  import opened Gorm
  import Category = CategoryModel

  datatype FoodSubcategory = FoodSubcategory(
    id: int,
    name: string,
    description: string,
    foodCategoryId: int,
    foodCategory: Category.FoodCategory)

  /** What the table stores of a FoodSubcategory: the association itself is not a column. */
  datatype Row = Row(id: int, name: string, description: string, foodCategoryId: int)

  const Zero: FoodSubcategory := FoodSubcategory(0, "", "", 0, Category.Zero)

  const TableName: string := "food_subcategories"
  /** The primary-key column. */
  const IdColumn: string := "food_subcategory_id"
  /** Not null and unique. */
  const NameColumn: string := "name"
  const DescriptionColumn: string := "description"
  /** The column gorm derives from the FoodCategoryID field. */
  const ForeignKeyColumn: string := "food_category_id"
  const Columns: set<string> := {IdColumn, NameColumn, DescriptionColumn, ForeignKeyColumn}

  const OrderByColumnsAllowed: set<string> := {"id", "name"}

  function ToRow(s: FoodSubcategory): Row {
    Row(s.id, s.name, s.description, s.foodCategoryId)
  }

  /** The stored row as a column map. */
  function ToRecord(r: Row): Record {
    map[IdColumn := IntValue(r.id), NameColumn := TextValue(r.name),
        DescriptionColumn := TextValue(r.description), ForeignKeyColumn := IntValue(r.foodCategoryId)]
  }

  /**
   * gorm's struct condition Where(&fs): one equality per non-zero column field,
   * in field order; the FoodCategory association contributes nothing.
   */
  function Conditions(fs: FoodSubcategory): seq<Predicate> {
    (if fs.id != 0 then [Equals(Column(TableName, IdColumn), IntValue(fs.id))] else [])
    + (if fs.name != "" then [Equals(Column(TableName, NameColumn), TextValue(fs.name))] else [])
    + (if fs.description != "" then [Equals(Column(TableName, DescriptionColumn), TextValue(fs.description))] else [])
    + (if fs.foodCategoryId != 0 then [Equals(Column(TableName, ForeignKeyColumn), IntValue(fs.foodCategoryId))] else [])
  }

  /** The reference meaning of a struct condition: every non-zero column field of `fs` equals that of `r`. */
  predicate ConditionsMatch(fs: FoodSubcategory, r: Row) {
    && (fs.id != 0 ==> r.id == fs.id)
    && (fs.name != "" ==> r.name == fs.name)
    && (fs.description != "" ==> r.description == fs.description)
    && (fs.foodCategoryId != 0 ==> r.foodCategoryId == fs.foodCategoryId)
  }

  /** Accepts the rows that do not match the filter. */
  function Unmatched(f: FoodSubcategory): (keep: Row -> bool)
    ensures forall r :: keep(r) <==> !ConditionsMatch(f, r)
  {
    (r: Row) => !ConditionsMatch(f, r)
  }

  /** Evaluated on a subcategory row, the struct condition holds exactly when the row matches the filter. */
  lemma ConditionsMeaning(db: Tables, like: (string, string) -> bool, t: Tuple, fs: FoodSubcategory, r: Row)
    requires TableName in t && t[TableName] == ToRecord(r)
    ensures AllHold(db, like, t, Conditions(fs)) <==> ConditionsMatch(fs, r)
  {
    var a := if fs.id != 0 then [Equals(Column(TableName, IdColumn), IntValue(fs.id))] else [];
    var b := if fs.name != "" then [Equals(Column(TableName, NameColumn), TextValue(fs.name))] else [];
    var d := if fs.description != "" then [Equals(Column(TableName, DescriptionColumn), TextValue(fs.description))] else [];
    var e := if fs.foodCategoryId != 0 then [Equals(Column(TableName, ForeignKeyColumn), IntValue(fs.foodCategoryId))] else [];
    AllHoldAppend(db, like, t, a + b + d, e);
    AllHoldAppend(db, like, t, a + b, d);
    AllHoldAppend(db, like, t, a, b);
    assert Get(t, Column(TableName, IdColumn)) == IntValue(r.id);
    assert Get(t, Column(TableName, NameColumn)) == TextValue(r.name);
    assert Get(t, Column(TableName, DescriptionColumn)) == TextValue(r.description);
    assert Get(t, Column(TableName, ForeignKeyColumn)) == IntValue(r.foodCategoryId);
    AllHoldOne(db, like, t, Equals(Column(TableName, IdColumn), IntValue(fs.id)));
    AllHoldOne(db, like, t, Equals(Column(TableName, NameColumn), TextValue(fs.name)));
    AllHoldOne(db, like, t, Equals(Column(TableName, DescriptionColumn), TextValue(fs.description)));
    AllHoldOne(db, like, t, Equals(Column(TableName, ForeignKeyColumn), IntValue(fs.foodCategoryId)));
  }

  /** The struct condition names only columns of the table, so it resolves wherever the table is in scope. */
  lemma ConditionsResolve(schema: Schema, scope: set<string>, fs: FoodSubcategory)
    requires TableName in scope && TableName in schema && schema[TableName] == Columns
    ensures AllResolve(schema, scope, Conditions(fs))
  {
  }

  /**
   * The whitelist names "id", which is not a column of this table: the primary
   * key is food_subcategory_id.
   */
  lemma OrderableColumns()
    ensures OrderByColumnsAllowed == {"id", NameColumn}
    ensures "id" !in Columns && DescriptionColumn !in OrderByColumnsAllowed
  {
  }
}
