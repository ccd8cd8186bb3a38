/**
 * backend/api/food/category/repository.go: the category filter, the
 * projection used as a subquery by the subcategory repository, and the
 * create, delete and list operations on the store.
 */
module CategoryRepository {
  import opened Wrappers
  import opened Gorm
  import opened UtilsModel
  import opened UtilsRepository
  import opened Database
  import opened CategoryModel

  /**
   * The reference meaning of WhereCategories on a category row: the id and the
   * name equal the filter's when set, and the description matches the filter's
   * description used as a LIKE pattern when set.
   */
  predicate Matches(like: (string, string) -> bool, fc: FoodCategory, c: FoodCategory) {
    && (fc.id != 0 ==> c.id == fc.id)
    && (fc.description != "" ==> like(c.description, fc.description))
    && (fc.name != "" ==> c.name == fc.name)
  }

  /** WhereCategories: one predicate per set field, in the order id, description, name. */
  function WhereCategories(q: Query, fc: FoodCategory): (r: Query)
    ensures r.(wheres := q.wheres) == q
    ensures |r.wheres| == |q.wheres| + (if fc.id != 0 then 1 else 0)
                         + (if fc.description != "" then 1 else 0) + (if fc.name != "" then 1 else 0)
    ensures r.wheres[..|q.wheres|] == q.wheres
    ensures fc == Zero ==> r == q
  {
    var q1 := if fc.id != 0 then Where(q, Equals(Column(TableName, "id"), IntValue(fc.id))) else q;
    var q2 := if fc.description != "" then Where(q1, Like(Column(TableName, "description"), fc.description)) else q1;
    if fc.name != "" then Where(q2, Equals(Column(TableName, "name"), TextValue(fc.name))) else q2
  }

  /** On a category row, the added predicates hold exactly when the row matches the filter. */
  lemma WhereCategoriesMeaning(db: Tables, like: (string, string) -> bool, t: Tuple, q: Query, fc: FoodCategory, c: FoodCategory)
    requires TableName in t && t[TableName] == ToRecord(c)
    ensures AllHold(db, like, t, WhereCategories(q, fc).wheres) <==> AllHold(db, like, t, q.wheres) && Matches(like, fc, c)
  {
    var p1 := Equals(Column(TableName, "id"), IntValue(fc.id));
    var p2 := Like(Column(TableName, "description"), fc.description);
    var p3 := Equals(Column(TableName, "name"), TextValue(fc.name));
    var q1 := if fc.id != 0 then Where(q, p1) else q;
    var q2 := if fc.description != "" then Where(q1, p2) else q1;
    AllHoldAppend(db, like, t, q.wheres, [p1]);
    AllHoldAppend(db, like, t, q1.wheres, [p2]);
    AllHoldAppend(db, like, t, q2.wheres, [p3]);
    AllHoldOne(db, like, t, p1);
    AllHoldOne(db, like, t, p2);
    AllHoldOne(db, like, t, p3);
    assert Get(t, Column(TableName, "id")) == IntValue(c.id);
    assert Get(t, Column(TableName, "description")) == TextValue(c.description);
    assert Get(t, Column(TableName, "name")) == TextValue(c.name);
  }

  /** The added predicates name columns of food_categories only: they resolve wherever that table is in scope, and nowhere else. */
  lemma WhereCategoriesResolve(schema: Schema, scope: set<string>, q: Query, fc: FoodCategory)
    requires TableName in schema && schema[TableName] == Columns
    ensures AllResolve(schema, scope, WhereCategories(q, fc).wheres)
        <==> AllResolve(schema, scope, q.wheres) && (fc != Zero ==> TableName in scope)
  {
    var p1 := Equals(Column(TableName, "id"), IntValue(fc.id));
    var p2 := Like(Column(TableName, "description"), fc.description);
    var p3 := Equals(Column(TableName, "name"), TextValue(fc.name));
    var q1 := if fc.id != 0 then Where(q, p1) else q;
    var q2 := if fc.description != "" then Where(q1, p2) else q1;
    AllResolveAppend(schema, scope, q.wheres, [p1]);
    AllResolveAppend(schema, scope, q1.wheres, [p2]);
    AllResolveAppend(schema, scope, q2.wheres, [p3]);
    assert [p1][0] == p1 && [p2][0] == p2 && [p3][0] == p3;
  }

  /** SelectWhereCategories: `projection` of food_categories under the struct condition of `fc`. */
  function SelectWhereCategories(q: Query, fc: FoodCategory, projection: seq<string>): (r: Query)
    ensures r.from == Some(TableName) && r.projection == projection
    ensures r.wheres == q.wheres + Conditions(fc)
    ensures r.(from := q.from, projection := q.projection, wheres := q.wheres) == q
  {
    WhereAll(Select(Table(q, TableName), projection), Conditions(fc))
  }

  /** From a fresh session, the subquery resolves and selects exactly the categories matching the filter. */
  lemma SelectWhereCategoriesMeaning(db: Tables, like: (string, string) -> bool, fc: FoodCategory, projection: seq<string>, c: FoodCategory)
    ensures AllResolve(FoodSchema, {TableName}, SelectWhereCategories(Session, fc, projection).wheres)
    ensures AllHold(db, like, map[TableName := ToRecord(c)], SelectWhereCategories(Session, fc, projection).wheres)
        <==> ConditionsMatch(fc, c)
  {
    assert Session.wheres + Conditions(fc) == Conditions(fc);
    ConditionsResolve(FoodSchema, {TableName}, fc);
    ConditionsMeaning(db, like, map[TableName := ToRecord(c)], fc, c);
  }

  /** addCategory: Create(fc); the row written, the rows affected and the store's error. */
  method AddCategory(store: Store, fc: FoodCategory) returns (result: FoodCategory, rows: int, err: Option<Error>)
    requires store.Valid()
    modifies store
    ensures store.Valid()
    ensures var id := if fc.id != 0 then fc.id else FreshId(Keys(old(store.categories), CategoryId));
            err == CreateOutcome(Keys(old(store.categories), CategoryId), Keys(old(store.categories), CategoryName),
                                 id, fc.name, TableName, IdColumn, NameColumn)
            && (err.None? ==> result == fc.(id := id) && store.categories == old(store.categories) + [result] && rows == 1)
    ensures err.Some? ==> result == fc && store.categories == old(store.categories) && rows == 0
    ensures store.subcategories == old(store.subcategories) && store.units == old(store.units)
  {
    result, rows, err := store.CreateCategory(fc);
  }

  /** The WHERE clause of delCategory: Where(&fc), then the primary key Delete(fc) adds. */
  function DelCategoryWheres(fc: FoodCategory): seq<Predicate> {
    Conditions(fc) + PrimaryKeyCondition(TableName, IdColumn, fc.id)
  }

  lemma DelCategoryWheresMeaning(db: Tables, like: (string, string) -> bool, fc: FoodCategory, c: FoodCategory)
    ensures CategorySatisfies(db, like, DelCategoryWheres(fc), c) <==> ConditionsMatch(fc, c)
    ensures DeleteResolves(FoodSchema, WhereAll(Session, DelCategoryWheres(fc)), TableName)
    ensures DelCategoryWheres(fc) == [] <==> fc == Zero
  {
    var t := map[TableName := ToRecord(c)];
    var pk := PrimaryKeyCondition(TableName, IdColumn, fc.id);
    AllHoldAppend(db, like, t, Conditions(fc), pk);
    ConditionsMeaning(db, like, t, fc, c);
    AllHoldOne(db, like, t, Equals(Column(TableName, IdColumn), IntValue(fc.id)));
    ConditionsResolve(FoodSchema, {TableName}, fc);
    AllResolveAppend(FoodSchema, {TableName}, Conditions(fc), pk);
    assert Session.wheres + DelCategoryWheres(fc) == DelCategoryWheres(fc);
    if fc != Zero {
      assert |Conditions(fc)| > 0;
    }
  }

  /**
   * delCategory: deletes exactly the categories whose fields equal every set
   * field of `fc`; an all-zero filter is refused as a DELETE without WHERE.
   */
  method DelCategory(store: Store, fc: FoodCategory, like: (string, string) -> bool) returns (rows: int, err: Option<Error>)
    requires store.Valid()
    modifies store
    ensures store.Valid()
    ensures err == if fc == Zero then Some(MissingWhereClause) else None
    ensures err.None? ==> store.categories == Filter(old(store.categories), Unmatched(fc))
    ensures err.Some? ==> store.categories == old(store.categories)
    ensures rows == |old(store.categories)| - |store.categories|
    ensures store.subcategories == old(store.subcategories) && store.units == old(store.units)
  {
    var q := WhereAll(Session, DelCategoryWheres(fc));
    assert q.wheres == DelCategoryWheres(fc);
    var db := store.Tables();
    DelCategoryWheresMeaning(db, like, fc, Zero);
    forall c | c in store.categories
      ensures KeepCategory(db, like, q.wheres)(c) == Unmatched(fc)(c)
    {
      DelCategoryWheresMeaning(db, like, fc, c);
    }
    FilterCongruence(store.categories, KeepCategory(db, like, q.wheres), Unmatched(fc));
    rows, err := store.DeleteCategories(q, like);
  }

  /** The query getCategories runs: the struct condition of the body, then ToScope. */
  function GetCategoriesQuery(w: WrapperRequest<FoodCategory>): Query {
    Scope(w, OrderByColumnsAllowed, WhereAll(Session, Conditions(w.body)))
  }

  /** getCategories: builds the query; running it is the store's SELECT. */
  method GetCategories(w: WrapperRequest<FoodCategory>) returns (q: Query)
    ensures q == GetCategoriesQuery(w)
  {
    q := ToScope(w, OrderByColumnsAllowed, WhereAll(Session, Conditions(w.body)));
  }

  /**
   * The SELECT of getCategories always resolves (both orderable names are
   * columns of food_categories) and yields exactly the stored
   * categories matching the body, ordered by the whitelisted request fields,
   * with the request's offset and limit.
   */
  lemma GetCategoriesMeaning(db: Tables, like: (string, string) -> bool, w: WrapperRequest<FoodCategory>, c: FoodCategory)
    ensures ReadResolves(FoodSchema, GetCategoriesQuery(w), TableName)
    ensures Selected(db, like, GetCategoriesQuery(w), TableName, map[TableName := ToRecord(c)])
        <==> ToRecord(c) in Rows(db, TableName) && ConditionsMatch(w.body, c)
    ensures GetCategoriesQuery(w).orders == OrderClauses(w.orderBy, OrderByColumnsAllowed)
    ensures GetCategoriesQuery(w).offset == Some(w.skip) && GetCategoriesQuery(w).limit == Some(w.limit)
  {
    var q := GetCategoriesQuery(w);
    assert q.wheres == Conditions(w.body);
    assert q.joins == [];
    assert JoinTables(q.joins) == {};
    ConditionsResolve(FoodSchema, {TableName}, w.body);
    ConditionsMeaning(db, like, map[TableName := ToRecord(c)], w.body, c);
    assert q.orders == OrderClauses(w.orderBy, OrderByColumnsAllowed);
    forall k | 0 <= k < |q.orders|
      ensures ClauseColumn(q.orders[k]) in OutputColumns(FoodSchema, q, TableName)
    {
      OrderClauseColumn(w.orderBy, OrderByColumnsAllowed, k);
    }
  }

  /** An order_by on "description" is dropped, the whitelisted entries are kept in request order. */
  lemma DescriptionNotOrderable(w: WrapperRequest<FoodCategory>)
    requires w.orderBy == [OrderBy("name", Desc), OrderBy("description", Asc), OrderBy("id", Asc)]
    ensures GetCategoriesQuery(w).orders == ["name DESC", "id ASC"]
  {
    var obs := w.orderBy;
    assert obs[..|obs| - 1] == obs[..2];
    assert obs[..2][..1] == obs[..1] && obs[..1][..0] == [];
    assert "name" in OrderByColumnsAllowed && "id" in OrderByColumnsAllowed;
    assert OrderBy("name", Desc).String() == "name DESC" && OrderBy("id", Asc).String() == "id ASC";
    assert OrderClauses(obs[..1], OrderByColumnsAllowed) == ["name DESC"];
    assert OrderClauses(obs[..2], OrderByColumnsAllowed) == ["name DESC"];
    assert OrderClauses(obs, OrderByColumnsAllowed) == ["name DESC", "id ASC"];
  }
}
