/**
 * backend/api/food/subcategory/repository.go: the subcategory filter, the
 * join and the subquery that constrain the parent category, and the cascade
 * create, delete and list operations on the store.
 */
module SubcategoryRepository {
  import opened Wrappers
  import opened Gorm
  import opened UtilsModel
  import opened UtilsRepository
  import opened Database
  import Category = CategoryModel
  import CategoryRepository
  import opened SubcategoryModel

  /**
   * The reference meaning of WhereSubcategories on a subcategory row, for a
   * filter without id: the name equals the filter's when set, and the
   * description matches the filter's description used as a LIKE pattern when set.
   */
  predicate Matches(like: (string, string) -> bool, fs: FoodSubcategory, r: Row) {
    && (fs.name != "" ==> r.name == fs.name)
    && (fs.description != "" ==> like(r.description, fs.description))
  }

  /**
   * WhereSubcategories: one predicate per set field, in the order id, name,
   * description. The id predicate names food_subcategories.id, which is not a
   * column of the table.
   */
  function WhereSubcategories(q: Query, fs: FoodSubcategory): (r: Query)
    ensures r.(wheres := q.wheres) == q
    ensures |r.wheres| == |q.wheres| + (if fs.id != 0 then 1 else 0)
                         + (if fs.name != "" then 1 else 0) + (if fs.description != "" then 1 else 0)
    ensures r.wheres[..|q.wheres|] == q.wheres
  {
    var q1 := if fs.id != 0 then Where(q, Equals(Column(TableName, "id"), IntValue(fs.id))) else q;
    var q2 := if fs.name != "" then Where(q1, Equals(Column(TableName, "name"), TextValue(fs.name))) else q1;
    if fs.description != "" then Where(q2, Like(Column(TableName, "description"), fs.description)) else q2
  }

  /** The predicates resolve exactly when the filter has no id (and the table is in scope when they exist). */
  lemma WhereSubcategoriesResolve(schema: Schema, scope: set<string>, q: Query, fs: FoodSubcategory)
    requires TableName in schema && schema[TableName] == Columns
    ensures AllResolve(schema, scope, WhereSubcategories(q, fs).wheres)
        <==> && AllResolve(schema, scope, q.wheres) && fs.id == 0
             && (fs.name != "" || fs.description != "" ==> TableName in scope)
  {
    var p1 := Equals(Column(TableName, "id"), IntValue(fs.id));
    var p2 := Equals(Column(TableName, "name"), TextValue(fs.name));
    var p3 := Like(Column(TableName, "description"), fs.description);
    var q1 := if fs.id != 0 then Where(q, p1) else q;
    var q2 := if fs.name != "" then Where(q1, p2) else q1;
    AllResolveAppend(schema, scope, q.wheres, [p1]);
    AllResolveAppend(schema, scope, q1.wheres, [p2]);
    AllResolveAppend(schema, scope, q2.wheres, [p3]);
    assert [p1][0] == p1 && [p2][0] == p2 && [p3][0] == p3;
    assert "id" !in Columns;
  }

  /** For a filter without id, the added predicates hold on a subcategory row exactly when it matches. */
  lemma WhereSubcategoriesMeaning(db: Tables, like: (string, string) -> bool, t: Tuple, q: Query, fs: FoodSubcategory, r: Row)
    requires fs.id == 0
    requires TableName in t && t[TableName] == ToRecord(r)
    ensures AllHold(db, like, t, WhereSubcategories(q, fs).wheres) <==> AllHold(db, like, t, q.wheres) && Matches(like, fs, r)
  {
    var p2 := Equals(Column(TableName, "name"), TextValue(fs.name));
    var p3 := Like(Column(TableName, "description"), fs.description);
    var q2 := if fs.name != "" then Where(q, p2) else q;
    AllHoldAppend(db, like, t, q.wheres, [p2]);
    AllHoldAppend(db, like, t, q2.wheres, [p3]);
    AllHoldOne(db, like, t, p2);
    AllHoldOne(db, like, t, p3);
    assert Get(t, Column(TableName, "name")) == TextValue(r.name);
    assert Get(t, Column(TableName, "description")) == TextValue(r.description);
  }

  /** JOIN food_categories ON food_categories.id = food_subcategories.food_category_id */
  const CategoryJoin: Join :=
    Join(Category.TableName, Column(Category.TableName, "id"), Column(TableName, "food_category_id"))

  /** JoinSubcategories: the join to the parent table, then the category filter on it. */
  function JoinSubcategories(q: Query, fs: FoodSubcategory): (r: Query)
    ensures r.joins == q.joins + [CategoryJoin]
    ensures r.wheres == CategoryRepository.WhereCategories(q, fs.foodCategory).wheres
    ensures r.(wheres := q.wheres, joins := q.joins) == q
  {
    CategoryRepository.WhereCategories(Joins(q, CategoryJoin), fs.foodCategory)
  }

  /** food_subcategories.food_category_id IN (SELECT id FROM food_categories WHERE <category's struct condition>) */
  function ParentIn(fs: FoodSubcategory): Predicate {
    In(Column(TableName, "food_category_id"), CategoryRepository.SelectWhereCategories(Session, fs.foodCategory, ["id"]))
  }

  /** SubquerySubcategories: restricts the parent to the categories that match the category filter. */
  function SubquerySubcategories(q: Query, fs: FoodSubcategory): (r: Query)
    ensures r.wheres == q.wheres + [ParentIn(fs)]
    ensures r.(wheres := q.wheres) == q
  {
    Where(q, ParentIn(fs))
  }

  /** The parent predicate resolves wherever food_subcategories is in scope. */
  lemma ParentInResolves(scope: set<string>, fs: FoodSubcategory)
    ensures PredicateResolves(FoodSchema, scope, ParentIn(fs)) <==> TableName in scope
  {
    CategoryRepository.SelectWhereCategoriesMeaning(map[], (a: string, b: string) => true, fs.foodCategory, ["id"], Category.Zero);
  }

  /** On a subcategory row, the parent predicate holds exactly when a stored category with its parent id matches the category filter. */
  lemma ParentInMeaning(db: Tables, like: (string, string) -> bool, categories: seq<Category.FoodCategory>, t: Tuple, fs: FoodSubcategory, r: Row)
    requires Rows(db, Category.TableName) == Keys(categories, Category.ToRecord)
    requires TableName in t && t[TableName] == ToRecord(r)
    ensures Holds(db, like, t, ParentIn(fs))
        <==> exists c | c in categories :: c.id == r.foodCategoryId && Category.ConditionsMatch(fs.foodCategory, c)
  {
    var sub := CategoryRepository.SelectWhereCategories(Session, fs.foodCategory, ["id"]);
    var rows := Rows(db, Category.TableName);
    assert Get(t, Column(TableName, "food_category_id")) == IntValue(r.foodCategoryId);
    if Holds(db, like, t, ParentIn(fs)) {
      var rec :| rec in rows
        && Field(rec, "id") == IntValue(r.foodCategoryId)
        && forall i | 0 <= i < |sub.wheres| :: Holds(db, like, map[Category.TableName := rec], sub.wheres[i]);
      var k :| 0 <= k < |rows| && rows[k] == rec;
      var c := categories[k];
      CategoryRepository.SelectWhereCategoriesMeaning(db, like, fs.foodCategory, ["id"], c);
      assert c in categories;
    }
    if exists c | c in categories :: c.id == r.foodCategoryId && Category.ConditionsMatch(fs.foodCategory, c) {
      var c :| c in categories && c.id == r.foodCategoryId && Category.ConditionsMatch(fs.foodCategory, c);
      var k :| 0 <= k < |categories| && categories[k] == c;
      CategoryRepository.SelectWhereCategoriesMeaning(db, like, fs.foodCategory, ["id"], c);
      assert rows[k] == Category.ToRecord(c);
      assert Field(rows[k], "id") == IntValue(r.foodCategoryId);
    }
  }

  /** SelectWhereSubcategories: `projection` of food_subcategories under the subcategory filter. */
  function SelectWhereSubcategories(q: Query, fs: FoodSubcategory, projection: seq<string>): (r: Query)
    ensures r.from == Some(TableName) && r.projection == projection
    ensures r.wheres == WhereSubcategories(q, fs).wheres
    ensures r.(from := q.from, projection := q.projection, wheres := q.wheres) == q
  {
    WhereSubcategories(Select(Table(q, TableName), projection), fs)
  }

  /** From a fresh session, the projection resolves exactly when the filter has no id. */
  lemma SelectWhereSubcategoriesResolves(fs: FoodSubcategory, projection: seq<string>)
    ensures ReadResolves(FoodSchema, SelectWhereSubcategories(Session, fs, projection), TableName) <==> fs.id == 0
  {
    var q := SelectWhereSubcategories(Session, fs, projection);
    assert q.joins == [] && JoinTables(q.joins) == {};
    WhereSubcategoriesResolve(FoodSchema, {TableName}, Select(Table(Session, TableName), projection), fs);
  }

  /** The WHERE clause of the parent lookup: the category filter and the key gorm adds for a non-zero destination id. */
  function ParentLookupWheres(fs: FoodSubcategory): seq<Predicate> {
    CategoryRepository.WhereCategories(Session, fs.foodCategory).wheres
      + PrimaryKeyCondition(Category.TableName, Category.IdColumn, fs.foodCategory.id)
  }

  lemma ParentLookupMeaning(db: Tables, like: (string, string) -> bool, fs: FoodSubcategory, c: Category.FoodCategory)
    ensures ReadResolves(FoodSchema, CategoryRepository.WhereCategories(Session, fs.foodCategory), Category.TableName)
    ensures CategorySatisfies(db, like, ParentLookupWheres(fs), c) <==> CategoryRepository.Matches(like, fs.foodCategory, c)
  {
    var t := map[Category.TableName := Category.ToRecord(c)];
    var q := CategoryRepository.WhereCategories(Session, fs.foodCategory);
    var pk := PrimaryKeyCondition(Category.TableName, Category.IdColumn, fs.foodCategory.id);
    assert q.joins == [] && JoinTables(q.joins) == {};
    CategoryRepository.WhereCategoriesResolve(FoodSchema, {Category.TableName}, Session, fs.foodCategory);
    CategoryRepository.WhereCategoriesMeaning(db, like, t, Session, fs.foodCategory, c);
    AllHoldAppend(db, like, t, q.wheres, pk);
    AllHoldOne(db, like, t, Equals(Column(Category.TableName, Category.IdColumn), IntValue(fs.foodCategory.id)));
    assert Get(t, Column(Category.TableName, Category.IdColumn)) == IntValue(c.id);
  }

  /** The message of the error addSubcategory and addUnit return when the parent is not found. */
  const ParentNotFoundMessage: string := "joder bro"

  /**
   * addSubcategory: in one transaction, look the parent category up with the
   * category filter (the first match replaces the embedded category), refuse
   * a parent whose id is then 0, and create the subcategory bound to it.
   * Every failure leaves the store as it was.
   */
  method AddSubcategory(store: Store, fs: FoodSubcategory, like: (string, string) -> bool) returns (result: FoodSubcategory, err: Option<Error>)
    requires store.Valid()
    modifies store
    ensures store.Valid()
    ensures store.categories == old(store.categories) && store.units == old(store.units)
    ensures var lookup := old(store.FindCategory(CategoryRepository.WhereCategories(Session, fs.foodCategory), fs.foodCategory, like));
            && lookup.Success?
            && (lookup.value.id == 0 ==>
                  err == Some(ParentNotFound(ParentNotFoundMessage)) && result == fs.(foodCategory := lookup.value))
            && (lookup.value.id != 0 ==>
                  var id := if fs.id != 0 then fs.id else FreshId(Keys(old(store.subcategories), SubcategoryId));
                  && err == CreateOutcome(Keys(old(store.subcategories), SubcategoryId), Keys(old(store.subcategories), SubcategoryName),
                                          id, fs.name, TableName, IdColumn, NameColumn)
                  && result == fs.(id := if err.None? then id else fs.id, foodCategoryId := lookup.value.id, foodCategory := lookup.value))
    ensures err.Some? ==> store.subcategories == old(store.subcategories)
    ensures err.None? ==> store.subcategories == old(store.subcategories) + [ToRow(result)]
    ensures err.None? && fs.foodCategory.id == 0 ==>
              result.foodCategory in old(store.categories) && CategoryRepository.Matches(like, fs.foodCategory, result.foodCategory)
  {
    var lookupQuery := CategoryRepository.WhereCategories(Session, fs.foodCategory);
    ParentLookupMeaning(store.Tables(), like, fs, fs.foodCategory);
    var lookup := store.FindCategory(lookupQuery, fs.foodCategory, like);
    if lookup.Failure? {
      // The category filter names columns of food_categories only, so the lookup always resolves.
      assert false;
    }
    var parent := lookup.value;
    result := fs.(foodCategory := parent);
    if parent.id == 0 {
      return result, Some(ParentNotFound(ParentNotFoundMessage));
    }
    if fs.foodCategory.id == 0 {
      ParentLookupMeaning(store.Tables(), like, fs, parent);
    }
    result := result.(foodCategoryId := parent.id);
    var created, rows;
    created, rows, err := store.CreateSubcategory(ToRow(result));
    result := result.(id := created.id);
  }

  /** The WHERE clause of delSubcategory: the parent subquery, the subcategory filter and the key Delete(fs) adds. */
  function DelSubcategoryWheres(fs: FoodSubcategory): seq<Predicate> {
    WhereSubcategories(SubquerySubcategories(Session, fs), fs).wheres + PrimaryKeyCondition(TableName, IdColumn, fs.id)
  }

  /** True when a stored category with the row's parent id matches the category filter. */
  predicate ParentMatches(categories: seq<Category.FoodCategory>, fs: FoodSubcategory, r: Row) {
    exists c | c in categories :: c.id == r.foodCategoryId && Category.ConditionsMatch(fs.foodCategory, c)
  }

  /** Accepts the subcategories delSubcategory keeps. */
  function DelSubcategoryKeeps(categories: seq<Category.FoodCategory>, like: (string, string) -> bool, fs: FoodSubcategory): (keep: Row -> bool)
    ensures forall r :: keep(r) <==> !(ParentMatches(categories, fs, r) && Matches(like, fs, r))
  {
    (r: Row) => !(ParentMatches(categories, fs, r) && Matches(like, fs, r))
  }

  lemma DelSubcategoryWheresMeaning(db: Tables, like: (string, string) -> bool, categories: seq<Category.FoodCategory>, fs: FoodSubcategory, r: Row)
    requires Rows(db, Category.TableName) == Keys(categories, Category.ToRecord)
    requires fs.id == 0
    ensures SubcategorySatisfies(db, like, DelSubcategoryWheres(fs), r) <==> ParentMatches(categories, fs, r) && Matches(like, fs, r)
  {
    var t := map[TableName := ToRecord(r)];
    var q := SubquerySubcategories(Session, fs);
    assert q.wheres == [ParentIn(fs)];
    assert DelSubcategoryWheres(fs) == WhereSubcategories(q, fs).wheres;
    WhereSubcategoriesMeaning(db, like, t, q, fs, r);
    AllHoldOne(db, like, t, ParentIn(fs));
    ParentInMeaning(db, like, categories, t, fs, r);
  }

  lemma DelSubcategoryWheresResolve(fs: FoodSubcategory)
    ensures DeleteResolves(FoodSchema, WhereAll(Session, DelSubcategoryWheres(fs)), TableName) <==> fs.id == 0
    ensures DelSubcategoryWheres(fs) != []
  {
    var q := SubquerySubcategories(Session, fs);
    var pk := PrimaryKeyCondition(TableName, IdColumn, fs.id);
    assert q.wheres == [ParentIn(fs)];
    assert WhereAll(Session, DelSubcategoryWheres(fs)).wheres == DelSubcategoryWheres(fs);
    ParentInResolves({TableName}, fs);
    WhereSubcategoriesResolve(FoodSchema, {TableName}, q, fs);
    AllResolveAppend(FoodSchema, {TableName}, WhereSubcategories(q, fs).wheres, pk);
    assert [ParentIn(fs)][0] == ParentIn(fs);
  }

  /**
   * delSubcategory: for a filter without id, deletes exactly the subcategories
   * that match the subcategory filter and whose parent matches the category
   * filter; a filter with an id names a column the table lacks and fails.
   */
  method DelSubcategory(store: Store, fs: FoodSubcategory, like: (string, string) -> bool) returns (rows: int, err: Option<Error>)
    requires store.Valid()
    modifies store
    ensures store.Valid()
    ensures err == if fs.id != 0 then Some(UndefinedColumn) else None
    ensures err.None? ==> store.subcategories == Filter(old(store.subcategories), DelSubcategoryKeeps(old(store.categories), like, fs))
    ensures err.Some? ==> store.subcategories == old(store.subcategories)
    ensures rows == |old(store.subcategories)| - |store.subcategories|
    ensures store.categories == old(store.categories) && store.units == old(store.units)
  {
    var q := WhereAll(Session, DelSubcategoryWheres(fs));
    assert q.wheres == DelSubcategoryWheres(fs);
    DelSubcategoryWheresResolve(fs);
    var db := store.Tables();
    if fs.id == 0 {
      forall r | r in store.subcategories
        ensures KeepSubcategory(db, like, q.wheres)(r) == DelSubcategoryKeeps(store.categories, like, fs)(r)
      {
        DelSubcategoryWheresMeaning(db, like, store.categories, fs, r);
      }
      FilterCongruence(store.subcategories, KeepSubcategory(db, like, q.wheres), DelSubcategoryKeeps(store.categories, like, fs));
    }
    rows, err := store.DeleteSubcategories(q, like);
  }

  /** The query getSubcategories runs. */
  function GetSubcategoriesQuery(w: WrapperRequest<FoodSubcategory>): Query {
    Preload(JoinSubcategories(WhereSubcategories(Scope(w, OrderByColumnsAllowed, Session), w.body), w.body), "FoodCategory")
  }

  /** getSubcategories: ToScope, the subcategory filter, the parent join with the category filter, and the preload. */
  method GetSubcategories(w: WrapperRequest<FoodSubcategory>) returns (q: Query)
    ensures q == GetSubcategoriesQuery(w)
  {
    q := ToScope(w, OrderByColumnsAllowed, Session);
    q := WhereSubcategories(q, w.body);
    q := JoinSubcategories(q, w.body);
    q := Preload(q, "FoodCategory");
  }

  /**
   * The SELECT of getSubcategories resolves exactly when the body has no id.
   * Whatever the request orders by resolves: "name" is an output column, and
   * "id", which food_subcategories lacks, is the id of the joined parent.
   */
  lemma GetSubcategoriesResolves(w: WrapperRequest<FoodSubcategory>)
    ensures ReadResolves(FoodSchema, GetSubcategoriesQuery(w), TableName) <==> w.body.id == 0
  {
    var q0 := Scope(w, OrderByColumnsAllowed, Session);
    var q1 := WhereSubcategories(q0, w.body);
    var q := GetSubcategoriesQuery(w);
    assert q.joins == [CategoryJoin];
    assert JoinTables(q.joins) == {Category.TableName} by { assert CategoryJoin in q.joins; }
    var scope := {TableName, Category.TableName};
    WhereSubcategoriesResolve(FoodSchema, scope, q0, w.body);
    CategoryRepository.WhereCategoriesResolve(FoodSchema, scope, Joins(q1, CategoryJoin), w.body.foodCategory);
    assert q.orders == OrderClauses(w.orderBy, OrderByColumnsAllowed);
    forall k | 0 <= k < |q.orders|
      ensures OrderColumnResolves(FoodSchema, scope, OutputColumns(FoodSchema, q, TableName), ClauseColumn(q.orders[k]))
    {
      var f := ClauseColumn(q.orders[k]);
      OrderClauseColumn(w.orderBy, OrderByColumnsAllowed, k);
      if f == "id" {
        assert Category.TableName in scope && "id" in FoodSchema[Category.TableName];
      } else {
        assert f in OutputColumns(FoodSchema, q, TableName);
      }
    }
  }

  /**
   * For a body without id, getSubcategories pairs each stored subcategory that
   * matches the body with its parent category, when that category matches the
   * body's category filter; it preloads FoodCategory and applies the request's
   * whitelisted order, offset and limit.
   */
  lemma GetSubcategoriesMeaning(db: Tables, like: (string, string) -> bool, w: WrapperRequest<FoodSubcategory>, s: Row, c: Category.FoodCategory)
    requires w.body.id == 0
    ensures Selected(db, like, GetSubcategoriesQuery(w), TableName, map[TableName := ToRecord(s), Category.TableName := Category.ToRecord(c)])
        <==> && ToRecord(s) in Rows(db, TableName) && Category.ToRecord(c) in Rows(db, Category.TableName)
             && c.id == s.foodCategoryId
             && Matches(like, w.body, s) && CategoryRepository.Matches(like, w.body.foodCategory, c)
    ensures GetSubcategoriesQuery(w).preloads == ["FoodCategory"]
    ensures GetSubcategoriesQuery(w).orders == OrderClauses(w.orderBy, OrderByColumnsAllowed)
    ensures GetSubcategoriesQuery(w).offset == Some(w.skip) && GetSubcategoriesQuery(w).limit == Some(w.limit)
  {
    var t := map[TableName := ToRecord(s), Category.TableName := Category.ToRecord(c)];
    var q0 := Scope(w, OrderByColumnsAllowed, Session);
    var q1 := WhereSubcategories(q0, w.body);
    var q := GetSubcategoriesQuery(w);
    assert q.joins == [CategoryJoin];
    assert JoinTables(q.joins) == {Category.TableName} by { assert CategoryJoin in q.joins; }
    assert q0.wheres == [];
    WhereSubcategoriesMeaning(db, like, t, q0, w.body, s);
    CategoryRepository.WhereCategoriesMeaning(db, like, t, Joins(q1, CategoryJoin), w.body.foodCategory, c);
    assert Get(t, CategoryJoin.left) == IntValue(c.id);
    assert Get(t, CategoryJoin.right) == IntValue(s.foodCategoryId);
  }
}
