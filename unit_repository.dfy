/**
 * backend/api/food/unit/repository.go: the unit filter, the join to the
 * parent subcategory, and the cascade create, delete and list operations on
 * the store.
 */
module UnitRepository {
  import opened Wrappers
  import opened Gorm
  import opened UtilsModel
  import opened UtilsRepository
  import opened Database
  import Subcategory = SubcategoryModel
  import SubcategoryRepository
  import opened UnitModel

  /**
   * The reference meaning of WhereUnit on a unit row, for a filter without id:
   * the name equals the filter's when set, and the description matches the
   * filter's description used as a LIKE pattern when set.
   */
  predicate Matches(like: (string, string) -> bool, fu: FoodUnit, r: Row) {
    && (fu.name != "" ==> r.name == fu.name)
    && (fu.description != "" ==> like(r.description, fu.description))
  }

  /**
   * WhereUnit: one predicate per set field, in the order id, name, description.
   * The id predicate names food_units.id, which is not a column of the table.
   */
  function WhereUnit(q: Query, fu: FoodUnit): (r: Query)
    ensures r.(wheres := q.wheres) == q
    ensures |r.wheres| == |q.wheres| + (if fu.id != 0 then 1 else 0)
                         + (if fu.name != "" then 1 else 0) + (if fu.description != "" then 1 else 0)
    ensures r.wheres[..|q.wheres|] == q.wheres
  {
    var q1 := if fu.id != 0 then Where(q, Equals(Column(TableName, "id"), IntValue(fu.id))) else q;
    var q2 := if fu.name != "" then Where(q1, Equals(Column(TableName, "name"), TextValue(fu.name))) else q1;
    if fu.description != "" then Where(q2, Like(Column(TableName, "description"), fu.description)) else q2
  }

  /** The predicates resolve exactly when the filter has no id (and the table is in scope when they exist). */
  lemma WhereUnitResolve(schema: Schema, scope: set<string>, q: Query, fu: FoodUnit)
    requires TableName in schema && schema[TableName] == Columns
    ensures AllResolve(schema, scope, WhereUnit(q, fu).wheres)
        <==> && AllResolve(schema, scope, q.wheres) && fu.id == 0
             && (fu.name != "" || fu.description != "" ==> TableName in scope)
  {
    var p1 := Equals(Column(TableName, "id"), IntValue(fu.id));
    var p2 := Equals(Column(TableName, "name"), TextValue(fu.name));
    var p3 := Like(Column(TableName, "description"), fu.description);
    var q1 := if fu.id != 0 then Where(q, p1) else q;
    var q2 := if fu.name != "" then Where(q1, p2) else q1;
    AllResolveAppend(schema, scope, q.wheres, [p1]);
    AllResolveAppend(schema, scope, q1.wheres, [p2]);
    AllResolveAppend(schema, scope, q2.wheres, [p3]);
    assert [p1][0] == p1 && [p2][0] == p2 && [p3][0] == p3;
    assert "id" !in Columns;
  }

  /** For a filter without id, the added predicates hold on a unit row exactly when it matches. */
  lemma WhereUnitMeaning(db: Tables, like: (string, string) -> bool, t: Tuple, q: Query, fu: FoodUnit, r: Row)
    requires fu.id == 0
    requires TableName in t && t[TableName] == ToRecord(r)
    ensures AllHold(db, like, t, WhereUnit(q, fu).wheres) <==> AllHold(db, like, t, q.wheres) && Matches(like, fu, r)
  {
    var p2 := Equals(Column(TableName, "name"), TextValue(fu.name));
    var p3 := Like(Column(TableName, "description"), fu.description);
    var q2 := if fu.name != "" then Where(q, p2) else q;
    AllHoldAppend(db, like, t, q.wheres, [p2]);
    AllHoldAppend(db, like, t, q2.wheres, [p3]);
    AllHoldOne(db, like, t, p2);
    AllHoldOne(db, like, t, p3);
    assert Get(t, Column(TableName, "name")) == TextValue(r.name);
    assert Get(t, Column(TableName, "description")) == TextValue(r.description);
  }

  /** JOIN food_subcategories ON food_subcategories.id = food_units.id */
  const SubcategoryJoin: Join :=
    Join(Subcategory.TableName, Column(Subcategory.TableName, "id"), Column(TableName, "id"))

  /** JoinUnit: exactly one join, then the unit filter. */
  function JoinUnit(q: Query, fu: FoodUnit): (r: Query)
    ensures r.joins == q.joins + [SubcategoryJoin]
    ensures r.wheres == WhereUnit(q, fu).wheres
    ensures r.(wheres := q.wheres, joins := q.joins) == q
  {
    WhereUnit(Joins(q, SubcategoryJoin), fu)
  }

  /** Neither side of the join condition is a column, so no SELECT with JoinUnit resolves. */
  lemma JoinUnitNeverResolves(q: Query, fu: FoodUnit)
    ensures !ReadResolves(FoodSchema, JoinUnit(q, fu), TableName)
  {
    var r := JoinUnit(q, fu);
    assert r.joins[|q.joins|] == SubcategoryJoin;
    assert "id" !in Subcategory.Columns;
  }

  /** The WHERE clause of the parent lookup: the subcategory filter and the key gorm adds for a non-zero destination id. */
  function ParentLookupWheres(fu: FoodUnit): seq<Predicate> {
    SubcategoryRepository.WhereSubcategories(Session, fu.foodSubcategory).wheres
      + PrimaryKeyCondition(Subcategory.TableName, Subcategory.IdColumn, fu.foodSubcategory.id)
  }

  lemma ParentLookupMeaning(db: Tables, like: (string, string) -> bool, fu: FoodUnit, s: Subcategory.Row)
    ensures ReadResolves(FoodSchema, SubcategoryRepository.WhereSubcategories(Session, fu.foodSubcategory), Subcategory.TableName)
        <==> fu.foodSubcategory.id == 0
    ensures fu.foodSubcategory.id == 0 ==>
              (SubcategorySatisfies(db, like, ParentLookupWheres(fu), s) <==> SubcategoryRepository.Matches(like, fu.foodSubcategory, s))
  {
    var q := SubcategoryRepository.WhereSubcategories(Session, fu.foodSubcategory);
    assert q.joins == [] && JoinTables(q.joins) == {};
    SubcategoryRepository.WhereSubcategoriesResolve(FoodSchema, {Subcategory.TableName}, Session, fu.foodSubcategory);
    if fu.foodSubcategory.id == 0 {
      var t := map[Subcategory.TableName := Subcategory.ToRecord(s)];
      assert ParentLookupWheres(fu) == q.wheres;
      SubcategoryRepository.WhereSubcategoriesMeaning(db, like, t, Session, fu.foodSubcategory, s);
    }
  }

  /**
   * addUnit: in one transaction, look the parent subcategory up with the
   * subcategory filter (the first match replaces the columns of the embedded
   * subcategory), refuse a parent whose id is then 0, and create the unit bound
   * to it. Every failure leaves the store as it was; a filter with an id fails
   * the lookup.
   */
  method AddUnit(store: Store, fu: FoodUnit, like: (string, string) -> bool) returns (result: FoodUnit, err: Option<Error>)
    requires store.Valid()
    modifies store
    ensures store.Valid()
    ensures store.categories == old(store.categories) && store.subcategories == old(store.subcategories)
    ensures fu.foodSubcategory.id != 0 ==> err == Some(UndefinedColumn) && result == fu
    ensures var lookup := old(store.FindSubcategory(SubcategoryRepository.WhereSubcategories(Session, fu.foodSubcategory), fu.foodSubcategory, like));
            && (lookup.Success? && lookup.value.id == 0 ==>
                  err == Some(ParentNotFound(SubcategoryRepository.ParentNotFoundMessage)) && result == fu.(foodSubcategory := lookup.value))
            && (lookup.Success? && lookup.value.id != 0 ==>
                  var id := if fu.id != 0 then fu.id else FreshId(Keys(old(store.units), UnitId));
                  && err == CreateOutcome(Keys(old(store.units), UnitId), Keys(old(store.units), UnitName),
                                          id, fu.name, TableName, IdColumn, NameColumn)
                  && result == fu.(id := if err.None? then id else fu.id, foodSubcategoryId := lookup.value.id, foodSubcategory := lookup.value))
    ensures err.Some? ==> store.units == old(store.units)
    ensures err.None? ==> store.units == old(store.units) + [ToRow(result)]
    ensures err.None? ==>
              && Subcategory.ToRow(result.foodSubcategory) in old(store.subcategories)
              && SubcategoryRepository.Matches(like, fu.foodSubcategory, Subcategory.ToRow(result.foodSubcategory))
  {
    var lookupQuery := SubcategoryRepository.WhereSubcategories(Session, fu.foodSubcategory);
    ParentLookupMeaning(store.Tables(), like, fu, Subcategory.ToRow(fu.foodSubcategory));
    var lookup := store.FindSubcategory(lookupQuery, fu.foodSubcategory, like);
    if lookup.Failure? {
      return fu, Some(lookup.error);
    }
    var parent := lookup.value;
    result := fu.(foodSubcategory := parent);
    if parent.id == 0 {
      return result, Some(ParentNotFound(SubcategoryRepository.ParentNotFoundMessage));
    }
    ParentLookupMeaning(store.Tables(), like, fu, Subcategory.ToRow(parent));
    result := result.(foodSubcategoryId := parent.id);
    var created, rows;
    created, rows, err := store.CreateUnit(ToRow(result));
    result := result.(id := created.id);
  }

  /**
   * The query delSubCategory hands to Delete(&fu): the subcategory filter, then
   * JoinUnit; Delete adds the key of `fu` and, as every gorm DELETE, drops the join.
   */
  function DelUnitQuery(fu: FoodUnit): Query {
    WhereAll(JoinUnit(SubcategoryRepository.WhereSubcategories(Session, fu.foodSubcategory), fu),
             PrimaryKeyCondition(TableName, IdColumn, fu.id))
  }

  /** Accepts the units a successful delSubCategory keeps. */
  function Unmatching(like: (string, string) -> bool, fu: FoodUnit): (keep: Row -> bool)
    ensures forall r :: keep(r) <==> !Matches(like, fu, r)
  {
    (r: Row) => !Matches(like, fu, r)
  }

  lemma DelUnitQueryResolves(fu: FoodUnit)
    ensures DeleteResolves(FoodSchema, DelUnitQuery(fu), TableName)
        <==> fu.id == 0 && fu.foodSubcategory.id == 0 && fu.foodSubcategory.name == "" && fu.foodSubcategory.description == ""
    ensures DeleteResolves(FoodSchema, DelUnitQuery(fu), TableName) ==>
              (DelUnitQuery(fu).wheres == [] <==> fu.name == "" && fu.description == "")
  {
    var q0 := SubcategoryRepository.WhereSubcategories(Session, fu.foodSubcategory);
    var q1 := JoinUnit(q0, fu);
    var pk := PrimaryKeyCondition(TableName, IdColumn, fu.id);
    SubcategoryRepository.WhereSubcategoriesResolve(FoodSchema, {TableName}, Session, fu.foodSubcategory);
    WhereUnitResolve(FoodSchema, {TableName}, Joins(q0, SubcategoryJoin), fu);
    AllResolveAppend(FoodSchema, {TableName}, q1.wheres, pk);
  }

  lemma DelUnitQueryMeaning(db: Tables, like: (string, string) -> bool, fu: FoodUnit, r: Row)
    requires DeleteResolves(FoodSchema, DelUnitQuery(fu), TableName)
    ensures UnitSatisfies(db, like, DelUnitQuery(fu).wheres, r) <==> Matches(like, fu, r)
  {
    DelUnitQueryResolves(fu);
    var q0 := SubcategoryRepository.WhereSubcategories(Session, fu.foodSubcategory);
    assert q0 == Session;
    assert DelUnitQuery(fu).wheres == WhereUnit(Joins(Session, SubcategoryJoin), fu).wheres;
    WhereUnitMeaning(db, like, map[TableName := ToRecord(r)], Joins(Session, SubcategoryJoin), fu, r);
  }

  /**
   * delSubCategory: any subcategory field or a unit id in the filter names a
   * column outside food_units and fails; otherwise it deletes exactly the units
   * matching the unit filter, and an empty filter is refused.
   */
  method DelSubCategory(store: Store, fu: FoodUnit, like: (string, string) -> bool) returns (rows: int, err: Option<Error>)
    requires store.Valid()
    modifies store
    ensures store.Valid()
    ensures err == if !(fu.id == 0 && fu.foodSubcategory.id == 0 && fu.foodSubcategory.name == "" && fu.foodSubcategory.description == "")
                   then Some(UndefinedColumn)
                   else if fu.name == "" && fu.description == "" then Some(MissingWhereClause)
                   else None
    ensures err.None? ==> store.units == Filter(old(store.units), Unmatching(like, fu))
    ensures err.Some? ==> store.units == old(store.units)
    ensures rows == |old(store.units)| - |store.units|
    ensures store.categories == old(store.categories) && store.subcategories == old(store.subcategories)
  {
    var q := DelUnitQuery(fu);
    DelUnitQueryResolves(fu);
    var db := store.Tables();
    if DeleteResolves(FoodSchema, q, TableName) {
      forall r | r in store.units
        ensures KeepUnit(db, like, q.wheres)(r) == Unmatching(like, fu)(r)
      {
        DelUnitQueryMeaning(db, like, fu, r);
      }
      FilterCongruence(store.units, KeepUnit(db, like, q.wheres), Unmatching(like, fu));
    }
    rows, err := store.DeleteUnits(q, like);
  }

  /** The query getUnits runs. */
  function GetUnitsQuery(w: WrapperRequest<FoodUnit>): Query {
    Preload(WhereUnit(Scope(w, OrderByColumnsAllowed, Session), w.body), "FoodSubcategory")
  }

  /** getUnits: ToScope, the unit filter, and the preload. */
  method GetUnits(w: WrapperRequest<FoodUnit>) returns (q: Query)
    ensures q == GetUnitsQuery(w)
  {
    q := ToScope(w, OrderByColumnsAllowed, Session);
    q := WhereUnit(q, w.body);
    q := Preload(q, "FoodSubcategory");
  }

  /**
   * The clauses the whitelist lets through name columns of food_units, alone in
   * scope, exactly when no entry orders by "id".
   */
  lemma OrdersResolve(obs: seq<OrderBy>)
    ensures (forall k | 0 <= k < |OrderClauses(obs, OrderByColumnsAllowed)| ::
               OrderColumnResolves(FoodSchema, {TableName}, Columns, ClauseColumn(OrderClauses(obs, OrderByColumnsAllowed)[k])))
        <==> forall o | o in obs :: o.field != "id"
  {
    var clauses := OrderClauses(obs, OrderByColumnsAllowed);
    if o :| o in obs && o.field == "id" {
      OrderFieldNamed(obs, OrderByColumnsAllowed, o);
      var k :| 0 <= k < |clauses| && ClauseColumn(clauses[k]) == "id";
      assert !OrderColumnResolves(FoodSchema, {TableName}, Columns, "id");
    } else {
      forall k | 0 <= k < |clauses|
        ensures ClauseColumn(clauses[k]) in Columns
      {
        OrderClauseColumn(obs, OrderByColumnsAllowed, k);
      }
    }
  }

  /**
   * The SELECT of getUnits resolves exactly when the body has no id and the
   * request does not order by "id": the whitelist lets that name through, but
   * food_units has no such column and nothing is joined. It then yields the
   * stored units matching the body; the body's subcategory (and its category)
   * contributes no predicate.
   */
  lemma GetUnitsMeaning(db: Tables, like: (string, string) -> bool, w: WrapperRequest<FoodUnit>, r: Row, parent: Subcategory.FoodSubcategory)
    ensures ReadResolves(FoodSchema, GetUnitsQuery(w), TableName)
        <==> w.body.id == 0 && forall o | o in w.orderBy :: o.field != "id"
    ensures w.body.id == 0 ==>
              (Selected(db, like, GetUnitsQuery(w), TableName, map[TableName := ToRecord(r)])
               <==> ToRecord(r) in Rows(db, TableName) && Matches(like, w.body, r))
    ensures GetUnitsQuery(w.(body := w.body.(foodSubcategory := parent))) == GetUnitsQuery(w)
    ensures GetUnitsQuery(w).preloads == ["FoodSubcategory"]
    ensures GetUnitsQuery(w).orders == OrderClauses(w.orderBy, OrderByColumnsAllowed)
  {
    var q0 := Scope(w, OrderByColumnsAllowed, Session);
    var q := GetUnitsQuery(w);
    assert q.joins == [] && JoinTables(q.joins) == {};
    WhereUnitResolve(FoodSchema, {TableName}, q0, w.body);
    if w.body.id == 0 {
      WhereUnitMeaning(db, like, map[TableName := ToRecord(r)], q0, w.body, r);
    }
    assert q.orders == OrderClauses(w.orderBy, OrderByColumnsAllowed);
    assert OutputColumns(FoodSchema, q, TableName) == Columns;
    OrdersResolve(w.orderBy);
  }

  /** The query doGetUnit returns. */
  function DoGetUnitQuery(w: WrapperRequest<FoodUnit>): Query {
    Where(Scope(w, OrderByColumnsAllowed, Session),
          Equals(Column(Subcategory.TableName, "name"), TextValue(w.body.foodSubcategory.name)))
  }

  /** doGetUnit: ToScope, then a predicate on the subcategory's name, whatever that name is. */
  method DoGetUnit(w: WrapperRequest<FoodUnit>) returns (q: Query)
    ensures q == DoGetUnitQuery(w)
  {
    q := ToScope(w, OrderByColumnsAllowed, Session);
    q := Where(q, Equals(Column(Subcategory.TableName, "name"), TextValue(w.body.foodSubcategory.name)));
  }

  /** food_subcategories is never joined, so the query never resolves as a SELECT on food_units. */
  lemma DoGetUnitNeverResolves(w: WrapperRequest<FoodUnit>)
    ensures !ReadResolves(FoodSchema, DoGetUnitQuery(w), TableName)
    ensures |DoGetUnitQuery(w).wheres| == 1
  {
    var q := DoGetUnitQuery(w);
    assert q.joins == [] && JoinTables(q.joins) == {};
    assert q.wheres[0] == Equals(Column(Subcategory.TableName, "name"), TextValue(w.body.foodSubcategory.name));
  }
}
