/**
 * The relational store behind gorm: one sequence of rows per table, the table
 * schema that AutoMigrate derives from the three models, and the statements the
 * repositories issue (INSERT, DELETE, and a SELECT that scans its first row
 * into a struct). The store keeps primary keys and the unique names distinct.
 */
module Database {
  import opened Wrappers
  import opened Gorm
  import Category = CategoryModel
  import Subcategory = SubcategoryModel
  import Unit = UnitModel

  const FoodSchema: Schema := map[
    Category.TableName := Category.Columns,
    Subcategory.TableName := Subcategory.Columns,
    Unit.TableName := Unit.Columns]

  // ------------------------------------------------------------ key columns

  function Keys<T, K>(s: seq<T>, key: T -> K): (r: seq<K>)
    ensures |r| == |s|
    ensures forall i | 0 <= i < |s| :: r[i] == key(s[i])
  {
    seq(|s|, i requires 0 <= i < |s| => key(s[i]))
  }

  predicate Distinct<K(==)>(keys: seq<K>) {
    forall i, j | 0 <= i < j < |keys| :: keys[i] != keys[j]
  }

  lemma KeysAppend<T, K>(s: seq<T>, x: T, key: T -> K)
    ensures Keys(s + [x], key) == Keys(s, key) + [key(x)]
  {
  }

  lemma DistinctAppend<K>(keys: seq<K>, k: K)
    requires Distinct(keys) && k !in keys
    ensures Distinct(keys + [k])
  {
  }

  /** Removing rows keeps a key column distinct. */
  lemma {:induction false} FilterKeepsDistinct<T(!new), K>(s: seq<T>, keep: T -> bool, key: T -> K)
    ensures Distinct(Keys(s, key)) ==> Distinct(Keys(Filter(s, keep), key))
  {
    if |s| > 0 && Distinct(Keys(s, key)) {
      assert Distinct(Keys(s[1..], key)) by {
        forall i, j | 0 <= i < j < |s[1..]| ensures key(s[1..][i]) != key(s[1..][j]) {
          assert s[1..][i] == s[i + 1] && s[1..][j] == s[j + 1];
        }
      }
      FilterKeepsDistinct(s[1..], keep, key);
      var rest := Filter(s[1..], keep);
      if keep(s[0]) {
        assert Filter(s, keep) == [s[0]] + rest;
        forall k | 0 <= k < |rest| ensures key(rest[k]) != key(s[0]) {
          assert rest[k] in s[1..];
          var m :| 0 <= m < |s[1..]| && s[1..][m] == rest[k];
          assert Keys(s, key)[m + 1] == key(rest[k]);
        }
      }
    }
  }

  /** The id a serial primary key hands out: larger than every id in the table. */
  function FreshId(ids: seq<int>): (n: int)
    ensures n > 0
    ensures forall i | 0 <= i < |ids| :: ids[i] < n
  {
    if |ids| == 0 then 1
    else
      var m := FreshId(ids[1..]);
      assert forall i | 1 <= i < |ids| :: ids[i] == ids[1..][i - 1];
      if ids[0] >= m then ids[0] + 1 else m
  }

  /** An INSERT fails on a taken primary key first, then on a taken unique name. */
  function CreateOutcome(ids: seq<int>, names: seq<string>, id: int, name: string,
                         table: string, idColumn: string, nameColumn: string): (r: Option<Error>)
    ensures r == None <==> id !in ids && name !in names
    ensures id in ids ==> r == Some(UniqueViolation(table, idColumn))
    ensures id !in ids && name in names ==> r == Some(UniqueViolation(table, nameColumn))
  {
    if id in ids then Some(UniqueViolation(table, idColumn))
    else if name in names then Some(UniqueViolation(table, nameColumn))
    else None
  }

  /**
   * A DELETE fails when a predicate names a column outside the table (gorm
   * drops the joins from a DELETE), and gorm refuses one without conditions.
   */
  function DeleteOutcome(q: Query, table: string): (r: Option<Error>)
    ensures r == None <==> DeleteResolves(FoodSchema, q, table) && q.wheres != []
    ensures !DeleteResolves(FoodSchema, q, table) ==> r == Some(UndefinedColumn)
  {
    if !DeleteResolves(FoodSchema, q, table) then Some(UndefinedColumn)
    else if q.wheres == [] then Some(MissingWhereClause)
    else None
  }

  // ---------------------------------------------------------- row predicates

  function CategoryId(c: Category.FoodCategory): int { c.id }
  function CategoryName(c: Category.FoodCategory): string { c.name }
  function SubcategoryId(r: Subcategory.Row): int { r.id }
  function SubcategoryName(r: Subcategory.Row): string { r.name }
  function UnitId(r: Unit.Row): int { r.id }
  function UnitName(r: Unit.Row): string { r.name }

  /** The WHERE clause holds on this category row. */
  predicate CategorySatisfies(db: Tables, like: (string, string) -> bool, wheres: seq<Predicate>, c: Category.FoodCategory) {
    AllHold(db, like, map[Category.TableName := Category.ToRecord(c)], wheres)
  }

  predicate SubcategorySatisfies(db: Tables, like: (string, string) -> bool, wheres: seq<Predicate>, r: Subcategory.Row) {
    AllHold(db, like, map[Subcategory.TableName := Subcategory.ToRecord(r)], wheres)
  }

  predicate UnitSatisfies(db: Tables, like: (string, string) -> bool, wheres: seq<Predicate>, r: Unit.Row) {
    AllHold(db, like, map[Unit.TableName := Unit.ToRecord(r)], wheres)
  }

  /** The rows a DELETE leaves: those on which the WHERE clause does not hold. */
  function KeepCategory(db: Tables, like: (string, string) -> bool, wheres: seq<Predicate>): (keep: Category.FoodCategory -> bool)
    ensures forall x :: keep(x) <==> !CategorySatisfies(db, like, wheres, x)
  {
    (c: Category.FoodCategory) => !CategorySatisfies(db, like, wheres, c)
  }

  function KeptCategories(db: Tables, like: (string, string) -> bool, wheres: seq<Predicate>, s: seq<Category.FoodCategory>): (r: seq<Category.FoodCategory>)
    ensures Distinct(Keys(s, CategoryId)) ==> Distinct(Keys(r, CategoryId))
    ensures Distinct(Keys(s, CategoryName)) ==> Distinct(Keys(r, CategoryName))
  {
    var keep := KeepCategory(db, like, wheres);
    FilterKeepsDistinct(s, keep, CategoryId);
    FilterKeepsDistinct(s, keep, CategoryName);
    Filter(s, keep)
  }

  /** Accepts the rows on which the WHERE clause does not hold. */
  function KeepSubcategory(db: Tables, like: (string, string) -> bool, wheres: seq<Predicate>): (keep: Subcategory.Row -> bool)
    ensures forall x :: keep(x) <==> !SubcategorySatisfies(db, like, wheres, x)
  {
    (r: Subcategory.Row) => !SubcategorySatisfies(db, like, wheres, r)
  }

  function KeptSubcategories(db: Tables, like: (string, string) -> bool, wheres: seq<Predicate>, s: seq<Subcategory.Row>): (r: seq<Subcategory.Row>)
    ensures Distinct(Keys(s, SubcategoryId)) ==> Distinct(Keys(r, SubcategoryId))
    ensures Distinct(Keys(s, SubcategoryName)) ==> Distinct(Keys(r, SubcategoryName))
  {
    var keep := KeepSubcategory(db, like, wheres);
    FilterKeepsDistinct(s, keep, SubcategoryId);
    FilterKeepsDistinct(s, keep, SubcategoryName);
    Filter(s, keep)
  }

  /** Accepts the rows on which the WHERE clause does not hold. */
  function KeepUnit(db: Tables, like: (string, string) -> bool, wheres: seq<Predicate>): (keep: Unit.Row -> bool)
    ensures forall x :: keep(x) <==> !UnitSatisfies(db, like, wheres, x)
  {
    (r: Unit.Row) => !UnitSatisfies(db, like, wheres, r)
  }

  function KeptUnits(db: Tables, like: (string, string) -> bool, wheres: seq<Predicate>, s: seq<Unit.Row>): (r: seq<Unit.Row>)
    ensures Distinct(Keys(s, UnitId)) ==> Distinct(Keys(r, UnitId))
    ensures Distinct(Keys(s, UnitName)) ==> Distinct(Keys(r, UnitName))
  {
    var keep := KeepUnit(db, like, wheres);
    FilterKeepsDistinct(s, keep, UnitId);
    FilterKeepsDistinct(s, keep, UnitName);
    Filter(s, keep)
  }

  class Store {
    var categories: seq<Category.FoodCategory>
    var subcategories: seq<Subcategory.Row>
    var units: seq<Unit.Row>

    /** Primary keys and unique names are distinct in every table. */
    ghost predicate Valid()
      reads this
    {
      && Distinct(Keys(categories, CategoryId)) && Distinct(Keys(categories, CategoryName))
      && Distinct(Keys(subcategories, SubcategoryId)) && Distinct(Keys(subcategories, SubcategoryName))
      && Distinct(Keys(units, UnitId)) && Distinct(Keys(units, UnitName))
    }

    /** The tables as column maps, as the query semantics sees them. */
    function Tables(): Tables
      reads this
    {
      map[Category.TableName := Keys(categories, Category.ToRecord),
          Subcategory.TableName := Keys(subcategories, Subcategory.ToRecord),
          Unit.TableName := Keys(units, Unit.ToRecord)]
    }

    constructor ()
      ensures Valid()
      ensures categories == [] && subcategories == [] && units == []
    {
      categories := [];
      subcategories := [];
      units := [];
    }

    /**
     * INSERT INTO food_categories: a zero id is replaced by a fresh one; the row
     * is refused when its id or name is taken, and nothing changes then.
     */
    method CreateCategory(c: Category.FoodCategory) returns (created: Category.FoodCategory, rows: int, err: Option<Error>)
      requires Valid()
      modifies this
      ensures Valid()
      ensures var id := if c.id != 0 then c.id else FreshId(Keys(old(categories), CategoryId));
              err == CreateOutcome(Keys(old(categories), CategoryId), Keys(old(categories), CategoryName), id, c.name,
                                   Category.TableName, Category.IdColumn, Category.NameColumn)
              && (err.None? ==> created == c.(id := id))
      ensures err.None? ==> categories == old(categories) + [created] && rows == 1
      ensures err.Some? ==> categories == old(categories) && created == c && rows == 0
      ensures subcategories == old(subcategories) && units == old(units)
    {
      var ids := Keys(categories, CategoryId);
      var id := if c.id != 0 then c.id else FreshId(ids);
      err := CreateOutcome(ids, Keys(categories, CategoryName), id, c.name,
                           Category.TableName, Category.IdColumn, Category.NameColumn);
      if err.Some? {
        created, rows := c, 0;
        return;
      }
      created := c.(id := id);
      KeysAppend(categories, created, CategoryId);
      KeysAppend(categories, created, CategoryName);
      DistinctAppend(ids, id);
      DistinctAppend(Keys(categories, CategoryName), c.name);
      categories := categories + [created];
      rows := 1;
    }

    /** INSERT INTO food_subcategories, as CreateCategory. */
    method CreateSubcategory(r: Subcategory.Row) returns (created: Subcategory.Row, rows: int, err: Option<Error>)
      requires Valid()
      modifies this
      ensures Valid()
      ensures var id := if r.id != 0 then r.id else FreshId(Keys(old(subcategories), SubcategoryId));
              err == CreateOutcome(Keys(old(subcategories), SubcategoryId), Keys(old(subcategories), SubcategoryName), id, r.name,
                                   Subcategory.TableName, Subcategory.IdColumn, Subcategory.NameColumn)
              && (err.None? ==> created == r.(id := id))
      ensures err.None? ==> subcategories == old(subcategories) + [created] && rows == 1
      ensures err.Some? ==> subcategories == old(subcategories) && created == r && rows == 0
      ensures categories == old(categories) && units == old(units)
    {
      var ids := Keys(subcategories, SubcategoryId);
      var id := if r.id != 0 then r.id else FreshId(ids);
      err := CreateOutcome(ids, Keys(subcategories, SubcategoryName), id, r.name,
                           Subcategory.TableName, Subcategory.IdColumn, Subcategory.NameColumn);
      if err.Some? {
        created, rows := r, 0;
        return;
      }
      created := r.(id := id);
      KeysAppend(subcategories, created, SubcategoryId);
      KeysAppend(subcategories, created, SubcategoryName);
      DistinctAppend(ids, id);
      DistinctAppend(Keys(subcategories, SubcategoryName), r.name);
      subcategories := subcategories + [created];
      rows := 1;
    }

    /** INSERT INTO food_units, as CreateCategory. */
    method CreateUnit(r: Unit.Row) returns (created: Unit.Row, rows: int, err: Option<Error>)
      requires Valid()
      modifies this
      ensures Valid()
      ensures var id := if r.id != 0 then r.id else FreshId(Keys(old(units), UnitId));
              err == CreateOutcome(Keys(old(units), UnitId), Keys(old(units), UnitName), id, r.name,
                                   Unit.TableName, Unit.IdColumn, Unit.NameColumn)
              && (err.None? ==> created == r.(id := id))
      ensures err.None? ==> units == old(units) + [created] && rows == 1
      ensures err.Some? ==> units == old(units) && created == r && rows == 0
      ensures categories == old(categories) && subcategories == old(subcategories)
    {
      var ids := Keys(units, UnitId);
      var id := if r.id != 0 then r.id else FreshId(ids);
      err := CreateOutcome(ids, Keys(units, UnitName), id, r.name,
                           Unit.TableName, Unit.IdColumn, Unit.NameColumn);
      if err.Some? {
        created, rows := r, 0;
        return;
      }
      created := r.(id := id);
      KeysAppend(units, created, UnitId);
      KeysAppend(units, created, UnitName);
      DistinctAppend(ids, id);
      DistinctAppend(Keys(units, UnitName), r.name);
      units := units + [created];
      rows := 1;
    }

    /**
     * DELETE FROM food_categories WHERE ...: the rows the clause holds on go,
     * evaluated against the tables as they were before the statement.
     */
    method DeleteCategories(q: Query, like: (string, string) -> bool) returns (rows: int, err: Option<Error>)
      requires Valid()
      modifies this
      ensures Valid()
      ensures err == DeleteOutcome(q, Category.TableName)
      ensures err.Some? ==> categories == old(categories)
      ensures err.None? ==> categories == KeptCategories(old(Tables()), like, q.wheres, old(categories))
      ensures rows == |old(categories)| - |categories|
      ensures subcategories == old(subcategories) && units == old(units)
    {
      err := DeleteOutcome(q, Category.TableName);
      if err.Some? {
        rows := 0;
        return;
      }
      var kept := KeptCategories(Tables(), like, q.wheres, categories);
      rows := |categories| - |kept|;
      categories := kept;
    }

    /** DELETE FROM food_subcategories WHERE ..., as DeleteCategories. */
    method DeleteSubcategories(q: Query, like: (string, string) -> bool) returns (rows: int, err: Option<Error>)
      requires Valid()
      modifies this
      ensures Valid()
      ensures err == DeleteOutcome(q, Subcategory.TableName)
      ensures err.Some? ==> subcategories == old(subcategories)
      ensures err.None? ==> subcategories == KeptSubcategories(old(Tables()), like, q.wheres, old(subcategories))
      ensures rows == |old(subcategories)| - |subcategories|
      ensures categories == old(categories) && units == old(units)
    {
      err := DeleteOutcome(q, Subcategory.TableName);
      if err.Some? {
        rows := 0;
        return;
      }
      var kept := KeptSubcategories(Tables(), like, q.wheres, subcategories);
      rows := |subcategories| - |kept|;
      subcategories := kept;
    }

    /** DELETE FROM food_units WHERE ..., as DeleteCategories. */
    method DeleteUnits(q: Query, like: (string, string) -> bool) returns (rows: int, err: Option<Error>)
      requires Valid()
      modifies this
      ensures Valid()
      ensures err == DeleteOutcome(q, Unit.TableName)
      ensures err.Some? ==> units == old(units)
      ensures err.None? ==> units == KeptUnits(old(Tables()), like, q.wheres, old(units))
      ensures rows == |old(units)| - |units|
      ensures categories == old(categories) && subcategories == old(subcategories)
    {
      err := DeleteOutcome(q, Unit.TableName);
      if err.Some? {
        rows := 0;
        return;
      }
      var kept := KeptUnits(Tables(), like, q.wheres, units);
      rows := |units| - |kept|;
      units := kept;
    }

    /**
     * Find(&dest) on food_categories: gorm adds dest's primary key when it is
     * non-zero and scans the first matching row into dest; with no match dest
     * keeps its value.
     */
    function FindCategory(q: Query, dest: Category.FoodCategory, like: (string, string) -> bool): (r: Result<Category.FoodCategory>)
      requires q.joins == []
      reads this
      ensures r.Failure? <==> !ReadResolves(FoodSchema, q, Category.TableName)
      ensures r.Failure? ==> r.error == UndefinedColumn
      ensures var wheres := q.wheres + PrimaryKeyCondition(Category.TableName, Category.IdColumn, dest.id);
              r.Success? ==>
                if exists c | c in categories :: CategorySatisfies(Tables(), like, wheres, c)
                then exists k | 0 <= k < |categories| ::
                       && r.value == categories[k]
                       && CategorySatisfies(Tables(), like, wheres, categories[k])
                       && forall m | 0 <= m < k :: !CategorySatisfies(Tables(), like, wheres, categories[m])
                else r.value == dest
    {
      var pk := PrimaryKeyCondition(Category.TableName, Category.IdColumn, dest.id);
      var wheres := q.wheres + pk;
      AllResolveAppend(FoodSchema, {Category.TableName}, q.wheres, pk);
      if !ReadResolves(FoodSchema, q, Category.TableName) then Failure(UndefinedColumn)
      else
        var db := Tables();
        var found := First(categories, (c: Category.FoodCategory) => CategorySatisfies(db, like, wheres, c));
        Success(found.GetOr(dest))
    }

    /**
     * Find(&dest) on food_subcategories, as FindCategory; the columns of the
     * row replace those of dest and dest's FoodCategory is kept.
     */
    function FindSubcategory(q: Query, dest: Subcategory.FoodSubcategory, like: (string, string) -> bool): (r: Result<Subcategory.FoodSubcategory>)
      requires q.joins == []
      reads this
      ensures r.Failure? <==> !ReadResolves(FoodSchema, q, Subcategory.TableName)
      ensures r.Failure? ==> r.error == UndefinedColumn
      ensures r.Success? ==> r.value.foodCategory == dest.foodCategory
      ensures var wheres := q.wheres + PrimaryKeyCondition(Subcategory.TableName, Subcategory.IdColumn, dest.id);
              r.Success? ==>
                if exists s | s in subcategories :: SubcategorySatisfies(Tables(), like, wheres, s)
                then exists k | 0 <= k < |subcategories| ::
                       && Subcategory.ToRow(r.value) == subcategories[k]
                       && SubcategorySatisfies(Tables(), like, wheres, subcategories[k])
                       && forall m | 0 <= m < k :: !SubcategorySatisfies(Tables(), like, wheres, subcategories[m])
                else r.value == dest
    {
      var pk := PrimaryKeyCondition(Subcategory.TableName, Subcategory.IdColumn, dest.id);
      var wheres := q.wheres + pk;
      AllResolveAppend(FoodSchema, {Subcategory.TableName}, q.wheres, pk);
      if !ReadResolves(FoodSchema, q, Subcategory.TableName) then Failure(UndefinedColumn)
      else
        var db := Tables();
        var found := First(subcategories, (s: Subcategory.Row) => SubcategorySatisfies(db, like, wheres, s));
        match found
        case None => Success(dest)
        case Some(s) => Success(Subcategory.FoodSubcategory(s.id, s.name, s.description, s.foodCategoryId, dest.foodCategory))
    }
  }
}
