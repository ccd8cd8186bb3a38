# go-home food catalogue: query composition, cascade writes and logger configuration

A Dafny model of the backend core of go-home. The backend keeps a three-level food
hierarchy: categories, subcategories and units. The model covers:

- **Request scope** (`backend/api/utils`): parsing `limit`, `skip` and `order_by`
  query parameters with defaults and bounds. `Direction` and `"field direction"`
  tokens. `WrapperRequest.ToScope`, which applies the per-entity order-by
  whitelist, then OFFSET, then LIMIT.
- **Entity filters and the store** (`backend/api/food/*`): the three records, their
  tables and whitelists. The `Where*`, `Join*`, `Subquery*` and `SelectWhere*` query
  builders. The create, delete and list operations, including the cascade creates
  `addSubcategory` and `addUnit`, which resolve the parent first.
- **Logger configuration** (`backend/internals/config/config.go`): the
  case-folding, closed-set parsers `DateTimeFormat` and `LoggerLevel` (`Set`,
  `unmarshal`, `String`), and `NewLogger` with its appender constructors.

gorm is modelled abstractly (module `Gorm`). A query is a record of:
- the table and projection;
- the ANDed WHERE predicates (`Equals`, `Like`, `In` with a subquery);
- the JOINs, the ORDER BY clause texts, OFFSET, LIMIT and the preloads.

Its meaning has two parts, as in SQL:
1. **Resolution.** A static check that each column a predicate names belongs to a
   table in scope. An ORDER BY name must also resolve: either to an output column of
   the SELECT, or to a column of a table in scope. A statement that fails it is refused
   by the store with `UndefinedColumn`.
2. **Evaluation.** A truth value of each predicate on a tuple of rows. `LIKE` is left
   uninterpreted: it is the parameter `like`.

The store (`Database.Store`) is a class with one sequence of rows per table. It keeps
the primary keys and the unique names distinct (`Valid`). It follows gorm's rules:
- INSERT hands out a fresh id for an id of 0.
- DELETE builds `DELETE FROM table WHERE ...` from the predicates only, dropping the
  joins, and refuses a DELETE without conditions.
- Find into a struct adds the struct's non-zero primary key, scans the first matching
  row, and leaves the struct unchanged when nothing matches.
  - A Find without ORDER BY fixes no row order in SQL.
  - The model picks the earliest matching row in store order (`Gorm.First`).
  - At the call sites the filter includes the unique name, so at most one row matches
    and the choice matters there only for a filter without one.

Go's `strings.Split`, `strings.ToLower` (ASCII) and `strconv.Atoi` are modelled in
`GoText`. Go's `int` is unbounded here, except that `Atoi` accepts only 64-bit values.

## Behaviour as written

The model follows the code where it departs from what the design evidently intends.
Each behaviour below is stated by a lemma:

- **Direction text.** Only `asc`/`ASC`/`desc`/`DESC` are recognised. A token
  `"field Desc"` is accepted with direction ASC (`UtilsModel.DirectionMixedCaseRejected`,
  `UtilsModel.ParseOrderByAccepted`).
- **No whitelist in ParseRequest.** `ParseRequest` keeps every token that parses,
  whitelisted or not. Only `ToScope` drops fields outside the whitelist
  (`UtilsModel.ParseRequest`, `UtilsRepository.OrderClausesMembers`).
- **Description as a LIKE pattern.** The filters match descriptions with LIKE, using
  the raw filter value as the pattern (`CategoryRepository.Matches` and the other two).
- **`WhereSubcategories` id predicate.** It names `food_subcategories.id`, but the
  primary-key column is `food_subcategory_id`. So:
  - every statement that uses it with a non-zero id is refused;
  - `delSubcategory` with an id fails;
  - the parent lookup of `addUnit` fails when the subcategory has an id
    (`SubcategoryRepository.WhereSubcategoriesResolve`,
    `SubcategoryRepository.DelSubcategory`, `UnitRepository.AddUnit`).
  `WhereUnit` has the same defect with `food_units.id`.
- **`JoinUnit`.** It joins on `food_subcategories.id = food_units.id`, and neither is a
  column, so no SELECT using it resolves (`UnitRepository.JoinUnitNeverResolves`).
  - DELETE drops joins, so `delSubCategory` still resolves, but only when the unit has
    no id and the subcategory filter is empty. The join's parent constraint is then
    lost: it deletes every unit matching the unit filter, whatever its parent.
  - With an empty unit filter it is refused as a DELETE without WHERE
    (`UnitRepository.DelSubCategory`).
- **No ancestor filter in `getUnits`.** The body's subcategory and category add no
  predicate (`UnitRepository.GetUnitsMeaning`).
- **`doGetUnit`.** It filters on `food_subcategories.name` without joining that table,
  so its query never resolves (`UnitRepository.DoGetUnitNeverResolves`).
- **Orderable "id".** The subcategory and unit whitelists allow `"id"`, which is not a
  column of either table (`SubcategoryModel.OrderableColumns`,
  `UnitModel.OrderableColumns`).
  - `getUnits` joins nothing, so a request ordered by `"id"` names no column and is
    refused (`UnitRepository.GetUnitsMeaning`, `UnitRepository.OrdersResolve`).
  - `getSubcategories` joins `food_categories`, so ordering by `"id"` resolves to the
    parent category's id: the subcategories are sorted by their parent
    (`SubcategoryRepository.GetSubcategoriesResolves`).
- **Parent lookup in `addSubcategory` cannot fail.** The category filter only names
  columns of `food_categories`, so the lookup always resolves. Its error branch is
  unreachable in the model.
- **Dangling parent id in `addSubcategory`.** Take a declared category id that is
  non-zero but belongs to no stored category. Find then matches nothing and leaves the
  embedded category as it was, so its id stays non-zero. The subcategory is then
  created with that `food_category_id` (`SubcategoryRepository.AddSubcategory`). The
  store does not model foreign keys, so nothing refuses it.
- **`DateTimeFormat` as written.** The class `Config.DateTimeFormatVar` follows the
  source: `Set` refuses `"rfc1123z"`, and `String` of RFC1123Z is `""`. The corrected
  functions are the corrected half of the finding below.

## Model

| member | source | states |
|---|---|---|
| GoText.Split | backend/api/utils/model.go:140 | strings.Split: one more part than separators, no part contains the separator |
| GoText.JoinSplit | backend/api/utils/model.go:140 | joining the parts of Split with the separator gives back the input |
| GoText.SplitSingleSeparator | backend/api/utils/model.go:140-147 | with exactly one separator, Split gives the text before and after it |
| GoText.ToLower | backend/internals/config/config.go:161 | strings.ToLower on ASCII: same length, every letter lower-cased, no upper-case letter left |
| GoText.ToLowerOfLower | backend/internals/config/config.go:161 | a text without upper-case letters is its own lower-case form |
| GoText.Atoi | backend/api/utils/number_parser.go:14-17 | strconv.Atoi: only 64-bit values, and only texts starting with a digit or sign are accepted |
| GoText.AtoiItoa | backend/api/utils/number_parser.go:14 | Atoi reads back the decimal text of every 64-bit number |
| GoText.AtoiRejectsNonDigit | backend/api/utils/number_parser_test.go:45-57 | a text with a non-digit (after an optional sign) is rejected, as "hello world" is |
| NumberParser.ParseNumber | backend/api/utils/number_parser.go:13-28 | default when Atoi fails or a filter rejects; otherwise the parsed value satisfying every filter; with no filter, the parsed value |
| NumberParser.Boundaries | backend/api/utils/number_parser.go:30-34 | accepts x exactly when min <= x <= max, both ends included |
| NumberParser.AllAcceptOne | backend/api/utils/number_parser.go:21-25 | a single filter is passed exactly when it accepts |
| NumberParser.ParseNumberBounded | backend/api/utils/number_parser.go:13-34 | with Boundaries(min, max): the parsed value when inside the bounds, else the default |
| NumberParser.ParseNumberWithin | backend/api/utils/number_parser.go:13-34 | with a default inside the bounds, the result always lies inside the bounds |
| NumberParser.ParseNumberOfItoa | backend/api/utils/number_parser.go:13-34 | the decimal text of a 64-bit number parses to itself when in bounds, else to the default |
| NumberParser.BoundariesExamples | backend/api/utils/number_parser_test.go:9-57 | "0" and "120" give 50, "30" gives 30 under Boundaries(1, 100); "hello world" gives the default |
| UtilsModel.Direction.String | backend/api/utils/model.go:78-89 | "ASC" exactly for asc, "DESC" exactly for desc, never a space |
| UtilsModel.DirectionFromInt | backend/api/utils/model.go:53-63 | 0 gives asc, 1 gives desc, every other integer is refused |
| UtilsModel.DirectionFromText | backend/api/utils/model.go:65-75 | accepted exactly for asc/ASC/desc/DESC; desc for the latter two |
| UtilsModel.DirectionTextRoundTrip | backend/api/utils/model.go:65-89 | unmarshalText reads back what String writes |
| UtilsModel.DirectionMixedCaseRejected | backend/api/utils/model.go:65-75 | "Desc" and "Asc" are not recognised |
| UtilsModel.DirectionVar.constructor | backend/api/utils/model.go:32-35 | the zero value is asc |
| UtilsModel.DirectionVar.Set | backend/api/utils/model.go:46-51 | errInvalidDirection exactly when unmarshal refuses; the value changes only on acceptance |
| UtilsModel.DirectionVar.Unmarshal | backend/api/utils/model.go:53-63 | true exactly for 0 and 1, storing asc or desc; otherwise the value is unchanged |
| UtilsModel.DirectionVar.UnmarshalText | backend/api/utils/model.go:65-75 | true exactly for the four spellings, storing the direction; otherwise the value is unchanged |
| UtilsModel.ParseOrderBy | backend/api/utils/model.go:138-155 | accepted exactly when the token has one space; field is the text before it; desc exactly when the text after it is desc/DESC; errInvalidOrderBy otherwise |
| UtilsModel.OrderByRoundTrip | backend/api/utils/model.go:103-105 | a sort instruction whose field has no space parses back from its clause text |
| UtilsModel.ParsedOrderBys | backend/api/utils/model.go:122-136 | no more instructions than tokens |
| UtilsModel.ParsedOrderBysAppend | backend/api/utils/model.go:128-133 | parsing a concatenation is the concatenation of the parses: input order is kept |
| UtilsModel.ParsedOrderBysMembers | backend/api/utils/model.go:128-133 | an instruction is in the result exactly when some token parses to it |
| UtilsModel.ParsedOrderBysAllValid | backend/api/utils/model.go:122-136 | when every token parses, the result is the token-wise parse |
| UtilsModel.ParseArrOrderBy | backend/api/utils/model.go:122-136 | the filled prefix of the result array is exactly the parses of the accepted tokens, in order |
| UtilsModel.ParseOrderByAccepted | backend/api/utils/model_test.go:145-163 | "field_1 desc" and "field_2 asc" parse; an unknown direction gives asc |
| UtilsModel.ParseOrderByRejected | backend/api/utils/model_test.go:150-158 | a double space, "a sc" and "d e s c" are rejected |
| UtilsModel.ParseOrderByNoSpace | backend/api/utils/model.go:145-147 | a token without a space is rejected |
| UtilsModel.ParseRequest | backend/api/utils/model.go:113-120 | limit in [1, 100] else 50; skip in [0, MaxInt32] else 0; every parsed order-by token, not whitelisted; body unchanged |
| UtilsModel.ParseRequestWithLimit | backend/api/utils/model_test.go:180-189 | limit "20" and token "field_1 asc" give limit 20, skip 0 and that one instruction |
| UtilsModel.ParseRequestDefaultLimit | backend/api/utils/model_test.go:191-225 | an absent, too small or too large limit gives 50 |
| UtilsRepository.OrderClauses | backend/api/utils/repository.go:17-27 | no more clauses than entries |
| UtilsRepository.ApplyOrderBy | backend/api/utils/repository.go:17-27 | the loop appends exactly the clauses of the whitelisted entries and changes nothing else |
| UtilsRepository.ToScope | backend/api/utils/repository.go:13-15 | ordering, then offset, then limit, as the reference Scope |
| UtilsRepository.ScopeFields | backend/api/utils/repository.go:29-35 | offset and limit are exactly skip and limit; earlier clauses stay first; nothing else changes |
| UtilsRepository.OrderClausesAppend | backend/api/utils/repository.go:20-24 | kept entries keep their relative order |
| UtilsRepository.OrderClausesAreAllowedEntries | backend/api/utils/repository.go:20-24 | the clauses are, position by position, the clause texts of the whitelisted entries |
| UtilsRepository.OrderClausesMembers | backend/api/utils/repository.go:21-22 | a clause is emitted exactly when some entry's field is whitelisted and the clause is field + " " + ASC/DESC |
| UtilsRepository.OrderClauseColumn | backend/api/utils/repository.go:20-24 | each emitted clause names the field of a whitelisted entry |
| UtilsRepository.OrderFieldNamed | backend/api/utils/repository.go:20-24 | the field of each whitelisted entry is named by an emitted clause |
| UtilsRepository.OrderClauseColumns | backend/api/utils/repository.go:20-24 | the columns the clauses name are exactly the whitelisted fields requested |
| UtilsRepository.OrderClausesEmpty | backend/api/utils/repository.go:17-27 | an empty list or an empty whitelist adds no clause |
| UtilsRepository.OrderClauseParsesBack | backend/api/utils/repository.go:22 | the clause of a whitelisted field without a space parses back to its instruction |
| Gorm.AllHoldAppend | backend/api/food/category/repository.go:29-43 | chained Where calls are ANDed: the predicates of a concatenation hold exactly when both parts hold |
| Gorm.AllResolveAppend | backend/api/food/category/repository.go:29-43 | a concatenation resolves exactly when both parts resolve |
| Gorm.Filter | backend/api/food/category/repository.go:16-19 | the rows kept are exactly the stored rows the test accepts |
| Gorm.ClauseColumn | backend/api/utils/repository.go:22 | the column an ORDER BY clause names is its text before the first space, and has no space |
| Gorm.ClauseColumnOf | backend/api/utils/repository.go:22 | the clause field + " " + direction names the field, for a field without a space |
| Gorm.First | backend/api/food/subcategory/repository.go:15 | Find's first match: the earliest accepted row, or none when no row is accepted |
| CategoryModel.Unmatched | backend/api/food/category/model.go:10-27 | accepts exactly the categories the struct condition does not match |
| CategoryModel.ConditionsMeaning | backend/api/food/category/model.go:10-27 | gorm's struct condition holds on a row exactly when each non-zero field equals the row's |
| CategoryModel.ConditionsResolve | backend/api/food/category/model.go:14-26 | the struct condition names columns of food_categories only |
| CategoryModel.ConditionsOfZero | backend/api/food/category/model.go:10-27 | an all-zero value adds no condition |
| CategoryModel.OrderableColumns | backend/api/food/category/model.go:30-32 | the whitelist is inside the columns and leaves out description |
| SubcategoryModel.Unmatched | backend/api/food/subcategory/model.go:15-34 | accepts exactly the rows the struct condition does not match |
| SubcategoryModel.ConditionsMeaning | backend/api/food/subcategory/model.go:15-34 | the struct condition holds exactly when each non-zero column field equals the row's; the embedded category adds nothing |
| SubcategoryModel.ConditionsResolve | backend/api/food/subcategory/model.go:19-32 | the struct condition names columns of food_subcategories only |
| SubcategoryModel.OrderableColumns | backend/api/food/subcategory/model.go:37-39 | the whitelist is {"id", "name"}, and "id" is not a column: the key is food_subcategory_id |
| UnitModel.Unmatched | backend/api/food/unit/model.go:14-33 | accepts exactly the rows the struct condition does not match |
| UnitModel.ConditionsMeaning | backend/api/food/unit/model.go:14-33 | the struct condition holds exactly when each non-zero column field equals the row's |
| UnitModel.ConditionsResolve | backend/api/food/unit/model.go:18-31 | the struct condition names columns of food_units only |
| UnitModel.OrderableColumns | backend/api/food/unit/model.go:36-38 | the whitelist is {"id", "name"}, and "id" is not a column: the key is food_unit_id |
| Database.Keys | backend/api/food/category/model.go:14-20 | a key column: one key per row, in row order |
| Database.KeysAppend | backend/api/food/category/model.go:14-20 | appending a row appends its key |
| Database.DistinctAppend | backend/api/food/category/model.go:20 | a new key keeps a column distinct |
| Database.FilterKeepsDistinct | backend/api/food/category/model.go:14-20 | removing rows keeps a key column distinct |
| Database.FreshId | backend/api/food/category/model.go:14 | a serial key: positive and larger than every stored id |
| Database.CreateOutcome | backend/api/food/category/model.go:14-20 | an INSERT succeeds exactly when the key and the unique name are free; the key is checked first |
| Database.DeleteOutcome | backend/api/food/category/repository.go:17 | a DELETE succeeds exactly when its predicates resolve in the table and there is at least one |
| Database.KeepCategory | backend/api/food/category/repository.go:17 | a DELETE keeps exactly the rows its WHERE clause does not hold on |
| Database.KeepSubcategory | backend/api/food/subcategory/repository.go:27 | as KeepCategory, for food_subcategories |
| Database.KeepUnit | backend/api/food/unit/repository.go:27 | as KeepCategory, for food_units |
| Database.KeptCategories | backend/api/food/category/model.go:14-20 | the rows left keep the key and the name distinct |
| Database.KeptSubcategories | backend/api/food/subcategory/model.go:19-25 | the rows left keep the key and the name distinct |
| Database.KeptUnits | backend/api/food/unit/model.go:18-24 | the rows left keep the key and the name distinct |
| Database.Store.constructor | backend/api/food/category/model.go:10-27 | an empty, valid store |
| Database.Store.CreateCategory | backend/api/food/category/repository.go:12 | all or nothing: appends the row with a fresh id for 0, or refuses a taken key or name and changes nothing; keeps keys and names distinct |
| Database.Store.CreateSubcategory | backend/api/food/subcategory/repository.go:22 | as CreateCategory, for food_subcategories |
| Database.Store.CreateUnit | backend/api/food/unit/repository.go:22 | as CreateCategory, for food_units |
| Database.Store.DeleteCategories | backend/api/food/category/repository.go:17 | refused as DeleteOutcome says; otherwise removes exactly the rows the WHERE clause holds on, counts them, touches no other table |
| Database.Store.DeleteSubcategories | backend/api/food/subcategory/repository.go:27 | as DeleteCategories, for food_subcategories |
| Database.Store.DeleteUnits | backend/api/food/unit/repository.go:27 | as DeleteCategories, for food_units |
| Database.Store.FindCategory | backend/api/food/subcategory/repository.go:15 | fails exactly when the query does not resolve; else the first row satisfying the WHERE clause and dest's key, or dest when none does |
| Database.Store.FindSubcategory | backend/api/food/unit/repository.go:15 | as FindCategory; the row's columns replace dest's and dest's embedded category stays |
| CategoryRepository.WhereCategories | backend/api/food/category/repository.go:29-43 | appends one predicate per set field and changes nothing else; an all-zero filter adds none |
| CategoryRepository.WhereCategoriesMeaning | backend/api/food/category/repository.go:29-43 | the predicates hold on a row exactly when its id and name equal the set ones and its description is LIKE the set description |
| CategoryRepository.WhereCategoriesResolve | backend/api/food/category/repository.go:29-43 | the predicates resolve exactly when food_categories is in scope, or the filter is all zero |
| CategoryRepository.SelectWhereCategories | backend/api/food/category/repository.go:45-47 | reads food_categories with the given projection under the struct condition |
| CategoryRepository.SelectWhereCategoriesMeaning | backend/api/food/category/repository.go:45-47 | from a fresh session it resolves and selects exactly the categories matching the struct condition |
| CategoryRepository.AddCategory | backend/api/food/category/repository.go:11-14 | creates exactly the given row, returning rows affected and the store's error unchanged |
| CategoryRepository.DelCategoryWheresMeaning | backend/api/food/category/repository.go:16-19 | the WHERE clause holds exactly when the struct condition matches; it always resolves; it is empty exactly for the zero filter |
| CategoryRepository.DelCategory | backend/api/food/category/repository.go:16-19 | deletes exactly the categories matching every set field and counts them; the zero filter is refused without deleting |
| CategoryRepository.GetCategories | backend/api/food/category/repository.go:21-27 | the struct condition of the body, then ToScope |
| CategoryRepository.GetCategoriesMeaning | backend/api/food/category/repository.go:24 | always resolves, since both orderable names are columns; selects exactly the stored categories matching the body; whitelisted order, offset and limit |
| CategoryRepository.DescriptionNotOrderable | backend/api/food/category/model.go:30-32 | an order_by on description is dropped; the others stay in request order |
| SubcategoryRepository.WhereSubcategories | backend/api/food/subcategory/repository.go:39-53 | appends one predicate per set field, in the order id, name, description, and changes nothing else |
| SubcategoryRepository.WhereSubcategoriesResolve | backend/api/food/subcategory/repository.go:39-53 | resolves exactly when the filter has no id (food_subcategories.id is no column) and the table is in scope when needed |
| SubcategoryRepository.WhereSubcategoriesMeaning | backend/api/food/subcategory/repository.go:44-50 | without id: holds exactly when the name equals and the description is LIKE the set ones |
| SubcategoryRepository.JoinSubcategories | backend/api/food/subcategory/repository.go:55-58 | one join of food_categories on its id = food_category_id, then the category filter |
| SubcategoryRepository.SubquerySubcategories | backend/api/food/subcategory/repository.go:60-62 | one IN predicate on food_category_id over the ids the category struct condition selects |
| SubcategoryRepository.ParentInResolves | backend/api/food/subcategory/repository.go:60-62 | the IN predicate resolves wherever food_subcategories is in scope |
| SubcategoryRepository.ParentInMeaning | backend/api/food/subcategory/repository.go:60-62 | the IN predicate holds exactly when a stored category with the row's parent id matches the category struct condition |
| SubcategoryRepository.SelectWhereSubcategories | backend/api/food/subcategory/repository.go:64-66 | reads food_subcategories with the given projection under the subcategory filter |
| SubcategoryRepository.SelectWhereSubcategoriesResolves | backend/api/food/subcategory/repository.go:64-66 | resolves exactly when the filter has no id |
| SubcategoryRepository.ParentLookupMeaning | backend/api/food/subcategory/repository.go:15 | the parent lookup always resolves and accepts exactly the categories matching the category filter |
| SubcategoryRepository.AddSubcategory | backend/api/food/subcategory/repository.go:13-24 | a parent with id 0 after the lookup gives "joder bro" and no row; else it creates the subcategory bound to the found parent, all or nothing |
| SubcategoryRepository.DelSubcategoryKeeps | backend/api/food/subcategory/repository.go:26-29 | keeps exactly the subcategories that do not both match the filter and have a matching parent |
| SubcategoryRepository.DelSubcategoryWheresMeaning | backend/api/food/subcategory/repository.go:26-29 | without id: the WHERE clause holds exactly when the parent is a matching category and the row matches the filter |
| SubcategoryRepository.DelSubcategoryWheresResolve | backend/api/food/subcategory/repository.go:26-29 | the DELETE resolves exactly when the filter has no id; it is never empty |
| SubcategoryRepository.DelSubcategory | backend/api/food/subcategory/repository.go:26-29 | a filter with id fails; otherwise deletes exactly the matching subcategories with a matching parent and counts them |
| SubcategoryRepository.GetSubcategories | backend/api/food/subcategory/repository.go:31-37 | ToScope, the subcategory filter, the join with the category filter, then the preload |
| SubcategoryRepository.GetSubcategoriesResolves | backend/api/food/subcategory/repository.go:34 | resolves exactly when the body has no id; every whitelisted order name resolves, "id" to the joined parent's id |
| SubcategoryRepository.GetSubcategoriesMeaning | backend/api/food/subcategory/repository.go:34 | pairs each matching subcategory with its parent when the parent matches the category filter; preloads FoodCategory; whitelisted order, offset and limit |
| UnitRepository.WhereUnit | backend/api/food/unit/repository.go:39-53 | appends one predicate per set field, in the order id, name, description, and changes nothing else |
| UnitRepository.WhereUnitResolve | backend/api/food/unit/repository.go:39-53 | resolves exactly when the filter has no id (food_units.id is no column) |
| UnitRepository.WhereUnitMeaning | backend/api/food/unit/repository.go:44-50 | without id: holds exactly when the name equals and the description is LIKE the set ones |
| UnitRepository.JoinUnit | backend/api/food/unit/repository.go:55-58 | exactly one join, then the unit filter |
| UnitRepository.JoinUnitNeverResolves | backend/api/food/unit/repository.go:56 | the join names food_subcategories.id and food_units.id, so no SELECT with it resolves |
| UnitRepository.ParentLookupMeaning | backend/api/food/unit/repository.go:15 | the lookup resolves exactly when the subcategory has no id, and then accepts exactly the matching subcategories |
| UnitRepository.AddUnit | backend/api/food/unit/repository.go:13-24 | a failed lookup or a parent with id 0 creates nothing; else it creates the unit bound to the found, matching subcategory, all or nothing |
| UnitRepository.Unmatching | backend/api/food/unit/repository.go:26-29 | keeps exactly the units the unit filter does not match |
| UnitRepository.DelUnitQueryResolves | backend/api/food/unit/repository.go:26-29 | the DELETE resolves exactly with no unit id and an empty subcategory filter; it is then empty exactly when name and description are |
| UnitRepository.DelUnitQueryMeaning | backend/api/food/unit/repository.go:26-29 | when it resolves, it holds exactly on the units matching the unit filter |
| UnitRepository.DelSubCategory | backend/api/food/unit/repository.go:26-29 | UndefinedColumn with a unit id or any subcategory field; refused when empty; else deletes exactly the matching units and counts them |
| UnitRepository.GetUnits | backend/api/food/unit/repository.go:31-37 | ToScope, the unit filter, then the preload |
| UnitRepository.OrdersResolve | backend/api/food/unit/model.go:36-38 | the whitelisted clauses resolve on food_units alone exactly when none orders by "id" |
| UnitRepository.GetUnitsMeaning | backend/api/food/unit/repository.go:34 | resolves exactly when there is no body id and no order by "id"; selects the matching units; the body's subcategory changes nothing; preloads FoodSubcategory |
| UnitRepository.DoGetUnit | backend/api/food/unit/repository.go:60-63 | ToScope, then one predicate on food_subcategories.name |
| UnitRepository.DoGetUnitNeverResolves | backend/api/food/unit/repository.go:60-63 | food_subcategories is not joined, so the query never resolves |
| Config.UnmarshalDateTimeFormatAsWritten | backend/internals/config/config.go:168-203 | as written: accepts only constants, never RFC1123Z |
| Config.UnmarshalDateTimeFormat | backend/internals/config/config.go:168-203 | corrected: accepts only constants, RFC1123Z included |
| Config.DateTimeLayoutAsWritten | backend/internals/config/config.go:207-242 | as written: a non-empty layout exactly for the constants other than RFC1123Z |
| Config.DateTimeLayout | backend/internals/config/config.go:207-242 | corrected: a non-empty layout exactly for the 15 constants, "" otherwise |
| Config.LowerFormatNames | backend/internals/config/config.go:137-151 | the lower-case forms of the camel-case names |
| Config.LowerCaseFormatNames | backend/internals/config/config.go:137-150 | the other names are their own lower-case form |
| Config.UnmarshalDateTimeFormatSound | backend/internals/config/config.go:168-203 | corrected: whatever unmarshal accepts is the lower-case form of the constant it gives |
| Config.UnmarshalDateTimeFormatAsWrittenMeaning | backend/internals/config/config.go:160-203 | as written: unmarshal accepts exactly the lower-case forms of the constants other than RFC1123Z, and stores the constant so spelled |
| Config.UnmarshalDateTimeFormatMeaning | backend/internals/config/config.go:160-203 | corrected: unmarshal accepts exactly the lower-case forms of the constants and stores the constant so spelled |
| Config.DateTimeFormatRoundTrip | backend/internals/config/config.go:136-203 | corrected: Set(c) stores c for every constant c |
| Config.FormatOfLayout | backend/internals/config/config.go:207-242 | corrected: a layout leads back only to a constant |
| Config.DateTimeLayoutRoundTrip | backend/internals/config/config.go:207-242 | corrected: each constant's layout leads back to the constant |
| Config.DateTimeLayoutInjective | backend/internals/config/config.go:207-242 | corrected: different constants have different layouts |
| Config.DateTimeFormatExamples | backend/internals/config/config_test.go:181-253 | as written: "unixDate" and "stampMilli" are accepted; "incorrectDateTimeFormat" is refused |
| Config.RFC1123ZDroppedAsWritten | backend/internals/config/config.go:168-242 | as written, Set refuses "rfc1123z" and String of RFC1123Z is "" |
| Config.CorrectionOnlyAddsRFC1123Z | backend/internals/config/config.go:168-242 | the corrected functions agree with the source on every other input |
| Config.DateTimeFormatVar.constructor | backend/internals/config/config.go:134 | the zero value is "" |
| Config.DateTimeFormatVar.Set | backend/internals/config/config.go:160-165 | lower-cases, then ErrDateTimeFormatNotAllowed exactly when the as-written unmarshal refuses (so for "rfc1123z"); the value changes only on acceptance |
| Config.DateTimeFormatVar.Unmarshal | backend/internals/config/config.go:168-203 | true exactly when the as-written switch accepts, storing the constant; otherwise the value is unchanged |
| Config.DateTimeFormatVar.String | backend/internals/config/config.go:207-242 | a non-empty layout exactly when the value is a constant other than RFC1123Z |
| Config.UnmarshalLoggerLevel | backend/internals/config/config.go:283-303 | accepts exactly the seven level names, storing that name |
| Config.LoggerLevelString | backend/internals/config/config.go:306-327 | the level's own name for the seven levels, "" otherwise |
| Config.LowerCaseLevelNames | backend/internals/config/config.go:253-268 | every level name is its own lower-case form |
| Config.LoggerLevelRoundTrip | backend/internals/config/config.go:276-327 | Set(l.String()) stores l for every level |
| Config.SetLoggerLevelMeaning | backend/internals/config/config.go:276-303 | Set accepts exactly the inputs whose lower-case form is a level name |
| Config.LoggerLevelExamples | backend/internals/config/config_test.go:304-316 | "DPANIC" is accepted as dpanic; "incorrectLoggerLevel" is refused |
| Config.LoggerLevelVar.constructor | backend/internals/config/config.go:251 | the zero value is "" |
| Config.LoggerLevelVar.Set | backend/internals/config/config.go:276-281 | lower-cases, then ErrLoggerLevelNotAllowed exactly when unmarshal refuses; the value changes only on acceptance |
| Config.LoggerLevelVar.Unmarshal | backend/internals/config/config.go:283-303 | true exactly on acceptance, storing the level; otherwise the value is unchanged |
| Config.LoggerLevelVar.String | backend/internals/config/config.go:306-327 | non-empty exactly when the value is a level |
| Config.NewConsoleAppender | backend/internals/config/config.go:95-100 | the given level and the RFC3339 layout |
| Config.NewLogger | backend/internals/config/config.go:41-60 | one file appender per name in order, each with the level and RFC3339; a console appender only when asked; never production |

## Left out

- HTTP handlers, routing, content negotiation, the CLI bootstrap, viper and the
  frontend are not part of this model. Note that `backend/api/food/unit/handler.go:128`
  calls `delUnit`, which the unit repository does not define; its delete function is
  `delSubCategory`.
- zap: `Tee`, `core`, `ToZapLevel`, `ToZapTimeEncoder`, file opening and logging
  output are foreign library calls and I/O.
- The `Config` struct, `MinConnectTimeout`, the `Type()` methods (constant "string"
  and "int") and `WrapperResponse` carry no logic.
- The database singleton (`sync.Once`), the postgres driver, context deadlines and
  transaction isolation are out. The store is single-threaded; a transaction is
  all or nothing because every failing path changes nothing.
- SQL text generation is out. Predicates are values, not strings.
- An unqualified ORDER BY name that is not an output column resolves if any table in
  scope has it. Postgres refuses such a name when several tables in scope have it; this
  case is not modelled. No query here joins more than one table, and the base table's
  columns are output columns.
- Real sorting, paging and Preload execution are out. The list operations return
  the query, and its meaning is stated on the tuples it selects, not on their order.
- Foreign keys from AutoMigrate are out. The store enforces only primary keys and
  unique names.
- gorm's upsert of the associations on Create (`INSERT ... ON CONFLICT DO NOTHING` for
  the embedded parent) is out. Creating a child writes only its own row.
- The postgres sequence is out. An id of 0 is replaced by one more than the largest
  stored id.
- `LIKE` is uninterpreted: the model does not say which texts a pattern matches.
- The public `QueryParser` and `OrderByAllower` interfaces are out. They are replaced
  by the `QueryParams` map and a whitelist parameter on `ToScope`.
- Lower-casing is ASCII only.
- `ParseNumber`: the narrowing conversion `T(i)` is not modelled, because the callers
  use `int`. `Atoi` accepts 64-bit values.
- Database.Store.FindCategory: requires a query without joins, because the only
  callers (the parent lookups) never join.
- Database.Store.FindSubcategory: requires a query without joins, for the same reason.
- SubcategoryRepository.WhereSubcategoriesMeaning: stated only for a filter without
  id, because with an id the statement is refused (WhereSubcategoriesResolve).
- SubcategoryRepository.DelSubcategoryWheresMeaning: stated only for a filter without
  id, for the same reason.
- UnitRepository.WhereUnitMeaning: stated only for a filter without id, for the
  same reason.
- SubcategoryRepository.AddSubcategory: the error branch of the parent lookup is
  unreachable in the model, because the category filter always resolves.
- Config.NewFileLoggerAppender: a struct literal with no contract of its own.
  Config.NewLogger states the appenders built with it.

## Findings

| source | as written | input that shows it | evidently intended | confidence | as-written member | corrected member |
|---|---|---|---|---|---|---|
| backend/internals/config/config.go:168-242 | unmarshal has no "rfc1123z" case and String no RFC1123Z case, though RFC1123Z is a declared constant | Set("rfc1123z") returns ErrDateTimeFormatNotAllowed; String of RFC1123Z is "" (an empty zap time layout) | every declared format is accepted by Set and mapped to Go's RFC1123Z layout "Mon, 02 Jan 2006 15:04:05 -0700" | high; not executed | Config.RFC1123ZDroppedAsWritten | Config.DateTimeFormatRoundTrip |
