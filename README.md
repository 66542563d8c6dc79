# FluentModel query and update assembly in Dafny

This project models the query and update assembly engine of FluentModel's `DBModel`. A caller chains
configuration calls onto a `DBModel`: select columns, where conditions, joins, group-by, having,
limit/offset, fetch, order-by, an omit list, a primary-key condition, a raw-SQL override, a bound
model and a transaction. The caller then runs a terminal operation, and the model covers these:

- `First`, `Last` and `Take`, through `GetOne`;
- `Find`;
- `Update`, through `updateByMap` and `updateByStruct`.

A terminal operation reads the builder's fields and the target record's `Table` metadata. It appends
calls to the external `fluentsql` builder, hands the result to the database, and resets the builder
on the paths where the code does.

The model has five modules:

- `FluentTypes` (`types.dfy`) holds the data model:
  - values;
  - conditions;
  - `Column` and `Table` metadata;
  - the abstract clause list that stands for the `fluentsql` calls, one `Clause` per call (`Select`,
    `From`, `Limit`, `Where`, `WhereOr`, `WhereGroup`, `WhereCondition`, `Join`, `GroupBy`, `Having`,
    `Fetch`, `OrderBy`, `UpdateTable`, `Set`);
  - the calls issued to the database (`Effect`);
  - the errors, with the exact texts the layer produces;
  - the `Record` class, which is the bound model whose fields `updateByMap` writes in place;
  - `BuilderState`, a snapshot of every builder field.
- `WhereAssembly` (`where_assembly.dfy`) holds:
  - the primary-key `Where`;
  - the loop over configured conditions, which `GetOne`, `Find` and `updateByStruct` all share;
  - `Filters`/`Others`, which split a clause list into its WHERE clauses and the rest, and are used
    to state clause order.
- `QueryBuilder` (`query_builder.dfy`) holds:
  - the specification functions `GetOneQuery`, `OrderChoice`, `GetOneOutcome`, `FindQuery`,
    `FindPrimary` and `FindOutcome`;
  - the loops that append in-struct filters, joins, having items and order items;
  - the lemmas about query layout, ordering policy and reset.
- `UpdateBuilder` (`update_builder.dfy`) holds:
  - the primary-key capture in the column loop (`PrimaryAfterColumns`);
  - the SET list;
  - the "no WHERE, no update" guard (`UpdateClauses`, `UpdateStructOutcome`);
  - the writing of map entries onto the bound record (`ApplyEntries`).
- `FluentModel` (`db_model.dfy`) holds the class `DBModel`:
  - it has Go's fields and `Reset`;
  - its `First`, `Take`, `Last`, `GetOne`, `Find`, `Update`, `UpdateByMap` and `UpdateByStruct`
    each carry a postcondition that equates the returned error, the issued calls and the new
    builder state with the matching specification function applied to the old state.

The model takes these as parameters:

- the database's answers;
- the clauses `whereFromModel` appends (`fromModel`);
- the two random draws of `TakeOne`;
- the reflect kind of the target (`Shape`) and its `Table` metadata.

Runtime panics the code can reach are modelled as the error `Panic(cause)`, after which the builder
is left as it was:

- `Kind()` on the type of an untyped nil;
- `Columns[0]` on a table without columns;
- `rand.Int` with a bound that is not positive.

When the builder is reset:

- `GetOne` resets after its one database call, whatever the database answers
  (query_builder.go:165, :278). Its shape error (query_builder.go:174) and its panics return without
  a reset.
- `Find` resets after the raw select (query_builder.go:299) and after both the row query and the
  count query succeed (query_builder.go:426). Its shape error, its params error and a failing row or
  count query return without a reset (query_builder.go:307, :331, :417-423).
- `Update` calls `log.Fatal` on any error before its reset (update_builder.go:69-74), so only an
  update without an error resets. The missing-WHERE guard of `updateByStruct`
  (update_builder.go:186-190) is one of those errors.

Where the code departs from its apparent intent, the model follows the code:

- The column loop of `updateByStruct` skips columns that may not be updated and omitted columns
  (update_builder.go:126-135), and the doc example calls `Omit("Name")` before an update
  (update_builder.go:49-51). Yet the SET list (update_builder.go:193-200) reads neither the
  `columns`/`values` lists that loop fills nor the omit list. It holds every column that has a value.
- `updateByMap` writes only the entries it calls `isSet` (update_builder.go:95), which is reflect's
  `IsZero` on the map element. For a map whose element type is an interface, such as the
  `map[string]interface{}` of the doc example (update_builder.go:51), the element is the interface
  value, and `IsZero` holds only for nil. So an entry such as `"Age": 0` in such a map is written
  onto the record, while in a map with a concrete element type it is skipped. `MapArg` carries
  which of the two kinds the map is (`dynamic`), and `IsSet` decides an entry the way `IsZero` does.
- `Take` draws its column index from `[0, len(Columns)-1)` (query_builder.go:260). It never picks the
  last column, and it panics on a table with fewer than two columns.
- A record whose key field holds its zero value (`Id` 0) has no value for that column
  (`HasValue` is false), yet the column loop captures `Values[Id]` (update_builder.go:137-150) and the
  guard tests it against nil only (update_builder.go:159). So the update is not refused for a missing
  key: it goes out with `WHERE Id = 0`. `UpdateBuilder.ZeroKeyNotRefused` shows this on a concrete
  record.

## Model

| member | source | states |
|---|---|---|
| WhereAssembly.AppendConditions | query_builder.go:212-228 | the condition loop appends, in order, a WhereGroup for a group, a Where for an And leaf, a WhereOr for an Or leaf and nothing for any other kind; its flag is true iff some condition emits (update_builder.go:165-184 is the same loop) |
| WhereAssembly.ConditionClausePosition | query_builder.go:212-228 | the clause of the i-th condition comes after those of all earlier conditions and before those of all later ones |
| WhereAssembly.ConditionClausesEmptyIff | update_builder.go:164-184 | no WHERE clause comes from the condition list exactly when no condition is a group, an And leaf or an Or leaf |
| WhereAssembly.ConditionClausesAreFilters | query_builder.go:212-228 | every clause from the condition list is a WHERE clause, and there is at most one per condition |
| QueryBuilder.AssembleOne | query_builder.go:186-272 | the GetOne loops and branches produce exactly GetOneQuery: select/from/limit 1, primary Where, conditions, in-struct filters, whereFromModel, one OrderBy, or the panic of the ORDER BY choice |
| QueryBuilder.AppendColumnFilters | query_builder.go:231-240 | the in-struct filter loop appends one Eq Where per column that has a value, in column order |
| QueryBuilder.ColumnFiltersMembership | query_builder.go:231-240 | a clause is an in-struct filter iff it is the equality of a column that has a value with that column's value |
| QueryBuilder.RecordFiltersExactly | query_builder.go:231-240 | in-struct filters exist only when the table has data; their membership is exact, and they split along any split of the column list |
| QueryBuilder.GetOneLayout | query_builder.go:186-243 | a GetOne query's non-WHERE clauses are exactly Select(configured or "*"), From(table), Limit(1,0) and a final OrderBy; its WHERE clauses are the primary Where, then the conditions, then the in-struct filters, then whereFromModel's |
| QueryBuilder.FirstLastMirror | query_builder.go:245-258 | First and Last order by the same field, the primary key or else the first column; First is ascending and Last descending when the field is non-empty; only the final OrderBy differs between their queries; both fail iff there is no key and no column |
| QueryBuilder.TakeOrdering | query_builder.go:259-268 | Take succeeds iff the table has at least two columns; it then orders by a column other than the last, ascending iff the second draw is odd, never with the zero direction |
| QueryBuilder.OrderByDeclaredColumn | query_builder.go:245-261 | on table metadata that keeps its invariants, the field of every ORDER BY GetOne emits is the name of one of the table's columns |
| FluentTypes.TableOfWellFormed | query_builder.go:182-187 | the table metadata ModelData reads off a record keeps its invariants: primaries are columns, the values are keyed by the column names, and HasData holds iff some column has a value |
| QueryBuilder.RecordOrderByDeclaredField | query_builder.go:245-261 | for the metadata read off a record, the ORDER BY field GetOne emits is one of the record's declared fields |
| QueryBuilder.GetOneResets | query_builder.go:154-281 | GetOne issues at most one call; it resets iff it issued one, and then returns the database's answer; the raw path issues RawGet with the raw text and arguments, through the transaction when one is set; a nil target panics and any target other than a struct or a pointer to one gives "model not Struct type", both with no call and the state kept; for a struct target a call is issued iff the query assembles without a panic |
| QueryBuilder.FirstById | query_builder.go:98-111 | First with an id on a type with a primary key issues one query whose first WHERE clause is the key's equality with the id and whose last clause orders by the key ascending; then it resets |
| QueryBuilder.FirstArgsNeedKey | query_builder.go:98-111 | without a primary key, First's arguments change neither the error nor the calls issued |
| QueryBuilder.AssembleMany | query_builder.go:343-414 | the Find loops and branches produce exactly FindQuery |
| QueryBuilder.AppendJoins | query_builder.go:359-361 | one Join per configured join item, in order |
| QueryBuilder.AppendHaving | query_builder.go:397-399 | one Having per configured having condition, in order |
| QueryBuilder.AppendOrderBy | query_builder.go:412-414 | one OrderBy per configured order item, in order |
| QueryBuilder.FindLayout | query_builder.go:354-414 | a Find query's WHERE clauses are the primary WhereCondition, the conditions and whereFromModel's, with no in-struct filter; its other clauses are, in order, select/from, joins, group by, having, limit, fetch and order by |
| QueryBuilder.FindConditionalClauses | query_builder.go:391-409 | a Find query contains a Limit iff the limit is positive, a Fetch iff the fetch count is positive and a GroupBy iff there are group-by items, each carrying the configured values |
| QueryBuilder.FindByIds | query_builder.go:326-341 | Find with an id slice on a type with a primary key makes an IN condition on the key over those ids its first WHERE clause |
| QueryBuilder.FindIgnoresRecordData | query_builder.go:354-414 | a Find query depends on the target's table only through its name and primary key |
| QueryBuilder.FindResets | query_builder.go:288-429 | the raw path issues RawSelect and resets; otherwise Find succeeds only after the row query and then the count query over the same clauses, and reports the counted total; every error path keeps the state, apart from an installed id condition, and reports a zero total; a nil target panics and any target other than a pointer to a slice gives "model not *Slice type"; with a primary key, a nil first parameter panics and a non-slice one gives "params not Slice type", each with no call and the whole state kept |
| QueryBuilder.FindParamsNeedKey | query_builder.go:326-340 | without a primary key, Find's parameters are ignored: it behaves as with none |
| UpdateBuilder.AppendSets | update_builder.go:193-200 | the SET loop appends one Set per column that has a value, in column order, with the column's value |
| UpdateBuilder.PrimaryCaptureIff | update_builder.go:121-151 | the column loop installs Eq on the primary key with the key column's value iff some column that may be updated and is not omitted carries the key's name; otherwise the primary condition is unchanged |
| UpdateBuilder.SetMembership | update_builder.go:193-200 | a Set is in the list iff it pairs a column that has a value with that column's value; omitted and non-updatable columns are not excluded |
| UpdateBuilder.MissingWhereIff | update_builder.go:158-190 | nothing is issued iff the primary Where is not emitted and no condition is a group, And or Or, and then the error is "missing WHERE condition"; otherwise exactly one update statement is issued and the database's answer is returned |
| UpdateBuilder.UpdateLayout | update_builder.go:154-200 | an update statement starts with the table; its WHERE clauses are the primary Where followed by the conditions; its other clauses are the table and then the SET list |
| UpdateBuilder.UpdateByPrimaryKey | update_builder.go:110-205 | a record whose key column is kept and holds a non-nil value, with no configured conditions, gives exactly an update of the table with Where key = value and the SET list, returning the database's answer |
| UpdateBuilder.ZeroKeyNotRefused | update_builder.go:137-162 | a record whose key field is 0 has no value in that column, yet its update is issued with Where Id = 0 and the SET list, returning the database's answer |
| UpdateBuilder.UpdateWithoutKeyRefused | update_builder.go:121-190 | with no kept key column, no configured conditions and no primary value, the update is refused and the state is kept |
| UpdateBuilder.ApplyEntriesLookup | update_builder.go:90-102 | after the map is written, a field holds the entry's value iff the entry is set and names a declared field; otherwise it keeps its old value. An entry is set when it is not nil, for a map whose element type is an interface, and when it is not its type's zero otherwise |
| UpdateBuilder.ApplyEntriesIdempotent | update_builder.go:90-102 | writing the same map twice equals writing it once; a map with no set entry changes nothing |
| UpdateBuilder.ApplyEntriesStep | update_builder.go:90-102 | visiting one more key in any order writes exactly that entry when it is set and declared, so the result does not depend on the map's iteration order |
| UpdateBuilder.ZeroEntryWrittenIffDynamic | update_builder.go:89-101 | a zero entry for a declared field, such as `"Age": 0`, overwrites the field iff the map's element type is an interface and the entry is not nil; otherwise the field keeps its value |
| FluentModel.FinishResets | update_builder.go:69-74 | Update's epilogue keeps the error and the calls; it resets the builder iff there is no error |
| FluentModel.DBModel.First | query_builder.go:98-111 | First installs Condition(nil, Eq, args[0], And) when there are arguments, leaves the primary condition untouched when there are none, and then behaves as GetOne with GetFirst |
| FluentModel.DBModel.Take | query_builder.go:127-131 | Take is GetOne with TakeOne |
| FluentModel.DBModel.Last | query_builder.go:147-151 | Last is GetOne with GetLast |
| FluentModel.DBModel.GetOne | query_builder.go:154-281 | the method's error, calls and new fields are those of GetOneOutcome on the old fields |
| FluentModel.DBModel.Find | query_builder.go:288-429 | the method's total, error, calls and new fields are those of FindOutcome on the old fields |
| FluentModel.DBModel.Update | update_builder.go:57-77 | dispatch by priority: raw gives RawExec; otherwise a nil argument panics, a map goes through updateByMap, a record through updateByStruct, and any other kind does nothing; then a reset iff there is no error; the bound record's fields change only on the map path |
| FluentModel.DBModel.UpdateByMap | update_builder.go:79-107 | with no bound model it returns "missing model for map value" and changes nothing; otherwise the bound record's fields become ApplyEntries of the map, and the result is updateByStruct's on the mutated record, replacing any SetValue error |
| FluentModel.DBModel.UpdateByStruct | update_builder.go:110-205 | the method's error, calls and new fields are those of UpdateStructOutcome on the old fields |

## Left out

- Reflection is not modelled: `reflect.TypeOf`, `ModelData`, `processModel`, `SetValue` and
  `CanColumnBeAddOrUpdate` are not part of this model.
  - The target's kind is a given `Shape` and its metadata a given `Table`.
  - For the bound record, `TableOf` stands in for `ModelData`: a column has a value iff its field is
    not zero.
  - `Record.SetValue` stores the value into a declared field and gives an error for an unknown
    name, without Go's type conversion.
  - The error `ModelData` returns is not checked by the code and is not modelled.
- `fluentsql` produces SQL text, which is not modelled. The model keeps the sequence of builder calls
  as clauses. A `WhereGroup` carries its group's conditions rather than the closure.
- Database I/O is not modelled. This covers `tx.Get`, `Get`, `Select`, `db.get`, `db.query`,
  `db.count`, `db.update` and `db.execRaw`.
  - Their answers are parameters.
  - Each call is recorded as an `Effect`. The raw paths of `GetOne` and `Find` record whether the
    transaction is used.
  - Binding rows into the target is not modelled.
- `whereFromModel` is not part of this model. The clauses it appends are the parameter `fromModel`.
  The layout lemmas assume those clauses are WHERE clauses.
- `crypto/rand` is not modelled. `Take`'s two draws are parameters, and the precondition
  `DrawsInRange` gives their ranges. The error `rand.Int` can return is ignored, as the code
  ignores it.
- `log.Printf` is not modelled. `log.Fatal` is modelled as returning the error, without the reset
  that follows it.
- The iteration order of the Go map in `updateByMap` is not modelled. The loop picks keys in an
  arbitrary order. `ApplyEntriesStep` shows the result does not depend on that order.
- Concurrency and the transaction lifecycle are not modelled.
- The body of `reset` is not among the modelled source files. `DBModel.Reset` takes it to set every
  field, including the bound model and the transaction, to its zero value.
- `ZERO_CONDITION` gives a zero value to the `fluentsql` parts that have none here. The zero
  condition's operator and conjunction are Eq and And, and the zero ordering direction is `ZeroDir`.
  Every reader of the primary condition checks its value against nil first, so the operator and
  conjunction are never observed.
- `FluentModel.DBModel.Find`: when the count query fails, the total is modelled as 0. Whatever
  `db.count` may already have written into it is not modelled.
- `FluentModel.DBModel.UpdateByStruct`: the column loop collects the primary condition in a local and
  assigns the field once after the loop. The code assigns the field inside the loop. No other code
  runs in between, so the two are the same.
