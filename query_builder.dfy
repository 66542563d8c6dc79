/** Query assembly for single-row retrieval (First, Last, Take through GetOne)
    and multi-row retrieval (Find), as specifications over the builder state
    and the loops that build the clause list. */
module QueryBuilder {
  import opened FluentTypes
  import opened WhereAssembly

  // ---------------------------------------------------------------------------
  // Query ONE row
  // ---------------------------------------------------------------------------

  /** The configured select list, or all columns. */
  function SelectColumns(configured: seq<string>): seq<string> {
    if |configured| > 0 then configured else ["*"]
  }

  /** The in-struct filter of one column: an equality on its current value when it holds one. */
  function ColumnFilter(c: Column, values: map<string, Value>): seq<Clause> {
    if c.hasValue then [Where(Text(c.name), Eq, Lookup(values, c.name))] else []
  }

  function ColumnFilters(columns: seq<Column>, values: map<string, Value>): seq<Clause> {
    if columns == [] then []
    else ColumnFilters(columns[..|columns| - 1], values) + ColumnFilter(columns[|columns| - 1], values)
  }

  /** The in-struct filters GetOne adds for a record that carries data. */
  function RecordFilters(t: Table): seq<Clause> {
    if t.hasData then ColumnFilters(t.columns, t.values) else []
  }

  /** The ranges of the two random draws of TakeOne: a column index in
      [0, |columns| - 1) whenever that range is non-empty, and a number in [0, 10). */
  predicate DrawsInRange(t: Table, getType: Strategy, colDraw: nat, dirDraw: nat) {
    getType == TakeOne ==> dirDraw < 10 && (|t.columns| >= 2 ==> colDraw < |t.columns| - 1)
  }

  /** The single ORDER BY item of GetOne, or the panic the code runs into. */
  function OrderChoice(t: Table, getType: Strategy, colDraw: nat, dirDraw: nat): Result<OrderItem>
    requires DrawsInRange(t, getType, colDraw, dirDraw)
  {
    var pk := PrimaryKey(t);
    if pk.None? && |t.columns| == 0 then Err(Panic(IndexOutOfRange))
    else
      var field := if pk.Some? then pk.value else t.columns[0].name;
      if getType == GetLast && field != "" then Ok(OrderItem(field, Desc))
      else if getType == GetFirst && field != "" then Ok(OrderItem(field, Asc))
      else if getType == TakeOne then
        if |t.columns| - 1 <= 0 then Err(Panic(NonPositiveRandBound))
        else Ok(OrderItem(t.columns[colDraw].name, if dirDraw % 2 == 1 then Asc else Desc))
      else Ok(OrderItem(field, ZeroDir))
  }

  /** The clause list GetOne hands to the database, from the builder state
      `s`, the target's table metadata and the clauses whereFromModel appends. */
  function GetOneQuery(s: BuilderState, t: Table, fromModel: seq<Clause>,
                       getType: Strategy, colDraw: nat, dirDraw: nat): Result<seq<Clause>>
    requires DrawsInRange(t, getType, colDraw, dirDraw)
  {
    match OrderChoice(t, getType, colDraw, dirDraw)
    case Err(e) => Err(e)
    case Ok(item) =>
      Ok([Select(SelectColumns(s.selectStatement)), From(t.name), Limit(1, 0)]
         + PrimaryWhere(PrimaryKey(t), s.wherePrimaryCondition)
         + ConditionClauses(s.whereStatement)
         + RecordFilters(t)
         + fromModel
         + [OrderBy(item.field, item.direction)])
  }

  /** GetOne as a whole: raw bypass, shape check, assembly, execution with
      the database's `reply`, and reset. */
  function GetOneOutcome(s: BuilderState, target: Target, getType: Strategy, colDraw: nat, dirDraw: nat,
                         fromModel: seq<Clause>, reply: Option<Error>): Outcome
    requires DrawsInRange(target.table, getType, colDraw, dirDraw)
  {
    if s.raw.sqlStr != "" then
      Outcome(reply, [RawGet(s.raw.sqlStr, s.raw.args, s.tx.Some?)], EMPTY_STATE)
    else if target.shape == NilShape then
      Outcome(Some(Panic(NilType)), [], s)
    else if !(target.shape == StructShape || target.shape == PtrToStruct) then
      Outcome(Some(ModelNotStruct), [], s)
    else
      match GetOneQuery(s, target.table, fromModel, getType, colDraw, dirDraw)
      case Err(e) => Outcome(Some(e), [], s)
      case Ok(q) => Outcome(reply, [GetRow(q)], EMPTY_STATE)
  }

  /** The clause list GetOne assembles from the builder state `s`, or the
      panic the ORDER BY choice runs into. */
  method AssembleOne(s: BuilderState, table: Table, getType: Strategy, colDraw: nat, dirDraw: nat, fromModel: seq<Clause>)
    returns (r: Result<seq<Clause>>)
    requires DrawsInRange(table, getType, colDraw, dirDraw)
    ensures r == GetOneQuery(s, table, fromModel, getType, colDraw, dirDraw)
  {
    var primaryKey := PrimaryKey(table);
    var selectColumns := if |s.selectStatement| > 0 then s.selectStatement else ["*"];
    var q := [Select(selectColumns), From(table.name), Limit(1, 0)];
    if s.wherePrimaryCondition.value != Nil && primaryKey.Some? {
      q := q + [Where(Text(primaryKey.value), s.wherePrimaryCondition.opt, s.wherePrimaryCondition.value)];
    }
    assert q == [Select(SelectColumns(s.selectStatement)), From(table.name), Limit(1, 0)]
                + PrimaryWhere(primaryKey, s.wherePrimaryCondition);
    var emitted;
    q, emitted := AppendConditions(q, s.whereStatement);
    if table.hasData {
      q := AppendColumnFilters(q, table.columns, table.values);
    }
    q := q + fromModel;
    ghost var filtered := [Select(SelectColumns(s.selectStatement)), From(table.name), Limit(1, 0)]
                          + PrimaryWhere(primaryKey, s.wherePrimaryCondition) + ConditionClauses(s.whereStatement)
                          + RecordFilters(table) + fromModel;
    assert q == filtered;
    var orderByField := "";
    if primaryKey.Some? {
      orderByField := primaryKey.value;
    } else if |table.columns| == 0 {
      return Err(Panic(IndexOutOfRange));
    } else {
      orderByField := table.columns[0].name;
    }
    var orderByDir := ZeroDir;
    if getType == GetLast && orderByField != "" {
      orderByDir := Desc;
    } else if getType == GetFirst && orderByField != "" {
      orderByDir := Asc;
    } else if getType == TakeOne {
      if |table.columns| - 1 <= 0 {
        return Err(Panic(NonPositiveRandBound));
      }
      orderByField := table.columns[colDraw].name;
      if dirDraw % 2 == 1 {
        orderByDir := Asc;
      } else {
        orderByDir := Desc;
      }
    }
    assert OrderChoice(table, getType, colDraw, dirDraw) == Ok(OrderItem(orderByField, orderByDir));
    q := q + [OrderBy(orderByField, orderByDir)];
    assert q == filtered + [OrderBy(orderByField, orderByDir)];
    r := Ok(q);
  }

  /** The in-struct filter loop (query_builder.go:231-240). */
  method AppendColumnFilters(q: seq<Clause>, columns: seq<Column>, values: map<string, Value>)
    returns (r: seq<Clause>)
    ensures r == q + ColumnFilters(columns, values)
  {
    r := q;
    var i := 0;
    while i < |columns|
      invariant 0 <= i <= |columns|
      invariant r == q + ColumnFilters(columns[..i], values)
    {
      var column := columns[i];
      if column.hasValue {
        r := r + [Where(Text(column.name), Eq, Lookup(values, column.name))];
      }
      assert columns[..i + 1][..i] == columns[..i];
      i := i + 1;
    }
    assert columns[..|columns|] == columns;
  }

  lemma {:induction false} ColumnFiltersSplit(a: seq<Column>, b: seq<Column>, values: map<string, Value>)
    ensures ColumnFilters(a + b, values) == ColumnFilters(a, values) + ColumnFilters(b, values)
    decreases |b|
  {
    if b == [] {
      assert a + b == a;
    } else {
      var ab := a + b;
      assert ab[..|ab| - 1] == a + b[..|b| - 1];
      assert ab[|ab| - 1] == b[|b| - 1];
      ColumnFiltersSplit(a, b[..|b| - 1], values);
    }
  }

  /** A clause is an in-struct filter exactly when it is the equality on a
      column that holds a value, compared with that column's current value. */
  lemma {:induction false} ColumnFiltersMembership(columns: seq<Column>, values: map<string, Value>, c: Clause)
    ensures c in ColumnFilters(columns, values) <==>
            exists i | 0 <= i < |columns| ::
              columns[i].hasValue && c == Where(Text(columns[i].name), Eq, Lookup(values, columns[i].name))
    decreases |columns|
  {
    if columns != [] {
      var init := columns[..|columns| - 1];
      ColumnFiltersMembership(init, values, c);
      assert forall i | 0 <= i < |init| :: init[i] == columns[i];
    }
  }

  lemma {:induction false} ColumnFiltersAreFilters(columns: seq<Column>, values: map<string, Value>)
    ensures |ColumnFilters(columns, values)| <= |columns|
    ensures forall k | 0 <= k < |ColumnFilters(columns, values)| :: ColumnFilters(columns, values)[k].Where?
    decreases |columns|
  {
    if columns != [] {
      ColumnFiltersAreFilters(columns[..|columns| - 1], values);
    }
  }

  /** The in-struct filters of a record: one equality per column holding a
      value, only when the record carries data, in column order. */
  lemma RecordFiltersExactly(t: Table, c: Clause)
    ensures c in RecordFilters(t) <==>
            t.hasData && exists i | 0 <= i < |t.columns| ::
              t.columns[i].hasValue && c == Where(Text(t.columns[i].name), Eq, Lookup(t.values, t.columns[i].name))
    ensures forall a, b | a + b == t.columns && t.hasData ::
              RecordFilters(t) == ColumnFilters(a, t.values) + ColumnFilters(b, t.values)
  {
    ColumnFiltersMembership(t.columns, t.values, c);
    forall a, b | a + b == t.columns && t.hasData
      ensures RecordFilters(t) == ColumnFilters(a, t.values) + ColumnFilters(b, t.values)
    {
      ColumnFiltersSplit(a, b, t.values);
    }
  }

  /** The shape of every query GetOne assembles: its only non-WHERE clauses are
      Select, From, Limit(1, 0) and one final OrderBy; its WHERE clauses are the
      primary-key condition first, then the configured conditions, then the
      in-struct filters, then whereFromModel's. */
  lemma GetOneLayout(s: BuilderState, t: Table, fromModel: seq<Clause>,
                     getType: Strategy, colDraw: nat, dirDraw: nat)
    requires DrawsInRange(t, getType, colDraw, dirDraw)
    requires forall k | 0 <= k < |fromModel| :: IsFilter(fromModel[k])
    requires GetOneQuery(s, t, fromModel, getType, colDraw, dirDraw).Ok?
    ensures var q := GetOneQuery(s, t, fromModel, getType, colDraw, dirDraw).value;
            var item := OrderChoice(t, getType, colDraw, dirDraw).value;
            && q[|q| - 1] == OrderBy(item.field, item.direction)
            && Others(q) == [Select(SelectColumns(s.selectStatement)), From(t.name), Limit(1, 0),
                             OrderBy(item.field, item.direction)]
            && Filters(q) == PrimaryWhere(PrimaryKey(t), s.wherePrimaryCondition)
                             + ConditionClauses(s.whereStatement) + RecordFilters(t) + fromModel
  {
    var item := OrderChoice(t, getType, colDraw, dirDraw).value;
    var head := [Select(SelectColumns(s.selectStatement)), From(t.name), Limit(1, 0)];
    var pw := PrimaryWhere(PrimaryKey(t), s.wherePrimaryCondition);
    var cc := ConditionClauses(s.whereStatement);
    var rf := RecordFilters(t);
    var tail := [OrderBy(item.field, item.direction)];
    ConditionClausesAreFilters(s.whereStatement);
    ColumnFiltersAreFilters(t.columns, t.values);
    LayoutOfSixParts(head, pw, cc, rf, fromModel, tail);
    assert GetOneQuery(s, t, fromModel, getType, colDraw, dirDraw).value == head + pw + cc + rf + fromModel + tail;
  }

  lemma LayoutOfSixParts(head: seq<Clause>, pw: seq<Clause>, cc: seq<Clause>, rf: seq<Clause>,
                         fm: seq<Clause>, tail: seq<Clause>)
    requires forall k | 0 <= k < |head| :: !IsFilter(head[k])
    requires forall k | 0 <= k < |pw| :: IsFilter(pw[k])
    requires forall k | 0 <= k < |cc| :: IsFilter(cc[k])
    requires forall k | 0 <= k < |rf| :: IsFilter(rf[k])
    requires forall k | 0 <= k < |fm| :: IsFilter(fm[k])
    requires forall k | 0 <= k < |tail| :: !IsFilter(tail[k])
    ensures Filters(head + pw + cc + rf + fm + tail) == pw + cc + rf + fm
    ensures Others(head + pw + cc + rf + fm + tail) == head + tail
  {
    var q1 := head + pw;
    var q2 := q1 + cc;
    var q3 := q2 + rf;
    var q4 := q3 + fm;
    NoFilters(head);
    AppendFilters(head, pw);
    assert Filters(q1) == pw && Others(q1) == head;
    AppendFilters(q1, cc);
    assert Filters(q2) == pw + cc && Others(q2) == head;
    AppendFilters(q2, rf);
    assert Filters(q3) == pw + cc + rf && Others(q3) == head;
    AppendFilters(q3, fm);
    assert Filters(q4) == pw + cc + rf + fm && Others(q4) == head;
    AppendOthers(q4, tail);
  }

  /** First and Last order by the same field, the primary key or else the
      first column, ascending and descending respectively; everything before
      the ORDER BY is the same query. */
  lemma FirstLastMirror(s: BuilderState, t: Table, fromModel: seq<Clause>)
    ensures OrderChoice(t, GetFirst, 0, 0).Ok? <==> PrimaryKey(t).Some? || |t.columns| > 0
    ensures OrderChoice(t, GetFirst, 0, 0).Ok? == OrderChoice(t, GetLast, 0, 0).Ok?
    ensures OrderChoice(t, GetFirst, 0, 0).Ok? ==>
            var first := OrderChoice(t, GetFirst, 0, 0).value;
            var last := OrderChoice(t, GetLast, 0, 0).value;
            && first.field == last.field
            && first.field == (if PrimaryKey(t).Some? then PrimaryKey(t).value else t.columns[0].name)
            && (first.field != "" ==> first.direction == Asc && last.direction == Desc)
            && (first.field == "" ==> first.direction == ZeroDir && last.direction == ZeroDir)
    ensures OrderChoice(t, GetFirst, 0, 0).Ok? ==>
            var qf := GetOneQuery(s, t, fromModel, GetFirst, 0, 0).value;
            var ql := GetOneQuery(s, t, fromModel, GetLast, 0, 0).value;
            |qf| == |ql| && qf[..|qf| - 1] == ql[..|ql| - 1]
  {
  }

  /** TakeOne needs at least two columns; it then orders by a column other
      than the last one, ascending exactly when the second draw is odd. */
  lemma TakeOrdering(t: Table, colDraw: nat, dirDraw: nat)
    requires DrawsInRange(t, TakeOne, colDraw, dirDraw)
    ensures OrderChoice(t, TakeOne, colDraw, dirDraw).Ok? <==> |t.columns| >= 2
    ensures OrderChoice(t, TakeOne, colDraw, dirDraw).Ok? ==>
            var item := OrderChoice(t, TakeOne, colDraw, dirDraw).value;
            && (exists k | 0 <= k < |t.columns| - 1 :: item.field == t.columns[k].name)
            && (item.direction == Asc <==> dirDraw % 2 == 1)
            && item.direction != ZeroDir
  {
  }

  /** On table metadata that keeps its invariants, every ORDER BY GetOne
      emits names a column of the table: the primary key is one of the columns. */
  lemma OrderByDeclaredColumn(t: Table, getType: Strategy, colDraw: nat, dirDraw: nat)
    requires DrawsInRange(t, getType, colDraw, dirDraw) && WellFormed(t)
    ensures OrderChoice(t, getType, colDraw, dirDraw).Ok? ==>
            exists k | 0 <= k < |t.columns| :: OrderChoice(t, getType, colDraw, dirDraw).value.field == t.columns[k].name
  {
    if OrderChoice(t, getType, colDraw, dirDraw).Ok? {
      var field := OrderChoice(t, getType, colDraw, dirDraw).value.field;
      if getType == TakeOne {
        assert field == t.columns[colDraw].name;
      } else if PrimaryKey(t).Some? {
        var p := t.primaries[0];
        assert p in t.primaries;
        var k :| 0 <= k < |t.columns| && t.columns[k] == p;
        assert field == t.columns[k].name;
      } else {
        assert field == t.columns[0].name;
      }
    }
  }

  /** For the metadata read off a record, the ORDER BY field GetOne emits is
      one of the record's declared fields. */
  lemma RecordOrderByDeclaredField(name: string, decls: seq<ColumnDecl>, fields: map<string, Value>,
                                   getType: Strategy, colDraw: nat, dirDraw: nat)
    requires DrawsInRange(TableOf(name, decls, fields), getType, colDraw, dirDraw)
    ensures var t := TableOf(name, decls, fields);
            OrderChoice(t, getType, colDraw, dirDraw).Ok? ==>
            OrderChoice(t, getType, colDraw, dirDraw).value.field in DeclNames(decls)
  {
    var t := TableOf(name, decls, fields);
    TableOfWellFormed(name, decls, fields);
    OrderByDeclaredColumn(t, getType, colDraw, dirDraw);
    if OrderChoice(t, getType, colDraw, dirDraw).Ok? {
      var k :| 0 <= k < |t.columns| && OrderChoice(t, getType, colDraw, dirDraw).value.field == t.columns[k].name;
      assert t.columns[k].name == decls[k].name;
    }
  }

  /** GetOne resets the builder exactly when it issues its one call; on a
      shape error or a panic it issues nothing and leaves the state alone. */
  lemma GetOneResets(s: BuilderState, target: Target, getType: Strategy, colDraw: nat, dirDraw: nat,
                     fromModel: seq<Clause>, reply: Option<Error>)
    requires DrawsInRange(target.table, getType, colDraw, dirDraw)
    ensures var o := GetOneOutcome(s, target, getType, colDraw, dirDraw, fromModel, reply);
            && |o.effects| <= 1
            && (o.effects != [] ==> o.after == EMPTY_STATE && o.err == reply)
            && (o.effects == [] ==> o.after == s && o.err.Some?)
            && (s.raw.sqlStr != "" ==> o.effects == [RawGet(s.raw.sqlStr, s.raw.args, s.tx.Some?)])
            && (s.raw.sqlStr == "" && target.shape !in {StructShape, PtrToStruct} ==>
                  o == Outcome(if target.shape == NilShape then Some(Panic(NilType)) else Some(ModelNotStruct), [], s))
            && (s.raw.sqlStr == "" && target.shape in {StructShape, PtrToStruct} ==>
                  (o.effects != [] <==> GetOneQuery(s, target.table, fromModel, getType, colDraw, dirDraw).Ok?))
  {
  }

  /** The state First hands to GetOne: a first argument becomes the value
      of the primary condition, with no field, Eq and And. */
  function FirstState(s: BuilderState, args: seq<Value>): BuilderState {
    if |args| > 0 then s.(wherePrimaryCondition := Condition(Nil, Eq, args[0], And, [])) else s
  }

  /** First by id on a type with a primary key: the query's first WHERE
      clause is the equality of the key with that id, and it is ordered by the
      key ascending. */
  lemma FirstById(s: BuilderState, target: Target, args: seq<Value>, fromModel: seq<Clause>, reply: Option<Error>)
    requires s.raw.sqlStr == "" && (target.shape == StructShape || target.shape == PtrToStruct)
    requires PrimaryKey(target.table).Some? && PrimaryKey(target.table).value != ""
    requires |args| > 0 && args[0] != Nil
    requires forall k | 0 <= k < |fromModel| :: IsFilter(fromModel[k])
    ensures var o := GetOneOutcome(FirstState(s, args), target, GetFirst, 0, 0, fromModel, reply);
            var pk := PrimaryKey(target.table).value;
            && o.err == reply && o.after == EMPTY_STATE
            && |o.effects| == 1 && o.effects[0].GetRow?
            && Filters(o.effects[0].query) != []
            && Filters(o.effects[0].query)[0] == Where(Text(pk), Eq, args[0])
            && o.effects[0].query[|o.effects[0].query| - 1] == OrderBy(pk, Asc)
  {
    var s1 := FirstState(s, args);
    GetOneLayout(s1, target.table, fromModel, GetFirst, 0, 0);
  }

  /** Without a primary key First's arguments change nothing that is issued. */
  lemma FirstArgsNeedKey(s: BuilderState, target: Target, args: seq<Value>, fromModel: seq<Clause>, reply: Option<Error>)
    requires PrimaryKey(target.table).None?
    ensures var o1 := GetOneOutcome(FirstState(s, args), target, GetFirst, 0, 0, fromModel, reply);
            var o2 := GetOneOutcome(s, target, GetFirst, 0, 0, fromModel, reply);
            o1.err == o2.err && o1.effects == o2.effects
  {
  }

  // ---------------------------------------------------------------------------
  // Query MULTI rows
  // ---------------------------------------------------------------------------

  function JoinClauses(joins: seq<JoinItem>): seq<Clause> {
    seq(|joins|, i requires 0 <= i < |joins| => Join(joins[i].join, joins[i].table, joins[i].condition))
  }

  function HavingClauses(having: seq<Condition>): seq<Clause> {
    seq(|having|, i requires 0 <= i < |having| => Having(having[i].field, having[i].opt, having[i].value))
  }

  function OrderClauses(items: seq<OrderItem>): seq<Clause> {
    seq(|items|, i requires 0 <= i < |items| => OrderBy(items[i].field, items[i].direction))
  }

  /** The id-list fast path: on a type with a primary key, a first parameter
      becomes an IN condition on the key, provided it is a slice. */
  function FindPrimary(t: Table, params: seq<Value>, current: Condition): Result<Condition> {
    var pk := PrimaryKey(t);
    if |params| > 0 && pk.Some? then
      if params[0] == Nil then Err(Panic(NilType))
      else if !params[0].Slice? then Err(ParamsNotSlice)
      else Ok(Condition(Text(pk.value), In, params[0], And, []))
    else Ok(current)
  }

  /** Find hands the whole primary condition to the builder. */
  function FindPrimaryClause(pk: Option<string>, primary: Condition): seq<Clause> {
    if primary.value != Nil && pk.Some? then [WhereCondition(primary)] else []
  }

  /** The clause list Find hands to the database, for the state after the fast path. */
  function FindQuery(s: BuilderState, t: Table, fromModel: seq<Clause>): seq<Clause> {
    [Select(SelectColumns(s.selectStatement)), From(t.name)]
    + JoinClauses(s.joinStatement)
    + FindPrimaryClause(PrimaryKey(t), s.wherePrimaryCondition)
    + ConditionClauses(s.whereStatement)
    + fromModel
    + (if |s.groupByStatement| > 0 then [GroupBy(s.groupByStatement)] else [])
    + HavingClauses(s.havingStatement)
    + (if s.limitStatement.limit > 0 then [Limit(s.limitStatement.limit, s.limitStatement.offset)] else [])
    + (if s.fetchStatement.fetch > 0 then [Fetch(s.fetchStatement.offset, s.fetchStatement.fetch)] else [])
    + OrderClauses(s.orderByStatement)
  }

  /** Find as a whole: the total it reports and its outcome, given the
      database's replies to the row query and to the count query. */
  function FindOutcome(s: BuilderState, target: Target, params: seq<Value>, fromModel: seq<Clause>,
                       queryReply: Option<Error>, countReply: CountReply): (int, Outcome)
  {
    if s.raw.sqlStr != "" then
      (0, Outcome(queryReply, [RawSelect(s.raw.sqlStr, s.raw.args, s.tx.Some?)], EMPTY_STATE))
    else if target.shape == NilShape then
      (0, Outcome(Some(Panic(NilType)), [], s))
    else if target.shape != PtrToSlice then
      (0, Outcome(Some(ModelNotSlicePointer), [], s))
    else
      match FindPrimary(target.table, params, s.wherePrimaryCondition)
      case Err(e) => (0, Outcome(Some(e), [], s))
      case Ok(primary) =>
        var s1 := s.(wherePrimaryCondition := primary);
        var q := FindQuery(s1, target.table, fromModel);
        if queryReply.Some? then (0, Outcome(queryReply, [QueryRows(q)], s1))
        else
          match countReply
          case CountFailed(e) => (0, Outcome(Some(e), [QueryRows(q), CountRows(q)], s1))
          case Counted(n) => (n, Outcome(None, [QueryRows(q), CountRows(q)], EMPTY_STATE))
  }

  /** The JOIN loop (query_builder.go:359-361). */
  method AppendJoins(q: seq<Clause>, joins: seq<JoinItem>) returns (r: seq<Clause>)
    ensures r == q + JoinClauses(joins)
  {
    r := q;
    var i := 0;
    while i < |joins|
      invariant 0 <= i <= |joins|
      invariant r == q + JoinClauses(joins[..i])
    {
      var joinItem := joins[i];
      r := r + [Join(joinItem.join, joinItem.table, joinItem.condition)];
      assert JoinClauses(joins[..i + 1]) == JoinClauses(joins[..i]) + [Join(joinItem.join, joinItem.table, joinItem.condition)];
      i := i + 1;
    }
    assert joins[..|joins|] == joins;
  }

  /** The HAVING loop (query_builder.go:397-399). */
  method AppendHaving(q: seq<Clause>, having: seq<Condition>) returns (r: seq<Clause>)
    ensures r == q + HavingClauses(having)
  {
    r := q;
    var i := 0;
    while i < |having|
      invariant 0 <= i <= |having|
      invariant r == q + HavingClauses(having[..i])
    {
      var condition := having[i];
      r := r + [Having(condition.field, condition.opt, condition.value)];
      assert HavingClauses(having[..i + 1]) == HavingClauses(having[..i]) + [Having(condition.field, condition.opt, condition.value)];
      i := i + 1;
    }
    assert having[..|having|] == having;
  }

  /** The ORDER BY loop (query_builder.go:412-414). */
  method AppendOrderBy(q: seq<Clause>, items: seq<OrderItem>) returns (r: seq<Clause>)
    ensures r == q + OrderClauses(items)
  {
    r := q;
    var i := 0;
    while i < |items|
      invariant 0 <= i <= |items|
      invariant r == q + OrderClauses(items[..i])
    {
      var orderItem := items[i];
      r := r + [OrderBy(orderItem.field, orderItem.direction)];
      assert OrderClauses(items[..i + 1]) == OrderClauses(items[..i]) + [OrderBy(orderItem.field, orderItem.direction)];
      i := i + 1;
    }
    assert items[..|items|] == items;
  }

  /** The clause list Find assembles from the builder state `s`. */
  method AssembleMany(s: BuilderState, table: Table, fromModel: seq<Clause>) returns (q: seq<Clause>)
    ensures q == FindQuery(s, table, fromModel)
  {
    var primaryKey := PrimaryKey(table);
    var selectColumns := if |s.selectStatement| > 0 then s.selectStatement else ["*"];
    q := [Select(selectColumns), From(table.name)];
    q := AppendJoins(q, s.joinStatement);
    if s.wherePrimaryCondition.value != Nil && primaryKey.Some? {
      q := q + [WhereCondition(s.wherePrimaryCondition)];
    }
    assert q == [Select(SelectColumns(s.selectStatement)), From(table.name)] + JoinClauses(s.joinStatement)
                + FindPrimaryClause(primaryKey, s.wherePrimaryCondition);
    ghost var q1 := q;
    var emitted;
    q, emitted := AppendConditions(q, s.whereStatement);
    q := q + fromModel;
    ghost var q2 := q1 + ConditionClauses(s.whereStatement) + fromModel;
    assert q == q2;
    if |s.groupByStatement| > 0 {
      q := q + [GroupBy(s.groupByStatement)];
    }
    q := AppendHaving(q, s.havingStatement);
    ghost var q3 := q2 + (if |s.groupByStatement| > 0 then [GroupBy(s.groupByStatement)] else [])
                    + HavingClauses(s.havingStatement);
    assert q == q3;
    if s.limitStatement.limit > 0 {
      q := q + [Limit(s.limitStatement.limit, s.limitStatement.offset)];
    }
    if s.fetchStatement.fetch > 0 {
      q := q + [Fetch(s.fetchStatement.offset, s.fetchStatement.fetch)];
    }
    ghost var q4 := q3 + (if s.limitStatement.limit > 0 then [Limit(s.limitStatement.limit, s.limitStatement.offset)] else [])
                    + (if s.fetchStatement.fetch > 0 then [Fetch(s.fetchStatement.offset, s.fetchStatement.fetch)] else []);
    assert q == q4;
    q := AppendOrderBy(q, s.orderByStatement);
    assert q == q4 + OrderClauses(s.orderByStatement);
  }

  /** The shape of every query Find assembles: its WHERE clauses are the
      primary condition, the configured conditions and whereFromModel's, with
      no in-struct filters; the other clauses come in the order
      select/from, joins, group by, having, limit, fetch, order by. */
  lemma FindLayout(s: BuilderState, t: Table, fromModel: seq<Clause>)
    requires forall k | 0 <= k < |fromModel| :: IsFilter(fromModel[k])
    ensures var q := FindQuery(s, t, fromModel);
            && Filters(q) == FindPrimaryClause(PrimaryKey(t), s.wherePrimaryCondition)
                             + ConditionClauses(s.whereStatement) + fromModel
            && Others(q) == [Select(SelectColumns(s.selectStatement)), From(t.name)]
                            + JoinClauses(s.joinStatement)
                            + (if |s.groupByStatement| > 0 then [GroupBy(s.groupByStatement)] else [])
                            + HavingClauses(s.havingStatement)
                            + (if s.limitStatement.limit > 0
                               then [Limit(s.limitStatement.limit, s.limitStatement.offset)] else [])
                            + (if s.fetchStatement.fetch > 0
                               then [Fetch(s.fetchStatement.offset, s.fetchStatement.fetch)] else [])
                            + OrderClauses(s.orderByStatement)
  {
    var head := [Select(SelectColumns(s.selectStatement)), From(t.name)];
    var jc := JoinClauses(s.joinStatement);
    var pc := FindPrimaryClause(PrimaryKey(t), s.wherePrimaryCondition);
    var cc := ConditionClauses(s.whereStatement);
    var gb := if |s.groupByStatement| > 0 then [GroupBy(s.groupByStatement)] else [];
    var hc := HavingClauses(s.havingStatement);
    var lc := if s.limitStatement.limit > 0 then [Limit(s.limitStatement.limit, s.limitStatement.offset)] else [];
    var fc := if s.fetchStatement.fetch > 0 then [Fetch(s.fetchStatement.offset, s.fetchStatement.fetch)] else [];
    var oc := OrderClauses(s.orderByStatement);
    ConditionClausesAreFilters(s.whereStatement);
    LayoutOfFindParts(head, jc, pc, cc, fromModel, gb, hc, lc, fc, oc);
    assert FindQuery(s, t, fromModel) == head + jc + pc + cc + fromModel + gb + hc + lc + fc + oc;
  }

  lemma LayoutOfFindParts(head: seq<Clause>, jc: seq<Clause>, pc: seq<Clause>, cc: seq<Clause>,
                          fm: seq<Clause>, gb: seq<Clause>, hc: seq<Clause>, lc: seq<Clause>,
                          fc: seq<Clause>, oc: seq<Clause>)
    requires forall k | 0 <= k < |head| :: !IsFilter(head[k])
    requires forall k | 0 <= k < |jc| :: !IsFilter(jc[k])
    requires forall k | 0 <= k < |pc| :: IsFilter(pc[k])
    requires forall k | 0 <= k < |cc| :: IsFilter(cc[k])
    requires forall k | 0 <= k < |fm| :: IsFilter(fm[k])
    requires forall k | 0 <= k < |gb| :: !IsFilter(gb[k])
    requires forall k | 0 <= k < |hc| :: !IsFilter(hc[k])
    requires forall k | 0 <= k < |lc| :: !IsFilter(lc[k])
    requires forall k | 0 <= k < |fc| :: !IsFilter(fc[k])
    requires forall k | 0 <= k < |oc| :: !IsFilter(oc[k])
    ensures Filters(head + jc + pc + cc + fm + gb + hc + lc + fc + oc) == pc + cc + fm
    ensures Others(head + jc + pc + cc + fm + gb + hc + lc + fc + oc) == head + jc + gb + hc + lc + fc + oc
  {
    var q1 := head + jc;
    var q2 := q1 + pc;
    var q3 := q2 + cc;
    var q4 := q3 + fm;
    var q5 := q4 + gb;
    var q6 := q5 + hc;
    var q7 := q6 + lc;
    var q8 := q7 + fc;
    NoFilters(head);
    AppendOthers(head, jc);
    assert Filters(q1) == [] && Others(q1) == head + jc;
    AppendFilters(q1, pc);
    assert Filters(q2) == pc && Others(q2) == head + jc;
    AppendFilters(q2, cc);
    assert Filters(q3) == pc + cc && Others(q3) == head + jc;
    AppendFilters(q3, fm);
    assert Filters(q4) == pc + cc + fm && Others(q4) == head + jc;
    AppendOthers(q4, gb);
    assert Filters(q5) == pc + cc + fm && Others(q5) == head + jc + gb;
    AppendOthers(q5, hc);
    assert Filters(q6) == pc + cc + fm && Others(q6) == head + jc + gb + hc;
    AppendOthers(q6, lc);
    assert Filters(q7) == pc + cc + fm && Others(q7) == head + jc + gb + hc + lc;
    AppendOthers(q7, fc);
    assert Filters(q8) == pc + cc + fm && Others(q8) == head + jc + gb + hc + lc + fc;
    AppendOthers(q8, oc);
  }

  /** The pagination and grouping clauses of Find are conditional: a Limit
      exactly when the limit is positive, a Fetch exactly when the fetch count
      is positive, a GroupBy exactly when there are group-by items; each
      carries the configured values. */
  lemma FindConditionalClauses(s: BuilderState, t: Table, fromModel: seq<Clause>)
    requires forall k | 0 <= k < |fromModel| :: IsFilter(fromModel[k])
    ensures var q := FindQuery(s, t, fromModel);
            && (forall c | c in q && c.Limit? ::
                  s.limitStatement.limit > 0 && c == Limit(s.limitStatement.limit, s.limitStatement.offset))
            && (s.limitStatement.limit > 0 ==> Limit(s.limitStatement.limit, s.limitStatement.offset) in q)
            && (forall c | c in q && c.Fetch? ::
                  s.fetchStatement.fetch > 0 && c == Fetch(s.fetchStatement.offset, s.fetchStatement.fetch))
            && (s.fetchStatement.fetch > 0 ==> Fetch(s.fetchStatement.offset, s.fetchStatement.fetch) in q)
            && (forall c | c in q && c.GroupBy? ::
                  |s.groupByStatement| > 0 && c == GroupBy(s.groupByStatement))
            && (|s.groupByStatement| > 0 ==> GroupBy(s.groupByStatement) in q)
  {
    ConditionClausesAreFilters(s.whereStatement);
    var head := [Select(SelectColumns(s.selectStatement)), From(t.name)];
    var jc := JoinClauses(s.joinStatement);
    var pc := FindPrimaryClause(PrimaryKey(t), s.wherePrimaryCondition);
    var cc := ConditionClauses(s.whereStatement);
    var gb := if |s.groupByStatement| > 0 then [GroupBy(s.groupByStatement)] else [];
    var hc := HavingClauses(s.havingStatement);
    var lc := if s.limitStatement.limit > 0 then [Limit(s.limitStatement.limit, s.limitStatement.offset)] else [];
    var fc := if s.fetchStatement.fetch > 0 then [Fetch(s.fetchStatement.offset, s.fetchStatement.fetch)] else [];
    var oc := OrderClauses(s.orderByStatement);
    assert forall k | 0 <= k < |jc| :: jc[k].Join?;
    assert forall k | 0 <= k < |hc| :: hc[k].Having?;
    assert forall k | 0 <= k < |oc| :: oc[k].OrderBy?;
    PaginationOfParts(head, jc, pc, cc, fromModel, gb, hc, lc, fc, oc);
    assert FindQuery(s, t, fromModel) == head + jc + pc + cc + fromModel + gb + hc + lc + fc + oc;
  }

  /** Where the Limit, Fetch and GroupBy clauses of a Find query can come from. */
  lemma PaginationOfParts(head: seq<Clause>, jc: seq<Clause>, pc: seq<Clause>, cc: seq<Clause>,
                          fm: seq<Clause>, gb: seq<Clause>, hc: seq<Clause>, lc: seq<Clause>,
                          fc: seq<Clause>, oc: seq<Clause>)
    requires forall k | 0 <= k < |head| :: head[k].Select? || head[k].From?
    requires forall k | 0 <= k < |jc| :: jc[k].Join?
    requires forall k | 0 <= k < |pc| :: IsFilter(pc[k])
    requires forall k | 0 <= k < |cc| :: IsFilter(cc[k])
    requires forall k | 0 <= k < |fm| :: IsFilter(fm[k])
    requires forall k | 0 <= k < |gb| :: gb[k].GroupBy?
    requires forall k | 0 <= k < |hc| :: hc[k].Having?
    requires forall k | 0 <= k < |lc| :: lc[k].Limit?
    requires forall k | 0 <= k < |fc| :: fc[k].Fetch?
    requires forall k | 0 <= k < |oc| :: oc[k].OrderBy?
    ensures forall c | c in head + jc + pc + cc + fm + gb + hc + lc + fc + oc ::
              (c.Limit? ==> c in lc) && (c.Fetch? ==> c in fc) && (c.GroupBy? ==> c in gb)
  {
    forall c | c in head + jc + pc + cc + fm + gb + hc + lc + fc + oc
      ensures (c.Limit? ==> c in lc) && (c.Fetch? ==> c in fc) && (c.GroupBy? ==> c in gb)
    {
      if c.Limit? || c.Fetch? || c.GroupBy? {
        assert c !in head && c !in jc && c !in pc && c !in cc && c !in fm && c !in hc && c !in oc;
      }
    }
  }

  /** Find with an id list on a type with a primary key filters first by an
      IN condition on the key over exactly those ids. */
  lemma FindByIds(s: BuilderState, target: Target, params: seq<Value>, fromModel: seq<Clause>,
                  queryReply: Option<Error>, countReply: CountReply)
    requires s.raw.sqlStr == "" && target.shape == PtrToSlice
    requires PrimaryKey(target.table).Some? && |params| > 0 && params[0].Slice?
    requires forall k | 0 <= k < |fromModel| :: IsFilter(fromModel[k])
    ensures var o := FindOutcome(s, target, params, fromModel, queryReply, countReply).1;
            && |o.effects| >= 1 && o.effects[0].QueryRows?
            && Filters(o.effects[0].query) != []
            && Filters(o.effects[0].query)[0] ==
               WhereCondition(Condition(Text(PrimaryKey(target.table).value), In, params[0], And, []))
  {
    var primary := Condition(Text(PrimaryKey(target.table).value), In, params[0], And, []);
    FindLayout(s.(wherePrimaryCondition := primary), target.table, fromModel);
  }

  /** Find's filters do not depend on the record's columns or values: only
      on the table's name and primary key. */
  lemma FindIgnoresRecordData(s: BuilderState, t1: Table, t2: Table, fromModel: seq<Clause>)
    requires t1.name == t2.name && PrimaryKey(t1) == PrimaryKey(t2)
    ensures FindQuery(s, t1, fromModel) == FindQuery(s, t2, fromModel)
  {
  }

  /** Find resets the builder only when the raw query ran or both the row
      query and the count query succeeded; otherwise it keeps the state (with
      the id-list condition, if one was installed) and reports a zero total. */
  lemma FindResets(s: BuilderState, target: Target, params: seq<Value>, fromModel: seq<Clause>,
                   queryReply: Option<Error>, countReply: CountReply)
    ensures var (total, o) := FindOutcome(s, target, params, fromModel, queryReply, countReply);
            && (s.raw.sqlStr != "" ==>
                  && o.effects == [RawSelect(s.raw.sqlStr, s.raw.args, s.tx.Some?)]
                  && o.after == EMPTY_STATE && total == 0 && o.err == queryReply)
            && (s.raw.sqlStr == "" && o.err.None? ==>
                  && o.after == EMPTY_STATE && |o.effects| == 2
                  && o.effects[0].QueryRows? && o.effects[1] == CountRows(o.effects[0].query)
                  && countReply.Counted? && total == countReply.total)
            && (s.raw.sqlStr == "" && o.err.Some? ==>
                  o.after == s.(wherePrimaryCondition := o.after.wherePrimaryCondition) && total == 0)
            && (s.raw.sqlStr == "" && target.shape == NilShape ==> o == Outcome(Some(Panic(NilType)), [], s))
            && (s.raw.sqlStr == "" && target.shape !in {PtrToSlice, NilShape} ==>
                  o == Outcome(Some(ModelNotSlicePointer), [], s) && total == 0)
            && (s.raw.sqlStr == "" && target.shape == PtrToSlice && PrimaryKey(target.table).Some? && |params| > 0 ==>
                  && (params[0] == Nil ==> o == Outcome(Some(Panic(NilType)), [], s))
                  && (params[0] != Nil && !params[0].Slice? ==> o == Outcome(Some(ParamsNotSlice), [], s)))
  {
  }

  /** Without a primary key the id list is ignored: Find behaves as if it had
      no parameters at all. */
  lemma FindParamsNeedKey(s: BuilderState, target: Target, params: seq<Value>, fromModel: seq<Clause>,
                          queryReply: Option<Error>, countReply: CountReply)
    requires PrimaryKey(target.table).None?
    ensures FindOutcome(s, target, params, fromModel, queryReply, countReply) ==
            FindOutcome(s, target, [], fromModel, queryReply, countReply)
  {
  }
}
