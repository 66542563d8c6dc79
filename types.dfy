/** Values, conditions, table metadata, the abstract clause list and the
    builder-state snapshot shared by query and update assembly. */
module FluentTypes {

  datatype Option<+T> = None | Some(value: T)

  /** A Go `any` value as far as the builder looks at it; `Nil` is the nil
      interface. A `Slice` always stands for a non-nil slice. */
  datatype Value = Nil | Int(i: int) | Text(s: string) | Bool(b: bool) | Slice(items: seq<Value>)

  /** reflect.Value.IsZero on the values above. */
  predicate IsZero(v: Value) {
    match v
    case Nil => true
    case Int(i) => i == 0
    case Text(s) => s == ""
    case Bool(b) => !b
    case Slice(_) => false
  }

  /** Comparison operators of the external query builder. */
  datatype Operator = Eq | NotEq | Lt | Lte | Gt | Gte | In | NotIn | Like | NotLike

  /** Conjunction kind of a condition; any code other than And and Or is `OtherJoin`. */
  datatype AndOr = And | Or | OtherJoin(code: int)

  /** A leaf (field, opt, value) or, when `group` is non-empty, a parenthesised group. */
  datatype Condition = Condition(field: Value, opt: Operator, value: Value, andOr: AndOr, group: seq<Condition>)

  /** The zero Condition. Its operator and conjunction are never consulted,
      because every reader of the primary condition first checks that the value is not nil. */
  const ZERO_CONDITION: Condition := Condition(Nil, Eq, Nil, And, [])

  datatype JoinKind = InnerJoin | LeftJoin | RightJoin | FullOuterJoin | CrossJoin
  datatype JoinItem = JoinItem(join: JoinKind, table: string, condition: Condition)

  /** Ordering direction; `ZeroDir` is the zero value of the builder's direction type. */
  datatype Direction = Asc | Desc | ZeroDir
  datatype OrderItem = OrderItem(field: string, direction: Direction)

  datatype LimitSpec = LimitSpec(limit: int, offset: int)
  datatype FetchSpec = FetchSpec(offset: int, fetch: int)
  datatype RawQuery = RawQuery(sqlStr: string, args: seq<Value>)
  datatype TxHandle = TxHandle(id: nat)

  /** Column metadata; `updatable` is the verdict of CanColumnBeAddOrUpdate for the column. */
  datatype Column = Column(name: string, hasValue: bool, updatable: bool)

  /** Table metadata derived from a record. */
  datatype Table = Table(name: string, columns: seq<Column>, primaries: seq<Column>,
                         values: map<string, Value>, hasData: bool)

  /** Reading a Go map: a missing key yields the nil value. */
  function Lookup(values: map<string, Value>, name: string): Value {
    if name in values then values[name] else Nil
  }

  /** The first declared primary column's name, if the table has a primary key. */
  function PrimaryKey(t: Table): Option<string> {
    if |t.primaries| > 0 then Some(t.primaries[0].name) else None
  }

  /** One call appended to the external query or update builder. */
  datatype Clause =
    | Select(columns: seq<string>)
    | From(table: string)
    | Limit(limit: int, offset: int)
    | Where(field: Value, opt: Operator, value: Value)
    | WhereOr(field: Value, opt: Operator, value: Value)
    | WhereGroup(group: seq<Condition>)
    | WhereCondition(condition: Condition)
    | Join(join: JoinKind, table: string, on: Condition)
    | GroupBy(items: seq<string>)
    | Having(field: Value, opt: Operator, value: Value)
    | Fetch(offset: int, fetch: int)
    | OrderBy(orderField: string, direction: Direction)
    | UpdateTable(table: string)
    | Set(column: string, value: Value)

  /** A call issued to the database layer. */
  datatype Effect =
    | RawGet(sql: string, args: seq<Value>, viaTx: bool)
    | RawSelect(sql: string, args: seq<Value>, viaTx: bool)
    | RawExec(sql: string, args: seq<Value>)
    | GetRow(query: seq<Clause>)
    | QueryRows(query: seq<Clause>)
    | CountRows(query: seq<Clause>)
    | RunUpdate(statement: seq<Clause>)

  /** Go runtime panics the code can reach. */
  datatype PanicCause =
    | NilType               // Kind() called on reflect.TypeOf(nil)
    | IndexOutOfRange       // Columns[0] of a table without columns
    | NonPositiveRandBound  // rand.Int with an upper bound <= 0

  /** The errors; the comments give the texts the layer itself produces. */
  datatype Error =
    | ModelNotStruct        // "invalid data :: model not Struct type"
    | ModelNotSlicePointer  // "invalid data :: model not *Slice type"
    | ParamsNotSlice        // "invalid data :: params not Slice type"
    | MissingModel          // "missing model for map value"
    | MissingWhere          // "missing WHERE condition for updating operator"
    | UnknownField(name: string)
    | Driver(code: int)
    | Panic(cause: PanicCause)

  datatype Result<T> = Ok(value: T) | Err(error: Error)

  /** The reflect kind of a terminal operation's target. */
  datatype Shape = NilShape | StructShape | PtrToStruct | PtrToSlice | MapShape | OtherShape

  /** A target: its shape, and the table metadata its type yields. */
  datatype Target = Target(shape: Shape, table: Table)

  /** Single-row strategies. */
  datatype Strategy = GetFirst | GetLast | TakeOne

  /** The database's answer to the count query. */
  datatype CountReply = Counted(total: int) | CountFailed(error: Error)

  /** A declared field of a record type: its column name and tag flags. */
  datatype ColumnDecl = ColumnDecl(name: string, primary: bool, updatable: bool)

  function DeclNames(decls: seq<ColumnDecl>): set<string> {
    set i | 0 <= i < |decls| :: decls[i].name
  }

  function ColumnOf(d: ColumnDecl, fields: map<string, Value>): Column {
    Column(d.name, !IsZero(Lookup(fields, d.name)), d.updatable)
  }

  function ColumnsOf(decls: seq<ColumnDecl>, fields: map<string, Value>): seq<Column> {
    seq(|decls|, i requires 0 <= i < |decls| => ColumnOf(decls[i], fields))
  }

  function PrimariesOf(decls: seq<ColumnDecl>, fields: map<string, Value>): seq<Column> {
    if decls == [] then []
    else
      var last := decls[|decls| - 1];
      PrimariesOf(decls[..|decls| - 1], fields) + (if last.primary then [ColumnOf(last, fields)] else [])
  }

  /** Table metadata of a record with the given declarations and field values:
      a column holds a value iff its field is non-zero. */
  function TableOf(name: string, decls: seq<ColumnDecl>, fields: map<string, Value>): Table {
    Table(name, ColumnsOf(decls, fields), PrimariesOf(decls, fields),
          map n | n in DeclNames(decls) :: Lookup(fields, n),
          exists i | 0 <= i < |decls| :: !IsZero(Lookup(fields, decls[i].name)))
  }

  /** The invariants of table metadata: every primary is a column, the value
      map is keyed by exactly the column names, and HasData says some column holds a value. */
  predicate WellFormed(t: Table) {
    && (forall p | p in t.primaries :: p in t.columns)
    && t.values.Keys == (set i | 0 <= i < |t.columns| :: t.columns[i].name)
    && (t.hasData <==> exists i | 0 <= i < |t.columns| :: t.columns[i].hasValue)
  }

  lemma {:induction false} PrimariesAreColumns(decls: seq<ColumnDecl>, fields: map<string, Value>)
    ensures forall p | p in PrimariesOf(decls, fields) :: p in ColumnsOf(decls, fields)
    decreases |decls|
  {
    if decls != [] {
      var init := decls[..|decls| - 1];
      PrimariesAreColumns(init, fields);
      forall p | p in PrimariesOf(decls, fields) ensures p in ColumnsOf(decls, fields) {
        if p in PrimariesOf(init, fields) {
          var j :| 0 <= j < |init| && ColumnsOf(init, fields)[j] == p;
          assert ColumnsOf(decls, fields)[j] == p;
        } else {
          assert ColumnsOf(decls, fields)[|decls| - 1] == p;
        }
      }
    }
  }

  /** Table metadata read off a record always satisfies the invariants. */
  lemma TableOfWellFormed(name: string, decls: seq<ColumnDecl>, fields: map<string, Value>)
    ensures WellFormed(TableOf(name, decls, fields))
  {
    var t := TableOf(name, decls, fields);
    PrimariesAreColumns(decls, fields);
    assert (set i | 0 <= i < |t.columns| :: t.columns[i].name) == DeclNames(decls) by {
      forall n | n in DeclNames(decls) ensures n in (set i | 0 <= i < |t.columns| :: t.columns[i].name) {
        var i :| 0 <= i < |decls| && decls[i].name == n;
        assert t.columns[i].name == n;
      }
    }
    if t.hasData {
      var i :| 0 <= i < |decls| && !IsZero(Lookup(fields, decls[i].name));
      assert t.columns[i].hasValue;
    }
  }

  /** The record bound to the builder for map-based updates. Its field values
      change in place when map entries are written onto it. */
  class Record {
    const tableName: string
    const decls: seq<ColumnDecl>
    var fields: map<string, Value>

    constructor (tableName: string, decls: seq<ColumnDecl>, fields: map<string, Value>)
      ensures this.tableName == tableName && this.decls == decls && this.fields == fields
    {
      this.tableName := tableName;
      this.decls := decls;
      this.fields := fields;
    }

    /** The record's table metadata at its current field values. */
    function Describe(): Table
      reads this
    {
      TableOf(tableName, decls, fields)
    }

    /** Writes `v` into the field named `name`; a name that is not a declared field is an error. */
    method SetValue(name: string, v: Value) returns (err: Option<Error>)
      modifies this
      ensures name in DeclNames(decls) ==> err == None && fields == old(fields)[name := v]
      ensures name !in DeclNames(decls) ==> err == Some(UnknownField(name)) && fields == old(fields)
    {
      if name in DeclNames(decls) {
        fields := fields[name := v];
        err := None;
      } else {
        err := Some(UnknownField(name));
      }
    }
  }

  /** A snapshot of every field of the fluent builder. */
  datatype BuilderState = BuilderState(
    selectStatement: seq<string>,
    whereStatement: seq<Condition>,
    joinStatement: seq<JoinItem>,
    groupByStatement: seq<string>,
    havingStatement: seq<Condition>,
    limitStatement: LimitSpec,
    fetchStatement: FetchSpec,
    orderByStatement: seq<OrderItem>,
    omitsSelectStatement: seq<string>,
    wherePrimaryCondition: Condition,
    raw: RawQuery,
    model: Record?,
    tx: Option<TxHandle>)

  /** The builder after reset: every field at its zero value. */
  const EMPTY_STATE: BuilderState :=
    BuilderState([], [], [], [], [], LimitSpec(0, 0), FetchSpec(0, 0), [], [],
                 ZERO_CONDITION, RawQuery("", []), null, None)

  /** What a terminal operation returns, issues and leaves behind. */
  datatype Outcome = Outcome(err: Option<Error>, effects: seq<Effect>, after: BuilderState)
}
