/** The fluent builder itself: its fields, reset, and the terminal operations
    First, Last, Take (through GetOne), Find and Update (through updateByMap
    and updateByStruct), each proved against its outcome specification. */
module FluentModel {
  import opened FluentTypes
  import opened WhereAssembly
  import opened QueryBuilder
  import opened UpdateBuilder

  /** The argument handed to Update, by its reflect kind. */
  datatype UpdateArg =
    | NilArg                              // an untyped nil
    | MapArg(entries: map<string, Value>, dynamic: bool) // a map of field names to values; `dynamic` when its element type is an interface
    | StructArg(record: Record)           // a struct or a pointer to a struct
    | OtherArg                            // any other kind

  /** Update's epilogue: an error ends the process before the reset (the log
      call that terminates it is not modelled), anything else resets the builder. */
  function Finish(o: Outcome): Outcome {
    if o.err.Some? then o else o.(after := EMPTY_STATE)
  }

  /** Update resets the builder exactly on the non-fatal paths, and issues
      what the path it took issued. */
  lemma FinishResets(o: Outcome)
    ensures Finish(o).effects == o.effects && Finish(o).err == o.err
    ensures Finish(o).after == (if o.err.None? then EMPTY_STATE else o.after)
  {
  }

  class DBModel {
    var selectStatement: seq<string>
    var whereStatement: seq<Condition>
    var joinStatement: seq<JoinItem>
    var groupByStatement: seq<string>
    var havingStatement: seq<Condition>
    var limitStatement: LimitSpec
    var fetchStatement: FetchSpec
    var orderByStatement: seq<OrderItem>
    var omitsSelectStatement: seq<string>
    var wherePrimaryCondition: Condition
    var raw: RawQuery
    var model: Record?
    var tx: Option<TxHandle>

    /** A snapshot of every field. */
    function State(): BuilderState
      reads this
    {
      BuilderState(selectStatement, whereStatement, joinStatement, groupByStatement, havingStatement,
                   limitStatement, fetchStatement, orderByStatement, omitsSelectStatement,
                   wherePrimaryCondition, raw, model, tx)
    }

    constructor ()
      ensures State() == EMPTY_STATE
    {
      selectStatement, whereStatement, joinStatement, groupByStatement, havingStatement := [], [], [], [], [];
      limitStatement, fetchStatement, orderByStatement, omitsSelectStatement := LimitSpec(0, 0), FetchSpec(0, 0), [], [];
      wherePrimaryCondition, raw, model, tx := ZERO_CONDITION, RawQuery("", []), null, None;
    }

    /** Clears every field to its zero value. */
    method Reset()
      modifies this
      ensures State() == EMPTY_STATE
    {
      selectStatement := [];
      whereStatement := [];
      joinStatement := [];
      groupByStatement := [];
      havingStatement := [];
      limitStatement := LimitSpec(0, 0);
      fetchStatement := FetchSpec(0, 0);
      orderByStatement := [];
      omitsSelectStatement := [];
      wherePrimaryCondition := ZERO_CONDITION;
      raw := RawQuery("", []);
      model := null;
      tx := None;
    }

    // -------------------------------------------------------------------------
    // Query ONE row
    // -------------------------------------------------------------------------

    method First(target: Target, args: seq<Value>, fromModel: seq<Clause>, reply: Option<Error>)
      returns (err: Option<Error>, effects: seq<Effect>)
      modifies this
      ensures Outcome(err, effects, State()) ==
              GetOneOutcome(FirstState(old(State()), args), target, GetFirst, 0, 0, fromModel, reply)
    {
      if |args| > 0 {
        wherePrimaryCondition := Condition(Nil, Eq, args[0], And, []);
      }
      err, effects := GetOne(target, GetFirst, 0, 0, fromModel, reply);
    }

    method Take(target: Target, colDraw: nat, dirDraw: nat, fromModel: seq<Clause>, reply: Option<Error>)
      returns (err: Option<Error>, effects: seq<Effect>)
      requires DrawsInRange(target.table, TakeOne, colDraw, dirDraw)
      modifies this
      ensures Outcome(err, effects, State()) ==
              GetOneOutcome(old(State()), target, TakeOne, colDraw, dirDraw, fromModel, reply)
    {
      err, effects := GetOne(target, TakeOne, colDraw, dirDraw, fromModel, reply);
    }

    method Last(target: Target, fromModel: seq<Clause>, reply: Option<Error>)
      returns (err: Option<Error>, effects: seq<Effect>)
      modifies this
      ensures Outcome(err, effects, State()) == GetOneOutcome(old(State()), target, GetLast, 0, 0, fromModel, reply)
    {
      err, effects := GetOne(target, GetLast, 0, 0, fromModel, reply);
    }

    /** GetOne with strategy `getType`; `colDraw` and `dirDraw` are TakeOne's
        two random draws, `fromModel` the clauses whereFromModel appends and
        `reply` the database's answer to the one call issued. */
    method GetOne(target: Target, getType: Strategy, colDraw: nat, dirDraw: nat,
                  fromModel: seq<Clause>, reply: Option<Error>)
      returns (err: Option<Error>, effects: seq<Effect>)
      requires DrawsInRange(target.table, getType, colDraw, dirDraw)
      modifies this
      ensures Outcome(err, effects, State()) ==
              GetOneOutcome(old(State()), target, getType, colDraw, dirDraw, fromModel, reply)
    {
      if raw.sqlStr != "" {
        // through the transaction when one is set, else the default connection
        effects := [RawGet(raw.sqlStr, raw.args, tx.Some?)];
        err := reply;
        Reset();
        return;
      }
      if target.shape == NilShape {
        err, effects := Some(Panic(NilType)), [];
        return;
      }
      if !(target.shape == StructShape || target.shape == PtrToStruct) {
        err, effects := Some(ModelNotStruct), [];
        return;
      }
      var query := AssembleOne(State(), target.table, getType, colDraw, dirDraw, fromModel);
      if query.Err? {
        err, effects := Some(query.error), [];
        return;
      }
      var q := query.value;
      effects := [GetRow(q)];
      err := reply;
      Reset();
    }

    // -------------------------------------------------------------------------
    // Query MULTI rows
    // -------------------------------------------------------------------------

    /** Find with the id list `params`; `queryReply` and `countReply` are the
        database's answers to the row query and to the count query. */
    method Find(target: Target, params: seq<Value>, fromModel: seq<Clause>,
                queryReply: Option<Error>, countReply: CountReply)
      returns (total: int, err: Option<Error>, effects: seq<Effect>)
      modifies this
      ensures (total, Outcome(err, effects, State())) ==
              FindOutcome(old(State()), target, params, fromModel, queryReply, countReply)
    {
      total := 0;
      if raw.sqlStr != "" {
        effects := [RawSelect(raw.sqlStr, raw.args, tx.Some?)];
        err := queryReply;
        Reset();
        return;
      }
      if target.shape == NilShape {
        err, effects := Some(Panic(NilType)), [];
        return;
      }
      if target.shape != PtrToSlice {
        err, effects := Some(ModelNotSlicePointer), [];
        return;
      }
      var table := target.table;
      var primaryKey := PrimaryKey(table);
      if |params| > 0 && primaryKey.Some? {
        var sliceIds := params[0];
        if sliceIds == Nil {
          err, effects := Some(Panic(NilType)), [];
          return;
        }
        if !sliceIds.Slice? {
          err, effects := Some(ParamsNotSlice), [];
          return;
        }
        wherePrimaryCondition := Condition(Text(primaryKey.value), In, sliceIds, And, []);
      }

      assert State() == old(State()).(wherePrimaryCondition := wherePrimaryCondition);
      assert FindPrimary(table, params, old(wherePrimaryCondition)) == Ok(wherePrimaryCondition);
      var q := AssembleMany(State(), table, fromModel);
      effects := [QueryRows(q)];
      if queryReply.Some? {
        err := queryReply;
        return;
      }
      effects := effects + [CountRows(q)];
      assert effects == [QueryRows(q), CountRows(q)];
      match countReply
      case CountFailed(e) =>
        err := Some(e);
        return;
      case Counted(n) =>
        total := n;
      err := None;
      Reset();
    }

    // -------------------------------------------------------------------------
    // Update
    // -------------------------------------------------------------------------

    /** Update dispatch: a raw statement first, then a map, then a record;
        `reply` is the database's answer to the one statement issued. */
    method Update(arg: UpdateArg, reply: Option<Error>) returns (err: Option<Error>, effects: seq<Effect>)
      modifies this, model
      ensures old(raw.sqlStr) != "" ==>
                Outcome(err, effects, State()) ==
                Finish(Outcome(reply, [RawExec(old(raw.sqlStr), old(raw.args))], old(State())))
      ensures old(raw.sqlStr) == "" && arg.NilArg? ==>
                Outcome(err, effects, State()) == Outcome(Some(Panic(NilType)), [], old(State()))
      ensures old(raw.sqlStr) == "" && arg.MapArg? && old(model) == null ==>
                Outcome(err, effects, State()) == Outcome(Some(MissingModel), [], old(State()))
      ensures old(raw.sqlStr) == "" && arg.MapArg? && old(model) != null ==>
                && old(model).fields == ApplyEntries(old(model.fields), arg.entries, arg.dynamic, DeclNames(old(model).decls))
                && Outcome(err, effects, State()) ==
                   Finish(UpdateStructOutcome(old(State()), old(model).Describe(), reply))
      ensures old(raw.sqlStr) == "" && arg.StructArg? ==>
                Outcome(err, effects, State()) ==
                Finish(UpdateStructOutcome(old(State()), old(arg.record.Describe()), reply))
      ensures old(raw.sqlStr) == "" && arg.OtherArg? ==> Outcome(err, effects, State()) == Outcome(None, [], EMPTY_STATE)
      ensures !(old(raw.sqlStr) == "" && arg.MapArg?) && old(model) != null ==> old(model).fields == old(model.fields)
    {
      if raw.sqlStr != "" {
        effects := [RawExec(raw.sqlStr, raw.args)];
        err := reply;
      } else if arg.NilArg? {
        err, effects := Some(Panic(NilType)), [];
        return;
      } else if arg.MapArg? {
        err, effects := UpdateByMap(arg.entries, arg.dynamic, reply);
      } else if arg.StructArg? {
        err, effects := UpdateByStruct(arg.record.Describe(), reply);
      } else {
        err, effects := None, [];
      }

      if err.Some? {
        return;
      }
      Reset();
    }

    /** updateByMap: writes the map's non-zero entries onto the bound record,
        in whichever order the keys come, then updates from that record. */
    method UpdateByMap(entries: map<string, Value>, dynamic: bool, reply: Option<Error>) returns (err: Option<Error>, effects: seq<Effect>)
      modifies this, model
      ensures old(model) == null ==> err == Some(MissingModel) && effects == [] && State() == old(State())
      ensures old(model) != null ==>
                && old(model).fields == ApplyEntries(old(model.fields), entries, dynamic, DeclNames(old(model).decls))
                && Outcome(err, effects, State()) == UpdateStructOutcome(old(State()), old(model).Describe(), reply)
    {
      if model == null {
        err, effects := Some(MissingModel), [];
        return;
      }
      var bound := model;
      var f0 := bound.fields;
      var names := DeclNames(bound.decls);
      var keys := entries.Keys;
      ghost var done: set<string> := {};
      RestrictAll(entries);
      ApplyNothing(f0, dynamic, names);
      err := None;
      while keys != {}
        invariant done <= entries.Keys && keys == entries.Keys - done
        invariant bound.fields == ApplyEntries(f0, Restrict(entries, done), dynamic, names)
        invariant model == bound && State() == old(State())
        modifies bound
        decreases keys
      {
        var key :| key in keys;
        var itemVal := entries[key];
        if IsSet(itemVal, dynamic) {
          err := bound.SetValue(key, itemVal);
        }
        ApplyEntriesStep(f0, entries, dynamic, names, done, key);
        done := done + {key};
        keys := keys - {key};
      }
      err, effects := UpdateByStruct(bound.Describe(), reply);
    }

    /** updateByStruct on a record with table metadata `t`. */
    method UpdateByStruct(t: Table, reply: Option<Error>) returns (err: Option<Error>, effects: seq<Effect>)
      modifies this
      ensures Outcome(err, effects, State()) == UpdateStructOutcome(old(State()), t, reply)
    {
      var primaryKey := PrimaryKey(t);
      var hasCondition := false;
      var columns: seq<string> := [];
      var values: seq<Value> := [];

      var primary := wherePrimaryCondition;
      var i := 0;
      while i < |t.columns|
        invariant 0 <= i <= |t.columns|
        invariant primary ==
                  PrimaryAfterColumns(t.columns[..i], primaryKey, omitsSelectStatement, t.values, wherePrimaryCondition)
      {
        var column := t.columns[i];
        if column.updatable && !(|omitsSelectStatement| > 0 && column.name in omitsSelectStatement) {
          var value := Lookup(t.values, column.name);
          columns := columns + [column.name];
          values := values + [value];
          if primaryKey.Some? && column.name == primaryKey.value {
            primary := Condition(Text(primaryKey.value), Eq, value, And, []);
          }
        }
        assert t.columns[..i + 1][..i] == t.columns[..i];
        i := i + 1;
      }
      assert t.columns[..|t.columns|] == t.columns;
      wherePrimaryCondition := primary;

      var q := [UpdateTable(t.name)];
      if wherePrimaryCondition.value != Nil && primaryKey.Some? {
        q := q + [Where(Text(primaryKey.value), wherePrimaryCondition.opt, wherePrimaryCondition.value)];
        hasCondition := true;
      }
      assert q == [UpdateTable(t.name)] + PrimaryWhere(primaryKey, wherePrimaryCondition);
      var emitted;
      q, emitted := AppendConditions(q, whereStatement);
      hasCondition := hasCondition || emitted;
      ConditionClausesEmptyIff(whereStatement);

      if !hasCondition {
        err, effects := Some(MissingWhere), [];
        return;
      }
      q := AppendSets(q, t.columns, t.values);
      assert q == UpdateClauses(t, wherePrimaryCondition, whereStatement).value;
      effects := [RunUpdate(q)];
      err := reply;
    }
  }
}
