/** Update assembly: the primary-key capture over the kept columns, the
    "no WHERE, no update" guard, the SET list, and the map entries written
    onto the bound record before a map-based update. */
module UpdateBuilder {
  import opened FluentTypes
  import opened WhereAssembly

  // ---------------------------------------------------------------------------
  // Full-record path
  // ---------------------------------------------------------------------------

  /** A column survives the column loop's two filters: it may be updated and it is not omitted. */
  predicate Kept(c: Column, omits: seq<string>) {
    c.updatable && !(|omits| > 0 && c.name in omits)
  }

  /** The equality on the primary key that the column loop installs. */
  function PrimaryCondition(pk: string, values: map<string, Value>): Condition {
    Condition(Text(pk), Eq, Lookup(values, pk), And, [])
  }

  /** The primary condition after the column loop, starting from `current`:
      the last kept column named like the primary key sets it. */
  function PrimaryAfterColumns(columns: seq<Column>, pk: Option<string>, omits: seq<string>,
                               values: map<string, Value>, current: Condition): Condition
  {
    if columns == [] then current
    else
      var c := columns[|columns| - 1];
      if Kept(c, omits) && pk.Some? && c.name == pk.value then PrimaryCondition(pk.value, values)
      else PrimaryAfterColumns(columns[..|columns| - 1], pk, omits, values, current)
  }

  /** One SET pair per column that holds a value, in column order. */
  function SetClauses(columns: seq<Column>, values: map<string, Value>): seq<Clause> {
    if columns == [] then []
    else
      var c := columns[|columns| - 1];
      SetClauses(columns[..|columns| - 1], values) + (if c.hasValue then [Set(c.name, Lookup(values, c.name))] else [])
  }

  /** The update statement for table `t`, primary condition `primary` and the
      configured conditions, or None when it would have no WHERE clause at all. */
  function UpdateClauses(t: Table, primary: Condition, conds: seq<Condition>): Option<seq<Clause>> {
    var where := PrimaryWhere(PrimaryKey(t), primary) + ConditionClauses(conds);
    if where == [] then None
    else Some([UpdateTable(t.name)] + where + SetClauses(t.columns, t.values))
  }

  /** updateByStruct as a whole, given the database's `reply` to the update. */
  function UpdateStructOutcome(s: BuilderState, t: Table, reply: Option<Error>): Outcome {
    var primary := PrimaryAfterColumns(t.columns, PrimaryKey(t), s.omitsSelectStatement, t.values,
                                       s.wherePrimaryCondition);
    var s1 := s.(wherePrimaryCondition := primary);
    match UpdateClauses(t, primary, s.whereStatement)
    case None => Outcome(Some(MissingWhere), [], s1)
    case Some(statement) => Outcome(reply, [RunUpdate(statement)], s1)
  }

  /** The SET loop (update_builder.go:193-200). */
  method AppendSets(q: seq<Clause>, columns: seq<Column>, values: map<string, Value>) returns (r: seq<Clause>)
    ensures r == q + SetClauses(columns, values)
  {
    r := q;
    var i := 0;
    while i < |columns|
      invariant 0 <= i <= |columns|
      invariant r == q + SetClauses(columns[..i], values)
    {
      var column := columns[i];
      if column.hasValue {
        r := r + [Set(column.name, Lookup(values, column.name))];
      }
      assert columns[..i + 1][..i] == columns[..i];
      i := i + 1;
    }
    assert columns[..|columns|] == columns;
  }

  /** The column loop installs the equality on the primary key exactly when
      some kept column carries the primary key's name; otherwise the primary
      condition stays what it was. */
  lemma {:induction false} PrimaryCaptureIff(columns: seq<Column>, pk: Option<string>, omits: seq<string>,
                                             values: map<string, Value>, current: Condition)
    ensures (exists i | 0 <= i < |columns| :: Kept(columns[i], omits) && pk.Some? && columns[i].name == pk.value) ==>
            PrimaryAfterColumns(columns, pk, omits, values, current) == PrimaryCondition(pk.value, values)
    ensures !(exists i | 0 <= i < |columns| :: Kept(columns[i], omits) && pk.Some? && columns[i].name == pk.value) ==>
            PrimaryAfterColumns(columns, pk, omits, values, current) == current
    decreases |columns|
  {
    if columns != [] {
      var init := columns[..|columns| - 1];
      PrimaryCaptureIff(init, pk, omits, values, current);
      assert forall i | 0 <= i < |init| :: init[i] == columns[i];
    }
  }

  /** A SET pair is in the list exactly when it is a column holding a value,
      paired with that column's value; omitted and non-updatable columns are
      not excluded. */
  lemma {:induction false} SetMembership(columns: seq<Column>, values: map<string, Value>, c: Clause)
    ensures c in SetClauses(columns, values) <==>
            exists i | 0 <= i < |columns| ::
              columns[i].hasValue && c == Set(columns[i].name, Lookup(values, columns[i].name))
    decreases |columns|
  {
    if columns != [] {
      var init := columns[..|columns| - 1];
      SetMembership(init, values, c);
      assert forall i | 0 <= i < |init| :: init[i] == columns[i];
    }
  }

  lemma {:induction false} SetClausesAreSets(columns: seq<Column>, values: map<string, Value>)
    ensures |SetClauses(columns, values)| <= |columns|
    ensures forall k | 0 <= k < |SetClauses(columns, values)| :: SetClauses(columns, values)[k].Set?
    decreases |columns|
  {
    if columns != [] {
      SetClausesAreSets(columns[..|columns| - 1], values);
    }
  }

  /** The guard: the update is refused exactly when the primary-key Where is
      not emitted and no configured condition is a group, an AND or an OR leaf;
      a refused update issues nothing. */
  lemma MissingWhereIff(s: BuilderState, t: Table, reply: Option<Error>)
    ensures var o := UpdateStructOutcome(s, t, reply);
            var primary := o.after.wherePrimaryCondition;
            var refused := && !(primary.value != Nil && PrimaryKey(t).Some?)
                           && forall i | 0 <= i < |s.whereStatement| :: !Emits(s.whereStatement[i]);
            && (o.effects == [] <==> refused)
            && (o.effects == [] ==> o.err == Some(MissingWhere))
            && (o.effects != [] ==> |o.effects| == 1 && o.effects[0].RunUpdate? && o.err == reply)
  {
    ConditionClausesEmptyIff(s.whereStatement);
  }

  /** The statement's WHERE clauses are the primary-key Where followed by the
      configured conditions' clauses; its other clauses are the table and then
      the SET list. */
  lemma UpdateLayout(t: Table, primary: Condition, conds: seq<Condition>)
    requires UpdateClauses(t, primary, conds).Some?
    ensures var u := UpdateClauses(t, primary, conds).value;
            && u[0] == UpdateTable(t.name)
            && Filters(u) == PrimaryWhere(PrimaryKey(t), primary) + ConditionClauses(conds)
            && Others(u) == [UpdateTable(t.name)] + SetClauses(t.columns, t.values)
  {
    var head := [UpdateTable(t.name)];
    var pw := PrimaryWhere(PrimaryKey(t), primary);
    var cc := ConditionClauses(conds);
    var sc := SetClauses(t.columns, t.values);
    ConditionClausesAreFilters(conds);
    SetClausesAreSets(t.columns, t.values);
    LayoutOfFourParts(head, pw, cc, sc);
    assert UpdateClauses(t, primary, conds).value == head + pw + cc + sc;
  }

  lemma LayoutOfFourParts(head: seq<Clause>, pw: seq<Clause>, cc: seq<Clause>, sc: seq<Clause>)
    requires forall k | 0 <= k < |head| :: !IsFilter(head[k])
    requires forall k | 0 <= k < |pw| :: IsFilter(pw[k])
    requires forall k | 0 <= k < |cc| :: IsFilter(cc[k])
    requires forall k | 0 <= k < |sc| :: !IsFilter(sc[k])
    ensures Filters(head + pw + cc + sc) == pw + cc
    ensures Others(head + pw + cc + sc) == head + sc
  {
    var q1 := head + pw;
    var q2 := q1 + cc;
    NoFilters(head);
    AppendFilters(head, pw);
    assert Filters(q1) == pw && Others(q1) == head;
    AppendFilters(q1, cc);
    assert Filters(q2) == pw + cc && Others(q2) == head;
    AppendOthers(q2, sc);
  }

  /** An update of a record whose primary-key column is kept and holds a
      non-nil value, with no configured conditions, targets exactly that key
      value and sets the columns holding values. */
  lemma UpdateByPrimaryKey(s: BuilderState, t: Table, reply: Option<Error>, i: nat)
    requires s.whereStatement == []
    requires PrimaryKey(t).Some? && i < |t.columns|
    requires t.columns[i].name == PrimaryKey(t).value && Kept(t.columns[i], s.omitsSelectStatement)
    requires Lookup(t.values, PrimaryKey(t).value) != Nil
    ensures var o := UpdateStructOutcome(s, t, reply);
            var pk := PrimaryKey(t).value;
            && o.err == reply
            && o.after == s.(wherePrimaryCondition := PrimaryCondition(pk, t.values))
            && o.effects == [RunUpdate([UpdateTable(t.name), Where(Text(pk), Eq, Lookup(t.values, pk))]
                                       + SetClauses(t.columns, t.values))]
  {
    var pk := PrimaryKey(t).value;
    assert Kept(t.columns[i], s.omitsSelectStatement) && PrimaryKey(t).Some? && t.columns[i].name == pk;
    PrimaryCaptureIff(t.columns, PrimaryKey(t), s.omitsSelectStatement, t.values, s.wherePrimaryCondition);
    assert ConditionClauses(s.whereStatement) == [];
    assert PrimaryWhere(PrimaryKey(t), PrimaryCondition(pk, t.values)) == [Where(Text(pk), Eq, Lookup(t.values, pk))];
    var primary := PrimaryAfterColumns(t.columns, PrimaryKey(t), s.omitsSelectStatement, t.values,
                                       s.wherePrimaryCondition);
    assert primary == PrimaryCondition(pk, t.values);
    assert PrimaryWhere(PrimaryKey(t), primary) + ConditionClauses(s.whereStatement)
           == [Where(Text(pk), Eq, Lookup(t.values, pk))];
    assert [UpdateTable(t.name)] + [Where(Text(pk), Eq, Lookup(t.values, pk))]
           == [UpdateTable(t.name), Where(Text(pk), Eq, Lookup(t.values, pk))];
    assert UpdateClauses(t, primary, s.whereStatement)
           == Some([UpdateTable(t.name), Where(Text(pk), Eq, Lookup(t.values, pk))] + SetClauses(t.columns, t.values));
  }

  /** A record whose key field holds its zero value: the column has no value
      for the SET list, yet the guard tests the captured value against nil
      only, so the update goes out with `WHERE Id = 0` instead of being refused. */
  lemma ZeroKeyNotRefused(reply: Option<Error>)
    ensures var t := TableOf("users", [ColumnDecl("Id", true, true), ColumnDecl("Name", false, true)],
                             map["Id" := Int(0), "Name" := Text("Cat")]);
            var o := UpdateStructOutcome(EMPTY_STATE, t, reply);
            && !t.columns[0].hasValue
            && o.err == reply
            && o.effects == [RunUpdate([UpdateTable("users"), Where(Text("Id"), Eq, Int(0)), Set("Name", Text("Cat"))])]
  {
    var decls := [ColumnDecl("Id", true, true), ColumnDecl("Name", false, true)];
    var fields := map["Id" := Int(0), "Name" := Text("Cat")];
    var t := TableOf("users", decls, fields);
    assert decls[..1][..0] == [];
    assert PrimariesOf(decls[..1], fields) == [ColumnOf(decls[0], fields)];
    assert decls[..|decls| - 1] == decls[..1];
    assert PrimaryKey(t) == Some("Id");
    assert Lookup(t.values, "Id") == Int(0);
    UpdateByPrimaryKey(EMPTY_STATE, t, reply, 0);
    assert |t.columns| == 2 && !t.columns[0].hasValue;
    assert t.columns[1] == Column("Name", true, true);
    assert Lookup(t.values, "Name") == Text("Cat");
    var init := t.columns[..1];
    assert init[..0] == [] && init[0] == t.columns[0];
    assert SetClauses(init, t.values) == [];
    assert t.columns[..|t.columns| - 1] == init;
    assert SetClauses(t.columns, t.values) == [Set("Name", Text("Cat"))];
    assert [UpdateTable("users"), Where(Text("Id"), Eq, Int(0))] + [Set("Name", Text("Cat"))]
           == [UpdateTable("users"), Where(Text("Id"), Eq, Int(0)), Set("Name", Text("Cat"))];
  }

  /** Without a primary-key column that survives the filters and without
      configured conditions, an update whose primary condition was never set
      is refused, however many columns hold values. */
  lemma UpdateWithoutKeyRefused(s: BuilderState, t: Table, reply: Option<Error>)
    requires s.whereStatement == [] && s.wherePrimaryCondition.value == Nil
    requires forall i | 0 <= i < |t.columns| ::
               !(Kept(t.columns[i], s.omitsSelectStatement) && PrimaryKey(t).Some? && t.columns[i].name == PrimaryKey(t).value)
    ensures UpdateStructOutcome(s, t, reply) == Outcome(Some(MissingWhere), [], s)
  {
    PrimaryCaptureIff(t.columns, PrimaryKey(t), s.omitsSelectStatement, t.values, s.wherePrimaryCondition);
  }

  // ---------------------------------------------------------------------------
  // Map path
  // ---------------------------------------------------------------------------

  /** reflect's `IsValid() && !IsZero()` on an element of the map. When the
      map's element type is an interface (`dynamic`), the element is the
      interface itself, which is zero only when nil; otherwise the element is
      the value, which is zero when it is its type's zero. */
  predicate IsSet(v: Value, dynamic: bool) {
    if dynamic then v != Nil else !IsZero(v)
  }

  /** The map entries updateByMap writes onto the bound record: those that
      are set and whose key names a declared field. */
  function Applicable(entries: map<string, Value>, dynamic: bool, names: set<string>): set<string> {
    set k | k in entries && k in names && IsSet(entries[k], dynamic)
  }

  /** The record's fields after the applicable entries are written onto them. */
  function ApplyEntries(fields: map<string, Value>, entries: map<string, Value>, dynamic: bool, names: set<string>): map<string, Value> {
    map n | n in fields.Keys + Applicable(entries, dynamic, names) ::
      if n in Applicable(entries, dynamic, names) then entries[n] else fields[n]
  }

  /** The entries whose keys were already visited. */
  function Restrict(entries: map<string, Value>, done: set<string>): map<string, Value> {
    map k | k in entries && k in done :: entries[k]
  }

  /** Reading a field after the write: the entry's value where one applies,
      the old value otherwise. */
  lemma ApplyEntriesLookup(fields: map<string, Value>, entries: map<string, Value>, dynamic: bool, names: set<string>, n: string)
    ensures n in Applicable(entries, dynamic, names) ==> Lookup(ApplyEntries(fields, entries, dynamic, names), n) == entries[n]
    ensures n !in Applicable(entries, dynamic, names) ==> Lookup(ApplyEntries(fields, entries, dynamic, names), n) == Lookup(fields, n)
    ensures n in Applicable(entries, dynamic, names) <==> n in entries && n in names && IsSet(entries[n], dynamic)
  {
  }

  /** Writing the same map twice changes nothing more, and a map with no set
      entry changes nothing. */
  lemma ApplyEntriesIdempotent(fields: map<string, Value>, entries: map<string, Value>, dynamic: bool, names: set<string>)
    ensures ApplyEntries(ApplyEntries(fields, entries, dynamic, names), entries, dynamic, names) == ApplyEntries(fields, entries, dynamic, names)
    ensures (forall k | k in entries :: !IsSet(entries[k], dynamic)) ==> ApplyEntries(fields, entries, dynamic, names) == fields
  {
    var once := ApplyEntries(fields, entries, dynamic, names);
    assert ApplyEntries(once, entries, dynamic, names) == once;
    if forall k | k in entries :: !IsSet(entries[k], dynamic) {
      assert Applicable(entries, dynamic, names) == {};
      assert ApplyEntries(fields, entries, dynamic, names) == fields;
    }
  }

  /** Visiting one more key of the map: the loop's step, in whichever order
      the keys are visited. */
  lemma ApplyEntriesStep(f0: map<string, Value>, entries: map<string, Value>, dynamic: bool, names: set<string>,
                         done: set<string>, k: string)
    requires k in entries && k !in done
    ensures var before := ApplyEntries(f0, Restrict(entries, done), dynamic, names);
            ApplyEntries(f0, Restrict(entries, done + {k}), dynamic, names) ==
            (if k in names && IsSet(entries[k], dynamic) then before[k := entries[k]] else before)
  {
    var before := ApplyEntries(f0, Restrict(entries, done), dynamic, names);
    var after := ApplyEntries(f0, Restrict(entries, done + {k}), dynamic, names);
    var expected := if k in names && IsSet(entries[k], dynamic) then before[k := entries[k]] else before;
    assert Applicable(Restrict(entries, done + {k}), dynamic, names) ==
           Applicable(Restrict(entries, done), dynamic, names) + (if k in names && IsSet(entries[k], dynamic) then {k} else {});
    assert after.Keys == expected.Keys;
    forall n | n in after.Keys ensures after[n] == expected[n] {
    }
  }

  /** A zero entry of a declared field is written when the map's element type
      is an interface, and skipped when it is concrete; a nil entry is skipped
      in both. */
  lemma ZeroEntryWrittenIffDynamic(fields: map<string, Value>, entries: map<string, Value>,
                                   dynamic: bool, names: set<string>, n: string)
    requires n in entries && n in names && IsZero(entries[n])
    ensures Lookup(ApplyEntries(fields, entries, dynamic, names), n) ==
            (if dynamic && entries[n] != Nil then entries[n] else Lookup(fields, n))
  {
    ApplyEntriesLookup(fields, entries, dynamic, names, n);
  }

  lemma RestrictAll(entries: map<string, Value>)
    ensures Restrict(entries, entries.Keys) == entries
    ensures Restrict(entries, {}) == map[]
  {
  }

  lemma ApplyNothing(f0: map<string, Value>, dynamic: bool, names: set<string>)
    ensures ApplyEntries(f0, map[], dynamic, names) == f0
  {
  }
}
