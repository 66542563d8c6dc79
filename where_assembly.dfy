/** The WHERE pieces every terminal operation assembles the same way: the
    primary-key fast path and the list of configured conditions. */
module WhereAssembly {
  import opened FluentTypes

  /** The primary-key `Where` GetOne and updateByStruct emit: only when the
      type has a primary key and the primary condition carries a non-nil value. */
  function PrimaryWhere(pk: Option<string>, primary: Condition): seq<Clause> {
    if primary.value != Nil && pk.Some? then [Where(Text(pk.value), primary.opt, primary.value)] else []
  }

  /** A configured condition contributes a clause: a group, an AND leaf or an OR leaf. */
  predicate Emits(c: Condition) {
    |c.group| > 0 || c.andOr == And || c.andOr == Or
  }

  /** The clause one configured condition contributes; a leaf of any other
      conjunction kind contributes nothing. */
  function ConditionClause(c: Condition): seq<Clause> {
    if |c.group| > 0 then [WhereGroup(c.group)]
    else if c.andOr == And then [Where(c.field, c.opt, c.value)]
    else if c.andOr == Or then [WhereOr(c.field, c.opt, c.value)]
    else []
  }

  /** The clauses of a list of configured conditions, in configuration order. */
  function ConditionClauses(cs: seq<Condition>): seq<Clause> {
    if cs == [] then [] else ConditionClauses(cs[..|cs| - 1]) + ConditionClause(cs[|cs| - 1])
  }

  /** The WHERE-producing clauses. */
  predicate IsFilter(c: Clause) {
    c.Where? || c.WhereOr? || c.WhereGroup? || c.WhereCondition?
  }

  /** The WHERE-producing clauses of a clause list, in order. */
  function Filters(q: seq<Clause>): seq<Clause> {
    if q == [] then []
    else Filters(q[..|q| - 1]) + (if IsFilter(q[|q| - 1]) then [q[|q| - 1]] else [])
  }

  /** The other clauses of a clause list, in order. */
  function Others(q: seq<Clause>): seq<Clause> {
    if q == [] then []
    else Others(q[..|q| - 1]) + (if IsFilter(q[|q| - 1]) then [] else [q[|q| - 1]])
  }

  /** The condition loop (query_builder.go:212-228, 370-386; update_builder.go:165-184):
      appends each configured condition's clause and reports whether any was appended. */
  method AppendConditions(q: seq<Clause>, cs: seq<Condition>) returns (r: seq<Clause>, emitted: bool)
    ensures r == q + ConditionClauses(cs)
    ensures emitted <==> exists i | 0 <= i < |cs| :: Emits(cs[i])
  {
    r, emitted := q, false;
    var i := 0;
    while i < |cs|
      invariant 0 <= i <= |cs|
      invariant r == q + ConditionClauses(cs[..i])
      invariant emitted <==> exists k | 0 <= k < i :: Emits(cs[k])
    {
      var condition := cs[i];
      if |condition.group| > 0 {
        r := r + [WhereGroup(condition.group)];
        emitted := true;
      } else if condition.andOr == And {
        r := r + [Where(condition.field, condition.opt, condition.value)];
        emitted := true;
      } else if condition.andOr == Or {
        r := r + [WhereOr(condition.field, condition.opt, condition.value)];
        emitted := true;
      }
      assert cs[..i + 1][..i] == cs[..i];
      i := i + 1;
    }
    assert cs[..|cs|] == cs;
  }

  lemma {:induction false} ConditionClausesSplit(a: seq<Condition>, b: seq<Condition>)
    ensures ConditionClauses(a + b) == ConditionClauses(a) + ConditionClauses(b)
    decreases |b|
  {
    if b == [] {
      assert a + b == a;
    } else {
      var ab := a + b;
      assert ab[..|ab| - 1] == a + b[..|b| - 1];
      assert ab[|ab| - 1] == b[|b| - 1];
      ConditionClausesSplit(a, b[..|b| - 1]);
    }
  }

  lemma ConditionClausesSingle(c: Condition)
    ensures ConditionClauses([c]) == ConditionClause(c)
  {
    assert [c][..0] == [];
  }

  /** The clause of the i-th condition sits after those of all earlier
      conditions and before those of all later ones. */
  lemma {:induction false} ConditionClausePosition(cs: seq<Condition>, i: nat)
    requires i < |cs|
    ensures ConditionClauses(cs) ==
            ConditionClauses(cs[..i]) + ConditionClause(cs[i]) + ConditionClauses(cs[i + 1..])
  {
    var pre, c, post := cs[..i], cs[i], cs[i + 1..];
    assert cs == (pre + [c]) + post;
    ConditionClausesSplit(pre + [c], post);
    ConditionClausesSplit(pre, [c]);
    ConditionClausesSingle(c);
  }

  /** No clause at all comes out exactly when no condition is a group, an AND or an OR leaf. */
  lemma {:induction false} ConditionClausesEmptyIff(cs: seq<Condition>)
    ensures ConditionClauses(cs) == [] <==> forall i | 0 <= i < |cs| :: !Emits(cs[i])
    decreases |cs|
  {
    if cs != [] {
      var init := cs[..|cs| - 1];
      ConditionClausesEmptyIff(init);
      assert forall i | 0 <= i < |init| :: init[i] == cs[i];
    }
  }

  /** Configured conditions only ever produce WHERE clauses, one per emitting condition at most. */
  lemma {:induction false} ConditionClausesAreFilters(cs: seq<Condition>)
    ensures |ConditionClauses(cs)| <= |cs|
    ensures forall k | 0 <= k < |ConditionClauses(cs)| :: IsFilter(ConditionClauses(cs)[k])
    decreases |cs|
  {
    if cs != [] {
      ConditionClausesAreFilters(cs[..|cs| - 1]);
    }
  }

  lemma {:induction false} FiltersSplit(a: seq<Clause>, b: seq<Clause>)
    ensures Filters(a + b) == Filters(a) + Filters(b)
    ensures Others(a + b) == Others(a) + Others(b)
    decreases |b|
  {
    if b == [] {
      assert a + b == a;
    } else {
      var ab := a + b;
      assert ab[..|ab| - 1] == a + b[..|b| - 1];
      assert ab[|ab| - 1] == b[|b| - 1];
      FiltersSplit(a, b[..|b| - 1]);
    }
  }

  lemma {:induction false} AllFilters(q: seq<Clause>)
    requires forall k | 0 <= k < |q| :: IsFilter(q[k])
    ensures Filters(q) == q && Others(q) == []
    decreases |q|
  {
    if q != [] {
      AllFilters(q[..|q| - 1]);
    }
  }

  lemma {:induction false} NoFilters(q: seq<Clause>)
    requires forall k | 0 <= k < |q| :: !IsFilter(q[k])
    ensures Filters(q) == [] && Others(q) == q
    decreases |q|
  {
    if q != [] {
      NoFilters(q[..|q| - 1]);
    }
  }

  /** Appending WHERE clauses only extends the WHERE part. */
  lemma AppendFilters(a: seq<Clause>, b: seq<Clause>)
    requires forall k | 0 <= k < |b| :: IsFilter(b[k])
    ensures Filters(a + b) == Filters(a) + b && Others(a + b) == Others(a)
  {
    FiltersSplit(a, b);
    AllFilters(b);
  }

  /** Appending non-WHERE clauses only extends the other part. */
  lemma AppendOthers(a: seq<Clause>, b: seq<Clause>)
    requires forall k | 0 <= k < |b| :: !IsFilter(b[k])
    ensures Filters(a + b) == Filters(a) && Others(a + b) == Others(a) + b
  {
    FiltersSplit(a, b);
    NoFilters(b);
  }
}
