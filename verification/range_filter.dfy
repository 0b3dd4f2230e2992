/**
 * The ORM range filter: `?price[between]=10..20`, `?price[gt]=10` and the
 * like become BETWEEN and comparison predicates with bound parameters.
 *
 * RangeFilter.php declares strict types, so `explode('..', $value)` on a
 * value that is not a string throws a TypeError instead of converting it;
 * the model records that as the `Threw` completion, which ends the filter
 * at that operator.
 */
module OrmRangeFilter {
  import opened Php
  import opened OrmQuery
  import MongoDbOdmFilter

  const PARAMETER_BETWEEN := "between"
  const PARAMETER_GREATER_THAN := "gt"
  const PARAMETER_GREATER_THAN_OR_EQUAL := "gte"
  const PARAMETER_LESS_THAN := "lt"
  const PARAMETER_LESS_THAN_OR_EQUAL := "lte"

  const TYPE_ERROR := "TypeError"

  /** How a call ended: normally, or with an uncaught exception. */
  datatype Completion = Returned | Threw(exception: string)

  datatype Outcome = Outcome(world: World, completion: Completion)

  /**
   * The four single-value operators: the DQL predicate each one emits for
   * `subject` against parameter `p`.
   */
  const COMPARISON_OPERATORS: set<string> :=
    {PARAMETER_GREATER_THAN, PARAMETER_GREATER_THAN_OR_EQUAL, PARAMETER_LESS_THAN, PARAMETER_LESS_THAN_OR_EQUAL}

  function ComparisonClause(operator: string, subject: string, p: string): (r: Option<string>)
    ensures r.Some? <==> operator in COMPARISON_OPERATORS
  {
    if operator == PARAMETER_GREATER_THAN then Some(subject + " > :" + p)
    else if operator == PARAMETER_GREATER_THAN_OR_EQUAL then Some(subject + " >= :" + p)
    else if operator == PARAMETER_LESS_THAN then Some(subject + " < :" + p)
    else if operator == PARAMETER_LESS_THAN_OR_EQUAL then Some(subject + " <= :" + p)
    else None
  }

  predicate IsOperator(operator: string) {
    operator == PARAMETER_BETWEEN || ComparisonClause(operator, "", "").Some?
  }

  /** `after` extends `before`, and every clause it adds starts with `subject`. */
  predicate AddedStartWith(before: seq<string>, after: seq<string>, subject: string) {
    && before <= after
    && forall i :: |before| <= i < |after| ==> subject <= after[i]
  }

  class RangeFilter {
    const properties: Option<map<string, Value>>
    const helper: PropertyHelper
    /** RangeFilterTrait::normalizeValues: the operator/value entries to apply, or null. */
    const normalizeValues: (seq<(string, Value)>, string) -> Option<seq<(string, Value)>>
    /** RangeFilterTrait::normalizeValue: the bound for one operator, `null` when rejected. */
    const normalizeValue: (Value, string) -> Value
    /** RangeFilterTrait::normalizeBetweenValues: the two bounds, or null when rejected. */
    const normalizeBetweenValues: seq<string> -> Option<seq<Value>>

    constructor (properties: Option<map<string, Value>>, helper: PropertyHelper,
                 normalizeValues: (seq<(string, Value)>, string) -> Option<seq<(string, Value)>>,
                 normalizeValue: (Value, string) -> Value,
                 normalizeBetweenValues: seq<string> -> Option<seq<Value>>)
      ensures this.properties == properties && this.helper == helper
      ensures this.normalizeValues == normalizeValues && this.normalizeValue == normalizeValue
      ensures this.normalizeBetweenValues == normalizeBetweenValues
    {
      this.properties := properties;
      this.helper := helper;
      this.normalizeValues := normalizeValues;
      this.normalizeValue := normalizeValue;
      this.normalizeBetweenValues := normalizeBetweenValues;
    }

    /**
     * addWhere. It always generates one parameter name first. `between`
     * splits the value on `..` and, when both bounds normalise, adds
     * `alias.field BETWEEN :p_1 AND :p_2` with `p_1` and `p_2` bound to the
     * first and second bound; `gt`, `gte`, `lt` and `lte` add `>`, `>=`, `<`
     * and `<=` against `:p` when the value normalises. Anything else adds
     * nothing.
     */
    function AddWhereSpec(names: (string, nat) -> string, alias: string, field: string, operator: string,
                          value: Value, w: World): (o: Outcome)
      ensures o.world.parameterCount == w.parameterCount + 1
      ensures o.world.joinAliasCount == w.joinAliasCount
      ensures o.world.query.joins == w.query.joins
      ensures o.world.query.selects == w.query.selects
      ensures o.world.query.orderBys == w.query.orderBys
      ensures o.completion.Threw? <==> operator == PARAMETER_BETWEEN && !value.Str?
      ensures AddedStartWith(w.query.wheres, o.world.query.wheres, alias + "." + field + " ")
      ensures |o.world.query.wheres| <= |w.query.wheres| + 1
      ensures w.query.parameters <= o.world.query.parameters
      ensures !IsOperator(operator) ==> o.world.query == w.query
      ensures operator == PARAMETER_BETWEEN && (!value.Str? || normalizeBetweenValues(Explode("..", value.s)).None?) ==>
        o.world.query == w.query
      ensures operator == PARAMETER_BETWEEN && value.Str? && normalizeBetweenValues(Explode("..", value.s)).Some? ==>
        var p := names(field, w.parameterCount);
        var range := normalizeBetweenValues(Explode("..", value.s)).value;
        o.world.query == w.query.AndWhere(alias + "." + field + " BETWEEN :" + p + "_1 AND :" + p + "_2")
                                .SetParameter(p + "_1", Single(At(range, 0)), None)
                                .SetParameter(p + "_2", Single(At(range, 1)), None)
      ensures IsOperator(operator) && operator != PARAMETER_BETWEEN && normalizeValue(value, operator) == Null ==> o.world.query == w.query
      ensures operator == PARAMETER_GREATER_THAN && normalizeValue(value, operator) != Null ==>
        var p := names(field, w.parameterCount);
        o.world.query == w.query.AndWhere(alias + "." + field + " > :" + p)
                                .SetParameter(p, Single(normalizeValue(value, operator)), None)
      ensures operator == PARAMETER_GREATER_THAN_OR_EQUAL && normalizeValue(value, operator) != Null ==>
        var p := names(field, w.parameterCount);
        o.world.query == w.query.AndWhere(alias + "." + field + " >= :" + p)
                                .SetParameter(p, Single(normalizeValue(value, operator)), None)
      ensures operator == PARAMETER_LESS_THAN && normalizeValue(value, operator) != Null ==>
        var p := names(field, w.parameterCount);
        o.world.query == w.query.AndWhere(alias + "." + field + " < :" + p)
                                .SetParameter(p, Single(normalizeValue(value, operator)), None)
      ensures operator == PARAMETER_LESS_THAN_OR_EQUAL && normalizeValue(value, operator) != Null ==>
        var p := names(field, w.parameterCount);
        o.world.query == w.query.AndWhere(alias + "." + field + " <= :" + p)
                                .SetParameter(p, Single(normalizeValue(value, operator)), None)
    {
      var p := names(field, w.parameterCount);
      var w1 := w.(parameterCount := w.parameterCount + 1);
      if operator == PARAMETER_BETWEEN then
        if !value.Str? then Outcome(w1, Threw(TYPE_ERROR))
        else
          match normalizeBetweenValues(Explode("..", value.s))
          case None => Outcome(w1, Returned)
          case Some(range) =>
            var q := w.query.AndWhere(alias + "." + field + " BETWEEN :" + p + "_1 AND :" + p + "_2")
                            .SetParameter(p + "_1", Single(At(range, 0)), None)
                            .SetParameter(p + "_2", Single(At(range, 1)), None);
            Outcome(w1.(query := q), Returned)
      else
        match ComparisonClause(operator, alias + "." + field, p)
        case None => Outcome(w1, Returned)
        case Some(clause) =>
          var bound := normalizeValue(value, operator);
          if bound == Null then Outcome(w1, Returned)
          else
            var q := w.query.AndWhere(clause).SetParameter(p, Single(bound), None);
            Outcome(w1.(query := q), Returned)
    }

    /**
     * The `foreach` over the normalised operator entries: one addWhere per
     * entry, in order, all on the same alias and field, stopping at a
     * thrown exception. When it completes it has generated exactly one
     * parameter name per entry.
     */
    function AddWheresSpec(names: (string, nat) -> string, alias: string, field: string,
                           entries: seq<(string, Value)>, w: World): (o: Outcome)
      ensures o.completion.Returned? ==> o.world.parameterCount == w.parameterCount + |entries|
      ensures o.world.parameterCount <= w.parameterCount + |entries|
      ensures o.world.joinAliasCount == w.joinAliasCount
      ensures o.world.query.joins == w.query.joins
      ensures o.world.query.selects == w.query.selects
      ensures o.world.query.orderBys == w.query.orderBys
      ensures AddedStartWith(w.query.wheres, o.world.query.wheres, alias + "." + field + " ")
      ensures |o.world.query.wheres| <= |w.query.wheres| + |entries|
      ensures w.query.parameters <= o.world.query.parameters
      decreases |entries|
    {
      if |entries| == 0 then Outcome(w, Returned)
      else
        var first := AddWhereSpec(names, alias, field, entries[0].0, entries[0].1, w);
        if first.completion.Threw? then first
        else AddWheresSpec(names, alias, field, entries[1..], first.world)
    }

    /** filterProperty returns before touching the query. */
    predicate Skips(property: string, values: Value, resourceClass: string) {
      || !values.Arr?
      || !MongoDbOdmFilter.PropertyEnabled(properties, property, helper.isPropertyNested(property, resourceClass))
      || !helper.isPropertyMapped(property, resourceClass)
      || normalizeValues(values.entries, property).None?
    }

    /**
     * filterProperty: nothing when it skips; otherwise the joins a nested
     * property needs, then one addWhere per normalised operator entry, all
     * on the property's alias and field (the root alias and the property
     * itself when it is not nested).
     */
    function FilterPropertySpec(names: (string, nat) -> string, property: string, values: Value,
                                resourceClass: string, rootAlias: string, w: World): (o: Outcome)
      ensures Skips(property, values, resourceClass) ==> o == Outcome(w, Returned)
      ensures !Skips(property, values, resourceClass) ==>
        var entries := normalizeValues(values.entries, property).value;
        var l := Locate(helper, property, rootAlias, resourceClass, None, w);
        && o.world.query.joins == l.world.query.joins
        && (o.completion.Returned? ==> o.world.parameterCount == w.parameterCount + |entries|)
        && AddedStartWith(w.query.wheres, o.world.query.wheres, l.alias + "." + l.field + " ")
        && |o.world.query.wheres| <= |w.query.wheres| + |entries|
      ensures !Skips(property, values, resourceClass) && !helper.isPropertyNested(property, resourceClass) ==>
        AddedStartWith(w.query.wheres, o.world.query.wheres, rootAlias + "." + property + " ")
    {
      if Skips(property, values, resourceClass) then Outcome(w, Returned)
      else
        var l := Locate(helper, property, rootAlias, resourceClass, None, w);
        AddWheresSpec(names, l.alias, l.field, normalizeValues(values.entries, property).value, l.world)
    }

    method AddWhere(qb: QueryBuilder, gen: QueryNameGenerator, alias: string, field: string, operator: string,
                    value: Value)
      returns (completion: Completion)
      modifies qb, gen
      ensures Outcome(Snapshot(qb, gen), completion)
           == AddWhereSpec(gen.parameterName, alias, field, operator, value, old(Snapshot(qb, gen)))
    {
      var valueParameter := gen.GenerateParameterName(field);
      completion := Returned;
      if operator == PARAMETER_BETWEEN {
        if !value.Str? {
          completion := Threw(TYPE_ERROR);
          return;
        }
        var rangeValue := normalizeBetweenValues(Explode("..", value.s));
        if rangeValue.None? {
          return;
        }
        qb.AndWhere(alias + "." + field + " BETWEEN :" + valueParameter + "_1 AND :" + valueParameter + "_2");
        qb.SetParameter(valueParameter + "_1", Single(At(rangeValue.value, 0)), None);
        qb.SetParameter(valueParameter + "_2", Single(At(rangeValue.value, 1)), None);
      } else {
        var clause := ComparisonClause(operator, alias + "." + field, valueParameter);
        if clause.None? {
          return;
        }
        var bound := normalizeValue(value, operator);
        if bound == Null {
          return;
        }
        qb.AndWhere(clause.value);
        qb.SetParameter(valueParameter, Single(bound), None);
      }
    }

    method FilterProperty(qb: QueryBuilder, gen: QueryNameGenerator, property: string, values: Value,
                          resourceClass: string)
      returns (completion: Completion)
      modifies qb, gen
      ensures Outcome(Snapshot(qb, gen), completion)
           == FilterPropertySpec(gen.parameterName, property, values, resourceClass, qb.RootAlias(), old(Snapshot(qb, gen)))
    {
      completion := Returned;
      if !values.Arr?
         || !MongoDbOdmFilter.PropertyEnabled(properties, property, helper.isPropertyNested(property, resourceClass))
         || !helper.isPropertyMapped(property, resourceClass) {
        return;
      }
      var normalized := normalizeValues(values.entries, property);
      if normalized.None? {
        return;
      }
      var entries := normalized.value;
      ghost var l := Locate(helper, property, qb.RootAlias(), resourceClass, None, Snapshot(qb, gen));
      var alias := qb.RootAlias();
      var field := property;
      if helper.isPropertyNested(property, resourceClass) {
        alias, field := AddJoinsForNestedProperty(helper, qb, gen, property, alias, resourceClass, None);
      }
      assert Located(alias, field, Snapshot(qb, gen)) == l;
      ghost var goal := AddWheresSpec(gen.parameterName, alias, field, entries, Snapshot(qb, gen));
      var i := 0;
      while i < |entries|
        invariant 0 <= i <= |entries|
        invariant AddWheresSpec(gen.parameterName, alias, field, entries[i..], Snapshot(qb, gen)) == goal
      {
        assert entries[i..][1..] == entries[i + 1..];
        var c := AddWhere(qb, gen, alias, field, entries[i].0, entries[i].1);
        if c.Threw? {
          completion := c;
          return;
        }
        i := i + 1;
      }
    }
  }

  /**
   * A request with one `gte` and one `lte` bound that both normalise
   * becomes two predicates on the same field, bound to the names generated
   * for two successive counter values.
   */
  lemma {:induction false} LowerAndUpperBound(f: RangeFilter, names: (string, nat) -> string, alias: string,
                                              field: string, low: Value, high: Value, w: World)
    requires f.normalizeValue(low, PARAMETER_GREATER_THAN_OR_EQUAL) != Null
    requires f.normalizeValue(high, PARAMETER_LESS_THAN_OR_EQUAL) != Null
    ensures var o := f.AddWheresSpec(names, alias, field,
                                     [(PARAMETER_GREATER_THAN_OR_EQUAL, low), (PARAMETER_LESS_THAN_OR_EQUAL, high)], w);
      var p1 := names(field, w.parameterCount);
      var p2 := names(field, w.parameterCount + 1);
      && o.completion == Returned
      && o.world.query.wheres == w.query.wheres + [alias + "." + field + " >= :" + p1, alias + "." + field + " <= :" + p2]
      && o.world.query.parameters == w.query.parameters
           + [Parameter(p1, Single(f.normalizeValue(low, PARAMETER_GREATER_THAN_OR_EQUAL)), None),
              Parameter(p2, Single(f.normalizeValue(high, PARAMETER_LESS_THAN_OR_EQUAL)), None)]
  {
    var entries := [(PARAMETER_GREATER_THAN_OR_EQUAL, low), (PARAMETER_LESS_THAN_OR_EQUAL, high)];
    var o1 := f.AddWhereSpec(names, alias, field, PARAMETER_GREATER_THAN_OR_EQUAL, low, w);
    var o2 := f.AddWhereSpec(names, alias, field, PARAMETER_LESS_THAN_OR_EQUAL, high, o1.world);
    assert entries[1..][1..] == [];
    assert f.AddWheresSpec(names, alias, field, entries[1..], o1.world) == o2;
  }

  /** One accepted comparison entry: its predicate and parameter, and the next counter value. */
  lemma ComparisonStep(f: RangeFilter, names: (string, nat) -> string, alias: string, field: string,
                       operator: string, value: Value, w: World)
    requires operator in COMPARISON_OPERATORS && f.normalizeValue(value, operator) != Null
    ensures var o := f.AddWhereSpec(names, alias, field, operator, value, w);
      var p := names(field, w.parameterCount);
      && o.completion == Returned
      && o.world.parameterCount == w.parameterCount + 1
      && o.world.query.wheres == w.query.wheres + [ComparisonClause(operator, alias + "." + field, p).value]
      && o.world.query.parameters == w.query.parameters + [Parameter(p, Single(f.normalizeValue(value, operator)), None)]
  {
    assert operator != PARAMETER_BETWEEN;
  }

  /** Appending `x` and then `rest` appends `[x] + rest`. */
  lemma AppendAfterPrefix<T>(before: seq<T>, x: T, rest: seq<T>, middle: seq<T>, after: seq<T>)
    requires middle == before + [x] && after == middle + rest
    ensures after == before + ([x] + rest)
  {
  }

  /** When the first addWhere returns normally, the loop carries on with the rest. */
  lemma AddWheresCons(f: RangeFilter, names: (string, nat) -> string, alias: string, field: string,
                      entries: seq<(string, Value)>, w: World)
    requires |entries| > 0
    requires f.AddWhereSpec(names, alias, field, entries[0].0, entries[0].1, w).completion == Returned
    ensures f.AddWheresSpec(names, alias, field, entries, w)
         == f.AddWheresSpec(names, alias, field, entries[1..], f.AddWhereSpec(names, alias, field, entries[0].0, entries[0].1, w).world)
  {
  }

  /** All entries are comparisons whose values normalise. */
  predicate AllAccepted(f: RangeFilter, entries: seq<(string, Value)>) {
    forall i :: 0 <= i < |entries| ==>
      entries[i].0 in COMPARISON_OPERATORS && f.normalizeValue(entries[i].1, entries[i].0) != Null
  }

  /** The predicates accepted comparison entries produce, entry `i` using counter value `k + i`. */
  function ExpectedClauses(f: RangeFilter, names: (string, nat) -> string, alias: string, field: string,
                           entries: seq<(string, Value)>, k: nat): seq<string>
    requires AllAccepted(f, entries)
  {
    seq(|entries|, i requires 0 <= i < |entries| && entries[i].0 in COMPARISON_OPERATORS =>
      ComparisonClause(entries[i].0, alias + "." + field, names(field, k + i)).value)
  }

  /** The parameters they bind, entry `i` to the name generated at `k + i`. */
  function ExpectedParameters(f: RangeFilter, names: (string, nat) -> string, field: string,
                              entries: seq<(string, Value)>, k: nat): seq<Parameter>
  {
    seq(|entries|, i requires 0 <= i < |entries| =>
      Parameter(names(field, k + i), Single(f.normalizeValue(entries[i].1, entries[i].0)), None))
  }

  /** The expected sequences of a non-empty list start with its first entry's. */
  lemma ExpectedCons(f: RangeFilter, names: (string, nat) -> string, alias: string, field: string,
                     entries: seq<(string, Value)>, k: nat)
    requires |entries| > 0 && AllAccepted(f, entries)
    ensures AllAccepted(f, entries[1..])
    ensures ExpectedClauses(f, names, alias, field, entries, k)
         == [ComparisonClause(entries[0].0, alias + "." + field, names(field, k)).value]
            + ExpectedClauses(f, names, alias, field, entries[1..], k + 1)
    ensures ExpectedParameters(f, names, field, entries, k)
         == [Parameter(names(field, k), Single(f.normalizeValue(entries[0].1, entries[0].0)), None)]
            + ExpectedParameters(f, names, field, entries[1..], k + 1)
  {
    assert forall i :: 0 <= i < |entries[1..]| ==> entries[1..][i] == entries[i + 1];
  }

  /**
   * Comparison entries (`gt`, `gte`, `lt`, `lte`) whose values normalise
   * become one predicate and one parameter each, in the order the request
   * lists them: entry `i` compares `alias.field` against the name
   * generated at counter `w.parameterCount + i`, bound to its normalised
   * value.
   */
  lemma {:induction false} ComparisonsFollowRequestOrder(f: RangeFilter, names: (string, nat) -> string, alias: string,
                                                         field: string, entries: seq<(string, Value)>, w: World)
    requires AllAccepted(f, entries)
    ensures var o := f.AddWheresSpec(names, alias, field, entries, w);
      && o.completion == Returned
      && o.world.parameterCount == w.parameterCount + |entries|
      && o.world.query.wheres == w.query.wheres + ExpectedClauses(f, names, alias, field, entries, w.parameterCount)
      && o.world.query.parameters == w.query.parameters + ExpectedParameters(f, names, field, entries, w.parameterCount)
    decreases |entries|
  {
    var o := f.AddWheresSpec(names, alias, field, entries, w);
    if |entries| == 0 {
      assert ExpectedClauses(f, names, alias, field, entries, w.parameterCount) == [];
      assert ExpectedParameters(f, names, field, entries, w.parameterCount) == [];
    } else {
      var e := entries[0];
      var k := w.parameterCount;
      var p := names(field, k);
      var c := ComparisonClause(e.0, alias + "." + field, p).value;
      var param := Parameter(p, Single(f.normalizeValue(e.1, e.0)), None);
      ComparisonStep(f, names, alias, field, e.0, e.1, w);
      var w1 := f.AddWhereSpec(names, alias, field, e.0, e.1, w).world;
      AddWheresCons(f, names, alias, field, entries, w);
      ExpectedCons(f, names, alias, field, entries, k);
      ComparisonsFollowRequestOrder(f, names, alias, field, entries[1..], w1);
      var cs := ExpectedClauses(f, names, alias, field, entries[1..], k + 1);
      var ps := ExpectedParameters(f, names, field, entries[1..], k + 1);
      var o' := f.AddWheresSpec(names, alias, field, entries[1..], w1);
      assert o == o';
      AppendAfterPrefix(w.query.wheres, c, cs, w1.query.wheres, o'.world.query.wheres);
      AppendAfterPrefix(w.query.parameters, param, ps, w1.query.parameters, o'.world.query.parameters);
    }
  }
}
