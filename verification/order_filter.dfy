/**
 * The ORM order filter: turns `?order[property]=direction` into ORDER BY
 * clauses, optionally preceded by a hidden null-rank select and ORDER BY
 * that place NULL values first or last.
 */
module OrmOrderFilter {
  import opened Php
  import opened OrmQuery
  import MongoDbOdmFilter

  const DEFAULT_DIRECTION := "default_direction"
  const NULLS_COMPARISON := "nulls_comparison"

  /**
   * The constructor's shorthand: a property configured with a bare string
   * is configured with that string as its default direction; every other
   * configuration (arrays, null) is kept as given.
   */
  function ExpandShorthand(properties: Option<map<string, Value>>): (r: Option<map<string, Value>>)
    ensures r.None? <==> properties.None?
    ensures r.Some? ==> r.value.Keys == properties.value.Keys
    ensures r.Some? ==> forall p :: p in r.value && properties.value[p].Str? ==>
      r.value[p] == Arr([(DEFAULT_DIRECTION, properties.value[p])])
    ensures r.Some? ==> forall p :: p in r.value && !properties.value[p].Str? ==>
      r.value[p] == properties.value[p]
    ensures r.Some? ==> forall p :: p in r.value ==> !r.value[p].Str?
  {
    match properties
    case None => None
    case Some(configured) =>
      Some(map p | p in configured :: if configured[p].Str? then Arr([(DEFAULT_DIRECTION, configured[p])]) else configured[p])
  }

  /**
   * Expansion is idempotent: handing the constructor a configuration it has
   * already expanded (such as another filter's `properties`) gives the
   * same configuration back.
   */
  lemma ExpandShorthandIdempotent(properties: Option<map<string, Value>>)
    ensures ExpandShorthand(ExpandShorthand(properties)) == ExpandShorthand(properties)
  {
    if properties.Some? {
      var once := ExpandShorthand(properties).value;
      var twice := ExpandShorthand(Some(once)).value;
      assert forall p :: p in once ==> !once[p].Str?;
      assert twice == once;
    }
  }

  /** A shorthand string becomes the default direction and sets no nulls comparison. */
  lemma ShorthandIsDefaultDirection(properties: map<string, Value>, p: string, direction: string)
    requires p in properties && properties[p] == Str(direction)
    ensures Coalesce(ExpandShorthand(Some(properties)).value[p], DEFAULT_DIRECTION) == Str(direction)
    ensures !IssetIn(ExpandShorthand(Some(properties)).value[p], NULLS_COMPARISON)
  {
    var entries := [(DEFAULT_DIRECTION, Str(direction))];
    assert ExpandShorthand(Some(properties)).value[p] == Arr(entries);
    assert entries[0].0 == DEFAULT_DIRECTION;
    assert entries[0].0 != NULLS_COMPARISON;
  }

  /** `$this->properties[$property]['nulls_comparison'] ?? null`. */
  function NullsComparison(properties: Option<map<string, Value>>, property: string): (r: Value)
    ensures r != Null <==> properties.Some? && IssetIn(Get(properties.value, property), NULLS_COMPARISON)
    ensures r != Null ==> r == Lookup(Get(properties.value, property).entries, NULLS_COMPARISON).value
  {
    if properties.None? then Null else Coalesce(Get(properties.value, property), NULLS_COMPARISON)
  }

  /** The hidden field that ranks NULL values of `alias.field`. */
  function NullRankField(alias: string, field: string): string {
    "_" + alias + "_" + field + "_null_rank"
  }

  /** The hidden select computing that rank: 0 for NULL, 1 otherwise. */
  function NullRankSelect(alias: string, field: string): string {
    "CASE WHEN " + alias + "." + field + " IS NULL THEN 0 ELSE 1 END AS HIDDEN " + NullRankField(alias, field)
  }

  class OrderFilter {
    const orderParameterName: string
    /** The configured properties, after the constructor's shorthand expansion. */
    const properties: Option<map<string, Value>>
    const helper: PropertyHelper
    /** OrderFilterTrait::normalizeValue: the SQL direction for a request value, if valid. */
    const normalizeValue: (Value, string) -> Option<string>
    /** `NULLS_DIRECTION_MAP[$nullsComparison][$direction]`. */
    const nullsDirection: (Value, string) -> Option<string>
    /** The parent filter's apply, whose code is not part of this model. */
    const parentApply: (string, Option<string>, map<string, Value>, World) -> World

    constructor (orderParameterName: string, properties: Option<map<string, Value>>, helper: PropertyHelper,
                 normalizeValue: (Value, string) -> Option<string>, nullsDirection: (Value, string) -> Option<string>,
                 parentApply: (string, Option<string>, map<string, Value>, World) -> World)
      ensures this.orderParameterName == orderParameterName
      ensures this.properties == ExpandShorthand(properties)
      ensures ExpandShorthand(this.properties) == this.properties
      ensures this.helper == helper
      ensures this.normalizeValue == normalizeValue
      ensures this.nullsDirection == nullsDirection
      ensures this.parentApply == parentApply
    {
      this.orderParameterName := orderParameterName;
      this.properties := ExpandShorthand(properties);
      this.helper := helper;
      this.normalizeValue := normalizeValue;
      this.nullsDirection := nullsDirection;
      this.parentApply := parentApply;
      ExpandShorthandIdempotent(properties);
    }

    /** filterProperty returns early: the property is disabled or unmapped, or the direction is invalid. */
    predicate Skips(property: string, direction: Value, resourceClass: string) {
      || !MongoDbOdmFilter.PropertyEnabled(properties, property, helper.isPropertyNested(property, resourceClass))
      || !helper.isPropertyMapped(property, resourceClass)
      || normalizeValue(direction, property).None?
    }

    /**
     * What filterProperty does to the query: nothing when it skips;
     * otherwise it joins what a nested property needs, adds the null-rank
     * select and ORDER BY when a nulls comparison is configured, and then
     * orders by `alias.field` in the normalised direction. It never adds a
     * where clause or a parameter.
     */
    function FilterPropertySpec(property: string, direction: Value, resourceClass: string, rootAlias: string,
                                w: World): (w': World)
      ensures Skips(property, direction, resourceClass) ==> w' == w
      ensures !Skips(property, direction, resourceClass) ==>
        var dir := normalizeValue(direction, property);
        var l := Locate(helper, property, rootAlias, resourceClass, Some(LEFT_JOIN), w);
        var nulls := NullsComparison(properties, property);
        && w'.parameterCount == w.parameterCount
        && w'.joinAliasCount == l.world.joinAliasCount
        && w'.query.joins == l.world.query.joins
        && w'.query.wheres == w.query.wheres
        && w'.query.parameters == w.query.parameters
        && (nulls == Null ==>
              && w'.query.selects == w.query.selects
              && w'.query.orderBys == w.query.orderBys + [OrderBy(l.alias + "." + l.field, dir)])
        && (nulls != Null ==>
              && w'.query.selects == w.query.selects + [NullRankSelect(l.alias, l.field)]
              && w'.query.orderBys == w.query.orderBys
                   + [OrderBy(NullRankField(l.alias, l.field), nullsDirection(nulls, dir.value)),
                      OrderBy(l.alias + "." + l.field, dir)])
      ensures !Skips(property, direction, resourceClass) && !helper.isPropertyNested(property, resourceClass) ==>
        && |w'.query.orderBys| > 0
        && w'.query.orderBys[|w'.query.orderBys| - 1] == OrderBy(rootAlias + "." + property, normalizeValue(direction, property))
    {
      if Skips(property, direction, resourceClass) then w
      else
        var dir := normalizeValue(direction, property);
        var l := Locate(helper, property, rootAlias, resourceClass, Some(LEFT_JOIN), w);
        var nulls := NullsComparison(properties, property);
        var q := if nulls == Null then l.world.query
                 else l.world.query.AddSelect(NullRankSelect(l.alias, l.field))
                                   .AddOrderBy(NullRankField(l.alias, l.field), nullsDirection(nulls, dir.value));
        l.world.(query := q.AddOrderBy(l.alias + "." + l.field, dir))
    }

    /**
     * The `foreach` over the requested orderings. However many entries it
     * handles, it adds no where clause and no parameter, and only appends
     * joins, selects and order-by clauses.
     */
    function FilterEntries(entries: seq<(string, Value)>, resourceClass: string, rootAlias: string, w: World): (w': World)
      ensures w'.query.wheres == w.query.wheres && w'.query.parameters == w.query.parameters
      ensures w'.parameterCount == w.parameterCount
      ensures w.query.joins <= w'.query.joins
      ensures w.query.selects <= w'.query.selects
      ensures w.query.orderBys <= w'.query.orderBys
      decreases |entries|
    {
      if |entries| == 0 then w
      else FilterEntries(entries[1..], resourceClass, rootAlias,
                         FilterPropertySpec(entries[0].0, entries[0].1, resourceClass, rootAlias, w))
    }

    /**
     * apply: when filters were given but none under the order parameter,
     * nothing happens; when the order parameter is missing altogether or is
     * not an array, the parent filter applies; otherwise each requested
     * ordering is applied in request order.
     */
    function ApplySpec(resourceClass: string, operationName: Option<string>, context: map<string, Value>,
                       rootAlias: string, w: World): (w': World)
      ensures Isset(context, "filters") && !IssetIn(context["filters"], orderParameterName) ==> w' == w
      ensures !Isset(context, "filters") ==> w' == parentApply(resourceClass, operationName, context, w)
      ensures IssetIn(Get(context, "filters"), orderParameterName)
              && !Coalesce(Get(context, "filters"), orderParameterName).Arr? ==>
                w' == parentApply(resourceClass, operationName, context, w)
      ensures IssetIn(Get(context, "filters"), orderParameterName)
              && Coalesce(Get(context, "filters"), orderParameterName).Arr? ==>
                w' == FilterEntries(Coalesce(Get(context, "filters"), orderParameterName).entries,
                                    resourceClass, rootAlias, w)
    {
      var filters := Get(context, "filters");
      if Isset(context, "filters") && !IssetIn(filters, orderParameterName) then w
      else if !IssetIn(filters, orderParameterName) || !Coalesce(filters, orderParameterName).Arr? then
        parentApply(resourceClass, operationName, context, w)
      else
        FilterEntries(Coalesce(filters, orderParameterName).entries, resourceClass, rootAlias, w)
    }

    method FilterProperty(qb: QueryBuilder, gen: QueryNameGenerator, property: string, direction: Value,
                          resourceClass: string)
      modifies qb, gen
      ensures Snapshot(qb, gen) == FilterPropertySpec(property, direction, resourceClass, qb.RootAlias(), old(Snapshot(qb, gen)))
    {
      if !MongoDbOdmFilter.PropertyEnabled(properties, property, helper.isPropertyNested(property, resourceClass))
         || !helper.isPropertyMapped(property, resourceClass) {
        return;
      }
      var dir := normalizeValue(direction, property);
      if dir.None? {
        return;
      }
      ghost var l := Locate(helper, property, qb.RootAlias(), resourceClass, Some(LEFT_JOIN), Snapshot(qb, gen));
      var alias := qb.RootAlias();
      var field := property;
      if helper.isPropertyNested(property, resourceClass) {
        alias, field := AddJoinsForNestedProperty(helper, qb, gen, property, alias, resourceClass, Some(LEFT_JOIN));
      }
      assert Located(alias, field, Snapshot(qb, gen)) == l;
      var nulls := NullsComparison(properties, property);
      if nulls != Null {
        var nullRankHiddenField := NullRankField(alias, field);
        qb.AddSelect(NullRankSelect(alias, field));
        qb.AddOrderBy(nullRankHiddenField, nullsDirection(nulls, dir.value));
      }
      qb.AddOrderBy(alias + "." + field, dir);
    }

    method Apply(qb: QueryBuilder, gen: QueryNameGenerator, resourceClass: string, operationName: Option<string>,
                 context: map<string, Value>)
      modifies qb, gen
      ensures Snapshot(qb, gen) == ApplySpec(resourceClass, operationName, context, qb.RootAlias(), old(Snapshot(qb, gen)))
    {
      var filters := Get(context, "filters");
      if Isset(context, "filters") && !IssetIn(filters, orderParameterName) {
        return;
      }
      if !IssetIn(filters, orderParameterName) || !Coalesce(filters, orderParameterName).Arr? {
        var w := parentApply(resourceClass, operationName, context, Snapshot(qb, gen));
        qb.Load(w.query);
        gen.SetCounters(w.parameterCount, w.joinAliasCount);
        return;
      }
      var entries := Coalesce(filters, orderParameterName).entries;
      ghost var goal := FilterEntries(entries, resourceClass, qb.RootAlias(), Snapshot(qb, gen));
      var i := 0;
      while i < |entries|
        invariant 0 <= i <= |entries|
        invariant FilterEntries(entries[i..], resourceClass, qb.RootAlias(), Snapshot(qb, gen)) == goal
      {
        assert entries[i..][1..] == entries[i + 1..];
        FilterProperty(qb, gen, entries[i].0, entries[i].1, resourceClass);
        i := i + 1;
      }
    }
  }

  /**
   * A plain ordering: enabled, mapped, not nested, a valid direction and no
   * nulls comparison, so it becomes exactly one ORDER BY on the root alias.
   */
  predicate Plain(f: OrderFilter, e: (string, Value), resourceClass: string) {
    && !f.Skips(e.0, e.1, resourceClass)
    && !f.helper.isPropertyNested(e.0, resourceClass)
    && NullsComparison(f.properties, e.0) == Null
  }

  /**
   * Plain orderings become ORDER BY clauses on the root alias, one per
   * entry, in the order the request lists them.
   */
  lemma {:induction false} OrderByFollowsRequestOrder(f: OrderFilter, entries: seq<(string, Value)>,
                                                     resourceClass: string, rootAlias: string, w: World)
    requires forall i :: 0 <= i < |entries| ==> Plain(f, entries[i], resourceClass)
    ensures var w' := f.FilterEntries(entries, resourceClass, rootAlias, w);
      && |w'.query.orderBys| == |w.query.orderBys| + |entries|
      && forall i :: 0 <= i < |entries| ==>
           w'.query.orderBys[|w.query.orderBys| + i]
             == OrderBy(rootAlias + "." + entries[i].0, f.normalizeValue(entries[i].1, entries[i].0))
    decreases |entries|
  {
    if |entries| > 0 {
      var w1 := f.FilterPropertySpec(entries[0].0, entries[0].1, resourceClass, rootAlias, w);
      assert Plain(f, entries[0], resourceClass);
      assert w1.query.orderBys
          == w.query.orderBys + [OrderBy(rootAlias + "." + entries[0].0, f.normalizeValue(entries[0].1, entries[0].0))];
      OrderByFollowsRequestOrder(f, entries[1..], resourceClass, rootAlias, w1);
      var w' := f.FilterEntries(entries, resourceClass, rootAlias, w);
      assert w' == f.FilterEntries(entries[1..], resourceClass, rootAlias, w1);
      forall i | 0 <= i < |entries|
        ensures w'.query.orderBys[|w.query.orderBys| + i]
             == OrderBy(rootAlias + "." + entries[i].0, f.normalizeValue(entries[i].1, entries[i].0))
      {
        if i > 0 {
          assert entries[1..][i - 1] == entries[i];
        }
      }
    }
  }

  /** Orderings the filter skips leave the query exactly as it was. */
  lemma {:induction false} SkippedOrderingsChangeNothing(f: OrderFilter, entries: seq<(string, Value)>,
                                                         resourceClass: string, rootAlias: string, w: World)
    requires forall i :: 0 <= i < |entries| ==> f.Skips(entries[i].0, entries[i].1, resourceClass)
    ensures f.FilterEntries(entries, resourceClass, rootAlias, w) == w
    decreases |entries|
  {
    if |entries| > 0 {
      assert f.Skips(entries[0].0, entries[0].1, resourceClass);
      assert forall i :: 0 <= i < |entries[1..]| ==> entries[1..][i] == entries[i + 1];
      SkippedOrderingsChangeNothing(f, entries[1..], resourceClass, rootAlias, w);
    }
  }
}
