/**
 * The part of Doctrine ORM's query builder and of API Platform's query name
 * generator that the ORM filters drive: joins, hidden selects, where
 * clauses, order-by clauses and bound parameters, each kept in the order the
 * filters add them, plus the counters that make parameter and join-alias
 * names unique.
 *
 * Every filter operation is specified by a function on a `World` (a query
 * plus the generator's counters) and implemented by a method on the live
 * `QueryBuilder` and `QueryNameGenerator` objects, proved to move them from
 * `Snapshot` to the function's result.
 */
module OrmQuery {
  import opened Php

  /** `Join::LEFT_JOIN`. */
  const LEFT_JOIN := "LEFT"

  datatype Join = Join(joinType: Option<string>, join: string, alias: string)

  datatype OrderBy = OrderBy(sort: string, order: Option<string>)

  /** A bound value: a single scalar or a list (bound with `IN (...)`). */
  datatype Binding = Single(value: Value) | List(values: seq<Value>)

  datatype Parameter = Parameter(name: string, binding: Binding, dbalType: Option<string>)

  /** The clauses of a DQL query, each in insertion order. */
  datatype Query = Query(
    joins: seq<Join>,
    selects: seq<string>,
    wheres: seq<string>,
    orderBys: seq<OrderBy>,
    parameters: seq<Parameter>)
  {
    function AndWhere(clause: string): Query {
      this.(wheres := wheres + [clause])
    }

    function SetParameter(name: string, binding: Binding, dbalType: Option<string>): Query {
      this.(parameters := parameters + [Parameter(name, binding, dbalType)])
    }

    function AddSelect(select: string): Query {
      this.(selects := selects + [select])
    }

    function AddOrderBy(sort: string, order: Option<string>): Query {
      this.(orderBys := orderBys + [OrderBy(sort, order)])
    }
  }

  /** A query together with the name generator's two counters. */
  datatype World = World(query: Query, parameterCount: nat, joinAliasCount: nat)

  /**
   * What addJoinsForNestedProperty reports: the alias and field the nested
   * property ends at, the joins it added and the join-alias counter after
   * generating their aliases.
   */
  datatype Resolution = Resolution(alias: string, field: string, joins: seq<Join>, joinAliasCount: nat)

  /**
   * The ORM filter helpers the filters call but whose code is not part of
   * this model: isPropertyNested, isPropertyMapped and the join resolution
   * of addJoinsForNestedProperty (property, root alias, resource class, join
   * type, existing joins, join-alias counter).
   */
  datatype PropertyHelper = PropertyHelper(
    isPropertyNested: (string, string) -> bool,
    isPropertyMapped: (string, string) -> bool,
    addJoinsForNestedProperty: (string, string, string, Option<string>, seq<Join>, nat) -> Resolution)

  /** The alias and field a property is filtered on, and the world after any joins. */
  datatype Located = Located(alias: string, field: string, world: World)

  /**
   * Where a filtered property lives: on the root alias under its own name,
   * or, for a nested property, where the join resolution leads. Locating a
   * property only ever appends joins and sets a new join-alias counter.
   */
  function Locate(h: PropertyHelper, property: string, rootAlias: string, resourceClass: string,
                  joinType: Option<string>, w: World): (l: Located)
    ensures !h.isPropertyNested(property, resourceClass) ==> l == Located(rootAlias, property, w)
    ensures w.query.joins <= l.world.query.joins
    ensures l.world.query == w.query.(joins := l.world.query.joins)
    ensures l.world.parameterCount == w.parameterCount
  {
    if !h.isPropertyNested(property, resourceClass) then
      Located(rootAlias, property, w)
    else
      var r := h.addJoinsForNestedProperty(property, rootAlias, resourceClass, joinType, w.query.joins, w.joinAliasCount);
      Located(r.alias, r.field,
              World(w.query.(joins := w.query.joins + r.joins), w.parameterCount, r.joinAliasCount))
  }

  /** A non-empty list of root aliases (`getRootAliases()`). */
  type RootAliases = s: seq<string> | |s| > 0 witness [""]

  /** Doctrine's QueryBuilder, restricted to the calls the filters make. */
  class QueryBuilder {
    const rootAliases: RootAliases
    var joins: seq<Join>
    var selects: seq<string>
    var wheres: seq<string>
    var orderBys: seq<OrderBy>
    var parameters: seq<Parameter>

    constructor (rootAliases: RootAliases)
      ensures this.rootAliases == rootAliases
      ensures State() == Query([], [], [], [], [])
    {
      this.rootAliases := rootAliases;
      joins, selects, wheres, orderBys, parameters := [], [], [], [], [];
    }

    /** The clauses built so far. */
    function State(): Query
      reads this
    {
      Query(joins, selects, wheres, orderBys, parameters)
    }

    /** `getRootAliases()[0]`. */
    function RootAlias(): string {
      rootAliases[0]
    }

    method AndWhere(clause: string)
      modifies this
      ensures State() == old(State()).AndWhere(clause)
    {
      wheres := wheres + [clause];
    }

    method SetParameter(name: string, binding: Binding, dbalType: Option<string>)
      modifies this
      ensures State() == old(State()).SetParameter(name, binding, dbalType)
    {
      parameters := parameters + [Parameter(name, binding, dbalType)];
    }

    method AddSelect(select: string)
      modifies this
      ensures State() == old(State()).AddSelect(select)
    {
      selects := selects + [select];
    }

    method AddOrderBy(sort: string, order: Option<string>)
      modifies this
      ensures State() == old(State()).AddOrderBy(sort, order)
    {
      orderBys := orderBys + [OrderBy(sort, order)];
    }

    method AddJoins(added: seq<Join>)
      modifies this
      ensures State() == old(State()).(joins := old(joins) + added)
    {
      joins := joins + added;
    }

    /** Replaces the clauses wholesale (the effect of a call whose code is not modelled). */
    method Load(q: Query)
      modifies this
      ensures State() == q
    {
      joins, selects, wheres, orderBys, parameters := q.joins, q.selects, q.wheres, q.orderBys, q.parameters;
    }
  }

  /**
   * QueryNameGenerator: a parameter name for a field is derived from the
   * field and the number of names generated before it; the spelling itself
   * is a parameter of the model.
   */
  class QueryNameGenerator {
    const parameterName: (string, nat) -> string
    var parameterCount: nat
    var joinAliasCount: nat

    constructor (parameterName: (string, nat) -> string)
      ensures this.parameterName == parameterName
      ensures parameterCount == 0 && joinAliasCount == 0
    {
      this.parameterName := parameterName;
      parameterCount, joinAliasCount := 0, 0;
    }

    method GenerateParameterName(field: string) returns (name: string)
      modifies this
      ensures name == parameterName(field, old(parameterCount))
      ensures parameterCount == old(parameterCount) + 1
      ensures joinAliasCount == old(joinAliasCount)
    {
      name := parameterName(field, parameterCount);
      parameterCount := parameterCount + 1;
    }

    method SetCounters(parameterCount: nat, joinAliasCount: nat)
      modifies this
      ensures this.parameterCount == parameterCount && this.joinAliasCount == joinAliasCount
    {
      this.parameterCount, this.joinAliasCount := parameterCount, joinAliasCount;
    }
  }

  /** The world the two live objects currently describe. */
  function Snapshot(qb: QueryBuilder, gen: QueryNameGenerator): World
    reads qb, gen
  {
    World(qb.State(), gen.parameterCount, gen.joinAliasCount)
  }

  /**
   * addJoinsForNestedProperty on the live objects: appends the resolved
   * joins and sets the join-alias counter, as `Locate` says.
   */
  method AddJoinsForNestedProperty(h: PropertyHelper, qb: QueryBuilder, gen: QueryNameGenerator,
                                   property: string, rootAlias: string, resourceClass: string,
                                   joinType: Option<string>)
    returns (alias: string, field: string)
    requires h.isPropertyNested(property, resourceClass)
    modifies qb, gen
    ensures Located(alias, field, Snapshot(qb, gen))
         == Locate(h, property, rootAlias, resourceClass, joinType, old(Snapshot(qb, gen)))
  {
    var r := h.addJoinsForNestedProperty(property, rootAlias, resourceClass, joinType, qb.joins, gen.joinAliasCount);
    qb.AddJoins(r.joins);
    gen.SetCounters(gen.parameterCount, r.joinAliasCount);
    alias, field := r.alias, r.field;
  }
}
