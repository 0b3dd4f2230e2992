/**
 * The ORM numeric filter: `?price=10` becomes an equality predicate bound
 * at the field's Doctrine type, `?price[]=10&price[]=20` an `IN` predicate
 * bound to the whole list.
 */
module OrmNumericFilter {
  import opened Php
  import opened OrmQuery
  import MongoDbOdmFilter

  /** Doctrine DBAL type names. */
  const BIGINT := "bigint"
  const DECIMAL := "decimal"
  const FLOAT := "float"
  const INTEGER := "integer"
  const SMALLINT := "smallint"

  /** The Doctrine types the filter treats as numeric. */
  const DOCTRINE_NUMERIC_TYPES: set<string> := {BIGINT, DECIMAL, FLOAT, INTEGER, SMALLINT}

  /**
   * getType: the PHP type a Doctrine numeric type is documented as.
   * Decimals (and an unknown type) are strings, floats are floats, and
   * every other type is an int.
   */
  function GetType(doctrineType: Option<string>): (r: string)
    ensures r == "string" <==> doctrineType == None || doctrineType == Some(DECIMAL)
    ensures r == "float" <==> doctrineType == Some(FLOAT)
    ensures r == "int" <==> doctrineType.Some? && doctrineType.value != DECIMAL && doctrineType.value != FLOAT
  {
    assert "string"[0] != "float"[0] && "string"[0] != "int"[0] && "float"[0] != "int"[0];
    match doctrineType
    case None => "string"
    case Some(t) => if t == DECIMAL then "string" else if t == FLOAT then "float" else "int"
  }

  /** `(string) $type` on a `?string`: `null` becomes the empty string. */
  function CastToString(t: Option<string>): string {
    if t.Some? then t.value else ""
  }

  class NumericFilter {
    const properties: Option<map<string, Value>>
    const helper: PropertyHelper
    /** NumericFilterTrait::isNumericField. */
    const isNumericField: (string, string) -> bool
    /** NumericFilterTrait::normalizeValues: the numeric values to match, or null. */
    const normalizeValues: (Value, string) -> Option<seq<Value>>
    /** getDoctrineFieldType: the Doctrine type of a (possibly nested) property, if known. */
    const getDoctrineFieldType: (string, string) -> Option<string>

    constructor (properties: Option<map<string, Value>>, helper: PropertyHelper,
                 isNumericField: (string, string) -> bool,
                 normalizeValues: (Value, string) -> Option<seq<Value>>,
                 getDoctrineFieldType: (string, string) -> Option<string>)
      ensures this.properties == properties && this.helper == helper
      ensures this.isNumericField == isNumericField && this.normalizeValues == normalizeValues
      ensures this.getDoctrineFieldType == getDoctrineFieldType
    {
      this.properties := properties;
      this.helper := helper;
      this.isNumericField := isNumericField;
      this.normalizeValues := normalizeValues;
      this.getDoctrineFieldType := getDoctrineFieldType;
    }

    /** filterProperty returns before touching the query. */
    predicate Skips(property: string, value: Value, resourceClass: string) {
      || !MongoDbOdmFilter.PropertyEnabled(properties, property, helper.isPropertyNested(property, resourceClass))
      || !helper.isPropertyMapped(property, resourceClass)
      || !isNumericField(property, resourceClass)
      || normalizeValues(value, property).None?
    }

    /**
     * filterProperty: nothing when it skips. Otherwise it joins what a
     * nested property needs, generates exactly one parameter name and adds
     * exactly one predicate and one parameter: `alias.field = :p` bound to
     * the single value at the field's Doctrine type, or `alias.field IN (:p)`
     * bound to the whole list with no explicit type.
     */
    function FilterPropertySpec(names: (string, nat) -> string, property: string, value: Value,
                                resourceClass: string, rootAlias: string, w: World): (w': World)
      ensures Skips(property, value, resourceClass) ==> w' == w
      ensures !Skips(property, value, resourceClass) ==>
        var values := normalizeValues(value, property).value;
        var l := Locate(helper, property, rootAlias, resourceClass, None, w);
        var p := names(l.field, w.parameterCount);
        && w'.parameterCount == w.parameterCount + 1
        && w'.joinAliasCount == l.world.joinAliasCount
        && w'.query.joins == l.world.query.joins
        && w'.query.selects == w.query.selects
        && w'.query.orderBys == w.query.orderBys
        && (|values| == 1 ==>
              && w'.query.wheres == w.query.wheres + [l.alias + "." + l.field + " = :" + p]
              && w'.query.parameters == w.query.parameters
                   + [Parameter(p, Single(values[0]), Some(CastToString(getDoctrineFieldType(property, resourceClass))))])
        && (|values| != 1 ==>
              && w'.query.wheres == w.query.wheres + [l.alias + "." + l.field + " IN (:" + p + ")"]
              && w'.query.parameters == w.query.parameters + [Parameter(p, List(values), None)])
      ensures !Skips(property, value, resourceClass) ==>
        && |w'.query.wheres| == |w.query.wheres| + 1
        && |w'.query.parameters| == |w.query.parameters| + 1
      ensures !Skips(property, value, resourceClass) && !helper.isPropertyNested(property, resourceClass) ==>
        rootAlias + "." + property + " " <= w'.query.wheres[|w.query.wheres|]
    {
      if Skips(property, value, resourceClass) then w
      else
        var values := normalizeValues(value, property).value;
        var l := Locate(helper, property, rootAlias, resourceClass, None, w);
        var p := names(l.field, w.parameterCount);
        var q := if |values| == 1 then
                   l.world.query.AndWhere(l.alias + "." + l.field + " = :" + p)
                                .SetParameter(p, Single(values[0]), Some(CastToString(getDoctrineFieldType(property, resourceClass))))
                 else
                   l.world.query.AndWhere(l.alias + "." + l.field + " IN (:" + p + ")")
                                .SetParameter(p, List(values), None);
        World(q, w.parameterCount + 1, l.world.joinAliasCount)
    }

    method FilterProperty(qb: QueryBuilder, gen: QueryNameGenerator, property: string, value: Value,
                          resourceClass: string)
      modifies qb, gen
      ensures Snapshot(qb, gen)
           == FilterPropertySpec(gen.parameterName, property, value, resourceClass, qb.RootAlias(), old(Snapshot(qb, gen)))
    {
      if !MongoDbOdmFilter.PropertyEnabled(properties, property, helper.isPropertyNested(property, resourceClass))
         || !helper.isPropertyMapped(property, resourceClass)
         || !isNumericField(property, resourceClass) {
        return;
      }
      var values := normalizeValues(value, property);
      if values.None? {
        return;
      }
      assert !Skips(property, value, resourceClass);
      ghost var w0 := Snapshot(qb, gen);
      ghost var l := Locate(helper, property, qb.RootAlias(), resourceClass, None, w0);
      var alias := qb.RootAlias();
      var field := property;
      if helper.isPropertyNested(property, resourceClass) {
        alias, field := AddJoinsForNestedProperty(helper, qb, gen, property, alias, resourceClass, None);
      }
      assert Located(alias, field, Snapshot(qb, gen)) == l;
      var valueParameter := gen.GenerateParameterName(field);
      if |values.value| == 1 {
        qb.AndWhere(alias + "." + field + " = :" + valueParameter);
        qb.SetParameter(valueParameter, Single(values.value[0]),
                        Some(CastToString(getDoctrineFieldType(property, resourceClass))));
      } else {
        qb.AndWhere(alias + "." + field + " IN (:" + valueParameter + ")");
        qb.SetParameter(valueParameter, List(values.value), None);
      }
      assert Snapshot(qb, gen).parameterCount == w0.parameterCount + 1;
      assert Snapshot(qb, gen).joinAliasCount == l.world.joinAliasCount;
    }
  }
}
