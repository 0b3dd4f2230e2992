/**
 * The Doctrine property-info extractor used with the MongoDB ODM (and ORM)
 * metadata: which properties a class has, and which PHP types describe a
 * property, decided by case analysis over the class metadata.
 *
 * The metadata itself is a record; Doctrine's class metadata factories are
 * functions from a class name to that record (`None` when Doctrine throws a
 * mapping exception for the class).
 */
module MongoDbOdmDoctrineExtractor {
  import opened Php

  /** Doctrine MongoDB ODM type names. */
  const ODM_INTEGER := "integer"
  const ODM_INT := "int"
  const ODM_INTID := "int_id"
  const ODM_KEY := "key"
  const ODM_FLOAT := "float"
  const ODM_STRING := "string"
  const ODM_ID := "id"
  const ODM_OBJECTID := "object_id"
  const ODM_TIMESTAMP := "timestamp"
  const ODM_BOOLEAN := "boolean"
  const ODM_BOOL := "bool"
  const ODM_BINDATA := "bin"
  const ODM_BINDATABYTEARRAY := "bin_bytearray"
  const ODM_BINDATACUSTOM := "bin_custom"
  const ODM_BINDATAFUNC := "bin_func"
  const ODM_BINDATAMD5 := "bin_md5"
  const ODM_BINDATAUUID := "bin_uuid"
  const ODM_BINDATAUUIDRFC4122 := "bin_uuid_rfc4122"
  const ODM_FILE := "file"
  const ODM_DATE := "date"
  const ODM_HASH := "hash"
  const ODM_COLLECTION := "collection"

  /** Symfony PropertyInfo built-in type names. */
  const BUILTIN_TYPE_INT := "int"
  const BUILTIN_TYPE_FLOAT := "float"
  const BUILTIN_TYPE_STRING := "string"
  const BUILTIN_TYPE_BOOL := "bool"
  const BUILTIN_TYPE_RESOURCE := "resource"
  const BUILTIN_TYPE_OBJECT := "object"
  const BUILTIN_TYPE_ARRAY := "array"

  const COLLECTION_CLASS := "Doctrine\\Common\\Collections\\Collection"
  const OBJECT_MANAGER_CLASS := "Doctrine\\Common\\Persistence\\ObjectManager"

  /** The ODM types getPhpType maps to each PHP type. */
  const INT_TYPES: set<string> := {ODM_INTEGER, ODM_INT, ODM_INTID, ODM_KEY}
  const STRING_TYPES: set<string> := {ODM_STRING, ODM_ID, ODM_OBJECTID, ODM_TIMESTAMP}
  const BOOL_TYPES: set<string> := {ODM_BOOLEAN, ODM_BOOL}
  const RESOURCE_TYPES: set<string> :=
    {ODM_BINDATA, ODM_BINDATABYTEARRAY, ODM_BINDATACUSTOM, ODM_BINDATAFUNC, ODM_BINDATAMD5,
     ODM_BINDATAUUID, ODM_BINDATAUUIDRFC4122, ODM_FILE}

  /**
   * getPhpType: a total table from ODM types to PHP built-in types; every
   * type outside the table maps to null.
   */
  function GetPhpType(doctrineType: string): (r: Option<string>)
    ensures r == Some(BUILTIN_TYPE_INT) <==> doctrineType in INT_TYPES
    ensures r == Some(BUILTIN_TYPE_FLOAT) <==> doctrineType == ODM_FLOAT
    ensures r == Some(BUILTIN_TYPE_STRING) <==> doctrineType in STRING_TYPES
    ensures r == Some(BUILTIN_TYPE_BOOL) <==> doctrineType in BOOL_TYPES
    ensures r == Some(BUILTIN_TYPE_RESOURCE) <==> doctrineType in RESOURCE_TYPES
    ensures r.None? <==>
      doctrineType !in INT_TYPES + STRING_TYPES + BOOL_TYPES + RESOURCE_TYPES && doctrineType != ODM_FLOAT
  {
    if doctrineType in INT_TYPES then Some(BUILTIN_TYPE_INT)
    else if doctrineType == ODM_FLOAT then Some(BUILTIN_TYPE_FLOAT)
    else if doctrineType in STRING_TYPES then Some(BUILTIN_TYPE_STRING)
    else if doctrineType in BOOL_TYPES then Some(BUILTIN_TYPE_BOOL)
    else if doctrineType in RESOURCE_TYPES then Some(BUILTIN_TYPE_RESOURCE)
    else None
  }

  /** A Symfony PropertyInfo `Type`. */
  datatype PropertyType = PropertyType(
    builtinType: string,
    nullable: bool,
    className: Option<string>,
    collection: bool,
    collectionKeyType: Option<PropertyType>,
    collectionValueType: Option<PropertyType>)

  /** `new Type($builtinType, $nullable, $class)`. */
  function Simple(builtinType: string, nullable: bool, className: Option<string>): PropertyType {
    PropertyType(builtinType, nullable, className, false, None, None)
  }

  /** The parts of an association mapping the extractor reads. */
  datatype AssociationMapping = AssociationMapping(
    id: Value,                        // `$mapping['id']`, `null` when absent
    joinColumns: Option<seq<Value>>,  // `$mapping['joinColumns']`, when set
    indexBy: Option<string>,          // `$mapping['indexBy']`, when set
    targetEntity: string)

  datatype Association = Association(targetClass: string, singleValued: bool, mapping: AssociationMapping)

  /** ORM metadata carries embedded classes (name to class); ODM metadata does not. */
  datatype Kind = Odm | Orm(embeddedClasses: seq<(string, string)>)

  /**
   * Class metadata as the extractor sees it. The two capability flags
   * record which optional methods the metadata class has (the extractor
   * probes for them by reflection).
   */
  datatype ClassMetadata = ClassMetadata(
    fieldNames: seq<string>,
    typeOfField: string -> Option<string>,
    isNullable: string -> bool,
    associationNames: seq<string>,
    associations: map<string, Association>,
    referencedJoinColumnName: string -> string,
    kind: Kind,
    hasGetAssociationMapping: bool,
    hasIsNullable: bool)

  /** Where metadata comes from; `None` stands for a mapping exception. */
  datatype MetadataSource =
    | ObjectManager(metadataFor: string -> Option<ClassMetadata>)
    | ClassMetadataFactory(metadataFor: string -> Option<ClassMetadata>)

  /** What the constructor may be given. */
  datatype ManagerArgument =
    | ManagerArg(source: MetadataSource)
    | OtherArg(typeName: string)

  datatype Error =
    | InvalidArgumentException(message: string)
    | MappingException(className: string)
    | TypeError(reason: string)

  datatype Result<T> = Success(value: T) | Failure(error: Error)

  /**
   * DoctrineExtractor. `embeddedSupport` says whether Doctrine ORM's
   * embeddable support is installed, which decides whether embedded
   * classes are consulted at all.
   */
  datatype DoctrineExtractor = DoctrineExtractor(source: MetadataSource, embeddedSupport: bool)

  /**
   * The constructor: an object manager or a class metadata factory is
   * stored; anything else is rejected with an InvalidArgumentException
   * naming the expected interface and the given type.
   */
  function NewDoctrineExtractor(arg: ManagerArgument, embeddedSupport: bool): (r: Result<DoctrineExtractor>)
    ensures arg.ManagerArg? <==> r.Success?
    ensures arg.ManagerArg? ==> r.value.source == arg.source && r.value.embeddedSupport == embeddedSupport
    ensures arg.OtherArg? ==>
      r.error == InvalidArgumentException(
        "$objectManager must be an instance of \"" + OBJECT_MANAGER_CLASS + "\", \"" + arg.typeName + "\" given.")
  {
    match arg
    case ManagerArg(source) => Success(DoctrineExtractor(source, embeddedSupport))
    case OtherArg(typeName) =>
      Failure(InvalidArgumentException(
        "$objectManager must be an instance of \"" + OBJECT_MANAGER_CLASS + "\", \"" + typeName + "\" given."))
  }

  /** A join column that sets `nullable` to a false value. */
  predicate NotNullableColumn(joinColumn: Value) {
    IssetIn(joinColumn, "nullable") && !Truthy(Coalesce(joinColumn, "nullable"))
  }

  /** The `foreach` over the join columns: does any forbid null? */
  function AnyNotNullableColumn(joinColumns: seq<Value>): (r: bool)
    ensures r <==> exists i :: 0 <= i < |joinColumns| && NotNullableColumn(joinColumns[i])
    decreases |joinColumns|
  {
    if |joinColumns| == 0 then false
    else if NotNullableColumn(joinColumns[0]) then true
    else
      var rest := AnyNotNullableColumn(joinColumns[1..]);
      assert forall i :: 1 <= i < |joinColumns| ==> joinColumns[i] == joinColumns[1..][i - 1];
      rest
  }

  /**
   * isAssociationNullable: an identifier association is never nullable;
   * without join columns it is nullable; otherwise it is nullable unless
   * some join column explicitly sets `nullable` to false.
   */
  function IsAssociationNullable(mapping: AssociationMapping): (r: bool)
    ensures Truthy(mapping.id) ==> !r
    ensures !Truthy(mapping.id) && mapping.joinColumns.None? ==> r
    ensures !Truthy(mapping.id) && mapping.joinColumns.Some? ==>
      (r <==> forall i :: 0 <= i < |mapping.joinColumns.value| ==> !NotNullableColumn(mapping.joinColumns.value[i]))
  {
    if mapping.id != Null && Truthy(mapping.id) then false
    else if mapping.joinColumns.None? then true
    else !AnyNotNullableColumn(mapping.joinColumns.value)
  }

  /**
   * `array_filter` keeping the names without a `.`: each name is kept or
   * dropped on its own (see `WithoutDottedAppend`), so order and repeats
   * survive, and a list without dotted names is returned unchanged.
   */
  function WithoutDotted(names: seq<string>): (r: seq<string>)
    ensures forall x :: x in r <==> x in names && '.' !in x
    ensures |r| <= |names|
    ensures |names| == 1 ==> r == (if '.' in names[0] then [] else names)
    decreases |names|
  {
    if |names| == 0 then []
    else
      var rest := WithoutDotted(names[1..]);
      assert forall x :: x in names <==> x == names[0] || x in names[1..];
      if '.' in names[0] then rest else [names[0]] + rest
  }

  /** Filtering a concatenation filters each part: the filter keeps relative order. */
  lemma {:induction false} WithoutDottedAppend(a: seq<string>, b: seq<string>)
    ensures WithoutDotted(a + b) == WithoutDotted(a) + WithoutDotted(b)
    decreases |a|
  {
    if |a| > 0 {
      var ab := a + b;
      assert ab[0] == a[0];
      assert ab[1..] == a[1..] + b;
      var head := if '.' in a[0] then [] else [a[0]];
      assert WithoutDotted(ab) == head + WithoutDotted(a[1..] + b);
      assert WithoutDotted(a) == head + WithoutDotted(a[1..]);
      WithoutDottedAppend(a[1..], b);
      assert head + (WithoutDotted(a[1..]) + WithoutDotted(b)) == (head + WithoutDotted(a[1..])) + WithoutDotted(b);
    } else {
      assert a + b == b;
    }
  }

  /** A list without dotted names passes the filter unchanged. */
  lemma {:induction false} WithoutDottedKeepsPlainNames(names: seq<string>)
    requires forall i :: 0 <= i < |names| ==> '.' !in names[i]
    ensures WithoutDotted(names) == names
    decreases |names|
  {
    if |names| > 0 {
      assert '.' !in names[0];
      assert forall i :: 0 <= i < |names[1..]| ==> names[1..][i] == names[i + 1];
      WithoutDottedKeepsPlainNames(names[1..]);
      assert [names[0]] + names[1..] == names;
    }
  }

  function Keys(entries: seq<(string, string)>): (r: seq<string>)
    ensures |r| == |entries|
    ensures forall i :: 0 <= i < |entries| ==> r[i] == entries[i].0
  {
    seq(|entries|, i requires 0 <= i < |entries| => entries[i].0)
  }

  /** The embedded classes consulted, if the metadata is ORM metadata with embeddables. */
  function Embedded(x: DoctrineExtractor, metadata: ClassMetadata): seq<(string, string)> {
    if x.embeddedSupport && metadata.kind.Orm? then metadata.kind.embeddedClasses else []
  }

  /**
   * getProperties: null when the class has no metadata; otherwise the
   * field names followed by the association names, except that with
   * embedded classes the dotted (embedded-field) names are dropped from
   * both lists, order and repeats kept, and the embedded property names
   * are appended in their declaration order.
   */
  function GetProperties(x: DoctrineExtractor, className: string): (r: Option<seq<string>>)
    ensures r.None? <==> x.source.metadataFor(className).None?
    ensures r.Some? && |Embedded(x, x.source.metadataFor(className).value)| == 0 ==>
      var m := x.source.metadataFor(className).value;
      r.value == m.fieldNames + m.associationNames
    ensures r.Some? && |Embedded(x, x.source.metadataFor(className).value)| > 0 ==>
      var m := x.source.metadataFor(className).value;
      var embedded := Keys(Embedded(x, m));
      r.value == WithoutDotted(m.fieldNames) + WithoutDotted(m.associationNames) + embedded
  {
    match x.source.metadataFor(className)
    case None => None
    case Some(m) =>
      var properties := m.fieldNames + m.associationNames;
      var embedded := Embedded(x, m);
      if |embedded| > 0 then
        WithoutDottedAppend(m.fieldNames, m.associationNames);
        Some(WithoutDotted(properties) + Keys(embedded))
      else Some(properties)
  }

  /**
   * The nullability of a single-valued association: decided from its
   * mapping when the metadata exposes mappings, else by the metadata's own
   * isNullable, else false.
   */
  function SingleValuedNullable(m: ClassMetadata, property: string, a: Association): bool {
    if m.hasGetAssociationMapping then IsAssociationNullable(a.mapping)
    else if m.hasIsNullable then m.isNullable(property)
    else false
  }

  /** `getPhpType($typeOfField)`, where a null type is a TypeError. */
  function PhpTypeOf(typeOfField: Option<string>): Result<Option<string>> {
    match typeOfField
    case None => Failure(TypeError("getPhpType() expects a string, null given"))
    case Some(t) => Success(GetPhpType(t))
  }

  /**
   * The key type of a collection association: int, unless ORM metadata
   * indexes the collection by a property, in which case it is the PHP type
   * of that property, looked up on the target entity (following one more
   * association when the index property is itself an association).
   */
  function CollectionKeyType(x: DoctrineExtractor, m: ClassMetadata, a: Association): (r: Result<string>)
    ensures !m.kind.Orm? || a.mapping.indexBy.None? ==> r == Success(BUILTIN_TYPE_INT)
    ensures m.kind.Orm? && a.mapping.indexBy.Some? && x.source.metadataFor(a.mapping.targetEntity).None? ==>
      r == Failure(MappingException(a.mapping.targetEntity))
    ensures m.kind.Orm? && a.mapping.indexBy.Some? && x.source.metadataFor(a.mapping.targetEntity).Some?
            && x.source.metadataFor(a.mapping.targetEntity).value.typeOfField(a.mapping.indexBy.value).Some? ==>
      var t := x.source.metadataFor(a.mapping.targetEntity).value.typeOfField(a.mapping.indexBy.value).value;
      (r.Success? <==> GetPhpType(t).Some?) && (r.Success? ==> r.value == GetPhpType(t).value)
    // the index property is no field of the target: it must be an association, whose
    // referenced join column is looked up on that association's own target
    ensures m.kind.Orm? && a.mapping.indexBy.Some? && x.source.metadataFor(a.mapping.targetEntity).Some?
            && x.source.metadataFor(a.mapping.targetEntity).value.typeOfField(a.mapping.indexBy.value).None? ==>
      var indexProperty := a.mapping.indexBy.value;
      var sub := x.source.metadataFor(a.mapping.targetEntity).value;
      && (indexProperty !in sub.associations ==> r == Failure(MappingException(a.mapping.targetEntity)))
      && (indexProperty in sub.associations ==>
            var target := sub.associations[indexProperty].mapping.targetEntity;
            && (x.source.metadataFor(target).None? ==> r == Failure(MappingException(target)))
            && (x.source.metadataFor(target).Some? ==>
                  var t := x.source.metadataFor(target).value.typeOfField(sub.referencedJoinColumnName(indexProperty));
                  && (t.None? ==> r.Failure? && r.error.TypeError?)
                  && (t.Some? ==> (r.Success? <==> GetPhpType(t.value).Some?)
                                  && (r.Success? ==> r.value == GetPhpType(t.value).value))))
  {
    if !m.kind.Orm? || a.mapping.indexBy.None? then Success(BUILTIN_TYPE_INT)
    else
      var indexProperty := a.mapping.indexBy.value;
      match x.source.metadataFor(a.mapping.targetEntity)
      case None => Failure(MappingException(a.mapping.targetEntity))
      case Some(sub) =>
        var typeOfField :=
          if sub.typeOfField(indexProperty).Some? then Success(sub.typeOfField(indexProperty))
          else if indexProperty !in sub.associations then Failure(MappingException(a.mapping.targetEntity))
          else
            var target := sub.associations[indexProperty].mapping.targetEntity;
            match x.source.metadataFor(target)
            case None => Failure(MappingException(target))
            case Some(sub2) => Success(sub2.typeOfField(sub.referencedJoinColumnName(indexProperty)));
        match typeOfField
        case Failure(e) => Failure(e)
        case Success(t) =>
          match PhpTypeOf(t)
          case Failure(e) => Failure(e)
          case Success(None) => Failure(TypeError("Type::__construct() expects a string, null given"))
          case Success(Some(builtin)) => Success(builtin)
  }

  /**
   * The types of a mapped field: DateTime for dates, an array for hashes,
   * a list of strings for collections, and otherwise the field's PHP type,
   * or null when its Doctrine type has no PHP counterpart.
   */
  function FieldTypes(m: ClassMetadata, property: string): (r: Result<Option<seq<PropertyType>>>)
    ensures var nullable := m.hasIsNullable && m.isNullable(property);
      && (m.typeOfField(property) == Some(ODM_DATE) ==>
            r == Success(Some([Simple(BUILTIN_TYPE_OBJECT, nullable, Some("DateTime"))])))
      && (m.typeOfField(property) == Some(ODM_HASH) ==>
            r == Success(Some([PropertyType(BUILTIN_TYPE_ARRAY, nullable, None, true, None, None)])))
      && (m.typeOfField(property) == Some(ODM_COLLECTION) ==>
            r == Success(Some([PropertyType(BUILTIN_TYPE_ARRAY, nullable, None, true,
                                            Some(Simple(BUILTIN_TYPE_INT, false, None)),
                                            Some(Simple(BUILTIN_TYPE_STRING, false, None)))])))
    ensures m.typeOfField(property).None? ==> r.Failure? && r.error.TypeError?
    ensures m.typeOfField(property).Some? && m.typeOfField(property).value !in {ODM_DATE, ODM_HASH, ODM_COLLECTION} ==>
      var builtin := GetPhpType(m.typeOfField(property).value);
      && (builtin.None? ==> r == Success(None))
      && (builtin.Some? ==> r == Success(Some([Simple(builtin.value, m.hasIsNullable && m.isNullable(property), None)])))
  {
    var nullable := m.hasIsNullable && m.isNullable(property);
    var typeOfField := m.typeOfField(property);
    if typeOfField == Some(ODM_DATE) then Success(Some([Simple(BUILTIN_TYPE_OBJECT, nullable, Some("DateTime"))]))
    else if typeOfField == Some(ODM_HASH) then Success(Some([PropertyType(BUILTIN_TYPE_ARRAY, nullable, None, true, None, None)]))
    else if typeOfField == Some(ODM_COLLECTION) then
      Success(Some([PropertyType(BUILTIN_TYPE_ARRAY, nullable, None, true,
                                 Some(Simple(BUILTIN_TYPE_INT, false, None)), Some(Simple(BUILTIN_TYPE_STRING, false, None)))]))
    else
      match PhpTypeOf(typeOfField)
      case Failure(e) => Failure(e)
      case Success(None) => Success(None)
      case Success(Some(builtin)) => Success(Some([Simple(builtin, nullable, None)]))
  }

  /** The class of an embedded property, if the metadata embeds one under that name. */
  function EmbeddedClass(embedded: seq<(string, string)>, property: string): (r: Option<string>)
    ensures r.Some? <==> exists i :: 0 <= i < |embedded| && embedded[i].0 == property
    ensures r.Some? ==> exists i :: 0 <= i < |embedded| && embedded[i] == (property, r.value)
  {
    match FirstIndex(embedded, (e: (string, string)) => e.0 == property)
    case None => None
    case Some(i) => Some(embedded[i].1)
  }

  /**
   * getTypes: null when the class has no metadata. An association gives
   * one object type: the target class itself when single-valued, or a
   * non-nullable Collection of the target class otherwise. An embedded
   * property gives its embedded class; a field is described by
   * `FieldTypes`; anything else gives null.
   */
  function GetTypes(x: DoctrineExtractor, className: string, property: string): (r: Result<Option<seq<PropertyType>>>)
    ensures x.source.metadataFor(className).None? ==> r == Success(None)
    ensures x.source.metadataFor(className).Some? ==>
      var m := x.source.metadataFor(className).value;
      && (property in m.associations && m.associations[property].singleValued ==>
            var a := m.associations[property];
            r == Success(Some([Simple(BUILTIN_TYPE_OBJECT, SingleValuedNullable(m, property, a), Some(a.targetClass))])))
      && (property in m.associations && !m.associations[property].singleValued ==>
            var a := m.associations[property];
            match CollectionKeyType(x, m, a)
            case Failure(e) => r == Failure(e)
            case Success(key) =>
              && r.Success? && r.value.Some? && |r.value.value| == 1
              && var t := r.value.value[0];
              && t.builtinType == BUILTIN_TYPE_OBJECT && !t.nullable && t.className == Some(COLLECTION_CLASS) && t.collection
              && t.collectionKeyType == Some(Simple(key, false, None))
              && t.collectionValueType == Some(Simple(BUILTIN_TYPE_OBJECT, false, Some(a.targetClass))))
      && (property !in m.associations && EmbeddedClass(Embedded(x, m), property).Some? ==>
            r == Success(Some([Simple(BUILTIN_TYPE_OBJECT, false, EmbeddedClass(Embedded(x, m), property))])))
      && (property !in m.associations && EmbeddedClass(Embedded(x, m), property).None? ==>
            if property in m.fieldNames then r == FieldTypes(m, property) else r == Success(None))
  {
    match x.source.metadataFor(className)
    case None => Success(None)
    case Some(m) =>
      if property in m.associations then
        var a := m.associations[property];
        if a.singleValued then
          Success(Some([Simple(BUILTIN_TYPE_OBJECT, SingleValuedNullable(m, property, a), Some(a.targetClass))]))
        else
          match CollectionKeyType(x, m, a)
          case Failure(e) => Failure(e)
          case Success(key) =>
            Success(Some([PropertyType(BUILTIN_TYPE_OBJECT, false, Some(COLLECTION_CLASS), true,
                                       Some(Simple(key, false, None)),
                                       Some(Simple(BUILTIN_TYPE_OBJECT, false, Some(a.targetClass))))]))
      else if EmbeddedClass(Embedded(x, m), property).Some? then
        Success(Some([Simple(BUILTIN_TYPE_OBJECT, false, EmbeddedClass(Embedded(x, m), property))]))
      else if property in m.fieldNames then
        FieldTypes(m, property)
      else
        Success(None)
  }
}
