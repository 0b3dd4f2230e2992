# API Platform Doctrine filters and property metadata helpers, in Dafny

This project models the Doctrine bridge of API Platform (PHP). It covers the following parts:

- **Property-name normalisation** (`PropertyNameNormalizerTrait`). It maps a dotted property path between the name the client sends and the name Doctrine knows, in both directions. It works one segment at a time and threads the associated class from segment to segment.
- **The MongoDB ODM base filter** (`AbstractFilter`). This covers its configuration, the allow-list policy `isPropertyEnabled`, and `apply`, which hands each requested filter to `filterProperty` with a denormalised name.
- **Three ORM filters** that build a DQL query through Doctrine's `QueryBuilder`:
  - `OrderFilter`: ORDER BY clauses, with a hidden null-rank select when a nulls comparison is configured.
  - `RangeFilter`: `between`, `gt`, `gte`, `lt` and `lte` predicates.
  - `NumericFilter`: `=` against a single value, or `IN` against a list.
- **The ODM `DoctrineExtractor`**, which lists a class's properties and describes their PHP types from Doctrine metadata.
- **`getFactoryOptions`**, which derives property-metadata factory options from a serializer context.

## How the model is built

- **PHP values.** PHP values are a datatype (`Php.Value`). An array is an ordered list of string-keyed entries, so `foreach` order is kept. `isset`, `??`, truthiness, `explode` and `implode` are written out explicitly. `explode`/`implode` come with round-trip lemmas.
- **Mutable objects.** The query builder and the query-name generator change in place, so they are classes (`OrmQuery.QueryBuilder`, `OrmQuery.QueryNameGenerator`).
- **Filter operations.** Each filter operation is a function on a `World` (a query plus the generator's two counters) and a method on the live objects. The method's postcondition says it moves `Snapshot(qb, gen)` to that function's result. The loops in `apply` and `filterProperty` carry invariants that tie the remaining entries to that function.
- **Unseen collaborators.** Code this model does not contain becomes a function-typed field or parameter with no assumptions. This covers:
  - the serializer's name converter and metadata;
  - Doctrine's metadata;
  - `isPropertyNested`, `isPropertyMapped` and `addJoinsForNestedProperty`;
  - the traits' `normalizeValue(s)` and `normalizeBetweenValues`;
  - the spelling of generated parameter names.

## Model

| member | source | states |
|---|---|---|
| PropertyNameNormalizer.GetSerializedAttributeName | src/Bridge/Doctrine/Common/Util/PropertyNameNormalizerTrait.php:120-133 | without metadata for the class the name is returned as given; with metadata, the first attribute of that name that has a serialized name gives that name, otherwise the name comes back unchanged |
| PropertyNameNormalizer.GetSerializedOriginalAttributeName | src/Bridge/Doctrine/Common/Util/PropertyNameNormalizerTrait.php:135-148 | the linear search returns the name of the first attribute whose serialized name matches, or the serialized name itself when none does or there is no metadata |
| PropertyNameNormalizer.DenormalizeStep | src/Bridge/Doctrine/Common/Util/PropertyNameNormalizerTrait.php:51-68 | a null class stays null and the segment is only name-converted; otherwise the next class is found exactly when the name-converted segment is a Doctrine association |
| PropertyNameNormalizer.NormalizeStep | src/Bridge/Doctrine/Common/Util/PropertyNameNormalizerTrait.php:97-114 | a null class stays null and the segment is only name-converted; otherwise the next class is found exactly when the raw segment is a Doctrine association |
| PropertyNameNormalizer.DenormalizeSegments | src/Bridge/Doctrine/Common/Util/PropertyNameNormalizerTrait.php:51-69 | one output segment per input segment |
| PropertyNameNormalizer.NormalizeSegments | src/Bridge/Doctrine/Common/Util/PropertyNameNormalizerTrait.php:97-115 | one output segment per input segment |
| PropertyNameNormalizer.DenormalizePropertyName | src/Bridge/Doctrine/Common/Util/PropertyNameNormalizerTrait.php:33-72 | the loop over the `.`-separated segments returns the segments denormalised one by one, with the class threaded through associations, joined by `.` |
| PropertyNameNormalizer.NormalizePropertyName | src/Bridge/Doctrine/Common/Util/PropertyNameNormalizerTrait.php:79-118 | the loop returns the segments normalised one by one (serialized name, then name converter), joined by `.` |
| PropertyNameNormalizer.NullClassConvertsEachSegment | src/Bridge/Doctrine/Common/Util/PropertyNameNormalizerTrait.php:56-59 | with a null resource class every output segment is exactly the name-converted input segment, in both directions |
| PropertyNameNormalizer.NullClassIgnoresMetadata | src/Bridge/Doctrine/Common/Util/PropertyNameNormalizerTrait.php:56-68 | once the class is null the result depends only on the name converter, not on serializer or Doctrine metadata |
| PropertyNameNormalizer.IdentityWithoutConverterOrClass | src/Bridge/Doctrine/Common/Util/PropertyNameNormalizerTrait.php:48-71 | without a name converter and a class, both directions return the path unchanged |
| PropertyNameNormalizer.SegmentsUnchanged | src/Bridge/Doctrine/Common/Util/PropertyNameNormalizerTrait.php:51-71 | without a name converter and with no serializer renaming, every segment is kept, for every resource class |
| PropertyNameNormalizer.IdentityWithoutRenaming | src/Bridge/Doctrine/Common/Util/PropertyNameNormalizerTrait.php:33-118 | without a name converter and with no serializer renaming, both directions are the identity and normalising a denormalised path gives it back |
| PropertyNameNormalizer.SegmentsRoundTrip | src/Bridge/Doctrine/Common/Util/PropertyNameNormalizerTrait.php:51-71 | without serializer metadata, if the converter undoes itself on each segment, normalising the denormalised segments gives the segments back |
| PropertyNameNormalizer.RoundTripWithoutSerializerMetadata | src/Bridge/Doctrine/Common/Util/PropertyNameNormalizerTrait.php:33-118 | without serializer metadata, if the converter undoes itself on each segment and adds no `.`, normalise(denormalise(path)) == path for every resource class |
| PropertyNameNormalizer.DenormalizeWithoutMetadata | src/Bridge/Doctrine/Common/Util/PropertyNameNormalizerTrait.php:51-65 | without serializer metadata each denormalised segment is the name-converted input segment |
| PropertyNameNormalizer.DenormalizePreservesSegmentCount | src/Bridge/Doctrine/Common/Util/PropertyNameNormalizerTrait.php:51-71 | when no output segment contains `.`, splitting the denormalised name gives back the output segments, as many as the input had |
| PropertyNameNormalizer.NormalizePreservesSegmentCount | src/Bridge/Doctrine/Common/Util/PropertyNameNormalizerTrait.php:97-117 | the same segment-count law for normalisation |
| PropertyNameNormalizer.SerializedNameRoundTrip | src/Bridge/Doctrine/Common/Util/PropertyNameNormalizerTrait.php:120-148 | with unique attribute names, mapping a serialized name present in the metadata to its original name and back yields the serialized name |
| PropertyNameNormalizer.RenamedAssociationBreaksReverseRoundTrip | src/Bridge/Doctrine/Common/Util/PropertyNameNormalizerTrait.php:52-65 | because the two directions test associations on different names, with a serializer-renamed association "author.name" normalises to "writer.fullName", which denormalises to "author.fullName" |
| MongoDbOdmFilter.PropertyEnabled | src/Bridge/Doctrine/MongoDbOdm/Filter/AbstractFilter.php:103-111 | without configured properties a property is enabled exactly when it is not nested; with them, exactly when it is a configured key |
| MongoDbOdmFilter.AbstractFilter.constructor | src/Bridge/Doctrine/MongoDbOdm/Filter/AbstractFilter.php:47-58 | stores the arguments; a missing logger becomes the null logger |
| MongoDbOdmFilter.AbstractFilter.Apply | src/Bridge/Doctrine/MongoDbOdm/Filter/AbstractFilter.php:63-68 | exactly one filterProperty call per entry of the filters, in order, with the denormalised property name and the value unchanged; none when the filters are missing or not an array |
| OrmQuery.Locate | src/Bridge/Doctrine/Orm/Filter/OrderFilter.php:112-117 | a non-nested property is filtered on the root alias under its own name; resolving a nested one only appends joins and updates the join-alias counter, leaving the parameter counter and every other clause alone |
| OrmQuery.QueryNameGenerator.GenerateParameterName | src/Bridge/Doctrine/Orm/Filter/RangeFilter.php:89 | returns the name for the field at the current count, advances the parameter counter by one and leaves the join-alias counter alone |
| OrmQuery.AddJoinsForNestedProperty | src/Bridge/Doctrine/Orm/Filter/OrderFilter.php:115-117 | on the live builder and generator, moves them exactly as `Locate` says and returns its alias and field |
| OrmOrderFilter.ExpandShorthand | src/Bridge/Doctrine/Orm/Filter/OrderFilter.php:48-59 | null stays null; the same keys; a string becomes `['default_direction' => string]`; every other configuration is kept; no string configuration is left |
| OrmOrderFilter.ExpandShorthandIdempotent | src/Bridge/Doctrine/Orm/Filter/OrderFilter.php:48-59 | expanding an already expanded configuration, such as another filter's `properties`, gives it back unchanged |
| OrmOrderFilter.ShorthandIsDefaultDirection | src/Bridge/Doctrine/Orm/Filter/OrderFilter.php:51-55 | a shorthand string becomes the default direction and sets no nulls comparison |
| OrmOrderFilter.NullsComparison | src/Bridge/Doctrine/Orm/Filter/OrderFilter.php:119 | non-null exactly when properties are configured and the property's `nulls_comparison` is set, and then it is that configured value |
| OrmOrderFilter.OrderFilter.constructor | src/Bridge/Doctrine/Orm/Filter/OrderFilter.php:46-64 | stores the order parameter name and the shorthand-expanded properties, which further expansion leaves unchanged |
| OrmOrderFilter.OrderFilter.FilterPropertySpec | src/Bridge/Doctrine/Orm/Filter/OrderFilter.php:103-128 | a disabled or unmapped property or an invalid direction changes nothing; otherwise it left-joins what a nested property needs, never adds a where clause or parameter, adds the null-rank select and ORDER BY when a nulls comparison is set, and then orders by `alias.field` in the normalised direction (`rootAlias.property` when not nested) |
| OrmOrderFilter.OrderFilter.FilterEntries | src/Bridge/Doctrine/Orm/Filter/OrderFilter.php:81-83 | however many orderings are requested, wheres, parameters and the parameter counter are unchanged, and joins, selects and order-bys only grow at the end |
| OrmOrderFilter.OrderFilter.ApplySpec | src/Bridge/Doctrine/Orm/Filter/OrderFilter.php:69-84 | filters without the order parameter change nothing; a missing or non-array order parameter defers to the parent filter; otherwise each requested ordering is applied in order |
| OrmOrderFilter.OrderFilter.FilterProperty | src/Bridge/Doctrine/Orm/Filter/OrderFilter.php:89-129 | on the live builder and generator, has exactly the effect `FilterPropertySpec` describes |
| OrmOrderFilter.OrderFilter.Apply | src/Bridge/Doctrine/Orm/Filter/OrderFilter.php:69-84 | on the live builder and generator, the early return, the parent fallback and the loop have exactly the effect `ApplySpec` describes |
| OrmOrderFilter.OrderByFollowsRequestOrder | src/Bridge/Doctrine/Orm/Filter/OrderFilter.php:81-83 | enabled, mapped, non-nested orderings with valid directions and no nulls comparison add exactly one ORDER BY each, `rootAlias.property` in the normalised direction, in the order requested |
| OrmOrderFilter.SkippedOrderingsChangeNothing | src/Bridge/Doctrine/Orm/Filter/OrderFilter.php:103-110 | orderings that are all disabled, unmapped or badly directed leave the query and counters exactly as they were |
| OrmRangeFilter.RangeFilter.AddWhereSpec | src/Bridge/Doctrine/Orm/Filter/RangeFilter.php:87-151 | always consumes one parameter name. `between` on a non-string throws a TypeError. `between` adds `BETWEEN :p_1 AND :p_2` bound to the two bounds; `gt`/`gte`/`lt`/`lte` add `>`/`>=`/`<`/`<=` against `:p`. A rejected value or an unknown operator adds nothing, and at most one predicate is ever added, on `alias.field` |
| OrmRangeFilter.RangeFilter.AddWheresSpec | src/Bridge/Doctrine/Orm/Filter/RangeFilter.php:67-76 | one parameter name per entry when no exception is thrown, at most one predicate per entry, all on the same alias and field, earlier predicates and parameters kept, and nothing else touched |
| OrmRangeFilter.RangeFilter.FilterPropertySpec | src/Bridge/Doctrine/Orm/Filter/RangeFilter.php:33-77 | a non-array value, a disabled or unmapped property, or rejected values change nothing; otherwise it joins what a nested property needs and every predicate it adds is on that property's alias and field (`rootAlias.property` when not nested) |
| OrmRangeFilter.RangeFilter.AddWhere | src/Bridge/Doctrine/Orm/Filter/RangeFilter.php:87-151 | on the live builder and generator, has exactly the effect and completion `AddWhereSpec` describes |
| OrmRangeFilter.RangeFilter.FilterProperty | src/Bridge/Doctrine/Orm/Filter/RangeFilter.php:33-77 | on the live builder and generator, the guards, the joins and the loop over the operators have exactly the effect `FilterPropertySpec` describes |
| OrmRangeFilter.ComparisonsFollowRequestOrder | src/Bridge/Doctrine/Orm/Filter/RangeFilter.php:67-76 | comparison entries whose values normalise add one predicate and one parameter each, in request order, entry `i` using the name generated at the counter plus `i` and bound to its normalised value |
| OrmRangeFilter.LowerAndUpperBound | src/Bridge/Doctrine/Orm/Filter/RangeFilter.php:117-147 | a `gte` and an `lte` bound that both normalise give two predicates on the field with two successive parameter names, each bound to its value |
| OrmNumericFilter.GetType | src/Bridge/Doctrine/Orm/Filter/NumericFilter.php:102-113 | `string` exactly for null or decimal, `float` exactly for float, `int` for every other type |
| OrmNumericFilter.NumericFilter.FilterPropertySpec | src/Bridge/Doctrine/Orm/Filter/NumericFilter.php:52-97 | a disabled, unmapped or non-numeric property, or rejected values, change nothing. Otherwise it consumes one parameter name and adds exactly one predicate and one parameter: `alias.field = :p` bound to the single value at the field's Doctrine type, or `alias.field IN (:p)` bound to the whole list without a type |
| OrmNumericFilter.NumericFilter.FilterProperty | src/Bridge/Doctrine/Orm/Filter/NumericFilter.php:52-97 | on the live builder and generator, has exactly the effect `FilterPropertySpec` describes |
| MongoDbOdmDoctrineExtractor.NewDoctrineExtractor | src/Bridge/Doctrine/MongoDbOdm/PropertyInfo/DoctrineExtractor.php:39-49 | an object manager or a class metadata factory is accepted and stored; anything else raises an InvalidArgumentException naming the expected class and the given type |
| MongoDbOdmDoctrineExtractor.AnyNotNullableColumn | src/Bridge/Doctrine/MongoDbOdm/PropertyInfo/DoctrineExtractor.php:203-208 | true exactly when some join column sets `nullable` to a false value |
| MongoDbOdmDoctrineExtractor.IsAssociationNullable | src/Bridge/Doctrine/MongoDbOdm/PropertyInfo/DoctrineExtractor.php:193-211 | an identifier association is not nullable; one without join columns is; otherwise it is nullable exactly when no join column forbids null |
| MongoDbOdmDoctrineExtractor.WithoutDotted | src/Bridge/Doctrine/MongoDbOdm/PropertyInfo/DoctrineExtractor.php:67-69 | the names it keeps are exactly those without a `.`; a single name is kept or dropped by that test |
| MongoDbOdmDoctrineExtractor.WithoutDottedAppend | src/Bridge/Doctrine/MongoDbOdm/PropertyInfo/DoctrineExtractor.php:67-69 | filtering a concatenation is the concatenation of the filtered parts, so the filter keeps order and repeats |
| MongoDbOdmDoctrineExtractor.WithoutDottedKeepsPlainNames | src/Bridge/Doctrine/MongoDbOdm/PropertyInfo/DoctrineExtractor.php:67-69 | a list without dotted names is returned unchanged |
| MongoDbOdmDoctrineExtractor.GetProperties | src/Bridge/Doctrine/MongoDbOdm/PropertyInfo/DoctrineExtractor.php:54-75 | null exactly when the class has no metadata; the field names then the association names; with embedded classes it is the dot-free field names, then the dot-free association names, each in order, then the embedded names in declaration order |
| MongoDbOdmDoctrineExtractor.GetPhpType | src/Bridge/Doctrine/MongoDbOdm/PropertyInfo/DoctrineExtractor.php:216-264 | each ODM type family maps to its builtin type (int, float, string, bool, resource), exactly those, and every other type to null |
| MongoDbOdmDoctrineExtractor.CollectionKeyType | src/Bridge/Doctrine/MongoDbOdm/PropertyInfo/DoctrineExtractor.php:109-131 | int unless ORM metadata indexes the collection by a property, in which case it is the PHP type of that property on the target entity; when the index property is no field of the target, it is the type of the referenced join column on the target of the index property's own association; a missing class, or an index property that is neither field nor association, is a MappingException; a missing or unmapped type is a TypeError |
| MongoDbOdmDoctrineExtractor.FieldTypes | src/Bridge/Doctrine/MongoDbOdm/PropertyInfo/DoctrineExtractor.php:147-185 | dates are DateTime objects, hashes arrays, collections int-keyed lists of strings; other types are their PHP type or null; a null type is a TypeError |
| MongoDbOdmDoctrineExtractor.EmbeddedClass | src/Bridge/Doctrine/MongoDbOdm/PropertyInfo/DoctrineExtractor.php:143-144 | found exactly when some embedded entry has the property's name, and then it is that entry's class |
| MongoDbOdmDoctrineExtractor.GetTypes | src/Bridge/Doctrine/MongoDbOdm/PropertyInfo/DoctrineExtractor.php:80-186 | null without metadata. A single-valued association is its target object. A collection association is a non-nullable Collection keyed by its key type, holding target objects. An embedded property is its class, and a field is described by `FieldTypes`. Anything else is null |
| PropertyMetadataFactoryOptions.GetFactoryOptions | src/Metadata/Property/PropertyMetadataFactoryOptionsTrait.php:23-44 | each of the four options is present exactly when its context key is set, carrying that value (groups and ignored attributes under a `serializer_` name); no other key and no null value |

## Left out

- The ORM `AbstractFilter` and its `isPropertyEnabled` are not part of this model. The ORM filters reuse the ODM allow-list policy (`MongoDbOdmFilter.PropertyEnabled`).
- The context argument of `filterProperty` is not modelled. The deprecation shim around it and `func_get_arg` are left out, as are all `trigger_error` deprecations. The ORM filters do not read the context.
- `OrderFilter::extractProperties` is deprecated request parsing and is left out.
- Logging is left out; the logger is only stored.
- The ORM filter traits (`OrderFilterTrait`, `RangeFilterTrait`, `NumericFilterTrait`) are not part of this model. `normalizeValue`, `normalizeValues`, `normalizeBetweenValues`, `isNumericField`, `getDoctrineFieldType` and `NULLS_DIRECTION_MAP` are uninterpreted functions.
- The ORM filter helpers `isPropertyNested`, `isPropertyMapped` and `addJoinsForNestedProperty` are uninterpreted. The only thing assumed of the last one is that it appends joins and sets a new join-alias counter.
- The text of generated parameter names is a parameter; only the counter that makes them distinct is modelled.
- `OrmOrderFilter.OrderFilter.ApplySpec`: the parent filter's `apply` is not part of this model. Its effect is an uninterpreted function of the world.
- `OrmRangeFilter.RangeFilter.AddWhereSpec`: `explode` on a non-string under strict types is modelled as a TypeError that ends the filter. Which exception it is, and how it propagates further, is not modelled.
- PHP arrays are modelled with string keys only. Integer keys, and the loose `switch` comparison they would take part in, are not modelled.
- Doctrine's class metadata, the serializer's metadata and the name converter are records of functions and maps; their internal behaviour is not modelled.
- `getClassMetadata` failures are `None`, and getProperties and getTypes return null for them. A failure in the nested lookups of an indexed collection is a `MappingException`.
- `getAssociationMapping` on a name that is not an association is modelled as a `MappingException`.
- Symfony's `Type` constructor rejecting a null builtin type is modelled as a TypeError.
- `ReflectionClass::hasMethod` probes are capability flags on the metadata.
- `class_exists('Doctrine\ORM\Mapping\Embedded')` is the extractor's `embeddedSupport` flag.
- `PropertyMetadataFactoryOptions.GetFactoryOptions`: the options are a map, so the order in which PHP inserts the keys is not modelled.
- The ODM filter's `apply` returns the list of `filterProperty` calls it makes, since `filterProperty` is abstract there. The aggregation builder is not modelled.
- The ODM getters carry no contracts: they only return a field.
