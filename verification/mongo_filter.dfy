/**
 * The MongoDB ODM base filter: its configuration, the allow-list policy
 * that decides which properties a filter honours, and the dispatch loop
 * that hands each requested filter to the concrete filter's
 * `filterProperty`.
 */
module MongoDbOdmFilter {
  import opened Php
  import opened PropertyNameNormalizer

  /** The logger a filter writes to; the null logger is the default. */
  datatype Logger = NullLogger | Injected(name: string)

  /**
   * The Doctrine manager registry, as the filter helpers see it: the
   * associations of each class (name to target class) and the helper's
   * nested-property test, which is not part of this model.
   */
  datatype ManagerRegistry = ManagerRegistry(
    associations: string -> map<string, string>,
    isPropertyNested: (string, string) -> bool)

  /**
   * The allow-list policy of isPropertyEnabled. Without configured
   * properties, nested properties must be enabled explicitly and are
   * refused; with configured properties, key membership alone decides.
   */
  function PropertyEnabled(properties: Option<map<string, Value>>, property: string, nested: bool): (r: bool)
    ensures properties.None? ==> (r <==> !nested)
    ensures properties.Some? ==> (r <==> property in properties.value)
  {
    match properties
    case None => !nested
    case Some(configured) => property in configured
  }

  /** One invocation of the concrete filter's (abstract) filterProperty. */
  datatype FilterCall = FilterCall(property: string, value: Value, resourceClass: string, operationName: Option<string>)

  class AbstractFilter {
    const managerRegistry: ManagerRegistry
    const logger: Logger
    const properties: Option<map<string, Value>>
    const nameConverter: Option<NameConverter>
    const classMetadataFactory: Option<SerializerMetadata>

    /** Stores its arguments; a missing logger becomes the null logger. */
    constructor (managerRegistry: ManagerRegistry, logger: Option<Logger>, properties: Option<map<string, Value>>,
                 nameConverter: Option<NameConverter>, classMetadataFactory: Option<SerializerMetadata>)
      ensures this.managerRegistry == managerRegistry
      ensures this.logger == (if logger.Some? then logger.value else NullLogger)
      ensures this.properties == properties
      ensures this.nameConverter == nameConverter
      ensures this.classMetadataFactory == classMetadataFactory
    {
      this.managerRegistry := managerRegistry;
      this.logger := if logger.Some? then logger.value else NullLogger;
      this.properties := properties;
      this.nameConverter := nameConverter;
      this.classMetadataFactory := classMetadataFactory;
    }

    function GetManagerRegistry(): ManagerRegistry { managerRegistry }
    function GetProperties(): Option<map<string, Value>> { properties }
    function GetLogger(): Logger { logger }
    function GetNameConverter(): Option<NameConverter> { nameConverter }
    function GetClassMetadataFactory(): Option<SerializerMetadata> { classMetadataFactory }

    /** The property-name normaliser this filter's getters configure. */
    function Normalizer(): Normalizer {
      PropertyNameNormalizer.Normalizer(nameConverter, classMetadataFactory, managerRegistry.associations)
    }

    /** isPropertyEnabled. */
    predicate IsPropertyEnabled(property: string, resourceClass: string) {
      PropertyEnabled(properties, property, managerRegistry.isPropertyNested(property, resourceClass))
    }

    /**
     * apply: one filterProperty call per entry of `$context['filters']`, in
     * order, each with the denormalised property name and the entry's value
     * unchanged. When the filters are missing or not an array, PHP's
     * `foreach` only warns and nothing is called.
     */
    method Apply(resourceClass: string, operationName: Option<string>, context: map<string, Value>)
      returns (calls: seq<FilterCall>)
      ensures ("filters" !in context || !context["filters"].Arr?) ==> calls == []
      ensures "filters" in context && context["filters"].Arr? ==>
        var filters := context["filters"].entries;
        && |calls| == |filters|
        && forall i :: 0 <= i < |filters| ==>
             calls[i] == FilterCall(DenormalizedName(Normalizer(), filters[i].0, Some(resourceClass)),
                                    filters[i].1, resourceClass, operationName)
    {
      calls := [];
      if "filters" !in context || !context["filters"].Arr? {
        return;
      }
      var filters := context["filters"].entries;
      var i := 0;
      while i < |filters|
        invariant 0 <= i <= |filters|
        invariant |calls| == i
        invariant forall k :: 0 <= k < i ==>
          calls[k] == FilterCall(DenormalizedName(Normalizer(), filters[k].0, Some(resourceClass)),
                                 filters[k].1, resourceClass, operationName)
      {
        var (property, value) := filters[i];
        var denormalized := DenormalizePropertyName(Normalizer(), property, Some(resourceClass));
        calls := calls + [FilterCall(denormalized, value, resourceClass, operationName)];
        i := i + 1;
      }
    }
  }
}
