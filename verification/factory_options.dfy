/**
 * The options a property metadata factory passes on to the serializer's
 * property-info extractors, derived from a serialization context.
 */
module PropertyMetadataFactoryOptions {
  import opened Php

  /** The serializer's context keys for groups and ignored attributes. */
  const GROUPS := "groups"
  const IGNORED_ATTRIBUTES := "ignored_attributes"

  const SERIALIZER_GROUPS := "serializer_groups"
  const SERIALIZER_IGNORED_ATTRIBUTES := "serializer_ignored_attributes"
  const COLLECTION_OPERATION_NAME := "collection_operation_name"
  const ITEM_OPERATION_NAME := "item_operation_name"

  /**
   * getFactoryOptions: the groups and ignored attributes are renamed with a
   * `serializer_` prefix, the two operation names are copied as they are,
   * and each is present exactly when it is set (non-null) in the context.
   * Nothing else is ever added.
   */
  method GetFactoryOptions(context: map<string, Value>) returns (options: map<string, Value>)
    ensures SERIALIZER_GROUPS in options <==> Isset(context, GROUPS)
    ensures SERIALIZER_GROUPS in options ==> options[SERIALIZER_GROUPS] == context[GROUPS]
    ensures SERIALIZER_IGNORED_ATTRIBUTES in options <==> Isset(context, IGNORED_ATTRIBUTES)
    ensures SERIALIZER_IGNORED_ATTRIBUTES in options ==>
      options[SERIALIZER_IGNORED_ATTRIBUTES] == context[IGNORED_ATTRIBUTES]
    ensures COLLECTION_OPERATION_NAME in options <==> Isset(context, COLLECTION_OPERATION_NAME)
    ensures COLLECTION_OPERATION_NAME in options ==>
      options[COLLECTION_OPERATION_NAME] == context[COLLECTION_OPERATION_NAME]
    ensures ITEM_OPERATION_NAME in options <==> Isset(context, ITEM_OPERATION_NAME)
    ensures ITEM_OPERATION_NAME in options ==> options[ITEM_OPERATION_NAME] == context[ITEM_OPERATION_NAME]
    ensures options.Keys <= {SERIALIZER_GROUPS, SERIALIZER_IGNORED_ATTRIBUTES, COLLECTION_OPERATION_NAME, ITEM_OPERATION_NAME}
    ensures forall k :: k in options ==> options[k] != Null
  {
    options := map[];
    if Isset(context, GROUPS) {
      options := options[SERIALIZER_GROUPS := context[GROUPS]];
    }
    if Isset(context, IGNORED_ATTRIBUTES) {
      options := options[SERIALIZER_IGNORED_ATTRIBUTES := context[IGNORED_ATTRIBUTES]];
    }
    if Isset(context, COLLECTION_OPERATION_NAME) {
      options := options[COLLECTION_OPERATION_NAME := context[COLLECTION_OPERATION_NAME]];
    }
    if Isset(context, ITEM_OPERATION_NAME) {
      options := options[ITEM_OPERATION_NAME := context[ITEM_OPERATION_NAME]];
    }
  }
}
