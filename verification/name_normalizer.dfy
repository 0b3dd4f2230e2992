/**
 * Property-name normalisation: the mapping between the dotted property
 * paths a client sends (serialised names, spelled by the name converter)
 * and the internal property paths the Doctrine metadata knows, in both
 * directions, one `.`-separated segment at a time.
 */
module PropertyNameNormalizer {
  import opened Php

  const SEPARATOR := "."

  /** The serializer's name converter: a pair of string functions. */
  datatype NameConverter = NameConverter(normalize: string -> string, denormalize: string -> string)

  /** One attribute of a class as the serializer's metadata describes it. */
  datatype AttributeMetadata = AttributeMetadata(name: string, serializedName: Option<string>)

  /**
   * The serializer's class metadata factory: the classes it has metadata
   * for, each with its attributes metadata, keyed by attribute name and in
   * declaration order.
   */
  type SerializerMetadata = map<string, seq<AttributeMetadata>>

  /**
   * What the normaliser reads from its host filter: the optional name
   * converter, the optional serializer class metadata factory, and the
   * associations of each Doctrine class (name to target class).
   */
  datatype Normalizer = Normalizer(
    nameConverter: Option<NameConverter>,
    classMetadataFactory: Option<SerializerMetadata>,
    associations: string -> map<string, string>)

  /** The name converter's `denormalize`, or the identity when there is none. */
  function ConvertToInternal(n: Normalizer, name: string): string {
    if n.nameConverter.Some? then n.nameConverter.value.denormalize(name) else name
  }

  /** The name converter's `normalize`, or the identity when there is none. */
  function ConvertToExternal(n: Normalizer, name: string): string {
    if n.nameConverter.Some? then n.nameConverter.value.normalize(name) else name
  }

  /** The attributes metadata of a class, when the factory exists and has metadata for it. */
  function AttributesOf(n: Normalizer, resourceClass: string): Option<seq<AttributeMetadata>> {
    if n.classMetadataFactory.Some? && resourceClass in n.classMetadataFactory.value
    then Some(n.classMetadataFactory.value[resourceClass])
    else None
  }

  /**
   * getSerializedAttributeName: the serialised name of the attribute called
   * `originalName`, or `originalName` itself when there is no factory, no
   * metadata for the class, no such attribute, or no serialised name.
   */
  function GetSerializedAttributeName(n: Normalizer, resourceClass: string, originalName: string): (r: string)
    ensures AttributesOf(n, resourceClass).None? ==> r == originalName
    ensures AttributesOf(n, resourceClass).Some? ==>
      var attrs := AttributesOf(n, resourceClass).value;
      (exists i :: 0 <= i < |attrs| && attrs[i].name == originalName
         && (forall j :: 0 <= j < i ==> attrs[j].name != originalName)
         && attrs[i].serializedName == Some(r))
      || (r == originalName
          && forall i :: 0 <= i < |attrs| && attrs[i].name == originalName ==>
               (exists j :: 0 <= j < i && attrs[j].name == originalName) || attrs[i].serializedName.None?)
  {
    match AttributesOf(n, resourceClass)
    case None => originalName
    case Some(attrs) =>
      match FirstIndex(attrs, (a: AttributeMetadata) => a.name == originalName)
      case Some(i) => if attrs[i].serializedName.Some? then attrs[i].serializedName.value else originalName
      case None => originalName
  }

  /**
   * The value getSerializedOriginalAttributeName computes: the name of the
   * first attribute whose serialised name is `serializedName`, or the input
   * itself when there is no factory, no metadata for the class or no match.
   */
  function OriginalAttributeName(n: Normalizer, resourceClass: string, serializedName: string): (r: string)
    ensures AttributesOf(n, resourceClass).None? ==> r == serializedName
    ensures AttributesOf(n, resourceClass).Some? ==>
      var attrs := AttributesOf(n, resourceClass).value;
      (exists i :: 0 <= i < |attrs| && attrs[i].serializedName == Some(serializedName)
         && (forall j :: 0 <= j < i ==> attrs[j].serializedName != Some(serializedName))
         && attrs[i].name == r)
      || (r == serializedName && forall i :: 0 <= i < |attrs| ==> attrs[i].serializedName != Some(serializedName))
  {
    match AttributesOf(n, resourceClass)
    case None => serializedName
    case Some(attrs) =>
      match FirstIndex(attrs, (a: AttributeMetadata) => a.serializedName == Some(serializedName))
      case Some(i) => attrs[i].name
      case None => serializedName
  }

  /** getSerializedOriginalAttributeName: a linear search over the attributes metadata. */
  method GetSerializedOriginalAttributeName(n: Normalizer, resourceClass: string, serializedName: string)
    returns (r: string)
    ensures r == OriginalAttributeName(n, resourceClass, serializedName)
  {
    if n.classMetadataFactory.None? || resourceClass !in n.classMetadataFactory.value {
      return serializedName;
    }
    var attrs := n.classMetadataFactory.value[resourceClass];
    var i := 0;
    while i < |attrs|
      invariant 0 <= i <= |attrs|
      invariant forall j :: 0 <= j < i ==> attrs[j].serializedName != Some(serializedName)
    {
      if attrs[i].serializedName == Some(serializedName) {
        return attrs[i].name;
      }
      i := i + 1;
    }
    return serializedName;
  }

  /** What one loop iteration produces: the output segment and the next resource class. */
  datatype Step = Step(segment: string, next: Option<string>)

  /** One iteration of denormalizePropertyName's loop. */
  function DenormalizeStep(n: Normalizer, subProperty: string, resourceClass: Option<string>): (st: Step)
    // a null class stays null, and the segment is then only name-converted
    ensures resourceClass.None? ==> st == Step(ConvertToInternal(n, subProperty), None)
    // the association test uses the name-converted segment, before the serialised-to-original lookup
    ensures resourceClass.Some? ==>
      (st.next.Some? <==> ConvertToInternal(n, subProperty) in n.associations(resourceClass.value))
  {
    var converted := ConvertToInternal(n, subProperty);
    match resourceClass
    case None => Step(converted, None)
    case Some(c) =>
      var doctrine := n.associations(c);
      Step(OriginalAttributeName(n, c, converted),
           if converted in doctrine then Some(doctrine[converted]) else None)
  }

  /** One iteration of normalizePropertyName's loop. */
  function NormalizeStep(n: Normalizer, subProperty: string, resourceClass: Option<string>): (st: Step)
    ensures resourceClass.None? ==> st == Step(ConvertToExternal(n, subProperty), None)
    // the association test uses the raw input segment, before any renaming
    ensures resourceClass.Some? ==> (st.next.Some? <==> subProperty in n.associations(resourceClass.value))
  {
    var serialized := if resourceClass.Some? then GetSerializedAttributeName(n, resourceClass.value, subProperty) else subProperty;
    var normalized := ConvertToExternal(n, serialized);
    var next :=
      if resourceClass.Some? && subProperty in n.associations(resourceClass.value)
      then Some(n.associations(resourceClass.value)[subProperty])
      else None;
    Step(normalized, next)
  }

  /** The output segments of denormalizePropertyName, the resource class threaded left to right. */
  function DenormalizeSegments(n: Normalizer, segments: seq<string>, resourceClass: Option<string>): (out: seq<string>)
    ensures |out| == |segments|
    decreases |segments|
  {
    if |segments| == 0 then []
    else
      var st := DenormalizeStep(n, segments[0], resourceClass);
      [st.segment] + DenormalizeSegments(n, segments[1..], st.next)
  }

  /** The output segments of normalizePropertyName. */
  function NormalizeSegments(n: Normalizer, segments: seq<string>, resourceClass: Option<string>): (out: seq<string>)
    ensures |out| == |segments|
    decreases |segments|
  {
    if |segments| == 0 then []
    else
      var st := NormalizeStep(n, segments[0], resourceClass);
      [st.segment] + NormalizeSegments(n, segments[1..], st.next)
  }

  /** The value denormalizePropertyName returns. */
  function DenormalizedName(n: Normalizer, property: string, resourceClass: Option<string>): string {
    Implode(SEPARATOR, DenormalizeSegments(n, Explode(SEPARATOR, property), resourceClass))
  }

  /** The value normalizePropertyName returns. */
  function NormalizedName(n: Normalizer, property: string, resourceClass: Option<string>): string {
    Implode(SEPARATOR, NormalizeSegments(n, Explode(SEPARATOR, property), resourceClass))
  }

  /** Handling segment `i` moves its output from the pending segments to the accumulated ones. */
  lemma DenormalizeSegmentsUnfold(n: Normalizer, segments: seq<string>, i: nat, current: Option<string>, done: seq<string>)
    requires i < |segments|
    ensures var st := DenormalizeStep(n, segments[i], current);
      done + DenormalizeSegments(n, segments[i..], current)
      == (done + [st.segment]) + DenormalizeSegments(n, segments[i + 1..], st.next)
  {
    assert segments[i..][1..] == segments[i + 1..];
  }

  lemma NormalizeSegmentsUnfold(n: Normalizer, segments: seq<string>, i: nat, current: Option<string>, done: seq<string>)
    requires i < |segments|
    ensures var st := NormalizeStep(n, segments[i], current);
      done + NormalizeSegments(n, segments[i..], current)
      == (done + [st.segment]) + NormalizeSegments(n, segments[i + 1..], st.next)
  {
    assert segments[i..][1..] == segments[i + 1..];
  }

  /** denormalizePropertyName: API (serialised) path to internal path. */
  method DenormalizePropertyName(n: Normalizer, property: string, resourceClass: Option<string>) returns (r: string)
    ensures r == DenormalizedName(n, property, resourceClass)
  {
    var segments := Explode(SEPARATOR, property);
    var denormalizedProperties: seq<string> := [];
    var current := resourceClass;
    var i := 0;
    while i < |segments|
      invariant 0 <= i <= |segments|
      invariant denormalizedProperties + DenormalizeSegments(n, segments[i..], current)
             == DenormalizeSegments(n, segments, resourceClass)
    {
      ghost var st := DenormalizeStep(n, segments[i], current);
      DenormalizeSegmentsUnfold(n, segments, i, current, denormalizedProperties);
      var subProperty := ConvertToInternal(n, segments[i]);
      if current.None? {
        denormalizedProperties := denormalizedProperties + [subProperty];
      } else {
        var original := GetSerializedOriginalAttributeName(n, current.value, subProperty);
        denormalizedProperties := denormalizedProperties + [original];
        var doctrine := n.associations(current.value);
        if subProperty in doctrine {
          current := Some(doctrine[subProperty]);
        } else {
          current := None;
        }
      }
      i := i + 1;
    }
    assert segments[i..] == [];
    assert denormalizedProperties == DenormalizeSegments(n, segments, resourceClass);
    r := Implode(SEPARATOR, denormalizedProperties);
  }

  /** normalizePropertyName: internal path to API (serialised) path. */
  method NormalizePropertyName(n: Normalizer, property: string, resourceClass: Option<string>) returns (r: string)
    ensures r == NormalizedName(n, property, resourceClass)
  {
    var segments := Explode(SEPARATOR, property);
    var normalizedProperties: seq<string> := [];
    var current := resourceClass;
    var i := 0;
    while i < |segments|
      invariant 0 <= i <= |segments|
      invariant normalizedProperties + NormalizeSegments(n, segments[i..], current)
             == NormalizeSegments(n, segments, resourceClass)
    {
      ghost var st := NormalizeStep(n, segments[i], current);
      NormalizeSegmentsUnfold(n, segments, i, current, normalizedProperties);
      var subProperty := segments[i];
      var normalizedProperty := subProperty;
      if current.Some? {
        normalizedProperty := GetSerializedAttributeName(n, current.value, subProperty);
      }
      normalizedProperty := ConvertToExternal(n, normalizedProperty);
      if current.Some? && subProperty in n.associations(current.value) {
        current := Some(n.associations(current.value)[subProperty]);
      } else {
        current := None;
      }
      assert normalizedProperty == st.segment && current == st.next;
      normalizedProperties := normalizedProperties + [normalizedProperty];
      i := i + 1;
    }
    assert segments[i..] == [];
    assert normalizedProperties == NormalizeSegments(n, segments, resourceClass);
    r := Implode(SEPARATOR, normalizedProperties);
  }

  // ---------------------------------------------------------------------
  // Properties of the two directions
  // ---------------------------------------------------------------------

  /**
   * With a null resource class, each output segment is the name-converted
   * input segment, whatever the other segments and whatever the metadata.
   */
  lemma {:induction false} NullClassConvertsEachSegment(n: Normalizer, segments: seq<string>)
    ensures forall i :: 0 <= i < |segments| ==>
      DenormalizeSegments(n, segments, None)[i] == ConvertToInternal(n, segments[i])
    ensures forall i :: 0 <= i < |segments| ==>
      NormalizeSegments(n, segments, None)[i] == ConvertToExternal(n, segments[i])
    decreases |segments|
  {
    if |segments| > 0 {
      NullClassConvertsEachSegment(n, segments[1..]);
      assert forall i :: 1 <= i < |segments| ==> segments[1..][i - 1] == segments[i];
    }
  }

  /**
   * Once the threaded class is null it stays null: from there on the
   * output no longer depends on the serializer metadata or on Doctrine.
   */
  lemma NullClassIgnoresMetadata(n: Normalizer, m: Normalizer, segments: seq<string>)
    requires n.nameConverter == m.nameConverter
    ensures DenormalizeSegments(n, segments, None) == DenormalizeSegments(m, segments, None)
    ensures NormalizeSegments(n, segments, None) == NormalizeSegments(m, segments, None)
  {
    NullClassConvertsEachSegment(n, segments);
    NullClassConvertsEachSegment(m, segments);
  }

  /** With no name converter and a null resource class, both directions are the identity. */
  lemma IdentityWithoutConverterOrClass(n: Normalizer, property: string)
    requires n.nameConverter.None?
    ensures DenormalizedName(n, property, None) == property
    ensures NormalizedName(n, property, None) == property
  {
    var segments := Explode(SEPARATOR, property);
    NullClassConvertsEachSegment(n, segments);
    assert DenormalizeSegments(n, segments, None) == segments;
    assert NormalizeSegments(n, segments, None) == segments;
    ImplodeExplode(SEPARATOR, property);
  }

  /**
   * No attribute is renamed by the serializer: either there is no factory,
   * or every serialised name is absent or equal to the attribute's name.
   */
  ghost predicate NoSerializedRenaming(n: Normalizer) {
    n.classMetadataFactory.None? ||
    forall c, i :: c in n.classMetadataFactory.value && 0 <= i < |n.classMetadataFactory.value[c]| ==>
      n.classMetadataFactory.value[c][i].serializedName in {None, Some(n.classMetadataFactory.value[c][i].name)}
  }

  lemma {:induction false} SegmentsUnchanged(n: Normalizer, segments: seq<string>, resourceClass: Option<string>)
    requires n.nameConverter.None?
    requires NoSerializedRenaming(n)
    ensures DenormalizeSegments(n, segments, resourceClass) == segments
    ensures NormalizeSegments(n, segments, resourceClass) == segments
    decreases |segments|
  {
    if |segments| > 0 {
      var s := segments[0];
      var d := DenormalizeStep(n, s, resourceClass);
      var m := NormalizeStep(n, s, resourceClass);
      if resourceClass.Some? {
        var c := resourceClass.value;
        if AttributesOf(n, c).Some? {
          var attrs := AttributesOf(n, c).value;
          var k := FirstIndex(attrs, (a: AttributeMetadata) => a.serializedName == Some(s));
          if k.Some? {
            assert attrs[k.value].serializedName in {None, Some(attrs[k.value].name)};
          }
          var j := FirstIndex(attrs, (a: AttributeMetadata) => a.name == s);
          if j.Some? {
            assert attrs[j.value].serializedName in {None, Some(attrs[j.value].name)};
          }
        }
      }
      assert d.segment == s && m.segment == s;
      SegmentsUnchanged(n, segments[1..], d.next);
      SegmentsUnchanged(n, segments[1..], m.next);
      assert [s] + segments[1..] == segments;
    }
  }

  /**
   * Without a name converter and without serialised renaming, both
   * directions are the identity for every resource class, so each undoes
   * the other.
   */
  lemma IdentityWithoutRenaming(n: Normalizer, property: string, resourceClass: Option<string>)
    requires n.nameConverter.None?
    requires NoSerializedRenaming(n)
    ensures DenormalizedName(n, property, resourceClass) == property
    ensures NormalizedName(n, property, resourceClass) == property
    ensures NormalizedName(n, DenormalizedName(n, property, resourceClass), resourceClass) == property
  {
    SegmentsUnchanged(n, Explode(SEPARATOR, property), resourceClass);
    ImplodeExplode(SEPARATOR, property);
  }

  lemma {:induction false} SegmentsRoundTrip(n: Normalizer, segments: seq<string>, resourceClass: Option<string>)
    requires n.classMetadataFactory.None?
    requires forall i :: 0 <= i < |segments| ==>
      ConvertToExternal(n, ConvertToInternal(n, segments[i])) == segments[i]
    ensures NormalizeSegments(n, DenormalizeSegments(n, segments, resourceClass), resourceClass) == segments
    decreases |segments|
  {
    if |segments| > 0 {
      var d := DenormalizeStep(n, segments[0], resourceClass);
      var m := NormalizeStep(n, d.segment, resourceClass);
      assert d.segment == ConvertToInternal(n, segments[0]);
      assert m == Step(segments[0], d.next);
      var rest := DenormalizeSegments(n, segments[1..], d.next);
      assert ([d.segment] + rest)[1..] == rest;
      SegmentsRoundTrip(n, segments[1..], d.next);
      assert [segments[0]] + segments[1..] == segments;
    }
  }

  /**
   * Without serializer metadata, normalising a denormalised path gives the
   * path back for every resource class, provided the name converter undoes
   * itself on each segment and never introduces a `.`: both directions
   * then test associations on the same internal name and thread the same
   * classes.
   */
  lemma RoundTripWithoutSerializerMetadata(n: Normalizer, property: string, resourceClass: Option<string>)
    requires n.classMetadataFactory.None?
    requires forall s :: s in Explode(SEPARATOR, property) ==>
      ConvertToExternal(n, ConvertToInternal(n, s)) == s && '.' !in ConvertToInternal(n, s)
    ensures NormalizedName(n, DenormalizedName(n, property, resourceClass), resourceClass) == property
  {
    var segments := Explode(SEPARATOR, property);
    var d := DenormalizeSegments(n, segments, resourceClass);
    assert forall i :: 0 <= i < |d| ==> d[i] == ConvertToInternal(n, segments[i]) by {
      DenormalizeWithoutMetadata(n, segments, resourceClass);
    }
    ExplodeImplode('.', d);
    SegmentsRoundTrip(n, segments, resourceClass);
    ImplodeExplode(SEPARATOR, property);
  }

  lemma {:induction false} DenormalizeWithoutMetadata(n: Normalizer, segments: seq<string>, resourceClass: Option<string>)
    requires n.classMetadataFactory.None?
    ensures forall i :: 0 <= i < |segments| ==>
      DenormalizeSegments(n, segments, resourceClass)[i] == ConvertToInternal(n, segments[i])
    decreases |segments|
  {
    if |segments| > 0 {
      var st := DenormalizeStep(n, segments[0], resourceClass);
      DenormalizeWithoutMetadata(n, segments[1..], st.next);
      assert forall i :: 1 <= i < |segments| ==> segments[1..][i - 1] == segments[i];
    }
  }

  /**
   * Segment count: the output has one segment per input segment, so when
   * no output segment contains a `.` splitting the result gives back as
   * many segments as the input had.
   */
  lemma DenormalizePreservesSegmentCount(n: Normalizer, property: string, resourceClass: Option<string>)
    requires forall s :: s in DenormalizeSegments(n, Explode(SEPARATOR, property), resourceClass) ==> '.' !in s
    ensures Explode(SEPARATOR, DenormalizedName(n, property, resourceClass))
         == DenormalizeSegments(n, Explode(SEPARATOR, property), resourceClass)
    ensures |Explode(SEPARATOR, DenormalizedName(n, property, resourceClass))| == |Explode(SEPARATOR, property)|
  {
    ExplodeImplode('.', DenormalizeSegments(n, Explode(SEPARATOR, property), resourceClass));
  }

  /** The same segment-count law for normalizePropertyName. */
  lemma NormalizePreservesSegmentCount(n: Normalizer, property: string, resourceClass: Option<string>)
    requires forall s :: s in NormalizeSegments(n, Explode(SEPARATOR, property), resourceClass) ==> '.' !in s
    ensures Explode(SEPARATOR, NormalizedName(n, property, resourceClass))
         == NormalizeSegments(n, Explode(SEPARATOR, property), resourceClass)
    ensures |Explode(SEPARATOR, NormalizedName(n, property, resourceClass))| == |Explode(SEPARATOR, property)|
  {
    ExplodeImplode('.', NormalizeSegments(n, Explode(SEPARATOR, property), resourceClass));
  }

  /**
   * On one class, mapping a serialised name to its original name and back
   * gives the serialised name again, when attribute names are unique and
   * some attribute carries that serialised name.
   */
  lemma SerializedNameRoundTrip(n: Normalizer, resourceClass: string, serializedName: string)
    requires AttributesOf(n, resourceClass).Some?
    requires var attrs := AttributesOf(n, resourceClass).value;
      forall i, j :: 0 <= i < j < |attrs| ==> attrs[i].name != attrs[j].name
    requires exists a :: a in AttributesOf(n, resourceClass).value && a.serializedName == Some(serializedName)
    ensures GetSerializedAttributeName(n, resourceClass, OriginalAttributeName(n, resourceClass, serializedName))
         == serializedName
  {
    var attrs := AttributesOf(n, resourceClass).value;
    var k := FirstIndex(attrs, (a: AttributeMetadata) => a.serializedName == Some(serializedName));
    assert k.Some?;
    var original := attrs[k.value].name;
    var j := FirstIndex(attrs, (a: AttributeMetadata) => a.name == original);
    assert j == Some(k.value);
  }

  /**
   * The association test differs by direction: denormalising tests the
   * serialised segment, normalising tests the original one. So when an
   * association is renamed by the serializer the two directions stop
   * threading the same class, and denormalising a normalised path need not
   * give it back: here "author.name" normalises to "writer.fullName", which
   * denormalises to "author.fullName".
   */
  lemma RenamedAssociationBreaksReverseRoundTrip()
    ensures var n := Normalizer(
        None,
        Some(map["Book" := [AttributeMetadata("author", Some("writer"))],
                 "Person" := [AttributeMetadata("name", Some("fullName"))]]),
        (c: string) => if c == "Book" then map["author" := "Person"] else map[]);
      && NormalizeSegments(n, ["author", "name"], Some("Book")) == ["writer", "fullName"]
      && DenormalizeSegments(n, ["writer", "fullName"], Some("Book")) == ["author", "fullName"]
  {
    var n := Normalizer(
        None,
        Some(map["Book" := [AttributeMetadata("author", Some("writer"))],
                 "Person" := [AttributeMetadata("name", Some("fullName"))]]),
        (c: string) => if c == "Book" then map["author" := "Person"] else map[]);
    var s1 := NormalizeStep(n, "author", Some("Book"));
    assert s1 == Step("writer", Some("Person"));
    var s2 := NormalizeStep(n, "name", Some("Person"));
    assert s2 == Step("fullName", None);
    assert NormalizeSegments(n, ["author", "name"], Some("Book")) == ["writer", "fullName"] by {
      assert ["author", "name"][1..] == ["name"];
    }
    var t1 := DenormalizeStep(n, "writer", Some("Book"));
    assert t1 == Step("author", None);
    var t2 := DenormalizeStep(n, "fullName", None);
    assert t2 == Step("fullName", None);
    assert DenormalizeSegments(n, ["writer", "fullName"], Some("Book")) == ["author", "fullName"] by {
      assert ["writer", "fullName"][1..] == ["fullName"];
    }
  }
}
