/**
 Type names on both sides of the wire. Breeze identifies an entity type as
 `"<Type>:#<namespace>"`; the saver keeps only `<Type>` to find the store model,
 and answers with `$type` strings built from the configured namespace.
 */
module Naming {

  /** Namespace of the result objects the saver builds itself. */
  const BREEZE_MONGOOSE_NS: string := "breeze.mongoose"

  /** `$type` of the batch's SaveResult object. */
  const SAVE_RESULT_TYPE: string := BREEZE_MONGOOSE_NS + ".SaveResult, " + BREEZE_MONGOOSE_NS

  /** `$type` of every KeyMapping object. */
  const KEY_MAPPING_TYPE: string := BREEZE_MONGOOSE_NS + ".KeyMapping, " + BREEZE_MONGOOSE_NS

  /**
   `breezeModelName.split(':')[0]`: the text before the first `:`, or the whole
   string when there is none.
   */
  function ModelName(breezeModelName: string): (r: string)
    ensures r <= breezeModelName
    ensures ':' !in r
    ensures |r| < |breezeModelName| ==> breezeModelName[|r|] == ':'
  {
    if |breezeModelName| == 0 || breezeModelName[0] == ':' then ""
    else [breezeModelName[0]] + ModelName(breezeModelName[1..])
  }

  /** The three properties of `ModelName`'s contract determine its result. */
  lemma ModelNameUnique(s: string, p: string)
    requires p <= s
    requires ':' !in p
    requires |p| < |s| ==> s[|p|] == ':'
    ensures p == ModelName(s)
  {
  }

  /** A string with no separator names the model by itself. */
  lemma ModelNameWithoutSeparator(s: string)
    requires ':' !in s
    ensures ModelName(s) == s
  {
    ModelNameUnique(s, s);
  }

  /** Parsing a Breeze type identifier `<Type>:#<ns>` gives back `<Type>`. */
  lemma ModelNameOfBreezeName(typeName: string, ns: string)
    requires ':' !in typeName
    ensures ModelName(typeName + ":#" + ns) == typeName
  {
    var s := typeName + ":#" + ns;
    assert s[|typeName|] == ':';
    assert typeName <= s;
    ModelNameUnique(s, typeName);
  }

  /** `NAMESPACE + '.' + type`: the KeyMapping's `EntityTypeName`. */
  function EntityTypeName(namespace: string, typeName: string): (r: string)
    ensures |r| == |namespace| + 1 + |typeName|
    ensures r[..|namespace|] == namespace && r[|namespace|] == '.' && r[|namespace| + 1..] == typeName
  {
    namespace + "." + typeName
  }

  /** `_getTypeName`: `NAMESPACE + '.' + type + ', ' + NAMESPACE`, an entity's `$type`. */
  function TypeName(namespace: string, typeName: string): (r: string)
    ensures EntityTypeName(namespace, typeName) <= r
    ensures r[|EntityTypeName(namespace, typeName)|..] == ", " + namespace
  {
    EntityTypeName(namespace, typeName) + ", " + namespace
  }

  /** An entity's `$type` starts with the `EntityTypeName` of its KeyMapping. */
  lemma EntityTypeNameIsPrefix(namespace: string, typeName: string)
    ensures EntityTypeName(namespace, typeName) <= TypeName(namespace, typeName)
  {
  }

  /** Distinct model names yield distinct `$type` strings under one namespace. */
  lemma TypeNameInjective(namespace: string, a: string, b: string)
    requires TypeName(namespace, a) == TypeName(namespace, b)
    ensures a == b
  {
    var ta, tb := TypeName(namespace, a), TypeName(namespace, b);
    assert |a| == |b|;
    var lo := |namespace| + 1;
    assert ta[lo..lo + |a|] == a;
    assert tb[lo..lo + |b|] == b;
  }

  /** Distinct model names yield distinct KeyMapping `EntityTypeName`s. */
  lemma EntityTypeNameInjective(namespace: string, a: string, b: string)
    requires EntityTypeName(namespace, a) == EntityTypeName(namespace, b)
    ensures a == b
  {
    var ta := EntityTypeName(namespace, a);
    var lo := |namespace| + 1;
    assert ta[lo..] == a;
    assert EntityTypeName(namespace, b)[lo..] == b;
  }
}
