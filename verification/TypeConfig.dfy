/**
 * The editor's type configuration: the pipeline's config types folded into a
 * map from type name to that type's fields, plus the fields of the
 * environment (root config) type.
 */
module TypeConfig {
  import opened Wrappers

  /** A field of a composite config type, as the pipeline query returns it. */
  datatype RawField = RawField(name: string, typeName: string)

  /** A `__typename` other than `CompositeType`. */
  type OtherTypenameText = t: string | t != "CompositeType" witness "RegularType"

  /** A config type, told apart by its `__typename`; only composite types have fields. */
  datatype ConfigType =
    | CompositeType(name: string, fields: seq<RawField>)
    | OtherConfigType(typename: OtherTypenameText, name: string)

  /** A field as the editor's autocompletion sees it. */
  datatype FieldInfo = FieldInfo(name: string, typeName: string)

  datatype TypeConfiguration = TypeConfiguration(environment: seq<FieldInfo>, types: map<string, seq<FieldInfo>>)

  predicate IsCompositeNamed(t: ConfigType, name: string) {
    t.CompositeType? && t.name == name
  }

  /** The index of the last composite type called `name`, if there is one. */
  function LastCompositeIndex(types: seq<ConfigType>, name: string): (r: Option<nat>)
    ensures r.Some? ==> r.value < |types| && IsCompositeNamed(types[r.value], name)
    ensures r.Some? ==> forall j :: r.value < j < |types| ==> !IsCompositeNamed(types[j], name)
    ensures r.None? ==> forall j :: 0 <= j < |types| ==> !IsCompositeNamed(types[j], name)
  {
    if |types| == 0 then None
    else if IsCompositeNamed(types[|types| - 1], name) then Some(|types| - 1)
    else LastCompositeIndex(types[..|types| - 1], name)
  }

  /** The editor's view of a type's fields: name and type name, in order. */
  function FieldInfos(fields: seq<RawField>): (infos: seq<FieldInfo>)
    ensures |infos| == |fields|
    ensures forall i :: 0 <= i < |fields| ==>
              infos[i].name == fields[i].name && infos[i].typeName == fields[i].typeName
  {
    if |fields| == 0 then []
    else FieldInfos(fields[..|fields| - 1]) + [FieldInfo(fields[|fields| - 1].name, fields[|fields| - 1].typeName)]
  }

  /** Folds the pipeline's config types into the editor's type configuration:
      one entry per composite type name, a later type of the same name
      replacing an earlier one. */
  method CreateTypeConfig(types: seq<ConfigType>, environmentTypeName: string) returns (r: TypeConfiguration)
    ensures forall name :: name in r.types <==> LastCompositeIndex(types, name).Some?
    ensures forall name :: name in r.types ==>
              r.types[name] == FieldInfos(types[LastCompositeIndex(types, name).value].fields)
    ensures environmentTypeName in r.types ==> r.environment == r.types[environmentTypeName]
    ensures environmentTypeName !in r.types ==> r.environment == []
  {
    var typeMap: map<string, seq<FieldInfo>> := map[];
    var k := 0;
    while k < |types|
      invariant 0 <= k <= |types|
      invariant forall name :: name in typeMap <==> LastCompositeIndex(types[..k], name).Some?
      invariant forall name :: name in typeMap ==>
                  typeMap[name] == FieldInfos(types[LastCompositeIndex(types[..k], name).value].fields)
    {
      var t := types[k];
      assert types[..k + 1][..k] == types[..k];
      if t.CompositeType? {
        typeMap := typeMap[t.name := FieldInfos(t.fields)];
      }
      k := k + 1;
    }
    assert types[..k] == types;
    var environment := if environmentTypeName in typeMap then typeMap[environmentTypeName] else [];
    r := TypeConfiguration(environment, typeMap);
  }
}
