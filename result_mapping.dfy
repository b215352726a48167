/**
 * ResultMappingImplementor<TFilter, TResult>: the table that says, for each
 * property of the result type, how a result column is mapped onto it. It is
 * seeded from the declarative metadata of the result type, edited by
 * ForProperty and ClearMappings, and exported as a table of finished
 * property-mapping configurations.
 */
module ResultMapping {
  import opened Wrappers

  /** A public property of TResult, as Type.GetProperty returns it. */
  datatype PropertyInfo = PropertyInfo(name: string)

  /** A PropertyMappingConfiguration: the property it configures and the column alias it reads from. */
  datatype MappingConfig = MappingConfig(property: Option<PropertyInfo>, activeAlias: Option<string>)

  /** An Action<IPropertyMappingConfiguration>: whatever it does to a configuration is a function of it. */
  type MappingAction = MappingConfig -> MappingConfig

  /** An entry of FindAllowedProperties(typeof(TResult), Read): the property's name and its declared alias. */
  datatype DeclaredProperty = DeclaredProperty(name: string, activeAlias: string)

  /** An IPropertyMetadataExtractor, by what FindAllowedProperties answers for TResult and Read. */
  datatype MetadataExtractor = MetadataExtractor(readable: seq<DeclaredProperty>)

  datatype MappingError =
    /** Dictionary.Add on a key that is already present. */
    | DuplicateKey(key: string)
    /** NullReferenceException: a null mapping action was invoked. */
    | NullAction(key: string)
    /** AmbiguousMatchException: TResult has several public properties of that name. */
    | AmbiguousMatch(key: string)

  /** o => o.UseAlias(alias). */
  function UseAlias(alias: string): MappingAction {
    (c: MappingConfig) => c.(activeAlias := Some(alias))
  }

  /**
   * Several public properties of TResult share the name, as when a derived
   * type hides a base property with `new`.
   */
  predicate AmbiguousName(resultProperties: seq<string>, name: string) {
    exists i, j :: 0 <= i < j < |resultProperties| && resultProperties[i] == name && resultProperties[j] == name
  }

  /**
   * Type.GetProperty on TResult, whose public properties are
   * `resultProperties`: null when no property has the name, and a throw
   * when several have it.
   */
  function GetProperty(resultProperties: seq<string>, name: string): Result<Option<PropertyInfo>, MappingError> {
    if AmbiguousName(resultProperties, name) then Failure(AmbiguousMatch(name))
    else if name in resultProperties then Success(Some(PropertyInfo(name)))
    else Success(None)
  }

  /** new PropertyMappingConfiguration(propertyInfo): no alias chosen yet. */
  function FreshConfig(property: Option<PropertyInfo>): MappingConfig {
    MappingConfig(property, None)
  }

  /** The mapping-action dictionary: its keys in insertion order and the action of each (None: null). */
  datatype Mapping = Mapping(keys: seq<string>, actions: map<string, Option<MappingAction>>) {
    ghost predicate Valid() {
      Distinct(keys) && forall k :: k in actions <==> k in keys
    }
  }

  /** The names of some declared properties, in order. */
  function Names(items: seq<DeclaredProperty>): (r: seq<string>)
    ensures |r| == |items| && forall i :: 0 <= i < |items| ==> r[i] == items[i].name
  {
    seq(|items|, i requires 0 <= i < |items| => items[i].name)
  }

  /** The state a sequence of Dictionary.Add calls reaches, and the error it stopped at, if any. */
  datatype Seeding = Seeding(mapping: Mapping, error: Option<MappingError>)

  /**
   * MapDeclarativeProperties over some declared properties: each is added
   * with the action that applies its alias; the first name already present
   * throws, leaving the earlier additions in place.
   */
  function AddDeclared(m: Mapping, items: seq<DeclaredProperty>): Seeding {
    if items == [] then Seeding(m, None)
    else
      var init := AddDeclared(m, items[..|items| - 1]);
      var item := items[|items| - 1];
      if init.error.Some? then init
      else if item.name in init.mapping.actions then Seeding(init.mapping, Some(DuplicateKey(item.name)))
      else Seeding(Mapping(init.mapping.keys + [item.name],
                           init.mapping.actions[item.name := Some(UseAlias(item.activeAlias))]), None)
  }

  /** The dictionary Export returns: its keys in insertion order and the configuration of each. */
  datatype ExportTable = ExportTable(keys: seq<string>, configs: map<string, MappingConfig>)

  /**
   * Export over some keys of the mapping, in order: a fresh configuration
   * for the key's property, handed to the key's action; an ambiguous
   * property name throws before the action runs, and a null action throws.
   */
  function Exported(resultProperties: seq<string>, keys: seq<string>, actions: map<string, Option<MappingAction>>)
    : Result<ExportTable, MappingError>
    requires forall k :: k in keys ==> k in actions
  {
    if keys == [] then Success(ExportTable([], map[]))
    else
      var init := Exported(resultProperties, keys[..|keys| - 1], actions);
      var key := keys[|keys| - 1];
      if init.Failure? then init
      else
        var property := GetProperty(resultProperties, key);
        if property.Failure? then Failure(property.error)
        else match actions[key]
          case None => Failure(NullAction(key))
          case Some(a) =>
            Success(ExportTable(init.value.keys + [key],
                                init.value.configs[key := a(FreshConfig(property.value))]))
  }

  class ResultMappingImplementor {
    /** The public property names of TResult. */
    const resultProperties: seq<string>

    var mappingKeys: seq<string>
    var mappingActions: map<string, Option<MappingAction>>
    var extractor: MetadataExtractor

    function Current(): Mapping
      reads this
    {
      Mapping(mappingKeys, mappingActions)
    }

    ghost predicate Valid()
      reads this
    {
      Current().Valid()
    }

    /** The object before its constructor body has seeded it. */
    constructor Empty(resultProperties: seq<string>, extractor: MetadataExtractor)
      ensures Valid() && Current() == Mapping([], map[])
      ensures this.resultProperties == resultProperties && this.extractor == extractor
    {
      this.resultProperties := resultProperties;
      this.extractor := extractor;
      mappingKeys, mappingActions := [], map[];
    }

    /**
     * new ResultMappingImplementor(): seeds the mapping from the default
     * metadata extractor, which throws when a declared name occurs twice.
     */
    static method Create(resultProperties: seq<string>, defaultExtractor: MetadataExtractor)
      returns (r: Result<ResultMappingImplementor, MappingError>)
      ensures var s := AddDeclared(Mapping([], map[]), defaultExtractor.readable);
              && (r.Success? <==> s.error.None?)
              && (r.Failure? ==> r.error == s.error.value)
              && (r.Success? ==>
                    && fresh(r.value) && r.value.Valid()
                    && r.value.Current() == s.mapping
                    && r.value.resultProperties == resultProperties && r.value.extractor == defaultExtractor)
    {
      var e := new ResultMappingImplementor.Empty(resultProperties, defaultExtractor);
      var err := e.MapDeclarativeProperties();
      if err.Some? {
        return Failure(err.value);
      }
      return Success(e);
    }

    /** The PropertyMetadataExtractor setter: a null value is ignored. */
    method SetPropertyMetadataExtractor(value: Option<MetadataExtractor>)
      requires Valid()
      modifies this`extractor
      ensures Valid()
      ensures extractor == if value.Some? then value.value else old(extractor)
    {
      if value.Some? {
        extractor := value.value;
      }
    }

    method ClearMappings()
      requires Valid()
      modifies this`mappingKeys, this`mappingActions
      ensures Valid() && Current() == Mapping([], map[])
    {
      mappingKeys, mappingActions := [], map[];
    }

    /** ForProperty: an upsert; a new name goes to the end of the iteration order. */
    method ForProperty(propertyName: string, options: Option<MappingAction>)
      requires Valid()
      modifies this`mappingKeys, this`mappingActions
      ensures Valid()
      ensures mappingActions == old(mappingActions)[propertyName := options]
      ensures propertyName in old(mappingActions) ==> mappingKeys == old(mappingKeys)
      ensures propertyName !in old(mappingActions) ==> mappingKeys == old(mappingKeys) + [propertyName]
    {
      if propertyName !in mappingActions {
        mappingActions := mappingActions[propertyName := options];
        mappingKeys := mappingKeys + [propertyName];
      } else {
        mappingActions := mappingActions[propertyName := options];
      }
    }

    /**
     * Export: a new table with one configuration per mapping entry, in
     * iteration order; an ambiguous property name or a null action throws.
     */
    method Export() returns (r: Result<ExportTable, MappingError>)
      requires Valid()
      ensures r == Exported(resultProperties, mappingKeys, mappingActions)
    {
      var keys := mappingKeys;
      var table := ExportTable([], map[]);
      var i := 0;
      while i < |keys|
        invariant 0 <= i <= |keys|
        invariant Exported(resultProperties, keys[..i], mappingActions) == Success(table)
      {
        var key := keys[i];
        assert keys[..i + 1][..i] == keys[..i];
        var property := GetProperty(resultProperties, key);
        if property.Failure? {
          ExportFailurePersists(resultProperties, keys, mappingActions, i + 1);
          return Failure(property.error);
        }
        var action := mappingActions[key];
        if action.None? {
          ExportFailurePersists(resultProperties, keys, mappingActions, i + 1);
          return Failure(NullAction(key));
        }
        var config := FreshConfig(property.value);
        config := action.value(config);
        table := ExportTable(table.keys + [key], table.configs[key := config]);
        i := i + 1;
      }
      assert keys[..i] == keys;
      return Success(table);
    }

    /**
     * MapDeclarativeProperties: adds every readable declared property with
     * the action that applies its alias; a name already present throws,
     * leaving the earlier additions in place.
     */
    method MapDeclarativeProperties() returns (err: Option<MappingError>)
      requires Valid()
      modifies this`mappingKeys, this`mappingActions
      ensures Valid()
      ensures Seeding(Current(), err) == AddDeclared(old(Current()), extractor.readable)
    {
      ghost var start := Current();
      var items := extractor.readable;
      var j := 0;
      while j < |items|
        invariant 0 <= j <= |items|
        invariant AddDeclared(start, items[..j]) == Seeding(Current(), None)
        invariant Valid()
      {
        var item := items[j];
        assert items[..j + 1][..j] == items[..j];
        if item.name in mappingActions {
          SeedingFailurePersists(start, items, j + 1);
          return Some(DuplicateKey(item.name));
        }
        mappingActions := mappingActions[item.name := Some(UseAlias(item.activeAlias))];
        mappingKeys := mappingKeys + [item.name];
        j := j + 1;
      }
      assert items[..j] == items;
      return None;
    }
  }

  // ---------------------------------------------------------------------------
  // Small facts the loops use

  /** Once a prefix of the keys fails to export, the whole export fails the same way. */
  lemma {:induction false} ExportFailurePersists(resultProperties: seq<string>, keys: seq<string>,
                                                 actions: map<string, Option<MappingAction>>, n: nat)
    requires forall k :: k in keys ==> k in actions
    requires n <= |keys| && Exported(resultProperties, keys[..n], actions).Failure?
    ensures Exported(resultProperties, keys, actions) == Exported(resultProperties, keys[..n], actions)
    decreases |keys| - n
  {
    if n < |keys| {
      assert keys[..n + 1][..n] == keys[..n];
      ExportFailurePersists(resultProperties, keys, actions, n + 1);
    } else {
      assert keys[..n] == keys;
    }
  }

  /** Once a prefix of the declared properties stops at an error, so does the whole seeding. */
  lemma {:induction false} SeedingFailurePersists(m: Mapping, items: seq<DeclaredProperty>, n: nat)
    requires n <= |items| && AddDeclared(m, items[..n]).error.Some?
    ensures AddDeclared(m, items) == AddDeclared(m, items[..n])
    decreases |items| - n
  {
    if n < |items| {
      assert items[..n + 1][..n] == items[..n];
      SeedingFailurePersists(m, items, n + 1);
    } else {
      assert items[..n] == items;
    }
  }

  // ---------------------------------------------------------------------------
  // What the mapping table promises

  /** The declared names are distinct and none of them is in the mapping yet. */
  ghost predicate AllNew(m: Mapping, items: seq<DeclaredProperty>) {
    Distinct(Names(items)) && forall i :: 0 <= i < |items| ==> items[i].name !in m.actions
  }

  /** A prefix of declared properties that are all new stays all new. */
  lemma AllNewPrefix(m: Mapping, items: seq<DeclaredProperty>, n: nat)
    requires n <= |items| && AllNew(m, items)
    ensures AllNew(m, items[..n])
  {
    assert forall i :: 0 <= i < n ==> Names(items[..n])[i] == Names(items)[i];
  }

  /**
   * When the earlier names are all new, the last one is new too exactly
   * when the seeding of the earlier ones has not added it.
   */
  lemma LastIsNew(m: Mapping, items: seq<DeclaredProperty>)
    requires m.Valid() && items != [] && AllNew(m, items[..|items| - 1])
    ensures var init := items[..|items| - 1];
            AllNew(m, items) <==> items[|items| - 1].name !in AddDeclared(m, init).mapping.actions
    decreases |items|, 0
  {
    var n := |items| - 1;
    var init := items[..n];
    var name := items[n].name;
    AddDeclaredAllNew(m, init);
    assert Names(items) == Names(init) + [name];
    DistinctSnoc(Names(init), name);
  }

  /**
   * Seeding with new names adds one entry per declared property, in order,
   * and keeps every entry already present.
   */
  lemma {:induction false} AddDeclaredAllNew(m: Mapping, items: seq<DeclaredProperty>)
    requires m.Valid() && AllNew(m, items)
    ensures var r := AddDeclared(m, items);
            && r.error.None? && r.mapping.Valid()
            && r.mapping.keys == m.keys + Names(items)
            && (forall k :: k in m.actions ==> r.mapping.actions[k] == m.actions[k])
    decreases |items|, 1
  {
    if items != [] {
      var n := |items| - 1;
      var init := items[..n];
      var item := items[n];
      AllNewPrefix(m, items, n);
      AddDeclaredAllNew(m, init);
      LastIsNew(m, items);
      var r0 := AddDeclared(m, init);
      assert Names(items) == Names(init) + [item.name];
      DistinctSnoc(r0.mapping.keys, item.name);
    }
  }

  /** After seeding with new names, each declared name maps to the action that applies its alias. */
  lemma {:induction false} AddDeclaredAction(m: Mapping, items: seq<DeclaredProperty>, i: nat)
    requires m.Valid() && AllNew(m, items) && i < |items|
    ensures var r := AddDeclared(m, items);
            items[i].name in r.mapping.actions && r.mapping.actions[items[i].name] == Some(UseAlias(items[i].activeAlias))
  {
    var n := |items| - 1;
    var init := items[..n];
    AllNewPrefix(m, items, n);
    AddDeclaredAllNew(m, init);
    LastIsNew(m, items);
    if i < n {
      AddDeclaredAction(m, init, i);
      assert items[i] == init[i];
    }
  }

  /** Seeding succeeds exactly when the declared names are distinct and none is present yet. */
  lemma {:induction false} AddDeclaredSucceeds(m: Mapping, items: seq<DeclaredProperty>)
    requires m.Valid()
    ensures AddDeclared(m, items).error.None? <==> AllNew(m, items)
  {
    if AllNew(m, items) {
      AddDeclaredAllNew(m, items);
    } else if items != [] {
      var init := items[..|items| - 1];
      AddDeclaredSucceeds(m, init);
      if AllNew(m, init) {
        LastIsNew(m, items);
      }
    }
  }

  /**
   * A seeding that fails stops at the first repeated or already present
   * name, with the entries before it added.
   */
  lemma {:induction false} AddDeclaredStops(m: Mapping, items: seq<DeclaredProperty>)
    requires m.Valid()
    requires AddDeclared(m, items).error.Some?
    ensures exists i :: && 0 <= i < |items| && AddDeclared(m, items).error == Some(DuplicateKey(items[i].name))
                        && AllNew(m, items[..i]) && AddDeclared(m, items).mapping == AddDeclared(m, items[..i]).mapping
  {
    var n := |items| - 1;
    var init := items[..n];
    var r0 := AddDeclared(m, init);
    if r0.error.Some? {
      AddDeclaredStops(m, init);
      var i :| && 0 <= i < n && r0.error == Some(DuplicateKey(init[i].name))
               && AllNew(m, init[..i]) && r0.mapping == AddDeclared(m, init[..i]).mapping;
      assert init[..i] == items[..i];
    } else {
      AddDeclaredSucceeds(m, init);
    }
  }

  /** Seeding a second time from the same metadata fails at the first declared name. */
  lemma ReseedingFails(items: seq<DeclaredProperty>)
    requires items != []
    requires AddDeclared(Mapping([], map[]), items).error.None?
    ensures AddDeclared(AddDeclared(Mapping([], map[]), items).mapping, items).error == Some(DuplicateKey(items[0].name))
  {
    var seeded := AddDeclared(Mapping([], map[]), items).mapping;
    AddDeclaredSucceeds(Mapping([], map[]), items);
    AddDeclaredAllNew(Mapping([], map[]), items);
    assert items[..1][..0] == [];
    assert AddDeclared(seeded, items[..1]).error == Some(DuplicateKey(items[0].name));
    SeedingFailurePersists(seeded, items, 1);
  }

  /** A key exports when TResult has at most one property of its name and its action is not null. */
  predicate Exports(resultProperties: seq<string>, actions: map<string, Option<MappingAction>>, key: string)
    requires key in actions
  {
    !AmbiguousName(resultProperties, key) && actions[key].Some?
  }

  /** Why a key does not export: the ambiguous name is found first, then the null action. */
  function ExportError(resultProperties: seq<string>, key: string): MappingError {
    if AmbiguousName(resultProperties, key) then AmbiguousMatch(key) else NullAction(key)
  }

  /**
   * Export succeeds exactly when every key names at most one property and
   * has a non-null action, and otherwise fails at the first key that does not.
   */
  lemma {:induction false} ExportedFails(resultProperties: seq<string>, keys: seq<string>,
                                         actions: map<string, Option<MappingAction>>)
    requires forall k :: k in keys ==> k in actions
    ensures var r := Exported(resultProperties, keys, actions);
            && (r.Success? <==> forall i :: 0 <= i < |keys| ==> Exports(resultProperties, actions, keys[i]))
            && (r.Failure? ==>
                  exists i :: && 0 <= i < |keys| && !Exports(resultProperties, actions, keys[i])
                              && r.error == ExportError(resultProperties, keys[i])
                              && forall j :: 0 <= j < i ==> Exports(resultProperties, actions, keys[j]))
  {
    if keys != [] {
      var n := |keys| - 1;
      var init := keys[..n];
      assert forall i :: 0 <= i < n ==> init[i] == keys[i];
      ExportedFails(resultProperties, init, actions);
      var r0 := Exported(resultProperties, init, actions);
      if r0.Failure? {
        var i :| && 0 <= i < |init| && !Exports(resultProperties, actions, init[i])
                 && r0.error == ExportError(resultProperties, init[i])
                 && forall j :: 0 <= j < i ==> Exports(resultProperties, actions, init[j]);
        assert keys[i] == init[i];
      } else if !Exports(resultProperties, actions, keys[n]) {
        assert forall j :: 0 <= j < n ==> Exports(resultProperties, actions, keys[j]);
      }
    }
  }

  /**
   * A successful export has the mapping's keys, in iteration order, and
   * for each the key's action applied to a fresh configuration for the
   * key's property.
   */
  lemma {:induction false} ExportedContents(resultProperties: seq<string>, keys: seq<string>,
                                            actions: map<string, Option<MappingAction>>)
    requires forall k :: k in keys ==> k in actions
    requires Exported(resultProperties, keys, actions).Success?
    ensures var t := Exported(resultProperties, keys, actions).value;
            && t.keys == keys
            && (forall k :: k in t.configs <==> k in keys)
            && forall k :: k in keys ==>
                 && Exports(resultProperties, actions, k)
                 && t.configs[k] == actions[k].value(FreshConfig(if k in resultProperties then Some(PropertyInfo(k)) else None))
  {
    if keys != [] {
      var n := |keys| - 1;
      var init := keys[..n];
      assert keys == init + [keys[n]];
      ExportedContents(resultProperties, init, actions);
    }
  }

  /** After ClearMappings, Export returns an empty table, whatever the table held before. */
  method ClearedMappingExportsNothing(m: ResultMappingImplementor) returns (r: Result<ExportTable, MappingError>)
    requires m.Valid()
    modifies m
    ensures r == Success(ExportTable([], map[]))
    ensures m.Valid() && m.Current() == Mapping([], map[]) && m.extractor == old(m.extractor)
  {
    m.ClearMappings();
    r := m.Export();
  }

  /**
   * A result type that hides a property with `new` has two public
   * properties of that name, and exporting a mapping for it throws even
   * though its action is not null.
   */
  lemma HiddenResultPropertyScenario(a: MappingAction)
    ensures Exported(["Id", "Name", "Id"], ["Name", "Id"], map["Name" := Some(a), "Id" := Some(a)]) == Failure(AmbiguousMatch("Id"))
    ensures Exported(["Id", "Name"], ["Name", "Id"], map["Name" := Some(a), "Id" := Some(a)]).Success?
  {
    var hiding, plain := ["Id", "Name", "Id"], ["Id", "Name"];
    var keys, actions := ["Name", "Id"], map["Name" := Some(a), "Id" := Some(a)];
    assert keys[..1] == ["Name"] && ["Name"][..0] == [];
    assert AmbiguousName(hiding, "Id") by {
      assert hiding[0] == "Id" && hiding[2] == "Id";
    }
    assert !AmbiguousName(hiding, "Name");
    assert !AmbiguousName(plain, "Name") && !AmbiguousName(plain, "Id");
    assert Exported(hiding, ["Name"], actions).Success?;
    assert Exported(plain, ["Name"], actions).Success?;
  }
}
