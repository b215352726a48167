/**
 * CommandExpression<TFilter>: the single-owner builder that accumulates a
 * command's parameter rules, turns them into an ordered parameter array at
 * call time, and fingerprints itself for the processor cache.
 *
 * The first half of the module states, as pure functions over a snapshot of
 * the builder (CommandSpec), what parameters the builder must produce; the
 * class CommandExpression at the end is the builder itself, whose methods are
 * proved against those functions.
 */
module CommandExpressions {
  import opened Wrappers
  import opened DbParameters

  /** System.Data.CommandType. */
  datatype CommandType = Text | StoredProcedure | TableDirect

  /** How C# null values are replaced by DBNull.Value. */
  datatype NullValueMode = Never | FilterOnlyMinimum | FilterOnlyFull | ExplicitParametersOnly | Full

  /** The exceptions the builder and the materializer can throw. */
  datatype CommandError =
    | ArgumentNull(paramName: string)
    | Argument(message: string, paramName: string)
    /** Dictionary.Add on a key that is already present. */
    | DuplicateKey(key: string)
    /** NullReferenceException: GetProperty found no public property of that name. */
    | PropertyNotFound(property: string)
    /** AmbiguousMatchException: GetProperty found several public properties of that name. */
    | AmbiguousMatch(property: string)
    /** NullReferenceException: a null Action<DbParameter> was invoked. */
    | NullModifier(parameter: string)

  /**
   * A public instance property of the filter's runtime type, as reflection
   * enumerates it: its name, its current value, and what
   * CommandManager.GetDbType answers for its type (None: type unknown).
   */
  datatype FilterProperty = FilterProperty(name: string, value: Value, dbType: Option<DbType>)

  /** A non-null filter object: its public properties in enumeration order. */
  type Filter = seq<FilterProperty>

  /** Char.IsWhiteSpace: the Unicode separators and the control characters U+0009-U+000D and U+0085. */
  predicate IsWhiteSpace(c: char) {
    || ('\U{0009}' <= c <= '\U{000D}') || c == '\U{0020}' || c == '\U{0085}' || c == '\U{00A0}'
    || c == '\U{1680}' || ('\U{2000}' <= c <= '\U{200A}') || c == '\U{2028}' || c == '\U{2029}'
    || c == '\U{202F}' || c == '\U{205F}' || c == '\U{3000}'
  }

  /** string.IsNullOrWhiteSpace for a non-null string. */
  predicate IsBlank(s: string) {
    forall i :: 0 <= i < |s| ==> IsWhiteSpace(s[i])
  }

  /** The snapshot of a builder's state that the materializer and the fingerprint read. */
  datatype CommandSpec = CommandSpec(
    text: string,
    kind: CommandType,
    explicitInclusion: bool,
    nullMode: NullValueMode,
    constantKeys: seq<string>,
    constants: map<string, Option<Modifier>>,
    inclusionKeys: seq<string>,
    inclusions: map<string, Option<Modifier>>,
    exclusions: seq<string>)
  {
    /** Each dictionary is its distinct keys in insertion order; the exclusion list has no duplicates. */
    ghost predicate WellFormed() {
      && Distinct(constantKeys) && (forall k :: k in constants <==> k in constantKeys)
      && Distinct(inclusionKeys) && (forall k :: k in inclusions <==> k in inclusionKeys)
      && Distinct(exclusions)
    }
  }

  // ---------------------------------------------------------------------------
  // Null substitution

  /** After a non-null modifier ran, null is replaced only under FilterOnlyFull and Full. */
  predicate SubstitutesAfterModifier(mode: NullValueMode) {
    mode == FilterOnlyFull || mode == Full
  }

  /** A filter parameter without a modifier has null replaced under FilterOnlyMinimum, FilterOnlyFull and Full. */
  predicate SubstitutesUnmodified(mode: NullValueMode) {
    mode == FilterOnlyMinimum || mode == FilterOnlyFull || mode == Full
  }

  /** Explicit parameters have null replaced under ExplicitParametersOnly and Full. */
  predicate SubstitutesExplicit(mode: NullValueMode) {
    mode == ExplicitParametersOnly || mode == Full
  }

  /** ReplaceNullWithDbNull: null becomes DBNull, and every other value is left alone. */
  function ReplaceNullWithDbNull(value: Value): (r: Value)
    ensures value == Null ==> r == DbNull
    ensures value != Null ==> r == value
  {
    if value == Null then DbNull else value
  }

  // ---------------------------------------------------------------------------
  // Filter-derived parameters

  /** What Type.GetProperty(name) does with a filter's properties. */
  datatype PropertyLookup =
    | NoProperty
    | Unique(prop: FilterProperty)
    /** AmbiguousMatchException: more than one public property has the name. */
    | Ambiguous

  /**
   * Type.GetProperty(name, Instance | Public): the property of that name when
   * there is exactly one, null when there is none, and an
   * AmbiguousMatchException when there are several.
   */
  function LookupProperty(filter: Filter, name: string): PropertyLookup {
    if filter == [] then NoProperty
    else
      var rest := LookupProperty(filter[1..], name);
      if filter[0].name != name then rest
      else if rest.NoProperty? then Unique(filter[0])
      else Ambiguous
  }

  /** The lookup finds nothing exactly when no property has the name. */
  lemma {:induction false} LookupPropertyNone(filter: Filter, name: string)
    ensures LookupProperty(filter, name).NoProperty? <==> forall i :: 0 <= i < |filter| ==> filter[i].name != name
  {
    if filter != [] {
      var t := filter[1..];
      LookupPropertyNone(t, name);
      assert forall i :: 1 <= i < |filter| ==> filter[i] == t[i - 1];
      if (forall i :: 0 <= i < |t| ==> t[i].name != name) && filter[0].name != name {
        forall i | 0 <= i < |filter| ensures filter[i].name != name {
          if i > 0 { assert filter[i] == t[i - 1]; }
        }
      }
    }
  }

  /** The lookup is ambiguous exactly when two properties have the name. */
  lemma {:induction false} LookupPropertyAmbiguous(filter: Filter, name: string)
    ensures LookupProperty(filter, name).Ambiguous? <==>
              exists i, j :: 0 <= i < j < |filter| && filter[i].name == name && filter[j].name == name
  {
    if filter != [] {
      var t := filter[1..];
      LookupPropertyAmbiguous(t, name);
      LookupPropertyNone(t, name);
      var rest := LookupProperty(t, name);
      if exists i, j :: 0 <= i < j < |filter| && filter[i].name == name && filter[j].name == name {
        var i, j :| 0 <= i < j < |filter| && filter[i].name == name && filter[j].name == name;
        assert t[j - 1] == filter[j];
        if i > 0 {
          assert t[i - 1] == filter[i];
        }
      }
      if rest.Ambiguous? && filter[0].name != name {
        var i, j :| 0 <= i < j < |t| && t[i].name == name && t[j].name == name;
        assert filter[i + 1] == t[i] && filter[j + 1] == t[j];
      }
      if !rest.NoProperty? && filter[0].name == name {
        var k :| 0 <= k < |t| && t[k].name == name;
        assert filter[k + 1] == t[k];
      }
    }
  }

  /** A unique lookup returns a property of that name, and no other property has the name. */
  lemma {:induction false} LookupPropertyFound(filter: Filter, name: string)
    requires LookupProperty(filter, name).Unique?
    ensures var p := LookupProperty(filter, name).prop;
            exists i :: && 0 <= i < |filter| && filter[i] == p && p.name == name
                        && forall j :: 0 <= j < |filter| && j != i ==> filter[j].name != name
  {
    var t := filter[1..];
    var p := LookupProperty(filter, name).prop;
    if filter[0].name != name {
      LookupPropertyFound(t, name);
      var i :| && 0 <= i < |t| && t[i] == p && p.name == name
               && forall j :: 0 <= j < |t| && j != i ==> t[j].name != name;
      assert filter[i + 1] == p;
      forall j | 0 <= j < |filter| && j != i + 1 ensures filter[j].name != name {
        if j > 0 { assert filter[j] == t[j - 1]; }
      }
    } else {
      LookupPropertyNone(t, name);
      forall j | 0 <= j < |filter| && j != 0 ensures filter[j].name != name {
        assert filter[j] == t[j - 1];
      }
    }
  }

  /**
   * A fresh parameter given the property's name, direction Input and the
   * property's value; its DbType is set only when GetDbType knows the type.
   */
  function Seeded(name: string, value: Value, dbType: Option<DbType>): ParamData {
    Blank().(name := name, direction := Input, value := value,
             dbType := if dbType.Some? then dbType else Blank().dbType)
  }

  /** Running the property's modifier, if it has one, and then the null rule that applies. */
  function ApplyModifier(p: ParamData, modifier: Option<Modifier>, mode: NullValueMode): ParamData {
    match modifier
    case Some(m) =>
      var q := m(p);
      if SubstitutesAfterModifier(mode) then q.(value := ReplaceNullWithDbNull(q.value)) else q
    case None =>
      if SubstitutesUnmodified(mode) then p.(value := ReplaceNullWithDbNull(p.value)) else p
  }

  /**
   * The parameter explicit inclusion mode builds for one inclusion key; it
   * fails when the filter has no property of that name, or several.
   */
  function ExplicitParameter(spec: CommandSpec, filter: Filter, key: string): Result<ParamData, CommandError>
    requires key in spec.inclusions
  {
    match LookupProperty(filter, key)
    case NoProperty => Failure(PropertyNotFound(key))
    case Ambiguous => Failure(AmbiguousMatch(key))
    case Unique(prop) => Success(ApplyModifier(Seeded(key, prop.value, prop.dbType), spec.inclusions[key], spec.nullMode))
  }

  /** Explicit inclusion mode over some inclusion keys, in order; fails at the first key without exactly one property. */
  function ExplicitParameters(spec: CommandSpec, filter: Filter, keys: seq<string>): Result<seq<ParamData>, CommandError>
    requires forall k :: k in keys ==> k in spec.inclusions
  {
    if keys == [] then Success([])
    else
      var init := ExplicitParameters(spec, filter, keys[..|keys| - 1]);
      var key := keys[|keys| - 1];
      if init.Failure? then init
      else
        var p := ExplicitParameter(spec, filter, key);
        if p.Failure? then Failure(p.error) else Success(init.value + [p.value])
  }

  /**
   * The parameter implicit inclusion mode builds for one property: None when
   * the property is excluded, or when it has no inclusion entry and its type
   * is unknown.
   */
  function ImplicitParameter(spec: CommandSpec, prop: FilterProperty): Option<ParamData> {
    if prop.name in spec.exclusions then None
    else if prop.name in spec.inclusions then
      Some(ApplyModifier(Seeded(prop.name, prop.value, prop.dbType), spec.inclusions[prop.name], spec.nullMode))
    else if prop.dbType.None? then None
    else Some(ApplyModifier(Seeded(prop.name, prop.value, prop.dbType), None, spec.nullMode))
  }

  /** Implicit inclusion mode over some properties, in enumeration order. */
  function ImplicitParameters(spec: CommandSpec, props: seq<FilterProperty>): seq<ParamData> {
    if props == [] then []
    else
      var init := ImplicitParameters(spec, props[..|props| - 1]);
      match ImplicitParameter(spec, props[|props| - 1])
      case None => init
      case Some(p) => init + [p]
  }

  /** BuildPropertyParameters: nothing for a null filter, otherwise by the inclusion mode. */
  function PropertyParameters(spec: CommandSpec, filter: Option<Filter>): Result<seq<ParamData>, CommandError>
    requires spec.WellFormed()
  {
    match filter
    case None => Success([])
    case Some(f) =>
      if spec.explicitInclusion then ExplicitParameters(spec, f, spec.inclusionKeys)
      else Success(ImplicitParameters(spec, f))
  }

  // ---------------------------------------------------------------------------
  // Constants, explicit parameters, the whole array

  /** A constant parameter: a fresh parameter named by its key, direction Input, then its modifier. */
  function ConstantParameter(key: string, m: Modifier): ParamData {
    m(Blank().(name := key, direction := Input))
  }

  /** The constant parameters for some keys, in order; fails at the first key whose modifier is null. */
  function ConstantParameters(spec: CommandSpec, keys: seq<string>): Result<seq<ParamData>, CommandError>
    requires forall k :: k in keys ==> k in spec.constants
  {
    if keys == [] then Success([])
    else
      var init := ConstantParameters(spec, keys[..|keys| - 1]);
      var key := keys[|keys| - 1];
      if init.Failure? then init
      else match spec.constants[key]
        case None => Failure(NullModifier(key))
        case Some(m) => Success(init.value + [ConstantParameter(key, m)])
  }

  /** What an explicit parameter looks like after BuildParameters has passed over it. */
  function ExplicitArgument(mode: NullValueMode, p: ParamData): ParamData {
    if SubstitutesExplicit(mode) then p.(value := ReplaceNullWithDbNull(p.value)) else p
  }

  function ExplicitArguments(mode: NullValueMode, ps: seq<ParamData>): (r: seq<ParamData>)
    ensures |r| == |ps| && forall k :: 0 <= k < |ps| ==> r[k] == ExplicitArgument(mode, ps[k])
  {
    seq(|ps|, k requires 0 <= k < |ps| => ExplicitArgument(mode, ps[k]))
  }

  function OrEmpty<T>(s: Option<seq<T>>): seq<T> {
    if s.Some? then s.value else []
  }

  /**
   * BuildParameters: property parameters, then constants in insertion
   * order, then the explicit parameters in call order. A null filter with no
   * constants and a null explicit array short-cuts to the empty array.
   */
  function Parameters(spec: CommandSpec, filter: Option<Filter>, explicit: Option<seq<ParamData>>): Result<seq<ParamData>, CommandError>
    requires spec.WellFormed()
  {
    if filter.None? && |spec.constantKeys| == 0 && explicit.None? then Success([])
    else
      var props := PropertyParameters(spec, filter);
      if props.Failure? then Failure(props.error)
      else
        var consts := ConstantParameters(spec, spec.constantKeys);
        if consts.Failure? then Failure(consts.error)
        else Success(props.value + consts.value + ExplicitArguments(spec.nullMode, OrEmpty(explicit)))
  }

  // ---------------------------------------------------------------------------
  // Fingerprint text

  /** Enum.ToString of the command type. */
  function CommandTypeName(kind: CommandType): string {
    match kind
    case Text => "Text"
    case StoredProcedure => "StoredProcedure"
    case TableDirect => "TableDirect"
  }

  /** Boolean.ToString. */
  function BooleanName(b: bool): string {
    if b then "True" else "False"
  }

  /** Enum.ToString of the null-value mode. */
  function NullValueModeName(mode: NullValueMode): string {
    match mode
    case Never => "Never"
    case FilterOnlyMinimum => "FilterOnlyMinimum"
    case FilterOnlyFull => "FilterOnlyFull"
    case ExplicitParametersOnly => "ExplicitParametersOnly"
    case Full => "Full"
  }

  /** The Aggregate(string.Empty, (p, c) => p + c) fold over a key sequence. */
  function Concat(keys: seq<string>): string {
    if keys == [] then "" else Concat(keys[..|keys| - 1]) + keys[|keys| - 1]
  }

  /**
   * The string ComputeHash hands to HashBuilder.Compute: command text, command
   * type, inclusion flag, null mode, then the constant keys, the inclusion keys
   * and the exclusions, each in iteration order, with no separators.
   */
  function HashText(spec: CommandSpec): string {
    spec.text + CommandTypeName(spec.kind) + BooleanName(spec.explicitInclusion) + NullValueModeName(spec.nullMode)
    + Concat(spec.constantKeys) + Concat(spec.inclusionKeys) + Concat(spec.exclusions)
  }

  // ---------------------------------------------------------------------------
  // The builder

  /**
   * The builder: the command text and type it was created with, the
   * parameter rules the fluent calls have accumulated, and the memoised
   * fingerprint.
   */
  class CommandExpression {
    const commandText: string
    const dbCommandType: CommandType
    /** HashBuilder.Compute, a foreign string hash. */
    const hashBuilder: string -> int

    /** _CacheHash: -1 until the fingerprint has been computed. */
    var cacheHash: int
    /** The text the stored fingerprint was computed from. */
    ghost var hashedText: string

    var explicitInclusionMode: bool
    var nullValueMode: NullValueMode
    var constantKeys: seq<string>
    var constants: map<string, Option<Modifier>>
    var inclusionKeys: seq<string>
    var inclusions: map<string, Option<Modifier>>
    var exclusions: seq<string>

    function Snapshot(): CommandSpec
      reads this
    {
      CommandSpec(commandText, dbCommandType, explicitInclusionMode, nullValueMode,
                  constantKeys, constants, inclusionKeys, inclusions, exclusions)
    }

    ghost predicate Valid()
      reads this
    {
      && Snapshot().WellFormed()
      && !IsBlank(commandText)
      && dbCommandType != TableDirect
      && (cacheHash != -1 ==> cacheHash == hashBuilder(hashedText))
    }

    constructor (commandText: string, commandType: CommandType, hashBuilder: string -> int)
      requires !IsBlank(commandText) && commandType != TableDirect
      ensures Valid()
      ensures this.commandText == commandText && dbCommandType == commandType && this.hashBuilder == hashBuilder
      ensures !explicitInclusionMode && nullValueMode == Never && cacheHash == -1
      ensures constantKeys == [] && constants == map[] && inclusionKeys == [] && inclusions == map[] && exclusions == []
    {
      this.commandText := commandText;
      dbCommandType := commandType;
      this.hashBuilder := hashBuilder;
      cacheHash := -1;
      explicitInclusionMode := false;
      nullValueMode := Never;
      constantKeys, constants := [], map[];
      inclusionKeys, inclusions := [], map[];
      exclusions := [];
    }

    /**
     * new CommandExpression(commandText, commandType): rejects a null text, a
     * blank text and TableDirect, in that order.
     */
    static method Create(commandText: Option<string>, commandType: CommandType, hashBuilder: string -> int)
      returns (r: Result<CommandExpression, CommandError>)
      ensures commandText.None? ==> r == Failure(ArgumentNull("commandText"))
      ensures commandText.Some? && IsBlank(commandText.value) ==>
                r == Failure(Argument("No command text provided.", "commandText"))
      ensures commandText.Some? && !IsBlank(commandText.value) && commandType == TableDirect ==>
                r == Failure(Argument("TableDirect is not supported.", "commandType"))
      ensures r.Success? <==> commandText.Some? && !IsBlank(commandText.value) && commandType != TableDirect
      ensures r.Success? ==>
                && fresh(r.value) && r.value.Valid()
                && r.value.commandText == commandText.value && r.value.dbCommandType == commandType
                && r.value.Snapshot() == CommandSpec(commandText.value, commandType, false, Never, [], map[], [], map[], [])
                && r.value.cacheHash == -1
    {
      if commandText.None? {
        return Failure(ArgumentNull("commandText"));
      }
      if IsBlank(commandText.value) {
        return Failure(Argument("No command text provided.", "commandText"));
      }
      if commandType == TableDirect {
        return Failure(Argument("TableDirect is not supported.", "commandType"));
      }
      var e := new CommandExpression(commandText.value, commandType, hashBuilder);
      return Success(e);
    }

    /** CacheHash: computes the fingerprint on first use and returns the stored one afterwards. */
    method CacheHash() returns (h: int)
      requires Valid()
      modifies this`cacheHash, this`hashedText
      ensures Valid()
      ensures old(cacheHash) == -1 ==> hashedText == HashText(Snapshot())
      ensures old(cacheHash) != -1 ==> h == old(cacheHash) && hashedText == old(hashedText)
      ensures h == cacheHash && h == hashBuilder(hashedText)
    {
      if cacheHash == -1 {
        hashedText := HashText(Snapshot());
        cacheHash := hashBuilder(HashText(Snapshot()));
      }
      h := cacheHash;
    }

    /** AddConstantParameter: Dictionary.Add, so a name already present throws. */
    method AddConstantParameter(parameterName: string, parameterModifier: Option<Modifier>)
      returns (r: Result<CommandExpression, CommandError>)
      requires Valid()
      modifies this`constantKeys, this`constants
      ensures Valid()
      ensures parameterName in old(constants) ==>
                r == Failure(DuplicateKey(parameterName)) && constants == old(constants) && constantKeys == old(constantKeys)
      ensures parameterName !in old(constants) ==>
                r == Success(this) && constants == old(constants)[parameterName := parameterModifier]
                && constantKeys == old(constantKeys) + [parameterName]
    {
      if parameterName in constants {
        return Failure(DuplicateKey(parameterName));
      }
      constants := constants[parameterName := parameterModifier];
      constantKeys := constantKeys + [parameterName];
      return Success(this);
    }

    method SendNullValues(mode: NullValueMode := FilterOnlyMinimum) returns (self: CommandExpression)
      requires Valid()
      modifies this`nullValueMode
      ensures Valid() && self == this && nullValueMode == mode
    {
      nullValueMode := mode;
      return this;
    }

    method UseExplicitPropertyInclusionMode() returns (self: CommandExpression)
      requires Valid()
      modifies this`explicitInclusionMode
      ensures Valid() && self == this && explicitInclusionMode
    {
      explicitInclusionMode := true;
      return this;
    }

    /** ExcludeProperty: appends the name unless it is already excluded. */
    method ExcludeProperty(propertyName: string) returns (self: CommandExpression)
      requires Valid()
      modifies this`exclusions
      ensures Valid() && self == this
      ensures propertyName in old(exclusions) ==> exclusions == old(exclusions)
      ensures propertyName !in old(exclusions) ==> exclusions == old(exclusions) + [propertyName]
    {
      if propertyName !in exclusions {
        exclusions := exclusions + [propertyName];
      }
      return this;
    }

    /** IncludeProperty: an upsert; a new name goes to the end of the iteration order. */
    method IncludeProperty(propertyName: string, parameterOptions: Option<Modifier> := None) returns (self: CommandExpression)
      requires Valid()
      modifies this`inclusionKeys, this`inclusions
      ensures Valid() && self == this
      ensures inclusions == old(inclusions)[propertyName := parameterOptions]
      ensures propertyName in old(inclusions) ==> inclusionKeys == old(inclusionKeys)
      ensures propertyName !in old(inclusions) ==> inclusionKeys == old(inclusionKeys) + [propertyName]
    {
      if propertyName in inclusions {
        inclusions := inclusions[propertyName := parameterOptions];
      } else {
        inclusions := inclusions[propertyName := parameterOptions];
        inclusionKeys := inclusionKeys + [propertyName];
      }
      return this;
    }

    /** A fresh parameter object filled in from a filter property, as both inclusion modes do it. */
    static method NewPropertyParameter(mode: NullValueMode, name: string, prop: FilterProperty, modifier: Option<Modifier>)
      returns (param: DbParameter)
      ensures fresh(param)
      ensures param.Data() == ApplyModifier(Seeded(name, prop.value, prop.dbType), modifier, mode)
    {
      param := new DbParameter();
      param.name := name;
      param.direction := Input;
      param.value := prop.value;
      if prop.dbType.Some? {
        param.dbType := prop.dbType;
      }
      if modifier.Some? {
        param.Modify(modifier.value);
        if SubstitutesAfterModifier(mode) {
          param.value := ReplaceNullWithDbNull(param.value);
        }
      } else if SubstitutesUnmodified(mode) {
        param.value := ReplaceNullWithDbNull(param.value);
      }
    }

    /**
     * BuildPropertyParameters: the filter-derived parameters, each a fresh
     * object, built by the explicit or the implicit inclusion rules. It reads
     * the builder's state through `spec`.
     */
    static method BuildPropertyParameters(spec: CommandSpec, filter: Option<Filter>) returns (r: Result<seq<DbParameter>, CommandError>)
      requires spec.WellFormed()
      ensures r.Success? <==> PropertyParameters(spec, filter).Success?
      ensures r.Failure? ==> r.error == PropertyParameters(spec, filter).error
      ensures r.Success? ==> Datas(r.value) == PropertyParameters(spec, filter).value
      ensures r.Success? ==> forall k :: 0 <= k < |r.value| ==> fresh(r.value[k])
    {
      if filter.None? {
        return Success([]);
      }
      if spec.explicitInclusion {
        r := ExplicitModeParameters(spec, filter.value);
      } else {
        var parameters := ImplicitModeParameters(spec, filter.value);
        r := Success(parameters);
      }
    }

    /** Explicit inclusion mode: one parameter per inclusion key, in order; a key naming no property, or several, throws. */
    static method ExplicitModeParameters(spec: CommandSpec, f: Filter) returns (r: Result<seq<DbParameter>, CommandError>)
      requires spec.WellFormed()
      ensures r.Success? <==> ExplicitParameters(spec, f, spec.inclusionKeys).Success?
      ensures r.Failure? ==> r.error == ExplicitParameters(spec, f, spec.inclusionKeys).error
      ensures r.Success? ==> Datas(r.value) == ExplicitParameters(spec, f, spec.inclusionKeys).value
      ensures r.Success? ==> forall k :: 0 <= k < |r.value| ==> fresh(r.value[k])
    {
      var keys := spec.inclusionKeys;
      var parameters: seq<DbParameter> := [];
      var i := 0;
      while i < |keys|
        invariant 0 <= i <= |keys|
        invariant ExplicitParameters(spec, f, keys[..i]).Success?
        invariant Datas(parameters) == ExplicitParameters(spec, f, keys[..i]).value
        invariant forall k :: 0 <= k < |parameters| ==> fresh(parameters[k])
      {
        var key := keys[i];
        assert keys[..i + 1][..i] == keys[..i];
        var propInfo := LookupProperty(f, key);
        if propInfo.Ambiguous? {
          ExplicitFailurePersists(spec, f, keys, i + 1);
          return Failure(AmbiguousMatch(key));
        }
        if propInfo.NoProperty? {
          ExplicitFailurePersists(spec, f, keys, i + 1);
          return Failure(PropertyNotFound(key));
        }
        var param := NewPropertyParameter(spec.nullMode, key, propInfo.prop, spec.inclusions[key]);
        parameters := parameters + [param];
        i := i + 1;
      }
      assert keys[..i] == keys;
      return Success(parameters);
    }

    /**
     * Implicit inclusion mode: every public property in enumeration order,
     * skipping excluded ones and, among those with no inclusion entry, the
     * ones whose type has no DbType.
     */
    static method ImplicitModeParameters(spec: CommandSpec, f: Filter) returns (parameters: seq<DbParameter>)
      ensures Datas(parameters) == ImplicitParameters(spec, f)
      ensures forall k :: 0 <= k < |parameters| ==> fresh(parameters[k])
    {
      parameters := [];
      var i := 0;
      while i < |f|
        invariant 0 <= i <= |f|
        invariant Datas(parameters) == ImplicitParameters(spec, f[..i])
        invariant forall k :: 0 <= k < |parameters| ==> fresh(parameters[k])
      {
        var propInfo := f[i];
        assert f[..i + 1][..i] == f[..i];
        if propInfo.name !in spec.exclusions {
          if propInfo.name in spec.inclusions {
            var param := NewPropertyParameter(spec.nullMode, propInfo.name, propInfo, spec.inclusions[propInfo.name]);
            parameters := parameters + [param];
          } else if propInfo.dbType.Some? {
            var param := NewPropertyParameter(spec.nullMode, propInfo.name, propInfo, None);
            parameters := parameters + [param];
          }
        }
        i := i + 1;
      }
      assert f[..i] == f;
    }

    /**
     * BuildParameters: fills a new array with the property parameters, then
     * fresh constant parameters, then the caller's explicit parameter objects
     * themselves, whose values are overwritten in place under
     * ExplicitParametersOnly and Full. A null filter with no constants and no
     * explicit array short-cuts to an empty array. The build reads the
     * builder's state and changes none of it, so it takes the builder's
     * snapshot (`e.Snapshot()`) as `spec`; `exData` is the state of the
     * explicit parameters on entry.
     */
    static method BuildParameters(spec: CommandSpec, filter: Option<Filter>, explicitParameters: Option<seq<DbParameter>>,
                                  ghost exData: Option<seq<ParamData>>)
      returns (r: Result<array<DbParameter?>, CommandError>)
      requires spec.WellFormed()
      requires explicitParameters.Some? <==> exData.Some?
      requires Datas(OrEmpty(explicitParameters)) == OrEmpty(exData)
      modifies OrEmpty(explicitParameters)
      ensures var ex := OrEmpty(explicitParameters);
              var expected := Parameters(spec, filter, exData);
              && (r.Success? <==> expected.Success?)
              && (r.Failure? ==>
                    && r.error == expected.error
                    && forall j :: 0 <= j < |ex| ==> ex[j].Data() == old(ex[j].Data()))
              && (r.Success? ==>
                    var pv := PropertyParameters(spec, filter).value;
                    var cv := ConstantParameters(spec, spec.constantKeys).value;
                    var ev := ExplicitArguments(spec.nullMode, OrEmpty(exData));
                    && expected.value == pv + cv + ev
                    && fresh(r.value) && r.value.Length == |pv| + |cv| + |ev|
                    && (forall k :: 0 <= k < |pv| ==>
                          r.value[k] != null && fresh(r.value[k]) && r.value[k].Data() == pv[k])
                    && (forall k :: |pv| <= k < |pv| + |cv| ==>
                          r.value[k] != null && fresh(r.value[k]) && r.value[k].Data() == cv[k - |pv|])
                    && (forall k :: |pv| + |cv| <= k < r.value.Length ==>
                          r.value[k] == ex[k - (|pv| + |cv|)] && r.value[k].Data() == ev[k - (|pv| + |cv|)]))
    {
      var ex := OrEmpty(explicitParameters);
      if filter.None? && |spec.constantKeys| == 0 && explicitParameters.None? {
        var empty := new DbParameter?[0];
        return Success(empty);
      }
      r := BuildFromFilter(spec, filter, ex, OrEmpty(exData));
    }

    /**
     * BuildParameters past the short-cut: the property parameters (none for
     * a null filter), then the constants and the explicit parameters.
     */
    static method BuildFromFilter(spec: CommandSpec, filter: Option<Filter>, ex: seq<DbParameter>, ghost before: seq<ParamData>)
      returns (r: Result<array<DbParameter?>, CommandError>)
      requires spec.WellFormed()
      requires Datas(ex) == before
      modifies ex
      ensures var pr := PropertyParameters(spec, filter);
              var c := ConstantParameters(spec, spec.constantKeys);
              && (r.Success? <==> pr.Success? && c.Success?)
              && (r.Failure? ==>
                    && r.error == (if pr.Failure? then pr.error else c.error)
                    && forall j :: 0 <= j < |ex| ==> ex[j].Data() == old(ex[j].Data()))
              && (r.Success? ==>
                    var pv := pr.value;
                    var cv := c.value;
                    var ev := ExplicitArguments(spec.nullMode, before);
                    && fresh(r.value) && r.value.Length == |pv| + |cv| + |ev|
                    && (forall k :: 0 <= k < |pv| ==>
                          r.value[k] != null && fresh(r.value[k]) && r.value[k].Data() == pv[k])
                    && (forall k :: |pv| <= k < |pv| + |cv| ==>
                          r.value[k] != null && fresh(r.value[k]) && r.value[k].Data() == cv[k - |pv|])
                    && (forall k :: |pv| + |cv| <= k < r.value.Length ==>
                          r.value[k] == ex[k - (|pv| + |cv|)] && r.value[k].Data() == ev[k - (|pv| + |cv|)]))
    {
      var props: seq<DbParameter> := [];
      if filter.Some? {
        var built := BuildPropertyParameters(spec, filter);
        if built.Failure? {
          return Failure(built.error);
        }
        props := built.value;
      }
      r := Assemble(spec, props, ex, Datas(props), before);
    }

    /**
     * The array-filling part of BuildParameters: the property parameters
     * as they are, then one fresh parameter per constant, then the caller's
     * explicit parameters. It reads the builder's state through `spec`,
     * which the build does not change.
     */
    static method Assemble(spec: CommandSpec, props: seq<DbParameter>, ex: seq<DbParameter>,
                           ghost pv: seq<ParamData>, ghost before: seq<ParamData>)
      returns (r: Result<array<DbParameter?>, CommandError>)
      requires spec.WellFormed()
      requires Datas(props) == pv && Datas(ex) == before
      requires forall k, s :: 0 <= k < |props| && 0 <= s < |ex| ==> props[k] != ex[s]
      modifies ex
      ensures var c := ConstantParameters(spec, spec.constantKeys);
              && (r.Success? <==> c.Success?)
              && (r.Failure? ==>
                    && r.error == c.error
                    && forall j :: 0 <= j < |ex| ==> ex[j].Data() == old(ex[j].Data()))
              && (r.Success? ==>
                    var cv := c.value;
                    var ev := ExplicitArguments(spec.nullMode, before);
                    && |cv| == |spec.constantKeys|
                    && fresh(r.value) && r.value.Length == |pv| + |cv| + |ev|
                    && (forall k :: 0 <= k < |pv| ==>
                          r.value[k] == props[k] && r.value[k].Data() == pv[k])
                    && (forall k :: |pv| <= k < |pv| + |cv| ==>
                          r.value[k] != null && fresh(r.value[k]) && r.value[k].Data() == cv[k - |pv|])
                    && (forall k :: |pv| + |cv| <= k < r.value.Length ==>
                          r.value[k] == ex[k - (|pv| + |cv|)] && r.value[k].Data() == ev[k - (|pv| + |cv|)]))
    {
      var front := PropertiesAndConstants(spec, props, |ex|, pv);
      if front.Failure? {
        return Failure(front.error);
      }
      var parameters := front.value;
      AddExplicitParameters(spec.nullMode, parameters, |props| + |spec.constantKeys|, ex, before);
      return Success(parameters);
    }

    /** The first two segments of the array, with `extra` slots left for the explicit parameters. */
    static method PropertiesAndConstants(spec: CommandSpec, props: seq<DbParameter>, extra: nat, ghost pv: seq<ParamData>)
      returns (r: Result<array<DbParameter?>, CommandError>)
      requires spec.WellFormed()
      requires Datas(props) == pv
      ensures var c := ConstantParameters(spec, spec.constantKeys);
              && (r.Success? <==> c.Success?)
              && (r.Failure? ==> r.error == c.error)
              && (r.Success? ==>
                    var cv := c.value;
                    && |cv| == |spec.constantKeys|
                    && fresh(r.value) && r.value.Length == |pv| + |cv| + extra
                    && (forall k :: 0 <= k < |pv| ==>
                          r.value[k] == props[k] && r.value[k].Data() == pv[k])
                    && (forall k :: |pv| <= k < |pv| + |cv| ==>
                          r.value[k] != null && fresh(r.value[k]) && r.value[k].Data() == cv[k - |pv|]))
    {
      ConstantKeysCovered(spec);
      var parameters := StartArray(props, |props| + |spec.constantKeys| + extra, pv);
      var failed := AddConstantParameters(spec, parameters, |props|);
      if failed.Some? {
        return Failure(failed.value);
      }
      return Success(parameters);
    }

    /** A new array of length n that starts with the property parameters. */
    static method StartArray(props: seq<DbParameter>, n: nat, ghost pv: seq<ParamData>) returns (a: array<DbParameter?>)
      requires |props| <= n && Datas(props) == pv
      ensures fresh(a) && a.Length == n
      ensures forall k :: 0 <= k < |props| ==> a[k] == props[k] && a[k].Data() == pv[k]
    {
      a := new DbParameter?[n];
      var i := 0;
      while i < |props|
        invariant 0 <= i <= |props|
        invariant forall k :: 0 <= k < i ==> a[k] == props[k]
      {
        a[i] := props[i];
        i := i + 1;
      }
    }

    /**
     * The constants loop of BuildParameters: for each constant in insertion
     * order, a fresh parameter named by its key, direction Input, with its
     * modifier run on it, written into `parameters` from `offset` on.
     */
    static method AddConstantParameters(spec: CommandSpec, parameters: array<DbParameter?>, offset: nat)
      returns (err: Option<CommandError>)
      requires spec.WellFormed()
      requires offset + |spec.constantKeys| <= parameters.Length
      modifies parameters
      ensures var c := ConstantParameters(spec, spec.constantKeys);
              && (err.None? <==> c.Success?)
              && (err.Some? ==> err.value == c.error)
              && (forall k :: 0 <= k < offset ==> parameters[k] == old(parameters[k]))
              && (forall k :: 0 <= k < offset && parameters[k] != null ==> parameters[k].Data() == old(parameters[k].Data()))
              && (forall k :: offset + |spec.constantKeys| <= k < parameters.Length ==> parameters[k] == old(parameters[k]))
              && (c.Success? ==>
                    && |c.value| == |spec.constantKeys|
                    && forall k :: offset <= k < offset + |spec.constantKeys| ==>
                         parameters[k] != null && fresh(parameters[k]) && parameters[k].Data() == c.value[k - offset])
    {
      ConstantKeysCovered(spec);
      var keys := spec.constantKeys;
      ghost var built: seq<ParamData> := [];
      var j := 0;
      while j < |keys|
        invariant 0 <= j <= |keys| && |built| == j
        invariant ConstantParameters(spec, keys[..j]) == Success(built)
        invariant forall k :: 0 <= k < offset ==> parameters[k] == old(parameters[k])
        invariant forall k :: offset + |keys| <= k < parameters.Length ==> parameters[k] == old(parameters[k])
        invariant forall k :: offset <= k < offset + j ==>
                    parameters[k] != null && fresh(parameters[k]) && parameters[k].Data() == built[k - offset]
      {
        var key := keys[j];
        var action := spec.constants[key];
        ConstantParametersStep(spec, keys, j);
        if action.None? {
          ConstantFailurePersists(spec, keys, j + 1);
          return Some(NullModifier(key));
        }
        var parameter := NewConstantParameter(key, action.value);
        built := built + [parameter.Data()];
        parameters[offset + j] := parameter;
        j := j + 1;
      }
      assert keys[..j] == keys;
      return None;
    }

    /** A fresh parameter named by the key, direction Input, with the constant's modifier run on it. */
    static method NewConstantParameter(key: string, m: Modifier) returns (parameter: DbParameter)
      ensures fresh(parameter) && parameter.Data() == ConstantParameter(key, m)
    {
      parameter := new DbParameter();
      parameter.name := key;
      parameter.direction := Input;
      parameter.Modify(m);
    }

    /**
     * The explicit-parameters loop of BuildParameters: each caller-supplied
     * parameter object goes into `parameters` after `offset`, its value
     * overwritten in place under ExplicitParametersOnly and Full.
     */
    static method AddExplicitParameters(mode: NullValueMode, parameters: array<DbParameter?>, offset: nat,
                                        ex: seq<DbParameter>, ghost before: seq<ParamData>)
      requires offset + |ex| == parameters.Length
      requires |before| == |ex| && forall s :: 0 <= s < |ex| ==> ex[s].Data() == before[s]
      requires forall k, s :: 0 <= k < offset && 0 <= s < |ex| ==> parameters[k] != ex[s]
      modifies parameters, ex
      ensures forall k :: 0 <= k < offset ==> parameters[k] == old(parameters[k])
      ensures forall k :: 0 <= k < offset && parameters[k] != null ==> parameters[k].Data() == old(parameters[k].Data())
      ensures forall k :: offset <= k < parameters.Length ==>
                parameters[k] == ex[k - offset] && parameters[k].Data() == ExplicitArguments(mode, before)[k - offset]
    {
      var t := 0;
      while t < |ex|
        invariant 0 <= t <= |ex|
        invariant forall k :: 0 <= k < offset ==> parameters[k] == old(parameters[k])
        invariant forall k :: 0 <= k < offset && parameters[k] != null ==> parameters[k].Data() == old(parameters[k].Data())
        invariant forall k :: offset <= k < offset + t ==> parameters[k] == ex[k - offset]
        invariant forall s :: 0 <= s < |ex| ==>
                    ex[s].Data() == if ex[s] in ex[..t] then ExplicitArgument(mode, before[s]) else before[s]
      {
        var item := ex[t];
        if mode == ExplicitParametersOnly || mode == Full {
          item.value := ReplaceNullWithDbNull(item.value);
        }
        parameters[offset + t] := item;
        assert ex[..t + 1] == ex[..t] + [item];
        t := t + 1;
      }
      assert ex[..t] == ex;
    }
  }

  // ---------------------------------------------------------------------------
  // Small facts the builder's proofs use

  /** Once a prefix of the inclusion keys fails, so does every longer prefix, with the same error. */
  lemma {:induction false} ExplicitFailurePersists(spec: CommandSpec, filter: Filter, keys: seq<string>, n: nat)
    requires forall k :: k in keys ==> k in spec.inclusions
    requires n <= |keys| && ExplicitParameters(spec, filter, keys[..n]).Failure?
    ensures ExplicitParameters(spec, filter, keys) == ExplicitParameters(spec, filter, keys[..n])
    decreases |keys| - n
  {
    if n < |keys| {
      assert keys[..n + 1][..n] == keys[..n];
      ExplicitFailurePersists(spec, filter, keys, n + 1);
    } else {
      assert keys[..n] == keys;
    }
  }

  /** Once a prefix of the constant keys fails, so does every longer prefix, with the same error. */
  lemma {:induction false} ConstantFailurePersists(spec: CommandSpec, keys: seq<string>, n: nat)
    requires forall k :: k in keys ==> k in spec.constants
    requires n <= |keys| && ConstantParameters(spec, keys[..n]).Failure?
    ensures ConstantParameters(spec, keys) == ConstantParameters(spec, keys[..n])
    decreases |keys| - n
  {
    if n < |keys| {
      assert keys[..n + 1][..n] == keys[..n];
      ConstantFailurePersists(spec, keys, n + 1);
    } else {
      assert keys[..n] == keys;
    }
  }

  /** One more step of the constants loop. */
  lemma ConstantParametersStep(spec: CommandSpec, keys: seq<string>, j: nat)
    requires forall k :: k in keys ==> k in spec.constants
    requires j < |keys| && ConstantParameters(spec, keys[..j]).Success?
    ensures ConstantParameters(spec, keys[..j + 1]) ==
              match spec.constants[keys[j]]
              case None => Failure(NullModifier(keys[j]))
              case Some(m) => Success(ConstantParameters(spec, keys[..j]).value
                                        + [m(Blank().(name := keys[j], direction := Input))])
  {
    assert keys[..j + 1][..j] == keys[..j];
  }

  /** A successful run of ConstantParameters yields one parameter per key. */
  lemma {:induction false} ConstantParametersLength(spec: CommandSpec, keys: seq<string>)
    requires forall k :: k in keys ==> k in spec.constants
    requires ConstantParameters(spec, keys).Success?
    ensures |ConstantParameters(spec, keys).value| == |keys|
  {
    if keys != [] {
      ConstantParametersLength(spec, keys[..|keys| - 1]);
    }
  }

  lemma ConstantKeysCovered(spec: CommandSpec)
    requires spec.WellFormed()
    ensures forall k :: k in spec.constantKeys ==> k in spec.constants
    ensures |spec.constants| == |spec.constantKeys|
  {
    DistinctKeysCount(spec.constantKeys, spec.constants.Keys);
  }

  /** A sequence of distinct keys has as many elements as the set of those keys. */
  lemma {:induction false} DistinctKeysCount(keys: seq<string>, s: set<string>)
    requires Distinct(keys) && forall k :: k in s <==> k in keys
    ensures |s| == |keys|
  {
    if keys != [] {
      var last := keys[|keys| - 1];
      var init := keys[..|keys| - 1];
      assert forall k :: k in s - {last} <==> k in init by {
        forall k ensures k in s - {last} <==> k in init {
          if k in init {
            var i :| 0 <= i < |init| && init[i] == k;
            assert keys[i] == k;
          }
          if k in keys && k != last {
            var i :| 0 <= i < |keys| && keys[i] == k;
            assert i < |keys| - 1;
            assert init[i] == k;
          }
        }
      }
      DistinctKeysCount(init, s - {last});
    }
  }
}
