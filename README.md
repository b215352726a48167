# Susanoo core, modelled in Dafny

Susanoo is a .NET data-access library. You describe a database command with
a fluent builder. Susanoo then works out the parameters from a filter
object, fingerprints the builder, and realizes it as a command processor.
Each processor is compiled once and reused from a process-wide cache.

This project models four parts of the library:

- **The command builder** (`CommandExpression<TFilter>`), in `command_expression.dfy`.
  - The builder is a class. Its fields are the accumulated parameter rules:
    the constants, the inclusions, the exclusions, the inclusion mode, the
    null-value mode and the memoised fingerprint.
  - Its fluent methods update those fields in place.
  - Parameters are built by three static methods:
    - `BuildPropertyParameters` builds the parameters that come from the filter.
    - `ExplicitModeParameters` builds the explicit-mode parameters.
    - `ImplicitModeParameters` builds the implicit-mode parameters.
  - `BuildParameters` fills a new array. The property parameters come first,
    then fresh constant parameters, then the caller's explicit parameter
    objects.
  - Every method is proved against a pure function of the builder's
    snapshot (`CommandSpec`). `Parameters` is the function for the whole
    array, and `HashText` is the function for the fingerprint text.
  - The properties of those functions are proved in
    `command_expression_properties.dfy`. They cover:
    - which properties become parameters, and in what order;
    - when a build fails, and at which key;
    - what each null-value mode does;
    - which builder configurations share a fingerprint text.
- **The result-mapping table** (`ResultMappingImplementor<TFilter, TResult>`), in `result_mapping.dfy`.
  - The table is a class over a dictionary, modelled as distinct keys plus a map.
  - It is seeded from declarative metadata and edited by `ForProperty` and `ClearMappings`.
  - `Export` turns it into a table of configurations.
  - Seeding and export are proved against the functions `AddDeclared` and
    `Exported`. Lemmas state when each succeeds and what it contains.
- **The cache entry** (`CacheItem`), in `cache_item.dfy`.
  - It holds the caching mode, the interval, a 32-bit read counter that
    wraps around, and a time stamp.
- **The single-result-set expression** (`CommandSingleResultExpression<TFilter, TResult>`), in `single_result_expression.dfy`.
  - Its cache hash combines hashes with BigInteger ^, modelled as a real
    two's-complement exclusive or on unbounded integers.
  - `Realize` looks a processor up in the cache or asks the factory for one.

Failures are modelled as `Result` values, not exceptions. They are:

- `ArgumentNullException` and `ArgumentException`;
- a `Dictionary.Add` on a key that is already there;
- the `NullReferenceException` the code throws in three places: a property
  name the filter lacks in explicit mode, a null constant modifier, and a
  null mapping action;
- the `AmbiguousMatchException` of `GetProperty` when a filter, or the
  result type of a mapping, has two public properties of one name (a base
  property hidden by `new`);
- the `InvalidCastException` of a cached processor of the wrong kind.

A null `Action<…>` is modelled as `None`, and a non-null one as a total
function from parameter state to parameter state.

These properties are proved about the fingerprint text:

- It does not depend on the modifiers (`HashIgnoresModifiers`).
- It depends on the order in which properties were included (`HashIsOrderSensitive`).
- The keys are joined without separators, so a builder with the constant
  `Id` and a builder that excludes `Id` share the text but build different
  parameters (`HashTextCollides`).

Details where the model follows the code literally:

- The fingerprint text lists the keys in the order the code appends them:
  the constant keys, then the inclusion keys, then the exclusions
  (`src/Susanoo/CommandExpression.cs:435-437`).
- `AddConstantParameter` uses `Dictionary.Add`, so a repeated name throws.
  It does not replace the earlier entry.
- The exclusions are a list that refuses duplicates, in insertion order. It
  is not an unordered set.

## Model

| member | source | states |
|---|---|---|
| DbParameters.Blank | src/Susanoo/CommandExpression.cs:174 | The state of a parameter fresh from `CreateParameter`: no name, direction Input, a null value and no DbType set. |
| DbParameters.DbParameter.constructor | src/Susanoo/CommandExpression.cs:174 | `CreateParameter` gives a new parameter object whose state is `Blank`. |
| DbParameters.DbParameter.Modify | src/Susanoo/CommandExpression.cs:177 | Invoking an `Action<DbParameter>` on a parameter: its new state is the action applied to its old state. |
| CommandExpressions.ReplaceNullWithDbNull | src/Susanoo/CommandExpression.cs:572-579 | Null becomes DBNull, and every other value is returned unchanged. |
| CommandExpressions.IsBlank | src/Susanoo/CommandExpression.cs:70 | string.IsNullOrWhiteSpace for a non-null text: every character is a Unicode white-space character. |
| CommandExpressions.LookupProperty | src/Susanoo/CommandExpression.cs:461-462 | Type.GetProperty by name: no property, the single property of that name, or an ambiguous match when several share it. Its meaning is stated by the three lemmas below. |
| CommandExpressions.LookupPropertyNone | src/Susanoo/CommandExpression.cs:461-462 | The lookup finds nothing exactly when no property has the name. |
| CommandExpressions.LookupPropertyAmbiguous | src/Susanoo/CommandExpression.cs:461-462 | The lookup is ambiguous exactly when two properties have the name. |
| CommandExpressions.LookupPropertyFound | src/Susanoo/CommandExpression.cs:461-462 | A successful lookup returns a property of that name, and no other property has the name. |
| CommandExpressions.CommandExpression.constructor | src/Susanoo/CommandExpression.cs:66-76 | A valid builder with the given text and type, no rules, null mode Never, implicit inclusion, and the fingerprint not yet computed (-1). |
| CommandExpressions.CommandExpression.Create | src/Susanoo/CommandExpression.cs:66-76 | A null text, a blank text and TableDirect are rejected in that order, each with the source's exception and message. Any other input gives a fresh, empty, valid builder. |
| CommandExpressions.CommandExpression.CacheHash | src/Susanoo/CommandExpression.cs:94-103 | The first call computes the hash of the current fingerprint text. A later call returns the stored value and does not recompute it. The builder's validity is kept. |
| CommandExpressions.CommandExpression.AddConstantParameter | src/Susanoo/CommandExpression.cs:120-126 | A name already present fails with a duplicate-key error and changes nothing. A new name is added after the existing constants with its modifier. |
| CommandExpressions.CommandExpression.SendNullValues | src/Susanoo/CommandExpression.cs:204-209 | Sets the null-value mode, FilterOnlyMinimum by default, and returns the same builder. |
| CommandExpressions.CommandExpression.UseExplicitPropertyInclusionMode | src/Susanoo/CommandExpression.cs:215-220 | Switches on explicit inclusion and returns the same builder. |
| CommandExpressions.CommandExpression.ExcludeProperty | src/Susanoo/CommandExpression.cs:237-245 | The name is appended to the exclusions when it is absent, the exclusions are unchanged when it is present, and the same builder is returned. |
| CommandExpressions.CommandExpression.IncludeProperty | src/Susanoo/CommandExpression.cs:277-300 | An upsert: the name's modifier is set, with none by default. A new name goes last in the iteration order, and an existing name keeps its place. |
| CommandExpressions.CommandExpression.NewPropertyParameter | src/Susanoo/CommandExpression.cs:463-494 | A fresh parameter named by the key, with direction Input, the property's value and a known DbType. The modifier and the mode's null rule are applied as `ApplyModifier` says. |
| CommandExpressions.CommandExpression.BuildPropertyParameters | src/Susanoo/CommandExpression.cs:451-564 | A null filter gives no parameters. Otherwise it gives fresh parameters whose states are exactly `PropertyParameters` under the builder's inclusion mode, or that function's error. |
| CommandExpressions.CommandExpression.ExplicitModeParameters | src/Susanoo/CommandExpression.cs:457-497 | It succeeds exactly when `ExplicitParameters` over the inclusion keys does, and the parameter states are that function's value. Otherwise it returns the error for the first key with no property or several. |
| CommandExpressions.CommandExpression.ImplicitModeParameters | src/Susanoo/CommandExpression.cs:501-558 | Fresh parameters whose states are exactly `ImplicitParameters` of the filter's properties in enumeration order. |
| CommandExpressions.CommandExpression.BuildParameters | src/Susanoo/CommandExpression.cs:135-196 | It succeeds exactly when `Parameters` does. On failure it returns the same error and leaves the explicit parameters unchanged. On success the array has three segments: fresh property parameters, fresh constant parameters, and the caller's own explicit objects with their values null-substituted in place. |
| CommandExpressions.CommandExpression.BuildFromFilter | src/Susanoo/CommandExpression.cs:141-196 | Past the short-cut, it succeeds exactly when the property parameters and the constants both do. Otherwise it reports the first failure and leaves the explicit parameters unchanged. On success it lays out the same three segments. |
| CommandExpressions.CommandExpression.Assemble | src/Susanoo/CommandExpression.cs:158-193 | The array holds the given property parameters, then the constants, then the explicit objects. It fails with the first null constant modifier and then leaves the explicit objects untouched. |
| CommandExpressions.CommandExpression.PropertiesAndConstants | src/Susanoo/CommandExpression.cs:141-180 | A new array sized for the properties, the constants and the explicit slots. It holds the property parameters, then one fresh parameter per constant, or it returns the constants' error. |
| CommandExpressions.CommandExpression.StartArray | src/Susanoo/CommandExpression.cs:158-169 | A new array of the computed length whose first slots are the property parameters, in order. |
| CommandExpressions.CommandExpression.AddConstantParameters | src/Susanoo/CommandExpression.cs:172-180 | It fails exactly where `ConstantParameters` does. Otherwise it writes one fresh parameter per constant into its slot, in insertion order, and leaves the other slots alone. |
| CommandExpressions.CommandExpression.NewConstantParameter | src/Susanoo/CommandExpression.cs:174-177 | A fresh parameter named by the key, with direction Input, after its modifier ran. |
| CommandExpressions.CommandExpression.AddExplicitParameters | src/Susanoo/CommandExpression.cs:182-193 | The tail of the array is the caller's objects themselves, in order. Each value is null-substituted under ExplicitParametersOnly and Full, and the earlier slots are untouched. |
| CommandExpressions.Seeded | src/Susanoo/CommandExpression.cs:463-477 | A fresh parameter with the property's name, direction Input and the property's value. Its DbType is set only when GetDbType knows the property's type. |
| CommandExpressions.ApplyModifier | src/Susanoo/CommandExpression.cs:479-494 | A present modifier runs first; null is then replaced by DBNull under FilterOnlyFull and Full. With no modifier, null is replaced under FilterOnlyMinimum, FilterOnlyFull and Full. Its meaning is stated by ApplyModifierNull. |
| CommandExpressions.ExplicitParameter | src/Susanoo/CommandExpression.cs:461-496 | The parameter for one inclusion key. It fails with PropertyNotFound when the filter has no property of that name, and with AmbiguousMatch when it has several. Otherwise it is the seeded parameter after ApplyModifier. |
| CommandExpressions.ExplicitParameters | src/Susanoo/CommandExpression.cs:457-497 | Explicit inclusion mode: one parameter per inclusion key, in insertion order, failing at the first key that fails. Its meaning is stated by ExplicitParametersMeaning. |
| CommandExpressions.ImplicitParameter | src/Susanoo/CommandExpression.cs:506-557 | The parameter for one filter property in implicit mode. It gives none when the name is excluded, or when the name has no inclusion entry and the type is unknown. Otherwise it is the seeded parameter after ApplyModifier with the inclusion's modifier, if any. |
| CommandExpressions.ImplicitParameters | src/Susanoo/CommandExpression.cs:499-559 | Implicit inclusion mode: the kept properties' parameters, in enumeration order. Its meaning is stated by ImplicitMembership and ImplicitCount. |
| CommandExpressions.PropertyParameters | src/Susanoo/CommandExpression.cs:451-564 | BuildPropertyParameters: none for a null filter, otherwise explicit or implicit mode as the builder is set. |
| CommandExpressions.ConstantParameter | src/Susanoo/CommandExpression.cs:174-177 | A constant's parameter: a fresh parameter named by its key, direction Input, after the constant's action ran. |
| CommandExpressions.ConstantParameters | src/Susanoo/CommandExpression.cs:172-180 | The constants, in insertion order; a null action fails at its key. Its meaning is stated by ConstantParametersMeaning. |
| CommandExpressions.ExplicitArgument | src/Susanoo/CommandExpression.cs:185-189 | An explicit parameter after the materializer passed over it: its value goes through ReplaceNullWithDbNull under ExplicitParametersOnly and Full, and it is unchanged otherwise. |
| CommandExpressions.ExplicitArguments | src/Susanoo/CommandExpression.cs:182-193 | One explicit parameter after another, in call order, each as ExplicitArgument says. Its meaning is stated by ExplicitArgumentsMeaning. |
| CommandExpressions.Parameters | src/Susanoo/CommandExpression.cs:135-196 | BuildParameters' result: the empty array for the short-cut, otherwise the property parameters, then the constants, then the explicit parameters, or the first failure. Its meaning is stated by ParametersMeaning. |
| CommandExpressions.ExplicitFailurePersists | src/Susanoo/CommandExpression.cs:459-497 | Once explicit mode fails on a prefix of the inclusion keys, the whole build fails with that error. |
| CommandExpressions.ConstantFailurePersists | src/Susanoo/CommandExpression.cs:172-180 | Once the constants loop fails on a prefix of the keys, the whole loop fails with that error. |
| CommandExpressions.ConstantParametersStep | src/Susanoo/CommandExpression.cs:172-180 | One more constant either fails on a null modifier or appends that constant's parameter. |
| CommandExpressions.ConstantParametersLength | src/Susanoo/CommandExpression.cs:148-180 | A successful constants loop yields one parameter per constant. |
| CommandExpressions.ConstantKeysCovered | src/Susanoo/CommandExpression.cs:148-153 | Every ordered constant key is in the dictionary, and the dictionary's Count equals the number of keys. |
| CommandExpressions.DistinctKeysCount | src/Susanoo/CommandExpression.cs:148 | A sequence of distinct keys has as many elements as the key set it covers. This is why the constants' `Count` is the number of constant keys. |
| CommandExpressionProperties.ConstantParametersMeaning | src/Susanoo/CommandExpression.cs:172-180 | The constants succeed exactly when no modifier is null. They then give one parameter per key, in key order, each the key's modifier run on a fresh Input parameter. Otherwise they fail at the first null modifier. |
| CommandExpressionProperties.LookupPropertyAppend | src/Susanoo/CommandExpression.cs:461-462 | The lookup over two runs of properties is the lookup of the run that has the name, and is ambiguous when both have it. |
| CommandExpressionProperties.ExplicitParametersMeaning | src/Susanoo/CommandExpression.cs:457-497 | Explicit mode succeeds exactly when every inclusion key names exactly one property. It then gives one parameter per key, in key order, from that property. Otherwise it fails at the first key with none (a null reference) or with several (an ambiguous match). |
| CommandExpressionProperties.ExplicitIgnoresUnnamed | src/Susanoo/CommandExpression.cs:457-497 | In explicit mode, filter properties that no inclusion names have no effect on the parameters. |
| CommandExpressionProperties.ImplicitAppend | src/Susanoo/CommandExpression.cs:501-558 | Implicit mode works property by property: the parameters of two runs of properties are the two outputs one after the other. |
| CommandExpressionProperties.ImplicitSkipsExcluded | src/Susanoo/CommandExpression.cs:506 | An excluded property contributes nothing: removing it leaves the parameters unchanged. |
| CommandExpressionProperties.ImplicitMembership | src/Susanoo/CommandExpression.cs:504-558 | A parameter is produced exactly when some property is kept and yields it. A property is kept when it is not excluded and it is either included or of a known DbType (lines 543-546). |
| CommandExpressionProperties.ImplicitCount | src/Susanoo/CommandExpression.cs:504-558 | Implicit mode yields at most one parameter per property. It yields exactly one per property, in order, iff every property is kept. |
| CommandExpressionProperties.ApplyModifierNull | src/Susanoo/CommandExpression.cs:479-494 | A filter parameter is left holding null iff its value was null after its modifier and the mode does not substitute after modifiers, or iff it has no modifier, its value was null and the mode does not substitute unmodified ones. Where the mode does substitute, a null becomes DBNull. |
| CommandExpressionProperties.FullModeFilterParametersNeverNull | src/Susanoo/CommandExpression.cs:483-554 | Under Full, no filter-derived parameter carries C# null, in either inclusion mode. |
| CommandExpressionProperties.ExplicitArgumentsMeaning | src/Susanoo/CommandExpression.cs:182-193 | An explicit parameter keeps all but its value. A non-null value is never changed. A null value becomes DBNull under ExplicitParametersOnly and Full and stays null under the other modes. |
| CommandExpressionProperties.ParametersMeaning | src/Susanoo/CommandExpression.cs:135-196 | A build succeeds iff the property parameters build and no constant modifier is null. On success it yields one parameter per property parameter, per constant and per explicit parameter. |
| CommandExpressionProperties.NoFilterYieldsConstants | src/Susanoo/CommandExpression.cs:138-139 | With no filter and no explicit array, the short cut and the full build agree: only the constants come out. |
| CommandExpressions.HashText | src/Susanoo/CommandExpression.cs:428-443 | The text ComputeHash hands to HashBuilder.Compute: command text, type, inclusion flag and null mode by their ToString names, then the constant, inclusion and exclusion keys, all without separators. The lemmas below state its properties. |
| CommandExpressionProperties.ConcatAppend | src/Susanoo/CommandExpression.cs:435-437 | The key fold of the fingerprint distributes over concatenation. |
| CommandExpressionProperties.ExcludeExtendsHashText | src/Susanoo/CommandExpression.cs:437 | Excluding a new property appends its name to the end of the fingerprint text. |
| CommandExpressionProperties.AddConstantExtendsHashText | src/Susanoo/CommandExpression.cs:435 | A new constant inserts its name right after the earlier constant keys in the fingerprint text. |
| CommandExpressionProperties.HashIgnoresModifiers | src/Susanoo/CommandExpression.cs:428-443 | Builders that agree on text, type, modes and the three key sequences have the same fingerprint text, whatever their modifiers. |
| CommandExpressionProperties.HashIsOrderSensitive | src/Susanoo/CommandExpression.cs:436 | Including A then B gives a different fingerprint text from including B then A. |
| CommandExpressionProperties.HashTextCollides | src/Susanoo/CommandExpression.cs:435-437 | A constant `Id` and an excluded `Id` give equal fingerprint texts but different parameter arrays. |
| CommandExpressionProperties.GetUsersScenario | src/Susanoo/CommandExpression.cs:501-558 | The filter {Id = 5, Name = null} in implicit mode gives [Id = 5, Name = DBNull] under FilterOnlyMinimum, and Name stays null under Never. |
| CommandExpressionProperties.HiddenPropertyScenario | src/Susanoo/CommandExpression.cs:457-462 | A filter with two public properties named Id fails in explicit mode with an ambiguous match on Id, while implicit mode builds a parameter from each. |
| CommandExpressionProperties.ParameterOrderScenario | src/Susanoo/CommandExpression.cs:135-196 | Properties A and B, constant C and explicit D come out as A, B, C, D. |
| CommandExpressionProperties.FingerprintIsFrozen | src/Susanoo/CommandExpression.cs:94-103 | After the first CacheHash, later calls return the same value even though the builder changed. An exclusion added after the first call makes the stored fingerprint stale. |
| ResultMapping.UseAlias | src/Susanoo/ResultMappingImplementor.cs:103 | The action `o => o.UseAlias(alias)`: it sets the configuration's active alias and leaves its property alone. |
| ResultMapping.GetProperty | src/Susanoo/ResultMappingImplementor.cs:86 | `typeof(TResult).GetProperty(key)`. It throws AmbiguousMatch when several public properties of TResult have the name, as when one is hidden with `new`. It gives null when none does, and the property otherwise. |
| ResultMapping.FreshConfig | src/Susanoo/ResultMappingImplementor.cs:86 | `new PropertyMappingConfiguration(property)`: the given property and no alias chosen yet. |
| ResultMapping.AddDeclared | src/Susanoo/ResultMappingImplementor.cs:98-105 | MapDeclarativeProperties: each declared name is added with its UseAlias action, in order. The first name already present stops it with DuplicateKey, and the earlier additions stay. Its meaning is stated by AddDeclaredSucceeds and AddDeclaredStops. |
| ResultMapping.Exported | src/Susanoo/ResultMappingImplementor.cs:80-93 | Export: per key, in iteration order, the property is resolved, then the key's action runs on a fresh configuration for it. An ambiguous name or a null action fails at its key. Its meaning is stated by ExportedFails and ExportedContents. |
| ResultMapping.ResultMappingImplementor.Create | src/Susanoo/ResultMappingImplementor.cs:24-27 | The constructor seeds the table from the default extractor. It fails with a duplicate-key error when `AddDeclared` does, and otherwise gives a fresh table equal to `AddDeclared`'s mapping. |
| ResultMapping.ResultMappingImplementor.Empty | src/Susanoo/ResultMappingImplementor.cs:16-19 | An empty, valid table with the given extractor. |
| ResultMapping.ResultMappingImplementor.SetPropertyMetadataExtractor | src/Susanoo/ResultMappingImplementor.cs:33-37 | A null extractor is ignored, and anything else replaces the current one. |
| ResultMapping.ResultMappingImplementor.ClearMappings | src/Susanoo/ResultMappingImplementor.cs:42-45 | The table becomes empty. |
| ResultMapping.ResultMappingImplementor.ForProperty | src/Susanoo/ResultMappingImplementor.cs:65-73 | An upsert of the action. A new name goes last, an existing name keeps its place, and the keys stay distinct. |
| ResultMapping.ResultMappingImplementor.Export | src/Susanoo/ResultMappingImplementor.cs:80-93 | Returns exactly `Exported` of the current table, without changing the table. An ambiguous property name fails before that key's action is invoked. |
| ResultMapping.ResultMappingImplementor.MapDeclarativeProperties | src/Susanoo/ResultMappingImplementor.cs:98-105 | The new table and the error are exactly `AddDeclared` of the old table and the extractor's readable properties. The keys stay distinct. |
| ResultMapping.ClearedMappingExportsNothing | src/Susanoo/ResultMappingImplementor.cs:42-45 | On any valid table, ClearMappings followed by Export returns an empty export table. The table stays valid and empty, and the extractor is kept. |
| ResultMapping.ExportFailurePersists | src/Susanoo/ResultMappingImplementor.cs:84-90 | An export that fails on a prefix of the keys fails with that error. |
| ResultMapping.SeedingFailurePersists | src/Susanoo/ResultMappingImplementor.cs:100-104 | A seeding that stops on a prefix of the declared properties stops the same way on all of them. |
| ResultMapping.AllNewPrefix | src/Susanoo/ResultMappingImplementor.cs:100-104 | A prefix of new, distinct declared names is still new and distinct. |
| ResultMapping.LastIsNew | src/Susanoo/ResultMappingImplementor.cs:100-104 | When the earlier names are new, the last is new iff seeding the earlier ones did not add it. |
| ResultMapping.AddDeclaredAllNew | src/Susanoo/ResultMappingImplementor.cs:100-104 | Seeding with new, distinct names succeeds. It appends the names in order and keeps every earlier entry. |
| ResultMapping.AddDeclaredAction | src/Susanoo/ResultMappingImplementor.cs:103 | After such a seeding, each declared name maps to the action that applies its declared alias. |
| ResultMapping.AddDeclaredSucceeds | src/Susanoo/ResultMappingImplementor.cs:98-105 | Seeding succeeds iff the declared names are distinct and none is already in the table. |
| ResultMapping.AddDeclaredStops | src/Susanoo/ResultMappingImplementor.cs:98-105 | A failed seeding stops with a duplicate-key error at some declared name. Every name before it is new, and exactly those were added. |
| ResultMapping.ReseedingFails | src/Susanoo/ResultMappingImplementor.cs:98-105 | Seeding again from the same metadata fails at the first declared name. |
| ResultMapping.ExportedFails | src/Susanoo/ResultMappingImplementor.cs:80-93 | Export succeeds iff every key names at most one property of TResult and has a non-null action. Otherwise it fails at the first key that does not: with AmbiguousMatch if the name is ambiguous, else with NullAction. |
| ResultMapping.ExportedContents | src/Susanoo/ResultMappingImplementor.cs:80-93 | A successful export has the table's keys, in order. Each entry is the key's action applied to a fresh configuration holding the key's property, or null when TResult has no property of that name. |
| ResultMapping.HiddenResultPropertyScenario | src/Susanoo/ResultMappingImplementor.cs:86 | A result type with two public `Id` properties makes Export fail with AmbiguousMatch("Id") although every action is non-null. The same mapping exports when `Id` is declared once. |
| Caching.Wrap32 | src/Susanoo/CacheItem.cs:22 | The result is a 32-bit integer, and a 32-bit input is unchanged. |
| Caching.Increment32Wraps | src/Susanoo/CacheItem.cs:13 | CallCount++ is x + 1 reduced to 32 bits: Int32.MaxValue wraps to Int32.MinValue. |
| Caching.Increment32 | src/Susanoo/CacheItem.cs:13 | CallCount++ on a 32-bit int: Int32.MaxValue goes to Int32.MinValue, and every other value goes up by one. Increment32Wraps relates it to Wrap32. |
| Caching.EffectiveMode | src/Susanoo/CacheItem.cs:37-38 | The mode a new entry ends up with: Permanent when the interval is not positive, the requested mode otherwise. |
| Caching.CountAfter | src/Susanoo/CacheItem.cs:13 | The counter after n reads is still a 32-bit integer. |
| Caching.CountAfterWraps | src/Susanoo/CacheItem.cs:9-16 | n reads add n to the counter, modulo 2^32. |
| Caching.WrapShift | src/Susanoo/CacheItem.cs:13 | Reducing to 32 bits before or after adding a constant gives the same result. |
| Caching.CacheItem.constructor | src/Susanoo/CacheItem.cs:26-39 | The item, mode Permanent and no interval by default, a missing interval read as 0, a call count of 0 and the time stamp `now`. A non-positive interval forces Permanent, and otherwise the requested mode is kept. |
| Caching.CacheItem.Create | src/Susanoo/CacheItem.cs:26-39 | A null item fails with ArgumentNull("item"). Anything else builds the entry the constructor describes. |
| Caching.CacheItem.Item | src/Susanoo/CacheItem.cs:9-16 | Returns the stored item and counts the read with 32-bit wrap-around. |
| Caching.CacheItem.RenewIntervals | src/Susanoo/CacheItem.cs:44-48 | The call count becomes 0 and the time stamp becomes `now`. |
| ResultSets.Xor | src/Susanoo.Core/ResultSets/CommandSingleResultExpression.cs:43-46 | BigInteger ^: the bitwise exclusive or in infinite two's complement. The lemmas below state its algebra and sample values. |
| ResultSets.HalfShrinks | src/Susanoo.Core/ResultSets/CommandSingleResultExpression.cs:43-46 | Halving moves every integer but 0 and -1 strictly towards zero, which is why the exclusive or is well defined. |
| ResultSets.XorStep | src/Susanoo.Core/ResultSets/CommandSingleResultExpression.cs:43-46 | The exclusive or of any two integers is twice that of their upper bits plus the exclusive or of their lowest bits. |
| ResultSets.XorHalves | src/Susanoo.Core/ResultSets/CommandSingleResultExpression.cs:43-46 | The upper bits and the lowest bit of an exclusive or are those of the operands combined. |
| ResultSets.XorCommutes | src/Susanoo.Core/ResultSets/CommandSingleResultExpression.cs:43-46 | BigInteger ^ is commutative. |
| ResultSets.XorZero | src/Susanoo.Core/ResultSets/CommandSingleResultExpression.cs:43-46 | x ^ 0 == x. |
| ResultSets.XorCancels | src/Susanoo.Core/ResultSets/CommandSingleResultExpression.cs:43-46 | (a ^ b) ^ b == a. |
| ResultSets.XorExamples | src/Susanoo.Core/ResultSets/CommandSingleResultExpression.cs:43-46 | 5 ^ 3 == 6, and -6 ^ 3 == -7 in two's complement. |
| ResultSets.XorInjective | src/Susanoo.Core/ResultSets/CommandSingleResultExpression.cs:43-46 | Exclusive or with a fixed value is one-to-one. |
| ResultSets.CombinedCacheHash | src/Susanoo.Core/ResultSets/CommandSingleResultExpression.cs:43-46 | The CacheHash expression: (base * 31) ^ (type-argument hash * 31) ^ assembly-name hash, grouped to the left. |
| ResultSets.CommandSingleResultExpression.CacheHash | src/Susanoo.Core/ResultSets/CommandSingleResultExpression.cs:43-46 | The expression's cache hash is `CombinedCacheHash` of its command fingerprint and its type hashes. |
| ResultSets.ProcessorKey | src/Susanoo.Core/ResultSets/CommandSingleResultExpression.cs:73-74 | The key an unnamed Realize uses: (CacheHash * 31) ^ the processor interface's type-argument hash. |
| ResultSets.CombinedCacheHashInjective | src/Susanoo.Core/ResultSets/CommandSingleResultExpression.cs:43-46 | For one expression type, two command fingerprints give the same cache hash iff they are equal. |
| ResultSets.CombinedCacheHashSymmetric | src/Susanoo.Core/ResultSets/CommandSingleResultExpression.cs:43-46 | The command fingerprint and the type hash play symmetric parts: swapping them gives the same cache hash. |
| ResultSets.ProcessorKeyInjective | src/Susanoo.Core/ResultSets/CommandSingleResultExpression.cs:73-74 | For one processor interface, two cache hashes give the same processor key iff they are equal. |
| ResultSets.Cached | src/Susanoo.Core/ResultSets/CommandSingleResultExpression.cs:71-83 | The processor TryGetCommandProcessor yields: from the name table when a name is given, from the hash table under the key otherwise. |
| ResultSets.ProcessorFactory.BuildCommandProcessor | src/Susanoo.Core/ResultSets/CommandSingleResultExpression.cs:85-87 | Returns what the factory makes for the given expression and name. It records that pair as a request. |
| ResultSets.HashLookupIgnoresNames | src/Susanoo.Core/ResultSets/CommandSingleResultExpression.cs:71-78 | Without a name, the lookup depends only on the hash table and finds something iff the key is registered. |
| ResultSets.NameLookupIgnoresHashes | src/Susanoo.Core/ResultSets/CommandSingleResultExpression.cs:79-83 | With a name, the lookup depends only on the name table, not on the hashes or the key, and finds something iff the name is registered. |
| ResultSets.CommandSingleResultExpression.ForResults | src/Susanoo.Core/ResultSets/CommandSingleResultExpression.cs:53-59 | Stores the mapping action after those already stored and returns the same expression. |
| ResultSets.CommandSingleResultExpression.Realize | src/Susanoo.Core/ResultSets/CommandSingleResultExpression.cs:66-88 | With no name, it looks the processor up under `(CacheHash * 31) ^ interface hash`, and with a name, under the name. A hit of the right interface is returned and the factory is not called. A hit of another interface fails with InvalidCast. A miss returns the processor the factory builds for this expression and the same name, and the factory records that one request. |

## Left out

- Reflection and ADO.NET are replaced by values.
  - A filter is the sequence of its public properties: name, value, and what `CommandManager.GetDbType` answers for the type.
  - A `DbParameter` is a class holding name, direction, value and DbType.
  - `IDatabaseManager.CreateParameter` is a fresh parameter: name "", direction Input, a null value and an unset DbType.
- The expression-tree overloads of `ExcludeProperty`, `IncludeProperty` and `ForProperty` only extract a property name. Only the string overloads are modelled.
- The `Realize` of `CommandExpression` (a `NoResultSetCommandProcessor`) and the `DefineResults` overloads only construct other pipeline objects, so they are not modelled.
- `CommandExpressions.CommandExpression.BuildParameters`: a static method over the builder's snapshot (`Snapshot()`), because the build reads the builder's state and changes none of it.
  - `BuildPropertyParameters`, an instance method in the source (line 451), is static over the same snapshot.
  - So are the helpers the two builds are split into: `ExplicitModeParameters`, `ImplicitModeParameters`, `NewPropertyParameter`, `BuildFromFilter`, `Assemble`, `PropertiesAndConstants`, `StartArray`, `AddConstantParameters`, `NewConstantParameter` and `AddExplicitParameters`.
  - The `BuildParameters(databaseManager, explicitParameters)` overload is the call with no filter.
  - A value-type filter, which is never null, is a filter that is present.
- `CommandExpressions.CommandExpression.BuildParameters`: a null element of the `params DbParameter[]` array is not modelled (the explicit parameters are non-null objects).
  - In the source, such an element is stored as null under Never, FilterOnlyMinimum and FilterOnlyFull.
  - Under ExplicitParametersOnly and Full it throws a NullReferenceException at line 188, after the earlier explicit objects have already been changed in place. So "explicit objects unchanged on failure" is not promised for that input.
- `CommandExpressions.CommandExpression.AddConstantParameter`: the parameter name is a non-null string. In the source, a null name makes `Dictionary.Add` throw ArgumentNullException (line 123).
- `CommandExpressions.CommandExpression.IncludeProperty`: the property name is a non-null string. In the source, a null name makes the dictionary throw ArgumentNullException, at the key lookup (line 290) or the `Add` (line 296).
- `CommandExpressions.CommandExpression.ExcludeProperty`: the property name is a non-null string. In the source, `List.Add(null)` (line 241) stores a null exclusion. No property name matches it, and it adds nothing to the fingerprint text (line 437).
- `ResultMapping.ResultMappingImplementor.ForProperty`: the property name is a non-null string. In the source, a null name makes `ContainsKey` throw ArgumentNullException (line 69).
- The builder's methods require `Valid()`. That is the invariant the constructor establishes, not a demand the source makes of its callers.
- `HashBuilder.Compute` is not part of this model. It is the builder's function parameter `hashBuilder`, and the `CacheHash` contract is stated over the text it is given.
  - `-1` is the not-yet-computed sentinel. A fingerprint that is itself -1 is recomputed on every call, as in the code.
- `CommandExpressions.CommandExpression.CacheHash`: stated for one owner only. Concurrent first calls are not modelled, since the builder is not meant to be shared across threads.
- `ResultMapping`: `PropertyMappingConfiguration` and `IPropertyMetadataExtractor` are not part of this model.
  - A configuration is its property and its chosen alias.
  - A mapping action is a total function on configurations.
  - An extractor is the list of readable declared properties it reports.
- `Caching.CacheItem.constructor`: `DateTime.Now` is the parameter `now`, and `Interval` (a double) is a `real`, so NaN and rounding are not modelled. The enum member `CacheMode.None` is called `Off`.
- `ResultSets`: `GetTypeArgumentHashCode`, `AssemblyQualifiedName.GetHashCode` and `base.CacheHash` are given as integer constants of the expression.
  - `CommandManager.Instance` is a `ProcessorCache` passed to `Realize`: two maps, read the way `Cached` says. `TryGetCommandProcessor` itself is not part of this model.
  - The factory is a `ProcessorFactory`: what `BuildCommandProcessor` builds is not part of this model, so its product is a function `make` of the expression it is handed and the name.
- `ResultSets.CommandSingleResultExpression.Realize`: does not model a cache entry that is registered but null (the cast would yield null and the factory would be called). The cache's locking and double-checked insertion are not modelled either.
- `ResultSets.CommandSingleResultExpression.ForResults`: `MappingStorage.StoreMapping` is not part of this model. The model keeps every stored action in call order.
