/**
 * What the materializer and the fingerprint promise, stated over the
 * specification functions of CommandExpressions: which parameters come out
 * and in what order, when a build fails, what the null-value modes do, and
 * which builder configurations share a fingerprint.
 */
module CommandExpressionProperties {
  import opened Wrappers
  import opened DbParameters
  import opened CommandExpressions

  // ---------------------------------------------------------------------------
  // Constants

  /**
   * The constants loop builds exactly one parameter per key, in key order,
   * unless some key's modifier is null; it then fails at the first such key.
   */
  lemma {:induction false} ConstantParametersMeaning(spec: CommandSpec, keys: seq<string>)
    requires forall k :: k in keys ==> k in spec.constants
    ensures var r := ConstantParameters(spec, keys);
            && (r.Success? <==> forall i :: 0 <= i < |keys| ==> spec.constants[keys[i]].Some?)
            && (r.Success? ==>
                  && |r.value| == |keys|
                  && forall i :: 0 <= i < |keys| ==> r.value[i] == ConstantParameter(keys[i], spec.constants[keys[i]].value))
            && (r.Failure? ==>
                  exists i :: && 0 <= i < |keys| && spec.constants[keys[i]].None? && r.error == NullModifier(keys[i])
                              && forall j :: 0 <= j < i ==> spec.constants[keys[j]].Some?)
  {
    if keys != [] {
      var init := keys[..|keys| - 1];
      var last := |keys| - 1;
      assert forall i :: 0 <= i < |init| ==> init[i] == keys[i];
      ConstantParametersMeaning(spec, init);
      var r0 := ConstantParameters(spec, init);
      if r0.Failure? {
        var i :| && 0 <= i < |init| && spec.constants[init[i]].None? && r0.error == NullModifier(init[i])
                 && forall j :: 0 <= j < i ==> spec.constants[init[j]].Some?;
        assert keys[i] == init[i];
      } else if spec.constants[keys[last]].None? {
        assert forall j :: 0 <= j < last ==> spec.constants[keys[j]].Some?;
      }
    }
  }

  // ---------------------------------------------------------------------------
  // Explicit inclusion mode

  /** The lookup over two runs of properties, from the lookups over each run. */
  function MergeLookups(x: PropertyLookup, y: PropertyLookup): PropertyLookup {
    if x.NoProperty? then y else if y.NoProperty? then x else Ambiguous
  }

  /** Type.GetProperty on a concatenation: a name found in both parts is ambiguous. */
  lemma {:induction false} LookupPropertyAppend(a: Filter, b: Filter, name: string)
    ensures LookupProperty(a + b, name) == MergeLookups(LookupProperty(a, name), LookupProperty(b, name))
  {
    if a != [] {
      assert (a + b)[1..] == a[1..] + b;
      assert (a + b)[0] == a[0];
      LookupPropertyAppend(a[1..], b, name);
    } else {
      assert a + b == b;
    }
  }

  /**
   * Explicit inclusion mode builds exactly one parameter per inclusion key,
   * in key order, each from the one property of that name, unless some key
   * names no property or several; it then fails at the first such key.
   */
  lemma {:induction false} ExplicitParametersMeaning(spec: CommandSpec, filter: Filter, keys: seq<string>)
    requires forall k :: k in keys ==> k in spec.inclusions
    ensures var r := ExplicitParameters(spec, filter, keys);
            && (r.Success? <==> forall i :: 0 <= i < |keys| ==> LookupProperty(filter, keys[i]).Unique?)
            && (r.Success? ==>
                  && |r.value| == |keys|
                  && forall i :: 0 <= i < |keys| ==>
                       var prop := LookupProperty(filter, keys[i]).prop;
                       r.value[i] == ApplyModifier(Seeded(keys[i], prop.value, prop.dbType), spec.inclusions[keys[i]], spec.nullMode))
            && (r.Failure? ==>
                  exists i :: && 0 <= i < |keys| && !LookupProperty(filter, keys[i]).Unique?
                              && r.error == (if LookupProperty(filter, keys[i]).NoProperty? then PropertyNotFound(keys[i])
                                             else AmbiguousMatch(keys[i]))
                              && forall j :: 0 <= j < i ==> LookupProperty(filter, keys[j]).Unique?)
  {
    if keys != [] {
      var init := keys[..|keys| - 1];
      var last := |keys| - 1;
      assert forall i :: 0 <= i < |init| ==> init[i] == keys[i];
      ExplicitParametersMeaning(spec, filter, init);
      var r0 := ExplicitParameters(spec, filter, init);
      if r0.Failure? {
        var i :| && 0 <= i < |init| && !LookupProperty(filter, init[i]).Unique?
                 && r0.error == (if LookupProperty(filter, init[i]).NoProperty? then PropertyNotFound(init[i])
                                 else AmbiguousMatch(init[i]))
                 && forall j :: 0 <= j < i ==> LookupProperty(filter, init[j]).Unique?;
        assert keys[i] == init[i];
      } else if !LookupProperty(filter, keys[last]).Unique? {
        assert forall j :: 0 <= j < last ==> LookupProperty(filter, keys[j]).Unique?;
      }
    }
  }

  /**
   * In explicit inclusion mode only the named properties matter: appending
   * properties that no inclusion key names leaves the parameters unchanged.
   */
  lemma {:induction false} ExplicitIgnoresUnnamed(spec: CommandSpec, filter: Filter, others: Filter, keys: seq<string>)
    requires forall k :: k in keys ==> k in spec.inclusions
    requires forall i, k :: 0 <= i < |others| && k in keys ==> others[i].name != k
    ensures ExplicitParameters(spec, filter + others, keys) == ExplicitParameters(spec, filter, keys)
  {
    if keys != [] {
      var init := keys[..|keys| - 1];
      var key := keys[|keys| - 1];
      assert forall k :: k in init ==> k in keys;
      ExplicitIgnoresUnnamed(spec, filter, others, init);
      LookupPropertyAppend(filter, others, key);
      assert key in keys;
      assert forall i :: 0 <= i < |others| ==> others[i].name != key;
      LookupPropertyNone(others, key);
      assert LookupProperty(filter + others, key) == LookupProperty(filter, key);
    }
  }

  // ---------------------------------------------------------------------------
  // Implicit inclusion mode

  /** Whether implicit inclusion mode turns a property into a parameter. */
  predicate Kept(spec: CommandSpec, prop: FilterProperty) {
    prop.name !in spec.exclusions && (prop.name in spec.inclusions || prop.dbType.Some?)
  }

  /** Implicit inclusion mode works property by property: it distributes over concatenation. */
  lemma {:induction false} ImplicitAppend(spec: CommandSpec, a: seq<FilterProperty>, b: seq<FilterProperty>)
    ensures ImplicitParameters(spec, a + b) == ImplicitParameters(spec, a) + ImplicitParameters(spec, b)
  {
    if b == [] {
      assert a + b == a;
    } else {
      var init := b[..|b| - 1];
      assert (a + b)[..|a + b| - 1] == a + init;
      assert (a + b)[|a + b| - 1] == b[|b| - 1];
      ImplicitAppend(spec, a, init);
    }
  }

  /** An excluded property never produces a parameter: removing it changes nothing. */
  lemma ImplicitSkipsExcluded(spec: CommandSpec, a: seq<FilterProperty>, prop: FilterProperty, b: seq<FilterProperty>)
    requires prop.name in spec.exclusions
    ensures ImplicitParameters(spec, a + [prop] + b) == ImplicitParameters(spec, a + b)
  {
    ImplicitAppend(spec, a + [prop], b);
    ImplicitAppend(spec, a, [prop]);
    ImplicitAppend(spec, a, b);
    assert [prop][..0] == [];
  }

  /**
   * Implicit inclusion mode yields a parameter exactly for the kept
   * properties: a parameter is in the output iff some kept property
   * produces it.
   */
  lemma {:induction false} ImplicitMembership(spec: CommandSpec, props: seq<FilterProperty>, q: ParamData)
    ensures q in ImplicitParameters(spec, props) <==>
              exists i :: 0 <= i < |props| && Kept(spec, props[i]) && ImplicitParameter(spec, props[i]) == Some(q)
  {
    if props != [] {
      var init := props[..|props| - 1];
      var last := props[|props| - 1];
      ImplicitMembership(spec, init, q);
      assert forall i :: 0 <= i < |init| ==> init[i] == props[i];
      if exists i :: 0 <= i < |props| && Kept(spec, props[i]) && ImplicitParameter(spec, props[i]) == Some(q) {
        var i :| 0 <= i < |props| && Kept(spec, props[i]) && ImplicitParameter(spec, props[i]) == Some(q);
        if i < |init| {
          assert init[i] == props[i];
        }
      }
    }
  }

  /**
   * Implicit inclusion mode yields one parameter per property, in order,
   * exactly when every property is kept; otherwise strictly fewer.
   */
  lemma {:induction false} ImplicitCount(spec: CommandSpec, props: seq<FilterProperty>)
    ensures |ImplicitParameters(spec, props)| <= |props|
    ensures |ImplicitParameters(spec, props)| == |props| <==> forall i :: 0 <= i < |props| ==> Kept(spec, props[i])
    ensures (forall i :: 0 <= i < |props| ==> Kept(spec, props[i])) ==>
              forall i :: 0 <= i < |props| ==> Some(ImplicitParameters(spec, props)[i]) == ImplicitParameter(spec, props[i])
  {
    if props != [] {
      var init := props[..|props| - 1];
      ImplicitCount(spec, init);
      assert forall i :: 0 <= i < |init| ==> init[i] == props[i];
    }
  }

  // ---------------------------------------------------------------------------
  // Null values

  /**
   * A filter parameter ends up holding C# null exactly when the value its
   * modifier (or the property, without one) left is null and the mode does
   * not replace null at that point; where the mode does, it holds DBNull.
   */
  lemma ApplyModifierNull(p: ParamData, modifier: Option<Modifier>, mode: NullValueMode)
    ensures ApplyModifier(p, modifier, mode).value == Null <==>
              match modifier
              case Some(m) => m(p).value == Null && !SubstitutesAfterModifier(mode)
              case None => p.value == Null && !SubstitutesUnmodified(mode)
    ensures match modifier
            case Some(m) => m(p).value == Null && SubstitutesAfterModifier(mode) ==> ApplyModifier(p, modifier, mode).value == DbNull
            case None => p.value == Null && SubstitutesUnmodified(mode) ==> ApplyModifier(p, modifier, mode).value == DbNull
  {
  }

  /** Under Full no filter-derived parameter carries C# null. */
  lemma FullModeFilterParametersNeverNull(spec: CommandSpec, filter: Option<Filter>)
    requires spec.WellFormed() && spec.nullMode == Full
    requires PropertyParameters(spec, filter).Success?
    ensures forall q :: q in PropertyParameters(spec, filter).value ==> q.value != Null
  {
    if filter.Some? && spec.explicitInclusion {
      ExplicitParametersMeaning(spec, filter.value, spec.inclusionKeys);
    } else if filter.Some? {
      forall q | q in PropertyParameters(spec, filter).value ensures q.value != Null {
        ImplicitMembership(spec, filter.value, q);
      }
    }
  }

  /**
   * Explicit parameters keep everything but their value; only
   * ExplicitParametersOnly and Full replace a null value, and no other value
   * is ever touched.
   */
  lemma ExplicitArgumentsMeaning(mode: NullValueMode, ps: seq<ParamData>)
    ensures !SubstitutesExplicit(mode) ==> ExplicitArguments(mode, ps) == ps
    ensures forall k :: 0 <= k < |ps| ==>
              && ExplicitArguments(mode, ps)[k].(value := ps[k].value) == ps[k]
              && (ps[k].value != Null ==> ExplicitArguments(mode, ps)[k] == ps[k])
              && (ps[k].value == Null && SubstitutesExplicit(mode) ==> ExplicitArguments(mode, ps)[k].value == DbNull)
              && (ExplicitArguments(mode, ps)[k].value == Null <==> ps[k].value == Null && !SubstitutesExplicit(mode))
  {
  }

  // ---------------------------------------------------------------------------
  // The whole parameter array

  /**
   * A build succeeds exactly when the filter-derived parameters can be built
   * and no constant's modifier is null, and then it yields one parameter
   * per filter-derived parameter, per constant and per explicit parameter.
   */
  lemma ParametersMeaning(spec: CommandSpec, filter: Option<Filter>, explicit: Option<seq<ParamData>>)
    requires spec.WellFormed()
    ensures var r := Parameters(spec, filter, explicit);
            && (r.Success? <==>
                  && PropertyParameters(spec, filter).Success?
                  && forall i :: 0 <= i < |spec.constantKeys| ==> spec.constants[spec.constantKeys[i]].Some?)
            && (r.Success? ==>
                  |r.value| == |PropertyParameters(spec, filter).value| + |spec.constantKeys| + |OrEmpty(explicit)|)
  {
    ConstantKeysCovered(spec);
    ConstantParametersMeaning(spec, spec.constantKeys);
  }

  /** The short cut for a null filter and no explicit array agrees with the full build: only the constants. */
  lemma NoFilterYieldsConstants(spec: CommandSpec)
    requires spec.WellFormed()
    ensures Parameters(spec, None, None) == ConstantParameters(spec, spec.constantKeys)
  {
    ConstantKeysCovered(spec);
    if spec.constantKeys != [] {
      var c := ConstantParameters(spec, spec.constantKeys);
      if c.Success? {
        assert [] + c.value + ExplicitArguments(spec.nullMode, []) == c.value;
      }
    }
  }

  // ---------------------------------------------------------------------------
  // Fingerprint text

  /** The key fold distributes over concatenation. */
  lemma {:induction false} ConcatAppend(a: seq<string>, b: seq<string>)
    ensures Concat(a + b) == Concat(a) + Concat(b)
  {
    if b == [] {
      assert a + b == a;
    } else {
      var init := b[..|b| - 1];
      assert (a + b)[..|a + b| - 1] == a + init;
      assert (a + b)[|a + b| - 1] == b[|b| - 1];
      ConcatAppend(a, init);
    }
  }

  /** Excluding a new property appends its name to the fingerprint text. */
  lemma ExcludeExtendsHashText(spec: CommandSpec, name: string)
    ensures HashText(spec.(exclusions := spec.exclusions + [name])) == HashText(spec) + name
  {
    ConcatAppend(spec.exclusions, [name]);
    assert [name][..0] == [];
  }

  /** Adding a new constant inserts its name after the existing constant keys in the fingerprint text. */
  lemma AddConstantExtendsHashText(spec: CommandSpec, name: string, m: Option<Modifier>)
    ensures var s := spec.(constantKeys := spec.constantKeys + [name], constants := spec.constants[name := m]);
            HashText(s) == spec.text + CommandTypeName(spec.kind) + BooleanName(spec.explicitInclusion)
                           + NullValueModeName(spec.nullMode) + Concat(spec.constantKeys) + name
                           + Concat(spec.inclusionKeys) + Concat(spec.exclusions)
  {
    var s := spec.(constantKeys := spec.constantKeys + [name], constants := spec.constants[name := m]);
    ConcatAppend(spec.constantKeys, [name]);
    assert [name][..0] == [];
    assert Concat(s.constantKeys) == Concat(spec.constantKeys) + name;
    var head := spec.text + CommandTypeName(spec.kind) + BooleanName(spec.explicitInclusion) + NullValueModeName(spec.nullMode);
    assert HashText(s) == head + (Concat(spec.constantKeys) + name) + Concat(spec.inclusionKeys) + Concat(spec.exclusions);
  }

  /**
   * Collapse: builders that agree on text, type, inclusion mode, null mode
   * and the three key sequences share a fingerprint text, whatever their
   * modifiers do.
   */
  lemma HashIgnoresModifiers(s1: CommandSpec, s2: CommandSpec)
    requires s1.text == s2.text && s1.kind == s2.kind
    requires s1.explicitInclusion == s2.explicitInclusion && s1.nullMode == s2.nullMode
    requires s1.constantKeys == s2.constantKeys && s1.inclusionKeys == s2.inclusionKeys && s1.exclusions == s2.exclusions
    ensures HashText(s1) == HashText(s2)
  {
  }

  function SampleSpec(): CommandSpec {
    CommandSpec("get_users", StoredProcedure, false, Never, [], map[], [], map[], [])
  }

  /** The fingerprint text depends on the order in which properties were included. */
  lemma HashIsOrderSensitive()
    ensures var a := SampleSpec().(inclusionKeys := ["A", "B"], inclusions := map["A" := None, "B" := None]);
            var b := SampleSpec().(inclusionKeys := ["B", "A"], inclusions := map["A" := None, "B" := None]);
            a.WellFormed() && b.WellFormed() && HashText(a) != HashText(b)
  {
    var a := SampleSpec().(inclusionKeys := ["A", "B"], inclusions := map["A" := None, "B" := None]);
    var b := SampleSpec().(inclusionKeys := ["B", "A"], inclusions := map["A" := None, "B" := None]);
    assert |HashText(a)| == |HashText(b)|;
    assert HashText(a)[|HashText(a)| - 2] == 'A';
    assert HashText(b)[|HashText(b)| - 2] == 'B';
  }

  /**
   * The keys are joined without separators, so a builder with constant "Id"
   * and one that excludes "Id" get the same fingerprint text although they
   * build different parameters.
   */
  lemma HashTextCollides()
    ensures var m: Modifier := p => p;
            var a := SampleSpec().(constantKeys := ["Id"], constants := map["Id" := Some(m)]);
            var b := SampleSpec().(exclusions := ["Id"]);
            && a.WellFormed() && b.WellFormed()
            && HashText(a) == HashText(b)
            && Parameters(a, None, None) != Parameters(b, None, None)
  {
    var m: Modifier := p => p;
    var a := SampleSpec().(constantKeys := ["Id"], constants := map["Id" := Some(m)]);
    assert ["Id"][..0] == [];
    ParametersMeaning(a, None, None);
  }

  // ---------------------------------------------------------------------------
  // Scenarios

  /**
   * get_users as a stored procedure in implicit mode with
   * FilterOnlyMinimum: the filter { Id = 5, Name = null } yields Id = 5 and
   * Name = DBNull, in that order; under Never, Name stays null.
   */
  lemma GetUsersScenario(intType: DbType, stringType: DbType)
    ensures var filter := [FilterProperty("Id", Val(5), Some(intType)), FilterProperty("Name", Null, Some(stringType))];
            && Parameters(SampleSpec().(nullMode := FilterOnlyMinimum), Some(filter), None)
               == Success([ParamData("Id", Input, Val(5), Some(intType)), ParamData("Name", Input, DbNull, Some(stringType))])
            && Parameters(SampleSpec(), Some(filter), None)
               == Success([ParamData("Id", Input, Val(5), Some(intType)), ParamData("Name", Input, Null, Some(stringType))])
  {
    var filter := [FilterProperty("Id", Val(5), Some(intType)), FilterProperty("Name", Null, Some(stringType))];
    var id := ParamData("Id", Input, Val(5), Some(intType));
    assert filter[..1] == [filter[0]] && [filter[0]][..0] == [];
    var minimum := SampleSpec().(nullMode := FilterOnlyMinimum);
    assert ImplicitParameters(minimum, filter[..1]) == [id];
    assert ImplicitParameters(SampleSpec(), filter[..1]) == [id];
    assert ImplicitParameters(minimum, filter) == [id, ParamData("Name", Input, DbNull, Some(stringType))];
    assert ImplicitParameters(SampleSpec(), filter) == [id, ParamData("Name", Input, Null, Some(stringType))];
    assert ExplicitArguments(FilterOnlyMinimum, []) == [] && ExplicitArguments(Never, []) == [];
    assert ConstantParameters(minimum, []) == Success([]) && ConstantParameters(SampleSpec(), []) == Success([]);
    assert ImplicitParameters(minimum, filter) + [] + [] == ImplicitParameters(minimum, filter);
    assert ImplicitParameters(SampleSpec(), filter) + [] + [] == ImplicitParameters(SampleSpec(), filter);
  }

  /**
   * A filter whose type hides a base property Id with a new Id of another
   * type has two public properties named Id; explicit mode including Id
   * then fails with an ambiguous match, while implicit mode builds both.
   */
  lemma HiddenPropertyScenario(intType: DbType, stringType: DbType)
    ensures var filter := [FilterProperty("Id", Val(5), Some(intType)), FilterProperty("Id", Null, Some(stringType))];
            var spec := SampleSpec().(explicitInclusion := true, inclusionKeys := ["Id"], inclusions := map["Id" := None]);
            && spec.WellFormed()
            && Parameters(spec, Some(filter), None) == Failure(AmbiguousMatch("Id"))
            && Parameters(spec.(explicitInclusion := false), Some(filter), None)
               == Success([ParamData("Id", Input, Val(5), Some(intType)), ParamData("Id", Input, Null, Some(stringType))])
  {
    var filter := [FilterProperty("Id", Val(5), Some(intType)), FilterProperty("Id", Null, Some(stringType))];
    var spec := SampleSpec().(explicitInclusion := true, inclusionKeys := ["Id"], inclusions := map["Id" := None]);
    assert filter[1..][1..] == [];
    assert LookupProperty(filter[1..], "Id") == Unique(filter[1]);
    assert LookupProperty(filter, "Id") == Ambiguous;
    assert ["Id"][..0] == [];
    assert ExplicitParameters(spec, filter, ["Id"]) == Failure(AmbiguousMatch("Id"));
    var implicit := spec.(explicitInclusion := false);
    assert filter[..1] == [filter[0]] && [filter[0]][..0] == [];
    assert ImplicitParameters(implicit, filter[..1]) == [ParamData("Id", Input, Val(5), Some(intType))];
    assert ImplicitParameters(implicit, filter) + [] + [] == ImplicitParameters(implicit, filter);
    assert ConstantParameters(implicit, []) == Success([]) && ExplicitArguments(Never, []) == [];
    assert ImplicitParameters(implicit, filter) == [ParamData("Id", Input, Val(5), Some(intType)), ParamData("Id", Input, Null, Some(stringType))];
    assert spec.WellFormed();
    assert Parameters(spec, Some(filter), None) == Failure(AmbiguousMatch("Id"));
  }

  /**
   * Ordering: properties A and B, constant C and explicit parameter D come
   * out as A, B, C, D.
   */
  lemma ParameterOrderScenario(t: DbType, d: ParamData)
    requires d.name == "D"
    ensures var m: Modifier := p => p;
            var spec := SampleSpec().(constantKeys := ["C"], constants := map["C" := Some(m)]);
            var filter := [FilterProperty("A", Val(1), Some(t)), FilterProperty("B", Val(2), Some(t))];
            var r := Parameters(spec, Some(filter), Some([d]));
            r.Success? && |r.value| == 4
            && r.value[0].name == "A" && r.value[1].name == "B" && r.value[2].name == "C" && r.value[3].name == "D"
  {
    var m: Modifier := p => p;
    var spec := SampleSpec().(constantKeys := ["C"], constants := map["C" := Some(m)]);
    var filter := [FilterProperty("A", Val(1), Some(t)), FilterProperty("B", Val(2), Some(t))];
    assert filter[..1] == [filter[0]] && [filter[0]][..0] == [];
    assert ["C"][..0] == [];
    assert ImplicitParameters(spec, filter[..1]) == [ParamData("A", Input, Val(1), Some(t))];
    var ps := ImplicitParameters(spec, filter);
    assert ps == [ParamData("A", Input, Val(1), Some(t)), ParamData("B", Input, Val(2), Some(t))];
    var cs := ConstantParameters(spec, spec.constantKeys);
    assert ConstantParameters(spec, spec.constantKeys[..0]) == Success([]);
    assert cs == Success([] + [ConstantParameter("C", m)]);
    var es := ExplicitArguments(Never, [d]);
    assert |es| == 1 && es[0].name == "D";
    var all := ps + cs.value + es;
    assert Parameters(spec, Some(filter), Some([d])) == Success(all);
    assert all[0] == ps[0] && all[1] == ps[1] && all[2] == cs.value[0] && all[3] == es[0];
  }

  /**
   * The fingerprint is computed once: a builder changed after its first
   * CacheHash keeps answering the old fingerprint, which no longer
   * describes it. (A fingerprint that happens to equal the sentinel -1 is
   * recomputed on every call.)
   */
  method FingerprintIsFrozen(e: CommandExpression, name: string) returns (before: int, after: int)
    requires e.Valid()
    modifies e
    ensures before != -1 ==> after == before
    ensures old(e.cacheHash) == -1 && before != -1 && name != "" && name !in old(e.exclusions) ==>
              e.hashedText != HashText(e.Snapshot())
  {
    before := e.CacheHash();
    ghost var hashed := e.Snapshot();
    var self := e.ExcludeProperty(name);
    if name !in hashed.exclusions {
      assert e.Snapshot() == hashed.(exclusions := hashed.exclusions + [name]);
      ExcludeExtendsHashText(hashed, name);
    }
    after := e.CacheHash();
  }
}
