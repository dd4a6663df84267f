/**
  The staged builder that assembles a FluentBundle (LinguiniBundler and its
  StepBuilder): it collects locales, parsed resources, the isolation flag and
  the two client callables, then folds the resources into a new bundle and
  gathers every error reported on the way.

  The bundle's own AddFunctions and AddResource are not part of this model:
  Build receives them as functions over the bundle's entry registry, each
  returning the new registry, whether it succeeded, and the errors it reports.
 */
module LinguiniBundler {
  import opened Wrappers
  import opened Ast
  import FE = FluentErrors

  /** Whatever a CultureInfo carries besides its name (formats, calendars), opaque here. */
  datatype CultureData = DefaultData | CustomData(handle: nat)

  /** A CultureInfo: its name and its opaque settings. */
  datatype Culture = Culture(name: string, data: CultureData)

  /** `new CultureInfo(name)`: the culture with that name and default settings. */
  function CultureFromName(name: string): (c: Culture)
    ensures c.name == name && c.data == DefaultData
  {
    Culture(name, DefaultData)
  }

  /** An IFluentType value handed to a formatter callable. */
  datatype FluentValue = FluentString(text: string) | FluentNumber(numeral: string) | FluentNone

  /** The client callables: Func<IFluentType, string> and Func<string, string>. */
  type Formatter = FluentValue -> string
  type Transform = string -> string

  /** A registered native function, opaque here. */
  datatype ExternalFunction = ExternalFunction(handle: nat)

  /** The entry and function maps a bundle owns. */
  datatype Registry = Registry(
    messages: map<string, Entry>,
    terms: map<string, Entry>,
    functions: map<string, ExternalFunction>)

  const EmptyRegistry := Registry(map[], map[], map[])

  datatype FluentBundle = FluentBundle(
    culture: Culture,
    locales: seq<string>,
    useIsolating: bool,
    formatterFunc: Option<Formatter>,
    transformFunc: Option<Transform>,
    registry: Registry)

  /** FluentBundle.AddResource(resource, out errors) and AddFunctions(functions, out errors). */
  type AddResourceFn = (Registry, Resource) -> (Registry, bool, seq<FE.FluentError>)
  type AddFunctionsFn = (Registry, map<string, ExternalFunction>) -> (Registry, bool, seq<FE.FluentError>)

  datatype ArgumentException = ArgumentException(message: string)

  /** Thrown by UncheckedBuild with the whole error list. */
  datatype LinguiniException = LinguiniException(errors: seq<FE.FluentError>)

  const NoLocaleMessage := "Expected at least one locale to be passed"

  /** A snapshot of a builder's fields. */
  datatype BuilderState = BuilderState(
    culture: Option<Culture>,
    locales: seq<string>,
    resources: seq<Resource>,
    useIsolating: bool,
    formatterFunc: Option<Formatter>,
    transformFunc: Option<Transform>,
    functions: map<string, ExternalFunction>)

  /** The field initialisers of a new StepBuilder. */
  const InitialState := BuilderState(None, [], [], true, None, None, map[])

  /** The resources a parser produces for each unparsed input, in order. */
  function ParseAll<S>(unparsed: seq<S>, parse: S -> Resource): (rs: seq<Resource>)
    ensures |rs| == |unparsed|
    ensures forall i :: 0 <= i < |unparsed| ==> rs[i] == parse(unparsed[i])
  {
    seq(|unparsed|, i requires 0 <= i < |unparsed| => parse(unparsed[i]))
  }

  /**
    Adds the resources to the registry one after the other, in list order,
    keeping the errors of each resource whose AddResource call fails.
   */
  function AddAll(reg: Registry, rs: seq<Resource>, addResource: AddResourceFn): (Registry, seq<FE.FluentError>)
    decreases |rs|
  {
    if rs == [] then (reg, [])
    else
      var (before, errors) := AddAll(reg, rs[..|rs| - 1], addResource);
      var (after, ok, resErrors) := addResource(before, rs[|rs| - 1]);
      (after, if ok then errors else errors + resErrors)
  }

  /** What one resource contributes to the error list: nothing when its AddResource succeeds. */
  function Contribution(reg: Registry, r: Resource, addResource: AddResourceFn): seq<FE.FluentError>
  {
    var (_, ok, resErrors) := addResource(reg, r);
    if ok then [] else resErrors
  }

  /** The registry in which resource `i` is added: the one left by the resources before it. */
  function RegistryBefore(reg: Registry, rs: seq<Resource>, i: nat, addResource: AddResourceFn): Registry
    requires i <= |rs|
  {
    AddAll(reg, rs[..i], addResource).0
  }

  function Concat(parts: seq<seq<FE.FluentError>>): seq<FE.FluentError>
  {
    if parts == [] then [] else Concat(parts[..|parts| - 1]) + parts[|parts| - 1]
  }

  /** The bundle and error list that Build produces from a builder in state `s`. */
  function BuildOutcome(s: BuilderState, addFunctions: AddFunctionsFn, addResource: AddResourceFn)
    : (FluentBundle, seq<FE.FluentError>)
    requires s.culture.Some?
  {
    var (reg, funcErrors) :=
      if |s.functions| > 0 then
        var (r, _, e) := addFunctions(EmptyRegistry, s.functions);
        (r, e)
      else (EmptyRegistry, []);
    var (reg', resErrors) := AddAll(reg, s.resources, addResource);
    (FluentBundle(s.culture.value, s.locales, s.useIsolating, s.formatterFunc, s.transformFunc, reg'),
     funcErrors + resErrors)
  }

  /** LinguiniBundler.New(): a fresh builder at the locale step. */
  method New() returns (b: StepBuilder)
    ensures fresh(b) && b.Valid()
    ensures b.State() == InitialState
  {
    b := new StepBuilder();
  }

  class StepBuilder {
    var culture: Option<Culture>
    var locales: seq<string>
    var resources: seq<Resource>
    var useIsolating: bool
    var formatterFunc: Option<Formatter>
    var transformFunc: Option<Transform>
    var functions: map<string, ExternalFunction>

    function State(): BuilderState
      reads this
    {
      BuilderState(culture, locales, resources, useIsolating, formatterFunc, transformFunc, functions)
    }

    /**
      The builder's invariant: a culture is chosen exactly when some locale
      has been recorded, and no step ever registers a function.
     */
    ghost predicate Valid()
      reads this
    {
      && (culture.Some? <==> locales != [])
      && functions == map[]
    }

    constructor ()
      ensures Valid()
      ensures State() == InitialState
    {
      culture := None;
      locales := [];
      resources := [];
      useIsolating := true;
      formatterFunc := None;
      transformFunc := None;
      functions := map[];
    }

    method SetUseIsolating(isIsolating: bool) returns (self: StepBuilder)
      requires Valid()
      modifies this
      ensures Valid() && self == this
      ensures State() == old(State()).(useIsolating := isIsolating)
    {
      useIsolating := isIsolating;
      self := this;
    }

    method SetTransformFunc(transform: Transform) returns (self: StepBuilder)
      requires Valid()
      modifies this
      ensures Valid() && self == this
      ensures State() == old(State()).(transformFunc := Some(transform))
    {
      transformFunc := Some(transform);
      self := this;
    }

    method SetFormatterFunc(formatter: Formatter) returns (self: StepBuilder)
      requires Valid()
      modifies this
      ensures Valid() && self == this
      ensures State() == old(State()).(formatterFunc := Some(formatter))
    {
      formatterFunc := Some(formatter);
      self := this;
    }

    /** Records one locale and takes the culture from it. */
    method Locale(unparsedLocale: string) returns (self: StepBuilder)
      requires Valid()
      modifies this
      ensures Valid() && self == this
      ensures State() == old(State()).(culture := Some(CultureFromName(unparsedLocale)),
                                       locales := old(locales) + [unparsedLocale])
    {
      culture := Some(CultureFromName(unparsedLocale));
      locales := locales + [unparsedLocale];
      self := this;
    }

    /**
      Appends the locales in order; the culture comes from the first locale
      recorded so far. With no locale at all it throws ArgumentException.
     */
    method Locales(unparsedLocales: seq<string>) returns (r: Result<StepBuilder, ArgumentException>)
      requires Valid()
      modifies this
      ensures Valid()
      ensures r.Success? <==> old(locales) + unparsedLocales != []
      ensures r.Success? ==>
                r.value == this &&
                State() == old(State()).(culture := Some(CultureFromName((old(locales) + unparsedLocales)[0])),
                                         locales := old(locales) + unparsedLocales)
      ensures r.Failure? ==> r.error == ArgumentException(NoLocaleMessage) && State() == old(State())
    {
      locales := locales + unparsedLocales;
      if |locales| > 0 {
        culture := Some(CultureFromName(locales[0]));
        r := Success(this);
      } else {
        r := Failure(ArgumentException(NoLocaleMessage));
      }
    }

    /** Takes the given culture and records its name as a locale. */
    method CultureInfo(c: Culture) returns (self: StepBuilder)
      requires Valid()
      modifies this
      ensures Valid() && self == this
      ensures State() == old(State()).(culture := Some(c), locales := old(locales) + [c.name])
    {
      culture := Some(c);
      locales := locales + [c.name];
      self := this;
    }

    /** AddResource(string) and AddResource(TextReader): parses the input and appends the result. */
    method AddUnparsedResource<S>(unparsed: S, parse: S -> Resource) returns (self: StepBuilder)
      requires Valid()
      modifies this
      ensures Valid() && self == this
      ensures State() == old(State()).(resources := old(resources) + [parse(unparsed)])
    {
      resources := resources + [parse(unparsed)];
      self := this;
    }

    method AddResource(parsedResource: Resource) returns (self: StepBuilder)
      requires Valid()
      modifies this
      ensures Valid() && self == this
      ensures State() == old(State()).(resources := old(resources) + [parsedResource])
    {
      resources := resources + [parsedResource];
      self := this;
    }

    /** AddResources(IList<string>) and AddResources(IList<TextReader>): parses and appends each input in order. */
    method AddUnparsedResources<S>(unparsedResources: seq<S>, parse: S -> Resource) returns (self: StepBuilder)
      requires Valid()
      modifies this
      ensures Valid() && self == this
      ensures State() == old(State()).(resources := old(resources) + ParseAll(unparsedResources, parse))
    {
      var i := 0;
      while i < |unparsedResources|
        invariant 0 <= i <= |unparsedResources|
        invariant Valid()
        invariant State() == old(State()).(resources := old(resources) + ParseAll(unparsedResources[..i], parse))
      {
        assert ParseAll(unparsedResources[..i + 1], parse) == ParseAll(unparsedResources[..i], parse) + [parse(unparsedResources[i])];
        resources := resources + [parse(unparsedResources[i])];
        i := i + 1;
      }
      assert unparsedResources[..i] == unparsedResources;
      self := this;
    }

    method AddResources(parsedResources: seq<Resource>) returns (self: StepBuilder)
      requires Valid()
      modifies this
      ensures Valid() && self == this
      ensures State() == old(State()).(resources := old(resources) + parsedResources)
    {
      resources := resources + parsedResources;
      self := this;
    }

    method SkipResources() returns (self: StepBuilder)
      requires Valid()
      ensures Valid() && self == this
    {
      self := this;
    }

    /**
      Creates the bundle from the builder's settings, registers the functions
      (only when there are any) and then each resource in order, and returns
      the bundle with the concatenated errors. The builder is left as it is.
     */
    method Build(addFunctions: AddFunctionsFn, addResource: AddResourceFn)
      returns (bundle: FluentBundle, errors: seq<FE.FluentError>)
      requires culture.Some?
      ensures (bundle, errors) == BuildOutcome(State(), addFunctions, addResource)
    {
      bundle := FluentBundle(culture.value, locales, useIsolating, formatterFunc, transformFunc, EmptyRegistry);
      errors := [];
      if |functions| > 0 {
        var (reg, _, funcErrors) := addFunctions(bundle.registry, functions);
        bundle := bundle.(registry := reg);
        errors := errors + funcErrors;
      }
      ghost var reg0, funcErrors := bundle.registry, errors;
      var i := 0;
      while i < |resources|
        invariant 0 <= i <= |resources|
        invariant bundle == FluentBundle(culture.value, locales, useIsolating, formatterFunc, transformFunc,
                                         AddAll(reg0, resources[..i], addResource).0)
        invariant errors == funcErrors + AddAll(reg0, resources[..i], addResource).1
      {
        assert resources[..i + 1][..i] == resources[..i];
        var (reg, ok, resErrors) := addResource(bundle.registry, resources[i]);
        bundle := bundle.(registry := reg);
        if !ok {
          errors := errors + resErrors;
        }
        i := i + 1;
      }
      assert resources[..i] == resources;
      assert reg0 == (if |functions| > 0 then addFunctions(EmptyRegistry, functions).0 else EmptyRegistry);
      assert funcErrors == (if |functions| > 0 then addFunctions(EmptyRegistry, functions).2 else []);
    }

    /** Build, throwing LinguiniException when any error was reported. */
    method UncheckedBuild(addFunctions: AddFunctionsFn, addResource: AddResourceFn)
      returns (r: Result<FluentBundle, LinguiniException>)
      requires culture.Some?
      ensures r.Success? <==> BuildOutcome(State(), addFunctions, addResource).1 == []
      ensures r.Success? ==> r.value == BuildOutcome(State(), addFunctions, addResource).0
      ensures r.Failure? ==> r.error == LinguiniException(BuildOutcome(State(), addFunctions, addResource).1)
    {
      var bundle, errors := Build(addFunctions, addResource);
      if |errors| > 0 {
        r := Failure(LinguiniException(errors));
      } else {
        r := Success(bundle);
      }
    }
  }

  // ------------------------------------------------------------------ lemmas

  /** Adding `a` then `b` is adding `a + b`: the errors of `b` follow those of `a`. */
  lemma {:induction false} AddAllAppend(reg: Registry, a: seq<Resource>, b: seq<Resource>, addResource: AddResourceFn)
    ensures AddAll(reg, a + b, addResource) ==
            (AddAll(AddAll(reg, a, addResource).0, b, addResource).0,
             AddAll(reg, a, addResource).1 + AddAll(AddAll(reg, a, addResource).0, b, addResource).1)
    decreases |b|
  {
    if b == [] {
      assert a + b == a;
      var mid := AddAll(reg, a, addResource);
      assert AddAll(mid.0, b, addResource) == (mid.0, []);
      assert mid.1 + [] == mid.1;
    } else {
      var b' := b[..|b| - 1];
      var last := b[|b| - 1];
      assert (a + b)[..|a + b| - 1] == a + b';
      assert (a + b)[|a + b| - 1] == last;
      AddAllAppend(reg, a, b', addResource);
      var mid := AddAll(reg, a, addResource);
      var inner := AddAll(mid.0, b', addResource);
      var step := addResource(inner.0, last);
      assert AddAll(reg, a + b, addResource) ==
             (step.0, if step.1 then mid.1 + inner.1 else mid.1 + inner.1 + step.2);
      assert AddAll(mid.0, b, addResource) == (step.0, if step.1 then inner.1 else inner.1 + step.2);
      assert mid.1 + inner.1 + step.2 == mid.1 + (inner.1 + step.2);
    }
  }

  /**
    The error list is the concatenation, in resource order, of what each
    resource contributes when added to the registry its predecessors left.
   */
  lemma {:induction false} AddAllErrorsInOrder(reg: Registry, rs: seq<Resource>, addResource: AddResourceFn)
    ensures AddAll(reg, rs, addResource).1 ==
            Concat(seq(|rs|, i requires 0 <= i < |rs| =>
                     Contribution(RegistryBefore(reg, rs, i, addResource), rs[i], addResource)))
    decreases |rs|
  {
    var parts := seq(|rs|, i requires 0 <= i < |rs| =>
                   Contribution(RegistryBefore(reg, rs, i, addResource), rs[i], addResource));
    if rs != [] {
      var n := |rs| - 1;
      var init := rs[..n];
      AddAllErrorsInOrder(reg, init, addResource);
      var initParts := seq(|init|, i requires 0 <= i < |init| =>
                         Contribution(RegistryBefore(reg, init, i, addResource), init[i], addResource));
      assert parts[..n] == initParts by {
        forall i | 0 <= i < n
          ensures parts[i] == initParts[i]
        {
          assert rs[..i] == init[..i];
        }
      }
      assert rs[..n] == init;
    }
  }

  /** When every AddResource call, made on the registry its predecessors left, succeeds, no error is reported. */
  lemma {:induction false} AddAllAllAccepted(reg: Registry, rs: seq<Resource>, addResource: AddResourceFn)
    requires forall i :: 0 <= i < |rs| ==> addResource(RegistryBefore(reg, rs, i, addResource), rs[i]).1
    ensures AddAll(reg, rs, addResource).1 == []
    decreases |rs|
  {
    if rs != [] {
      var n := |rs| - 1;
      var init := rs[..n];
      forall i | 0 <= i < |init|
        ensures addResource(RegistryBefore(reg, init, i, addResource), init[i]).1
      {
        assert init[..i] == rs[..i];
        assert init[i] == rs[i];
      }
      AddAllAllAccepted(reg, init, addResource);
      assert rs[..n] == init;
      assert addResource(RegistryBefore(reg, rs, n, addResource), rs[n]).1;
    }
  }

  /** The bundle carries the builder's culture, locales, isolation flag and callables unchanged. */
  lemma BuildKeepsSettings(s: BuilderState, addFunctions: AddFunctionsFn, addResource: AddResourceFn)
    requires s.culture.Some?
    ensures var bundle := BuildOutcome(s, addFunctions, addResource).0;
            && bundle.culture == s.culture.value
            && bundle.locales == s.locales
            && bundle.useIsolating == s.useIsolating
            && bundle.formatterFunc == s.formatterFunc
            && bundle.transformFunc == s.transformFunc
  {
  }

  /**
    With no functions registered, Build's errors are exactly the resources'
    errors, and adding one more resource appends only that resource's errors.
   */
  lemma BuildErrorsFromResources(s: BuilderState, r: Resource, addFunctions: AddFunctionsFn, addResource: AddResourceFn)
    requires s.culture.Some? && s.functions == map[]
    ensures BuildOutcome(s, addFunctions, addResource).1 == AddAll(EmptyRegistry, s.resources, addResource).1
    ensures var before := BuildOutcome(s, addFunctions, addResource);
            BuildOutcome(s.(resources := s.resources + [r]), addFunctions, addResource).1 ==
              before.1 + Contribution(before.0.registry, r, addResource)
  {
    AddAllAppend(EmptyRegistry, s.resources, [r], addResource);
    assert AddAll(AddAll(EmptyRegistry, s.resources, addResource).0, [r], addResource).1 ==
           Contribution(AddAll(EmptyRegistry, s.resources, addResource).0, r, addResource) by {
      assert [r][..0] == [];
    }
  }

  /** A builder that only went through its own steps registers no function, so Build reports only resource errors. */
  lemma ValidBuildErrors(b: StepBuilder, addFunctions: AddFunctionsFn, addResource: AddResourceFn)
    requires b.Valid() && b.culture.Some?
    ensures BuildOutcome(b.State(), addFunctions, addResource).1 ==
            AddAll(EmptyRegistry, b.resources, addResource).1
  {
  }
}
