/**
 * Resolution of one `addProp(name, defaultValue, type, config)` call into a
 * property specification: argument disambiguation, the option lookups, the
 * default factory, the bad-value policy and the validator.
 */
module Resolution {
  import opened Wrappers
  import opened Values
  import opened Validators

  /** The options object `addProp` ends up reading. */
  datatype Config =
    /** An empty object literal made by `addProp` itself (the default `{}` or the reset to `{}`). */
    | Fresh
    /** A value the caller passed. */
    | Given(v: Value)

  /** `key in config`, for a config that is an object. */
  predicate HasKey(c: Config, key: string)
  {
    c.Given? && c.v.Ref? && c.v.obj.kind.PlainKind? && key in c.v.obj.kind.props
  }

  /** `config[key]`: the property's value, or `undefined` when it has none. */
  function Lookup(c: Config, key: string): (r: Value)
    ensures HasKey(c, key) ==> r == c.v.obj.kind.props[key]
    ensures !HasKey(c, key) ==> r == Undefined
  {
    if HasKey(c, key) then c.v.obj.kind.props[key] else Undefined
  }

  /** The lodash `get(config, key, dflt)`: the default replaces an `undefined` result. */
  function LookupOr(c: Config, key: string, dflt: Value): (r: Value)
    ensures r == dflt || (HasKey(c, key) && r == c.v.obj.kind.props[key] && r != Undefined)
    ensures HasKey(c, key) && c.v.obj.kind.props[key] != Undefined ==> r == c.v.obj.kind.props[key]
  {
    var found := Lookup(c, key);
    if found == Undefined then dflt else found
  }

  // ---------------------------------------------------------------------------
  // Argument disambiguation

  /** The positional arguments after disambiguation. */
  datatype Args = Args(dflt: Value, typeSpec: Value, config: Config, handler: Option<nat>)

  /**
   * The three-way overload of the last three positional arguments, after the
   * JavaScript parameter defaults (`type = null`, `config = {}`) apply.
   */
  function Disambiguate(dflt: Value, typeSpec: Value, config: Value): (a: Args)
    ensures a.dflt == dflt
    // 1. a function in the config position is the bad-value handler; the options become {}
    ensures config.Fn? ==> a.handler == Some(config.id) && a.config == Fresh
    ensures !config.Fn? ==> a.handler.None?
    // 2. else a plain-object default with no type is the options; its `type` key is not read
    ensures !config.Fn? && IsPlainObject(dflt) && !Truthy(typeSpec) ==> a.config == Given(dflt) && !Truthy(a.typeSpec)
    // 3. else a plain-object type is the options, and its `type` key becomes the type
    ensures !config.Fn? && !(IsPlainObject(dflt) && !Truthy(typeSpec)) && IsPlainObject(typeSpec) ==>
              a.config == Given(typeSpec) && a.typeSpec == LookupOr(Given(typeSpec), "type", Null)
    // otherwise the arguments stay where they were given
    ensures !config.Fn? && !(IsPlainObject(dflt) && !Truthy(typeSpec)) && !IsPlainObject(typeSpec) ==>
              a.typeSpec == (if typeSpec == Undefined then Null else typeSpec) &&
              a.config == (if config == Undefined then Fresh else Given(config))
    // the type is only ever replaced by reading the options' `type` key
    ensures a.typeSpec == (if typeSpec == Undefined then Null else typeSpec) || a.config == Given(typeSpec)
  {
    var typeArg := if typeSpec == Undefined then Null else typeSpec;
    var configArg := if config == Undefined then Fresh else Given(config);
    if config.Fn? then Args(dflt, typeArg, Fresh, Some(config.id))
    else if IsPlainObject(dflt) && !Truthy(typeArg) then Args(dflt, typeArg, Given(dflt), None)
    else if IsPlainObject(typeArg) then Args(dflt, LookupOr(Given(typeArg), "type", Null), Given(typeArg), None)
    else Args(dflt, typeArg, configArg, None)
  }

  // ---------------------------------------------------------------------------
  // The default factory

  datatype Factory =
    /** Call this value with no arguments (a TypeError when it is not callable). */
    | Invoke(f: Value)
    /** Make a new array holding the current elements of `source`. */
    | CopyOf(source: JsObject)
    /** Return this value itself. */
    | Constant(value: Value)

  /**
   * The `start` factory and the final `setOnGet` flag. An explicit truthy
   * `start` is used as given; otherwise a function default (unless the type is
   * `'function'`) is the factory, an array default is copied on every call,
   * and any other default is returned as is. Function and array defaults
   * force `setOnGet`.
   */
  function BuildFactory(dflt: Value, typeSpec: Value, start: Value, setOnGet: bool): (r: (Factory, bool))
    ensures Truthy(start) ==> r == (Invoke(start), setOnGet)
    ensures !Truthy(start) && dflt.Fn? && typeSpec != Str("function") ==> r == (Invoke(dflt), true)
    ensures !Truthy(start) && IsArray(dflt) ==> r == (CopyOf(dflt.obj), true)
    ensures !Truthy(start) && !IsArray(dflt) && !(dflt.Fn? && typeSpec != Str("function")) ==>
              r == (Constant(dflt), setOnGet)
    // only an explicit start or a function default is ever invoked
    ensures r.0.Invoke? ==> r.0.f == start || r.0.f == dflt
    ensures r.0.CopyOf? ==> dflt == Ref(r.0.source) && r.1
  {
    if Truthy(start) then (Invoke(start), setOnGet)
    else if dflt.Fn? && typeSpec != Str("function") then (Invoke(dflt), true)
    else if IsArray(dflt) then (CopyOf(dflt.obj), true)
    else (Constant(dflt), setOnGet)
  }

  // ---------------------------------------------------------------------------
  // The bad-value policy (makeOnBadValue / makeOnBadValueWarn / a user handler)

  datatype Policy =
    /** The default handler: throw an Error carrying the value and the target. */
    | ThrowError(prop: string, instanceName: string, clause: string)
    /** The `'warn'` handler: log a line and leave the slot alone. */
    | WarnOnly(prop: string, instanceName: string, clause: string)
    /** A user handler (a TypeError when it is not callable). */
    | Custom(handler: Value)

  /** `; requires <type>` when the type is a non-empty string, else nothing. */
  function RequiresClause(typeSpec: Value): (r: string)
    ensures typeSpec.Str? && typeSpec.s != "" ==> r == "; requires " + typeSpec.s
    ensures !(typeSpec.Str? && typeSpec.s != "") ==> r == ""
  {
    if typeSpec.Str? && typeSpec.s != "" then "; requires " + typeSpec.s else ""
  }

  function BuildPolicy(prop: string, typeSpec: Value, config: Config, handler: Option<nat>, instanceName: string): (p: Policy)
    ensures handler.Some? ==> p == Custom(Fn(handler.value))
    ensures handler.None? && Lookup(config, "onBadValue") == Undefined ==>
              p == ThrowError(prop, instanceName, RequiresClause(typeSpec))
    ensures handler.None? && Lookup(config, "onBadValue") == Str("warn") ==>
              p == WarnOnly(prop, instanceName, RequiresClause(typeSpec))
    ensures handler.None? && Lookup(config, "onBadValue") !in {Undefined, Str("warn")} ==>
              p == Custom(Lookup(config, "onBadValue"))
  {
    if handler.Some? then Custom(Fn(handler.value))
    else
      var given := Lookup(config, "onBadValue");
      if given == Undefined then ThrowError(prop, instanceName, RequiresClause(typeSpec))
      else if given == Str("warn") then WarnOnly(prop, instanceName, RequiresClause(typeSpec))
      else Custom(given)
  }

  // ---------------------------------------------------------------------------
  // The validator

  /** A `config.test` value that survives as the validator only when it is a function. */
  function FromTest(test: Value): (v: Validator)
    ensures v.NoCheck? || v.PredicateWithInstance?
    ensures v.PredicateWithInstance? <==> test.Fn?
  {
    if test.Fn? then PredicateWithInstance(test.id) else NoCheck
  }

  /**
   * The validator: a truthy typeSpec wins (string, function or RegExp); with no
   * typeSpec, a string `config.test` names a library predicate; a `config.test`
   * function is used as is; anything else disables validation. A string type
   * or test the library lacks is the registration error `no test named <t>`.
   */
  function BuildValidator(prop: string, typeSpec: Value, config: Config): (r: Result<Validator, string>)
    ensures Truthy(typeSpec) && typeSpec.Str? ==> r == MakeTypeTest(prop, typeSpec.s)
    ensures Truthy(typeSpec) && typeSpec.Fn? ==> r == Ok(PredicateWithName(typeSpec.id, prop))
    ensures Truthy(typeSpec) && IsRegExp(typeSpec) ==> r == Ok(PatternTest(prop, typeSpec.obj.kind.pattern))
    ensures Truthy(typeSpec) && !typeSpec.Str? && !typeSpec.Fn? && !IsRegExp(typeSpec) ==>
              r == Ok(FromTest(LookupOr(config, "test", Null)))
    ensures !Truthy(typeSpec) && LookupOr(config, "test", Null).Str? ==>
              r == MakeTypeTest(prop, LookupOr(config, "test", Null).s)
    ensures !Truthy(typeSpec) && !LookupOr(config, "test", Null).Str? ==>
              r == Ok(FromTest(LookupOr(config, "test", Null)))
    ensures r.Err? ==> exists t :: r.error == "no test named " + t && t !in KnownTypes
  {
    var test := LookupOr(config, "test", Null);
    if Truthy(typeSpec) then
      if typeSpec.Str? then MakeTypeTest(prop, typeSpec.s)
      else if typeSpec.Fn? then Ok(PredicateWithName(typeSpec.id, prop))
      else if IsRegExp(typeSpec) then Ok(PatternTest(prop, typeSpec.obj.kind.pattern))
      else Ok(FromTest(test))
    else if test.Str? then MakeTypeTest(prop, test.s)
    else Ok(FromTest(test))
  }

  // ---------------------------------------------------------------------------
  // The whole resolution

  datatype Listener =
    /** The built-in `() => {}`. */
    | NoOpListener
    /** A configured `onChange` value (a TypeError when called and not callable). */
    | Listener(f: Value)

  /** One registered property, ready for its accessors and the schema. */
  datatype PropSpec = PropSpec(
    name: string,
    localName: string,
    enumerable: bool,
    setOnGet: bool,
    start: Factory,
    onChange: Listener,
    onBadValue: Policy,
    validator: Validator,
    typeSpec: Value,
    config: Config)

  /** Errors `addProp` raises. */
  datatype AddError =
    /** `new Error(message)`: a bad property name or an unknown typeSpec name. */
    | ConfigError(message: string)
    /** The TypeError of `'defaultValue' in config` when the options are not an object. */
    | NotAnObject(config: Value)
    /** The TypeError of redefining a non-configurable property. */
    | CannotRedefine(name: string)

  /** The options value is something the `in` operator accepts. */
  predicate ConfigIsObject(c: Config)
  {
    c.Fresh? || IsObject(c.v)
  }

  /**
   * The option lookups, the default factory, the bad-value policy and the
   * validator for the property `prop`, once the arguments are disambiguated and
   * the options are known to be an object. The only error left is an unknown
   * type name.
   */
  function Assemble(prop: string, a: Args, instanceName: string): (r: Result<PropSpec, AddError>)
    requires ConfigIsObject(a.config)
    ensures r.Ok? ==> r.value.name == prop && r.value.typeSpec == a.typeSpec && r.value.config == a.config
    ensures r.Err? <==> BuildValidator(prop, a.typeSpec, a.config).Err?
    ensures r.Ok? ==> r.value.validator == BuildValidator(prop, a.typeSpec, a.config).value
    ensures r.Ok? ==> r.value.onBadValue == BuildPolicy(prop, a.typeSpec, a.config, a.handler, instanceName)
    // the factory sees the options' `defaultValue` when it has one, else the default argument
    ensures r.Ok? ==>
              ((r.value.start, r.value.setOnGet) ==
               BuildFactory(if HasKey(a.config, "defaultValue") then Lookup(a.config, "defaultValue") else a.dflt,
                            a.typeSpec, LookupOr(a.config, "start", Bool(false)),
                            Truthy(LookupOr(a.config, "setOnGet", Bool(true)))))
    // options that are absent take their documented defaults
    ensures r.Ok? && !HasKey(a.config, "localName") ==> r.value.localName == "_" + prop
    ensures r.Ok? && !HasKey(a.config, "onChange") ==> r.value.onChange == NoOpListener
    ensures r.Ok? && !HasKey(a.config, "enumerable") ==> r.value.enumerable
    // options that are given are used: a string `localName` is the slot, a defined
    // `onChange` the listener, and a defined `enumerable` is taken by truthiness
    ensures r.Ok? && Lookup(a.config, "localName").Str? ==> r.value.localName == Lookup(a.config, "localName").s
    ensures r.Ok? && Lookup(a.config, "onChange") != Undefined ==> r.value.onChange == Listener(Lookup(a.config, "onChange"))
    ensures r.Ok? && Lookup(a.config, "enumerable") != Undefined ==>
              r.value.enumerable == Truthy(Lookup(a.config, "enumerable"))
    ensures r.Err? ==> r == Err(ConfigError(BuildValidator(prop, a.typeSpec, a.config).error))
  {
    var setOnGet := Truthy(LookupOr(a.config, "setOnGet", Bool(true)));
    var localName := PropertyKey(LookupOr(a.config, "localName", Str("_" + prop)));
    var start := LookupOr(a.config, "start", Bool(false));
    var onChange := Lookup(a.config, "onChange");
    var enumerable := Truthy(LookupOr(a.config, "enumerable", Bool(true)));
    var d := if HasKey(a.config, "defaultValue") then Lookup(a.config, "defaultValue") else a.dflt;
    var policy := BuildPolicy(prop, a.typeSpec, a.config, a.handler, instanceName);
    var factory := BuildFactory(d, a.typeSpec, start, setOnGet);
    match BuildValidator(prop, a.typeSpec, a.config)
    case Err(m) => Err(ConfigError(m))
    case Ok(validator) =>
      Ok(PropSpec(prop, localName, enumerable, factory.1, factory.0,
                  if onChange == Undefined then NoOpListener else Listener(onChange),
                  policy, validator, a.typeSpec, a.config))
  }

  /**
   * `addProp`'s computation up to the point where it installs anything. The
   * name check comes first, then the `in` test on the options, then the
   * validator lookup; the first failing one is the error.
   */
  function Resolve(name: Value, dflt: Value, typeSpec: Value, config: Value, instanceName: string): (r: Result<PropSpec, AddError>)
    reads Objs(name)
    ensures NameCheck(name).Some? ==> r == Err(ConfigError(NameCheck(name).value))
    ensures r.Ok? ==> name.Str? && IsWordName(name.s) && r.value.name == name.s
    ensures NameCheck(name).None? && !ConfigIsObject(Disambiguate(dflt, typeSpec, config).config) ==>
              r == Err(NotAnObject(Disambiguate(dflt, typeSpec, config).config.v))
    ensures r.Err? && r.error.ConfigError? && NameCheck(name).None? ==>
              exists t :: r.error.message == "no test named " + t && t !in KnownTypes
    ensures r.Err? ==> !r.error.CannotRedefine?
    ensures r.Ok? ==> r.value.typeSpec == Disambiguate(dflt, typeSpec, config).typeSpec
    ensures r.Ok? ==> r.value.config == Disambiguate(dflt, typeSpec, config).config
    ensures NameCheck(name).None? && ConfigIsObject(Disambiguate(dflt, typeSpec, config).config) ==>
              r == Assemble(name.s, Disambiguate(dflt, typeSpec, config), instanceName)
  {
    match NameCheck(name)
    case Some(m) => Err(ConfigError(m))
    case None =>
      var a := Disambiguate(dflt, typeSpec, config);
      if !ConfigIsObject(a.config) then Err(NotAnObject(a.config.v))
      else Assemble(name.s, a, instanceName)
  }
}
