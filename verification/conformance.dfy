/**
 * Concrete behaviour of `addProp` and its accessors, stated about the model.
 * From the repository's test file: exact messages, array-default isolation,
 * the shared-reference hazard of other object defaults, functional
 * initialisers, rejection and repair. From the code itself: how each argument
 * form resolves, the `'warn'` handler, lazy reads, change notification and
 * the schema.
 */
module Conformance {
  import opened Wrappers
  import opened Values
  import opened Validators
  import opened Resolution
  import opened Accessors
  import opened Registry

  // ---------------------------------------------------------------------------
  // Exact messages

  /** `-1` prints as `-1`. */
  lemma MinusOnePrints()
    ensures ToString(Int(-1)) == "-1"
  {
    assert NatToString(1) == "1";
  }

  /** `['Bob']` prints as `Bob`: the array's one element, unbracketed and unquoted. */
  lemma BobArrayPrints(bob: JsObject)
    requires bob.kind.ArrayKind? && bob.elems == [Str("Bob")]
    ensures ToString(Ref(bob)) == "Bob"
  {
    assert Join([Str("Bob")]) == "Bob";
  }

  /**
   * `mike.first = -1` on a `'string'` property: the message template filled
   * with the property name, the value as it prints, and the type name.
   */
  lemma StringTestMessageForNumber()
    ensures Check(TypeTest("first", "string"), Int(-1), Null) ==
            Some(Str("attempt to assign bad value to " + "first" + " " + "-1" + " failed type test " + "string"))
  {
    MinusOnePrints();
  }

  /** `mike.first = ['Bob']` on a `'string'` property: the array prints as its elements. */
  lemma StringTestMessageForArray(bob: JsObject)
    requires bob.kind.ArrayKind? && bob.elems == [Str("Bob")]
    ensures Check(TypeTest("first", "string"), Ref(bob), Null) ==
            Some(Str("attempt to assign bad value to " + "first" + " " + "Bob" + " failed type test " + "string"))
  {
    BobArrayPrints(bob);
  }

  /** The RegExp test gives the string type-test message for a non-string, never its own. */
  lemma PatternTestMessageForArray(bob: JsObject)
    requires bob.kind.ArrayKind? && bob.elems == [Str("Bob")]
    ensures Check(PatternTest("first", WordPattern), Ref(bob), Null) ==
            Some(Str("attempt to assign bad value to " + "first" + " " + "Bob" + " failed type test " + "string"))
  {
    StringTestMessageForArray(bob);
  }

  /** A string the pattern refuses gets the quoted-value message naming the pattern. */
  lemma PatternTestMessageForString()
    ensures Check(PatternTest("first", WordPattern), Str("$sapphireWonderLoveBead"), Null) ==
            Some(Str("attempt to assign bad value to " + "first" + " \"" + "$sapphireWonderLoveBead" +
                     "\" failed test /" + "^[\\w]+$" + "/"))
  {
    var s := "$sapphireWonderLoveBead";
    assert !IsWordChar(s[0]);
  }

  // ---------------------------------------------------------------------------
  // What one addProp call resolves to

  /**
   * `addProp(name, defaultValue)` with no type and no options, for a default
   * that is neither a plain object nor a function: no validation, the throwing
   * handler without a `requires` clause, slot `_name`, and the value's factory.
   */
  lemma UntypedRegistration(name: string, dflt: Value, instanceName: string)
    requires IsWordName(name) && !IsPlainObject(dflt) && !dflt.Fn?
    ensures Resolve(Str(name), dflt, Undefined, Undefined, instanceName) ==
            Ok(PropSpec(name, "_" + name, true, BuildFactory(dflt, Null, Bool(false), true).1,
                        BuildFactory(dflt, Null, Bool(false), true).0, NoOpListener,
                        ThrowError(name, instanceName, ""), NoCheck, Null, Fresh))
  {
    WordPatternMatchesWordNames(name);
    assert Disambiguate(dflt, Undefined, Undefined) == Args(dflt, Null, Fresh, None);
    assert BuildValidator(name, Null, Fresh) == Ok(NoCheck);
  }

  /** `addProp(name, f)` for a function `f`: the function is the start factory and the result is kept. */
  lemma FactoryRegistration(name: string, f: nat, instanceName: string)
    requires IsWordName(name)
    ensures Resolve(Str(name), Fn(f), Undefined, Undefined, instanceName) ==
            Ok(PropSpec(name, "_" + name, true, true, Invoke(Fn(f)), NoOpListener,
                        ThrowError(name, instanceName, ""), NoCheck, Null, Fresh))
  {
    WordPatternMatchesWordNames(name);
    assert Disambiguate(Fn(f), Undefined, Undefined) == Args(Fn(f), Null, Fresh, None);
    assert BuildValidator(name, Null, Fresh) == Ok(NoCheck);
  }

  /**
   * `addProp(name, defaultValue, typeName)` for a type name the library has:
   * the type test, and the throwing handler whose fallback line names the type.
   */
  lemma TypedRegistration(name: string, dflt: Value, typeName: string, instanceName: string)
    requires IsWordName(name) && typeName in KnownTypes
    ensures Resolve(Str(name), dflt, Str(typeName), Undefined, instanceName) ==
            Ok(PropSpec(name, "_" + name, true, BuildFactory(dflt, Str(typeName), Bool(false), true).1,
                        BuildFactory(dflt, Str(typeName), Bool(false), true).0, NoOpListener,
                        ThrowError(name, instanceName, "; requires " + typeName),
                        TypeTest(name, typeName), Str(typeName), Fresh))
  {
    WordPatternMatchesWordNames(name);
    assert typeName != "";
    assert Disambiguate(dflt, Str(typeName), Undefined) == Args(dflt, Str(typeName), Fresh, None);
    assert BuildValidator(name, Str(typeName), Fresh) == Ok(TypeTest(name, typeName));
  }

  /**
   * `addProp(name, defaultValue, typeName, handler)`: a function in the options
   * position is the bad-value handler, the options are empty and the type
   * name still selects the type test.
   */
  lemma HandledRegistration(name: string, dflt: Value, typeName: string, h: nat, instanceName: string)
    requires IsWordName(name) && typeName in KnownTypes
    ensures Resolve(Str(name), dflt, Str(typeName), Fn(h), instanceName) ==
            Ok(PropSpec(name, "_" + name, true, BuildFactory(dflt, Str(typeName), Bool(false), true).1,
                        BuildFactory(dflt, Str(typeName), Bool(false), true).0, NoOpListener,
                        Custom(Fn(h)), TypeTest(name, typeName), Str(typeName), Fresh))
  {
    WordPatternMatchesWordNames(name);
    assert typeName != "";
    assert Disambiguate(dflt, Str(typeName), Fn(h)) == Args(dflt, Str(typeName), Fresh, Some(h));
    assert BuildValidator(name, Str(typeName), Fresh) == Ok(TypeTest(name, typeName));
  }

  /** The options object `{ type: typeName, onBadValue: handler }`. */
  predicate TypeAndHandlerOptions(cfg: JsObject, typeName: string, handler: Value)
  {
    cfg.kind == PlainKind(map["type" := Str(typeName), "onBadValue" := handler])
  }

  /** The options above name no other option. */
  lemma OtherOptionsAbsent(cfg: JsObject, typeName: string, handler: Value)
    requires TypeAndHandlerOptions(cfg, typeName, handler)
    ensures Lookup(Given(Ref(cfg)), "type") == Str(typeName)
    ensures Lookup(Given(Ref(cfg)), "onBadValue") == handler
    ensures !HasKey(Given(Ref(cfg)), "localName") && !HasKey(Given(Ref(cfg)), "start")
    ensures !HasKey(Given(Ref(cfg)), "setOnGet") && !HasKey(Given(Ref(cfg)), "defaultValue")
    ensures !HasKey(Given(Ref(cfg)), "test") && !HasKey(Given(Ref(cfg)), "onChange")
    ensures !HasKey(Given(Ref(cfg)), "enumerable")
  {
  }

  /**
   * `addProp(name, defaultValue, { type: typeName, onBadValue: handler })`: a
   * plain object in the type position is the options, its `type` key is the
   * type, its `onBadValue` the handler (`'warn'` selects the logging one), and
   * every other option takes its default.
   */
  lemma OptionsInTypePosition(name: string, dflt: Value, cfg: JsObject, typeName: string, handler: Value, instanceName: string)
    requires IsWordName(name) && typeName in KnownTypes
    requires TypeAndHandlerOptions(cfg, typeName, handler) && handler != Undefined
    ensures Resolve(Str(name), dflt, Ref(cfg), Undefined, instanceName) ==
            Ok(PropSpec(name, "_" + name, true,
                        BuildFactory(dflt, Str(typeName), Bool(false), true).1,
                        BuildFactory(dflt, Str(typeName), Bool(false), true).0, NoOpListener,
                        if handler == Str("warn") then WarnOnly(name, instanceName, "; requires " + typeName)
                        else Custom(handler),
                        TypeTest(name, typeName), Str(typeName), Given(Ref(cfg))))
  {
    var c := Given(Ref(cfg));
    WordPatternMatchesWordNames(name);
    OtherOptionsAbsent(cfg, typeName, handler);
    assert typeName != "";
    assert Disambiguate(dflt, Ref(cfg), Undefined) == Args(dflt, Str(typeName), c, None);
    assert BuildValidator(name, Str(typeName), c) == Ok(TypeTest(name, typeName));
  }

  // ---------------------------------------------------------------------------
  // Registration scenarios

  /** A new class and a registrar for it. */
  method NewRegistrar() returns (cls: TargetClass, reg: Registrar)
    ensures fresh(cls) && cls.Valid() && cls.accessors == map[] && cls.schema == map[]
    ensures reg.target == cls && reg.instanceName == "instance"
  {
    cls := new TargetClass();
    reg := new Registrar(cls, "instance");
  }

  /** A fresh class with the one property `name` registered on it. */
  method RegisterOne(name: string, dflt: Value, typeSpec: Value, config: Value)
    returns (cls: TargetClass, reg: Registrar, p: PropSpec)
    requires Resolve(Str(name), dflt, typeSpec, config, "instance").Ok?
    ensures fresh(cls) && cls.Valid() && reg.target == cls && reg.instanceName == "instance"
    ensures cls.accessors == map[name := p]
    ensures p == Resolve(Str(name), dflt, typeSpec, config, "instance").value
  {
    cls, reg := NewRegistrar();
    var added := reg.AddProp(Str(name), dflt, typeSpec, config);
    p := cls.accessors[name];
  }

  /**
   * `addProp(name, ['stupid', 'fat', 'smelly'])`: two instances that never
   * assign the property read two different arrays with the default's elements,
   * so a push through one is not seen through the other.
   */
  method ArrayDefaultsAreNotShared(name: string, flaws: JsObject) returns (mine: JsObject, yours: JsObject)
    requires IsWordName(name) && flaws.kind.ArrayKind?
    ensures mine != yours && mine != flaws && yours != flaws
    ensures mine.kind.ArrayKind? && yours.kind.ArrayKind?
    ensures mine.elems == flaws.elems + [Str("short")] && yours.elems == flaws.elems
  {
    UntypedRegistration(name, Ref(flaws), "instance");
    var cls, reg, p := RegisterOne(name, Ref(flaws), Undefined, Undefined);
    var mike := new Instance();
    var bob := new Instance();
    var r1, _ := Get(p, mike, Undefined);
    var r2, _ := Get(p, bob, Undefined);
    mine, yours := r1.value.obj, r2.value.obj;
    mine.elems := mine.elems + [Str("short")];
  }

  /**
   * `addProp(name, new Map())`: every instance reads the very same object,
   * the hazard the array copy avoids.
   */
  method OtherObjectDefaultsAreShared(name: string, m: JsObject) returns (v1: Value, v2: Value)
    requires IsWordName(name) && m.kind == OtherKind("Map")
    ensures v1 == Ref(m) && v2 == Ref(m)
  {
    UntypedRegistration(name, Ref(m), "instance");
    var cls, reg, p := RegisterOne(name, Ref(m), Undefined, Undefined);
    var a1 := new Instance();
    var a2 := new Instance();
    var r1, _ := Get(p, a1, Undefined);
    var r2, _ := Get(p, a2, Undefined);
    v1, v2 := r1.value, r2.value;
  }

  /**
   * `addProp(name, () => new Map())`: the function is a factory, called once
   * per instance on its first read; its result is stored, so a second read
   * calls nothing and returns the same object.
   */
  method FunctionalInitializersRunPerInstance(name: string, f: nat, m1: JsObject, m2: JsObject)
    returns (v1: Value, v2: Value, again: Value, e1: seq<Effect>, e2: seq<Effect>, e3: seq<Effect>)
    requires IsWordName(name) && m1 != m2
    ensures v1 == Ref(m1) && v2 == Ref(m2) && v1 != v2
    ensures e1 == [Call(f, [])] && e2 == [Call(f, [])]
    ensures again == v1 && e3 == []
  {
    FactoryRegistration(name, f, "instance");
    var cls, reg, p := RegisterOne(name, Fn(f), Undefined, Undefined);
    var a1 := new Instance();
    var a2 := new Instance();
    var r1, r2, r3;
    r1, e1 := Get(p, a1, Ref(m1));
    r2, e2 := Get(p, a2, Ref(m2));
    r3, e3 := Get(p, a1, Ref(m2));
    v1, v2, again := r1.value, r2.value, r3.value;
  }

  /** `addProp(name, '', 'string')` on a fresh class. */
  method RegisterString(name: string) returns (p: PropSpec)
    requires IsWordName(name)
    ensures p.name == name && p.localName == "_" + name && p.validator == TypeTest(name, "string")
    ensures p.onBadValue == ThrowError(name, "instance", "; requires string") && p.onChange == NoOpListener
  {
    assert "string" in KnownTypes;
    TypedRegistration(name, Str(""), "string", "instance");
    var cls, reg;
    cls, reg, p := RegisterOne(name, Str(""), Str("string"), Undefined);
  }

  /** The property above, and one instance that is assigned the string `good`. */
  method StringPropertyHolding(name: string, good: string) returns (p: PropSpec, mike: Instance)
    requires IsWordName(name)
    ensures fresh(mike) && mike.slots == map["_" + name := Str(good)]
    ensures p.name == name && p.localName == "_" + name && p.validator == TypeTest(name, "string")
    ensures p.onBadValue == ThrowError(name, "instance", "; requires string")
  {
    p := RegisterString(name);
    mike := new Instance();
    var first, _ := Set(p, mike, Str(good), Null);
  }

  /**
   * `addProp(name, '', 'string')`: a string is stored; a non-string is refused
   * by the type test, the default handler throws the validator's message with
   * the value and the instance attached, and the stored string stays.
   */
  method StringPropertyRefusesNonString(name: string, good: string, bad: Value)
    returns (mike: Instance, out: SetOutcome, effects: seq<Effect>)
    requires IsWordName(name) && !bad.Str?
    ensures out == Rejected(Str(TypeMessage(name, bad, "string")))
    ensures effects == [Throw(BadValue(TypeMessage(name, bad, "string"), bad, mike))]
    ensures mike.slots == map["_" + name := Str(good)]
  {
    var p;
    p, mike := StringPropertyHolding(name, good);
    out, effects := Set(p, mike, bad, Null);
  }

  /**
   * `addProp(name, '', goodName)`: a function type is a predicate called with
   * the value and the property name, and the throwing handler has no
   * `; requires` clause since the type is not a string.
   */
  lemma PredicateRegistration(name: string, g: nat, instanceName: string)
    requires IsWordName(name)
    ensures Resolve(Str(name), Str(""), Fn(g), Undefined, instanceName) ==
            Ok(PropSpec(name, "_" + name, true, true, Constant(Str("")), NoOpListener,
                        ThrowError(name, instanceName, ""), PredicateWithName(g, name), Fn(g), Fresh))
  {
    WordPatternMatchesWordNames(name);
    assert Disambiguate(Str(""), Fn(g), Undefined) == Args(Str(""), Fn(g), Fresh, None);
    assert BuildValidator(name, Fn(g), Fresh) == Ok(PredicateWithName(g, name));
  }

  /** The property above on a fresh class. */
  method RegisterPredicate(name: string, g: nat) returns (p: PropSpec)
    requires IsWordName(name)
    ensures p.name == name && p.localName == "_" + name && p.validator == PredicateWithName(g, name)
    ensures p.onBadValue == ThrowError(name, "instance", "") && p.onChange == NoOpListener
  {
    PredicateRegistration(name, g, "instance");
    var cls, reg;
    cls, reg, p := RegisterOne(name, Str(""), Fn(g), Undefined);
  }

  /** A string the predicate accepts (it returns `false`) is stored after one call `(value, name)`. */
  method PredicatePropertyHolding(name: string, g: nat, good: string)
    returns (p: PropSpec, mike: Instance, accepted: seq<Effect>)
    requires IsWordName(name)
    ensures fresh(mike) && mike.slots == map["_" + name := Str(good)]
    ensures accepted == [Call(g, [Str(good), Str(name)])]
    ensures p.name == name && p.localName == "_" + name && p.validator == PredicateWithName(g, name)
    ensures p.onBadValue == ThrowError(name, "instance", "")
  {
    p := RegisterPredicate(name, g);
    mike := new Instance();
    var first;
    first, accepted := Set(p, mike, Str(good), Bool(false));
  }

  /**
   * A value the predicate refuses with a message: the predicate is called with
   * the value and the property name, the default handler throws that message
   * with the value and the instance attached, and the stored string stays.
   */
  method PredicateRefusalThrowsItsMessage(name: string, g: nat, good: string, bad: Value, msg: string)
    returns (mike: Instance, out: SetOutcome, effects: seq<Effect>)
    requires IsWordName(name) && bad != Str(good) && msg != ""
    ensures out == Rejected(Str(msg))
    ensures effects == [Call(g, [bad, Str(name)]), Throw(BadValue(msg, bad, mike))]
    ensures mike.slots == map["_" + name := Str(good)]
  {
    var p, e1;
    p, mike, e1 := PredicatePropertyHolding(name, g, good);
    out, effects := Set(p, mike, bad, Str(msg));
  }

  /**
   * `addProp(name, '', { test: t })`: with no type, a `config.test` function is
   * the predicate, called with the value and the instance.
   */
  lemma InstanceTestOptions(name: string, cfg: JsObject, t: nat, instanceName: string)
    requires IsWordName(name) && cfg.kind == PlainKind(map["test" := Fn(t)])
    ensures Resolve(Str(name), Str(""), Ref(cfg), Undefined, instanceName) ==
            Ok(PropSpec(name, "_" + name, true, true, Constant(Str("")), NoOpListener,
                        ThrowError(name, instanceName, ""), PredicateWithInstance(t), Null, Given(Ref(cfg))))
  {
    var c := Given(Ref(cfg));
    WordPatternMatchesWordNames(name);
    assert !HasKey(c, "localName") && !HasKey(c, "start") && !HasKey(c, "type") && !HasKey(c, "setOnGet");
    assert !HasKey(c, "onChange") && !HasKey(c, "enumerable") && !HasKey(c, "onBadValue") && !HasKey(c, "defaultValue");
    assert Lookup(c, "test") == Fn(t);
    assert Disambiguate(Str(""), Ref(cfg), Undefined) == Args(Str(""), Null, c, None);
    assert BuildValidator(name, Null, c) == Ok(PredicateWithInstance(t));
  }

  /** The property above on a fresh class. */
  method RegisterWithInstanceTest(name: string, cfg: JsObject, t: nat) returns (p: PropSpec)
    requires IsWordName(name) && cfg.kind == PlainKind(map["test" := Fn(t)])
    ensures p.name == name && p.localName == "_" + name && p.validator == PredicateWithInstance(t)
    ensures p.onBadValue == ThrowError(name, "instance", "") && p.onChange == NoOpListener
  {
    InstanceTestOptions(name, cfg, t, "instance");
    var cls, reg;
    cls, reg, p := RegisterOne(name, Str(""), Ref(cfg), Undefined);
  }

  /**
   * A value `config.test` refuses with a message: the test is called with the
   * value and the instance, the default handler throws that message, and the
   * slot stays UNSET.
   */
  method InstanceTestRefusalThrowsItsMessage(name: string, cfg: JsObject, t: nat, bad: Value, msg: string)
    returns (mike: Instance, out: SetOutcome, effects: seq<Effect>)
    requires IsWordName(name) && cfg.kind == PlainKind(map["test" := Fn(t)]) && msg != ""
    ensures out == Rejected(Str(msg))
    ensures effects == [Call(t, [bad, Inst(mike)]), Throw(BadValue(msg, bad, mike))]
    ensures mike.slots == map[]
  {
    var p := RegisterWithInstanceTest(name, cfg, t);
    mike := new Instance();
    out, effects := Set(p, mike, bad, Str(msg));
  }

  /** `addProp(name, 0, 'integer', handler)` on a fresh class. */
  method RegisterInteger(name: string, h: nat) returns (p: PropSpec)
    requires IsWordName(name)
    ensures p.name == name && p.localName == "_" + name && p.validator == TypeTest(name, "integer")
    ensures p.onBadValue == Custom(Fn(h)) && p.onChange == NoOpListener
    ensures p.start == Constant(Int(0)) && p.setOnGet
  {
    assert "integer" in KnownTypes;
    HandledRegistration(name, Int(0), "integer", h, "instance");
    var cls, reg;
    cls, reg, p := RegisterOne(name, Int(0), Str("integer"), Fn(h));
  }

  /** The property above, read once on a new instance: the default is stored. */
  method IntegerPropertyRead(name: string, h: nat) returns (p: PropSpec, r: Instance, v: Value)
    requires IsWordName(name)
    ensures fresh(r) && v == Int(0) && r.slots == map["_" + name := Int(0)]
    ensures p.name == name && p.localName == "_" + name && p.validator == TypeTest(name, "integer")
    ensures p.onBadValue == Custom(Fn(h)) && p.onChange == NoOpListener
  {
    p := RegisterInteger(name, h);
    r := new Instance();
    var got, _ := Get(p, r, Undefined);
    v := got.value;
  }

  /**
   * A value the integer test refuses is handed to the user handler as
   * `(value, instance, message, name)`, and the slot keeps its default.
   */
  method HandlerReceivesRefusal(name: string, h: nat, bad: Value)
    returns (p: PropSpec, r: Instance, refused: SetOutcome, effects: seq<Effect>)
    requires IsWordName(name) && !bad.Int?
    ensures fresh(r) && r.slots == map["_" + name := Int(0)]
    ensures refused == Rejected(Str(TypeMessage(name, bad, "integer")))
    ensures effects == [Call(h, [bad, Inst(r), Str(TypeMessage(name, bad, "integer")), Str(name)])]
    ensures p.localName == "_" + name && p.validator == TypeTest(name, "integer") && p.onChange == NoOpListener
  {
    var v;
    p, r, v := IntegerPropertyRead(name, h);
    refused, effects := Set(p, r, bad, Null);
  }

  /**
   * The repair pattern of `addProp('min', 0, 'integer', handler)`: after the
   * refusal above, the handler's own assignment of an integer is stored,
   * reporting the default as the previous value, with no listener to call.
   */
  method HandlerRepairsRefusedValue(name: string, h: nat, bad: Value, fixed: int)
    returns (r: Instance, refused: SetOutcome, repaired: SetOutcome, effects: seq<Effect>)
    requires IsWordName(name) && !bad.Int? && fixed != 0
    ensures refused.Rejected? && repaired == Assigned(Int(0)) && effects == []
    ensures r.slots == map["_" + name := Int(fixed)]
  {
    var p, e1;
    p, r, refused, e1 := HandlerReceivesRefusal(name, h, bad);
    repaired, effects := Set(p, r, Int(fixed), Null);
  }

  /** `addProp(name, [...], { type: 'array', onBadValue })` on a fresh class. */
  method RegisterArrayWithOptions(name: string, h: nat, flaws: JsObject, cfg: JsObject) returns (p: PropSpec)
    requires IsWordName(name) && flaws.kind.ArrayKind? && TypeAndHandlerOptions(cfg, "array", Fn(h))
    ensures p.name == name && p.localName == "_" + name && p.validator == TypeTest(name, "array")
    ensures p.onBadValue == Custom(Fn(h)) && p.start == CopyOf(flaws) && p.setOnGet
  {
    assert "array" in KnownTypes;
    OptionsInTypePosition(name, Ref(flaws), cfg, "array", Fn(h), "instance");
    var cls, reg;
    cls, reg, p := RegisterOne(name, Ref(flaws), Ref(cfg), Undefined);
  }

  /** The property above, read once on a new instance: it holds its own copy. */
  method ArrayPropertyRead(name: string, h: nat, flaws: JsObject, cfg: JsObject)
    returns (p: PropSpec, mike: Instance, copy: Value)
    requires IsWordName(name) && flaws.kind.ArrayKind? && TypeAndHandlerOptions(cfg, "array", Fn(h))
    ensures fresh(mike) && copy.Ref? && copy != Ref(flaws) && mike.slots == map["_" + name := copy]
    ensures p.name == name && p.localName == "_" + name && p.validator == TypeTest(name, "array")
    ensures p.onBadValue == Custom(Fn(h))
  {
    p := RegisterArrayWithOptions(name, h, flaws, cfg);
    mike := new Instance();
    var r, _ := Get(p, mike, Undefined);
    copy := r.value;
  }

  /**
   * `mike.flaws = 'arrogant'` with the options handler: the handler receives
   * the value and the instance, and the instance keeps its own copy.
   */
  method OptionsHandlerSeesRefusal(name: string, h: nat, flaws: JsObject, cfg: JsObject)
    returns (mike: Instance, copy: Value, out: SetOutcome, effects: seq<Effect>)
    requires IsWordName(name) && flaws.kind.ArrayKind? && TypeAndHandlerOptions(cfg, "array", Fn(h))
    ensures out == Rejected(Str(TypeMessage(name, Str("arrogant"), "array")))
    ensures effects == [Call(h, [Str("arrogant"), Inst(mike), out.message, Str(name)])]
    ensures copy.Ref? && copy != Ref(flaws) && mike.slots == map["_" + name := copy]
  {
    var p;
    p, mike, copy := ArrayPropertyRead(name, h, flaws, cfg);
    out, effects := Set(p, mike, Str("arrogant"), Null);
  }

  /** `addProp(name, '', { type: 'string', onBadValue: 'warn' })` on a fresh class. */
  method RegisterWarning(name: string, cfg: JsObject) returns (p: PropSpec)
    requires IsWordName(name) && TypeAndHandlerOptions(cfg, "string", Str("warn"))
    ensures p.name == name && p.localName == "_" + name && p.validator == TypeTest(name, "string")
    ensures p.onBadValue == WarnOnly(name, "instance", "; requires string")
  {
    assert "string" in KnownTypes;
    OptionsInTypePosition(name, Str(""), cfg, "string", Str("warn"), "instance");
    var cls, reg;
    cls, reg, p := RegisterOne(name, Str(""), Ref(cfg), Undefined);
    assert "; requires " + "string" == "; requires string";
  }

  /** With `onBadValue: 'warn'`, a refused value is only logged, naming the type. */
  method WarnHandlerOnlyLogs(name: string, cfg: JsObject, bad: Value)
    returns (mike: Instance, out: SetOutcome, effects: seq<Effect>)
    requires IsWordName(name) && TypeAndHandlerOptions(cfg, "string", Str("warn")) && !bad.Str?
    ensures out.Rejected? && mike.slots == map[]
    ensures effects == [Log("attempt to assign bad value " + ToString(bad) + (" to " + name + " of " + "instance") + "; requires string")]
  {
    var p := RegisterWarning(name, cfg);
    mike := new Instance();
    out, effects := Set(p, mike, bad, Null);
  }

  // ---------------------------------------------------------------------------
  // Options objects without a handler

  /**
   * `addProp(name, { type: typeName, defaultValue: d })`: a plain-object
   * default with no type is the options; its `defaultValue` is the default,
   * and its `type` key is never read, so with no `test` key nothing is validated.
   */
  lemma OptionsInDefaultPosition(name: string, cfg: JsObject, typeName: string, d: Value, instanceName: string)
    requires IsWordName(name)
    requires cfg.kind == PlainKind(map["type" := Str(typeName), "defaultValue" := d])
    ensures Resolve(Str(name), Ref(cfg), Undefined, Undefined, instanceName) ==
            Ok(PropSpec(name, "_" + name, true, BuildFactory(d, Null, Bool(false), true).1,
                        BuildFactory(d, Null, Bool(false), true).0, NoOpListener,
                        ThrowError(name, instanceName, ""), NoCheck, Null, Given(Ref(cfg))))
  {
    var c := Given(Ref(cfg));
    WordPatternMatchesWordNames(name);
    assert !HasKey(c, "localName") && !HasKey(c, "start") && !HasKey(c, "setOnGet");
    assert !HasKey(c, "test") && !HasKey(c, "onChange") && !HasKey(c, "enumerable") && !HasKey(c, "onBadValue");
    assert HasKey(c, "defaultValue") && Lookup(c, "defaultValue") == d;
    assert Disambiguate(Ref(cfg), Undefined, Undefined) == Args(Ref(cfg), Null, c, None);
    assert BuildValidator(name, Null, c) == Ok(NoCheck);
  }

  /** `addProp(name, { type: 'string', defaultValue: d })` on a fresh class. */
  method RegisterWithDefaultOptions(name: string, cfg: JsObject, d: Value) returns (p: PropSpec)
    requires IsWordName(name) && !d.Fn? && !IsArray(d)
    requires cfg.kind == PlainKind(map["type" := Str("string"), "defaultValue" := d])
    ensures p.name == name && p.localName == "_" + name && p.validator == NoCheck
    ensures p.start == Constant(d) && p.setOnGet && p.onChange == NoOpListener
  {
    OptionsInDefaultPosition(name, cfg, "string", d, "instance");
    var cls, reg;
    cls, reg, p := RegisterOne(name, Ref(cfg), Undefined, Undefined);
  }

  /**
   * The property above reads as the options' `defaultValue`, and, its `type`
   * being ignored, accepts a value that is not a string.
   */
  method DefaultPositionTypeIsIgnored(name: string, cfg: JsObject, d: Value, other: Value)
    returns (read: Value, out: SetOutcome, effects: seq<Effect>)
    requires IsWordName(name) && !d.Fn? && !IsArray(d) && other != d
    requires cfg.kind == PlainKind(map["type" := Str("string"), "defaultValue" := d])
    ensures read == d && out == Assigned(d) && effects == []
  {
    var p := RegisterWithDefaultOptions(name, cfg, d);
    var mike := new Instance();
    var r, _ := Get(p, mike, Undefined);
    read := r.value;
    out, effects := Set(p, mike, other, Null);
  }

  /**
   * `addProp(name, undefined, { setOnGet: false, defaultValue: d })`: a
   * plain-object type is the options; its absent `type` key leaves the
   * property unvalidated, and the slot is not written on a read.
   */
  lemma LazyOptions(name: string, cfg: JsObject, d: Value, instanceName: string)
    requires IsWordName(name) && !d.Fn? && !IsArray(d)
    requires cfg.kind == PlainKind(map["setOnGet" := Bool(false), "defaultValue" := d])
    ensures Resolve(Str(name), Undefined, Ref(cfg), Undefined, instanceName) ==
            Ok(PropSpec(name, "_" + name, true, false, Constant(d), NoOpListener,
                        ThrowError(name, instanceName, ""), NoCheck, Null, Given(Ref(cfg))))
  {
    var c := Given(Ref(cfg));
    WordPatternMatchesWordNames(name);
    assert !HasKey(c, "localName") && !HasKey(c, "start") && !HasKey(c, "type");
    assert !HasKey(c, "test") && !HasKey(c, "onChange") && !HasKey(c, "enumerable") && !HasKey(c, "onBadValue");
    assert HasKey(c, "defaultValue") && Lookup(c, "defaultValue") == d;
    assert Lookup(c, "setOnGet") == Bool(false);
    assert Disambiguate(Undefined, Ref(cfg), Undefined) == Args(Undefined, Null, c, None);
    assert BuildValidator(name, Null, c) == Ok(NoCheck);
  }

  /** With `setOnGet: false` a read returns the default and the slot stays UNSET. */
  method ReadWithoutSetOnGet(name: string, cfg: JsObject, d: Value) returns (mike: Instance, read: Value)
    requires IsWordName(name) && !d.Fn? && !IsArray(d)
    requires cfg.kind == PlainKind(map["setOnGet" := Bool(false), "defaultValue" := d])
    ensures read == d && mike.slots == map[]
  {
    LazyOptions(name, cfg, d, "instance");
    var cls, reg, p := RegisterOne(name, Undefined, Ref(cfg), Undefined);
    mike := new Instance();
    var r, _ := Get(p, mike, Undefined);
    read := r.value;
  }

  /** `addProp(name, '', { onChange: c })`: a listener and no validation. */
  lemma ListenerOptions(name: string, cfg: JsObject, c: nat, instanceName: string)
    requires IsWordName(name) && cfg.kind == PlainKind(map["onChange" := Fn(c)])
    ensures Resolve(Str(name), Str(""), Ref(cfg), Undefined, instanceName) ==
            Ok(PropSpec(name, "_" + name, true, true, Constant(Str("")), Listener(Fn(c)),
                        ThrowError(name, instanceName, ""), NoCheck, Null, Given(Ref(cfg))))
  {
    var g := Given(Ref(cfg));
    WordPatternMatchesWordNames(name);
    assert !HasKey(g, "localName") && !HasKey(g, "start") && !HasKey(g, "type") && !HasKey(g, "setOnGet");
    assert !HasKey(g, "test") && !HasKey(g, "enumerable") && !HasKey(g, "onBadValue") && !HasKey(g, "defaultValue");
    assert Lookup(g, "onChange") == Fn(c);
    assert Disambiguate(Str(""), Ref(cfg), Undefined) == Args(Str(""), Null, g, None);
    assert BuildValidator(name, Null, g) == Ok(NoCheck);
  }

  /** The property above on a fresh class. */
  method RegisterWithListener(name: string, cfg: JsObject, c: nat) returns (p: PropSpec)
    requires IsWordName(name) && cfg.kind == PlainKind(map["onChange" := Fn(c)])
    ensures p.name == name && p.localName == "_" + name && p.validator == NoCheck
    ensures p.onChange == Listener(Fn(c))
  {
    ListenerOptions(name, cfg, c, "instance");
    var cls, reg;
    cls, reg, p := RegisterOne(name, Str(""), Ref(cfg), Undefined);
  }

  /** A first assignment notifies the listener with `undefined` as the previous value. */
  method ListenerSeesFirstAssignment(name: string, cfg: JsObject, c: nat, v: Value)
    returns (p: PropSpec, mike: Instance, out: SetOutcome, effects: seq<Effect>)
    requires IsWordName(name) && cfg.kind == PlainKind(map["onChange" := Fn(c)]) && v != Undefined
    ensures fresh(mike) && mike.slots == map["_" + name := v]
    ensures out == Assigned(Undefined) && effects == [Call(c, [v, Undefined, Inst(mike), Str(name)])]
    ensures p.localName == "_" + name
  {
    p := RegisterWithListener(name, cfg, c);
    mike := new Instance();
    out, effects := Set(p, mike, v, Null);
  }

  /** Assigning the value the slot already holds runs nothing: no validator and no listener. */
  method ReassignmentIsSilent(name: string, cfg: JsObject, c: nat, v: Value)
    returns (out: SetOutcome, effects: seq<Effect>)
    requires IsWordName(name) && cfg.kind == PlainKind(map["onChange" := Fn(c)]) && v != Undefined
    ensures out == Unchanged && effects == []
  {
    var p, mike, first, e1 := ListenerSeesFirstAssignment(name, cfg, c, v);
    out, effects := Set(p, mike, v, Null);
  }

  /**
   * Assigning `undefined` to an UNSET slot stores it (the slot becomes SET)
   * but calls no listener, since the value equals the previous `undefined`.
   */
  method UndefinedFirstAssignmentIsUnnoticed(name: string, cfg: JsObject, c: nat)
    returns (mike: Instance, out: SetOutcome, effects: seq<Effect>)
    requires IsWordName(name) && cfg.kind == PlainKind(map["onChange" := Fn(c)])
    ensures out == Assigned(Undefined) && effects == [] && mike.slots == map["_" + name := Undefined]
  {
    var p := RegisterWithListener(name, cfg, c);
    mike := new Instance();
    out, effects := Set(p, mike, Undefined, Null);
  }

  // ---------------------------------------------------------------------------
  // The schema and registration errors

  /** `addProp(name)` on a registrar whose class does not yet manage `name`. */
  method AddUntyped(reg: Registrar, name: string) returns (r: Result<Registrar, AddError>)
    requires IsWordName(name) && reg.target.Valid() && name !in reg.target.accessors
    modifies reg.target
    ensures reg.target.Valid() && r == Ok(reg)
    ensures reg.target.accessors.Keys == old(reg.target.accessors.Keys) + {name}
    ensures reg.target.schema == old(reg.target.schema)[name := SchemaDef(name, Null, Fresh)]
  {
    UntypedRegistration(name, Undefined, reg.instanceName);
    r := reg.AddProp(Str(name), Undefined, Undefined, Undefined);
  }

  /** Two properties registered in a chain: each has its schema entry, and each call returns the registrar. */
  method SchemaRecordsEachName(a: string, b: string) returns (cls: TargetClass, reg: Registrar)
    requires IsWordName(a) && IsWordName(b) && a != b
    ensures fresh(cls) && cls.Valid() && reg.target == cls
    ensures cls.accessors.Keys == {a, b}
    ensures cls.schema == map[a := SchemaDef(a, Null, Fresh), b := SchemaDef(b, Null, Fresh)]
  {
    cls, reg := NewRegistrar();
    var r1 := AddUntyped(reg, a);
    var r2 := AddUntyped(reg, b);
  }

  /** Registering a name a second time is refused and changes nothing. */
  method RedefinitionIsRefused(a: string, b: string, d: Value)
    returns (cls: TargetClass, r: Result<Registrar, AddError>)
    requires IsWordName(a) && IsWordName(b) && a != b && !IsPlainObject(d) && !d.Fn?
    ensures r == Err(CannotRedefine(a))
    ensures cls.schema == map[a := SchemaDef(a, Null, Fresh), b := SchemaDef(b, Null, Fresh)]
  {
    var reg;
    cls, reg := SchemaRecordsEachName(a, b);
    UntypedRegistration(a, d, "instance");
    r := reg.AddProp(Str(a), d, Undefined, Undefined);
  }

  /** A name that is not a word is refused with the name test's message, before anything is installed. */
  method BadNameRegistersNothing(name: Value, dflt: Value, typeSpec: Value, config: Value)
    returns (cls: TargetClass, r: Result<Registrar, AddError>)
    requires !(name.Str? && IsWordName(name.s))
    ensures r == Err(ConfigError(NameCheck(name).value))
    ensures name.Str? ==> r == Err(ConfigError(PatternMessage("property", name.s, WordPattern)))
    ensures cls.accessors == map[] && cls.schema == map[]
  {
    var reg;
    cls, reg := NewRegistrar();
    r := reg.AddProp(name, dflt, typeSpec, config);
  }

  /** A type name the library lacks is refused at registration, before anything is installed. */
  method UnknownTypeRegistersNothing(name: string, typeName: string)
    returns (cls: TargetClass, r: Result<Registrar, AddError>)
    requires IsWordName(name) && typeName != "" && typeName !in KnownTypes
    ensures r == Err(ConfigError("no test named " + typeName))
    ensures cls.accessors == map[] && cls.schema == map[]
  {
    var reg;
    cls, reg := NewRegistrar();
    WordPatternMatchesWordNames(name);
    assert Disambiguate(Str(""), Str(typeName), Undefined) == Args(Str(""), Str(typeName), Fresh, None);
    r := reg.AddProp(Str(name), Str(""), Str(typeName), Undefined);
  }
}
