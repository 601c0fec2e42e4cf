# propper-2: the property-registration engine, in Dafny

`Propper` registers managed properties on a JavaScript class.
`addProp(name, defaultValue, type, config)` does the following:

- checks the name against `^[\w]+$`;
- works out which positional argument carries the options;
- builds a validator from a type name, a RegExp, a predicate function or `config.test`;
- builds a start factory for the default;
- picks a bad-value handler (throw, `'warn'`, or the user's own);
- installs a getter/setter pair on the class prototype;
- records `SchemaDef(name, type, config)` in the class's `__schema` map.

Each instance keeps the property's value in a storage slot, `_name` by default. The slot is either UNSET or SET. The getter is lazy, and `setOnGet` decides whether the first read stores what it produced. The setter works in three steps:

1. It does nothing when the slot already holds the very same value.
2. Otherwise it runs the validator. A refused value goes to the handler and leaves the slot alone.
3. An accepted value is stored, and `onChange` is called when the value differs from the previous one.

The project has these modules:

- `Values` (`values.dfy`) defines the JavaScript values the engine tells apart:
  - primitives;
  - callables, by identity;
  - heap objects, by reference. `JsObject` is a class: arrays have mutable elements, plain objects have own properties, RegExps have a pattern, and other built-ins such as `Map` have a tag.
  - instances of the target class. `Instance` is a class with a `slots` map, so a missing key is the UNSET state.

  It also holds a fixed subset of the `is` predicate library and the string coercion that message templates apply.
- `Validators` (`validators.dfy`) holds `makeTypeTest`, `makeRETest`, `propNameTest` and the `Validator` variants.
  - The name pattern `^[\w]+$` has a concrete matcher. It is proved to accept exactly the non-empty strings of ASCII letters, digits and `_`.
- `Resolution` (`resolution.dfy`) turns one `addProp` call into a `PropSpec`: argument disambiguation, option lookups, the default factory, the bad-value policy and the validator. The result is either the spec or the error `addProp` throws.
- `Accessors` (`accessors.dfy`) holds the generated `get` and `set`. They are methods that change an `Instance`'s slots.
  - Calls into user code are not executed. They are returned as `Effect`s: the function called and its arguments, a console line, or a thrown error.
  - What a user function returns on the call (a validator's verdict, a start function's product) is a parameter.
- `Registry` (`registry.dfy`) holds the target class, which has the installed accessors and the schema map, and the registrar, whose `AddProp` installs a property and its schema entry. The invariant `Consistent` is preserved by every registration: the class's accessors and its schema cover the same names and agree on each name's type and options.
- `Conformance` (`conformance.dfy`) states concrete behaviour of `addProp` and its accessors as lemmas and small methods over the model: exact messages, array-default isolation, shared object defaults, functional initialisers, custom predicates, and rejection and repair, as the repository's test file checks them; and how each argument form resolves, the `'warn'` handler, lazy reads, change notification and the schema, as the code defines them.

Points where the code's behaviour is easy to misread:

- **Re-registration.** Registering a name a second time on the same class is an error (`CannotRedefine`) and changes nothing. The descriptor is defined with `configurable: false`, so the host refuses the second `Object.defineProperty`.
- **Unknown type names.** The message is `no test named <type>`.
- **Arrays in messages.** An array prints as its comma-joined elements, so `['Bob']` appears as `Bob`.
- **The `'warn'` handler.** It logs its own line (`attempt to assign bad value <v> to <name> of <instanceName>[; requires <type>]`), not the validator's message.
- **`config.test`.** A `config.test` function is called as `(value, instance)`. A function given as the type is called as `(value, name)`.
- **Options in the default position.** When a plain-object default is taken as the options (no type given), its `type` key is never read, so the property is validated only through a `test` option.

## Model

| member | source | states |
|---|---|---|
| Validators.WordStarMatchesWordChars | src/Propper.js:35 | `[\w]*$` matches a string exactly when every character is a word character |
| Validators.WordPatternMatchesWordNames | src/Propper.js:35 | `^[\w]+$` matches exactly the non-empty strings of ASCII letters, digits and `_` |
| Validators.TypeCheck | src/Propper.js:13-22 | the type test returns no message exactly when the library predicate holds, and otherwise `attempt to assign bad value to <name> <value> failed type test <type>` |
| Validators.PatternCheck | src/Propper.js:24-33 | a non-string gets exactly the string type-test message and is never matched; a string is accepted exactly when the pattern matches it, and is otherwise refused with the quoted-value message naming the pattern |
| Validators.NameCheck | src/Propper.js:35 | a name passes exactly when it is a string of one or more word characters; a non-string gets the string type-test message under the label `property`, a bad string the pattern message |
| Validators.MakeTypeTest | src/Propper.js:13-22 | a type name builds a test exactly when the library has it; otherwise the error is `no test named <type>` |
| Validators.Check | src/Propper.js:189-191 | a validator's verdict on a value: a refusal is always truthy; no check accepts everything; the type and pattern tests are as above; a user predicate refuses exactly when it returns a truthy value, which is then the message |
| Values.ToString | src/Propper.js:18 | the `${value}` coercion of a message template: a string prints as itself, an integer in decimal, `undefined` and `null` by name, and an array as its elements joined by commas (`Join`), so a one-string array prints as that string |
| Values.Join | src/Propper.js:18 | `Array.prototype.join`: no elements give the empty text, one element its own text; otherwise the text starts with the first element's text and ends with a comma and the last element's text |
| Values.JoinSeparatesElements | src/Propper.js:18 | when no element prints with a comma, the joined text holds exactly one comma fewer than there are elements |
| Resolution.Lookup | src/Propper.js:113-114 | `config[key]` is the options' own value for a key they have, and `undefined` for a key they lack |
| Resolution.LookupOr | src/Propper.js:107-112 | an option lookup yields the option's value unless it is missing or `undefined`, in which case it yields the default |
| Resolution.Disambiguate | src/Propper.js:91-100 | precedence of the overloaded arguments: a function options argument is the handler and the options become `{}`; else a plain-object default with no type is the options and the type stays falsy; else a plain-object type is the options and its `type` key becomes the type; the type changes only by that lookup |
| Resolution.BuildFactory | src/Propper.js:134-149 | an explicit truthy `start` is used as is; else a function default (unless the type is `'function'`) is the factory; else an array default is copied on each call; else the default itself is returned; function and array defaults force `setOnGet` |
| Resolution.RequiresClause | src/Propper.js:46-50 | the handler's `; requires <type>` clause appears exactly when the type is a non-empty string |
| Resolution.BuildPolicy | src/Propper.js:117-120 | a handler from the options position wins; else an absent `onBadValue` gives the throwing handler, `'warn'` the logging one, and any other value is used as the handler |
| Resolution.FromTest | src/Propper.js:165-167 | a `config.test` value that is not a function leaves the property unvalidated |
| Resolution.BuildValidator | src/Propper.js:151-167 | a truthy string type selects the library test, a function type a name-predicate, a RegExp type the pattern test, and any other truthy type the `config.test` function if there is one; with no type a string `config.test` selects the library test; every error is `no test named <t>` for a name the library lacks |
| Resolution.Assemble | src/Propper.js:107-120 | the options' `defaultValue` replaces the default; absent `localName`, `onChange` and `enumerable` take `_<name>`, no listener and `true`, while given ones are used (a string `localName` is the slot, a defined `onChange` the listener, a defined `enumerable` taken by truthiness); the factory, policy and validator are those defined above; an unknown type name is the only error |
| Resolution.Resolve | src/Propper.js:87-167 | the name check comes first and its message is the error; a successful resolution has a word name; options that are not an object are the `in` operator's TypeError; a type error names a type the library lacks; the recorded type and options are the disambiguated ones |
| Accessors.ValidatorCalls | src/Propper.js:189-190 | a type function is called as `(value, name)`, a `config.test` function as `(value, instance)`, and the built-in tests call no user code |
| Accessors.BadValueLine | src/Propper.js:55 | the built-in handlers' own line: `attempt to assign bad value ` then the coerced value, then ` to <name> of <instanceName>`, and the `; requires` clause at the end, with its exact length |
| Accessors.BadValueEffects | src/Propper.js:52-64 | the default handler throws an error carrying the value and the instance, whose text is the message, or its own line when the message is falsy; `'warn'` only logs its own line; a user handler is called with `(value, instance, message, name)`, and a non-callable one is a TypeError |
| Accessors.ChangeEffects | src/Propper.js:110-111 | the default listener does nothing; a configured one is called with `(value, last, instance, name)` |
| Accessors.Get | src/Propper.js:172-181 | a SET slot is returned unchanged with no call; an UNSET slot runs the factory once: a start function is called once with no arguments, an array default yields a fresh array with equal elements, any other default is returned itself; the result is stored exactly when `setOnGet` holds |
| Accessors.Set | src/Propper.js:182-199 | assigning the value the slot holds does nothing at all; a refused value goes to the handler with the slot unchanged; an accepted value is stored, and the listener is called exactly when it differs from the previous value (`undefined` when UNSET) |
| Registry.InstallKeepsConsistent | src/Propper.js:207-210 | adding a property together with its schema entry keeps accessors and schema in agreement |
| Registry.TargetClass.Install | src/Propper.js:202-210 | installation adds the accessor pair and the schema entry `SchemaDef(name, type, config)` and keeps the class consistent |
| Registry.Registrar.AddProp | src/Propper.js:87-213 | every error (bad name, non-object options, unknown type, redefinition) leaves the class unchanged; on success the property and its schema entry are installed and the registrar is returned |
| Conformance.MinusOnePrints | src/Propper.js:18 | `-1` prints as `-1` in a message |
| Conformance.BobArrayPrints | src/Propper.js:18 | `['Bob']` prints as `Bob` in a message |
| Conformance.StringTestMessageForNumber | test/Propper.spec.js:111-117 | assigning `-1` to a `'string'` property `first` is refused with `attempt to assign bad value to first -1 failed type test string` |
| Conformance.StringTestMessageForArray | test/Propper.spec.js:102-108 | assigning `['Bob']` to a `'string'` property `first` is refused with `attempt to assign bad value to first Bob failed type test string` |
| Conformance.PatternTestMessageForArray | test/Propper.spec.js:224-231 | the RegExp test refuses `['Bob']` with the string type-test message |
| Conformance.PatternTestMessageForString | test/Propper.spec.js:245-251 | the RegExp test refuses `$sapphireWonderLoveBead` with `attempt to assign bad value to first "$sapphireWonderLoveBead" failed test /^[\w]+$/` |
| Conformance.UntypedRegistration | src/Propper.js:87-149 | `addProp(name, d)` resolves to slot `_name`, no validation, the throwing handler with no clause, no listener, and the default's factory |
| Conformance.FactoryRegistration | src/Propper.js:135-137 | `addProp(name, f)` with a function makes `f` the start factory and stores its result |
| Conformance.TypedRegistration | src/Propper.js:153-155 | `addProp(name, d, typeName)` for a known name resolves to the type test and a throwing handler whose clause names the type |
| Conformance.HandledRegistration | src/Propper.js:91-94 | `addProp(name, d, typeName, handler)` makes the function the handler with empty options, and keeps the type test |
| Conformance.OptionsInTypePosition | src/Propper.js:97-100 | `addProp(name, d, { type, onBadValue })` takes the object as the options, its `type` as the type and its `onBadValue` as the handler (`'warn'` for the logging one) |
| Conformance.ArrayDefaultsAreNotShared | test/Propper.spec.js:304-330 | two instances read two distinct copies of an array default, and a push through one is not seen through the other |
| Conformance.OtherObjectDefaultsAreShared | test/Propper.spec.js:393-402 | two instances read the very same `Map` default |
| Conformance.FunctionalInitializersRunPerInstance | test/Propper.spec.js:411-420 | a function default is called once per instance, each instance stores the result of its own call (distinct whenever the factory returns distinct objects), and a second read calls nothing |
| Conformance.StringPropertyRefusesNonString | test/Propper.spec.js:85-123 | a `'string'` property stores a string, throws the type-test message with value and instance for a non-string, and keeps the stored string |
| Conformance.PredicateRegistration | src/Propper.js:153-158 | `addProp(name, '', g)` with a function type resolves to a predicate called with the property name, the throwing handler without a `; requires` clause, and the empty-string default |
| Conformance.PredicatePropertyHolding | test/Propper.spec.js:145-153 | a string the predicate accepts is stored after one call `g(value, name)` |
| Conformance.PredicateRefusalThrowsItsMessage | test/Propper.spec.js:163-196 | a value the predicate refuses with a message is passed to `g(value, name)`, the default handler throws exactly that message with the value and the instance attached, and the stored string stays |
| Conformance.InstanceTestOptions | src/Propper.js:151-167 | `addProp(name, '', { test: t })` resolves to a predicate `t` called with the instance, and no type |
| Conformance.InstanceTestRefusalThrowsItsMessage | src/Propper.js:189-193 | a value `config.test` refuses is passed to `t(value, instance)`, the default handler throws its message with the value and instance, and the slot stays UNSET |
| Conformance.HandlerReceivesRefusal | test/Propper.spec.js:267-281 | an `'integer'` property with a handler passes a refused value to the handler as `(value, instance, message, name)` and keeps its default |
| Conformance.HandlerRepairsRefusedValue | test/Propper.spec.js:267-286 | the handler's own integer assignment is then stored, with the default reported as the previous value |
| Conformance.OptionsHandlerSeesRefusal | test/Propper.spec.js:349-382 | with `{ type: 'array', onBadValue }`, assigning `'arrogant'` calls the handler with the value and the instance, and the instance keeps its own copy of the default |
| Conformance.WarnHandlerOnlyLogs | src/Propper.js:67-85 | with `onBadValue: 'warn'`, a refused value is logged as `attempt to assign bad value <v> to <name> of instance; requires string` and nothing is stored |
| Conformance.OptionsInDefaultPosition | src/Propper.js:95-115 | `addProp(name, { type, defaultValue })` takes the object as the options, uses any `defaultValue` as the default through the usual factory, and, with no `test` key, does not validate |
| Conformance.DefaultPositionTypeIsIgnored | test/Propper.spec.js:350 | that property reads as the options' `defaultValue` and accepts a value that is not a string |
| Conformance.LazyOptions | src/Propper.js:97-107 | `{ setOnGet: false, defaultValue: d }` in the type position gives an unvalidated property whose reads do not store |
| Conformance.ReadWithoutSetOnGet | src/Propper.js:172-178 | with `setOnGet: false` a read returns the default and leaves the slot UNSET |
| Conformance.ListenerOptions | src/Propper.js:110-111 | `{ onChange: c }` gives an unvalidated property with `c` as its listener |
| Conformance.ListenerSeesFirstAssignment | src/Propper.js:196-198 | a first assignment calls the listener with `undefined` as the previous value |
| Conformance.ReassignmentIsSilent | src/Propper.js:183-187 | re-assigning the held value returns at once, with no validator and no listener call |
| Conformance.UndefinedFirstAssignmentIsUnnoticed | src/Propper.js:196-198 | assigning `undefined` to an UNSET slot stores it but calls no listener |
| Conformance.SchemaRecordsEachName | src/Propper.js:207-212 | after two registrations the schema holds exactly those two names with their type and options |
| Conformance.RedefinitionIsRefused | src/Propper.js:202 | registering one of them again is refused and the schema is unchanged |
| Conformance.BadNameRegistersNothing | src/Propper.js:88-89 | a name that is not a word is refused with the name test's message and nothing is installed |
| Conformance.UnknownTypeRegistersNothing | src/Propper.js:153-155 | a type name the library lacks is refused with `no test named <type>` and nothing is installed |

## Left out

- Host property installation. `Object.defineProperty` on the prototype becomes the `accessors` map of the target class. The `enumerable` flag is resolved and kept, but the model has no property enumeration for it to affect. Redefinition is refused for any name already in the class's accessors map, whichever registrar installed it; properties the class defines by other means are not modelled. A class's own non-configurable properties are not modelled.
- Prototype-chain lookup. Subclasses writing into a parent's `__schema` map are not modelled, and neither is a storage slot found on the prototype by `localName in this`. The model uses instance-own slots and one schema map per class.
- The `is` library. It is an outside package. The model answers a fixed set of names (`array`, `bool`, `boolean`, `defined`, `fn`, `function`, `int`, `integer`, `nil`, `null`, `number`, `object`, `regexp`, `string`, `undef`, `undefined`) with simplified predicates. Names that resolve through `Object.prototype` (`type in is`) are not modelled. Other names of the real library (such as `date`, `error` or `empty`) are treated as unknown, so registering with them fails in the model where the source succeeds.
- User RegExps. A user RegExp is an abstract source text plus a match predicate. Flags, `lastIndex` state and the flags printed after the closing `/` in a message are not modelled. Only `^[\w]+$` has a concrete matcher.
- String coercion. It covers only primitives, one level of array elements, and fixed tags for functions and other objects. Nested arrays, custom `toString` methods, and a non-string `localName` used as a property key are printed only approximately.
- The `try`/`catch` around message formatting in the built-in handlers. It only matters when coercion throws, which the modelled values never do.
- Console output. The `'warn'` handler's `console.log` is returned as a `Log` effect.
- Floating-point numbers, `NaN` and `-0`. Numbers are integers, so the `Math.round` repair of the test file is modelled with an arbitrary refused value and an integer repair.
- User callbacks. Handlers, listeners, start functions and predicates are returned as effects and are not run. A handler that writes back into the instance is modelled as a second explicit assignment. Their return values are parameters.
- Lodash `get` path syntax. Option keys and `localName` are single keys, and dotted paths are not interpreted.
- The options object's own properties are fixed at creation. Options inherited through a prototype are not modelled, and neither are options of non-plain objects, such as a RegExp's own `test` method or an instance passed as the options.
- Registry.Registrar.constructor: the fallback of `instanceName` to the class's `constructor.name` when the given name is falsy is not modelled. The name is taken as given.
