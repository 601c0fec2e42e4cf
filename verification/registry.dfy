/**
 * Registration against a target class: the registrar bound to one class,
 * the accessors installed on the class's prototype, and the per-class schema
 * map of `name -> SchemaDef(name, type, config)`.
 */
module Registry {
  import opened Wrappers
  import opened Values
  import opened Resolution

  /** The creation record kept for each registered property. */
  datatype SchemaDef = SchemaDef(name: string, typeSpec: Value, config: Config)

  /** Every managed property has a schema entry recording its name, type and options. */
  ghost predicate Consistent(accessors: map<string, PropSpec>, schema: map<string, SchemaDef>)
  {
    accessors.Keys == schema.Keys &&
    forall name :: name in schema ==>
      accessors[name].name == name &&
      schema[name] == SchemaDef(name, accessors[name].typeSpec, accessors[name].config)
  }

  /** Installing one more property, with its schema entry, keeps the two maps consistent. */
  lemma InstallKeepsConsistent(accessors: map<string, PropSpec>, schema: map<string, SchemaDef>, spec: PropSpec)
    requires Consistent(accessors, schema)
    ensures Consistent(accessors[spec.name := spec],
                       schema[spec.name := SchemaDef(spec.name, spec.typeSpec, spec.config)])
  {
  }

  /**
   * A class that managed properties are registered on: the accessor pairs on
   * its prototype (by property name) and its schema map.
   */
  class TargetClass {
    var accessors: map<string, PropSpec>
    var schema: map<string, SchemaDef>

    ghost predicate Valid()
      reads this
    {
      Consistent(accessors, schema)
    }

    constructor ()
      ensures Valid() && accessors == map[] && schema == map[]
    {
      accessors := map[];
      schema := map[];
    }

    /** `Object.defineProperty` on the prototype, then the schema entry for the property. */
    method Install(spec: PropSpec)
      requires Valid()
      modifies this
      ensures Valid()
      ensures accessors == old(accessors)[spec.name := spec]
      ensures schema == old(schema)[spec.name := SchemaDef(spec.name, spec.typeSpec, spec.config)]
    {
      InstallKeepsConsistent(accessors, schema, spec);
      accessors := accessors[spec.name := spec];
      schema := schema[spec.name := SchemaDef(spec.name, spec.typeSpec, spec.config)];
    }
  }

  /** The object `addProp` is called on: a target class and the name its messages use. */
  class Registrar {
    const target: TargetClass
    const instanceName: string

    constructor (target: TargetClass, instanceName: string)
      ensures this.target == target && this.instanceName == instanceName
    {
      this.target := target;
      this.instanceName := instanceName;
    }

    /**
     * `addProp(name, defaultValue, type, config)`. Every error (a bad name, an
     * options value that is not an object, an unknown type name, a name
     * already managed on this class) is raised before anything is installed.
     * On success the accessors for `name` are installed, the schema records
     * `SchemaDef(name, type, config)` with the resolved type and options, and
     * the registrar itself is returned for chaining.
     */
    method AddProp(name: Value, dflt: Value, typeSpec: Value, config: Value) returns (r: Result<Registrar, AddError>)
      requires target.Valid()
      modifies target
      ensures target.Valid()
      ensures Resolve(name, dflt, typeSpec, config, instanceName).Err? ==>
                r == Err(Resolve(name, dflt, typeSpec, config, instanceName).error) && unchanged(target)
      ensures Resolve(name, dflt, typeSpec, config, instanceName).Ok? ==>
                var spec := Resolve(name, dflt, typeSpec, config, instanceName).value;
                if spec.name in old(target.accessors) then
                  r == Err(CannotRedefine(spec.name)) && unchanged(target)
                else
                  r == Ok(this) &&
                  target.accessors == old(target.accessors)[spec.name := spec] &&
                  target.schema == old(target.schema)[spec.name := SchemaDef(spec.name, spec.typeSpec, spec.config)]
    {
      var resolved := Resolve(name, dflt, typeSpec, config, instanceName);
      if resolved.Err? {
        return Err(resolved.error);
      }
      var spec := resolved.value;
      if spec.name in target.accessors {
        return Err(CannotRedefine(spec.name));
      }
      target.Install(spec);
      r := Ok(this);
    }
  }
}
