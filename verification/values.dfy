/**
 * The JavaScript values that the property-registration engine inspects:
 * primitives, callables (by identity), heap objects (by reference) and the
 * instances that carry managed properties. Also the engine's view of the
 * `is` type-predicate library and of string coercion in messages.
 */
module Values {

  /** A JavaScript value, as far as the engine tells values apart. */
  datatype Value =
    | Undefined
    | Null
    | Bool(b: bool)
    | Int(i: int)
    | Str(s: string)
    /** A callable; `id` is its identity, so `===` on callables is `==` on ids. */
    | Fn(id: nat)
    /** A heap object (array, plain object, RegExp, Map, ...), compared by reference. */
    | Ref(obj: JsObject)
    /** An instance of a class that carries managed properties. */
    | Inst(inst: Instance)

  /** A regular expression: its source text and the set of strings it accepts. */
  datatype Pattern = Pattern(source: string, matches: string -> bool)

  /** What sort of heap object a reference points at; fixed when the object is made. */
  datatype Kind =
    | ArrayKind
    /** A plain object literal; its own properties (not changed after creation in this model). */
    | PlainKind(props: map<string, Value>)
    | RegExpKind(pattern: Pattern)
    /** Any other built-in object, e.g. a `Map`, named by its `Object.prototype.toString` tag. */
    | OtherKind(tag: string)

  /** A heap object. Arrays keep their (mutable) elements in `elems`. */
  class JsObject {
    const kind: Kind
    var elems: seq<Value>

    constructor (kind: Kind, elems: seq<Value>)
      ensures this.kind == kind && this.elems == elems
    {
      this.kind := kind;
      this.elems := elems;
    }
  }

  /**
   * An instance of a target class. `slots` holds the instance's own storage
   * properties, keyed by each managed property's local name; a key that is
   * absent is the UNSET state of that property.
   */
  class Instance {
    var slots: map<string, Value>

    constructor ()
      ensures slots == map[]
    {
      slots := map[];
    }
  }

  /** The objects whose state a value's string form depends on. */
  function Objs(v: Value): set<object>
  {
    if v.Ref? then {v.obj} else {}
  }

  /** JavaScript truthiness (there are no floats here, so no NaN and no -0). */
  predicate Truthy(v: Value)
  {
    match v
    case Undefined => false
    case Null => false
    case Bool(b) => b
    case Int(i) => i != 0
    case Str(s) => s != ""
    case _ => true
  }

  /** `is.object`: the value's `Object.prototype.toString` tag is `[object Object]`. */
  predicate IsPlainObject(v: Value)
  {
    (v.Ref? && v.obj.kind.PlainKind?) || v.Inst?
  }

  /** `Array.isArray`. */
  predicate IsArray(v: Value)
  {
    v.Ref? && v.obj.kind.ArrayKind?
  }

  /** `is.regexp`. */
  predicate IsRegExp(v: Value)
  {
    v.Ref? && v.obj.kind.RegExpKind?
  }

  /** Values that JavaScript's `in` operator accepts as its right operand. */
  predicate IsObject(v: Value)
  {
    v.Ref? || v.Inst? || v.Fn?
  }

  // ---------------------------------------------------------------------------
  // The type-predicate library, looked up by name.

  /** The predicate names the library answers to in this model. */
  const KnownTypes: set<string> :=
    {"array", "bool", "boolean", "defined", "fn", "function", "int", "integer",
     "nil", "null", "number", "object", "regexp", "string", "undef", "undefined"}

  /** `is[typeName](v)`; false for a name the library does not have. */
  predicate IsType(typeName: string, v: Value)
  {
    if typeName == "array" then IsArray(v)
    else if typeName == "bool" || typeName == "boolean" then v.Bool?
    else if typeName == "defined" then !v.Undefined?
    else if typeName == "fn" || typeName == "function" then v.Fn?
    else if typeName == "int" || typeName == "integer" || typeName == "number" then v.Int?
    else if typeName == "nil" || typeName == "null" then v.Null?
    else if typeName == "object" then IsPlainObject(v)
    else if typeName == "regexp" then IsRegExp(v)
    else if typeName == "string" then v.Str?
    else if typeName == "undef" || typeName == "undefined" then v.Undefined?
    else false
  }

  // ---------------------------------------------------------------------------
  // String coercion, as template literals in the engine's messages apply it.

  function DigitChar(d: nat): char
    requires d < 10
  {
    "0123456789"[d]
  }

  function NatToString(n: nat): (r: string)
    ensures |r| > 0
  {
    if n < 10 then [DigitChar(n)] else NatToString(n / 10) + [DigitChar(n % 10)]
  }

  /** Decimal form of an integer, with a leading `-` when negative. */
  function IntToString(i: int): string
  {
    if i < 0 then "-" + NatToString(-i) else NatToString(i)
  }

  /** The tag `Object.prototype.toString` prints for an object. */
  function ObjectTag(k: Kind): string
  {
    match k
    case ArrayKind => "[object Array]"
    case PlainKind(_) => "[object Object]"
    case RegExpKind(p) => "/" + p.source + "/"
    case OtherKind(tag) => "[object " + tag + "]"
  }

  /** String form of a value that does not look inside arrays. */
  function ShallowString(v: Value): string
  {
    match v
    case Undefined => "undefined"
    case Null => "null"
    case Bool(b) => if b then "true" else "false"
    case Int(i) => IntToString(i)
    case Str(s) => s
    case Fn(_) => "function"
    case Ref(o) => ObjectTag(o.kind)
    case Inst(_) => "[object Object]"
  }

  /** How `Array.prototype.join` prints one element: `undefined` and `null` become empty. */
  function ElementString(v: Value): string
  {
    if v.Undefined? || v.Null? then "" else ShallowString(v)
  }

  /** The elements joined by commas. */
  function Join(elems: seq<Value>): (r: string)
    ensures |elems| == 0 ==> r == ""
    ensures |elems| == 1 ==> r == ElementString(elems[0])
    // the text starts with the first element and ends with a comma and the last one
    ensures |elems| >= 1 ==> ElementString(elems[0]) <= r
    ensures |elems| >= 2 ==>
              |r| > |ElementString(elems[|elems| - 1])| &&
              r[|r| - |ElementString(elems[|elems| - 1])| - 1..] == "," + ElementString(elems[|elems| - 1])
  {
    if |elems| == 0 then ""
    else if |elems| == 1 then ElementString(elems[0])
    else Join(elems[..|elems| - 1]) + "," + ElementString(elems[|elems| - 1])
  }

  /** `${v}`: an array prints as its joined elements, everything else as its shallow form. */
  function ToString(v: Value): (r: string)
    reads Objs(v)
    ensures v.Str? ==> r == v.s
    ensures v.Int? ==> r == IntToString(v.i)
    ensures v.Undefined? ==> r == "undefined"
    ensures v.Null? ==> r == "null"
    // an array of one string prints as that string, without brackets or quotes
    ensures IsArray(v) && |v.obj.elems| == 1 && v.obj.elems[0].Str? ==> r == v.obj.elems[0].s
    ensures IsArray(v) && |v.obj.elems| == 0 ==> r == ""
    ensures IsArray(v) ==> r == Join(v.obj.elems)
  {
    if IsArray(v) then Join(v.obj.elems) else ShallowString(v)
  }

  /**
   * Joining separates the elements by exactly one comma each: when no element
   * prints with a comma of its own, the text holds one comma fewer than there
   * are elements.
   */
  lemma {:induction false} JoinSeparatesElements(elems: seq<Value>)
    requires |elems| > 0
    requires forall i :: 0 <= i < |elems| ==> ',' !in ElementString(elems[i])
    ensures multiset(Join(elems))[','] == |elems| - 1
  {
    if |elems| > 1 {
      var init := elems[..|elems| - 1];
      assert forall i :: 0 <= i < |init| ==> ElementString(init[i]) == ElementString(elems[i]);
      JoinSeparatesElements(init);
      var last := ElementString(elems[|elems| - 1]);
      assert multiset(last)[','] == 0;
      assert Join(elems) == Join(init) + "," + last;
    }
  }

  /** The property key a value stands for when used as a property name. */
  function PropertyKey(v: Value): string
  {
    ShallowString(v)
  }
}
