/**
 * The accessor pair `addProp` generates for a property, run against one
 * instance. Each instance slot is UNSET (no key) or SET (a key). Calls into
 * the user's code are not executed: they are reported as effects, and what a
 * user function returns on a call is passed in.
 */
module Accessors {
  import opened Wrappers
  import opened Values
  import opened Validators
  import opened Resolution

  /** An error thrown out of an accessor. */
  datatype JsError =
    /** The default bad-value handler's Error, with its `value` and `target` fields. */
    | BadValue(message: string, value: Value, target: Instance)
    /** The TypeError of calling something that is not a function. */
    | NotAFunction(callee: Value)

  /** What an accessor call does outside the instance slot. */
  datatype Effect =
    /** The user function `fn` is called with `args`. */
    | Call(fn: nat, args: seq<Value>)
    /** A line is written to the console. */
    | Log(line: string)
    /** An error propagates to the caller. */
    | Throw(error: JsError)

  /** How an assignment ended. */
  datatype SetOutcome =
    /** The slot already held this very value: nothing ran. */
    | Unchanged
    /** The validator produced `message`; the slot was left alone. */
    | Rejected(message: Value)
    /** The slot now holds the value; `last` is what it held before (`undefined` when UNSET). */
    | Assigned(last: Value)

  /** The calls a validator makes into user code when it runs on `value`. */
  function ValidatorCalls(v: Validator, value: Value, self: Instance): (e: seq<Effect>)
    ensures v.PredicateWithName? ==> e == [Call(v.fn, [value, Str(v.prop)])]
    ensures v.PredicateWithInstance? ==> e == [Call(v.fn, [value, Inst(self)])]
    ensures !v.PredicateWithName? && !v.PredicateWithInstance? ==> e == []
  {
    match v
    case PredicateWithName(fn, prop) => [Call(fn, [value, Str(prop)])]
    case PredicateWithInstance(fn) => [Call(fn, [value, Inst(self)])]
    case _ => []
  }

  /** The line both built-in handlers print when they describe a bad value themselves. */
  function BadValueLine(value: Value, prop: string, instanceName: string, clause: string): (r: string)
    reads Objs(value)
    ensures |r| == 36 + |ToString(value)| + |prop| + |instanceName| + |clause|
    ensures r[..28] == "attempt to assign bad value "
    ensures r[28..28 + |ToString(value)|] == ToString(value)
    ensures r[28 + |ToString(value)|..|r| - |clause|] == " to " + prop + " of " + instanceName
    ensures r[|r| - |clause|..] == clause
  {
    var prefix := "attempt to assign bad value ";
    var shown := ToString(value);
    var middle := " to " + prop + " of " + instanceName;
    ConcatParts(prefix, shown, middle + clause);
    ConcatParts(prefix + shown, middle, clause);
    prefix + shown + middle + clause
  }

  /** The three parts of a concatenation can be sliced back out of it. */
  lemma ConcatParts(a: string, b: string, c: string)
    ensures (a + b + c)[..|a|] == a && (a + b + c)[|a|..|a| + |b|] == b && (a + b + c)[|a| + |b|..] == c
  {
  }

  /**
   * The bad-value handler called as `onBadValue(value, instance, message, prop)`.
   * The default handler throws an Error whose text is the message (its own line
   * when the message is falsy); `'warn'` only logs its own line, ignoring the
   * message; a user handler is called with all four arguments.
   */
  function BadValueEffects(policy: Policy, prop: string, value: Value, self: Instance, message: Value): (e: seq<Effect>)
    reads Objs(value), Objs(message)
    ensures |e| == 1
    ensures policy.ThrowError? ==>
              (e[0].Throw? && e[0].error.BadValue? && e[0].error.value == value && e[0].error.target == self)
    ensures policy.ThrowError? && Truthy(message) ==> e[0].error.message == ToString(message)
    ensures policy.ThrowError? && !Truthy(message) ==>
              e[0].error.message == BadValueLine(value, policy.prop, policy.instanceName, policy.clause)
    ensures policy.WarnOnly? ==> e == [Log(BadValueLine(value, policy.prop, policy.instanceName, policy.clause))]
    ensures policy.Custom? && policy.handler.Fn? ==> e == [Call(policy.handler.id, [value, Inst(self), message, Str(prop)])]
    ensures policy.Custom? && !policy.handler.Fn? ==> e == [Throw(NotAFunction(policy.handler))]
  {
    match policy
    case ThrowError(p, instanceName, clause) =>
      var text := if Truthy(message) then ToString(message) else BadValueLine(value, p, instanceName, clause);
      [Throw(BadValue(text, value, self))]
    case WarnOnly(p, instanceName, clause) => [Log(BadValueLine(value, p, instanceName, clause))]
    case Custom(handler) =>
      if handler.Fn? then [Call(handler.id, [value, Inst(self), message, Str(prop)])]
      else [Throw(NotAFunction(handler))]
  }

  /** `onChange(value, last, instance, prop)`; the built-in listener does nothing. */
  function ChangeEffects(listener: Listener, prop: string, value: Value, last: Value, self: Instance): (e: seq<Effect>)
    ensures listener.NoOpListener? ==> e == []
    ensures listener.Listener? && listener.f.Fn? ==> e == [Call(listener.f.id, [value, last, Inst(self), Str(prop)])]
    ensures listener.Listener? && !listener.f.Fn? ==> e == [Throw(NotAFunction(listener.f))]
  {
    match listener
    case NoOpListener => []
    case Listener(f) => if f.Fn? then [Call(f.id, [value, last, Inst(self), Str(prop)])] else [Throw(NotAFunction(f))]
  }

  /** The slot's value, or `undefined` when it is UNSET. */
  function SlotValue(slots: map<string, Value>, key: string): Value
  {
    if key in slots then slots[key] else Undefined
  }

  /** The setter's short-circuit: the slot is SET and already holds exactly `value`. */
  predicate AlreadyHolds(slots: map<string, Value>, key: string, value: Value)
  {
    key in slots && slots[key] == value
  }

  /**
   * The generated getter. A SET slot is read directly. An UNSET slot runs the
   * start factory once; with `setOnGet` the result is stored (the slot becomes
   * SET), without it the slot stays UNSET. `produced` is what a user start
   * function returns on this call.
   */
  method Get(p: PropSpec, self: Instance, produced: Value) returns (r: Result<Value, JsError>, effects: seq<Effect>)
    modifies self
    ensures p.localName in old(self.slots) ==>
              r == Ok(old(self.slots)[p.localName]) && effects == [] && self.slots == old(self.slots)
    ensures p.localName !in old(self.slots) && p.start.Invoke? && p.start.f.Fn? ==>
              r == Ok(produced) && effects == [Call(p.start.f.id, [])]
    ensures p.localName !in old(self.slots) && p.start.Invoke? && !p.start.f.Fn? ==>
              r == Err(NotAFunction(p.start.f)) && effects == [] && self.slots == old(self.slots)
    ensures p.localName !in old(self.slots) && p.start.CopyOf? ==>
              r.Ok? && r.value.Ref? && fresh(r.value.obj) && r.value.obj.kind.ArrayKind? &&
              r.value.obj.elems == p.start.source.elems && effects == []
    ensures p.localName !in old(self.slots) && p.start.Constant? ==>
              r == Ok(p.start.value) && effects == []
    ensures p.localName !in old(self.slots) && r.Ok? ==>
              self.slots == if p.setOnGet then old(self.slots)[p.localName := r.value] else old(self.slots)
  {
    var key := p.localName;
    if key in self.slots {
      return Ok(self.slots[key]), [];
    }
    var v: Value;
    effects := [];
    match p.start {
      case Invoke(f) =>
        if !f.Fn? {
          return Err(NotAFunction(f)), [];
        }
        effects := [Call(f.id, [])];
        v := produced;
      case CopyOf(source) =>
        var copy := new JsObject(ArrayKind, source.elems);
        v := Ref(copy);
      case Constant(c) =>
        v := c;
    }
    if p.setOnGet {
      self.slots := self.slots[key := v];
    }
    r := Ok(v);
  }

  /**
   * The generated setter. An assignment of the value the SET slot already
   * holds does nothing at all. Otherwise the validator runs (`verdict` is what
   * a user validator returns on this call); a failure goes to the bad-value
   * handler and leaves the slot alone; a success stores the value and calls
   * `onChange` when the value differs from the previous one.
   */
  method Set(p: PropSpec, self: Instance, value: Value, verdict: Value) returns (out: SetOutcome, effects: seq<Effect>)
    modifies self
    ensures out.Unchanged? <==> AlreadyHolds(old(self.slots), p.localName, value)
    ensures out.Unchanged? ==> effects == [] && self.slots == old(self.slots)
    ensures out.Rejected? <==>
              !AlreadyHolds(old(self.slots), p.localName, value) && Check(p.validator, value, verdict).Some?
    ensures out.Rejected? ==>
              out.message == Check(p.validator, value, verdict).value &&
              self.slots == old(self.slots) &&
              effects == ValidatorCalls(p.validator, value, self) +
                         BadValueEffects(p.onBadValue, p.name, value, self, out.message)
    ensures out.Assigned? ==>
              out.last == SlotValue(old(self.slots), p.localName) &&
              self.slots == old(self.slots)[p.localName := value] &&
              effects == ValidatorCalls(p.validator, value, self) +
                         (if value != out.last then ChangeEffects(p.onChange, p.name, value, out.last, self) else [])
  {
    var key := p.localName;
    if key in self.slots && self.slots[key] == value {
      return Unchanged, [];
    }
    effects := ValidatorCalls(p.validator, value, self);
    var result := Check(p.validator, value, verdict);
    if result.Some? {
      effects := effects + BadValueEffects(p.onBadValue, p.name, value, self, result.value);
      return Rejected(result.value), effects;
    }
    var last := SlotValue(self.slots, key);
    self.slots := self.slots[key := value];
    if value != last {
      effects := effects + ChangeEffects(p.onChange, p.name, value, last, self);
    }
    out := Assigned(last);
  }
}
