/**
 * Validator synthesis: the type-name test, the regular-expression test, the
 * property-name test built from it, and the validator variants a property can
 * end up with. A validator maps a candidate value to no message (accepted) or
 * to a truthy failure message (rejected).
 */
module Validators {
  import opened Wrappers
  import opened Values

  // ---------------------------------------------------------------------------
  // The fixed name pattern ^[\w]+$

  /** `\w`: an ASCII letter, a digit or the underscore. */
  predicate IsWordChar(c: char)
  {
    ('a' <= c <= 'z') || ('A' <= c <= 'Z') || ('0' <= c <= '9') || c == '_'
  }

  /** A non-empty string made only of word characters. */
  predicate IsWordName(s: string)
  {
    |s| > 0 && forall i :: 0 <= i < |s| ==> IsWordChar(s[i])
  }

  /** `[\w]*$`: the rest of the input is word characters up to its end. */
  predicate MatchWordStar(s: string)
  {
    s == [] || (IsWordChar(s[0]) && MatchWordStar(s[1..]))
  }

  /** `^[\w]+$`: one word character, then `[\w]*$`. */
  predicate MatchWordPlus(s: string)
  {
    |s| > 0 && IsWordChar(s[0]) && MatchWordStar(s[1..])
  }

  lemma {:induction false} WordStarMatchesWordChars(s: string)
    ensures MatchWordStar(s) <==> forall i :: 0 <= i < |s| ==> IsWordChar(s[i])
  {
    if s != [] {
      WordStarMatchesWordChars(s[1..]);
      assert forall i :: 1 <= i < |s| ==> s[i] == s[1..][i - 1];
    }
  }

  /** The matcher of `^[\w]+$` accepts exactly the non-empty word-character strings. */
  lemma {:induction false} WordPatternMatchesWordNames(s: string)
    ensures MatchWordPlus(s) <==> IsWordName(s)
  {
    if |s| > 0 {
      WordStarMatchesWordChars(s[1..]);
      assert forall i :: 1 <= i < |s| ==> s[i] == s[1..][i - 1];
    }
  }

  /** The RegExp `/^[\w]+$/` that property names must match. */
  const WordPattern: Pattern := Pattern("^[\\w]+$", MatchWordPlus)

  // ---------------------------------------------------------------------------
  // makeTypeTest and makeRETest

  function TypeMessage(prop: string, value: Value, typeName: string): string
    reads Objs(value)
  {
    "attempt to assign bad value to " + prop + " " + ToString(value) + " failed type test " + typeName
  }

  function PatternMessage(prop: string, s: string, pattern: Pattern): string
  {
    "attempt to assign bad value to " + prop + " \"" + s + "\" failed test /" + pattern.source + "/"
  }

  /** The closure `makeTypeTest(prop, typeName)` returns, applied to `value`. */
  function TypeCheck(prop: string, typeName: string, value: Value): (r: Option<string>)
    reads Objs(value)
    ensures r.None? <==> IsType(typeName, value)
    ensures r.Some? ==> r.value == TypeMessage(prop, value, typeName)
  {
    if IsType(typeName, value) then None else Some(TypeMessage(prop, value, typeName))
  }

  /**
   * The closure `makeRETest(prop, pattern)` returns, applied to `value`: a
   * non-string gets the string type-test message and is never matched against
   * the pattern; a string is accepted exactly when the pattern matches it.
   */
  function PatternCheck(prop: string, pattern: Pattern, value: Value): (r: Option<string>)
    reads Objs(value)
    ensures !value.Str? ==> r == Some(TypeMessage(prop, value, "string"))
    ensures value.Str? ==> (r.None? <==> pattern.matches(value.s))
    ensures value.Str? && r.Some? ==> r.value == PatternMessage(prop, value.s, pattern)
  {
    match TypeCheck(prop, "string", value)
    case Some(m) => Some(m)
    case None => if pattern.matches(value.s) then None else Some(PatternMessage(prop, value.s, pattern))
  }

  /**
   * `propNameTest`: the RegExp test for `^[\w]+$` under the label `property`.
   * It accepts exactly the strings that are non-empty runs of word characters.
   */
  function NameCheck(name: Value): (r: Option<string>)
    reads Objs(name)
    ensures r.None? <==> name.Str? && IsWordName(name.s)
    ensures !name.Str? ==> r == Some(TypeMessage("property", name, "string"))
    ensures name.Str? && r.Some? ==> r.value == PatternMessage("property", name.s, WordPattern)
  {
    if name.Str? then WordPatternMatchesWordNames(name.s); PatternCheck("property", WordPattern, name)
    else PatternCheck("property", WordPattern, name)
  }

  // ---------------------------------------------------------------------------
  // The validators a property can carry

  datatype Validator =
    /** No validation: every assignment is accepted. */
    | NoCheck
    /** `makeTypeTest(prop, typeName)` for a name the library has. */
    | TypeTest(prop: string, typeName: string)
    /** `makeRETest(prop, re)`. */
    | PatternTest(prop: string, pattern: Pattern)
    /** A type given as a function: called as `type(value, prop)`. */
    | PredicateWithName(fn: nat, prop: string)
    /** A `config.test` function: called as `test(value, instance)`. */
    | PredicateWithInstance(fn: nat)

  /** `makeTypeTest(prop, typeName)` at registration: a name the library lacks is an error. */
  function MakeTypeTest(prop: string, typeName: string): (r: Result<Validator, string>)
    ensures r.Ok? <==> typeName in KnownTypes
    ensures r.Ok? ==> r.value == TypeTest(prop, typeName)
    ensures r.Err? ==> r.error == "no test named " + typeName
  {
    if typeName in KnownTypes then Ok(TypeTest(prop, typeName)) else Err("no test named " + typeName)
  }

  /**
   * What a validator reports for `value`. For the user's predicate functions,
   * `verdict` is what the function returned on this call; a falsy return
   * accepts, and any truthy return is the failure message.
   */
  function Check(v: Validator, value: Value, verdict: Value): (r: Option<Value>)
    reads Objs(value)
    ensures r.Some? ==> Truthy(r.value)
    ensures v.NoCheck? ==> r.None?
    ensures v.TypeTest? ==> (r.None? <==> IsType(v.typeName, value))
    ensures v.TypeTest? && r.Some? ==> r.value == Str(TypeMessage(v.prop, value, v.typeName))
    ensures v.PatternTest? && !value.Str? ==> r == Some(Str(TypeMessage(v.prop, value, "string")))
    ensures v.PatternTest? && value.Str? ==> (r.None? <==> v.pattern.matches(value.s))
    ensures v.PatternTest? && value.Str? && r.Some? ==> r.value == Str(PatternMessage(v.prop, value.s, v.pattern))
    ensures (v.PredicateWithName? || v.PredicateWithInstance?) ==> r == (if Truthy(verdict) then Some(verdict) else None)
  {
    match v
    case NoCheck => None
    case TypeTest(prop, typeName) =>
      (match TypeCheck(prop, typeName, value) case None => None case Some(m) => Some(Str(m)))
    case PatternTest(prop, pattern) =>
      (match PatternCheck(prop, pattern, value) case None => None case Some(m) => Some(Str(m)))
    case _ => if Truthy(verdict) then Some(verdict) else None
  }
}
